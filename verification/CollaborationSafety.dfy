/**
 Every action of the collaboration system keeps its invariant: rooms, fetched heads and
 payloads are always some draft of the chain, an accepted patch is on the chain exactly where
 it says, and an aborted one was overtaken. Each step is shown to move one call, one room and
 one message at most; what is not moved stays right because chains only grow.
 */
module CollaborationSafety {
  import opened Wrappers
  import opened Text
  import opened Documents
  import opened Patches
  import opened PageStore
  import opened UseCases
  import opened Lifecycle
  import opened DraftChain
  import opened PageCalls
  import opened PageInterleaving
  import opened Collaboration

  // ---------------------------------------------------------------- assembling the invariant

  /** At most the room under this key is new, and it is right. */
  ghost predicate RoomsMoved(s: System, after: System, key: string) {
    forall k :: k in after.rooms ==>
      (k in s.rooms && after.rooms[k] == s.rooms[k]) || (k == key && RoomOk(after.store, k, after.rooms[k]))
  }

  ghost predicate CallsMoved(s: System, after: System, plan: Plan, id: nat) {
    forall j :: j in after.calls ==>
      (j in s.calls && after.calls[j] == s.calls[j]) || (j == id && CallOk(after.store, plan, after.calls[j]))
  }

  ghost predicate SentMoved(s: System, after: System, plan: Plan) {
    || after.sent == s.sent
    || (|after.sent| == |s.sent| + 1 && after.sent[..|s.sent|] == s.sent && MessageOk(after.store, plan, after.sent[|s.sent|]))
  }

  lemma SystemInvMoves(s: System, after: System, plan: Plan, id: nat, key: string)
    requires SystemInv(s, plan) && StoreInv(after.store, plan) && Grown(s.store, after.store)
    requires RoomsMoved(s, after, key) && CallsMoved(s, after, plan, id) && SentMoved(s, after, plan)
    ensures SystemInv(after, plan)
  {
    forall k | k in after.rooms ensures RoomOk(after.store, k, after.rooms[k]) {
      if k in s.rooms && after.rooms[k] == s.rooms[k] {
        RoomStays(s.store, after.store, k, s.rooms[k]);
      }
    }
    forall j | j in after.calls ensures CallOk(after.store, plan, after.calls[j]) {
      if j in s.calls && after.calls[j] == s.calls[j] {
        CallStays(s.store, after.store, plan, s.calls[j]);
      }
    }
    forall i | 0 <= i < |after.sent| ensures MessageOk(after.store, plan, after.sent[i]) {
      if i < |s.sent| {
        assert after.sent[i] == s.sent[i];
        MessageStays(s.store, after.store, plan, s.sent[i]);
      }
    }
  }

  lemma LastIsMember(st: State, p: string, head: Head)
    requires HandedHead(st, p, head) && ':' !in p
    ensures OnChain(st, p, head)
  {
  }

  // --------------------------------------------------------------------------------- steps

  lemma RoomInHand(st: State, task: RoomTask, room: Room)
    requires RoomOk(st, KeyOf(task), room) && ':' !in task.pageId
    ensures OnChain(st, task.pageId, room.head)
  {
    var ws :| KeyOf(task) == RoomKey(ws, room.pageId);
    RoomKeysAreInjective(task.workspaceId, task.pageId, ws, room.pageId);
  }

  lemma RoomMoves(s: System, plan: Plan, id: nat, task: RoomTask)
    requires TaskOk(plan, task) && (KeyOf(task) in s.rooms ==> OnChain(s.store, task.pageId, s.rooms[KeyOf(task)].head))
    ensures var after := RoomStep(s, id, task);
            && after.store == s.store && after.rooms == s.rooms && after.sent == s.sent
            && CallsMoved(s, after, plan, id)
  {
  }

  lemma RoomStepKeepsInv(s: System, plan: Plan, id: nat, task: RoomTask)
    requires SystemInv(s, plan) && TaskOk(plan, task)
    ensures SystemInv(RoomStep(s, id, task), plan) && RoomStep(s, id, task).store == s.store
  {
    GrownItself(s.store);
    if KeyOf(task) in s.rooms {
      RoomInHand(s.store, task, s.rooms[KeyOf(task)]);
    }
    RoomMoves(s, plan, id, task);
    SystemInvMoves(s, RoomStep(s, id, task), plan, id, KeyOf(task));
  }

  lemma HeadMoves(s: System, plan: Plan, id: nat, task: RoomTask, aborted: bool, o: Outcome)
    requires TaskOk(plan, task) && (aborted ==> task.Submit?)
    requires o.response.HeadIs? ==>
               OnChain(o.world.store, task.pageId, o.response.head) && (aborted ==> task.base < o.response.head.no)
    ensures var after := HeadStep(s, id, task, aborted, o);
            && after.store == o.world.store
            && RoomsMoved(s, after, KeyOf(task)) && CallsMoved(s, after, plan, id) && SentMoved(s, after, plan)
  {
  }

  lemma HeadStepKeepsInv(s: System, plan: Plan, id: nat, task: RoomTask, aborted: bool, files: FileResolver, o: Outcome)
    requires SystemInv(s, plan) && TaskOk(plan, task)
    requires aborted ==> task.Submit? && Overtaken(s.store, task.pageId, task.base)
    requires o == ReadView(World(s.store, map[], 0), task.pageId, DraftKind, files)
    ensures SystemInv(HeadStep(s, id, task, aborted, o), plan)
    ensures Grown(s.store, HeadStep(s, id, task, aborted, o).store)
  {
    HeadReadKeepsInv(s.store, plan, task.pageId, files, o);
    if o.response.HeadIs? {
      LastIsMember(o.world.store, task.pageId, o.response.head);
    }
    HeadMoves(s, plan, id, task, aborted, o);
    SystemInvMoves(s, HeadStep(s, id, task, aborted, o), plan, id, KeyOf(task));
  }

  lemma NewRoomOk(st: State, task: RoomTask, head: Head)
    requires OnChain(st, task.pageId, head)
    ensures RoomOk(st, KeyOf(task), Room(task.pageId, head))
  {
  }

  /** What saving a room and telling a client leaves, if both are right. */
  ghost predicate SavingMoves(s: System, after: System, plan: Plan, id: nat, task: RoomTask) {
    && after.store == s.store
    && RoomsMoved(s, after, KeyOf(task)) && CallsMoved(s, after, plan, id) && SentMoved(s, after, plan)
  }

  lemma StoreMoves(s: System, plan: Plan, id: nat, task: RoomTask, head: Head)
    requires TaskOk(plan, task) && OnChain(s.store, task.pageId, head) && RoomOk(s.store, KeyOf(task), Room(task.pageId, head))
    ensures SavingMoves(s, StoreStep(s, id, task, head), plan, id, task)
  {
  }

  lemma AcceptMoves(s: System, plan: Plan, id: nat, task: RoomTask, next: Document, no: int, revisionId: string)
    requires TaskOk(plan, task) && RoomCallOk(s.store, plan, task, Committed(next, no, revisionId))
    requires RoomOk(s.store, KeyOf(task), Room(task.pageId, Head(no, revisionId, next)))
    ensures SavingMoves(s, AcceptStep(s, id, task, next, no, revisionId), plan, id, task)
  {
  }

  lemma RebaseMoves(s: System, plan: Plan, id: nat, task: RoomTask, head: Head)
    requires TaskOk(plan, task) && RoomCallOk(s.store, plan, task, AbortedWith(head))
    requires RoomOk(s.store, KeyOf(task), Room(task.pageId, head))
    ensures SavingMoves(s, RebaseStep(s, id, task, head), plan, id, task)
  {
  }

  lemma SavingKeepsInv(s: System, after: System, plan: Plan, id: nat, task: RoomTask)
    requires SystemInv(s, plan) && SavingMoves(s, after, plan, id, task)
    ensures SystemInv(after, plan) && after.store == s.store
  {
    GrownItself(s.store);
    SystemInvMoves(s, after, plan, id, KeyOf(task));
  }

  lemma StoreStepKeepsInv(s: System, plan: Plan, id: nat, task: RoomTask, head: Head)
    requires SystemInv(s, plan) && TaskOk(plan, task) && OnChain(s.store, task.pageId, head)
    ensures SystemInv(StoreStep(s, id, task, head), plan) && StoreStep(s, id, task, head).store == s.store
  {
    NewRoomOk(s.store, task, head);
    StoreMoves(s, plan, id, task, head);
    SavingKeepsInv(s, StoreStep(s, id, task, head), plan, id, task);
  }

  lemma NewCommitOk(st: State, plan: Plan, task: RoomTask, head: Head, next: Document)
    requires task.Submit? && TaskOk(plan, task) && OnChain(st, task.pageId, head)
    requires head.no == task.base && ApplyPatch(head.document, task.ops) == Ok(next)
    ensures CommitCallOk(st, plan, task, head, next, AtKey)
  {
  }

  lemma HandMoves(s: System, plan: Plan, id: nat, task: RoomTask, head: Head, present: bool)
    requires TaskOk(plan, task) && OnChain(s.store, task.pageId, head)
    ensures var after := HandStep(s, id, task, head, present);
            && after.store == s.store && after.rooms == s.rooms
            && CallsMoved(s, after, plan, id) && SentMoved(s, after, plan)
  {
    if task.Submit? && present && head.no == task.base && ApplyPatch(head.document, task.ops).Ok? {
      NewCommitOk(s.store, plan, task, head, ApplyPatch(head.document, task.ops).value);
    }
  }

  lemma HandStepKeepsInv(s: System, plan: Plan, id: nat, task: RoomTask, head: Head, present: bool)
    requires SystemInv(s, plan) && TaskOk(plan, task) && OnChain(s.store, task.pageId, head)
    ensures SystemInv(HandStep(s, id, task, head, present), plan) && HandStep(s, id, task, head, present).store == s.store
  {
    GrownItself(s.store);
    HandMoves(s, plan, id, task, head, present);
    SystemInvMoves(s, HandStep(s, id, task, head, present), plan, id, KeyOf(task));
  }

  lemma AcceptStepKeepsInv(s: System, plan: Plan, id: nat, task: RoomTask, next: Document, no: int, revisionId: string)
    requires SystemInv(s, plan) && TaskOk(plan, task) && RoomCallOk(s.store, plan, task, Committed(next, no, revisionId))
    ensures SystemInv(AcceptStep(s, id, task, next, no, revisionId), plan) && AcceptStep(s, id, task, next, no, revisionId).store == s.store
  {
    NewRoomOk(s.store, task, Head(no, revisionId, next));
    AcceptMoves(s, plan, id, task, next, no, revisionId);
    SavingKeepsInv(s, AcceptStep(s, id, task, next, no, revisionId), plan, id, task);
  }

  lemma RebaseStepKeepsInv(s: System, plan: Plan, id: nat, task: RoomTask, head: Head)
    requires SystemInv(s, plan) && TaskOk(plan, task) && RoomCallOk(s.store, plan, task, AbortedWith(head))
    ensures SystemInv(RebaseStep(s, id, task, head), plan) && RebaseStep(s, id, task, head).store == s.store
  {
    NewRoomOk(s.store, task, head);
    RebaseMoves(s, plan, id, task, head);
    SavingKeepsInv(s, RebaseStep(s, id, task, head), plan, id, task);
  }

  // -------------------------------------------------------------------------------- commits

  lemma {:induction false} SnapIsStored(revs: seq<Revision>, n: nat, x: Snap)
    requires n <= |revs| && UniqueFirst(revs, |revs|) && x in DraftsFirst(revs, n)
    ensures RevisionIndex(revs, x.id) < |revs| && SnapOf(revs[RevisionIndex(revs, x.id)]) == x
    decreases n
  {
    assert DraftsFirst(revs, n) == DraftsNext(revs, n - 1);
    if x in DraftsFirst(revs, n - 1) {
      SnapIsStored(revs, n - 1, x);
    } else {
      assert x == SnapOf(revs[n - 1]);
      UniqueAt(revs, |revs|, n - 1);
    }
  }

  lemma SnapIsFound(st: State, p: string, x: Snap)
    requires PageInv(st, p) && x in Chain(st, p)
    ensures RevisionById(st, p, x.id).Some? && SnapOf(RevisionById(st, p, x.id).value) == x
  {
    SnapIsStored(RevisionsOf(st, p), |RevisionsOf(st, p)|, x);
  }

  /** The snap a patch leads to from a room is the room's patched document. */
  lemma SamePatchSameSnap(chain: seq<Snap>, top: int, room: Head, ops: seq<Op>, next: Document, no: int, id: string)
    requires Rising(chain, top) && SnapOfHead(room) in chain
    requires ApplyPatch(room.document, ops) == Ok(next) && PatchOnChain(chain, Intent(room.no, ops), no, id)
    ensures Snap(no, id, View(next)) in chain
  {
    var i: nat :| PatchStep(chain, i, Intent(room.no, ops), no, id);
    SameNumberSameSnap(chain, top, chain[i - 1], SnapOfHead(room));
    PatchedViews(room.document, ops, next);
    assert chain[i] == Snap(no, id, View(next));
  }

  /** A commit whose patch id is recorded is answered with that patch's own draft. */
  lemma RecordedCommit(st: State, plan: Plan, task: RoomTask, room: Head, next: Document)
    requires StoreInv(st, plan) && task.Submit? && CommitCallOk(st, plan, task, room, next, AtKey)
    requires Recorded(st, task.pageId, CommitOf(task, next).key).Some?
    ensures var r := Recorded(st, task.pageId, CommitOf(task, next).key).value;
            && PatchOnChain(Chain(st, task.pageId), Intent(task.base, task.ops), r.no, r.id)
            && Snap(r.no, r.id, View(next)) in Chain(st, task.pageId)
  {
    var p, t := task.pageId, TrimSpace(task.patchId);
    assert PageInv(st, p) && RecordInv(st, plan, p, t);
    var record := st.idempotencies[PatchKey(p, t)];
    ChainIsRising(st, p);
    SamePatchSameSnap(Chain(st, p), st.pages[p].draftNo, room, task.ops, next, record.revisionNo, record.revisionId);
    SnapIsFound(st, p, Snap(record.revisionNo, record.revisionId, View(next)));
  }

  /** A room whose number is not the head's is behind it. */
  lemma RoomIsBehind(st: State, p: string, room: Head)
    requires PageInv(st, p) && SnapOfHead(room) in Chain(st, p) && room.no != st.pages[p].draftNo
    ensures Overtaken(st, p, room.no)
  {
    ChainIsRising(st, p);
  }

  /** The patch's draft is on the chain, and it is the patched room. */
  ghost predicate Landed(st: State, p: string, base: int, ops: seq<Op>, next: Document, no: int, id: string) {
    && p in st.pages && ':' !in p && Snap(no, id, View(next)) in Chain(st, p)
    && PatchOnChain(Chain(st, p), Intent(base, ops), no, id)
  }

  /** What a commit step can answer. */
  ghost predicate CommitAnswered(st: State, task: RoomTask, next: Document, o: Progress)
    requires task.Submit?
  {
    && (o.Ended? && o.response.Accepted? ==>
          Landed(o.store, task.pageId, task.base, task.ops, next, o.response.revisionNo, o.response.revisionId))
    && (o.Ended? && o.response.Refused? && o.response.error.RebaseRequired? ==>
          Overtaken(o.store, task.pageId, task.base))
  }

  lemma WrittenCommit(st: State, plan: Plan, task: RoomTask, room: Head, next: Document, pc: PagePc, env: Env, o: Progress,
                      write: Write)
    requires StoreInv(st, plan) && task.Submit? && ':' !in task.pageId && CommitCallOk(st, plan, task, room, next, pc)
    requires FreshId(st, env.revisionId) && SaveWrites(st, CommitOf(task, next), pc, env, o, write)
    ensures StoreInv(o.store, plan) && Grown(st, o.store)
    ensures CommitAnswered(st, task, next, o)
  {
    CommitLands(st, o.store, plan, CommitOf(task, next), task.patchId, room, task.ops, pc.page, pc.read.value, env, write);
  }

  lemma UnwrittenCommit(st: State, plan: Plan, task: RoomTask, room: Head, next: Document, pc: PagePc, o: Progress)
    requires StoreInv(st, plan) && task.Submit? && ':' !in task.pageId && CommitCallOk(st, plan, task, room, next, pc)
    requires SaveAnswered(st, CommitOf(task, next), pc, o)
    ensures CommitAnswered(st, task, next, o)
  {
    if o.Ended? && o.response.Accepted? {
      RecordedCommit(st, plan, task, room, next);
    } else {
      assert PageInv(st, task.pageId);
      BaseIsBehind(st, task, room, next, o);
    }
  }

  lemma BaseIsBehind(st: State, task: RoomTask, room: Head, next: Document, o: Progress)
    requires task.Submit? && PageInv(st, task.pageId) && SnapOfHead(room) in Chain(st, task.pageId) && room.no == task.base
    requires o.Ended? && o.response.Refused? && o.response.error.RebaseRequired? ==> st.pages[task.pageId].draftNo != task.base
    ensures o.Ended? && o.response.Refused? && o.response.error.RebaseRequired? ==> Overtaken(st, task.pageId, task.base)
  {
    if st.pages[task.pageId].draftNo != task.base {
      RoomIsBehind(st, task.pageId, room);
    }
  }

  lemma CommitStepAnswers(st: State, plan: Plan, task: RoomTask, room: Head, next: Document, pc: PagePc, env: Env, o: Progress)
    requires StoreInv(st, plan) && task.Submit? && TaskOk(plan, task) && CommitCallOk(st, plan, task, room, next, pc)
    requires FreshId(st, env.revisionId) && o == SaveStep(st, CommitOf(task, next), pc, env)
    ensures StoreInv(o.store, plan) && Grown(st, o.store) && CommitAnswered(st, task, next, o)
    ensures o.Going? ==> CommitCallOk(o.store, plan, task, room, next, o.pc)
  {
    GrownItself(st);
    assert PageInv(st, task.pageId);
    var write := SaveStepShape(st, CommitOf(task, next), pc, env, o);
    if write.Some? {
      WrittenCommit(st, plan, task, room, next, pc, env, o, write.value);
    } else {
      UnwrittenCommit(st, plan, task, room, next, pc, o);
    }
  }

  lemma CommitMoves(s: System, plan: Plan, id: nat, task: RoomTask, at: RoomPc, o: Progress)
    requires task.Submit? && TaskOk(plan, task) && (at.Committing? || at.Orphaned?)
    requires CommitAnswered(s.store, task, at.next, o)
    requires o.Going? ==> CommitCallOk(o.store, plan, task, at.room, at.next, o.pc)
    ensures var after := CommitStep(s, id, task, at, o);
            && after.store == o.store && after.rooms == s.rooms && after.sent == s.sent
            && CallsMoved(s, after, plan, id)
  {
  }

  lemma CommitStepKeepsInv(s: System, plan: Plan, id: nat, task: RoomTask, at: RoomPc, env: Env, o: Progress)
    requires SystemInv(s, plan) && task.Submit? && TaskOk(plan, task) && (at.Committing? || at.Orphaned?)
    requires RoomCallOk(s.store, plan, task, at) && FreshId(s.store, env.revisionId)
    requires o == SaveStep(s.store, CommitOf(task, at.next), at.pc, env)
    ensures SystemInv(CommitStep(s, id, task, at, o), plan)
    ensures Grown(s.store, CommitStep(s, id, task, at, o).store)
  {
    CommitStepAnswers(s.store, plan, task, at.room, at.next, at.pc, env, o);
    CommitMoves(s, plan, id, task, at, o);
    SystemInvMoves(s, CommitStep(s, id, task, at, o), plan, id, KeyOf(task));
  }

  // --------------------------------------------------------------------------- every action

  lemma PageRequestKeepsInv(s: System, plan: Plan, id: nat, call: PageCall, o: Progress)
    requires SystemInv(s, plan) && StepOk(s.store, plan, call, o)
    ensures SystemInv(PageRequestStep(s, id, call, o), plan)
    ensures Grown(s.store, PageRequestStep(s, id, call, o).store)
  {
    SystemInvMoves(s, PageRequestStep(s, id, call, o), plan, id, "");
  }

  lemma RoomRequestKeepsInv(s: System, plan: Plan, id: nat, task: RoomTask, at: RoomPc, env: Env, present: bool, after: System)
    requires SystemInv(s, plan) && id in s.calls && s.calls[id] == RoomRequest(task, at)
    requires MayWrite(s.calls[id]) ==> FreshId(s.store, env.revisionId)
    requires after == RoomRequestStep(s, id, task, at, env, present)
    ensures SystemInv(after, plan) && Grown(s.store, after.store)
  {
    assert CallOk(s.store, plan, s.calls[id]);
    match at
    case AtHead =>
      HeadStepKeepsInv(s, plan, id, task, false, env.files, ReadView(World(s.store, map[], 0), task.pageId, DraftKind, env.files));
    case Aborted =>
      HeadStepKeepsInv(s, plan, id, task, true, env.files, ReadView(World(s.store, map[], 0), task.pageId, DraftKind, env.files));
    case Committing(_, next, pc) =>
      CommitStepKeepsInv(s, plan, id, task, at, env, SaveStep(s.store, CommitOf(task, next), pc, env));
    case Orphaned(_, next, pc) =>
      CommitStepKeepsInv(s, plan, id, task, at, env, SaveStep(s.store, CommitOf(task, next), pc, env));
    case _ => LocalStepKeepsInv(s, plan, id, task, at, env, present, after);
  }

  /** Steps that do not ask the page service. */
  lemma LocalStepKeepsInv(s: System, plan: Plan, id: nat, task: RoomTask, at: RoomPc, env: Env, present: bool, after: System)
    requires SystemInv(s, plan) && id in s.calls && s.calls[id] == RoomRequest(task, at)
    requires !at.AtHead? && !at.Aborted? && !at.Committing? && !at.Orphaned?
    requires after == RoomRequestStep(s, id, task, at, env, present)
    ensures SystemInv(after, plan) && Grown(s.store, after.store)
  {
    assert CallOk(s.store, plan, s.calls[id]);
    GrownItself(s.store);
    match at
    case AtRoom => RoomStepKeepsInv(s, plan, id, task);
    case AtStore(head) => StoreStepKeepsInv(s, plan, id, task, head);
    case InHand(head) => HandStepKeepsInv(s, plan, id, task, head, present);
    case Committed(next, no, revisionId) => AcceptStepKeepsInv(s, plan, id, task, next, no, revisionId);
    case AbortedWith(head) => RebaseStepKeepsInv(s, plan, id, task, head);
  }

  lemma CrashKeepsInv(s: System, plan: Plan, id: nat)
    requires SystemInv(s, plan) && id in s.calls
    ensures SystemInv(Crashed(s, id), plan)
    ensures Grown(s.store, Crashed(s, id).store)
  {
    GrownItself(s.store);
    assert CallOk(s.store, plan, s.calls[id]);
    SystemInvMoves(s, Crashed(s, id), plan, id, "");
  }

  lemma QuietActionKeepsInv(s: System, plan: Plan, a: Action)
    requires SystemInv(s, plan) && Allowed(s, plan, a) && (a.BeginPage? || a.BeginRoom? || a.Expire?)
    ensures SystemInv(Do(s, a), plan) && Grown(s.store, Do(s, a).store)
  {
    GrownItself(s.store);
    SystemInvMoves(s, Do(s, a), plan, if a.Expire? then 0 else a.id, "");
  }

  /** Every action, whatever else is in flight, keeps the invariant. */
  lemma ActionKeepsInv(s: System, plan: Plan, a: Action)
    requires SystemInv(s, plan) && Allowed(s, plan, a)
    ensures SystemInv(Do(s, a), plan) && Grown(s.store, Do(s, a).store)
  {
    GrownItself(s.store);
    match a
    case Advance(id, env, present) =>
      if id in s.calls {
        match s.calls[id] {
          case PageRequest(call, pc) =>
            assert CallOk(s.store, plan, s.calls[id]);
            PageStepKeepsInv(s.store, plan, call, pc, env);
            PageRequestKeepsInv(s, plan, id, call, PageStep(s.store, call, pc, env));
          case RoomRequest(task, at) => RoomRequestKeepsInv(s, plan, id, task, at, env, present, Do(s, a));
        }
      }
    case Crash(id) =>
      if id in s.calls {
        CrashKeepsInv(s, plan, id);
      }
    case BeginPage(_, _) => QuietActionKeepsInv(s, plan, a);
    case BeginRoom(_, _) => QuietActionKeepsInv(s, plan, a);
    case Expire(_) => QuietActionKeepsInv(s, plan, a);
  }

  // ----------------------------------------------------------------- the store in one action

  /** A call that asks something of the page service changes the store as that request's step does. */
  lemma AskedStep(s: System, id: nat, env: Env, present: bool)
    requires id in s.calls && AskedOf(s.calls[id]).Some?
    ensures var q := AskedOf(s.calls[id]).value;
            Do(s, Advance(id, env, present)).store == PageStep(s.store, q.call, q.pc, env).store
  {
    match s.calls[id]
    case PageRequest(_, _) =>
    case RoomRequest(task, at) => CommitAsksSave(s, id, task, at, env, present);
  }

  lemma CommitAsksSave(s: System, id: nat, task: RoomTask, at: RoomPc, env: Env, present: bool)
    requires id in s.calls && s.calls[id] == RoomRequest(task, at) && task.Submit? && (at.Committing? || at.Orphaned?)
    ensures Do(s, Advance(id, env, present)).store == SaveStep(s.store, CommitOf(task, at.next), at.pc, env).store
  {
  }

  /** Any other call at most reads the draft head. */
  lemma UnaskedStep(s: System, id: nat, env: Env, present: bool)
    requires id in s.calls && AskedOf(s.calls[id]).None?
    requires s.calls[id].at.Committing? || s.calls[id].at.Orphaned? ==> s.calls[id].task.Submit?
    ensures var after := Do(s, Advance(id, env, present)).store;
            || after == s.store
            || after == ReadView(World(s.store, map[], 0), s.calls[id].task.pageId, DraftKind, env.files).world.store
  {
  }

  /** A submit whose room is locked waits; otherwise it takes the lock and goes on. */
  lemma LockedRoomWaits(s: System, id: nat, env: Env, present: bool)
    requires id in s.calls && s.calls[id].RoomRequest? && s.calls[id].at.AtRoom? && s.calls[id].task.Submit?
    ensures var task, after := s.calls[id].task, Do(s, Advance(id, env, present));
            if RoomKey(task.workspaceId, task.pageId) in s.held then after == s
            else after.held == s.held + {RoomKey(task.workspaceId, task.pageId)} && id in after.calls
                 && after.calls[id].RoomRequest? && !after.calls[id].at.AtRoom?
  {
  }

  /** A crash gives the lock back and forgets the call, but not a commit already sent: that goes on where it was. */
  lemma CrashMeans(s: System, id: nat)
    requires id in s.calls
    ensures var after := Do(s, Crash(id));
            && after.store == s.store && after.rooms == s.rooms && after.sent == s.sent
            && match s.calls[id]
               case RoomRequest(task, Committing(room, next, pc)) =>
                 && after.calls == s.calls[id := RoomRequest(task, Orphaned(room, next, pc))]
                 && after.held == (if task.Submit? then s.held - {RoomKey(task.workspaceId, task.pageId)} else s.held)
               case RoomRequest(task, at) =>
                 && after.calls == s.calls - {id}
                 && after.held == (if task.Submit? && !at.AtRoom? && !at.Orphaned?
                                   then s.held - {RoomKey(task.workspaceId, task.pageId)} else s.held)
               case PageRequest(_, _) => after.calls == s.calls - {id} && after.held == s.held
  {
    if s.calls[id].RoomRequest? && s.calls[id].at.Committing? {
      var next := RoomRequest(s.calls[id].task, Orphaned(s.calls[id].at.room, s.calls[id].at.next, s.calls[id].at.pc));
      assert (s.calls - {id})[id := next] == s.calls[id := next];
    }
  }
}
