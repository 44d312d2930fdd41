/** What every run of the interleaved system guarantees, to clients and to the store. */
module CollaborationGuarantees {
  import opened Wrappers
  import opened Text
  import opened Documents
  import opened Patches
  import opened PageStore
  import opened UseCases
  import opened Lifecycle
  import opened DraftChain
  import opened PageCalls
  import opened PageInterleaving
  import opened Collaboration
  import opened CollaborationSafety

  // ---------------------------------------------------------------------------------- runs

  const IDLE := System(EMPTY, map[], {}, map[], [])

  /** The system after the first n actions. */
  function SystemFirst(actions: seq<Action>, n: nat): System
    requires n <= |actions|
    decreases n, 0
  {
    if n == 0 then IDLE else SystemNext(actions, n - 1)
  }

  function SystemNext(actions: seq<Action>, n: nat): System
    requires n < |actions|
    decreases n, 2
  {
    SystemAfter(actions, n)
  }

  function SystemAfter(actions: seq<Action>, n: nat): System
    requires n < |actions|
    decreases n, 1
  {
    Do(SystemFirst(actions, n), actions[n])
  }

  ghost predicate AllowedFirst(plan: Plan, actions: seq<Action>, n: nat)
    requires n <= |actions|
    decreases n, 0
  {
    n == 0 || AllowedNext(plan, actions, n - 1)
  }

  ghost predicate AllowedNext(plan: Plan, actions: seq<Action>, n: nat)
    requires n < |actions|
    decreases n, 1
  {
    AllowedFirst(plan, actions, n) && Allowed(SystemFirst(actions, n), plan, actions[n])
  }

  lemma IdleInv(plan: Plan)
    ensures SystemInv(IDLE, plan)
  {
  }

  /** In every reachable state the store, rooms, calls in flight and messages are as promised. */
  lemma {:induction false} RunsKeepSystemInv(plan: Plan, actions: seq<Action>, n: nat)
    requires n <= |actions| && AllowedFirst(plan, actions, n)
    ensures SystemInv(SystemFirst(actions, n), plan)
    decreases n
  {
    if n == 0 {
      IdleInv(plan);
    } else {
      assert AllowedNext(plan, actions, n - 1);
      RunsKeepSystemInv(plan, actions, n - 1);
      ActionKeepsInv(SystemFirst(actions, n - 1), plan, actions[n - 1]);
      assert SystemFirst(actions, n) == SystemNext(actions, n - 1) == SystemAfter(actions, n - 1);
    }
  }

  lemma GrownFurther(a: State, b: State, c: State)
    requires Grown(a, b) && Grown(b, c)
    ensures Grown(a, c)
  {
  }

  /** Draft chains only gain drafts at the end, and draft heads only move to higher numbers. */
  lemma {:induction false} RunsOnlyGrow(plan: Plan, actions: seq<Action>, n: nat, m: nat)
    requires n <= m <= |actions| && AllowedFirst(plan, actions, m)
    ensures Grown(SystemFirst(actions, n).store, SystemFirst(actions, m).store)
    decreases m
  {
    if n == m {
      GrownItself(SystemFirst(actions, n).store);
    } else {
      assert AllowedNext(plan, actions, m - 1);
      RunsOnlyGrow(plan, actions, n, m - 1);
      RunsKeepSystemInv(plan, actions, m - 1);
      ActionKeepsInv(SystemFirst(actions, m - 1), plan, actions[m - 1]);
      assert SystemFirst(actions, m) == SystemNext(actions, m - 1) == SystemAfter(actions, m - 1);
      GrownFurther(SystemFirst(actions, n).store, SystemFirst(actions, m - 1).store, SystemFirst(actions, m).store);
    }
  }

  /** A base number the draft head has left is never the head again. */
  lemma LeftBaseNeverReturns(plan: Plan, actions: seq<Action>, n: nat, m: nat, p: string, base: int)
    requires n < m <= |actions| && AllowedFirst(plan, actions, m)
    requires p in SystemFirst(actions, n).store.pages && SystemFirst(actions, n).store.pages[p].draftNo == base
    requires p in SystemFirst(actions, n + 1).store.pages && SystemFirst(actions, n + 1).store.pages[p].draftNo != base
    ensures p in SystemFirst(actions, m).store.pages && SystemFirst(actions, m).store.pages[p].draftNo > base
  {
    AllowedPrefix(plan, actions, n + 1, m);
    RunsOnlyGrow(plan, actions, n, n + 1);
    RunsOnlyGrow(plan, actions, n + 1, m);
    HeadLeaves(SystemFirst(actions, n).store, SystemFirst(actions, n + 1).store, SystemFirst(actions, m).store, p);
  }

  /** Action n saves a draft of page p, whoever asked for it, while the draft head is number `base`. */
  ghost predicate SavesDraftOn(actions: seq<Action>, n: nat, p: string, base: int) {
    && n < |actions| && p in SystemFirst(actions, n).store.pages && SystemFirst(actions, n).store.pages[p].draftNo == base
    && Chain(SystemFirst(actions, n + 1).store, p) != Chain(SystemFirst(actions, n).store, p)
  }

  lemma SavedBaseIsLeft(plan: Plan, actions: seq<Action>, n: nat, m: nat, p: string, base: int)
    requires n < m <= |actions| && AllowedFirst(plan, actions, m) && SavesDraftOn(actions, n, p, base)
    ensures p in SystemFirst(actions, m).store.pages && SystemFirst(actions, m).store.pages[p].draftNo > base
  {
    AllowedPrefix(plan, actions, n + 1, m);
    SavedDraftMovesHead(plan, actions, n, p, base);
    LeftBaseNeverReturns(plan, actions, n, m, p, base);
  }

  lemma SavedDraftMovesHead(plan: Plan, actions: seq<Action>, n: nat, p: string, base: int)
    requires n < |actions| && AllowedFirst(plan, actions, n + 1) && SavesDraftOn(actions, n, p, base)
    ensures p in SystemFirst(actions, n + 1).store.pages && SystemFirst(actions, n + 1).store.pages[p].draftNo > base
  {
    AllowedPrefix(plan, actions, n, n + 1);
    RunsOnlyGrow(plan, actions, n, n + 1);
    RunsKeepSystemInv(plan, actions, n);
    RunsKeepSystemInv(plan, actions, n + 1);
    LongerChainHigherHead(SystemFirst(actions, n).store, SystemFirst(actions, n + 1).store, plan, p);
  }

  /** At most one action of a run saves a draft on a given base, be it an autosave, a commit or a restore. */
  lemma OneDraftPerBase(plan: Plan, actions: seq<Action>, n: nat, m: nat, p: string, base: int)
    requires AllowedFirst(plan, actions, |actions|)
    requires SavesDraftOn(actions, n, p, base) && SavesDraftOn(actions, m, p, base)
    ensures n == m
  {
    AllowedPrefix(plan, actions, n, |actions|);
    AllowedPrefix(plan, actions, m, |actions|);
    if n < m {
      SavedBaseIsLeft(plan, actions, n, m, p, base);
    } else if m < n {
      SavedBaseIsLeft(plan, actions, m, n, p, base);
    }
  }

  lemma LongerChainHigherHead(st: State, after: State, plan: Plan, p: string)
    requires StoreInv(st, plan) && StoreInv(after, plan) && Grown(st, after) && p in st.pages
    requires Chain(after, p) != Chain(st, p)
    ensures p in after.pages && after.pages[p].draftNo > st.pages[p].draftNo
  {
    assert PageGrown(st, after, p) && PageInv(st, p) && PageInv(after, p);
    HeadIsLastSnap(st, p);
    HeadIsLastSnap(after, p);
    ChainIsRising(after, p);
    assert Chain(after, p)[|Chain(st, p)| - 1] == LastSnap(Chain(st, p));
  }

  lemma HeadLeaves(a: State, b: State, c: State, p: string)
    requires Grown(a, b) && Grown(b, c) && p in a.pages && p in b.pages && b.pages[p].draftNo != a.pages[p].draftNo
    ensures p in c.pages && c.pages[p].draftNo > a.pages[p].draftNo
  {
  }

  lemma {:induction false} AllowedPrefix(plan: Plan, actions: seq<Action>, n: nat, m: nat)
    requires n <= m <= |actions| && AllowedFirst(plan, actions, m)
    ensures AllowedFirst(plan, actions, n)
    decreases m
  {
    if n < m {
      assert AllowedNext(plan, actions, m - 1);
      AllowedPrefix(plan, actions, n, m - 1);
    }
  }

  // ----------------------------------------------------------------------- the draft chain

  lemma {:induction false} DraftHeadIsLastDraft(revs: seq<Revision>, n: nat)
    requires n <= |revs|
    ensures var d := LastOf(revs, n, DraftKind);
            DraftHead(revs, n) == (if d < 0 then HeadRef(0, "") else HeadRef(revs[d].no, revs[d].id))
    decreases n
  {
    if n > 0 && revs[n - 1].kind != DraftKind {
      DraftHeadIsLastDraft(revs, n - 1);
    }
  }

  lemma {:induction false} LinkedAt(revs: seq<Revision>, n: nat, i: nat)
    requires i < n <= |revs| && LinkedFirst(revs, n) && revs[i].kind == DraftKind
    ensures revs[i].baseId == DraftHead(revs, i).id && revs[i].no > DraftHead(revs, i).no && LinkedFirst(revs, i)
    decreases n
  {
    assert LinkedNext(revs, n - 1);
    if i < n - 1 {
      LinkedAt(revs, n - 1, i);
    }
  }

  /**
   In every reachable state each draft is based on the draft right before it in the list and
   numbered above it, and the page's draft head is the last one.
   */
  lemma DraftsAreLinked(st: State, p: string, i: nat)
    requires PageInv(st, p) && i < |RevisionsOf(st, p)| && RevisionsOf(st, p)[i].kind == DraftKind
    ensures var revs := RevisionsOf(st, p);
            var before := LastOf(revs, i, DraftKind);
            && revs[i].baseId == IdAt(revs, before)
            && (before >= 0 ==> revs[before].no < revs[i].no)
            && RevisionById(st, p, revs[i].id) == Some(revs[i])
    ensures var revs := RevisionsOf(st, p);
            var last := LastOf(revs, |revs|, DraftKind);
            last >= 0 && HeadOf(st.pages[p]) == HeadRef(revs[last].no, revs[last].id)
  {
    var revs := RevisionsOf(st, p);
    LinkedAt(revs, |revs|, i);
    DraftHeadIsLastDraft(revs, i);
    DraftHeadIsLastDraft(revs, |revs|);
    UniqueAt(revs, |revs|, i);
  }

  /** The page's drafts and draft head are as they were. */
  ghost predicate DraftsKept(st: State, after: State, p: string) {
    p in st.pages && p in after.pages && Chain(after, p) == Chain(st, p) && HeadOf(after.pages[p]) == HeadOf(st.pages[p])
  }

  /** Publishing never moves a draft head or adds a draft, from whatever it read. */
  lemma PublishKeepsDrafts(st: State, plan: Plan, call: PageCall, pc: PagePc, env: Env, p: string, o: Progress)
    requires StoreInv(st, plan) && PageCallOk(st, call, pc) && FreshId(st, env.revisionId) && p in st.pages
    requires call.PublishCall? && o == PageStep(st, call, pc, env)
    ensures DraftsKept(st, o.store, p)
  {
    assert call.pageId in st.pages ==> PageInv(st, call.pageId);
    PublishStepShape(st, call, pc, env, o);
    if PublishWrites(st, call, pc, env, o) {
      PublishKeepsInv(st, o.store, plan, call.pageId, call.workspaceId, call.actor, call.base, pc.page, pc.read.value, env);
      PublishLeavesOthers(st, o.store, call.pageId, call.workspaceId, call.actor, call.base, pc.page, pc.read.value, env, p);
    }
  }

  /** Archiving neither. */
  lemma ArchiveKeepsDrafts(st: State, plan: Plan, call: PageCall, pc: PagePc, env: Env, p: string, o: Progress)
    requires StoreInv(st, plan) && PageCallOk(st, call, pc) && p in st.pages
    requires call.ArchiveCall? && o == PageStep(st, call, pc, env)
    ensures DraftsKept(st, o.store, p)
  {
    assert call.pageId in st.pages ==> PageInv(st, call.pageId);
    ArchiveStepShape(st, call, pc, env, o);
    if ArchiveWrites(st, call, pc, env, o) {
      ArchiveKeepsInv(st, o.store, plan, call.pageId, call.actor, call.base, pc.page, env);
      ArchiveLeavesOthers(st, o.store, call.pageId, call.actor, call.base, pc.page, env, p);
    }
  }

  lemma ArchiveLeavesOthers(st: State, after: State, q: string, actor: string, base: int, page: Page, env: Env, p: string)
    requires page.id == q && p in st.pages && Locked(st, PlanArchive(actor, base, page, env)) == Ok(after)
    ensures p != q ==> p in after.pages && after.pages[p] == st.pages[p] && RevisionsOf(after, p) == RevisionsOf(st, p)
  {
  }

  lemma PublishLeavesOthers(st: State, after: State, q: string, ws: string, actor: string, base: int, page: Page,
                            draft: Revision, env: Env, p: string)
    requires page.id == q && p in st.pages && Locked(st, PlanPublish(q, ws, actor, base, page, draft, env)) == Ok(after)
    ensures p != q ==> p in after.pages && after.pages[p] == st.pages[p] && RevisionsOf(after, p) == RevisionsOf(st, p)
  {
    LockedWrites(st, PlanPublish(q, ws, actor, base, page, draft, env));
  }

  // ----------------------------------------------------------------------------- stale copies

  /** Number and id of the published head. */
  function PublishedOf(page: Page): HeadRef {
    HeadRef(page.publishedNo, page.publishedId)
  }

  /**
   With any number of calls in flight, a planned write lands exactly if no draft was saved
   since its request read the page, and then puts the copy it read back. So a publication
   made meanwhile is lost exactly if the copy has another published head, and an archived
   page stays archived exactly if the write archives it or was planned from an archived copy.
   */
  lemma StaleWriteInSystem(s: System, plan: Plan, id: nat, env: Env, present: bool, q: Asked, write: Write)
    requires SystemInv(s, plan) && id in s.calls && AskedOf(s.calls[id]) == Some(q)
    requires PlannedAt(q.call, q.pc, env) == Some(write)
    ensures q.pc.AtWrite? && q.pc.page.id == PageIdOf(q.call) && q.pc.page.id in s.store.pages
    ensures Lands(s.store, q.call, q.pc, env) <==> s.store.pages[q.pc.page.id].draftNo == q.pc.page.draftNo
    ensures var after, copy := Do(s, Advance(id, env, present)).store, q.pc.page;
            if Lands(s.store, q.call, q.pc, env)
            then CopyWritten(s.store, after, q.call, copy, write) && CopyReplaces(s.store.pages[copy.id], after.pages[copy.id], q.call, copy)
            else after == s.store
  {
    assert CallOk(s.store, plan, s.calls[id]);
    AskedIsOk(s.store, plan, s.calls[id], q);
    AskedStep(s, id, env, present);
    StaleWriteInStore(s.store, q.call, q.pc, env, write, Do(s, Advance(id, env, present)).store);
  }

  lemma StaleWriteInStore(st: State, call: PageCall, pc: PagePc, env: Env, write: Write, after: State)
    requires PageCallOk(st, call, pc) && PlannedAt(call, pc, env) == Some(write) && after == PageStep(st, call, pc, env).store
    ensures pc.AtWrite? && pc.page.id == PageIdOf(call) && pc.page.id in st.pages
    ensures Lands(st, call, pc, env) <==> st.pages[pc.page.id].draftNo == pc.page.draftNo
    ensures if Lands(st, call, pc, env)
            then CopyWritten(st, after, call, pc.page, write) && CopyReplaces(st.pages[pc.page.id], after.pages[pc.page.id], call, pc.page)
            else after == st
  {
    StepsOnlyWrite(st, call, pc, env);
    LandsIffSameDraft(st, call, pc, env, write);
    if Lands(st, call, pc, env) {
      LandedWriteIsCopy(st, call, pc, env, write);
    }
  }

  /** What writing the copy means for the page as it was. */
  predicate CopyReplaces(before: Page, after: Page, call: PageCall, copy: Page) {
    && (after.status == ArchivedStatus <==> call.ArchiveCall? || (copy.status == ArchivedStatus && !call.PublishCall?))
    && (!call.PublishCall? ==> (PublishedOf(after) == PublishedOf(before) <==> PublishedOf(copy) == PublishedOf(before)))
  }

  lemma AskedIsOk(st: State, plan: Plan, call: Call, q: Asked)
    requires CallOk(st, plan, call) && AskedOf(call) == Some(q)
    ensures PageCallOk(st, q.call, q.pc)
  {
  }

  // ---------------------------------------------------------------------- no silent overwrite

  /** The patch id, unless it is blank, is recorded and names this draft. */
  ghost predicate RecordedAs(st: State, task: RoomTask, no: int, id: string)
    requires task.Submit?
  {
    var k := PatchKey(task.pageId, TrimSpace(task.patchId));
    TrimSpace(task.patchId) != "" ==>
      k in st.idempotencies && st.idempotencies[k].revisionNo == no && st.idempotencies[k].revisionId == id
  }

  /**
   A step of a submit's commit, attended or not, either leaves the store alone or saves exactly
   one draft: based on the draft head of that very moment, numbered above it, showing that
   head's document with the patch applied, and recorded under the patch id if there is one.
   */
  lemma CommitNeverOverwrites(s: System, plan: Plan, id: nat, env: Env, present: bool) returns (r: Option<Revision>)
    requires SystemInv(s, plan) && FreshId(s.store, env.revisionId)
    requires id in s.calls && s.calls[id].RoomRequest? && (s.calls[id].at.Committing? || s.calls[id].at.Orphaned?)
    ensures s.calls[id].task.Submit?
    ensures r.None? ==> Do(s, Advance(id, env, present)).store == s.store
    ensures r.Some? ==>
              var st, after, task := s.store, Do(s, Advance(id, env, present)).store, s.calls[id].task;
              && TrimSpace(task.pageId) != "" && task.base > 0
              && AcceptedDraft(st, after, task.pageId, r.value, s.calls[id].at.next)
              && Patched(LastSnap(Chain(st, task.pageId)).view, task.ops, View(s.calls[id].at.next))
              && r.value in RevisionsOf(after, task.pageId)
              && RecordedAs(after, task, r.value.no, r.value.id)
              && r.value.createdBy == task.actor && r.value.via == SavedByPatch && r.value.createdAt == env.now
  {
    var task, at := s.calls[id].task, s.calls[id].at;
    assert CallOk(s.store, plan, s.calls[id]);
    var o := SaveStep(s.store, CommitOf(task, at.next), at.pc, env);
    CommitStepStore(s, id, env, present, o);
    r := CommitDraft(s.store, plan, task, at.room, at.next, at.pc, env, o);
  }

  lemma CommitStepStore(s: System, id: nat, env: Env, present: bool, o: Progress)
    requires id in s.calls && s.calls[id].RoomRequest? && (s.calls[id].at.Committing? || s.calls[id].at.Orphaned?)
    requires s.calls[id].task.Submit?
    requires o == SaveStep(s.store, CommitOf(s.calls[id].task, s.calls[id].at.next), s.calls[id].at.pc, env)
    ensures Do(s, Advance(id, env, present)).store == o.store
  {
  }

  lemma CommitDraft(st: State, plan: Plan, task: RoomTask, room: Head, next: Document, pc: PagePc, env: Env, o: Progress)
    returns (r: Option<Revision>)
    requires StoreInv(st, plan) && task.Submit? && CommitCallOk(st, plan, task, room, next, pc) && FreshId(st, env.revisionId)
    requires o == SaveStep(st, CommitOf(task, next), pc, env)
    ensures r.None? ==> o.store == st
    ensures r.Some? ==>
              && AcceptedDraft(st, o.store, task.pageId, r.value, next)
              && Patched(LastSnap(Chain(st, task.pageId)).view, task.ops, View(next))
              && r.value in RevisionsOf(o.store, task.pageId)
              && r.value.createdBy == task.actor && r.value.via == SavedByPatch && r.value.createdAt == env.now
              && RecordedAs(o.store, task, r.value.no, r.value.id) && Validated(SaveCall(CommitOf(task, next)))
  {
    assert PageInv(st, task.pageId);
    var input := CommitOf(task, next);
    var write := SaveStepShape(st, input, pc, env, o);
    r := None;
    if write.Some? {
      CommitAppends(st, o.store, plan, input, task.patchId, room, task.ops, pc.page, pc.read.value, env, write.value);
      WrittenIsStored(st, o.store, write.value.page, write.value.revision, write.value.record);
      WrittenIsRecorded(st, o.store, task, next, pc.page, pc.read.value, env, write.value);
      r := Some(write.value.revision);
    }
  }

  lemma WrittenIsStored(st: State, after: State, page: Page, r: Revision, record: Option<IdempotencyRecord>)
    requires Wrote(st, after, page, r, record)
    ensures r in RevisionsOf(after, page.id)
  {
  }

  lemma WrittenIsRecorded(st: State, after: State, task: RoomTask, next: Document, page: Page, read: Revision, env: Env,
                          write: Write)
    requires task.Submit? && SaveWrote(st, after, CommitOf(task, next), page, read, env, write)
    requires write.page.id == task.pageId
    ensures RecordedAs(after, task, write.revision.no, write.revision.id)
  {
  }

  // -------------------------------------------------------------------- stale but never wrong

  /** Every stored room is some draft of its page, and is found under that page's key. */
  lemma RoomsAreNeverWrong(s: System, plan: Plan, workspaceId: string, p: string)
    requires SystemInv(s, plan) && ':' !in p && RoomKey(workspaceId, p) in s.rooms
    ensures s.rooms[RoomKey(workspaceId, p)].pageId == p
    ensures OnChain(s.store, p, s.rooms[RoomKey(workspaceId, p)].head)
  {
    var k := RoomKey(workspaceId, p);
    assert RoomOk(s.store, k, s.rooms[k]);
    var ws :| k == RoomKey(ws, s.rooms[k].pageId);
    RoomKeysAreInjective(workspaceId, p, ws, s.rooms[k].pageId);
  }

  /** Whatever a client was sent at some time is true of the chain at that time and ever after. */
  lemma MessagesStayTrue(plan: Plan, actions: seq<Action>, n: nat, m: nat, i: nat)
    requires n <= m <= |actions| && AllowedFirst(plan, actions, m) && i < |SystemFirst(actions, n).sent|
    ensures MessageOk(SystemFirst(actions, m).store, plan, SystemFirst(actions, n).sent[i])
  {
    AllowedPrefix(plan, actions, n, m);
    RunsKeepSystemInv(plan, actions, n);
    RunsOnlyGrow(plan, actions, n, m);
    MessageStays(SystemFirst(actions, n).store, SystemFirst(actions, m).store, plan, SystemFirst(actions, n).sent[i]);
  }

  /** A submit whose commit was aborted stores and reports a head strictly above its base. */
  lemma AbortedReportsNewer(s: System, plan: Plan, id: nat, env: Env, present: bool)
    requires SystemInv(s, plan) && id in s.calls && s.calls[id].RoomRequest? && s.calls[id].at.AbortedWith?
    ensures s.calls[id].task.Submit?
    ensures var task, head := s.calls[id].task, s.calls[id].at.head;
            var after := Do(s, Advance(id, env, present));
            && head.no > task.base && OnChain(s.store, task.pageId, head)
            && after.sent == s.sent + [RebaseNeeded(task.pageId, task.base, head)]
            && KeyOf(task) in after.rooms && after.rooms[KeyOf(task)] == Room(task.pageId, head)
  {
    assert CallOk(s.store, plan, s.calls[id]);
  }

  // ----------------------------------------------------------------- exactly once, and crashes

  lemma SameBaseSamePatch(chain: seq<Snap>, top: int, base: int, ops: seq<Op>, more: seq<Op>, no: int, id: string, no2: int,
                          id2: string)
    requires Rising(chain, top)
    requires PatchOnChain(chain, Intent(base, ops), no, id) && PatchOnChain(chain, Intent(base, more), no2, id2)
    ensures no == no2 && id == id2
  {
  }

  /**
   Exactly once: two accepted answers to the same patch id on a page, or to the same base,
   name one and the same draft.
   */
  lemma PatchesAreAcceptedOnce(s: System, plan: Plan, i: nat, j: nat)
    requires SystemInv(s, plan) && i < |s.sent| && j < |s.sent| && s.sent[i].PatchAccepted? && s.sent[j].PatchAccepted?
    requires s.sent[i].pageId == s.sent[j].pageId
    requires s.sent[i].base == s.sent[j].base
             || (TrimSpace(s.sent[i].patchId) == TrimSpace(s.sent[j].patchId) && TrimSpace(s.sent[i].patchId) != "")
    ensures s.sent[i].no == s.sent[j].no && s.sent[i].id == s.sent[j].id
  {
    var a, b, p := s.sent[i], s.sent[j], s.sent[i].pageId;
    assert MessageOk(s.store, plan, a) && MessageOk(s.store, plan, b);
    assert PageInv(s.store, p);
    ChainIsRising(s.store, p);
    SameBaseSamePatch(Chain(s.store, p), s.store.pages[p].draftNo, a.base, a.ops, b.ops, a.no, a.id, b.no, b.id);
  }

  /** A record sits under the key of an existing page, so this page exists. */
  lemma RecordedPageExists(st: State, plan: Plan, p: string, patchId: string)
    requires StoreInv(st, plan) && ':' !in p && PatchKey(p, patchId) in st.idempotencies
    ensures p in st.pages
  {
    var k := PatchKey(p, patchId);
    assert KeyBelongs(st, k);
    assert PageInv(st, st.idempotencies[k].pageId);
    IdempotencyKeysAreInjective(p, "collab:" + patchId, st.idempotencies[k].pageId, st.idempotencies[k].key);
  }

  /** A recorded patch id stays recorded, and names the same draft at all times. */
  lemma RecordsNeverChange(plan: Plan, actions: seq<Action>, n: nat, m: nat, p: string, patchId: string)
    requires n <= m <= |actions| && AllowedFirst(plan, actions, m) && ':' !in p
    requires PatchKey(p, patchId) in SystemFirst(actions, n).store.idempotencies
    ensures var before, after := SystemFirst(actions, n).store, SystemFirst(actions, m).store;
            var k := PatchKey(p, patchId);
            && k in after.idempotencies
            && before.idempotencies[k].revisionNo == after.idempotencies[k].revisionNo
            && before.idempotencies[k].revisionId == after.idempotencies[k].revisionId
  {
    AllowedPrefix(plan, actions, n, m);
    RunsKeepSystemInv(plan, actions, n);
    RunsKeepSystemInv(plan, actions, m);
    RunsOnlyGrow(plan, actions, n, m);
    RecordedPageExists(SystemFirst(actions, n).store, plan, p, patchId);
    RecordNeverChanges(SystemFirst(actions, n).store, SystemFirst(actions, m).store, plan, p, patchId);
  }

  lemma RecordNeverChanges(st: State, after: State, plan: Plan, p: string, patchId: string)
    requires StoreInv(st, plan) && StoreInv(after, plan) && Grown(st, after) && p in st.pages
    requires PatchKey(p, patchId) in st.idempotencies
    ensures var k := PatchKey(p, patchId);
            && k in after.idempotencies
            && st.idempotencies[k].revisionNo == after.idempotencies[k].revisionNo
            && st.idempotencies[k].revisionId == after.idempotencies[k].revisionId
  {
    var k := PatchKey(p, patchId);
    assert PageGrown(st, after, p) && RecordInv(st, plan, p, patchId) && RecordInv(after, plan, p, patchId);
    assert PageInv(after, p);
    ChainIsRising(after, p);
    PatchStaysOnChain(Chain(st, p), Chain(after, p), plan(p, patchId), st.idempotencies[k].revisionNo,
                      st.idempotencies[k].revisionId);
    SameBaseSamePatch(Chain(after, p), after.pages[p].draftNo, plan(p, patchId).base, plan(p, patchId).ops,
                      plan(p, patchId).ops, st.idempotencies[k].revisionNo, st.idempotencies[k].revisionId,
                      after.idempotencies[k].revisionNo, after.idempotencies[k].revisionId);
  }

  lemma RecordedStep(st: State, plan: Plan, task: RoomTask, room: Head, next: Document, env: Env)
    requires StoreInv(st, plan) && task.Submit? && CommitCallOk(st, plan, task, room, next, AtKey)
    requires TrimSpace(task.pageId) != "" && task.base > 0 && TrimSpace(task.patchId) != ""
    requires PatchKey(task.pageId, TrimSpace(task.patchId)) in st.idempotencies
    ensures var record := st.idempotencies[PatchKey(task.pageId, TrimSpace(task.patchId))];
            && SaveStep(st, CommitOf(task, next), AtKey, env)
               == Ended(Accepted(task.pageId, record.revisionId, record.revisionNo), st)
            && Snap(record.revisionNo, record.revisionId, View(next)) in Chain(st, task.pageId)
  {
    var p := task.pageId;
    var record := st.idempotencies[PatchKey(p, TrimSpace(task.patchId))];
    assert PageInv(st, p) && RecordInv(st, plan, p, TrimSpace(task.patchId));
    ChainIsRising(st, p);
    SamePatchSameSnap(Chain(st, p), st.pages[p].draftNo, room, task.ops, next, record.revisionNo, record.revisionId);
    SnapIsFound(st, p, Snap(record.revisionNo, record.revisionId, View(next)));
  }

  lemma RecoveryStep(s: System, id: nat, task: RoomTask, at: RoomPc, env: Env, present: bool, no: int, revisionId: string)
    requires id in s.calls && s.calls[id] == RoomRequest(task, at) && task.Submit? && at.Committing?
    requires SaveStep(s.store, CommitOf(task, at.next), at.pc, env) == Ended(Accepted(task.pageId, revisionId, no), s.store)
    ensures var t := Do(s, Advance(id, env, present));
            t.store == s.store && id in t.calls && t.calls[id] == RoomRequest(task, Committed(at.next, no, revisionId))
  {
  }

  lemma AcceptedRoom(t: System, id: nat, task: RoomTask, next: Document, no: int, revisionId: string, env: Env, present: bool)
    requires id in t.calls && t.calls[id] == RoomRequest(task, Committed(next, no, revisionId)) && task.Submit?
    ensures var after := Do(t, Advance(id, env, present));
            && after.store == t.store && KeyOf(task) in after.rooms
            && after.rooms[KeyOf(task)] == Room(task.pageId, Head(no, revisionId, next))
  {
  }

  /**
   Recovery: when the patch was recorded but its room never saved, because the submit died or
   the save failed, submitting it again on the same base changes nothing in the store and
   leaves the room showing the very draft that was saved the first time.
   */
  lemma ResubmitRecovers(s: System, plan: Plan, id: nat, task: RoomTask, room: Head, next: Document,
                         record: IdempotencyRecord, env: Env, later: Env, present: bool)
    requires SystemInv(s, plan) && id in s.calls && s.calls[id] == RoomRequest(task, Committing(room, next, AtKey))
    requires task.Submit? && TrimSpace(task.pageId) != "" && task.base > 0 && TrimSpace(task.patchId) != ""
    requires PatchKey(task.pageId, TrimSpace(task.patchId)) in s.store.idempotencies
    requires record == s.store.idempotencies[PatchKey(task.pageId, TrimSpace(task.patchId))]
    ensures var head := Head(record.revisionNo, record.revisionId, next);
            var after := Do(Do(s, Advance(id, env, present)), Advance(id, later, present));
            && after.store == s.store && OnChain(s.store, task.pageId, head)
            && KeyOf(task) in after.rooms && after.rooms[KeyOf(task)] == Room(task.pageId, head)
  {
    assert CallOk(s.store, plan, s.calls[id]);
    RecordedStep(s.store, plan, task, room, next, env);
    RecoveryStep(s, id, task, Committing(room, next, AtKey), env, present, record.revisionNo, record.revisionId);
    AcceptedRoom(Do(s, Advance(id, env, present)), id, task, next, record.revisionNo, record.revisionId, later, present);
  }

  /** The commit of this submit is at work, attended or not. */
  ghost predicate AtCommit(s: System, id: nat, task: RoomTask, next: Document) {
    && id in s.calls && s.calls[id].RoomRequest? && s.calls[id].task == task && task.Submit?
    && (s.calls[id].at.Committing? || s.calls[id].at.Orphaned?) && s.calls[id].at.next == next
  }

  /** Action n of the run is the step in which this submit's commit saves its draft. */
  ghost predicate CommitSaves(actions: seq<Action>, n: nat, task: RoomTask, next: Document) {
    && n < |actions| && actions[n].Advance? && AtCommit(SystemFirst(actions, n), actions[n].id, task, next)
    && SystemFirst(actions, n + 1).store != SystemFirst(actions, n).store
  }

  lemma StepOfRun(plan: Plan, actions: seq<Action>, n: nat)
    requires n < |actions| && AllowedFirst(plan, actions, n + 1)
    ensures SystemFirst(actions, n + 1) == Do(SystemFirst(actions, n), actions[n])
    ensures AllowedFirst(plan, actions, n) && Allowed(SystemFirst(actions, n), plan, actions[n])
    ensures SystemInv(SystemFirst(actions, n), plan) && SystemInv(SystemFirst(actions, n + 1), plan)
  {
    assert AllowedNext(plan, actions, n);
    RunsKeepSystemInv(plan, actions, n);
    RunsKeepSystemInv(plan, actions, n + 1);
    assert SystemFirst(actions, n + 1) == SystemNext(actions, n) == SystemAfter(actions, n);
  }

  /** A draft with the document is on the chain, and the patch id stands for it. */
  ghost predicate Kept(st: State, plan: Plan, task: RoomTask, next: Document, no: int, id: string) {
    && task.Submit? && OnChain(st, task.pageId, Head(no, id, next)) && RecordedAs(st, task, no, id)
    && TaskOk(plan, task) && Validated(SaveCall(CommitOf(task, next)))
  }

  lemma SavedCommit(s: System, after: State, plan: Plan, id: nat, env: Env, present: bool, task: RoomTask, next: Document)
    returns (r: Revision)
    requires SystemInv(s, plan) && FreshId(s.store, env.revisionId) && AtCommit(s, id, task, next)
    requires after == Do(s, Advance(id, env, present)).store && after != s.store
    ensures AcceptedDraft(s.store, after, task.pageId, r, next) && Kept(after, plan, task, next, r.no, r.id)
  {
    var saved := CommitNeverOverwrites(s, plan, id, env, present);
    r := saved.value;
    assert CallOk(s.store, plan, s.calls[id]);
    CommitGrows(s, after, plan, id, env, present);
  }

  lemma CommitGrows(s: System, after: State, plan: Plan, id: nat, env: Env, present: bool)
    requires SystemInv(s, plan) && FreshId(s.store, env.revisionId) && id in s.calls && s.calls[id].RoomRequest?
    requires after == Do(s, Advance(id, env, present)).store
    ensures forall p :: p in s.store.pages ==> p in after.pages
  {
    ActionKeepsInv(s, plan, Advance(id, env, present));
  }

  lemma KeptFurther(st: State, after: State, plan: Plan, task: RoomTask, next: Document, no: int, id: string)
    requires StoreInv(st, plan) && StoreInv(after, plan) && Grown(st, after) && Kept(st, plan, task, next, no, id)
    ensures Kept(after, plan, task, next, no, id)
  {
    OnChainStays(st, after, task.pageId, Head(no, id, next));
    if TrimSpace(task.patchId) != "" {
      RecordNeverChanges(st, after, plan, task.pageId, TrimSpace(task.patchId));
    }
  }

  lemma StepSaves(plan: Plan, actions: seq<Action>, n: nat, task: RoomTask, next: Document) returns (r: Revision)
    requires n < |actions| && AllowedFirst(plan, actions, n + 1) && CommitSaves(actions, n, task, next)
    ensures AcceptedDraft(SystemFirst(actions, n).store, SystemFirst(actions, n + 1).store, task.pageId, r, next)
    ensures Kept(SystemFirst(actions, n + 1).store, plan, task, next, r.no, r.id)
  {
    StepOfRun(plan, actions, n);
    var s, a := SystemFirst(actions, n), actions[n];
    assert a == Advance(a.id, a.env, a.present) && FreshId(s.store, a.env.revisionId);
    r := SavedCommit(s, SystemFirst(actions, n + 1).store, plan, a.id, a.env, a.present, task, next);
  }

  /** The saving step appends the patched head and records the patch id; both stay for the rest of the run. */
  lemma SavedCommitStays(plan: Plan, actions: seq<Action>, n: nat, m: nat, task: RoomTask, next: Document) returns (r: Revision)
    requires n < m <= |actions| && AllowedFirst(plan, actions, m) && CommitSaves(actions, n, task, next)
    ensures AcceptedDraft(SystemFirst(actions, n).store, SystemFirst(actions, n + 1).store, task.pageId, r, next)
    ensures Kept(SystemFirst(actions, m).store, plan, task, next, r.no, r.id)
  {
    AllowedPrefix(plan, actions, n + 1, m);
    r := StepSaves(plan, actions, n, task, next);
    RunsOnlyGrow(plan, actions, n + 1, m);
    RunsKeepSystemInv(plan, actions, n + 1);
    RunsKeepSystemInv(plan, actions, m);
    KeptFurther(SystemFirst(actions, n + 1).store, SystemFirst(actions, m).store, plan, task, next, r.no, r.id);
  }

  /** The action neither advances nor crashes this call. */
  predicate Ignores(a: Action, id: nat) {
    !((a.Advance? || a.Crash?) && a.id == id)
  }

  lemma {:induction false} CallWaits(actions: seq<Action>, n: nat, m: nat, id: nat)
    requires n <= m <= |actions| && id in SystemFirst(actions, n).calls
    requires forall i :: n <= i < m ==> Ignores(actions[i], id)
    ensures id in SystemFirst(actions, m).calls && SystemFirst(actions, m).calls[id] == SystemFirst(actions, n).calls[id]
    decreases m
  {
    if n < m {
      CallWaits(actions, n, m - 1, id);
      OtherCallsWait(SystemFirst(actions, m - 1), actions[m - 1], id);
      assert SystemFirst(actions, m) == SystemNext(actions, m - 1) == SystemAfter(actions, m - 1);
    }
  }

  lemma OtherCallsWait(s: System, a: Action, id: nat)
    requires id in s.calls && Ignores(a, id)
    ensures id in Do(s, a).calls && Do(s, a).calls[id] == s.calls[id]
  {
    match a
    case Advance(other, env, present) =>
      if other in s.calls {
        match s.calls[other] {
          case PageRequest(call, pc) =>
          case RoomRequest(task, at) => OtherCallsWaitForRoom(s, other, task, at, env, present, id);
        }
      }
    case _ =>
  }

  lemma OtherCallsWaitForRoom(s: System, other: nat, task: RoomTask, at: RoomPc, env: Env, present: bool, id: nat)
    requires id in s.calls && id != other && other in s.calls && s.calls[other] == RoomRequest(task, at)
    ensures var after := RoomRequestStep(s, other, task, at, env, present);
            id in after.calls && after.calls[id] == s.calls[id]
  {
    RoomRequestMovesLock(s, other, task, at, env, present);
  }

  /**
   Recovery over a whole run: once a submit's commit saved its draft, whatever became of that
   submit and whatever else happened since, the same patch submitted again on that base
   changes nothing in the store with its commit and leaves the room showing that very draft.
   */
  lemma LostRoomIsRecovered(plan: Plan, actions: seq<Action>, n: nat, m: nat, q: nat, task: RoomTask, next: Document,
                            again: RoomTask, room: Head, document: Document) returns (r: Revision)
    requires n < m < q < |actions| && AllowedFirst(plan, actions, |actions|) && CommitSaves(actions, n, task, next)
    requires again.Submit? && again.pageId == task.pageId
    requires TrimSpace(again.patchId) == TrimSpace(task.patchId) && TrimSpace(task.patchId) != ""
    requires actions[m].Advance? && actions[q].Advance? && actions[q].id == actions[m].id
    requires forall i :: m < i < q ==> Ignores(actions[i], actions[m].id)
    requires actions[m].id in SystemFirst(actions, m).calls
    requires SystemFirst(actions, m).calls[actions[m].id] == RoomRequest(again, Committing(room, document, AtKey))
    ensures AcceptedDraft(SystemFirst(actions, n).store, SystemFirst(actions, n + 1).store, task.pageId, r, next)
    ensures SystemFirst(actions, m + 1).store == SystemFirst(actions, m).store
    ensures SystemFirst(actions, q + 1).store == SystemFirst(actions, q).store
    ensures var s, head := SystemFirst(actions, q + 1), Head(r.no, r.id, document);
            && KeyOf(again) in s.rooms && s.rooms[KeyOf(again)] == Room(task.pageId, head)
            && OnChain(s.store, task.pageId, head) && View(document) == View(next)
  {
    AllowedPrefix(plan, actions, q + 1, |actions|);
    AllowedPrefix(plan, actions, m, q + 1);
    r := SavedCommitStays(plan, actions, n, m, task, next);
    KeptIsRecovered(plan, actions, m, q, task, next, again, room, document, r.no, r.id);
  }

  lemma KeptIsRecovered(plan: Plan, actions: seq<Action>, m: nat, q: nat, task: RoomTask, next: Document, again: RoomTask,
                        room: Head, document: Document, no: int, id: string)
    requires m < q < |actions| && AllowedFirst(plan, actions, q + 1)
    requires Kept(SystemFirst(actions, m).store, plan, task, next, no, id)
    requires again.Submit? && again.pageId == task.pageId
    requires TrimSpace(again.patchId) == TrimSpace(task.patchId) && TrimSpace(task.patchId) != ""
    requires actions[m].Advance? && actions[q].Advance? && actions[q].id == actions[m].id
    requires forall i :: m < i < q ==> Ignores(actions[i], actions[m].id)
    requires actions[m].id in SystemFirst(actions, m).calls
    requires SystemFirst(actions, m).calls[actions[m].id] == RoomRequest(again, Committing(room, document, AtKey))
    ensures SystemFirst(actions, m + 1).store == SystemFirst(actions, m).store
    ensures SystemFirst(actions, q + 1).store == SystemFirst(actions, q).store
    ensures var s, head := SystemFirst(actions, q + 1), Head(no, id, document);
            && KeyOf(again) in s.rooms && s.rooms[KeyOf(again)] == Room(task.pageId, head)
            && OnChain(s.store, task.pageId, head) && View(document) == View(next)
  {
    AllowedPrefix(plan, actions, m + 1, q + 1);
    CommitIsAnswered(plan, actions, m, task, next, again, room, document, no, id);
    CallWaits(actions, m + 1, q, actions[m].id);
    RoomIsSaved(plan, actions, q, again, document, no, id);
    RunsOnlyGrow(plan, actions, m, q + 1);
    BothOnChain(SystemFirst(actions, m).store, SystemFirst(actions, q + 1).store, plan, task.pageId, no, id, document, next);
  }

  lemma RoomIsSaved(plan: Plan, actions: seq<Action>, q: nat, task: RoomTask, document: Document, no: int, id: string)
    requires q < |actions| && AllowedFirst(plan, actions, q + 1) && actions[q].Advance? && task.Submit?
    requires actions[q].id in SystemFirst(actions, q).calls
    requires SystemFirst(actions, q).calls[actions[q].id] == RoomRequest(task, Committed(document, no, id))
    ensures SystemFirst(actions, q + 1).store == SystemFirst(actions, q).store
    ensures StoreInv(SystemFirst(actions, q + 1).store, plan)
    ensures var rooms := SystemFirst(actions, q + 1).rooms;
            KeyOf(task) in rooms && rooms[KeyOf(task)] == Room(task.pageId, Head(no, id, document))
  {
    StepOfRun(plan, actions, q);
    AcceptedRoom(SystemFirst(actions, q), actions[q].id, task, document, no, id, actions[q].env, actions[q].present);
  }

  lemma CommitIsAnswered(plan: Plan, actions: seq<Action>, m: nat, task: RoomTask, next: Document, again: RoomTask,
                         room: Head, document: Document, no: int, id: string)
    requires m < |actions| && AllowedFirst(plan, actions, m + 1)
    requires task.Submit? && again.Submit? && again.pageId == task.pageId
    requires TrimSpace(again.patchId) == TrimSpace(task.patchId) && TrimSpace(task.patchId) != ""
    requires actions[m].Advance? && actions[m].id in SystemFirst(actions, m).calls
    requires SystemFirst(actions, m).calls[actions[m].id] == RoomRequest(again, Committing(room, document, AtKey))
    requires Kept(SystemFirst(actions, m).store, plan, task, next, no, id)
    ensures SystemFirst(actions, m + 1).store == SystemFirst(actions, m).store
    ensures actions[m].id in SystemFirst(actions, m + 1).calls
    ensures SystemFirst(actions, m + 1).calls[actions[m].id] == RoomRequest(again, Committed(document, no, id))
    ensures OnChain(SystemFirst(actions, m).store, task.pageId, Head(no, id, document))
  {
    StepOfRun(plan, actions, m);
    var s, call, env := SystemFirst(actions, m), actions[m].id, actions[m].env;
    assert CallOk(s.store, plan, s.calls[call]);
    RecordedStep(s.store, plan, again, room, document, env);
    RecoveryStep(s, call, again, Committing(room, document, AtKey), env, actions[m].present, no, id);
  }

  lemma BothOnChain(st: State, after: State, plan: Plan, p: string, no: int, id: string, document: Document, next: Document)
    requires StoreInv(after, plan) && Grown(st, after)
    requires OnChain(st, p, Head(no, id, document)) && OnChain(st, p, Head(no, id, next))
    ensures OnChain(after, p, Head(no, id, document)) && View(document) == View(next)
  {
    OnChainStays(st, after, p, Head(no, id, document));
    OnChainStays(st, after, p, Head(no, id, next));
    assert PageInv(after, p);
    ChainIsRising(after, p);
    SameNumberSameSnap(Chain(after, p), after.pages[p].draftNo, Snap(no, id, View(document)), Snap(no, id, View(next)));
  }

  // -------------------------------------------------------------------------------- replay

  /** The messages are the accepted patches of page p that made snaps i + 1, i + 2, ... of the chain. */
  ghost predicate AcceptedInOrder(chain: seq<Snap>, p: string, i: nat, messages: seq<Message>) {
    && i + |messages| < |chain|
    && forall k :: 0 <= k < |messages| ==>
         messages[k].PatchAccepted? && messages[k].pageId == p && messages[k].no == chain[i + 1 + k].no
  }

  /** Applying the first n accepted patches to the client's document. */
  function ReplayFirst(d: Document, messages: seq<Message>, n: nat): Result<Document, PatchError>
    requires n <= |messages| && forall k :: 0 <= k < |messages| ==> messages[k].PatchAccepted?
  {
    if n == 0 then Ok(d)
    else
      match ReplayFirst(d, messages, n - 1)
      case Err(e) => Err(e)
      case Ok(before) => ApplyPatch(before, messages[n - 1].ops)
  }

  lemma PatchedCongruence(d: Document, e: Document, ops: seq<Op>, after: Document)
    requires View(d) == e && View(e) == e && Patched(e, ops, after)
    ensures ApplyPatch(d, ops).Ok? && View(ApplyPatch(d, ops).value) == after
  {
    PatchCommutesWithSnapshot(SHARED, d, ops);
  }

  lemma ChainViewsAreViews(revs: seq<Revision>, n: nat, k: nat)
    requires n <= |revs| && k < |DraftsFirst(revs, n)|
    ensures View(DraftsFirst(revs, n)[k].view) == DraftsFirst(revs, n)[k].view
    decreases n
  {
    assert DraftsFirst(revs, n) == DraftsNext(revs, n - 1);
    if k < |DraftsFirst(revs, n - 1)| {
      ChainViewsAreViews(revs, n - 1, k);
    } else {
      NormAbsorbs(SHARED, SHARED, revs[n - 1].document);
    }
  }

  /** The patch accepted as snap k + 1 of a rising chain was made on snap k. */
  lemma PatchMadeNext(chain: seq<Snap>, top: int, k: nat, intent: Intent, no: int, id: string)
    requires Rising(chain, top) && k + 1 < |chain| && PatchOnChain(chain, intent, no, id) && no == chain[k + 1].no
    ensures Patched(chain[k].view, intent.ops, chain[k + 1].view)
  {
  }

  lemma {:induction false} ReplayReaches(st: State, plan: Plan, p: string, d: Document, i: nat, messages: seq<Message>, n: nat)
    requires PageInv(st, p) && AcceptedInOrder(Chain(st, p), p, i, messages) && n <= |messages|
    requires forall k :: 0 <= k < |messages| ==> MessageOk(st, plan, messages[k])
    requires View(d) == Chain(st, p)[i].view
    ensures ReplayFirst(d, messages, n).Ok? && View(ReplayFirst(d, messages, n).value) == Chain(st, p)[i + n].view
    decreases n
  {
    if n > 0 {
      ReplayReaches(st, plan, p, d, i, messages, n - 1);
      ReplayOne(st, plan, p, ReplayFirst(d, messages, n - 1).value, i + n - 1, messages[n - 1]);
    }
  }

  lemma ReplayOne(st: State, plan: Plan, p: string, d: Document, k: nat, m: Message)
    requires PageInv(st, p) && k + 1 < |Chain(st, p)| && View(d) == Chain(st, p)[k].view
    requires m.PatchAccepted? && m.pageId == p && m.no == Chain(st, p)[k + 1].no && MessageOk(st, plan, m)
    ensures ApplyPatch(d, m.ops).Ok? && View(ApplyPatch(d, m.ops).value) == Chain(st, p)[k + 1].view
  {
    ChainIsRising(st, p);
    PatchMadeNext(Chain(st, p), st.pages[p].draftNo, k, Intent(m.base, m.ops), m.no, m.id);
    ChainViewsAreViews(RevisionsOf(st, p), |RevisionsOf(st, p)|, k);
    PatchedCongruence(d, Chain(st, p)[k].view, m.ops, Chain(st, p)[k + 1].view);
  }

  /**
   Log replay: a client that joined at some draft and applies the accepted patches it was
   sent, in the order of their revision numbers, has the page service's document after each
   of them, provided every draft in between was one of these patches. In what order the
   broadcasts were sent does not matter.
   */
  lemma ReplayEqualsState(s: System, plan: Plan, p: string, head: Head, i: nat, messages: seq<Message>, n: nat)
    requires SystemInv(s, plan) && SessionJoined(p, head) in s.sent
    requires i < |Chain(s.store, p)| && Chain(s.store, p)[i].no == head.no
    requires AcceptedInOrder(Chain(s.store, p), p, i, messages) && n <= |messages|
    requires forall k :: 0 <= k < |messages| ==> messages[k] in s.sent
    ensures ReplayFirst(head.document, messages, n).Ok?
    ensures View(ReplayFirst(head.document, messages, n).value) == Chain(s.store, p)[i + n].view
  {
    var j :| 0 <= j < |s.sent| && s.sent[j] == SessionJoined(p, head);
    assert MessageOk(s.store, plan, s.sent[j]);
    assert PageInv(s.store, p);
    ChainIsRising(s.store, p);
    SameNumberSameSnap(Chain(s.store, p), s.store.pages[p].draftNo, Chain(s.store, p)[i], SnapOfHead(head));
    forall k | 0 <= k < |messages| ensures MessageOk(s.store, plan, messages[k]) {
      var m :| 0 <= m < |s.sent| && s.sent[m] == messages[k];
    }
    ReplayReaches(s.store, plan, p, head.document, i, messages, n);
  }

  // ------------------------------------------------------------------------ reused patch ids

  /**
   Why a patch id must not be reused: a commit whose id is recorded is answered with the
   recorded draft whatever its operations; the room it then saves is right exactly when these
   lead to the document of that draft.
   */
  lemma ReusedPatchIdIsRightIff(st: State, task: RoomTask, next: Document, env: Env)
    requires PageInv(st, task.pageId) && task.Submit?
    requires TrimSpace(task.pageId) != "" && task.base > 0 && TrimSpace(task.patchId) != ""
    requires Recorded(st, task.pageId, CommitOf(task, next).key).Some?
    requires SnapOf(Recorded(st, task.pageId, CommitOf(task, next).key).value) in Chain(st, task.pageId)
    ensures var r := Recorded(st, task.pageId, CommitOf(task, next).key).value;
            && SaveStep(st, CommitOf(task, next), AtKey, env) == Ended(Accepted(task.pageId, r.id, r.no), st)
            && (SnapOfHead(Head(r.no, r.id, next)) in Chain(st, task.pageId) <==> View(next) == View(r.document))
  {
    var r := Recorded(st, task.pageId, CommitOf(task, next).key).value;
    ChainIsRising(st, task.pageId);
    var x := SnapOfHead(Head(r.no, r.id, next));
    if x in Chain(st, task.pageId) {
      SameNumberSameSnap(Chain(st, task.pageId), st.pages[task.pageId].draftNo, x, SnapOf(r));
    }
  }

  // --------------------------------------------------------------------------- the room lock

  /** A submit between taking and giving back its room's lock. */
  predicate Locking(call: Call) {
    call.RoomRequest? && call.task.Submit? && !call.at.AtRoom? && !call.at.Orphaned?
  }

  function LockKey(call: Call): string
    requires Locking(call)
  {
    KeyOf(call.task)
  }

  /** Every lock is held by at most one submit. */
  ghost predicate LocksExclude(s: System) {
    && (forall i :: i in s.calls && Locking(s.calls[i]) ==> LockKey(s.calls[i]) in s.held)
    && (forall i, j :: i in s.calls && j in s.calls && i != j && Locking(s.calls[i]) && Locking(s.calls[j])
          ==> LockKey(s.calls[i]) != LockKey(s.calls[j]))
  }

  predicate Locks(s: System, id: nat) {
    id in s.calls && Locking(s.calls[id])
  }

  /** One call moved; it kept, took or gave back its lock. */
  ghost predicate LockMoved(s: System, after: System, id: nat) {
    && (forall j :: j in after.calls && j != id ==> j in s.calls && after.calls[j] == s.calls[j])
    && (forall j :: j in s.calls && j != id ==> j in after.calls)
    && (Locks(after, id) ==>
          || (Locks(s, id) && LockKey(s.calls[id]) == LockKey(after.calls[id]) && after.held == s.held)
          || (LockKey(after.calls[id]) !in s.held && after.held == s.held + {LockKey(after.calls[id])}))
    && (!Locks(after, id) ==>
          after.held == s.held || (Locks(s, id) && after.held == s.held - {LockKey(s.calls[id])}))
  }

  lemma LockMovesKeepExclusion(s: System, after: System, id: nat)
    requires LocksExclude(s) && LockMoved(s, after, id)
    ensures LocksExclude(after)
  {
  }

  lemma RoomStepMovesLock(s: System, id: nat, task: RoomTask)
    requires id in s.calls && s.calls[id] == RoomRequest(task, AtRoom)
    ensures LockMoved(s, RoomStep(s, id, task), id)
  {
  }

  lemma HeadStepMovesLock(s: System, id: nat, task: RoomTask, at: RoomPc, o: Outcome)
    requires id in s.calls && s.calls[id] == RoomRequest(task, at) && (at.AtHead? || at.Aborted?)
    ensures LockMoved(s, HeadStep(s, id, task, at.Aborted?, o), id)
  {
  }

  lemma CommitStepMovesLock(s: System, id: nat, task: RoomTask, at: RoomPc, o: Progress)
    requires id in s.calls && s.calls[id] == RoomRequest(task, at) && task.Submit? && (at.Committing? || at.Orphaned?)
    ensures LockMoved(s, CommitStep(s, id, task, at, o), id)
  {
  }

  lemma OtherStepsMoveLock(s: System, id: nat, task: RoomTask, at: RoomPc, present: bool)
    requires id in s.calls && s.calls[id] == RoomRequest(task, at)
    ensures at.AtStore? ==> LockMoved(s, StoreStep(s, id, task, at.head), id)
    ensures at.InHand? ==> LockMoved(s, HandStep(s, id, task, at.head, present), id)
    ensures at.Committed? && task.Submit? ==> LockMoved(s, AcceptStep(s, id, task, at.next, at.no, at.id), id)
    ensures at.AbortedWith? && task.Submit? ==> LockMoved(s, RebaseStep(s, id, task, at.head), id)
  {
  }

  lemma CrashMovesLock(s: System, id: nat)
    requires id in s.calls
    ensures LockMoved(s, Crashed(s, id), id)
  {
  }

  lemma RoomRequestMovesLock(s: System, id: nat, task: RoomTask, at: RoomPc, env: Env, present: bool)
    requires id in s.calls && s.calls[id] == RoomRequest(task, at)
    ensures LockMoved(s, RoomRequestStep(s, id, task, at, env, present), id)
  {
    OtherStepsMoveLock(s, id, task, at, present);
    match at
    case AtRoom => RoomStepMovesLock(s, id, task);
    case AtHead => HeadStepMovesLock(s, id, task, at, ReadView(World(s.store, map[], 0), task.pageId, DraftKind, env.files));
    case Aborted => HeadStepMovesLock(s, id, task, at, ReadView(World(s.store, map[], 0), task.pageId, DraftKind, env.files));
    case Committing(_, next, pc) =>
      if task.Submit? {
        CommitStepMovesLock(s, id, task, at, SaveStep(s.store, CommitOf(task, next), pc, env));
      }
    case Orphaned(_, next, pc) =>
      if task.Submit? {
        CommitStepMovesLock(s, id, task, at, SaveStep(s.store, CommitOf(task, next), pc, env));
      }
    case _ =>
  }

  lemma ActionKeepsExclusion(s: System, a: Action)
    requires LocksExclude(s)
    ensures LocksExclude(Do(s, a))
  {
    match a
    case Advance(id, env, present) =>
      if id in s.calls {
        match s.calls[id] {
          case PageRequest(call, pc) =>
            LockMovesKeepExclusion(s, PageRequestStep(s, id, call, PageStep(s.store, call, pc, env)), id);
          case RoomRequest(task, at) =>
            RoomRequestMovesLock(s, id, task, at, env, present);
            LockMovesKeepExclusion(s, RoomRequestStep(s, id, task, at, env, present), id);
        }
      }
    case Crash(id) =>
      if id in s.calls {
        CrashMovesLock(s, id);
        LockMovesKeepExclusion(s, Crashed(s, id), id);
      }
    case BeginPage(id, _) => LockMovesKeepExclusion(s, Do(s, a), id);
    case BeginRoom(id, _) => LockMovesKeepExclusion(s, Do(s, a), id);
    case Expire(_) => LockMovesKeepExclusion(s, Do(s, a), 0);
  }

  /** At no time do two submits work on the same room, unless one was cut off from it. */
  lemma {:induction false} SubmitsExcludeEachOther(actions: seq<Action>, n: nat)
    requires n <= |actions|
    ensures LocksExclude(SystemFirst(actions, n))
    decreases n
  {
    if n > 0 {
      SubmitsExcludeEachOther(actions, n - 1);
      ActionKeepsExclusion(SystemFirst(actions, n - 1), actions[n - 1]);
      assert SystemFirst(actions, n) == SystemNext(actions, n - 1) == SystemAfter(actions, n - 1);
    }
  }
}
