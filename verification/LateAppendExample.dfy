/**
 A run in which a late append lets a client resume past somebody else's autosave. Page "p" is
 created and saved twice; a submit then commits the client's patch "x". The first autosave's
 entry is appended at once, the second one's is still due when the patch's is appended. Each
 lemma carries a reachable state on by the actions of one call; the last one shows that the
 client, which saw the first autosave, may resume although it never saw the second.
 */
module LateAppendExample {
  import opened Wrappers
  import opened Text
  import opened Documents
  import opened Patches
  import opened PageStore
  import opened PageEvents
  import opened ReplayWindow
  import opened UseCases
  import opened Lifecycle
  import opened DraftChain
  import opened PageCalls
  import opened PageInterleaving
  import opened Collaboration
  import opened CollaborationSafety
  import opened Resume
  import opened LateAppends
  import CollaborationGuarantees
  import Guarantees
  import ReusedPatchId

  const OPS := ReusedPatchId.WRITE.ops
  const PATCH := Submit("p", "w", "u", 3, "x", OPS)
  const ROOM := RoomKey("w", "p")

  function Meaning(p: string, patchId: string): Intent {
    Intent(3, OPS)
  }

  function At(time: int, id: string): Env {
    Guarantees.EnvAt(time, id, ["a", "b", "c", "d"])
  }

  function Autosave(base: int): SaveInput {
    AutosaveInput("p", "w", "v", base, "", Guarantees.BLANK)
  }

  /** Nobody is at work, and page "p" is live with this many drafts. */
  ghost predicate Calm(l: Replaying, no: nat) {
    l.system.calls == map[] && l.system.rooms == map[] && l.system.held == {} && Drafted(l.system.store, no)
  }

  ghost predicate Drafted(st: State, no: nat) {
    && PageOk(st, "p") && st.pages["p"].status != ArchivedStatus && st.pages["p"].draftNo == no > 0
    && |RevisionsOf(st, "p")| == no && st.idempotencies == map[]
  }

  lemma PlansAreOk(input: SaveInput, page: Page, baseId: string, env: Env)
    requires env.files == None && env.unavailable == {}
    ensures PlanSave(input, page, baseId, env).Ok?
  {
  }

  // ------------------------------------------------------------------------ a save by itself

  function Saving(l: Replaying, input: SaveInput, pc: PagePc): Replaying {
    l.(system := l.system.(calls := map[0 := PageRequest(SaveCall(input), pc)]))
  }

  /** What a save on the present head finds at each of its steps, and the write it plans. */
  ghost predicate Finds(st: State, input: SaveInput, env: Env, page: Page, read: Revision, write: Write) {
    && SaveStep(st, input, AtKey, env) == Going(AtPage, st)
    && SaveStep(st, input, AtPage, env) == Going(AtBase(page), st)
    && SaveStep(st, input, AtBase(page), env) == Going(AtWrite(page, Some(read)), st)
    && PlanSave(input, page, read.id, env) == Ok(write)
  }

  lemma SaveFinds(st: State, input: SaveInput, no: nat, env: Env) returns (page: Page, read: Revision, write: Write)
    requires Drafted(st, no) && input.pageId == "p" && input.base == no && env.files == None && env.unavailable == {}
    ensures page == st.pages["p"] && read.id == page.draftId && Finds(st, input, env, page, read, write)
  {
    HeadIsFound(st, "p");
    assert TrimSpace("p") == "p";
    page, read := st.pages["p"], HeadRevision(st, "p", DraftKind).value;
    PlansAreOk(input, page, read.id, env);
    write := PlanSave(input, page, read.id, env).value;
  }

  /** The store after the save's write, which lands. */
  lemma SaveLeaves(st: State, input: SaveInput, no: nat, env: Env, page: Page, read: Revision, write: Write, spare: string,
                   other: string)
    returns (after: State)
    requires Drafted(st, no) && input.pageId == "p" && input.base == no && (input.via == SavedByRest || input.via == SavedByPatch)
    requires page == st.pages["p"] && read.id == page.draftId && PlanSave(input, page, read.id, env) == Ok(write)
    requires FreshId(st, env.revisionId)
    ensures Locked(st, write) == Ok(after) && PageOk(after, "p") && after.pages["p"].status != ArchivedStatus
    ensures RevisionsOf(after, "p") == RevisionsOf(st, "p") + [write.revision]
    ensures after.pages["p"].draftNo == write.revision.no == no + 1 && write.revision.via == input.via
    ensures write.revision.createdAt == env.now && write.revision.id == env.revisionId
    ensures write.entry == EntryOf(write.revision, input.workspaceId, input.patchId)
    ensures input.key == "" ==> after.idempotencies == st.idempotencies
    ensures FreshId(st, spare) && spare != env.revisionId ==> FreshId(after, spare)
    ensures FreshId(st, other) && other != env.revisionId ==> FreshId(after, other)
  {
    HeadIsFound(st, "p");
    PlannedSaveContinues(st, input, env);
    PlannedWritePasses(st, write);
    after := Locked(st, write).value;
    SavedOnePage(st, write, env, spare);
    SavedOnePage(st, write, env, other);
  }

  lemma WriteStepLands(st: State, input: SaveInput, page: Page, write: Write)
    requires Locked(st, write).Ok? && write.RevisionWrite?
    ensures SaveWriteStep(st, input, page, Ok(write))
            == Ended(Accepted(input.pageId, write.revision.id, write.revision.no), Locked(st, write).value)
  {
  }

  lemma SaveStepLands(st: State, input: SaveInput, page: Page, read: Revision, env: Env, write: Write)
    requires PlanSave(input, page, read.id, env) == Ok(write) && Locked(st, write).Ok? && write.RevisionWrite?
    ensures PlannedAt(SaveCall(input), AtWrite(page, Some(read)), env) == Some(write)
    ensures Lands(st, SaveCall(input), AtWrite(page, Some(read)), env)
    ensures SaveStep(st, input, AtWrite(page, Some(read)), env)
            == Ended(Accepted(input.pageId, write.revision.id, write.revision.no), Locked(st, write).value)
  {
    WriteStepLands(st, input, page, write);
  }

  /** Advancing the save is its step. */
  lemma SaveIsAdvanced(s: System, input: SaveInput, pc: PagePc, env: Env, o: Progress)
    requires s.calls == map[0 := PageRequest(SaveCall(input), pc)] && o == SaveStep(s.store, input, pc, env)
    ensures Do(s, Advance(0, env, false)) == PageRequestStep(s, 0, SaveCall(input), o)
  {
  }

  lemma SaveAdvances(l: Replaying, input: SaveInput, pc: PagePc, next: PagePc, env: Env, limit: nat, plan: Plan)
    requires Reachable(limit, plan, Saving(l, input, pc)) && !pc.AtWrite? && RestKey(input)
    requires SaveStep(l.system.store, input, pc, env) == Going(next, l.system.store) && FreshId(l.system.store, env.revisionId)
    ensures Reachable(limit, plan, Saving(l, input, next))
  {
    var m, a := Saving(l, input, pc), Advance(0, env, false);
    SaveIsAdvanced(m.system, input, pc, env, Going(next, l.system.store));
    assert m.system.calls[0 := PageRequest(SaveCall(input), next)] == map[0 := PageRequest(SaveCall(input), next)];
    QuietFrom(m, a, Saving(l, input, next));
    ReachableNext(limit, plan, m, Act(a));
  }

  lemma QuietFrom(m: Replaying, a: Action, next: Replaying)
    requires Landing(m.system, a).None? && next == m.(system := Do(m.system, a))
    ensures ReplayDo(m, Act(a)) == next
  {
  }

  lemma SaveEnds(s: System, input: SaveInput, pc: PagePc, env: Env, o: Progress)
    requires s.calls == map[0 := PageRequest(SaveCall(input), pc)] && o == SaveStep(s.store, input, pc, env) && o.Ended?
    ensures Do(s, Advance(0, env, false)) == s.(store := o.store, calls := map[])
  {
    SaveIsAdvanced(s, input, pc, env, o);
    assert s.calls - {0} == map[];
  }

  lemma SaveLandsHere(l: Replaying, input: SaveInput, page: Page, read: Revision, env: Env, write: Write, limit: nat, plan: Plan)
    requires Reachable(limit, plan, Saving(l, input, AtWrite(page, Some(read)))) && RestKey(input) && l.system.calls == map[]
    requires PlanSave(input, page, read.id, env) == Ok(write) && Locked(l.system.store, write).Ok?
    requires write.RevisionWrite? && FreshId(l.system.store, env.revisionId)
    ensures Reachable(limit, plan, Due(l.(system := l.system.(store := Locked(l.system.store, write).value)), write.entry))
  {
    var m, a := Saving(l, input, AtWrite(page, Some(read))), Advance(0, env, false);
    SaveStepLands(l.system.store, input, page, read, env, write);
    SaveEnds(m.system, input, AtWrite(page, Some(read)), env, SaveStep(l.system.store, input, AtWrite(page, Some(read)), env));
    SaveIsAsked(m.system, SaveCall(input), AtWrite(page, Some(read)), env, write);
    DueFrom(m, a, write, Due(l.(system := l.system.(store := Locked(l.system.store, write).value)), write.entry));
    ReachableNext(limit, plan, m, Act(a));
  }

  lemma SaveIsAsked(s: System, call: PageCall, pc: PagePc, env: Env, write: Write)
    requires 0 in s.calls && AskedOf(s.calls[0]) == Some(Asked(call, pc))
    requires Lands(s.store, call, pc, env) && PlannedAt(call, pc, env) == Some(write) && write.RevisionWrite?
    ensures forall present :: Landing(s, Advance(0, env, present)) == Some(write)
  {
  }

  lemma DueFrom(m: Replaying, a: Action, write: Write, next: Replaying)
    requires Landing(m.system, a) == Some(write) && write.RevisionWrite?
    requires next == Due(m.(system := Do(m.system, a)), write.entry)
    ensures ReplayDo(m, Act(a)) == next
  {
  }

  /** Somebody saves the page and is gone; the entry is due. */
  lemma AutosaveRuns(limit: nat, plan: Plan, l: Replaying, no: nat, env: Env, spare: string, other: string)
    returns (m: Replaying, r: Revision)
    requires Reachable(limit, plan, l) && Calm(l, no) && FreshId(l.system.store, env.revisionId)
    requires env.files == None && env.unavailable == {}
    ensures Reachable(limit, plan, m) && Calm(m, no + 1) && m.windows == l.windows && m.limit == l.limit
    ensures m.due == l.due + [EntryOf(r, "w", "")] && r.no == no + 1 && r.via == SavedByRest && r.createdAt == env.now
    ensures RevisionsOf(m.system.store, "p") == RevisionsOf(l.system.store, "p") + [r] && r.id == env.revisionId
    ensures FreshId(l.system.store, spare) && spare != env.revisionId ==> FreshId(m.system.store, spare)
    ensures FreshId(l.system.store, other) && other != env.revisionId ==> FreshId(m.system.store, other)
  {
    var input := Autosave(no);
    var page, read, write := SaveFinds(l.system.store, input, no, env);
    var after := SaveLeaves(l.system.store, input, no, env, page, read, write, spare, other);
    SaveBegins(limit, plan, l, input);
    SaveAdvances(l, input, AtKey, AtPage, env, limit, plan);
    SaveAdvances(l, input, AtPage, AtBase(page), env, limit, plan);
    SaveAdvances(l, input, AtBase(page), AtWrite(page, Some(read)), env, limit, plan);
    SaveLandsHere(l, input, page, read, env, write, limit, plan);
    m, r := Due(l.(system := l.system.(store := after)), write.entry), write.revision;
  }

  lemma SaveBegins(limit: nat, plan: Plan, l: Replaying, input: SaveInput)
    requires Reachable(limit, plan, l) && l.system.calls == map[]
    ensures Reachable(limit, plan, Saving(l, input, AtKey))
  {
    ReachableNext(limit, plan, l, Act(BeginPage(0, SaveCall(input))));
  }

  // ---------------------------------------------------------------------- a submit by itself

  /** The submit holds its room's lock and is here; perhaps it saved the room. */
  function Submitting(l: Replaying, rooms: map<string, Room>, at: RoomPc): Replaying {
    l.(system := l.system.(rooms := rooms, held := {ROOM}, calls := map[0 := RoomRequest(PATCH, at)]))
  }

  lemma SubmitIsAdvanced(s: System, at: RoomPc, env: Env)
    requires s.calls == map[0 := RoomRequest(PATCH, at)]
    ensures Do(s, Advance(0, env, true)) == RoomRequestStep(s, 0, PATCH, at, env, true)
    ensures Landing(s, Advance(0, env, true)).Some? ==> at.Committing? || at.Orphaned?
  {
  }

  /** A step of the submit that writes no revision. */
  lemma SubmitMoves(limit: nat, plan: Plan, l: Replaying, rooms: map<string, Room>, at: RoomPc, env: Env, next: Replaying)
    requires Reachable(limit, plan, Submitting(l, rooms, at)) && FreshId(l.system.store, env.revisionId)
    requires Landing(Submitting(l, rooms, at).system, Advance(0, env, true)).None?
    requires next == Submitting(l, rooms, at).(system := RoomRequestStep(Submitting(l, rooms, at).system, 0, PATCH, at, env, true))
    ensures Reachable(limit, plan, next)
  {
    var m, a := Submitting(l, rooms, at), Advance(0, env, true);
    SubmitIsAdvanced(m.system, at, env);
    QuietFrom(m, a, next);
    ReachableNext(limit, plan, m, Act(a));
  }

  lemma SubmitBegins(limit: nat, l: Replaying, no: nat, env: Env)
    requires Reachable(limit, Meaning, l) && Calm(l, no) && FreshId(l.system.store, env.revisionId)
    ensures Reachable(limit, Meaning, Submitting(l, map[], AtHead))
  {
    assert TrimSpace("x") == "x" && TaskOk(Meaning, PATCH);
    ReachableNext(limit, Meaning, l, Act(BeginRoom(0, PATCH)));
    var m := l.(system := l.system.(calls := map[0 := RoomRequest(PATCH, AtRoom)]));
    assert ReplayDo(l, Act(BeginRoom(0, PATCH))) == m;
    var a := Advance(0, env, true);
    SubmitIsAdvanced(m.system, AtRoom, env);
    LockIsTaken(m.system, Submitting(l, map[], AtHead).system);
    QuietFrom(m, a, Submitting(l, map[], AtHead));
    ReachableNext(limit, Meaning, m, Act(a));
  }

  lemma LockIsTaken(s: System, next: System)
    requires s.calls == map[0 := RoomRequest(PATCH, AtRoom)] && s.rooms == map[] && s.held == {}
    requires next == s.(held := {ROOM}, calls := map[0 := RoomRequest(PATCH, AtHead)])
    ensures RoomStep(s, 0, PATCH) == next
  {
    assert s.calls[0 := RoomRequest(PATCH, AtHead)] == map[0 := RoomRequest(PATCH, AtHead)];
    assert {} + {ROOM} == {ROOM};
  }

  /** Without a file service, reading the head changes nothing. */
  lemma HeadIsRead(st: State, no: nat, o: Outcome) returns (head: Head)
    requires Drafted(st, no) && o == ReadView(World(st, map[], 0), "p", DraftKind, None)
    ensures o.response == HeadIs(head) && o.world.store == st && head.no == no
  {
    HeadIsFound(st, "p");
    var revs := RevisionsOf(st, "p");
    var i := RevisionIndex(revs, st.pages["p"].draftId);
    Guarantees.NumbersUpTo(revs, i);
    assert Rehydrated(revs, i, None) == revs[i];
    assert revs[i := revs[i]] == revs && st.revisions["p" := revs] == st.revisions;
    head := Head(revs[i].no, revs[i].id, revs[i].document);
  }

  lemma OpsApply(d: Document)
    ensures ApplyPatch(d, OPS).Ok?
  {
    assert OPS[1..] == [];
    assert Step(d.blocks, OPS[0]).Ok?;
    assert Apply(d.blocks, OPS) == Apply(Step(d.blocks, OPS[0]).value, []);
  }

  lemma HeadStepHere(s: System, o: Outcome, head: Head, next: System)
    requires s.calls == map[0 := RoomRequest(PATCH, AtHead)] && o.response == HeadIs(head) && o.world.store == s.store
    requires next == s.(calls := map[0 := RoomRequest(PATCH, AtStore(head))])
    ensures HeadStep(s, 0, PATCH, false, o) == next
  {
    assert s.calls[0 := RoomRequest(PATCH, AtStore(head))] == next.calls;
  }

  lemma StoreStepHere(s: System, head: Head, next: System)
    requires s.calls == map[0 := RoomRequest(PATCH, AtStore(head))] && s.rooms == map[]
    requires next == s.(rooms := map[ROOM := Room("p", head)], calls := map[0 := RoomRequest(PATCH, InHand(head))])
    ensures StoreStep(s, 0, PATCH, head) == next
  {
    assert s.calls[0 := RoomRequest(PATCH, InHand(head))] == next.calls;
  }

  lemma HandStepHere(s: System, head: Head, document: Document, next: System)
    requires s.calls == map[0 := RoomRequest(PATCH, InHand(head))] && head.no == PATCH.base
    requires ApplyPatch(head.document, OPS) == Ok(document)
    requires next == s.(calls := map[0 := RoomRequest(PATCH, Committing(head, document, AtKey))])
    ensures HandStep(s, 0, PATCH, head, true) == next
  {
    assert s.calls[0 := RoomRequest(PATCH, Committing(head, document, AtKey))] == next.calls;
  }

  lemma SubmitReads(limit: nat, l: Replaying, env: Env, head: Head, o: Outcome)
    requires Reachable(limit, Meaning, Submitting(l, map[], AtHead)) && FreshId(l.system.store, env.revisionId)
    requires o == ReadView(World(l.system.store, map[], 0), "p", DraftKind, env.files)
    requires o.response == HeadIs(head) && o.world.store == l.system.store
    ensures Reachable(limit, Meaning, Submitting(l, map[], AtStore(head)))
  {
    HeadStepHere(Submitting(l, map[], AtHead).system, o, head, Submitting(l, map[], AtStore(head)).system);
    SubmitMoves(limit, Meaning, l, map[], AtHead, env, Submitting(l, map[], AtStore(head)));
  }

  lemma SubmitStores(limit: nat, l: Replaying, env: Env, head: Head)
    requires Reachable(limit, Meaning, Submitting(l, map[], AtStore(head))) && FreshId(l.system.store, env.revisionId)
    ensures Reachable(limit, Meaning, Submitting(l, map[ROOM := Room("p", head)], InHand(head)))
  {
    var next := Submitting(l, map[ROOM := Room("p", head)], InHand(head));
    StoreStepHere(Submitting(l, map[], AtStore(head)).system, head, next.system);
    SubmitMoves(limit, Meaning, l, map[], AtStore(head), env, next);
  }

  lemma SubmitApplies(limit: nat, l: Replaying, env: Env, rooms: map<string, Room>, head: Head, document: Document)
    requires Reachable(limit, Meaning, Submitting(l, rooms, InHand(head))) && FreshId(l.system.store, env.revisionId)
    requires head.no == PATCH.base && ApplyPatch(head.document, OPS) == Ok(document)
    ensures Reachable(limit, Meaning, Submitting(l, rooms, Committing(head, document, AtKey)))
  {
    var next := Submitting(l, rooms, Committing(head, document, AtKey));
    HandStepHere(Submitting(l, rooms, InHand(head)).system, head, document, next.system);
    SubmitMoves(limit, Meaning, l, rooms, InHand(head), env, next);
  }

  /** The submit gets as far as its commit. */
  lemma SubmitReachesCommit(limit: nat, l: Replaying, env: Env) returns (rooms: map<string, Room>, head: Head, document: Document)
    requires Reachable(limit, Meaning, l) && Calm(l, PATCH.base) && FreshId(l.system.store, env.revisionId) && env.files == None
    ensures Reachable(limit, Meaning, Submitting(l, rooms, Committing(head, document, AtKey)))
  {
    var o := ReadView(World(l.system.store, map[], 0), "p", DraftKind, None);
    head := HeadIsRead(l.system.store, PATCH.base, o);
    OpsApply(head.document);
    document := ApplyPatch(head.document, OPS).value;
    rooms := map[ROOM := Room("p", head)];
    SubmitBegins(limit, l, PATCH.base, env);
    SubmitReads(limit, l, env, head, o);
    SubmitStores(limit, l, env, head);
    SubmitApplies(limit, l, env, rooms, head, document);
  }

  lemma CommitStepHere(s: System, head: Head, document: Document, pc: PagePc, o: Progress, at: RoomPc, next: System)
    requires at == Committing(head, document, pc) && s.calls == map[0 := RoomRequest(PATCH, at)]
    requires match o
             case Going(further, st) =>
               next == s.(store := st, calls := map[0 := RoomRequest(PATCH, Committing(head, document, further))])
             case Ended(response, st) =>
               && response.Accepted?
               && next == s.(store := st, calls := map[0 := RoomRequest(PATCH, Committed(document, response.revisionNo, response.revisionId))])
    ensures CommitStep(s, 0, PATCH, at, o) == next
  {
    match o
    case Going(further, st) =>
      assert s.calls[0 := RoomRequest(PATCH, Committing(head, document, further))] == next.calls;
    case Ended(response, st) =>
      assert s.calls[0 := RoomRequest(PATCH, Committed(document, response.revisionNo, response.revisionId))] == next.calls;
  }

  lemma CommitAdvances(limit: nat, l: Replaying, rooms: map<string, Room>, head: Head, document: Document, pc: PagePc, further: PagePc,
                       env: Env)
    requires Reachable(limit, Meaning, Submitting(l, rooms, Committing(head, document, pc))) && !pc.AtWrite?
    requires SaveStep(l.system.store, CommitOf(PATCH, document), pc, env) == Going(further, l.system.store)
    requires FreshId(l.system.store, env.revisionId)
    ensures Reachable(limit, Meaning, Submitting(l, rooms, Committing(head, document, further)))
  {
    var at, next := Committing(head, document, pc), Submitting(l, rooms, Committing(head, document, further));
    CommitStepHere(Submitting(l, rooms, at).system, head, document, pc, Going(further, l.system.store), at, next.system);
    SubmitMoves(limit, Meaning, l, rooms, at, env, next);
  }

  /** The store and rooms once the commit's write landed; its answer is on the way. */
  function Landed(l: Replaying, rooms: map<string, Room>, document: Document, write: Write, after: State): Replaying
    requires write.RevisionWrite?
  {
    Due(Submitting(l.(system := l.system.(store := after)), rooms, Committed(document, write.revision.no, write.revision.id)),
        write.entry)
  }

  lemma CommitEnds(l: Replaying, rooms: map<string, Room>, head: Head, document: Document, pc: PagePc, env: Env, write: Write,
                   after: State)
    requires write.RevisionWrite?
    requires SaveStep(l.system.store, CommitOf(PATCH, document), pc, env)
             == Ended(Accepted("p", write.revision.id, write.revision.no), after)
    ensures Do(Submitting(l, rooms, Committing(head, document, pc)).system, Advance(0, env, true))
            == Landed(l, rooms, document, write, after).system
  {
    var at, o := Committing(head, document, pc), Ended(Accepted("p", write.revision.id, write.revision.no), after);
    var s := Submitting(l, rooms, at).system;
    SubmitIsAdvanced(s, at, env);
    CommitStepHere(s, head, document, pc, o, at, Landed(l, rooms, document, write, after).system);
  }

  lemma CommitLandsHere(limit: nat, l: Replaying, rooms: map<string, Room>, head: Head, document: Document, page: Page,
                        read: Revision, env: Env, write: Write)
    requires Reachable(limit, Meaning, Submitting(l, rooms, Committing(head, document, AtWrite(page, Some(read)))))
    requires PlanSave(CommitOf(PATCH, document), page, read.id, env) == Ok(write) && write.RevisionWrite?
    requires Locked(l.system.store, write).Ok? && FreshId(l.system.store, env.revisionId)
    ensures Reachable(limit, Meaning, Landed(l, rooms, document, write, Locked(l.system.store, write).value))
  {
    var pc, after := AtWrite(page, Some(read)), Locked(l.system.store, write).value;
    var m, a := Submitting(l, rooms, Committing(head, document, pc)), Advance(0, env, true);
    SaveStepLands(l.system.store, CommitOf(PATCH, document), page, read, env, write);
    CommitEnds(l, rooms, head, document, pc, env, write, after);
    SaveIsAsked(m.system, SaveCall(CommitOf(PATCH, document)), pc, env, write);
    DueFrom(m, a, write, Landed(l, rooms, document, write, after));
    ReachableNext(limit, Meaning, m, Act(a));
  }

  /** The steps of a commit whose write lands. */
  lemma CommitGoes(limit: nat, l: Replaying, rooms: map<string, Room>, head: Head, document: Document, page: Page,
                   read: Revision, env: Env, write: Write)
    requires Reachable(limit, Meaning, Submitting(l, rooms, Committing(head, document, AtKey)))
    requires Finds(l.system.store, CommitOf(PATCH, document), env, page, read, write) && write.RevisionWrite?
    requires Locked(l.system.store, write).Ok? && FreshId(l.system.store, env.revisionId)
    ensures Reachable(limit, Meaning, Landed(l, rooms, document, write, Locked(l.system.store, write).value))
  {
    CommitAdvances(limit, l, rooms, head, document, AtKey, AtPage, env);
    CommitAdvances(limit, l, rooms, head, document, AtPage, AtBase(page), env);
    CommitAdvances(limit, l, rooms, head, document, AtBase(page), AtWrite(page, Some(read)), env);
    CommitLandsHere(limit, l, rooms, head, document, page, read, env, write);
  }

  lemma PatchIdIsPlain(document: Document)
    ensures CommitOf(PATCH, document).patchId == "x"
  {
    assert TrimSpace("x") == "x";
  }

  /** The client's patch is committed; its entry is due too. */
  lemma CommitRuns(limit: nat, l: Replaying, env: Env) returns (m: Replaying, r: Revision)
    requires Reachable(limit, Meaning, l) && Calm(l, PATCH.base) && FreshId(l.system.store, env.revisionId)
    requires env.files == None && env.unavailable == {}
    ensures Reachable(limit, Meaning, m) && m.windows == l.windows && m.limit == l.limit
    ensures m.due == l.due + [EntryOf(r, "w", "x")] && r.no == PATCH.base + 1 && r.via == SavedByPatch && r.createdAt == env.now
    ensures PageOk(m.system.store, "p") && m.system.store.pages["p"].draftNo == r.no
    ensures RevisionsOf(m.system.store, "p") == RevisionsOf(l.system.store, "p") + [r]
  {
    var st := l.system.store;
    var rooms, head, document := SubmitReachesCommit(limit, l, env);
    var input := CommitOf(PATCH, document);
    PatchIdIsPlain(document);
    var page, read, write := SaveFinds(st, input, PATCH.base, env);
    var after := SaveLeaves(st, input, PATCH.base, env, page, read, write, "", "");
    CommitGoes(limit, l, rooms, head, document, page, read, env, write);
    m, r := Landed(l, rooms, document, write, after), write.revision;
  }

  // ------------------------------------------------------------------------------- the run

  const CREATION := CreateCall(CreateInput("p", "w", "t", "t", Guarantees.BLANK, "u"))

  lemma CreationEnds(s: System)
    requires s == CollaborationGuarantees.IDLE.(calls := map[0 := PageRequest(CREATION, AtPage)])
    ensures Do(s, Advance(0, Guarantees.CREATION, false)) == CollaborationGuarantees.IDLE.(store := Guarantees.Created().store)
  {
    assert s.calls - {0} == map[];
  }

  lemma CreationBegins(limit: nat) returns (m: Replaying)
    ensures m == Idle(limit).(system := CollaborationGuarantees.IDLE.(calls := map[0 := PageRequest(CREATION, AtPage)]))
    ensures Reachable(limit, Meaning, m)
  {
    assert RanLegally(limit, Meaning, []) && Ran(limit, []) == Idle(limit);
    ReachableNext(limit, Meaning, Idle(limit), Act(BeginPage(0, CREATION)));
    m := Idle(limit).(system := CollaborationGuarantees.IDLE.(calls := map[0 := PageRequest(CREATION, AtPage)]));
    assert ReplayDo(Idle(limit), Act(BeginPage(0, CREATION))) == m;
  }

  lemma CreationIsFresh()
    ensures FreshId(EMPTY, "r1") && ':' !in "p"
  {
  }

  lemma CreationRuns(limit: nat) returns (l: Replaying)
    ensures Reachable(limit, Meaning, l)
    ensures l == Idle(limit).(system := CollaborationGuarantees.IDLE.(store := Guarantees.Created().store))
  {
    var m := CreationBegins(limit);
    l := Idle(limit).(system := CollaborationGuarantees.IDLE.(store := Guarantees.Created().store));
    CreationEnds(m.system);
    CreationIsFresh();
    QuietFrom(m, Advance(0, Guarantees.CREATION, false), l);
    ReachableNext(limit, Meaning, m, Act(Advance(0, Guarantees.CREATION, false)));
  }

  lemma CreationIsCalm(l: Replaying, limit: nat)
    requires l == Idle(limit).(system := CollaborationGuarantees.IDLE.(store := Guarantees.Created().store))
    ensures Calm(l, 1) && l.due == [] && l.windows == map[] && l.limit == limit
    ensures FreshId(l.system.store, "r2") && FreshId(l.system.store, "r3") && FreshId(l.system.store, "r4")
  {
    Guarantees.CreatedPageIsLive();
  }

  lemma AppendRuns(limit: nat, l: Replaying, i: nat, clock: int) returns (m: Replaying)
    requires Reachable(limit, Meaning, l) && i < |l.due| && l.due[i].pageId == "p" && l.limit == limit
    ensures Reachable(limit, Meaning, m) && m.system == l.system && m.limit == limit
    ensures m.due == l.due[..i] + l.due[i + 1..]
    ensures EntriesOf(m.windows, "p") == Appended(EntriesOf(l.windows, "p"), l.due[i], WINDOW_TTL, limit, clock)
  {
    m := ReplayDo(l, Append(i, clock));
    ReachableNext(limit, Meaning, l, Append(i, clock));
  }

  /** Two recent entries fit into the window. */
  lemma BothKept(e: Entry, f: Entry, limit: nat)
    requires e.createdAt == 2 && f.createdAt == 4 && limit >= 2
    ensures Appended([], e, WINDOW_TTL, limit, 2) == [e]
    ensures Appended([e], f, WINDOW_TTL, limit, 4) == [e, f]
  {
    assert [] + [e] == [e] && KeepFirst([e], 0, 2 - WINDOW_TTL) == [];
    var both := [e] + [f];
    assert KeepFirst(both, 0, 4 - WINDOW_TTL) == [] && KeepFirst(both, 1, 4 - WINDOW_TTL) == [e];
  }

  /** The client saw revision 2 and waits for its patch. */
  const WAITING := SyncInput("p", 2, ["x"], Some(ResumeToken("p", "r2", 2, 0, "")))

  /** Revisions 2 and 3 are autosaves, 4 is the patch; the entry of 3 is due still. */
  ghost predicate Late(l: Replaying, q: Revision, r: Revision, s: Revision) {
    var revs := RevisionsOf(l.system.store, "p");
    && PageOk(l.system.store, "p") && l.system.store.pages["p"].draftNo == 4
    && |revs| == 4 && revs[1] == q && revs[2] == r && revs[3] == s
    && q.no == 2 && r.no == 3 && r.via == SavedByRest && s.no == 4 && s.via == SavedByPatch
    && EntriesOf(l.windows, "p") == [EntryOf(q, "w", ""), EntryOf(s, "w", "x")] && l.due == [EntryOf(r, "w", "")]
  }

  /** Revision 2 is saved and its entry appended. */
  lemma FirstAutosave(limit: nat) returns (l: Replaying, q: Revision)
    requires limit >= 2
    ensures Reachable(limit, Meaning, l) && Calm(l, 2) && l.due == [] && l.limit == limit
    ensures EntriesOf(l.windows, "p") == Appended([], EntryOf(q, "w", ""), WINDOW_TTL, limit, 2)
    ensures RevisionsOf(l.system.store, "p")[1] == q && q.no == 2 && q.createdAt == 2
    ensures FreshId(l.system.store, "r3") && FreshId(l.system.store, "r4")
  {
    var a := CreationRuns(limit);
    CreationIsCalm(a, limit);
    var b;
    b, q := AutosaveRuns(limit, Meaning, a, 1, At(2, "r2"), "r3", "r4");
    l := AppendRuns(limit, b, 0, 2);
  }

  /** Then revision 3, whose entry is not, and the patch. */
  lemma SecondAutosave(limit: nat, l: Replaying, q: Revision) returns (m: Replaying, r: Revision, s: Revision)
    requires Reachable(limit, Meaning, l) && Calm(l, 2) && l.due == [] && l.limit == limit
    requires RevisionsOf(l.system.store, "p")[1] == q && FreshId(l.system.store, "r3") && FreshId(l.system.store, "r4")
    ensures Reachable(limit, Meaning, m) && m.limit == limit && m.windows == l.windows
    ensures m.due == [EntryOf(r, "w", "")] + [EntryOf(s, "w", "x")]
    ensures PageOk(m.system.store, "p") && m.system.store.pages["p"].draftNo == 4
    ensures RevisionsOf(m.system.store, "p") == RevisionsOf(l.system.store, "p") + [r] + [s]
    ensures r.no == 3 && r.via == SavedByRest && s.no == 4 && s.via == SavedByPatch && s.createdAt == 4
  {
    var d;
    d, r := AutosaveRuns(limit, Meaning, l, 2, At(3, "r3"), "r4", "");
    OnlyDue(EntryOf(r, "w", ""));
    m, s := CommitRuns(limit, d, At(4, "r4"));
  }

  lemma OnlyDue(e: Entry)
    ensures [] + [e] == [e]
  {
  }

  lemma FirstStaysDue(due: seq<Entry>, e: Entry, f: Entry)
    requires due == [e] + [f]
    ensures |due| == 2 && due[1] == f && due[..1] + due[2..] == [e]
  {
  }

  lemma AppendComesLate(limit: nat) returns (l: Replaying, q: Revision, r: Revision, s: Revision)
    requires limit >= 2
    ensures Reachable(limit, Meaning, l) && Late(l, q, r, s) && l.limit == limit
  {
    var c, m;
    c, q := FirstAutosave(limit);
    m, r, s := SecondAutosave(limit, c, q);
    BothKept(EntryOf(q, "w", ""), EntryOf(s, "w", "x"), limit);
    FirstStaysDue(m.due, EntryOf(r, "w", ""), EntryOf(s, "w", "x"));
    l := AppendRuns(limit, m, 1, 4);
  }

  lemma LateResumes(w: World, q: Revision, s: Revision)
    requires PageOk(w.store, "p") && w.store.pages["p"].draftNo == 4 && q.no == 2 && s.no == 4 && s.via == SavedByPatch
    requires EntriesOf(w.windows, "p") == [EntryOf(q, "w", ""), EntryOf(s, "w", "x")]
    ensures Resumes(w, WAITING) && HeadRevision(w.store, "p", DraftKind).value.no == 4
  {
    var e, f := EntryOf(q, "w", ""), EntryOf(s, "w", "x");
    HeadIsFound(w.store, "p");
    Guarantees.NumbersUpTo(RevisionsOf(w.store, "p"), 3);
    LaterIsSince(e, f);
    LateIsReplayed(w.store, f);
    assert EntriesSince(w, WAITING) == [f];
  }

  lemma LaterIsSince(e: Entry, f: Entry)
    requires e.revisionNo == 2 && f.revisionNo == 4
    ensures Since([e, f], 2) == [f]
  {
    assert SinceFirst([e, f], 0, 2) == [] && SinceFirst([e, f], 1, 2) == [];
  }

  lemma LateIsReplayed(st: State, f: Entry)
    requires f.kind == CollabPatchEntry && f.patchId == "x"
    ensures IsReplayedPatch(f, SelectFirst(["x"], 1, Known(st, "p", [f])))
  {
    assert TrimSpace("x") == "x";
    assert InEntries([f], "x") by {
      assert TrimSpace([f][0].patchId) == "x";
    }
    assert SeenBefore(["x"], 1, "x");
    SelectionMembers(["x"], 1, Known(st, "p", [f]), "x");
  }

  /** The client may resume below the head, and the window reaches back to its revision. */
  ghost predicate Misled(w: World) {
    && Resumes(w, WAITING) && HeadRevision(w.store, "p", DraftKind).value.no > WAITING.lastKnown
    && EntriesOf(w.windows, "p") != [] && EntriesOf(w.windows, "p")[0].revisionNo <= WAITING.lastKnown + 1
  }

  /** This unseen revision is somebody's autosave whose entry is due. */
  ghost predicate ForeignDue(l: Replaying, r: Revision) {
    && r in RevisionsOf(l.system.store, "p") && r.no > WAITING.lastKnown && r.via == SavedByRest
    && l.due == [EntryOf(r, "w", "")]
  }

  lemma ForeignIsNotPending(revs: seq<Revision>, carried: string -> string, r: Revision)
    requires r in revs && r.no > WAITING.lastKnown && r.via == SavedByRest
    ensures !AllPending(revs, carried, WAITING.lastKnown, WAITING.pending)
  {
    var j :| 0 <= j < |revs| && revs[j] == r;
    assert !IsPendingPatch(revs[j], carried, WAITING.pending);
  }

  /**
   With a window of any length: the client saw revision 2, revision 3 is somebody else's
   autosave, revision 4 is the client's patch. The entry of 4 overtakes that of 3; the window
   reaches back to the client's revision, and the client may resume without revision 3.
   */
  lemma LateAppendMisleads(limit: nat) returns (l: Replaying, r: Revision)
    requires limit >= 2
    ensures Reachable(limit, Meaning, l) && Misled(WorldOf(l)) && ForeignDue(l, r)
    ensures !AllPending(RevisionsOf(l.system.store, "p"), CarriedBy(l.carried), WAITING.lastKnown, WAITING.pending)
  {
    var q, s;
    l, q, r, s := AppendComesLate(limit);
    LateResumes(WorldOf(l), q, s);
    ForeignIsNotPending(RevisionsOf(l.system.store, "p"), CarriedBy(l.carried), r);
  }
}
