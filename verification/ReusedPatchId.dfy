/**
 The one way a room can go wrong: a patch id used for two different patches.
 `CollaborationGuarantees.ReusedPatchIdIsRightIff` has the exact condition; here is a case
 where it fails.
 */
module ReusedPatchId {
  import opened Wrappers
  import opened Text
  import opened Sequences
  import opened Documents
  import opened Patches
  import opened PageStore
  import opened UseCases
  import opened Lifecycle
  import opened DraftChain
  import opened PageCalls
  import opened Collaboration
  import CollaborationGuarantees
  import Guarantees
  import Resume

  const PARAGRAPH := Block("b", "paragraph", "one", map[], None, None, None)
  const WRITTEN := Document([PARAGRAPH], map[])

  /** Two patches under the id "x": one writes a paragraph, the other takes it away. */
  const WRITE := Submit("p", "w", "u", 1, "x", [Insert(Some(InsertValue(PARAGRAPH, None, "")))])
  const TAKE := Submit("p", "w", "u", 2, "x", [Delete("b")])

  lemma WriteWrites()
    ensures ApplyPatch(Guarantees.BLANK, WRITE.ops) == Ok(WRITTEN)
  {
    assert InsertAt([], 0, PARAGRAPH) == [PARAGRAPH];
    assert Step([], WRITE.ops[0]) == Ok([PARAGRAPH]);
    assert WRITE.ops[1..] == [];
    assert Apply([], WRITE.ops) == Apply([PARAGRAPH], []);
  }

  lemma TakeTakes(d: Document)
    requires d == WRITTEN
    ensures ApplyPatch(d, TAKE.ops) == Ok(Guarantees.BLANK)
  {
    assert Find([PARAGRAPH], "b") == 0;
    assert Step([PARAGRAPH], TAKE.ops[0]) == Ok([]);
    assert TAKE.ops[1..] == [];
  }

  lemma CommitOfWrite(page: Page, env: Env)
    requires env.files == None
    ensures PlanSave(CommitOf(WRITE, WRITTEN), page, page.draftId, env).Ok?
    ensures PlanSave(CommitOf(WRITE, WRITTEN), page, page.draftId, env).value.revision.document == WRITTEN
    ensures CommitOf(WRITE, WRITTEN).key == "collab:x"
  {
    assert TrimSpace("x") == "x";
    assert Canonical(WRITTEN) == WRITTEN;
  }

  lemma {:induction false} SnapsAreRevisions(revs: seq<Revision>, n: nat, x: Snap)
    requires n <= |revs| && x in DraftsFirst(revs, n)
    ensures exists i :: 0 <= i < n && x == SnapOf(revs[i])
    decreases n
  {
    assert DraftsFirst(revs, n) == DraftsNext(revs, n - 1);
    if x in DraftsFirst(revs, n - 1) {
      SnapsAreRevisions(revs, n - 1, x);
    }
  }

  /** A snap numbered 2 on the chain of an atomic history shows revision 2. */
  lemma SecondSnap(st: State, r: Revision, x: Snap)
    requires PageOk(st, "p") && |RevisionsOf(st, "p")| == 2 && RevisionsOf(st, "p")[1] == r
    ensures x in Chain(st, "p") && x.no == 2 ==> x.view == View(r.document)
  {
    var revs := RevisionsOf(st, "p");
    if x in Chain(st, "p") {
      SnapsAreRevisions(revs, |revs|, x);
      Guarantees.NumbersUpTo(revs, 0);
    }
  }

  /** A commit under the recorded id is answered with the record. */
  lemma TakeIsAnswered(st: State, r: Revision, env: Env)
    requires Recorded(st, "p", "collab:x") == Some(r)
    ensures SaveStep(st, CommitOf(TAKE, Guarantees.BLANK), AtKey, env) == Ended(Accepted("p", r.id, r.no), st)
  {
    assert TrimSpace("x") == "x" && TrimSpace("p") == "p";
    assert CommitOf(TAKE, Guarantees.BLANK).key == "collab:x";
  }

  /** The page was just created, and its one revision is blank. */
  ghost predicate JustCreated(w: World) {
    && PageOk(w.store, "p") && w.store.pages["p"].status != ArchivedStatus && w.store.pages["p"].draftNo == 1
    && |RevisionsOf(w.store, "p")| == 1 && RevisionsOf(w.store, "p")[0].document == Guarantees.BLANK
    && w.store.idempotencies == map[] && FreshId(w.store, "r2")
  }

  lemma CreatedIsJustCreated()
    ensures JustCreated(Guarantees.Created())
  {
    Guarantees.CreatedPageIsLive();
  }

  /** The first patch is accepted and recorded as draft 2. */
  lemma WriteIsRecorded(w: World) returns (st: State, r: Revision)
    requires JustCreated(w)
    ensures st == Save(w, CommitOf(WRITE, WRITTEN), Guarantees.CHANGE).world.store
    ensures PageOk(st, "p") && |RevisionsOf(st, "p")| == 2 && RevisionsOf(st, "p")[1] == r
    ensures r.no == 2 && r.document == WRITTEN && HeadRevision(st, "p", DraftKind) == Some(r)
    ensures Recorded(st, "p", "collab:x") == Some(r)
  {
    var env := Guarantees.CHANGE;
    CommitOfWrite(w.store.pages["p"], env);
    var write := Resume.SaveLands(w, CommitOf(WRITE, WRITTEN), env);
    r, st := write.revision, Locked(w.store, write).value;
    Resume.SavedOnePage(w.store, write, env, "");
    HeadIsFound(st, "p");
    Guarantees.NewKeyStands(w.store, write, env);
    Guarantees.NumbersUpTo(RevisionsOf(st, "p"), 1);
  }

  /** The second submit, with the right room in its hand. */
  function Submitting(st: State, r: Revision): System {
    System(st, map[], {RoomKey("w", "p")}, map[0 := RoomRequest(TAKE, InHand(Head(r.no, r.id, r.document)))], [])
  }

  function Advanced(s: System): System {
    Do(s, Advance(0, Guarantees.LATE, true))
  }

  lemma TakeIsApplied(st: State, r: Revision)
    requires r.no == TAKE.base && ApplyPatch(r.document, TAKE.ops) == Ok(Guarantees.BLANK)
    ensures var t := Advanced(Submitting(st, r));
            && t.store == st && 0 in t.calls
            && t.calls[0] == RoomRequest(TAKE, Committing(Head(r.no, r.id, r.document), Guarantees.BLANK, AtKey))
  {
  }

  lemma RoomAfterTake(t: System, r: Revision)
    requires 0 in t.calls && Recorded(t.store, "p", "collab:x") == Some(r)
    requires t.calls[0] == RoomRequest(TAKE, Committing(Head(r.no, r.id, r.document), Guarantees.BLANK, AtKey))
    ensures var after := Advanced(Advanced(t));
            && after.store == t.store && RoomKey("w", "p") in after.rooms
            && after.rooms[RoomKey("w", "p")] == Room("p", Head(r.no, r.id, Guarantees.BLANK))
  {
    var at := Committing(Head(r.no, r.id, r.document), Guarantees.BLANK, AtKey);
    TakeIsAnswered(t.store, r, Guarantees.LATE);
    CollaborationGuarantees.RecoveryStep(t, 0, TAKE, at, Guarantees.LATE, true, r.no, r.id);
    CollaborationGuarantees.AcceptedRoom(Advanced(t), 0, TAKE, Guarantees.BLANK, r.no, r.id, Guarantees.LATE, true);
  }

  /**
   A submit under a reused id, on the present head and with the right room in its hand, is
   answered with the draft of the first patch. It leaves the store alone, and a room under
   that draft's number and id whose document was never a draft.
   */
  lemma ReusedIdLeavesWrongRoom() returns (w: World, st: State, r: Revision)
    ensures JustCreated(w) && ApplyPatch(RevisionsOf(w.store, "p")[0].document, WRITE.ops) == Ok(WRITTEN)
    ensures st == Save(w, CommitOf(WRITE, WRITTEN), Guarantees.CHANGE).world.store
    ensures HeadRevision(st, "p", DraftKind) == Some(r) && r.no == TAKE.base
    ensures ApplyPatch(r.document, TAKE.ops) == Ok(Guarantees.BLANK)
    ensures var after := Advanced(Advanced(Advanced(Submitting(st, r))));
            && after.store == st && RoomKey("w", "p") in after.rooms
            && after.rooms[RoomKey("w", "p")] == Room("p", Head(r.no, r.id, Guarantees.BLANK))
            && SnapOfHead(after.rooms[RoomKey("w", "p")].head) !in Chain(after.store, "p")
  {
    w := Guarantees.Created();
    CreatedIsJustCreated();
    WriteWrites();
    st, r := WriteIsRecorded(w);
    TakeTakes(r.document);
    TakeIsApplied(st, r);
    RoomAfterTake(Advanced(Submitting(st, r)), r);
    SecondSnap(st, r, SnapOfHead(Head(r.no, r.id, Guarantees.BLANK)));
  }
}
