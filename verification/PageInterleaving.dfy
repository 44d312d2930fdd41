/**
 Every step of every page request, from whatever it read before, keeps the store invariant and
 lets draft chains only grow; an accepted save adds exactly one draft on the current head.
 */
module PageInterleaving {
  import opened Wrappers
  import opened Text
  import opened Sequences
  import opened Documents
  import opened Patches
  import opened PageStore
  import opened PageEvents
  import opened UseCases
  import opened Lifecycle
  import opened DraftChain
  import opened PageCalls

  // ------------------------------------------------------------------------ one locked write

  /** What an accepted revision write leaves of pages, revisions and records. */
  ghost predicate Wrote(st: State, after: State, page: Page, r: Revision, record: Option<IdempotencyRecord>) {
    && page.id in st.pages
    && after.pages == st.pages[page.id := page]
    && after.revisions == st.revisions[page.id := AddSorted(RevisionsOf(st, page.id), r)]
    && after.idempotencies
       == (if record.Some? && record.value.key != ""
           then st.idempotencies[IdempotencyKey(page.id, record.value.key) := record.value] else st.idempotencies)
    && TablesOf(after) == TablesWith(TablesOf(st), r)
  }

  // ---------------------------------------------------------------------- exact projections

  function TablesWith(t: Tables, r: Revision): Tables {
    var refs := RevisionReferences(r);
    Tables(t.embeds[r.id := refs.embeds], t.attachments[r.id := refs.attachments], t.links[r.id := refs.links])
  }

  lemma TablesGrow(t: Tables, p: string, r: Revision, x: Revision)
    requires (OwnProjected(t, p, x) && x.id != r.id) || (x == r && r.pageId == p)
    ensures OwnProjected(TablesWith(t, r), p, x)
  {
  }

  lemma PageProjectedElsewhere(t: Tables, p: string, revs: seq<Revision>, r: Revision)
    requires PageProjected(t, p, revs) && forall i :: 0 <= i < |revs| ==> revs[i].id != r.id
    ensures PageProjected(TablesWith(t, r), p, revs)
  {
    forall i | 0 <= i < |revs| ensures OwnProjected(TablesWith(t, r), p, revs[i]) {
      TablesGrow(t, p, r, revs[i]);
    }
  }

  lemma PageProjectedWith(t: Tables, p: string, revs: seq<Revision>, k: nat, r: Revision)
    requires PageProjected(t, p, revs) && (forall i :: 0 <= i < |revs| ==> revs[i].id != r.id)
    requires r.pageId == p && k <= |revs|
    ensures PageProjected(TablesWith(t, r), p, InsertAt(revs, k, r))
  {
    TablesGrow(t, p, r, r);
    PageProjectedElsewhere(t, p, revs, r);
  }

  /** A new revision is projected wherever it is put; nobody else's tables change. */
  lemma WriteProjects(st: State, after: State, p: string, r: Revision)
    requires AllProjected(st) && FreshId(st, r.id) && r.pageId == p
    requires after.revisions == st.revisions[p := AddSorted(RevisionsOf(st, p), r)]
    requires TablesOf(after) == TablesWith(TablesOf(st), r)
    ensures AllProjected(after)
  {
    forall q | q in after.revisions ensures PageProjected(TablesOf(after), q, after.revisions[q]) {
      if q == p {
        PageProjectedWith(TablesOf(st), p, RevisionsOf(st, p), SortPosition(RevisionsOf(st, p), |RevisionsOf(st, p)|, r.no), r);
      } else {
        PageProjectedElsewhere(TablesOf(st), q, st.revisions[q], r);
      }
    }
  }

  lemma RehydratedProjected(t: Tables, p: string, revs: seq<Revision>, i: nat, files: FileResolver)
    requires PageProjected(t, p, revs) && i < |revs|
    ensures PageProjected(t, p, revs[i := Rehydrated(revs, i, files)])
  {
    RehydratedReferences(revs, i, files);
    assert OwnProjected(t, p, revs[i]);
  }

  lemma LockedWrites(st: State, write: Write)
    requires write.RevisionWrite? && Locked(st, write).Ok? && (write.revision.kind == PublishedKind ==> write.record.None?)
    ensures Wrote(st, Locked(st, write).value, write.page, write.revision, write.record)
    ensures st.pages[write.page.id].draftNo == write.expectedNo
  {
  }

  /** A revision write from a copy that still fits: the chain gains the draft, or nothing. */
  lemma WriteExtendsChain(st: State, after: State, copy: Page, page: Page, r: Revision, record: Option<IdempotencyRecord>)
    requires Wrote(st, after, page, r, record) && PageInv(st, page.id)
    requires StillFits(st, page.id, copy) && copy.draftNo == st.pages[page.id].draftNo
    requires FreshId(st, r.id) && r.no == NextRevisionNo(copy)
    requires page == if r.kind == DraftKind then WithDraftHead(copy, r) else WithPublishedHead(copy, r)
    requires r.kind == DraftKind ==> r.baseId == st.pages[page.id].draftId
    ensures PageInv(after, page.id) && PageGrown(st, after, page.id)
    ensures Chain(after, page.id) == Chain(st, page.id) + (if r.kind == DraftKind then [SnapOf(r)] else [])
  {
    FreshIsNotFound(st, page.id, r.id);
    AddedToChain(RevisionsOf(st, page.id), HeadOf(st.pages[page.id]), r);
  }

  /** Only page p moved, and it moved lawfully. */
  ghost predicate PageMoved(st: State, after: State, p: string) {
    && p in after.pages && p in after.revisions
    && after.pages == st.pages[p := after.pages[p]] && after.revisions == st.revisions[p := after.revisions[p]]
    && PageInv(after, p) && (p in st.pages ==> PageGrown(st, after, p))
  }

  /** No record is new, or one under this key, which if it is a patch key is on the chain. */
  ghost predicate KeyMoved(st: State, after: State, plan: Plan, p: string, k: string) {
    || after.idempotencies == st.idempotencies
    || (&& k in after.idempotencies && after.idempotencies == st.idempotencies[k := after.idempotencies[k]]
        && KeyBelongs(after, k) && after.idempotencies[k].pageId == p
        && forall patchId :: k == PatchKey(p, patchId) ==> RecordInv(after, plan, p, patchId))
  }

  /** One page moved on; the invariant holds for it, and for the one record that may be new. */
  lemma StoreInvMoves(st: State, after: State, plan: Plan, p: string, k: string)
    requires StoreInv(st, plan) && PageMoved(st, after, p) && KeyMoved(st, after, plan, p, k) && AllProjected(after)
    ensures StoreInv(after, plan) && Grown(st, after)
  {
    PagesMove(st, after, plan, p);
    KeysMove(st, after, plan, p, k);
    forall q, patchId | q in after.pages ensures RecordInv(after, plan, q, patchId) {
      if q in st.pages {
        assert PageGrown(st, after, q);
      }
      RecordMoves(st, after, plan, p, k, q, patchId);
    }
  }

  lemma PagesMove(st: State, after: State, plan: Plan, p: string)
    requires StoreInv(st, plan) && PageMoved(st, after, p)
    ensures forall q :: q in after.pages ==> PageInv(after, q)
    ensures forall q :: q in st.pages ==> PageGrown(st, after, q)
  {
  }

  lemma KeysMove(st: State, after: State, plan: Plan, p: string, k: string)
    requires StoreInv(st, plan) && PageMoved(st, after, p) && KeyMoved(st, after, plan, p, k)
    ensures forall j :: j in after.idempotencies ==> KeyBelongs(after, j)
    ensures forall j :: j in st.idempotencies ==> j in after.idempotencies
  {
  }

  lemma RecordMoves(st: State, after: State, plan: Plan, p: string, k: string, q: string, patchId: string)
    requires StoreInv(st, plan) && PageMoved(st, after, p) && KeyMoved(st, after, plan, p, k) && q in after.pages
    requires PageInv(after, q) && (q in st.pages ==> PageGrown(st, after, q))
    ensures RecordInv(after, plan, q, patchId)
  {
    if PatchKey(q, patchId) in after.idempotencies {
      if after.idempotencies != st.idempotencies && PatchKey(q, patchId) == k {
        IdempotencyKeysAreInjective(q, "collab:" + patchId, p, after.idempotencies[k].key);
      } else {
        OldRecordMoves(st, after, plan, p, q, patchId);
      }
    }
  }

  lemma OldRecordMoves(st: State, after: State, plan: Plan, p: string, q: string, patchId: string)
    requires StoreInv(st, plan) && PageInv(after, q) && (q in st.pages ==> PageGrown(st, after, q))
    requires PatchKey(q, patchId) in st.idempotencies && PatchKey(q, patchId) in after.idempotencies
    requires after.idempotencies[PatchKey(q, patchId)] == st.idempotencies[PatchKey(q, patchId)]
    ensures RecordInv(after, plan, q, patchId)
  {
    var k := PatchKey(q, patchId);
    var record := st.idempotencies[k];
    assert KeyBelongs(st, k);
    assert PageInv(st, record.pageId);
    IdempotencyKeysAreInjective(q, "collab:" + patchId, record.pageId, record.key);
    assert RecordInv(st, plan, q, patchId);
    PatchStaysOnChain(Chain(st, q), Chain(after, q), plan(q, patchId), record.revisionNo, record.revisionId);
  }

  // --------------------------------------------------------------------------------- saving

  /** What the locked write of a save found and left, when it was accepted. */
  ghost predicate AcceptedDraft(st: State, after: State, p: string, r: Revision, document: Document) {
    && p in st.pages && Chain(st, p) != []
    && r.kind == DraftKind && r.baseId == LastSnap(Chain(st, p)).id && r.no > LastSnap(Chain(st, p)).no
    && Chain(after, p) == Chain(st, p) + [Snap(r.no, r.id, View(document))]
  }

  /** The write planned by a save, in the terms the chain is about. */
  ghost predicate IsSavePlan(input: SaveInput, page: Page, baseId: string, env: Env, write: Write) {
    && write.RevisionWrite? && write.expectedNo == input.base && write.page == WithDraftHead(page, write.revision)
    && var r := write.revision;
       && r.kind == DraftKind && r.no == NextRevisionNo(page) && r.baseId == baseId && r.id == env.revisionId
       && r.pageId == input.pageId && r.createdBy == input.actor && r.via == input.via && r.createdAt == env.now
       && r.title == page.title && View(r.document) == View(input.document)
       && write.record == (if input.key == "" then None
                           else Some(IdempotencyRecord(input.pageId, input.key, r.id, r.no, env.now)))
  }

  lemma PlannedSave(input: SaveInput, page: Page, baseId: string, env: Env, write: Write)
    requires PlanSave(input, page, baseId, env) == Ok(write)
    ensures IsSavePlan(input, page, baseId, env, write)
  {
    HydratedShape(env.files, input.document);
  }

  /** The save's plan went through: its base was the draft head under the lock. */
  ghost predicate SaveWrote(st: State, after: State, input: SaveInput, page: Page, read: Revision, env: Env, write: Write) {
    && IsSavePlan(input, page, read.id, env, write)
    && Wrote(st, after, write.page, write.revision, write.record)
    && st.pages[write.page.id].draftNo == input.base
  }

  /** Accepted saves: one draft, on the head of that moment, from whatever was read before. */
  lemma SaveAppends(st: State, after: State, input: SaveInput, page: Page, read: Revision, env: Env, write: Write)
    requires PageInv(st, input.pageId) && PageCallOk(st, SaveCall(input), AtWrite(page, Some(read)))
    requires FreshId(st, env.revisionId) && SaveWrote(st, after, input, page, read, env, write)
    ensures write.page.id == input.pageId && PageInv(after, input.pageId) && PageGrown(st, after, input.pageId)
    ensures AcceptedDraft(st, after, input.pageId, write.revision, input.document)
  {
    WriteExtendsChain(st, after, page, write.page, write.revision, write.record);
    HeadIsLastSnap(st, input.pageId);
  }

  /** Keys of autosaves are kept apart from those of patches. */
  predicate RestKey(input: SaveInput) {
    input.via == SavedByRest && !("collab:" <= input.key)
  }

  lemma RestKeyIsNoPatchKey(p: string, key: string, q: string, patchId: string)
    requires ':' !in p && ':' !in q && !("collab:" <= key)
    ensures IdempotencyKey(p, key) != PatchKey(q, patchId)
  {
    assert "collab:" <= "collab:" + patchId;
    IdempotencyKeysAreInjective(p, key, q, "collab:" + patchId);
  }

  lemma RestSaveKeepsInv(st: State, after: State, plan: Plan, input: SaveInput, page: Page, read: Revision, env: Env,
                         write: Write)
    requires StoreInv(st, plan) && PageCallOk(st, SaveCall(input), AtWrite(page, Some(read))) && RestKey(input)
    requires FreshId(st, env.revisionId) && SaveWrote(st, after, input, page, read, env, write)
    ensures StoreInv(after, plan) && Grown(st, after)
  {
    var p := input.pageId;
    assert PageInv(st, p);
    SaveAppends(st, after, input, page, read, env, write);
    var k := IdempotencyKey(p, input.key);
    forall patchId ensures k != PatchKey(p, patchId) {
      RestKeyIsNoPatchKey(p, input.key, p, patchId);
    }
    WriteProjects(st, after, p, write.revision);
    StoreInvMoves(st, after, plan, p, k);
  }

  /** The commit of a patch on a room: the document is the patched room, the patch id means this patch. */
  ghost predicate CommitOk(st: State, plan: Plan, input: SaveInput, patchId: string, room: Head, ops: seq<Op>) {
    && input.via == SavedByPatch && input.key == CollabKey(patchId)
    && SnapOfHead(room) in Chain(st, input.pageId) && room.no == input.base
    && ApplyPatch(room.document, ops) == Ok(input.document)
    && (TrimSpace(patchId) != "" ==> plan(input.pageId, TrimSpace(patchId)) == Intent(input.base, ops))
  }

  lemma CommitStays(st: State, after: State, plan: Plan, input: SaveInput, patchId: string, room: Head, ops: seq<Op>)
    requires CommitOk(st, plan, input, patchId, room, ops) && input.pageId in st.pages && Grown(st, after)
    ensures CommitOk(after, plan, input, patchId, room, ops)
  {
  }

  lemma PatchedViews(before: Document, ops: seq<Op>, after: Document)
    requires ApplyPatch(before, ops) == Ok(after)
    ensures Patched(View(before), ops, View(after))
  {
    PatchCommutesWithSnapshot(SHARED, before, ops);
  }

  lemma NewPatchOnChain(before: seq<Snap>, base: int, ops: seq<Op>, x: Snap)
    requires before != [] && LastSnap(before).no == base && Patched(LastSnap(before).view, ops, x.view)
    ensures PatchOnChain(before + [x], Intent(base, ops), x.no, x.id)
  {
    assert PatchStep(before + [x], |before|, Intent(base, ops), x.no, x.id);
  }

  /** The accepted commit of a patch appends the patched head, whatever happened since the room was read. */
  lemma CommitAppends(st: State, after: State, plan: Plan, input: SaveInput, patchId: string, room: Head, ops: seq<Op>,
                      page: Page, read: Revision, env: Env, write: Write)
    requires PageInv(st, input.pageId) && CommitOk(st, plan, input, patchId, room, ops)
    requires PageCallOk(st, SaveCall(input), AtWrite(page, Some(read)))
    requires FreshId(st, env.revisionId) && SaveWrote(st, after, input, page, read, env, write)
    ensures AcceptedDraft(st, after, input.pageId, write.revision, input.document)
    ensures LastSnap(Chain(st, input.pageId)) == SnapOfHead(room)
    ensures Patched(LastSnap(Chain(st, input.pageId)).view, ops, View(input.document))
    ensures PatchOnChain(Chain(after, input.pageId), Intent(input.base, ops), write.revision.no, write.revision.id)
    ensures Snap(write.revision.no, write.revision.id, View(input.document)) in Chain(after, input.pageId)
  {
    var p, r := input.pageId, write.revision;
    SaveAppends(st, after, input, page, read, env, write);
    HeadNumberIsLast(st, p, SnapOfHead(room));
    PatchedViews(room.document, ops, input.document);
    NewPatchOnChain(Chain(st, p), input.base, ops, Snap(r.no, r.id, View(input.document)));
  }

  lemma PatchKeyIs(p: string, patchId: string, t: string)
    requires ':' !in p && IdempotencyKey(p, "collab:" + patchId) == PatchKey(p, t)
    ensures patchId == t
  {
    IdempotencyKeysAreInjective(p, "collab:" + patchId, p, "collab:" + t);
    assert patchId == ("collab:" + patchId)[7..] == ("collab:" + t)[7..] == t;
  }

  /** The record of a commit is on the chain. */
  lemma CommitRecords(st: State, after: State, plan: Plan, page: Page, r: Revision, patchId: string, record: IdempotencyRecord)
    requires Wrote(st, after, page, r, Some(record)) && PageInv(after, page.id)
    requires record.pageId == page.id && record.key == "collab:" + patchId
    requires PatchOnChain(Chain(after, page.id), plan(page.id, patchId), record.revisionNo, record.revisionId)
    ensures KeyMoved(st, after, plan, page.id, IdempotencyKey(page.id, record.key))
  {
    var k := IdempotencyKey(page.id, record.key);
    assert after.idempotencies[k] == record && KeyBelongs(after, k);
    forall t | k == PatchKey(page.id, t) ensures RecordInv(after, plan, page.id, t) {
      PatchKeyIs(page.id, patchId, t);
    }
  }

  lemma CommitKeepsInv(st: State, after: State, plan: Plan, input: SaveInput, patchId: string, room: Head, ops: seq<Op>,
                       page: Page, read: Revision, env: Env, write: Write)
    requires StoreInv(st, plan) && CommitOk(st, plan, input, patchId, room, ops)
    requires PageCallOk(st, SaveCall(input), AtWrite(page, Some(read)))
    requires FreshId(st, env.revisionId) && SaveWrote(st, after, input, page, read, env, write)
    ensures StoreInv(after, plan) && Grown(st, after)
  {
    var p := input.pageId;
    assert PageInv(st, p);
    SaveAppends(st, after, input, page, read, env, write);
    CommitAppends(st, after, plan, input, patchId, room, ops, page, read, env, write);
    if input.key != "" {
      CommitRecords(st, after, plan, write.page, write.revision, TrimSpace(patchId), write.record.value);
    }
    WriteProjects(st, after, p, write.revision);
    StoreInvMoves(st, after, plan, p, IdempotencyKey(p, input.key));
  }

  /** All of it, for the room's page. */
  lemma CommitLands(st: State, after: State, plan: Plan, input: SaveInput, patchId: string, room: Head, ops: seq<Op>,
                    page: Page, read: Revision, env: Env, write: Write)
    requires StoreInv(st, plan) && CommitOk(st, plan, input, patchId, room, ops)
    requires PageCallOk(st, SaveCall(input), AtWrite(page, Some(read)))
    requires FreshId(st, env.revisionId) && SaveWrote(st, after, input, page, read, env, write)
    ensures StoreInv(after, plan) && Grown(st, after) && input.pageId in after.pages
    ensures Snap(write.revision.no, write.revision.id, View(input.document)) in Chain(after, input.pageId)
    ensures PatchOnChain(Chain(after, input.pageId), Intent(input.base, ops), write.revision.no, write.revision.id)
  {
    assert PageInv(st, input.pageId);
    CommitKeepsInv(st, after, plan, input, patchId, room, ops, page, read, env, write);
    CommitAppends(st, after, plan, input, patchId, room, ops, page, read, env, write);
    assert PageGrown(st, after, input.pageId);
  }

  // --------------------------------------------------- publishing, restoring, archiving, ...

  lemma PublishKeepsInv(st: State, after: State, plan: Plan, p: string, workspaceId: string, actor: string, base: int,
                        page: Page, draft: Revision, env: Env)
    requires StoreInv(st, plan) && StillFits(st, p, page) && page.draftNo == base && FreshId(st, env.revisionId)
    requires Locked(st, PlanPublish(p, workspaceId, actor, base, page, draft, env)) == Ok(after)
    ensures StoreInv(after, plan) && Grown(st, after)
    ensures Chain(after, p) == Chain(st, p) && HeadOf(after.pages[p]) == HeadOf(st.pages[p])
  {
    var write := PlanPublish(p, workspaceId, actor, base, page, draft, env);
    assert PageInv(st, p);
    LockedWrites(st, write);
    WriteExtendsChain(st, after, page, write.page, write.revision, None);
    WriteProjects(st, after, p, write.revision);
    StoreInvMoves(st, after, plan, p, "");
  }

  lemma RestoreKeepsInv(st: State, after: State, plan: Plan, p: string, workspaceId: string, actor: string, page: Page,
                        target: Revision, env: Env)
    requires StoreInv(st, plan) && StillFits(st, p, page) && FreshId(st, env.revisionId)
    requires PlanRestore(p, workspaceId, actor, page, target, env).Ok?
    requires Locked(st, PlanRestore(p, workspaceId, actor, page, target, env).value) == Ok(after)
    ensures StoreInv(after, plan) && Grown(st, after)
    ensures var r := PlanRestore(p, workspaceId, actor, page, target, env).value.revision;
            AcceptedDraft(st, after, p, r, target.document) && r.restoredFrom == target.id
  {
    var write := PlanRestore(p, workspaceId, actor, page, target, env).value;
    assert PageInv(st, p);
    HydratedShape(env.files, target.document);
    LockedWrites(st, write);
    WriteExtendsChain(st, after, page, write.page, write.revision, None);
    HeadIsLastSnap(st, p);
    WriteProjects(st, after, p, write.revision);
    StoreInvMoves(st, after, plan, p, "");
  }

  lemma ArchiveKeepsInv(st: State, after: State, plan: Plan, p: string, actor: string, base: int, page: Page, env: Env)
    requires StoreInv(st, plan) && StillFits(st, p, page) && page.draftNo == base
    requires Locked(st, PlanArchive(actor, base, page, env)) == Ok(after)
    ensures StoreInv(after, plan) && Grown(st, after)
    ensures Chain(after, p) == Chain(st, p) && HeadOf(after.pages[p]) == HeadOf(st.pages[p])
  {
    assert PageInv(st, p);
    assert after.pages == st.pages[p := AsArchived(page, actor, env.now)] && after.revisions == st.revisions;
    assert after.revisions == st.revisions[p := after.revisions[p]];
    StoreInvMoves(st, after, plan, p, "");
  }

  lemma FirstIsChained(r: Revision)
    requires r.kind == DraftKind && r.no == 1 && r.baseId == ""
    ensures Chained([r], HeadRef(1, r.id))
  {
    var revs := [r];
    assert DraftHead(revs, 0) == HeadRef(0, "");
    assert LinkedFirst(revs, 0) && LinkedNext(revs, 0);
    IndexIs(revs, r.id, 0);
    assert UniqueFirst(revs, 0) && UniqueNext(revs, 0);
  }

  lemma CreateKeepsInv(st: State, after: State, plan: Plan, page: Page, r: Revision, env: Env)
    requires StoreInv(st, plan) && page.id !in st.pages && ':' !in page.id && HeadOf(page) == HeadRef(1, r.id)
    requires r.kind == DraftKind && r.no == 1 && r.baseId == "" && after == CreateIn(st, page, r, env)
    requires FreshId(st, r.id) && r.pageId == page.id
    ensures StoreInv(after, plan) && Grown(st, after)
  {
    CreatedPage(st, page, r, env);
    FirstIsChained(r);
    assert [] + [r] == [r];
    WriteProjects(st, after, page.id, r);
    StoreInvMoves(st, after, plan, page.id, "");
  }

  /** The head a reader was handed is the last snap of the chain. */
  ghost predicate HandedHead(st: State, p: string, head: Head) {
    && p in st.pages && Chain(st, p) != []
    && SnapOfHead(head) == LastSnap(Chain(st, p)) && head.no == st.pages[p].draftNo
  }

  lemma RewritingMoves(st: State, after: State, p: string, i: nat, files: FileResolver)
    requires PageInv(st, p) && p in st.revisions && i < |st.revisions[p]|
    requires after == st.(revisions := st.revisions[p := st.revisions[p][i := Rehydrated(st.revisions[p], i, files)]])
    ensures PageMoved(st, after, p) && Chain(after, p) == Chain(st, p)
    ensures AllProjected(st) ==> AllProjected(after)
  {
    RehydratedChain(st.revisions[p], HeadOf(st.pages[p]), i, files);
    if AllProjected(st) {
      RehydratedProjected(TablesOf(st), p, st.revisions[p], i, files);
    }
  }

  lemma ReadMoves(st: State, p: string, view: Kind, files: FileResolver, o: Outcome)
    requires o == ReadView(World(st, map[], 0), p, view, files) && PageInv(st, p) && p in st.revisions
    ensures PageMoved(st, o.world.store, p) && o.world.store.idempotencies == st.idempotencies
    ensures Chain(o.world.store, p) == Chain(st, p) && o.world.store.pages == st.pages
    ensures AllProjected(st) ==> AllProjected(o.world.store)
  {
    if HeadRevision(st, p, view).Some? {
      var i := RevisionIndex(st.revisions[p], ShownId(st.pages[p], view));
      ReadViewShape(World(st, map[], 0), p, view, i, files, o.world);
      RewritingMoves(st, o.world.store, p, i, files);
    }
  }

  lemma DraftIsHanded(st: State, p: string, files: FileResolver, o: Outcome)
    requires o == ReadView(World(st, map[], 0), p, DraftKind, files) && PageInv(st, p)
    ensures o.response.HeadIs? ==> HandedHead(st, p, o.response.head)
  {
    HeadIsLastSnap(st, p);
    RehydratedChain(RevisionsOf(st, p), HeadOf(st.pages[p]), RevisionIndex(RevisionsOf(st, p), st.pages[p].draftId), files);
  }

  /** Reading a view rewrites file names only. */
  lemma ReadKeepsInv(st: State, plan: Plan, p: string, view: Kind, files: FileResolver, o: Outcome)
    requires StoreInv(st, plan) && o == ReadView(World(st, map[], 0), p, view, files)
    ensures StoreInv(o.world.store, plan) && Grown(st, o.world.store) && o.world.store.pages == st.pages
    ensures p in st.pages ==> Chain(o.world.store, p) == Chain(st, p)
  {
    if p in st.pages {
      assert PageInv(st, p);
      ReadMoves(st, p, view, files, o);
      StoreInvMoves(st, o.world.store, plan, p, "");
    } else {
      GrownItself(st);
    }
  }

  /** Reading the draft hands out the last snap of the chain. */
  lemma HeadReadKeepsInv(st: State, plan: Plan, p: string, files: FileResolver, o: Outcome)
    requires StoreInv(st, plan) && o == ReadView(World(st, map[], 0), p, DraftKind, files)
    ensures StoreInv(o.world.store, plan) && Grown(st, o.world.store) && o.world.store.pages == st.pages
    ensures o.response.HeadIs? ==> HandedHead(st, p, o.response.head) && HandedHead(o.world.store, p, o.response.head)
  {
    ReadKeepsInv(st, plan, p, DraftKind, files, o);
    if p in st.pages {
      assert PageInv(st, p);
      DraftIsHanded(st, p, files, o);
    }
  }

  // ---------------------------------------------------------------- what stale copies take back

  /** The status the write sets, or that of the copy. */
  function StatusWritten(call: PageCall, copy: Page): Status {
    match call
    case PublishCall(_, _, _, _) => PublishedStatus
    case ArchiveCall(_, _, _) => ArchivedStatus
    case _ => copy.status
  }

  /**
   The page is the copy the request held, except for the one head or status the request is
   about; other pages are as they were.
   */
  ghost predicate CopyWritten(st: State, after: State, call: PageCall, copy: Page, write: Write) {
    && copy.id == PageIdOf(call) && write.page.id == copy.id && after.pages == st.pages[copy.id := write.page]
    && write.page.status == StatusWritten(call, copy)
    && (call.ArchiveCall? <==> write.StatusWrite?)
    && (if call.PublishCall? then write.page.publishedId == write.revision.id && write.page.publishedNo == write.revision.no
        else write.page.publishedId == copy.publishedId && write.page.publishedNo == copy.publishedNo)
    && (if call.PublishCall? || call.ArchiveCall? then HeadOf(write.page) == HeadOf(copy)
        else HeadOf(write.page) == HeadRef(write.revision.no, write.revision.id))
    && (write.RevisionWrite? ==> write.revision.no == NextRevisionNo(copy))
  }

  /** Whatever else is going on, an accepted write puts the request's own copy of the page back. */
  lemma LandedWriteIsCopy(st: State, call: PageCall, pc: PagePc, env: Env, write: Write)
    requires PageCallOk(st, call, pc) && Lands(st, call, pc, env) && PlannedAt(call, pc, env) == Some(write)
    ensures pc.AtWrite? && CopyWritten(st, Locked(st, write).value, call, pc.page, write)
  {
    LockedPages(st, write);
    match call
    case SaveCall(input) => PlannedSave(input, pc.page, pc.read.value.id, env, write);
    case PublishCall(_, _, _, _) =>
    case RestoreCall(_, _, _, _) =>
    case ArchiveCall(_, _, _) =>
  }

  lemma LockedIffExpected(st: State, write: Write)
    ensures Locked(st, write).Ok? <==> write.page.id in st.pages && st.pages[write.page.id].draftNo == write.expectedNo
  {
  }

  lemma PlanExpectsCopy(st: State, call: PageCall, pc: PagePc, env: Env, write: Write)
    requires PageCallOk(st, call, pc) && PlannedAt(call, pc, env) == Some(write)
    ensures pc.AtWrite? && write.page.id == pc.page.id == PageIdOf(call) && write.expectedNo == pc.page.draftNo
  {
    match call
    case SaveCall(input) => PlannedSave(input, pc.page, pc.read.value.id, env, write);
    case PublishCall(_, _, _, _) =>
    case RestoreCall(_, _, _, _) =>
    case ArchiveCall(_, _, _) =>
  }

  /** The write lands exactly if the copy's draft head is still the page's, that is, no draft was saved since. */
  lemma LandsIffSameDraft(st: State, call: PageCall, pc: PagePc, env: Env, write: Write)
    requires PageCallOk(st, call, pc) && PlannedAt(call, pc, env) == Some(write)
    ensures pc.AtWrite? && pc.page.id == PageIdOf(call) && PageIdOf(call) in st.pages
    ensures Lands(st, call, pc, env) <==> st.pages[PageIdOf(call)].draftNo == pc.page.draftNo
  {
    PlanExpectsCopy(st, call, pc, env, write);
    LockedIffExpected(st, write);
  }

  /**
   A planned write that comes too late changes nothing. A commit is told the head of the copy it
   held, a restore that it was stale; any other request goes on to read the present head.
   */
  lemma LostRaceMeans(st: State, call: PageCall, pc: PagePc, env: Env, write: Write)
    requires PageCallOk(st, call, pc) && PlannedAt(call, pc, env) == Some(write)
    requires st.pages[PageIdOf(call)].draftNo != pc.page.draftNo
    ensures var stale := Refused(StoreFailed(StaleRevision));
            PageStep(st, call, pc, env)
            == if call.SaveCall? && call.save.via == SavedByPatch
               then Ended(Refused(RebaseRequired(pc.page.draftNo, pc.page.draftId, None)), st)
               else if call.RestoreCall? then Ended(stale, st)
               else Going(AtConflict(stale), st)
  {
    PlanExpectsCopy(st, call, pc, env, write);
    LockedIsStale(st, write);
    match call
    case SaveCall(_) =>
    case PublishCall(_, _, _, _) =>
    case RestoreCall(_, _, _, _) =>
    case ArchiveCall(_, _, _) =>
  }

  lemma LockedIsStale(st: State, write: Write)
    requires write.page.id in st.pages && st.pages[write.page.id].draftNo != write.expectedNo
    ensures Locked(st, write) == Err(StaleRevision)
  {
  }

  /** A conflict is answered with the draft head of that moment. */
  lemma ConflictMeans(st: State, call: PageCall, otherwise: Response, env: Env)
    requires PageInv(st, PageIdOf(call)) && (call.SaveCall? || call.PublishCall? || call.ArchiveCall?)
    ensures exists r :: r in RevisionsOf(st, PageIdOf(call)) && HeadRef(r.no, r.id) == HeadOf(st.pages[PageIdOf(call)])
              && PageStep(st, call, AtConflict(otherwise), env) == Ended(Refused(RebaseRequired(r.no, r.id, Some(r.document))), st)
  {
    HeadIsLastSnap(st, PageIdOf(call));
    var r := HeadRevision(st, PageIdOf(call), DraftKind).value;
    assert r in RevisionsOf(st, PageIdOf(call));
  }

  lemma LockedPages(st: State, write: Write)
    requires Locked(st, write).Ok?
    ensures Locked(st, write).value.pages == st.pages[write.page.id := write.page]
  {
  }

  // ------------------------------------------------------------------------ any single step

  /** What the environment guarantees of a request: fresh page ids, separate keys. */
  ghost predicate CallLegal(st: State, call: PageCall) {
    && (call.CreateCall? ==> call.create.pageId !in st.pages && ':' !in call.create.pageId)
    && (call.SaveCall? ==> RestKey(call.save))
  }

  /** The step leaves a lawful store, and a request that can go on from it. */
  ghost predicate StepOk(st: State, plan: Plan, call: PageCall, o: Progress) {
    StoreInv(o.store, plan) && Grown(st, o.store) && (o.Going? ==> PageCallOk(o.store, call, o.pc))
  }

  /** The step was the save's accepted write. */
  ghost predicate SaveWrites(st: State, input: SaveInput, pc: PagePc, env: Env, o: Progress, write: Write) {
    && pc.AtWrite? && pc.read.Some? && SaveWrote(st, o.store, input, pc.page, pc.read.value, env, write)
    && o == Ended(Accepted(input.pageId, write.revision.id, write.revision.no), o.store)
  }

  /** Any other step leaves the store alone; how it may answer. */
  ghost predicate SaveAnswered(st: State, input: SaveInput, pc: PagePc, o: Progress) {
    && o.store == st && (o.Going? ==> PageCallOk(st, SaveCall(input), o.pc))
    && (o.Ended? && o.response.Accepted? ==>
          && Recorded(st, input.pageId, input.key).Some?
          && o.response.revisionId == Recorded(st, input.pageId, input.key).value.id
          && o.response.revisionNo == Recorded(st, input.pageId, input.key).value.no)
    && (o.Ended? && o.response.Refused? && o.response.error.RebaseRequired? && input.via == SavedByPatch ==>
          input.pageId in st.pages && st.pages[input.pageId].draftNo != input.base)
  }

  lemma SaveStepShape(st: State, input: SaveInput, pc: PagePc, env: Env, o: Progress) returns (write: Option<Write>)
    requires o == SaveStep(st, input, pc, env) && PageCallOk(st, SaveCall(input), pc)
    requires input.pageId in st.pages ==> PageInv(st, input.pageId)
    ensures write.Some? ==> SaveWrites(st, input, pc, env, o, write.value)
    ensures write.None? ==> SaveAnswered(st, input, pc, o)
  {
    write := None;
    if pc.AtWrite? && pc.read.Some? {
      write := SaveWriteShape(st, input, pc.page, pc.read.value, env, PlanSave(input, pc.page, pc.read.value.id, env), o);
    } else if pc.AtBase? {
      HeadIsLastSnap(st, input.pageId);
    }
  }

  lemma SaveWriteShape(st: State, input: SaveInput, page: Page, read: Revision, env: Env, planned: Result<Write, UseCaseError>,
                       o: Progress) returns (write: Option<Write>)
    requires planned == PlanSave(input, page, read.id, env) && o == SaveWriteStep(st, input, page, planned)
    requires PageCallOk(st, SaveCall(input), AtWrite(page, Some(read)))
    ensures write.Some? ==> SaveWrites(st, input, AtWrite(page, Some(read)), env, o, write.value)
    ensures write.None? ==> SaveAnswered(st, input, AtWrite(page, Some(read)), o)
  {
    write := None;
    if planned.Ok? {
      PlannedSave(input, page, read.id, env, planned.value);
      write := LockedShape(st, input, page, read, env, planned.value, o);
    } else {
      PlanErrors(input, page, read.id, env);
    }
  }

  lemma PlanErrors(input: SaveInput, page: Page, baseId: string, env: Env)
    requires PlanSave(input, page, baseId, env).Err?
    ensures !PlanSave(input, page, baseId, env).error.RebaseRequired?
  {
  }

  lemma LockedShape(st: State, input: SaveInput, page: Page, read: Revision, env: Env, planned: Write, o: Progress)
    returns (write: Option<Write>)
    requires IsSavePlan(input, page, read.id, env, planned) && o == SaveWriteStep(st, input, page, Ok(planned))
    requires PageCallOk(st, SaveCall(input), AtWrite(page, Some(read)))
    ensures write.Some? ==> SaveWrites(st, input, AtWrite(page, Some(read)), env, o, write.value)
    ensures write.None? ==> SaveAnswered(st, input, AtWrite(page, Some(read)), o)
  {
    write := None;
    if Locked(st, planned).Ok? {
      LockedWrites(st, planned);
      write := Some(planned);
    }
  }

  lemma SaveStepKeepsInv(st: State, plan: Plan, input: SaveInput, pc: PagePc, env: Env, o: Progress)
    requires StoreInv(st, plan) && o == SaveStep(st, input, pc, env) && PageCallOk(st, SaveCall(input), pc)
    requires RestKey(input) && FreshId(st, env.revisionId)
    ensures StepOk(st, plan, SaveCall(input), o)
  {
    GrownItself(st);
    assert input.pageId in st.pages ==> PageInv(st, input.pageId);
    var write := SaveStepShape(st, input, pc, env, o);
    if write.Some? {
      RestSaveKeepsInv(st, o.store, plan, input, pc.page, pc.read.value, env, write.value);
    }
  }

  ghost predicate PublishWrites(st: State, call: PageCall, pc: PagePc, env: Env, o: Progress)
    requires call.PublishCall?
  {
    && pc.AtWrite? && pc.read.Some?
    && Locked(st, PlanPublish(call.pageId, call.workspaceId, call.actor, call.base, pc.page, pc.read.value, env)) == Ok(o.store)
    && o.Ended?
  }

  lemma PublishStepShape(st: State, call: PageCall, pc: PagePc, env: Env, o: Progress)
    requires call.PublishCall? && PageCallOk(st, call, pc)
    requires o == PublishStep(st, call.pageId, call.workspaceId, call.actor, call.base, pc, env)
    requires call.pageId in st.pages ==> st.pages[call.pageId].id == call.pageId
    ensures PublishWrites(st, call, pc, env, o) || (o.store == st && (o.Going? ==> PageCallOk(st, call, o.pc)))
  {
  }

  lemma PublishStepKeepsInv(st: State, plan: Plan, call: PageCall, pc: PagePc, env: Env, o: Progress)
    requires StoreInv(st, plan) && call.PublishCall? && PageCallOk(st, call, pc) && FreshId(st, env.revisionId)
    requires o == PublishStep(st, call.pageId, call.workspaceId, call.actor, call.base, pc, env)
    ensures StepOk(st, plan, call, o)
  {
    GrownItself(st);
    assert call.pageId in st.pages ==> PageInv(st, call.pageId);
    PublishStepShape(st, call, pc, env, o);
    if PublishWrites(st, call, pc, env, o) {
      PublishKeepsInv(st, o.store, plan, call.pageId, call.workspaceId, call.actor, call.base, pc.page, pc.read.value, env);
    }
  }

  ghost predicate RestoreWrites(st: State, call: PageCall, pc: PagePc, env: Env, o: Progress)
    requires call.RestoreCall?
  {
    && pc.AtWrite? && pc.read.Some? && o.Ended?
    && var planned := PlanRestore(call.pageId, call.workspaceId, call.actor, pc.page, pc.read.value, env);
       planned.Ok? && Locked(st, planned.value) == Ok(o.store)
  }

  lemma RestoreStepShape(st: State, call: PageCall, pc: PagePc, env: Env, o: Progress)
    requires call.RestoreCall? && PageCallOk(st, call, pc)
    requires o == RestoreStep(st, call.pageId, call.workspaceId, call.actor, call.revisionId, pc, env)
    requires call.pageId in st.pages ==> st.pages[call.pageId].id == call.pageId
    ensures RestoreWrites(st, call, pc, env, o) || (o.store == st && (o.Going? ==> PageCallOk(st, call, o.pc)))
  {
  }

  lemma RestoreStepKeepsInv(st: State, plan: Plan, call: PageCall, pc: PagePc, env: Env, o: Progress)
    requires StoreInv(st, plan) && call.RestoreCall? && PageCallOk(st, call, pc) && FreshId(st, env.revisionId)
    requires o == RestoreStep(st, call.pageId, call.workspaceId, call.actor, call.revisionId, pc, env)
    ensures StepOk(st, plan, call, o)
  {
    GrownItself(st);
    assert call.pageId in st.pages ==> PageInv(st, call.pageId);
    RestoreStepShape(st, call, pc, env, o);
    if RestoreWrites(st, call, pc, env, o) {
      RestoreKeepsInv(st, o.store, plan, call.pageId, call.workspaceId, call.actor, pc.page, pc.read.value, env);
    }
  }

  ghost predicate ArchiveWrites(st: State, call: PageCall, pc: PagePc, env: Env, o: Progress)
    requires call.ArchiveCall?
  {
    pc.AtWrite? && Locked(st, PlanArchive(call.actor, call.base, pc.page, env)) == Ok(o.store) && o.Ended?
  }

  lemma ArchiveStepShape(st: State, call: PageCall, pc: PagePc, env: Env, o: Progress)
    requires call.ArchiveCall? && PageCallOk(st, call, pc)
    requires o == ArchiveStep(st, call.pageId, call.actor, call.base, pc, env)
    requires call.pageId in st.pages ==> st.pages[call.pageId].id == call.pageId
    ensures ArchiveWrites(st, call, pc, env, o) || (o.store == st && (o.Going? ==> PageCallOk(st, call, o.pc)))
  {
  }

  lemma ArchiveStepKeepsInv(st: State, plan: Plan, call: PageCall, pc: PagePc, env: Env, o: Progress)
    requires StoreInv(st, plan) && call.ArchiveCall? && PageCallOk(st, call, pc)
    requires o == ArchiveStep(st, call.pageId, call.actor, call.base, pc, env)
    ensures StepOk(st, plan, call, o)
  {
    GrownItself(st);
    assert call.pageId in st.pages ==> PageInv(st, call.pageId);
    ArchiveStepShape(st, call, pc, env, o);
    if ArchiveWrites(st, call, pc, env, o) {
      ArchiveKeepsInv(st, o.store, plan, call.pageId, call.actor, call.base, pc.page, env);
    }
  }

  lemma CreateStepKeepsInv(st: State, plan: Plan, input: CreateInput, env: Env, o: Outcome)
    requires StoreInv(st, plan) && input.pageId !in st.pages && ':' !in input.pageId && FreshId(st, env.revisionId)
    requires o == Create(World(st, map[], 0), input, env)
    ensures StoreInv(o.world.store, plan) && Grown(st, o.world.store)
  {
    GrownItself(st);
    if o.world.store != st {
      var document := Hydrate(env.files, Canonical(input.document)).value;
      CreateKeepsInv(st, o.world.store, plan, NewPage(input, env), FirstRevision(input, document, env), env);
    }
  }

  /** Any step of any request, with any stale copies it may hold. */
  lemma PageStepKeepsInv(st: State, plan: Plan, call: PageCall, pc: PagePc, env: Env)
    requires StoreInv(st, plan) && PageCallOk(st, call, pc) && CallLegal(st, call) && FreshId(st, env.revisionId)
    ensures StepOk(st, plan, call, PageStep(st, call, pc, env))
  {
    match call
    case CreateCall(input) => CreateStepKeepsInv(st, plan, input, env, Create(World(st, map[], 0), input, env));
    case SaveCall(input) => SaveStepKeepsInv(st, plan, input, pc, env, SaveStep(st, input, pc, env));
    case PublishCall(p, ws, actor, base) => PublishStepKeepsInv(st, plan, call, pc, env, PublishStep(st, p, ws, actor, base, pc, env));
    case RestoreCall(p, ws, actor, id) => RestoreStepKeepsInv(st, plan, call, pc, env, RestoreStep(st, p, ws, actor, id, pc, env));
    case ArchiveCall(p, actor, base) => ArchiveStepKeepsInv(st, plan, call, pc, env, ArchiveStep(st, p, actor, base, pc, env));
    case LoadCall(p, view) => ReadKeepsInv(st, plan, p, view, env.files, ReadView(World(st, map[], 0), p, view, env.files));
  }
}
