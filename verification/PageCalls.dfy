/**
 The page service under concurrency: each request runs in steps, keeping what it read while
 other requests go on, and ends in one locked write. The store invariant that survives every
 interleaving is about draft chains and about the records of collaborative patches.
 */
module PageCalls {
  import opened Wrappers
  import opened Text
  import opened Sequences
  import opened Documents
  import opened Patches
  import opened PageStore
  import opened PageEvents
  import opened UseCases
  import opened Lifecycle
  import opened DraftChain

  // ------------------------------------------------------------------------------ requests

  datatype PageCall =
    | CreateCall(create: CreateInput)
    | SaveCall(save: SaveInput)
    | PublishCall(pageId: string, workspaceId: string, actor: string, base: int)
    | RestoreCall(pageId: string, workspaceId: string, actor: string, revisionId: string)
    | ArchiveCall(pageId: string, actor: string, base: int)
    | LoadCall(pageId: string, view: Kind)

  /** Where a request is, with the local copies it holds. */
  datatype PagePc =
    | AtKey
    | AtPage
    | AtBase(page: Page)
    | AtWrite(page: Page, read: Option<Revision>)
    | AtConflict(otherwise: Response)

  datatype Progress = Going(pc: PagePc, store: State) | Ended(response: Response, store: State)

  function FirstPc(call: PageCall): PagePc {
    if call.SaveCall? then AtKey else AtPage
  }

  function PageIdOf(call: PageCall): string {
    match call
    case CreateCall(input) => input.pageId
    case SaveCall(input) => input.pageId
    case PublishCall(p, _, _, _) => p
    case RestoreCall(p, _, _, _) => p
    case ArchiveCall(p, _, _) => p
    case LoadCall(p, _) => p
  }

  /** The conflict answer reads the head once more. */
  function ConflictStep(st: State, p: string, otherwise: Response): Progress {
    match HeadRevision(st, p, DraftKind)
    case None => Ended(otherwise, st)
    case Some(r) => Ended(Refused(RebaseRequired(r.no, r.id, Some(r.document))), st)
  }

  function SaveStep(st: State, input: SaveInput, pc: PagePc, env: Env): Progress {
    var p := input.pageId;
    match pc
    case AtKey =>
      if TrimSpace(p) == "" || input.base <= 0 then Ended(Refused(Validation), st)
      else if Recorded(st, p, input.key).Some? then
        Ended(Accepted(p, Recorded(st, p, input.key).value.id, Recorded(st, p, input.key).value.no), st)
      else Going(AtPage, st)
    case AtPage =>
      if p !in st.pages then Ended(Refused(PageNotFound), st)
      else if st.pages[p].status == ArchivedStatus then Ended(Refused(PageReadOnly), st)
      else if st.pages[p].draftNo != input.base then SaveConflictStep(st, input, st.pages[p], NotFound)
      else Going(AtBase(st.pages[p]), st)
    case AtBase(page) =>
      if HeadRevision(st, p, DraftKind).None? then Ended(Refused(StoreFailed(NotFound)), st)
      else Going(AtWrite(page, HeadRevision(st, p, DraftKind)), st)
    case AtWrite(page, read) =>
      if read.None? then Ended(EmptyPayload, st)
      else SaveWriteStep(st, input, page, PlanSave(input, page, read.value.id, env))
    case AtConflict(otherwise) => ConflictStep(st, p, otherwise)
  }

  /** The locked write of a save, once its plan is made. */
  function SaveWriteStep(st: State, input: SaveInput, page: Page, planned: Result<Write, UseCaseError>): Progress {
    match planned
    case Err(e) => Ended(Refused(e), st)
    case Ok(write) => RevisionWriteStep(st, input.pageId, write, SaveConflictStep(st, input, page, StaleRevision))
  }

  /** The locked write of a revision; `stale` is what a lost race leads to. */
  function RevisionWriteStep(st: State, p: string, write: Write, stale: Progress): Progress {
    match Locked(st, write)
    case Ok(after) =>
      Ended(if write.RevisionWrite? then Accepted(p, write.revision.id, write.revision.no) else EmptyPayload, after)
    case Err(NotFound) => Ended(Refused(StoreFailed(NotFound)), st)
    case Err(StaleRevision) => stale
  }

  /** A commit answers with the page it read; an autosave goes on to read the head. */
  function SaveConflictStep(st: State, input: SaveInput, page: Page, otherwise: StoreError): Progress {
    if input.via == SavedByPatch then Ended(Refused(RebaseRequired(page.draftNo, page.draftId, None)), st)
    else Going(AtConflict(Refused(StoreFailed(otherwise))), st)
  }

  function PublishStep(st: State, p: string, workspaceId: string, actor: string, base: int, pc: PagePc, env: Env): Progress {
    match pc
    case AtPage =>
      if p !in st.pages then Ended(Refused(PageNotFound), st)
      else if st.pages[p].status == ArchivedStatus then Ended(Refused(PageReadOnly), st)
      else if st.pages[p].draftNo != base then Going(AtConflict(Refused(StoreFailed(NotFound))), st)
      else Going(AtBase(st.pages[p]), st)
    case AtBase(page) =>
      if HeadRevision(st, p, DraftKind).None? then Ended(Refused(StoreFailed(NotFound)), st)
      else Going(AtWrite(page, HeadRevision(st, p, DraftKind)), st)
    case AtWrite(page, read) =>
      if read.None? then Ended(EmptyPayload, st)
      else PublishWriteStep(st, p, PlanPublish(p, workspaceId, actor, base, page, read.value, env))
    case AtConflict(otherwise) => ConflictStep(st, p, otherwise)
    case AtKey => Ended(EmptyPayload, st)
  }

  function PublishWriteStep(st: State, p: string, write: Write): Progress {
    RevisionWriteStep(st, p, write, Going(AtConflict(Refused(StoreFailed(StaleRevision))), st))
  }

  function RestoreStep(st: State, p: string, workspaceId: string, actor: string, revisionId: string, pc: PagePc, env: Env)
    : Progress
  {
    match pc
    case AtPage =>
      if p !in st.pages then Ended(Refused(PageNotFound), st)
      else if st.pages[p].status == ArchivedStatus then Ended(Refused(PageReadOnly), st)
      else Going(AtBase(st.pages[p]), st)
    case AtBase(page) =>
      if RevisionById(st, p, revisionId).None? then Ended(Refused(PageNotFound), st)
      else Going(AtWrite(page, RevisionById(st, p, revisionId)), st)
    case AtWrite(page, read) =>
      if read.None? then Ended(EmptyPayload, st)
      else RestoreWriteStep(st, p, PlanRestore(p, workspaceId, actor, page, read.value, env))
    case AtConflict(otherwise) => Ended(otherwise, st)
    case AtKey => Ended(EmptyPayload, st)
  }

  function RestoreWriteStep(st: State, p: string, planned: Result<Write, UseCaseError>): Progress {
    match planned
    case Err(e) => Ended(Refused(e), st)
    case Ok(write) => RevisionWriteStep(st, p, write, Ended(Refused(StoreFailed(StaleRevision)), st))
  }

  function ArchiveStep(st: State, p: string, actor: string, base: int, pc: PagePc, env: Env): Progress {
    match pc
    case AtPage =>
      if p !in st.pages then Ended(Refused(PageNotFound), st)
      else if st.pages[p].draftNo != base then Going(AtConflict(EmptyPayload), st)
      else if st.pages[p].status == ArchivedStatus then
        Ended(ArchivedAt(st.pages[p].id, st.pages[p].draftNo, st.pages[p].draftId, st.pages[p].updatedAt), st)
      else Going(AtWrite(st.pages[p], None), st)
    case AtWrite(page, _) =>
      var write := PlanArchive(actor, base, page, env);
      (match Locked(st, write)
       case Ok(after) =>
         Ended(ArchivedAt(write.page.id, write.page.draftNo, write.page.draftId, write.page.updatedAt), after)
       case Err(NotFound) => Ended(Refused(StoreFailed(NotFound)), st)
       case Err(StaleRevision) => Going(AtConflict(Refused(StoreFailed(StaleRevision))), st))
    case AtConflict(otherwise) => ConflictStep(st, p, otherwise)
    case AtKey => Ended(EmptyPayload, st)
    case AtBase(_) => Ended(EmptyPayload, st)
  }

  /** One step of a request; creating a page is one locked write, loading one is one rewriting pass. */
  function PageStep(st: State, call: PageCall, pc: PagePc, env: Env): Progress {
    match call
    case CreateCall(input) =>
      var o := Create(World(st, map[], 0), input, env);
      Ended(o.response, o.world.store)
    case SaveCall(input) => SaveStep(st, input, pc, env)
    case PublishCall(p, workspaceId, actor, base) => PublishStep(st, p, workspaceId, actor, base, pc, env)
    case RestoreCall(p, workspaceId, actor, revisionId) => RestoreStep(st, p, workspaceId, actor, revisionId, pc, env)
    case ArchiveCall(p, actor, base) => ArchiveStep(st, p, actor, base, pc, env)
    case LoadCall(p, view) =>
      var o := ReadView(World(st, map[], 0), p, view, env.files);
      Ended(o.response, o.world.store)
  }

  /** The write that a request is about to make under the lock, as planned from the copies it holds. */
  function PlannedAt(call: PageCall, pc: PagePc, env: Env): Option<Write> {
    if !pc.AtWrite? then None
    else
      match call
      case SaveCall(input) => if pc.read.None? then None else PlanOk(PlanSave(input, pc.page, pc.read.value.id, env))
      case PublishCall(p, workspaceId, actor, base) =>
        if pc.read.None? then None else Some(PlanPublish(p, workspaceId, actor, base, pc.page, pc.read.value, env))
      case RestoreCall(p, workspaceId, actor, _) =>
        if pc.read.None? then None else PlanOk(PlanRestore(p, workspaceId, actor, pc.page, pc.read.value, env))
      case ArchiveCall(p, actor, base) => Some(PlanArchive(actor, base, pc.page, env))
      case _ => None
  }

  function PlanOk(planned: Result<Write, UseCaseError>): Option<Write> {
    match planned
    case Ok(write) => Some(write)
    case Err(_) => None
  }

  /** The write goes through in this step. */
  predicate Lands(st: State, call: PageCall, pc: PagePc, env: Env) {
    PlannedAt(call, pc, env).Some? && Locked(st, PlannedAt(call, pc, env).value).Ok?
  }

  /** A step's only change to the store is its write, unless it creates or loads a page. */
  lemma StepsOnlyWrite(st: State, call: PageCall, pc: PagePc, env: Env)
    requires !call.CreateCall? && !call.LoadCall?
    ensures PageStep(st, call, pc, env).store
            == if Lands(st, call, pc, env) then Locked(st, PlannedAt(call, pc, env).value).value else st
  {
    match call
    case SaveCall(_) =>
    case PublishCall(_, _, _, _) =>
    case RestoreCall(_, _, _, _) =>
    case ArchiveCall(_, _, _) =>
  }

  // --------------------------------------------------------------------- the store invariant

  function HeadOf(page: Page): HeadRef {
    HeadRef(page.draftNo, page.draftId)
  }

  ghost predicate PageInv(st: State, p: string) {
    && p in st.pages && st.pages[p].id == p && ':' !in p
    && Chained(RevisionsOf(st, p), HeadOf(st.pages[p]))
  }

  /** What a patch id means: the base it was made for and its operations. */
  datatype Intent = Intent(base: int, ops: seq<Op>)

  /** A patch id is only ever submitted for one page with one base and one list of operations. */
  type Plan = (string, string) -> Intent

  function PatchKey(p: string, patchId: string): string {
    IdempotencyKey(p, "collab:" + patchId)
  }

  /** Applying the operations to the first document gives the second, as far as views go. */
  predicate Patched(before: Document, ops: seq<Op>, after: Document) {
    ApplyPatch(before, ops).Ok? && View(ApplyPatch(before, ops).value) == after
  }

  /** Snap i of the chain is the patch's result, on the snap right before it. */
  ghost predicate PatchStep(chain: seq<Snap>, i: nat, intent: Intent, no: int, id: string) {
    && 0 < i < |chain| && chain[i - 1].no == intent.base
    && chain[i].no == no && chain[i].id == id && Patched(chain[i - 1].view, intent.ops, chain[i].view)
  }

  ghost predicate PatchOnChain(chain: seq<Snap>, intent: Intent, no: int, id: string) {
    exists i: nat :: PatchStep(chain, i, intent, no, id)
  }

  lemma PatchStaysOnChain(chain: seq<Snap>, more: seq<Snap>, intent: Intent, no: int, id: string)
    requires chain <= more && PatchOnChain(chain, intent, no, id)
    ensures PatchOnChain(more, intent, no, id)
  {
    var i: nat :| PatchStep(chain, i, intent, no, id);
    assert more[i - 1] == chain[i - 1] && more[i] == chain[i];
    assert PatchStep(more, i, intent, no, id);
  }

  ghost predicate RecordInv(st: State, plan: Plan, p: string, patchId: string) {
    var k := PatchKey(p, patchId);
    k in st.idempotencies ==>
      PatchOnChain(Chain(st, p), plan(p, patchId), st.idempotencies[k].revisionNo, st.idempotencies[k].revisionId)
  }

  /** The record sits under the key of a page that exists. */
  ghost predicate KeyBelongs(st: State, k: string) {
    k in st.idempotencies && st.idempotencies[k].pageId in st.pages
    && k == IdempotencyKey(st.idempotencies[k].pageId, st.idempotencies[k].key)
  }

  /** The revision belongs to the page, and its tables hold exactly the references of its document. */
  ghost predicate OwnProjected(t: Tables, p: string, r: Revision) {
    r.pageId == p && Projected(t, r)
  }

  ghost predicate PageProjected(t: Tables, p: string, revs: seq<Revision>) {
    forall i :: 0 <= i < |revs| ==> OwnProjected(t, p, revs[i])
  }

  ghost predicate AllProjected(st: State) {
    forall p :: p in st.revisions ==> PageProjected(TablesOf(st), p, st.revisions[p])
  }

  ghost predicate StoreInv(st: State, plan: Plan) {
    && st.pages.Keys == st.revisions.Keys && AllProjected(st)
    && (forall p :: p in st.pages ==> PageInv(st, p))
    && (forall p, patchId :: p in st.pages ==> RecordInv(st, plan, p, patchId))
    && (forall k :: k in st.idempotencies ==> KeyBelongs(st, k))
  }

  /** A head pointer moves up only. */
  predicate Rises(a: HeadRef, b: HeadRef) {
    a.no <= b.no && (a.no == b.no ==> a == b)
  }

  ghost predicate PageGrown(st: State, after: State, p: string) {
    && p in after.pages && Chain(st, p) <= Chain(after, p)
    && p in st.pages && Rises(HeadOf(st.pages[p]), HeadOf(after.pages[p]))
  }

  /** Chains only gain snaps at their ends, heads only rise and no record is lost. */
  ghost predicate Grown(st: State, after: State) {
    && (forall p :: p in st.pages ==> PageGrown(st, after, p))
    && (forall k :: k in st.idempotencies ==> k in after.idempotencies)
  }

  lemma GrownItself(st: State)
    ensures Grown(st, st)
  {
  }

  // ----------------------------------------------------------------------------- local copies

  /** How a page looked at some time since its last draft, or before. */
  ghost predicate StillFits(st: State, p: string, copy: Page) {
    p in st.pages && copy.id == p && Rises(HeadOf(copy), HeadOf(st.pages[p]))
  }

  /** If no draft was saved since the page was read, the revision read is the draft head. */
  ghost predicate StillBase(st: State, p: string, copy: Page, read: Option<Revision>)
    requires p in st.pages
  {
    read.Some? && copy.draftNo == st.pages[p].draftNo ==> read.value.id == st.pages[p].draftId
  }

  /** The save names a page and a base: what is checked before the key is looked up. */
  predicate Validated(call: PageCall) {
    call.SaveCall? ==> TrimSpace(call.save.pageId) != "" && call.save.base > 0
  }

  ghost predicate PageCallOk(st: State, call: PageCall, pc: PagePc) {
    var p := PageIdOf(call);
    match pc
    case AtKey => true
    case AtPage => Validated(call)
    case AtConflict(otherwise) => !otherwise.Accepted? && (call.SaveCall? ==> call.save.via != SavedByPatch)
    case AtBase(page) =>
      && Validated(call) && StillFits(st, p, page) && (call.SaveCall? ==> page.draftNo == call.save.base)
      && (call.PublishCall? ==> page.draftNo == call.base)
    case AtWrite(page, read) =>
      && Validated(call) && StillFits(st, p, page)
      && (call.SaveCall? ==> page.draftNo == call.save.base && StillBase(st, p, page, read))
      && (call.PublishCall? ==> page.draftNo == call.base)
      && (call.ArchiveCall? ==> page.draftNo == call.base)
  }

  lemma PageCallStays(st: State, after: State, call: PageCall, pc: PagePc)
    requires PageCallOk(st, call, pc) && Grown(st, after)
    ensures PageCallOk(after, call, pc)
  {
  }

  // ------------------------------------------------------------------------ reading the head

  lemma HeadIsLastSnap(st: State, p: string)
    requires PageInv(st, p)
    ensures var r := HeadRevision(st, p, DraftKind);
            && r.Some? && HeadRef(r.value.no, r.value.id) == HeadOf(st.pages[p])
            && Chain(st, p) != [] && SnapOf(r.value) == LastSnap(Chain(st, p))
  {
    var revs := RevisionsOf(st, p);
    var d := LastDraft(revs, |revs|);
    UniqueAt(revs, |revs|, d);
  }

  lemma ChainIsRising(st: State, p: string)
    requires PageInv(st, p)
    ensures Rising(Chain(st, p), st.pages[p].draftNo)
  {
    ChainRises(RevisionsOf(st, p), |RevisionsOf(st, p)|);
  }

  /** A snap with the head's number is the head. */
  lemma HeadNumberIsLast(st: State, p: string, x: Snap)
    requires PageInv(st, p) && x in Chain(st, p) && x.no == st.pages[p].draftNo
    ensures Chain(st, p) != [] && x == LastSnap(Chain(st, p))
  {
    HeadIsLastSnap(st, p);
    ChainIsRising(st, p);
    SameNumberSameSnap(Chain(st, p), st.pages[p].draftNo, x, LastSnap(Chain(st, p)));
  }
}
