/**
 The page service's write use cases. Each is split where other requests can interleave: what
 it reads, the write it plans from those (possibly stale) readings, and the locked write. The
 functions are the specification; class `PageService` runs them on the store and the replay
 window.
 */
module UseCases {
  import opened Wrappers
  import opened Text
  import opened Documents
  import opened PageStore
  import opened PageEvents
  import opened ReplayWindow

  datatype UseCaseError =
    | Validation
    | PageNotFound
    | PageReadOnly
    | RebaseRequired(latestNo: int, latestId: string, document: Option<Document>)
    | Unhydrated(reason: HydrationError)
    | EmbedUnavailable
    | StoreFailed(cause: StoreError)

  datatype Response =
    | Accepted(pageId: string, revisionId: string, revisionNo: int)
    | ArchivedAt(pageId: string, draftNo: int, draftId: string, at: int)
    | EmptyPayload
    | HeadIs(head: Head)
    | Refused(error: UseCaseError)

  /** A revision head as a client or a room holds it. */
  datatype Head = Head(no: int, id: string, document: Document)

  /**
   What a request takes from outside: its time, the store clock of the replay window, the
   file service's answers, the tables that cannot be resolved (none without a resolver),
   and the ids it draws.
   */
  datatype Env = Env(
    now: int, clock: int, files: FileResolver, unavailable: set<string>, revisionId: string, recordIds: RecordIds)

  /** The store and the replay windows behind one page service. */
  datatype World = World(store: State, windows: map<string, seq<Entry>>, limit: nat)

  datatype Outcome = Outcome(world: World, response: Response)

  // -------------------------------------------------------------------------- planning

  /** A write planned from readings that may be stale by the time the lock is taken. */
  datatype Write =
    | RevisionWrite(expectedNo: int, page: Page, revision: Revision, record: Option<IdempotencyRecord>,
                    records: seq<OutboxRecord>, entry: Entry)
    | StatusWrite(expectedNo: int, page: Page, records: seq<OutboxRecord>)

  function NextRevisionNo(page: Page): (no: int)
    ensures no > page.draftNo && no > page.publishedNo
    ensures no == page.draftNo + 1 || no == page.publishedNo + 1
  {
    if page.draftNo >= page.publishedNo then page.draftNo + 1 else page.publishedNo + 1
  }

  /** `collab:` keeps patch ids apart from the keys of autosaves; no id, no key. */
  function CollabKey(patchId: string): string {
    if TrimSpace(patchId) == "" then "" else "collab:" + TrimSpace(patchId)
  }

  function EntryKindOf(via: Source): EntryKind {
    match via
    case SavedByRest => AutosaveEntry
    case SavedByPublish => PublishEntry
    case SavedByRestore => RestoreEntry
    case SavedByPatch => CollabPatchEntry
  }

  function EntryOf(r: Revision, workspaceId: string, patchId: string): Entry {
    Entry(r.pageId, workspaceId, r.createdBy, r.id, r.no, EntryKindOf(r.via), patchId, r.createdAt)
  }

  /** An autosave, or a collaborative commit. */
  datatype SaveInput = SaveInput(
    pageId: string, workspaceId: string, actor: string, base: int, key: string, patchId: string,
    document: Document, via: Source)

  function AutosaveInput(pageId: string, workspaceId: string, actor: string, base: int, key: string, document: Document)
    : SaveInput
  {
    SaveInput(pageId, workspaceId, actor, base, TrimSpace(key), "", document, SavedByRest)
  }

  function CommitInput(pageId: string, workspaceId: string, actor: string, base: int, patchId: string, document: Document)
    : SaveInput
  {
    SaveInput(pageId, workspaceId, actor, base, CollabKey(patchId), TrimSpace(patchId), document, SavedByPatch)
  }

  predicate TableUnavailable(embeds: seq<EmbedRef>, unavailable: set<string>) {
    exists i :: 0 <= i < |embeds| && embeds[i].tableId in unavailable
  }

  function WithDraftHead(page: Page, r: Revision): Page {
    page.(draftId := r.id, draftNo := r.no, title := r.title, updatedBy := r.createdBy, updatedAt := r.createdAt)
  }

  function WithPublishedHead(page: Page, r: Revision): Page {
    page.(status := PublishedStatus, publishedId := r.id, publishedNo := r.no, title := r.title,
          updatedBy := r.createdBy, updatedAt := r.createdAt)
  }

  function AsArchived(page: Page, actor: string, now: int): Page {
    page.(status := ArchivedStatus, updatedBy := actor, updatedAt := now)
  }

  function RevisionWriteOf(expectedNo: int, page: Page, r: Revision, record: Option<IdempotencyRecord>,
                           workspaceId: string, patchId: string, env: Env): Write
  {
    var after := if r.kind == DraftKind then WithDraftHead(page, r) else WithPublishedHead(page, r);
    RevisionWrite(expectedNo, after, r, record, Records(env.recordIds, after.id, RevisionEvents(after, r), env.now),
                  EntryOf(r, workspaceId, patchId))
  }

  function PlanSave(input: SaveInput, page: Page, baseId: string, env: Env): Result<Write, UseCaseError> {
    match Hydrate(env.files, Canonical(input.document))
    case Err(e) => Err(Unhydrated(e))
    case Ok(document) =>
      var r := Revision(env.revisionId, input.pageId, NextRevisionNo(page), DraftKind, baseId, "", document, page.title,
                        input.actor, input.via, env.now);
      if input.via != SavedByPatch && TableUnavailable(RevisionReferences(r).embeds, env.unavailable)
      then Err(EmbedUnavailable)
      else
        var record := if input.key == "" then None
                      else Some(IdempotencyRecord(input.pageId, input.key, r.id, r.no, env.now));
        Ok(RevisionWriteOf(input.base, page, r, record, input.workspaceId, input.patchId, env))
  }

  function PlanPublish(pageId: string, workspaceId: string, actor: string, base: int, page: Page, draft: Revision, env: Env)
    : Write
  {
    var r := Revision(env.revisionId, pageId, NextRevisionNo(page), PublishedKind, draft.id, "", Canonical(draft.document),
                      draft.title, actor, SavedByPublish, env.now);
    RevisionWriteOf(base, page, r, None, workspaceId, "", env)
  }

  function PlanRestore(pageId: string, workspaceId: string, actor: string, page: Page, target: Revision, env: Env)
    : Result<Write, UseCaseError>
  {
    match Hydrate(env.files, Canonical(target.document))
    case Err(e) => Err(Unhydrated(e))
    case Ok(document) =>
      var r := Revision(env.revisionId, pageId, NextRevisionNo(page), DraftKind, page.draftId, target.id, document,
                        target.title, actor, SavedByRestore, env.now);
      Ok(RevisionWriteOf(page.draftNo, page, r, None, workspaceId, "", env))
  }

  function PlanArchive(actor: string, base: int, page: Page, env: Env): Write {
    var after := AsArchived(page, actor, env.now);
    StatusWrite(base, after, Records(env.recordIds, after.id, [ArchivedEvent(after)], env.now))
  }

  // ------------------------------------------------------------------- the locked write

  /** What `store.Execute` does under its lock; an error leaves the store as it was. */
  function Locked(st: State, write: Write): Result<State, StoreError> {
    match write
    case RevisionWrite(no, page, r, record, records, _) =>
      WithTraces(if r.kind == DraftKind then SaveDraft(st, no, page, r, record) else SavePublished(st, no, page, r),
                 r.id, RevisionReferences(r), records)
    case StatusWrite(no, page, records) =>
      match SaveArchived(st, no, page)
      case Err(e) => Err(e)
      case Ok(saved) => Ok(AddEvents(saved, records))
  }

  function Logged(w: World, e: Entry, clock: int): World {
    w.(windows := w.windows[e.pageId := Appended(EntriesOf(w.windows, e.pageId), e, WINDOW_TTL, w.limit, clock)])
  }

  /** The conflict answer that carries the current draft head. */
  function Conflict(st: State, pageId: string, otherwise: UseCaseError): UseCaseError {
    match HeadRevision(st, pageId, DraftKind)
    case None => otherwise
    case Some(r) => RebaseRequired(r.no, r.id, Some(r.document))
  }

  /** The locked write of a revision and the window entry after it; `stale` answers a lost race. */
  function Conclude(w: World, write: Write, stale: UseCaseError, clock: int): Outcome
    requires write.RevisionWrite?
  {
    match Locked(w.store, write)
    case Err(StaleRevision) => Outcome(w, Refused(stale))
    case Err(NotFound) => Outcome(w, Refused(StoreFailed(NotFound)))
    case Ok(st) =>
      Outcome(Logged(w.(store := st), write.entry, clock),
              Accepted(write.revision.pageId, write.revision.id, write.revision.no))
  }

  // ------------------------------------------------------------------------- use cases

  /** The revision a recorded key stands for. */
  function Recorded(st: State, pageId: string, key: string): Option<Revision> {
    var k := IdempotencyKey(pageId, key);
    if key == "" || k !in st.idempotencies then None
    else RevisionById(st, pageId, st.idempotencies[k].revisionId)
  }

  /** The answer to a save whose base is no longer the draft head. */
  function SaveConflict(st: State, input: SaveInput, page: Page, otherwise: UseCaseError): UseCaseError {
    if input.via == SavedByPatch then RebaseRequired(page.draftNo, page.draftId, None)
    else Conflict(st, input.pageId, otherwise)
  }

  /** `AutosaveDraft.Execute` and `CommitCollaborativeRevision.Execute`. */
  function Save(w: World, input: SaveInput, env: Env): Outcome {
    var st, p := w.store, input.pageId;
    if TrimSpace(p) == "" || input.base <= 0 then Outcome(w, Refused(Validation))
    else if Recorded(st, p, input.key).Some? then
      var r := Recorded(st, p, input.key).value;
      Outcome(w, Accepted(p, r.id, r.no))
    else if p !in st.pages then Outcome(w, Refused(PageNotFound))
    else if st.pages[p].status == ArchivedStatus then Outcome(w, Refused(PageReadOnly))
    else if st.pages[p].draftNo != input.base then
      Outcome(w, Refused(SaveConflict(st, input, st.pages[p], StoreFailed(NotFound))))
    else
      match HeadRevision(st, p, DraftKind)
      case None => Outcome(w, Refused(StoreFailed(NotFound)))
      case Some(base) =>
        match PlanSave(input, st.pages[p], base.id, env)
        case Err(e) => Outcome(w, Refused(e))
        case Ok(write) =>
          Conclude(w, write, SaveConflict(st, input, st.pages[p], StoreFailed(StaleRevision)), env.clock)
  }

  /** `PublishPage.Execute`. */
  function Publish(w: World, p: string, workspaceId: string, actor: string, base: int, env: Env): Outcome {
    var st := w.store;
    if p !in st.pages then Outcome(w, Refused(PageNotFound))
    else if st.pages[p].status == ArchivedStatus then Outcome(w, Refused(PageReadOnly))
    else if st.pages[p].draftNo != base then Outcome(w, Refused(Conflict(st, p, StoreFailed(NotFound))))
    else
      match HeadRevision(st, p, DraftKind)
      case None => Outcome(w, Refused(StoreFailed(NotFound)))
      case Some(draft) =>
        Conclude(w, PlanPublish(p, workspaceId, actor, base, st.pages[p], draft, env),
                 Conflict(st, p, StoreFailed(StaleRevision)), env.clock)
  }

  /** `RestoreRevision.Execute`: saves on whatever draft number it read. */
  function Restore(w: World, p: string, workspaceId: string, actor: string, revisionId: string, env: Env): Outcome {
    var st := w.store;
    if p !in st.pages then Outcome(w, Refused(PageNotFound))
    else if st.pages[p].status == ArchivedStatus then Outcome(w, Refused(PageReadOnly))
    else
      match RevisionById(st, p, revisionId)
      case None => Outcome(w, Refused(PageNotFound))
      case Some(target) =>
        match PlanRestore(p, workspaceId, actor, st.pages[p], target, env)
        case Err(e) => Outcome(w, Refused(e))
        case Ok(write) => Conclude(w, write, StoreFailed(StaleRevision), env.clock)
  }

  function ConcludeArchive(w: World, write: Write): Outcome
    requires write.StatusWrite?
  {
    match Locked(w.store, write)
    case Err(StaleRevision) => Outcome(w, Refused(Conflict(w.store, write.page.id, StoreFailed(StaleRevision))))
    case Err(NotFound) => Outcome(w, Refused(StoreFailed(NotFound)))
    case Ok(st) =>
      Outcome(w.(store := st),
              ArchivedAt(write.page.id, write.page.draftNo, write.page.draftId, write.page.updatedAt))
  }

  /** `ArchivePage.Execute`: the base is checked even when the page is archived already. */
  function Archive(w: World, p: string, actor: string, base: int, env: Env): Outcome {
    var st := w.store;
    if p !in st.pages then Outcome(w, Refused(PageNotFound))
    else if st.pages[p].draftNo != base then
      Outcome(w, match HeadRevision(st, p, DraftKind)
                 case None => EmptyPayload
                 case Some(r) => Refused(RebaseRequired(r.no, r.id, Some(r.document))))
    else if st.pages[p].status == ArchivedStatus then
      Outcome(w, ArchivedAt(st.pages[p].id, st.pages[p].draftNo, st.pages[p].draftId, st.pages[p].updatedAt))
    else ConcludeArchive(w, PlanArchive(actor, base, st.pages[p], env))
  }

  datatype CreateInput = CreateInput(
    pageId: string, workspaceId: string, title: string, slug: string, document: Document, actor: string)

  function NewPage(input: CreateInput, env: Env): Page {
    Page(input.pageId, input.workspaceId, input.slug, input.title, DraftStatus, input.actor, input.actor,
         env.revisionId, 1, "", 0, env.now, env.now)
  }

  function FirstRevision(input: CreateInput, document: Document, env: Env): Revision {
    Revision(env.revisionId, input.pageId, 1, DraftKind, "", "", document, input.title, input.actor, SavedByRest, env.now)
  }

  function CreateIn(st: State, page: Page, r: Revision, env: Env): State {
    AddEvents(PutReferences(PutPage(st, page, r), r.id, RevisionReferences(r)),
              Records(env.recordIds, page.id, [CreatedEvent(page, r)] + RevisionEvents(page, r), env.now))
  }

  /** `CreatePage.Execute`; the page id is drawn by the request. */
  function Create(w: World, input: CreateInput, env: Env): Outcome {
    if TrimSpace(input.workspaceId) == "" || TrimSpace(input.title) == "" then Outcome(w, Refused(Validation))
    else
      match Hydrate(env.files, Canonical(input.document))
      case Err(e) => Outcome(w, Refused(Unhydrated(e)))
      case Ok(document) =>
        var page, r := NewPage(input, env), FirstRevision(input, document, env);
        if TableUnavailable(RevisionReferences(r).embeds, env.unavailable) then Outcome(w, Refused(EmbedUnavailable))
        else Outcome(w.(store := CreateIn(w.store, page, r, env)), Accepted(page.id, r.id, 1))
  }

  /** The stored revision after file names were written through its block slice. */
  function Rehydrated(revs: seq<Revision>, i: nat, files: FileResolver): Revision
    requires i < |revs|
  {
    revs[i].(document := Document(HydratePass(files, revs[i].document.blocks).blocks, revs[i].document.metadata))
  }

  /**
   `GetRevisionHead.Execute`, of the draft, and `GetPage.Execute`, of either view. The store
   hands out its own block slice, so the file names that hydration writes, also those before
   a failing attachment, stay in the store.
   */
  function ReadView(w: World, p: string, view: Kind, files: FileResolver): Outcome {
    var st := w.store;
    if p !in st.pages || HeadRevision(st, p, view).None? then Outcome(w, Refused(PageNotFound))
    else
      var revs := RevisionsOf(st, p);
      var i := RevisionIndex(revs, ShownId(st.pages[p], view));
      var r := Rehydrated(revs, i, files);
      var error := HydratePass(files, revs[i].document.blocks).error;
      Outcome(w.(store := st.(revisions := st.revisions[p := revs[i := r]])),
              if error.Some? then Refused(Unhydrated(error.value)) else HeadIs(Head(r.no, r.id, r.document)))
  }

  /** The document with a degraded descriptor for each table that the projections list for the revision. */
  function DegradedDocument(st: State, revisionId: string, d: Document): Document {
    var refs := if revisionId in st.embeds then st.embeds[revisionId] else [];
    Document(HydratedEmbeds(d.blocks, DegradedDescriptors(d.blocks, refs)), d.metadata)
  }

  /** What a page load shows once the view was read with this answer. */
  function ShownDocument(st: State, response: Response): Result<Document, UseCaseError> {
    match response
    case HeadIs(head) => Ok(DegradedDocument(st, head.id, head.document))
    case Refused(e) => Err(e)
    case _ => Err(PageNotFound)
  }

  datatype Request =
    | CreateRequest(create: CreateInput)
    | SaveRequest(save: SaveInput)
    | PublishRequest(pageId: string, workspaceId: string, actor: string, base: int)
    | RestoreRequest(pageId: string, workspaceId: string, actor: string, revisionId: string)
    | ArchiveRequest(pageId: string, actor: string, base: int)
    | ReadRequest(pageId: string, view: Kind)

  /** The page a request names. */
  function PageOf(request: Request): string {
    match request
    case CreateRequest(input) => input.pageId
    case SaveRequest(input) => input.pageId
    case PublishRequest(p, _, _, _) => p
    case RestoreRequest(p, _, _, _) => p
    case ArchiveRequest(p, _, _) => p
    case ReadRequest(p, _) => p
  }

  /** The window entry of the revision a request leaves. */
  function RequestEntry(request: Request, r: Revision): Entry {
    match request
    case SaveRequest(input) => EntryOf(r, input.workspaceId, input.patchId)
    case PublishRequest(_, workspaceId, _, _) => EntryOf(r, workspaceId, "")
    case RestoreRequest(_, workspaceId, _, _) => EntryOf(r, workspaceId, "")
    case _ => EntryOf(r, "", "")
  }

  /** One request run to its end with nothing in between. */
  function Perform(w: World, request: Request, env: Env): Outcome {
    match request
    case CreateRequest(input) => Create(w, input, env)
    case SaveRequest(input) => Save(w, input, env)
    case PublishRequest(p, workspaceId, actor, base) => Publish(w, p, workspaceId, actor, base, env)
    case RestoreRequest(p, workspaceId, actor, revisionId) => Restore(w, p, workspaceId, actor, revisionId, env)
    case ArchiveRequest(p, actor, base) => Archive(w, p, actor, base, env)
    case ReadRequest(p, view) => ReadView(w, p, view, env.files)
  }
}
