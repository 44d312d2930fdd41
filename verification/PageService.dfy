/**
 The page service as it runs: the use cases as methods on the in-memory store and the replay
 window, each proved to take the state and give the answer of its specification.
 */
module PageServiceRun {
  import opened Wrappers
  import opened Text
  import opened Documents
  import opened PageStore
  import opened PageEvents
  import opened ReplayWindow
  import opened UseCases

  method HydratedSnapshot(files: FileResolver, d: Document) returns (r: Result<Document, HydrationError>)
    ensures r == Hydrate(files, Canonical(d))
  {
    var c := CanonicalSnapshot(d);
    var blocks := new Block[|c.blocks|](i requires 0 <= i < |c.blocks| => c.blocks[i]);
    assert blocks[..] == c.blocks;
    var error := ValidateAndHydrate(files, blocks);
    r := if error.Some? then Err(error.value) else Ok(Document(blocks[..], c.metadata));
  }

  method FindUnavailable(embeds: seq<EmbedRef>, unavailable: set<string>) returns (found: bool)
    ensures found == TableUnavailable(embeds, unavailable)
  {
    for i := 0 to |embeds|
      invariant forall k :: 0 <= k < i ==> embeds[k].tableId !in unavailable
    {
      if embeds[i].tableId in unavailable {
        return true;
      }
    }
    return false;
  }

  /** The outcome of a locked revision write: stored and logged, or refused without a trace. */
  ghost predicate Written(before: World, after: World, write: Write, clock: int, error: Option<StoreError>)
    requires write.RevisionWrite?
  {
    match Locked(before.store, write)
    case Ok(st) => error == None && after == Logged(before.(store := st), write.entry, clock)
    case Err(e) => error == Some(e) && after == before
  }

  class PageService {
    const store: Store
    const window: ReplayWindowStore

    ghost function Now(): World
      reads this, store, window
    {
      World(store.Snapshot(), window.values, window.limit)
    }

    constructor (store: Store, window: ReplayWindowStore)
      ensures this.store == store && this.window == window
    {
      this.store := store;
      this.window := window;
    }

    /** The closure under `store.Execute`: the conditional write, its projections, its events. */
    method Execute(write: Write, refs: References) returns (error: Option<StoreError>)
      requires write.RevisionWrite? ==> refs == RevisionReferences(write.revision)
      modifies store
      ensures match Locked(old(store.Snapshot()), write)
              case Ok(st) => error == None && store.Snapshot() == st
              case Err(e) => error == Some(e) && store.Snapshot() == old(store.Snapshot())
    {
      match write
      case RevisionWrite(no, page, r, record, records, _) =>
        if r.kind == DraftKind {
          error := store.SaveDraftRevision(no, page, r, record);
        } else {
          error := store.SavePublishedRevision(no, page, r);
        }
        if error.Some? {
          return;
        }
        store.ReplaceReferences(r.id, refs);
        store.Add(records);
      case StatusWrite(no, page, records) =>
        error := store.ArchivePage(no, page);
        if error.Some? {
          return;
        }
        store.Add(records);
    }

    /** The locked write, and `recordReplayWindow` once it was accepted. */
    method ExecuteRevision(write: Write, refs: References, clock: int) returns (error: Option<StoreError>)
      requires write.RevisionWrite? && refs == RevisionReferences(write.revision)
      modifies store, window
      ensures Written(old(Now()), Now(), write, clock, error)
    {
      error := Execute(write, refs);
      if error.None? {
        window.Append(write.entry, WINDOW_TTL, clock);
      }
    }

    method BuildConflict(pageId: string, otherwise: UseCaseError) returns (error: UseCaseError)
      ensures error == Conflict(store.Snapshot(), pageId, otherwise)
    {
      var revision := store.GetRevision(pageId, DraftKind);
      if revision.None? {
        return otherwise;
      }
      return RebaseRequired(revision.value.no, revision.value.id, Some(revision.value.document));
    }

    method BuildSaveConflict(input: SaveInput, page: Page, otherwise: UseCaseError) returns (error: UseCaseError)
      ensures error == SaveConflict(store.Snapshot(), input, page, otherwise)
    {
      if input.via == SavedByPatch {
        return RebaseRequired(page.draftNo, page.draftId, None);
      }
      error := BuildConflict(input.pageId, otherwise);
    }

    method FindRecorded(pageId: string, key: string) returns (revision: Option<Revision>)
      ensures revision == Recorded(store.Snapshot(), pageId, key)
    {
      if key == "" {
        return None;
      }
      var record := store.GetDraftIdempotency(pageId, key);
      if record.None? {
        return None;
      }
      revision := store.GetRevisionById(pageId, record.value.revisionId);
    }

    /** `AutosaveDraft.Execute` and `CommitCollaborativeRevision.Execute`. */
    method SaveSnapshot(input: SaveInput, env: Env) returns (response: Response)
      modifies store, window
      ensures Outcome(Now(), response) == Save(old(Now()), input, env)
    {
      if TrimSpace(input.pageId) == "" || input.base <= 0 {
        return Refused(Validation);
      }
      var recorded := FindRecorded(input.pageId, input.key);
      if recorded.Some? {
        return Accepted(input.pageId, recorded.value.id, recorded.value.no);
      }
      var page := store.GetPage(input.pageId);
      if page.None? {
        return Refused(PageNotFound);
      }
      if page.value.status == ArchivedStatus {
        return Refused(PageReadOnly);
      }
      if page.value.draftNo != input.base {
        var conflict := BuildSaveConflict(input, page.value, StoreFailed(NotFound));
        return Refused(conflict);
      }
      var base := store.GetRevision(input.pageId, DraftKind);
      if base.None? {
        return Refused(StoreFailed(NotFound));
      }
      response := WriteSnapshot(input, page.value, base.value, env);
    }

    /** The second half of a save: plan from what was read, then write. */
    method WriteSnapshot(input: SaveInput, page: Page, base: Revision, env: Env) returns (response: Response)
      modifies store, window
      ensures Outcome(Now(), response)
              == match PlanSave(input, page, base.id, env)
                 case Err(e) => Outcome(old(Now()), Refused(e))
                 case Ok(write) =>
                   Conclude(old(Now()), write, SaveConflict(old(store.Snapshot()), input, page, StoreFailed(StaleRevision)), env.clock)
    {
      var document := HydratedSnapshot(env.files, input.document);
      if document.Err? {
        return Refused(Unhydrated(document.error));
      }
      var accepted := Revision(env.revisionId, input.pageId, NextRevisionNo(page), DraftKind, base.id, "",
                               document.value, page.title, input.actor, input.via, env.now);
      var refs := ExtractReferences(accepted.document, Origin(input.pageId, accepted.id, env.now));
      if input.via != SavedByPatch {
        var unavailable := FindUnavailable(refs.embeds, env.unavailable);
        if unavailable {
          return Refused(EmbedUnavailable);
        }
      }
      var record := None;
      if input.key != "" {
        record := Some(IdempotencyRecord(input.pageId, input.key, accepted.id, accepted.no, env.now));
      }
      var error := WriteRevision(input.base, page, accepted, refs, record, input.workspaceId, input.patchId, env);
      if error == Some(StaleRevision) {
        var conflict := BuildSaveConflict(input, page, StoreFailed(StaleRevision));
        return Refused(conflict);
      }
      if error.Some? {
        return Refused(StoreFailed(error.value));
      }
      return Accepted(input.pageId, accepted.id, accepted.no);
    }

    /** Moves the head, builds the events and executes the write. */
    method WriteRevision(expectedNo: int, page: Page, r: Revision, refs: References, record: Option<IdempotencyRecord>,
                         workspaceId: string, patchId: string, env: Env)
      returns (error: Option<StoreError>)
      requires refs == RevisionReferences(r)
      modifies store, window
      ensures Written(old(Now()), Now(), RevisionWriteOf(expectedNo, page, r, record, workspaceId, patchId, env), env.clock, error)
    {
      var updated := page;
      if r.kind == DraftKind {
        updated := updated.(draftId := r.id, draftNo := r.no);
      } else {
        updated := updated.(status := PublishedStatus, publishedId := r.id, publishedNo := r.no);
      }
      updated := updated.(title := r.title, updatedBy := r.createdBy, updatedAt := r.createdAt);
      var records := BuildRevisionRecords(env.recordIds, updated, r, refs, env.now);
      var write := RevisionWrite(expectedNo, updated, r, record, records, EntryOf(r, workspaceId, patchId));
      error := ExecuteRevision(write, refs, env.clock);
    }

    method PublishPage(p: string, workspaceId: string, actor: string, base: int, env: Env) returns (response: Response)
      modifies store, window
      ensures Outcome(Now(), response) == Publish(old(Now()), p, workspaceId, actor, base, env)
    {
      var page := store.GetPage(p);
      if page.None? {
        return Refused(PageNotFound);
      }
      if page.value.status == ArchivedStatus {
        return Refused(PageReadOnly);
      }
      if page.value.draftNo != base {
        var conflict := BuildConflict(p, StoreFailed(NotFound));
        return Refused(conflict);
      }
      var draft := store.GetRevision(p, DraftKind);
      if draft.None? {
        return Refused(StoreFailed(NotFound));
      }
      var document := CanonicalSnapshot(draft.value.document);
      var published := Revision(env.revisionId, p, NextRevisionNo(page.value), PublishedKind, draft.value.id, "", document,
                                draft.value.title, actor, SavedByPublish, env.now);
      var refs := ExtractReferences(document, Origin(p, published.id, env.now));
      var error := WriteRevision(base, page.value, published, refs, None, workspaceId, "", env);
      if error == Some(StaleRevision) {
        var conflict := BuildConflict(p, StoreFailed(StaleRevision));
        return Refused(conflict);
      }
      if error.Some? {
        return Refused(StoreFailed(error.value));
      }
      return Accepted(p, published.id, published.no);
    }

    method RestoreRevision(p: string, workspaceId: string, actor: string, revisionId: string, env: Env)
      returns (response: Response)
      modifies store, window
      ensures Outcome(Now(), response) == Restore(old(Now()), p, workspaceId, actor, revisionId, env)
    {
      var page := store.GetPage(p);
      if page.None? {
        return Refused(PageNotFound);
      }
      if page.value.status == ArchivedStatus {
        return Refused(PageReadOnly);
      }
      var target := store.GetRevisionById(p, revisionId);
      if target.None? {
        return Refused(PageNotFound);
      }
      var document := HydratedSnapshot(env.files, target.value.document);
      if document.Err? {
        return Refused(Unhydrated(document.error));
      }
      var restored := Revision(env.revisionId, p, NextRevisionNo(page.value), DraftKind, page.value.draftId, target.value.id,
                               document.value, target.value.title, actor, SavedByRestore, env.now);
      var refs := ExtractReferences(restored.document, Origin(p, restored.id, env.now));
      var error := WriteRevision(page.value.draftNo, page.value, restored, refs, None, workspaceId, "", env);
      if error.Some? {
        return Refused(StoreFailed(error.value));
      }
      return Accepted(p, restored.id, restored.no);
    }

    method ArchivePage(p: string, actor: string, base: int, env: Env) returns (response: Response)
      modifies store
      ensures Outcome(Now(), response) == Archive(old(Now()), p, actor, base, env)
    {
      var found := store.GetPage(p);
      if found.None? {
        return Refused(PageNotFound);
      }
      var page := found.value;
      if page.draftNo != base {
        var revision := store.GetRevision(p, DraftKind);
        if revision.None? {
          return EmptyPayload;
        }
        return Refused(RebaseRequired(revision.value.no, revision.value.id, Some(revision.value.document)));
      }
      if page.status == ArchivedStatus {
        return ArchivedAt(page.id, page.draftNo, page.draftId, page.updatedAt);
      }
      page := page.(status := ArchivedStatus, updatedBy := actor, updatedAt := env.now);
      var records := [PendingRecord(env.recordIds[0], page.id, ArchivedEvent(page), env.now)];
      assert records == Records(env.recordIds, page.id, [ArchivedEvent(page)], env.now);
      var error := Execute(StatusWrite(base, page, records), References([], [], []));
      if error == Some(StaleRevision) {
        var conflict := BuildConflict(page.id, StoreFailed(StaleRevision));
        return Refused(conflict);
      }
      if error.Some? {
        return Refused(StoreFailed(error.value));
      }
      return ArchivedAt(page.id, page.draftNo, page.draftId, page.updatedAt);
    }

    method CreatePage(input: CreateInput, env: Env) returns (response: Response)
      modifies store
      ensures Outcome(Now(), response) == Create(old(Now()), input, env)
    {
      if TrimSpace(input.workspaceId) == "" || TrimSpace(input.title) == "" {
        return Refused(Validation);
      }
      var document := HydratedSnapshot(env.files, input.document);
      if document.Err? {
        return Refused(Unhydrated(document.error));
      }
      var page := NewPage(input, env);
      var revision := FirstRevision(input, document.value, env);
      var refs := ExtractReferences(revision.document, Origin(input.pageId, revision.id, env.now));
      var unavailable := FindUnavailable(refs.embeds, env.unavailable);
      if unavailable {
        return Refused(EmbedUnavailable);
      }
      var records := BuildCreateRecords(env.recordIds, page, revision, refs, env.now);
      store.CreatePage(page, revision);
      store.ReplaceReferences(revision.id, refs);
      store.Add(records);
      return Accepted(page.id, revision.id, 1);
    }

    /** The hydrator rewrites the block slice it was handed, which is the store's own. */
    method LoadView(p: string, view: Kind, files: FileResolver) returns (response: Response)
      modifies store
      ensures Outcome(Now(), response) == ReadView(old(Now()), p, view, files)
    {
      var page := store.GetPage(p);
      var revision := store.GetRevision(p, view);
      if page.None? || revision.None? {
        return Refused(PageNotFound);
      }
      var shown := revision.value;
      var bs := shown.document.blocks;
      var shared := new Block[|bs|](i requires 0 <= i < |bs| => bs[i]);
      assert shared[..] == bs;
      var error := ValidateAndHydrate(files, shared);
      store.OverwriteBlocks(p, shown.id, shared[..]);
      if error.Some? {
        return Refused(Unhydrated(error.value));
      }
      return HeadIs(Head(shown.no, shown.id, Document(shared[..], shown.document.metadata)));
    }

    /** `GetRevisionHead.Execute`. */
    method GetRevisionHead(p: string, files: FileResolver) returns (response: Response)
      modifies store
      ensures Outcome(Now(), response) == ReadView(old(Now()), p, DraftKind, files)
    {
      response := LoadView(p, DraftKind, files);
    }

    /** `GetPage.Execute` without a table resolver: the view's document with degraded embeds. */
    method GetPage(p: string, view: Kind, files: FileResolver) returns (answer: Result<Document, UseCaseError>)
      modifies store
      ensures Now() == ReadView(old(Now()), p, view, files).world
      ensures answer == ShownDocument(old(Now()).store, ReadView(old(Now()), p, view, files).response)
    {
      var response := LoadView(p, view, files);
      if response.Refused? {
        return Err(response.error);
      }
      var refs := if response.head.id in store.embeds then store.embeds[response.head.id] else [];
      var descriptors := ResolveDegraded(response.head.document.blocks, refs);
      var document := HydrateEmbeds(response.head.document, descriptors);
      return Ok(document);
    }
  }
}
