/** Each request of the page service: when it is refused and how, and all that an accepted one leaves. */
module Requests {
  import opened Wrappers
  import opened Text
  import opened Documents
  import opened PageStore
  import opened PageEvents
  import opened ReplayWindow
  import opened UseCases
  import opened Lifecycle
  import Guarantees

  // -------------------------------------------------------------------- what a document needs

  predicate FilesReady(files: FileResolver, d: Document) {
    files.Some? ==> forall k :: 0 <= k < |d.blocks| ==> FileReady(files.value, d.blocks[k])
  }

  /** The answer names the first file that is not ready, and in which way. */
  ghost predicate Unready(files: FileResolver, d: Document, e: UseCaseError) {
    e.Unhydrated? && FirstUnready(files, d.blocks, e.reason)
  }

  predicate TableMissing(b: Block, unavailable: set<string>) {
    b.embed.Some? && b.embed.value.tableId != "" && b.embed.value.tableId in unavailable
  }

  predicate EmbedsUnavailable(d: Document, unavailable: set<string>) {
    exists k :: 0 <= k < |d.blocks| && TableMissing(d.blocks[k], unavailable)
  }

  /** The block without its live preview, and with the name the file service gives its file. */
  predicate StoredAs(files: FileResolver, b: Block, c: Block) {
    && c.id == b.id && c.kind == b.kind && c.text == b.text && c.attrs == b.attrs && c.link == b.link
    && c.embed == (if b.embed.Some?
                   then Some(Embed(b.embed.value.tableId, b.embed.value.title, b.embed.value.displayConfig, "", map[], []))
                   else None)
    && (if files.Some? && b.attachment.Some? && b.attachment.value.fileId != "" && b.attachment.value.fileId in files.value
        then c.attachment == Some(Attachment(b.attachment.value.fileId, b.attachment.value.blockId,
                                             files.value[b.attachment.value.fileId].filename))
        else c.attachment == b.attachment)
  }

  predicate DocumentStored(files: FileResolver, d: Document, s: Document) {
    && s.metadata == d.metadata && |s.blocks| == |d.blocks|
    && forall k :: 0 <= k < |d.blocks| ==> StoredAs(files, d.blocks[k], s.blocks[k])
  }

  lemma SnapshotReady(files: map<string, FileMetadata>, b: Block)
    ensures FileReady(files, NormBlock(CANONICAL, b)) <==> FileReady(files, b)
    ensures forall e :: StopsWith(files, NormBlock(CANONICAL, b), e) <==> StopsWith(files, b, e)
    ensures FileReady(files, b) ==>
              forall c :: FileNamed(files, NormBlock(CANONICAL, b), c) ==> StoredAs(Some(files), b, c)
  {
  }

  /** Hydrating the snapshot succeeds exactly if all files are ready, and then stores this. */
  lemma SnapshotHydrates(files: FileResolver, d: Document)
    ensures Hydrate(files, Canonical(d)).Ok? <==> FilesReady(files, d)
    ensures Hydrate(files, Canonical(d)).Err? ==> FirstUnready(files, d.blocks, Hydrate(files, Canonical(d)).error)
    ensures FilesReady(files, d) ==> DocumentStored(files, d, Hydrate(files, Canonical(d)).value)
  {
    var bs := NormBlocks(CANONICAL, d.blocks);
    if files.Some? {
      forall k | 0 <= k < |d.blocks| ensures FileReady(files.value, bs[k]) <==> FileReady(files.value, d.blocks[k]) {
        SnapshotReady(files.value, d.blocks[k]);
      }
      var stop := HydrationMeans(files.value, bs);
      if FilesReady(files, d) {
        forall k | 0 <= k < |d.blocks| ensures StoredAs(files, d.blocks[k], HydratePass(files, bs).blocks[k]) {
          SnapshotReady(files.value, d.blocks[k]);
        }
      }
    }
  }

  lemma {:induction false} ReferencesUnavailable(bs: seq<Block>, n: nat, o: Origin, unavailable: set<string>)
    requires n <= |bs|
    ensures TableUnavailable(ReferencesOfFirst(bs, n, o).embeds, unavailable)
            <==> exists k :: 0 <= k < n && TableMissing(bs[k], unavailable)
    decreases n
  {
    if n > 0 {
      ReferencesUnavailable(bs, n - 1, o, unavailable);
      OneUnavailable(bs[n - 1], o, unavailable);
      OneMoreUnavailable(ReferencesOfFirst(bs, n - 1, o).embeds, BlockReferences(bs[n - 1], o).embeds, unavailable);
    }
  }

  lemma OneUnavailable(b: Block, o: Origin, unavailable: set<string>)
    ensures TableUnavailable(BlockReferences(b, o).embeds, unavailable) <==> TableMissing(b, unavailable)
  {
    if TableMissing(b, unavailable) {
      assert BlockReferences(b, o).embeds[0].tableId in unavailable;
    }
  }

  lemma OneMoreUnavailable(xs: seq<EmbedRef>, ys: seq<EmbedRef>, unavailable: set<string>)
    ensures TableUnavailable(xs + ys, unavailable) <==> TableUnavailable(xs, unavailable) || TableUnavailable(ys, unavailable)
  {
    if TableUnavailable(xs, unavailable) {
      var i :| 0 <= i < |xs| && xs[i].tableId in unavailable;
      assert (xs + ys)[i] == xs[i];
    }
    if TableUnavailable(ys, unavailable) {
      var i :| 0 <= i < |ys| && ys[i].tableId in unavailable;
      assert (xs + ys)[|xs| + i] == ys[i];
    }
  }

  /** The stored document embeds the tables of the given one. */
  lemma StoredUnavailable(files: FileResolver, d: Document, s: Document, o: Origin, unavailable: set<string>)
    requires DocumentStored(files, d, s)
    ensures TableUnavailable(ReferencesOf(s.blocks, o).embeds, unavailable) <==> EmbedsUnavailable(d, unavailable)
  {
    ReferencesUnavailable(s.blocks, |s.blocks|, o, unavailable);
    forall k | 0 <= k < |d.blocks| ensures StoredAs(files, d.blocks[k], s.blocks[k]) {
    }
  }

  // ------------------------------------------------------------------------------- new revisions

  /** The page gained this revision at the end, its references in the tables, and this window entry; its record is now this. */
  ghost predicate Revised(w: World, after: World, page: Page, r: Revision, e: Entry, env: Env) {
    var st, p, refs := w.store, page.id, ReferencesOf(r.document.blocks, Origin(r.pageId, r.id, r.createdAt));
    && after.store.pages == st.pages[p := page]
    && after.store.revisions == st.revisions[p := RevisionsOf(st, p) + [r]]
    && after.store.embeds == st.embeds[r.id := refs.embeds]
    && after.store.attachments == st.attachments[r.id := refs.attachments]
    && after.store.links == st.links[r.id := refs.links]
    && after.windows == w.windows[p := Appended(EntriesOf(w.windows, p), e, 10 * 60 * 1_000_000_000, w.limit, env.clock)]
    && after.limit == w.limit && EventsAdded(st.outbox, after.store.outbox, page, r, env)
  }

  /** Three pending records follow: the revision's own event, its links and its files. */
  ghost predicate EventsAdded(before: seq<OutboxRecord>, after: seq<OutboxRecord>, page: Page, r: Revision, env: Env) {
    var refs := ReferencesOf(r.document.blocks, Origin(r.pageId, r.id, r.createdAt));
    && |after| == |before| + 3 && before <= after
    && (forall i :: 0 <= i < 3 ==>
          after[|before| + i] == OutboxRecord(env.recordIds[i], page.id, after[|before| + i].event, Pending, env.now, env.now))
    && RevisionTold(after[|before|].event, page, r)
    && after[|before| + 1].event == LinksExtracted(page.id, page.workspaceId, r.id, refs.links)
    && FilesAreTold(after[|before| + 2].event, page, r, refs.attachments)
  }

  ghost predicate RevisionTold(e: Event, page: Page, r: Revision) {
    && (if r.kind == DraftKind then e.DraftSaved? && e.via == r.via else e.PagePublished?)
    && DocumentTells(e.document, page.id, page.workspaceId, r)
  }

  ghost predicate FilesAreTold(e: Event, page: Page, r: Revision, refs: seq<AttachmentRef>) {
    && e.AttachmentsChanged? && e.pageId == page.id && e.workspaceId == page.workspaceId && e.revisionId == r.id
    && FilesTold(e.attachmentIds, refs)
  }

  lemma RecordsTell(before: seq<OutboxRecord>, page: Page, r: Revision, env: Env)
    ensures EventsAdded(before, before + Records(env.recordIds, page.id, RevisionEvents(page, r), env.now), page, r, env)
  {
    RevisionEventsTell(page, r);
  }

  lemma WriteRevises(w: World, write: Write, env: Env)
    requires Continues(w.store, write, env) && PageOk(w.store, write.revision.pageId) && Locked(w.store, write).Ok?
    ensures Revised(w, Logged(w.(store := Locked(w.store, write).value), write.entry, env.clock), write.page, write.revision,
                    write.entry, env)
  {
    AddedRevision(w.store, write, env);
    RecordsTell(w.store.outbox, write.page, write.revision, env);
  }

  // ------------------------------------------------------------------------------------- saving

  /** A recorded key stands for the revision its record names, if the page has it; no key for none. */
  lemma RecordedMeans(st: State, p: string, key: string)
    ensures match Recorded(st, p, key)
            case Some(r) =>
              && key != "" && IdempotencyKey(p, key) in st.idempotencies
              && r in RevisionsOf(st, p) && r.id == st.idempotencies[IdempotencyKey(p, key)].revisionId
            case None =>
              || key == "" || IdempotencyKey(p, key) !in st.idempotencies
              || forall r :: r in RevisionsOf(st, p) ==> r.id != st.idempotencies[IdempotencyKey(p, key)].revisionId
  {
  }

  /** An autosave is saved under the client's own key, a commit under its patch id set apart from these. */
  lemma InputsMean(p: string, workspaceId: string, actor: string, base: int, key: string, document: Document)
    ensures AutosaveInput(p, workspaceId, actor, base, key, document)
            == SaveInput(p, workspaceId, actor, base, TrimSpace(key), "", document, SavedByRest)
    ensures CommitInput(p, workspaceId, actor, base, key, document)
            == SaveInput(p, workspaceId, actor, base, if TrimSpace(key) == "" then "" else "collab:" + TrimSpace(key), TrimSpace(key),
                         document, SavedByPatch)
  {
  }

  /** Why a save without a recorded key is refused; None stands for no reason. */
  ghost predicate SaveRefusal(st: State, input: SaveInput, env: Env, why: Option<UseCaseError>) {
    var p := input.pageId;
    if TrimSpace(p) == "" || input.base <= 0 then why == Some(Validation)
    else if p !in st.pages then why == Some(PageNotFound)
    else if st.pages[p].status == ArchivedStatus then why == Some(PageReadOnly)
    else if st.pages[p].draftNo != input.base then why.Some? && Rebases(st, p, input.via == SavedByPatch, why.value)
    else if !FilesReady(env.files, input.document) then why.Some? && Unready(env.files, input.document, why.value)
    else if input.via != SavedByPatch && EmbedsUnavailable(input.document, env.unavailable) then why == Some(EmbedUnavailable)
    else why.None?
  }

  /** The conflict answer names the draft head; a commit is not sent its document. */
  ghost predicate Rebases(st: State, p: string, commit: bool, e: UseCaseError)
    requires p in st.pages
  {
    && e.RebaseRequired? && e.latestNo == st.pages[p].draftNo && e.latestId == st.pages[p].draftId
    && (if commit then e.document.None?
        else 0 < e.latestNo <= |RevisionsOf(st, p)| && e.document == Some(RevisionsOf(st, p)[e.latestNo - 1].document))
  }

  lemma HeadOfPage(st: State, p: string)
    requires PageOk(st, p)
    ensures 0 < st.pages[p].draftNo <= |RevisionsOf(st, p)|
    ensures var r := RevisionsOf(st, p)[st.pages[p].draftNo - 1];
            HeadRevision(st, p, DraftKind) == Some(r) && r.id == st.pages[p].draftId && r.no == st.pages[p].draftNo
            && r.title == st.pages[p].title
  {
    HeadIsFound(st, p);
    Guarantees.NumbersUpTo(RevisionsOf(st, p), st.pages[p].draftNo - 1);
  }

  lemma SaveIsRefused(w: World, input: SaveInput, env: Env)
    requires input.pageId in w.store.pages ==> PageOk(w.store, input.pageId)
    requires TrimSpace(input.pageId) == "" || input.base <= 0 || Recorded(w.store, input.pageId, input.key).None?
    requires TrimSpace(input.pageId) == "" || input.base <= 0 || input.pageId !in w.store.pages
             || w.store.pages[input.pageId].status == ArchivedStatus || w.store.pages[input.pageId].draftNo != input.base
    ensures Save(w, input, env).response.Refused? && Save(w, input, env).world == w
    ensures SaveRefusal(w.store, input, env, Some(Save(w, input, env).response.error))
  {
    if input.pageId in w.store.pages {
      HeadOfPage(w.store, input.pageId);
    }
  }

  /** The draft an accepted save adds: by this actor, in this way, at this time, on the draft head. */
  ghost predicate SavedDraft(st: State, input: SaveInput, env: Env, r: Revision)
    requires input.pageId in st.pages
  {
    var page := st.pages[input.pageId];
    && r == Revision(env.revisionId, input.pageId, |RevisionsOf(st, input.pageId)| + 1, DraftKind, page.draftId, "", r.document,
                     page.title, input.actor, input.via, env.now)
    && DocumentStored(env.files, input.document, r.document)
  }

  /** Only head, author and time of the page change. */
  function PageSaved(page: Page, r: Revision): Page {
    Page(page.id, page.workspaceId, page.slug, page.title, page.status, page.createdBy, r.createdBy, r.id, r.no,
         page.publishedId, page.publishedNo, page.createdAt, r.createdAt)
  }

  function SaveEntry(input: SaveInput, r: Revision): Entry {
    Entry(input.pageId, input.workspaceId, input.actor, r.id, r.no,
          if input.via == SavedByPatch then CollabPatchEntry else AutosaveEntry, input.patchId, r.createdAt)
  }

  lemma SavePlans(st: State, input: SaveInput, env: Env, planned: Result<Write, UseCaseError>)
    requires PageOk(st, input.pageId) && (input.via == SavedByRest || input.via == SavedByPatch)
    requires planned == PlanSave(input, st.pages[input.pageId], st.pages[input.pageId].draftId, env)
    ensures !FilesReady(env.files, input.document) ==> planned.Err? && Unready(env.files, input.document, planned.error)
    ensures FilesReady(env.files, input.document) && input.via != SavedByPatch && EmbedsUnavailable(input.document, env.unavailable) ==>
              planned == Err(EmbedUnavailable)
    ensures FilesReady(env.files, input.document)
            && (input.via == SavedByPatch || !EmbedsUnavailable(input.document, env.unavailable)) ==>
              && planned.Ok? && planned.value.RevisionWrite? && SavedDraft(st, input, env, planned.value.revision)
              && planned.value.page == PageSaved(st.pages[input.pageId], planned.value.revision)
              && planned.value.entry == SaveEntry(input, planned.value.revision)
              && planned.value.record == (if input.key == "" then None
                                          else Some(IdempotencyRecord(input.pageId, input.key, env.revisionId,
                                                                      planned.value.revision.no, env.now)))
  {
    SnapshotHydrates(env.files, input.document);
    NextNoIsLength(st.pages[input.pageId], RevisionsOf(st, input.pageId));
    if FilesReady(env.files, input.document) {
      var stored := Hydrate(env.files, Canonical(input.document)).value;
      StoredUnavailable(env.files, input.document, stored, Origin(input.pageId, env.revisionId, env.now), env.unavailable);
    }
  }

  /** What the planned save comes to when nothing refuses it before. */
  lemma SaveGoesOn(w: World, input: SaveInput, env: Env, planned: Result<Write, UseCaseError>)
    requires PageOk(w.store, input.pageId) && TrimSpace(input.pageId) != "" && input.base > 0
    requires Recorded(w.store, input.pageId, input.key).None? && w.store.pages[input.pageId].status != ArchivedStatus
    requires w.store.pages[input.pageId].draftNo == input.base
    requires planned == PlanSave(input, w.store.pages[input.pageId], w.store.pages[input.pageId].draftId, env)
    ensures planned.Err? ==> Save(w, input, env) == Outcome(w, Refused(planned.error))
    ensures planned.Ok? ==>
              Save(w, input, env)
              == Conclude(w, planned.value, SaveConflict(w.store, input, w.store.pages[input.pageId], StoreFailed(StaleRevision)), env.clock)
  {
    HeadOfPage(w.store, input.pageId);
  }

  lemma WriteConcludes(w: World, write: Write, stale: UseCaseError, clock: int)
    requires write.RevisionWrite? && Locked(w.store, write).Ok?
    ensures Conclude(w, write, stale, clock)
            == Outcome(Logged(w.(store := Locked(w.store, write).value), write.entry, clock),
                       Accepted(write.revision.pageId, write.revision.id, write.revision.no))
  {
  }

  function KeysAfter(st: State, write: Write): map<string, IdempotencyRecord>
    requires write.RevisionWrite?
  {
    if write.revision.kind == PublishedKind || write.record.None? then st.idempotencies
    else st.idempotencies[IdempotencyKey(write.revision.pageId, write.record.value.key) := write.record.value]
  }

  lemma ContinuedWriteLands(st: State, write: Write, env: Env)
    requires Continues(st, write, env) && PageOk(st, write.revision.pageId)
    ensures Locked(st, write).Ok? && Locked(st, write).value.idempotencies == KeysAfter(st, write)
  {
    PlannedWritePasses(st, write);
    AddedRevision(st, write, env);
  }

  /** An accepted write of a revision that continues the history leaves exactly this. */
  lemma ContinuedWriteLeaves(w: World, write: Write, stale: UseCaseError, env: Env, o: Outcome)
    requires Continues(w.store, write, env) && PageOk(w.store, write.revision.pageId)
    requires o == Conclude(w, write, stale, env.clock)
    ensures o.response == Accepted(write.revision.pageId, write.revision.id, write.revision.no)
    ensures Revised(w, o.world, write.page, write.revision, write.entry, env)
    ensures o.world.store.idempotencies == KeysAfter(w.store, write)
  {
    ContinuedWriteLands(w.store, write, env);
    WriteRevises(w, write, env);
    WriteConcludes(w, write, stale, env.clock);
  }

  /** The answer and the new state of a save that adds a draft. */
  ghost predicate Saves(w: World, o: Outcome, input: SaveInput, env: Env, r: Revision)
    requires input.pageId in w.store.pages
  {
    var p := input.pageId;
    && SavedDraft(w.store, input, env, r) && o.response == Accepted(p, r.id, r.no)
    && Revised(w, o.world, PageSaved(w.store.pages[p], r), r, SaveEntry(input, r), env)
    && o.world.store.idempotencies
       == if input.key == "" then w.store.idempotencies
          else w.store.idempotencies[IdempotencyKey(p, input.key) := IdempotencyRecord(p, input.key, r.id, r.no, env.now)]
  }

  lemma SaveAccepted(w: World, input: SaveInput, env: Env, write: Write)
    requires PageOk(w.store, input.pageId) && FreshId(w.store, env.revisionId) && (input.via == SavedByRest || input.via == SavedByPatch)
    requires TrimSpace(input.pageId) != "" && Recorded(w.store, input.pageId, input.key).None?
    requires SaveRefusal(w.store, input, env, None)
    requires PlanSave(input, w.store.pages[input.pageId], w.store.pages[input.pageId].draftId, env) == Ok(write)
    ensures write.RevisionWrite? && Saves(w, Save(w, input, env), input, env, write.revision)
  {
    SavePlans(w.store, input, env, Ok(write));
    SaveGoesOn(w, input, env, Ok(write));
    HeadOfPage(w.store, input.pageId);
    PlannedSaveContinues(w.store, input, env);
    ContinuedWriteLeaves(w, write, SaveConflict(w.store, input, w.store.pages[input.pageId], StoreFailed(StaleRevision)), env,
                         Save(w, input, env));
  }

  /**
   A save, of either kind. A recorded key is answered from the record, if page and base are
   given at all. Otherwise it is refused for the first reason that applies and changes nothing,
   or it adds exactly one draft.
   */
  lemma SaveMeans(w: World, input: SaveInput, env: Env) returns (r: Revision)
    requires input.pageId in w.store.pages ==> PageOk(w.store, input.pageId)
    requires FreshId(w.store, env.revisionId) && (input.via == SavedByRest || input.via == SavedByPatch)
    ensures var o, known := Save(w, input, env), Recorded(w.store, input.pageId, input.key);
            if TrimSpace(input.pageId) != "" && input.base > 0 && known.Some?
            then o == Outcome(w, Accepted(input.pageId, known.value.id, known.value.no))
            else if SaveRefusal(w.store, input, env, None) then input.pageId in w.store.pages && Saves(w, o, input, env, r)
            else o.world == w && o.response.Refused? && SaveRefusal(w.store, input, env, Some(o.response.error))
  {
    var st, p := w.store, input.pageId;
    r := Revision("", "", 0, DraftKind, "", "", input.document, "", "", SavedByRest, 0);
    if TrimSpace(p) != "" && input.base > 0 && Recorded(st, p, input.key).Some? {
      Guarantees.RecordedSaveReplays(w, input, env, Recorded(st, p, input.key).value.id, Recorded(st, p, input.key).value.no);
    } else if TrimSpace(p) == "" || input.base <= 0 || p !in st.pages || st.pages[p].status == ArchivedStatus
              || st.pages[p].draftNo != input.base {
      SaveIsRefused(w, input, env);
    } else {
      var planned := PlanSave(input, st.pages[p], st.pages[p].draftId, env);
      SavePlans(st, input, env, planned);
      if planned.Ok? {
        SaveAccepted(w, input, env, planned.value);
        r := planned.value.revision;
      } else {
        SaveGoesOn(w, input, env, planned);
      }
    }
  }

  // ------------------------------------------------------------------ publishing and restoring

  /** Why a publication is refused, if it is. */
  ghost predicate PublishRefusal(st: State, p: string, base: int, why: Option<UseCaseError>) {
    if p !in st.pages then why == Some(PageNotFound)
    else if st.pages[p].status == ArchivedStatus then why == Some(PageReadOnly)
    else if st.pages[p].draftNo != base then why.Some? && Rebases(st, p, false, why.value)
    else why.None?
  }

  /** The published revision is the present draft under a number, an id, an author and a time of its own. */
  ghost predicate PublishedDraft(st: State, p: string, actor: string, env: Env, r: Revision)
    requires p in st.pages && 0 < st.pages[p].draftNo <= |RevisionsOf(st, p)|
  {
    var draft := RevisionsOf(st, p)[st.pages[p].draftNo - 1];
    && r == Revision(env.revisionId, p, |RevisionsOf(st, p)| + 1, PublishedKind, draft.id, "", r.document, draft.title, actor,
                     SavedByPublish, env.now)
    && r.document == draft.document
  }

  function PagePublishedAs(page: Page, r: Revision): Page {
    Page(page.id, page.workspaceId, page.slug, page.title, PublishedStatus, page.createdBy, r.createdBy, page.draftId, page.draftNo,
         r.id, r.no, page.createdAt, r.createdAt)
  }

  /** A publication is refused for the first reason that applies, or adds the draft as a published revision. */
  lemma PublishMeans(w: World, p: string, workspaceId: string, actor: string, base: int, env: Env) returns (r: Revision)
    requires p in w.store.pages ==> PageOk(w.store, p)
    requires FreshId(w.store, env.revisionId)
    ensures var o := Publish(w, p, workspaceId, actor, base, env);
            if PublishRefusal(w.store, p, base, None)
            then && p in w.store.pages && 0 < w.store.pages[p].draftNo <= |RevisionsOf(w.store, p)|
                 && PublishedDraft(w.store, p, actor, env, r) && o.response == Accepted(p, r.id, r.no)
                 && Revised(w, o.world, PagePublishedAs(w.store.pages[p], r), r,
                            Entry(p, workspaceId, actor, r.id, r.no, PublishEntry, "", env.now), env)
                 && o.world.store.idempotencies == w.store.idempotencies
            else o.world == w && o.response.Refused? && PublishRefusal(w.store, p, base, Some(o.response.error))
  {
    r := Revision("", "", 0, DraftKind, "", "", Document([], map[]), "", "", SavedByRest, 0);
    if p in w.store.pages {
      HeadOfPage(w.store, p);
    }
    if PublishRefusal(w.store, p, base, None) {
      var draft := RevisionsOf(w.store, p)[w.store.pages[p].draftNo - 1];
      var write := PlanPublish(p, workspaceId, actor, base, w.store.pages[p], draft, env);
      PublishPlans(w.store, p, workspaceId, actor, base, draft, env, write);
      PublishConcludes(w, p, workspaceId, actor, env);
      PlannedPublishContinues(w.store, p, workspaceId, actor, env);
      ContinuedWriteLeaves(w, write, Conflict(w.store, p, StoreFailed(StaleRevision)), env,
                           Publish(w, p, workspaceId, actor, base, env));
      r := write.revision;
    } else {
      PublishIsRefused(w, p, workspaceId, actor, base, env);
    }
  }

  lemma PublishPlans(st: State, p: string, workspaceId: string, actor: string, base: int, draft: Revision, env: Env, write: Write)
    requires PageOk(st, p) && 0 < st.pages[p].draftNo <= |RevisionsOf(st, p)|
    requires draft == RevisionsOf(st, p)[st.pages[p].draftNo - 1]
    requires write == PlanPublish(p, workspaceId, actor, base, st.pages[p], draft, env)
    ensures write.RevisionWrite? && PublishedDraft(st, p, actor, env, write.revision)
    ensures write.page == PagePublishedAs(st.pages[p], write.revision)
    ensures write.entry == Entry(p, workspaceId, actor, write.revision.id, write.revision.no, PublishEntry, "", env.now)
  {
    HeadOfPage(st, p);
    NextNoIsLength(st.pages[p], RevisionsOf(st, p));
    DerivedAt(RevisionsOf(st, p), |RevisionsOf(st, p)|, st.pages[p].draftNo - 1);
  }

  lemma PublishIsRefused(w: World, p: string, workspaceId: string, actor: string, base: int, env: Env)
    requires p in w.store.pages ==> PageOk(w.store, p)
    requires !PublishRefusal(w.store, p, base, None)
    ensures var o := Publish(w, p, workspaceId, actor, base, env);
            o.world == w && o.response.Refused? && PublishRefusal(w.store, p, base, Some(o.response.error))
  {
    if p in w.store.pages {
      HeadOfPage(w.store, p);
    }
  }

  /** Why a restore is refused, if it is: it names no base, so nothing it knows can be stale. */
  ghost predicate RestoreRefusal(st: State, p: string, revisionId: string, env: Env, why: Option<UseCaseError>) {
    if p !in st.pages then why == Some(PageNotFound)
    else if st.pages[p].status == ArchivedStatus then why == Some(PageReadOnly)
    else if forall k :: 0 <= k < |RevisionsOf(st, p)| ==> RevisionsOf(st, p)[k].id != revisionId then why == Some(PageNotFound)
    else
      exists k :: 0 <= k < |RevisionsOf(st, p)| && RevisionsOf(st, p)[k].id == revisionId
                  && if FilesReady(env.files, RevisionsOf(st, p)[k].document) then why.None?
                     else why.Some? && Unready(env.files, RevisionsOf(st, p)[k].document, why.value)
  }

  /** The restored draft has the title and the document of the revision it names. */
  ghost predicate RestoredDraft(st: State, p: string, actor: string, revisionId: string, env: Env, r: Revision)
    requires p in st.pages
  {
    exists k :: 0 <= k < |RevisionsOf(st, p)| && RevisionsOf(st, p)[k].id == revisionId
      && r == Revision(env.revisionId, p, |RevisionsOf(st, p)| + 1, DraftKind, st.pages[p].draftId, revisionId, r.document,
                       RevisionsOf(st, p)[k].title, actor, SavedByRestore, env.now)
      && DocumentStored(env.files, RevisionsOf(st, p)[k].document, r.document)
  }

  function PageRestored(page: Page, r: Revision): Page {
    PageSaved(page, r).(title := r.title)
  }

  lemma RestorePlans(st: State, p: string, workspaceId: string, actor: string, k: nat, env: Env, planned: Result<Write, UseCaseError>)
    requires PageOk(st, p) && k < |RevisionsOf(st, p)|
    requires planned == PlanRestore(p, workspaceId, actor, st.pages[p], RevisionsOf(st, p)[k], env)
    ensures !FilesReady(env.files, RevisionsOf(st, p)[k].document) ==>
              planned.Err? && Unready(env.files, RevisionsOf(st, p)[k].document, planned.error)
    ensures FilesReady(env.files, RevisionsOf(st, p)[k].document) ==>
              && planned.Ok? && planned.value.RevisionWrite?
              && RestoredDraft(st, p, actor, RevisionsOf(st, p)[k].id, env, planned.value.revision)
              && planned.value.page == PageRestored(st.pages[p], planned.value.revision) && planned.value.record.None?
              && planned.value.entry == Entry(p, workspaceId, actor, env.revisionId, planned.value.revision.no, RestoreEntry, "", env.now)
  {
    SnapshotHydrates(env.files, RevisionsOf(st, p)[k].document);
    NextNoIsLength(st.pages[p], RevisionsOf(st, p));
  }

  /** The revision with this id is at one index only. */
  lemma OneWithId(st: State, p: string, revisionId: string) returns (k: nat)
    requires PageOk(st, p) && exists j :: 0 <= j < |RevisionsOf(st, p)| && RevisionsOf(st, p)[j].id == revisionId
    ensures k < |RevisionsOf(st, p)| && RevisionById(st, p, revisionId) == Some(RevisionsOf(st, p)[k])
    ensures forall j :: 0 <= j < |RevisionsOf(st, p)| ==> (RevisionsOf(st, p)[j].id == revisionId <==> j == k)
  {
    var revs := RevisionsOf(st, p);
    k :| 0 <= k < |revs| && revs[k].id == revisionId;
    FoundById(revs, k);
    forall j | 0 <= j < |revs| && revs[j].id == revisionId ensures j == k {
      FoundById(revs, j);
    }
  }

  lemma RestoreGoesOn(w: World, p: string, workspaceId: string, actor: string, revisionId: string, target: Revision, env: Env,
                      planned: Result<Write, UseCaseError>)
    requires p in w.store.pages && w.store.pages[p].status != ArchivedStatus && RevisionById(w.store, p, revisionId) == Some(target)
    requires planned == PlanRestore(p, workspaceId, actor, w.store.pages[p], target, env)
    ensures Restore(w, p, workspaceId, actor, revisionId, env)
            == match planned
               case Err(e) => Outcome(w, Refused(e))
               case Ok(write) => Conclude(w, write, StoreFailed(StaleRevision), env.clock)
  {
  }

  lemma RestoreIsRefused(w: World, p: string, workspaceId: string, actor: string, revisionId: string, env: Env)
    requires p !in w.store.pages || w.store.pages[p].status == ArchivedStatus
             || forall k :: 0 <= k < |RevisionsOf(w.store, p)| ==> RevisionsOf(w.store, p)[k].id != revisionId
    ensures var o := Restore(w, p, workspaceId, actor, revisionId, env);
            o.world == w && o.response.Refused? && RestoreRefusal(w.store, p, revisionId, env, Some(o.response.error))
  {
  }

  lemma RestoreRefusalAt(st: State, p: string, revisionId: string, env: Env, k: nat, why: Option<UseCaseError>)
    requires p in st.pages && st.pages[p].status != ArchivedStatus && k < |RevisionsOf(st, p)|
    requires forall j :: 0 <= j < |RevisionsOf(st, p)| ==> (RevisionsOf(st, p)[j].id == revisionId <==> j == k)
    ensures RestoreRefusal(st, p, revisionId, env, why)
            <==> if FilesReady(env.files, RevisionsOf(st, p)[k].document) then why.None?
                 else why.Some? && Unready(env.files, RevisionsOf(st, p)[k].document, why.value)
  {
  }

  /** The answer and the new state of a restore that adds a draft. */
  ghost predicate Restores(w: World, o: Outcome, p: string, workspaceId: string, actor: string, revisionId: string, env: Env, r: Revision)
    requires p in w.store.pages
  {
    && RestoredDraft(w.store, p, actor, revisionId, env, r) && o.response == Accepted(p, r.id, r.no)
    && Revised(w, o.world, PageRestored(w.store.pages[p], r), r,
               Entry(p, workspaceId, actor, r.id, r.no, RestoreEntry, "", env.now), env)
    && o.world.store.idempotencies == w.store.idempotencies
  }

  lemma RestoreAccepted(w: World, p: string, workspaceId: string, actor: string, revisionId: string, env: Env, k: nat, write: Write)
    requires PageOk(w.store, p) && FreshId(w.store, env.revisionId) && w.store.pages[p].status != ArchivedStatus
    requires k < |RevisionsOf(w.store, p)| && RevisionById(w.store, p, revisionId) == Some(RevisionsOf(w.store, p)[k])
    requires PlanRestore(p, workspaceId, actor, w.store.pages[p], RevisionsOf(w.store, p)[k], env) == Ok(write)
    ensures write.RevisionWrite? && Restores(w, Restore(w, p, workspaceId, actor, revisionId, env), p, workspaceId, actor, revisionId, env, write.revision)
  {
    RestorePlans(w.store, p, workspaceId, actor, k, env, Ok(write));
    RestoreGoesOn(w, p, workspaceId, actor, revisionId, RevisionsOf(w.store, p)[k], env, Ok(write));
    PlannedRestoreContinues(w.store, p, workspaceId, actor, revisionId, env);
    ContinuedWriteLeaves(w, write, StoreFailed(StaleRevision), env, Restore(w, p, workspaceId, actor, revisionId, env));
  }

  /** A restore is refused for the first reason that applies, or adds the old document as a new draft. */
  lemma RestoreMeans(w: World, p: string, workspaceId: string, actor: string, revisionId: string, env: Env) returns (r: Revision)
    requires p in w.store.pages ==> PageOk(w.store, p)
    requires FreshId(w.store, env.revisionId)
    ensures var o := Restore(w, p, workspaceId, actor, revisionId, env);
            if RestoreRefusal(w.store, p, revisionId, env, None)
            then p in w.store.pages && Restores(w, o, p, workspaceId, actor, revisionId, env, r)
            else o.world == w && o.response.Refused? && RestoreRefusal(w.store, p, revisionId, env, Some(o.response.error))
  {
    r := Revision("", "", 0, DraftKind, "", "", Document([], map[]), "", "", SavedByRest, 0);
    var st := w.store;
    if p !in st.pages || st.pages[p].status == ArchivedStatus
       || forall k :: 0 <= k < |RevisionsOf(st, p)| ==> RevisionsOf(st, p)[k].id != revisionId {
      RestoreIsRefused(w, p, workspaceId, actor, revisionId, env);
    } else {
      var k := OneWithId(st, p, revisionId);
      var planned := PlanRestore(p, workspaceId, actor, st.pages[p], RevisionsOf(st, p)[k], env);
      RestorePlans(st, p, workspaceId, actor, k, env, planned);
      RestoreRefusalAt(st, p, revisionId, env, k, None);
      if planned.Ok? {
        RestoreAccepted(w, p, workspaceId, actor, revisionId, env, k, planned.value);
        r := planned.value.revision;
      } else {
        RestoreGoesOn(w, p, workspaceId, actor, revisionId, RevisionsOf(st, p)[k], env, planned);
        RestoreRefusalAt(st, p, revisionId, env, k, Some(planned.error));
      }
    }
  }

  // ------------------------------------------------------------------- archiving and creating

  /** Only status, author and time change. */
  function PageArchivedBy(page: Page, actor: string, now: int): Page {
    Page(page.id, page.workspaceId, page.slug, page.title, ArchivedStatus, page.createdBy, actor, page.draftId, page.draftNo,
         page.publishedId, page.publishedNo, page.createdAt, now)
  }

  /**
   Archiving checks the base first; an archived page is left as it is and answered with what it
   is; any other page gets the status and one pending event, and nothing else changes.
   */
  lemma ArchiveMeans(w: World, p: string, actor: string, base: int, env: Env)
    requires p in w.store.pages ==> PageOk(w.store, p)
    ensures var o, st := Archive(w, p, actor, base, env), w.store;
            if p !in st.pages then o == Outcome(w, Refused(PageNotFound))
            else
              var page := st.pages[p];
              if page.draftNo != base then o.world == w && o.response.Refused? && Rebases(st, p, false, o.response.error)
              else if page.status == ArchivedStatus then o == Outcome(w, ArchivedAt(p, page.draftNo, page.draftId, page.updatedAt))
              else
                && o.response == ArchivedAt(p, page.draftNo, page.draftId, env.now)
                && o.world == w.(store := st.(
                     pages := st.pages[p := PageArchivedBy(page, actor, env.now)],
                     outbox := st.outbox + [OutboxRecord(env.recordIds[0], p,
                       PageArchived(p, page.workspaceId, ArchivedStatus, page.draftNo, page.draftId, env.now), Pending, env.now, env.now)]))
  {
    if p in w.store.pages {
      HeadOfPage(w.store, p);
      ArchiveLands(w.store, p, actor, base, env);
    }
  }

  lemma ArchiveLands(st: State, p: string, actor: string, base: int, env: Env)
    requires PageOk(st, p)
    ensures var write, page := PlanArchive(actor, base, st.pages[p], env), st.pages[p];
            && write.page == PageArchivedBy(page, actor, env.now)
            && (page.draftNo == base ==>
                  Locked(st, write) == Ok(st.(
                    pages := st.pages[p := PageArchivedBy(page, actor, env.now)],
                    outbox := st.outbox + [OutboxRecord(env.recordIds[0], p,
                      PageArchived(p, page.workspaceId, ArchivedStatus, page.draftNo, page.draftId, env.now), Pending, env.now, env.now)])))
  {
    var write := PlanArchive(actor, base, st.pages[p], env);
    assert |write.records| == 1;
    assert write.records == [write.records[0]];
  }

  /** The first revision of a page, by its creator. */
  ghost predicate FirstDraft(input: CreateInput, env: Env, r: Revision) {
    && r == Revision(env.revisionId, input.pageId, 1, DraftKind, "", "", r.document, input.title, input.actor, SavedByRest, env.now)
    && DocumentStored(env.files, input.document, r.document)
  }

  function PageCreatedAs(input: CreateInput, r: Revision): Page {
    Page(input.pageId, input.workspaceId, input.slug, input.title, DraftStatus, input.actor, input.actor, r.id, 1, "", 0,
         r.createdAt, r.createdAt)
  }

  /** Why a creation is refused, if it is. */
  ghost predicate CreateRefusal(input: CreateInput, env: Env, why: Option<UseCaseError>) {
    if TrimSpace(input.workspaceId) == "" || TrimSpace(input.title) == "" then why == Some(Validation)
    else if !FilesReady(env.files, input.document) then why.Some? && Unready(env.files, input.document, why.value)
    else if EmbedsUnavailable(input.document, env.unavailable) then why == Some(EmbedUnavailable)
    else why.None?
  }

  ghost predicate Creates(w: World, after: World, input: CreateInput, env: Env, r: Revision) {
    var st, refs := w.store, ReferencesOf(r.document.blocks, Origin(r.pageId, r.id, r.createdAt));
    && after == w.(store := after.store)
    && after.store.pages == st.pages[input.pageId := PageCreatedAs(input, r)]
    && after.store.revisions == st.revisions[input.pageId := [r]]
    && after.store.embeds == st.embeds[r.id := refs.embeds]
    && after.store.attachments == st.attachments[r.id := refs.attachments]
    && after.store.links == st.links[r.id := refs.links]
    && after.store.idempotencies == st.idempotencies
    && |after.store.outbox| == |st.outbox| + 4 && st.outbox <= after.store.outbox
    && after.store.outbox[|st.outbox|]
       == OutboxRecord(env.recordIds[0], input.pageId,
                       PageCreated(input.pageId, input.workspaceId, input.title, 1, r.id, DraftStatus), Pending, env.now, env.now)
    && FirstEventsAdded(st.outbox, after.store.outbox, input, r, env)
  }

  ghost predicate FirstEventsAdded(before: seq<OutboxRecord>, after: seq<OutboxRecord>, input: CreateInput, r: Revision, env: Env)
    requires |after| == |before| + 4
  {
    var page, refs := PageCreatedAs(input, r), ReferencesOf(r.document.blocks, Origin(r.pageId, r.id, r.createdAt));
    && (forall i :: 1 <= i < 4 ==>
          after[|before| + i] == OutboxRecord(env.recordIds[i], page.id, after[|before| + i].event, Pending, env.now, env.now))
    && RevisionTold(after[|before| + 1].event, page, r)
    && after[|before| + 2].event == LinksExtracted(page.id, page.workspaceId, r.id, refs.links)
    && FilesAreTold(after[|before| + 3].event, page, r, refs.attachments)
  }

  lemma CreationLands(w: World, input: CreateInput, env: Env, r: Revision)
    requires input.pageId !in w.store.revisions && FirstDraft(input, env, r)
    ensures Creates(w, w.(store := CreateIn(w.store, PageCreatedAs(input, r), r, env)), input, env, r)
  {
    CreatedPage(w.store, PageCreatedAs(input, r), r, env);
    RevisionEventsTell(PageCreatedAs(input, r), r);
    assert [] + [r] == [r];
  }

  /** A creation is refused for the first reason that applies, or adds a page with its first draft. */
  lemma CreateMeans(w: World, input: CreateInput, env: Env) returns (r: Revision)
    requires input.pageId !in w.store.revisions
    ensures var o := Create(w, input, env);
            if CreateRefusal(input, env, None)
            then FirstDraft(input, env, r) && o.response == Accepted(input.pageId, r.id, 1) && Creates(w, o.world, input, env, r)
            else o.world == w && o.response.Refused? && CreateRefusal(input, env, Some(o.response.error))
  {
    r := Revision("", "", 0, DraftKind, "", "", Document([], map[]), "", "", SavedByRest, 0);
    SnapshotHydrates(env.files, input.document);
    if FilesReady(env.files, input.document) {
      r := FirstRevision(input, Hydrate(env.files, Canonical(input.document)).value, env);
      StoredUnavailable(env.files, input.document, r.document, Origin(input.pageId, env.revisionId, env.now), env.unavailable);
      CreationLands(w, input, env, r);
    }
  }
}
