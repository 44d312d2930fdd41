# Verified model of the collaborative page editor

A wiki page is edited by autosaves over REST and by patches that a collaboration service applies
to a cached room and commits to the page service. This project models that protocol and what is
derived from it, and proves the properties it rests on.

| file | what it holds |
|---|---|
| `Wrappers.dfy` | result types, splicing in sequences, trimming and joining text |
| `Documents.dfy` | documents, canonical snapshots, the shared view, references, hydration |
| `Patches.dfy`, `PatchBuffer.dfy` | the patch engine on values with its laws, and the engine on a mutable buffer refining it |
| `PageStore.dfy`, `PageEvents.dfy`, `UseCases.dfy`, `PageService.dfy` | the store, the events, the use cases as functions, and the classes that run them |
| `PageViews.dfy`, `Requests.dfy` | what a page load shows, and for each request when it is refused and all that an accepted one leaves |
| `Lifecycle.dfy`, `Runs.dfy`, `Guarantees.dfy` | requests one at a time: the lifecycle invariant over every run, and what it means |
| `ReplayWindow.dfy`, `Resume.dfy` | the bounded replay log, and resuming an editor from it |
| `LateAppends.dfy`, `LateAppendExample.dfy` | the interleaved system with its replay windows, where an entry is appended some time after its write or never |
| `OutboxRelay.dfy`, `SearchIndex.dfy`, `EndToEnd.dfy` | relay, search projection, and their agreement with the stored revisions |
| `DraftChain.dfy`, `PageCalls.dfy`, `PageInterleaving.dfy` | page requests as interleaved steps that hold stale copies |
| `Collaboration.dfy`, `CollaborationSafety.dfy`, `CollaborationGuarantees.dfy`, `ReusedPatchId.dfy` | rooms, locks, submits, joins, refreshes, crashes and expiry as one system, its invariant, its guarantees and what a reused patch id does to a room |
| `Uninterrupted.dfy`, `RoomService.dfy` | a request or call whose steps run without interruption is the use case, or the method, as written |

Two readings of a document matter. `Canonical` is what the page service stores: embeds without
their live preview. `View` also drops attachment file names: it is what both services agree on,
because reading a view writes file names through the block slice the store hands out.

The page service is modelled twice. In `Runs` each request is one step; there the lifecycle
invariant holds: numbers 1..n, heads, derivations, exact projections, archived is terminal. In
`PageCalls` and `Collaboration` every read and the locked write are separate steps, and any number
of calls run, stall, die or are orphaned in between. There draft chains, patch records, exact
projections, rooms and payloads are safe. The compare-and-swap looks at the draft number only and
the write puts a stale page record back, so the published head, the archived status and the
numbering do not survive every interleaving. With any number of calls in flight,
`CollaborationGuarantees.StaleWriteInSystem` says for every writer (autosave, commit, publication,
restore, archiving) exactly when its write lands, and what it then takes the page back to. For one
late request among others that are single steps, `Guarantees.StaleWriteInRuns` adds that the
lifecycle invariant survives exactly when the page was not published in between; two concrete
examples show the loss. The Postgres adapter's unique constraint on page and number is not part of
this model.

Replay windows do not survive interleaving unharmed either: a use case appends its entry after its
write has released the store. That a window holds the latest revisions without a gap
(`Runs.RunsKeepWindowsOk`, `Guarantees.WindowLogsLatest`), and that reaching back to the client's
revision makes a resume sound (`Resume.ResumeOneAtATimeIsSound`), is about requests one at a time.
In `LateAppends` an entry may be appended late, after newer ones, or never. There each entry is still
true, each missing one is due, lost or dropped, and a resume is sound exactly when the unseen
revisions without an entry are the client's own patches; `LateAppendExample` shows one that is not.

Assumptions about the surroundings are stated where they are used: drawn ids are new, page ids
contain no `:`, autosave keys do not start with `collab:`, a patch id is only resubmitted with the
base and operations it was made for (`Collaboration.TaskOk`;
`CollaborationGuarantees.ReusedPatchIdIsRightIff` gives the exact consequence of breaking this, and
`ReusedPatchId` an example),
and clocks do not run backwards (`Runs.Legal`). Requests are authorised. Times are integers, and
`any` values inside maps are opaque.

Where code and comments or names disagree, the code is followed: a flush with batch size zero still
claims one record; a created revision is recorded as saved by `rest_autosave`; restoring saves on
the draft number it happened to read, whatever the client knew; archiving checks the base before it
notices that the page is archived already; a head that cannot be read makes archiving answer an
empty payload without an error.

## Model

| member | source | states |
|---|---|---|
| Text.TrimSpaceIdempotent | services/page-service/internal/usecase/resume_editor_sync.go:124-133 | trimmed text has no space at either end and trimming is idempotent |
| Text.TrimSpaceCuts | services/page-service/internal/usecase/resume_editor_sync.go:123-133 | trimming cuts all spaces off both ends and nothing else |
| Text.JoinGrows | services/page-service/internal/usecase/events.go:162 | a further part follows one separator |
| Documents.CanonicalSnapshot | services/page-service/internal/domain/document.go:61-79 | the block-by-block copy is the document without live previews |
| Documents.SnapshotMeans | services/page-service/internal/domain/document.go:61-79 | block by block, everything is kept except the live preview of a table, which is emptied |
| Documents.SameSnapshotIff | services/page-service/internal/domain/document.go:61-79 | two documents have the same snapshot if and only if their blocks differ in live previews only |
| Documents.NormAbsorbs | services/page-service/internal/domain/document.go:61-79 | snapshots and views compose: the coarser one absorbs the finer on either side |
| Documents.ExtractReferences | services/page-service/internal/domain/document.go:81-118 | one pass grows the three lists to the references of all blocks, in block order |
| Documents.EmbedsAreExact | services/page-service/internal/domain/document.go:84-94 | an embed reference exists exactly for each block that embeds a table |
| Documents.AttachmentsAreExact | services/page-service/internal/domain/document.go:95-104 | an attachment reference exists exactly for each block with a file id |
| Documents.LinksAreExact | services/page-service/internal/domain/document.go:105-115 | a link reference exists exactly for each block that links to a page, with the default kind if none is given |
| Documents.ReferencesConcat | services/page-service/internal/domain/document.go:81-118 | references come in block order, each block contributes its own once |
| Documents.ReferencesOfOne | services/page-service/internal/domain/document.go:84-115 | the references of one block, field by field |
| Documents.ReferencesIgnoreLens | services/page-service/internal/domain/document.go:81-118 | references depend neither on previews nor on file names |
| Documents.EmbedTitleIsFirst | services/page-service/internal/domain/document.go:136-143 | the title found for a block id is that of the first block with the id that has an embed |
| Documents.LinkTitleIsFirst | services/page-service/internal/usecase/events.go:22-28 | the link title found for a block id is that of the first block with the id that has a link |
| Documents.FlattenSearchableText | services/page-service/internal/usecase/events.go:146-163 | joins the non-empty texts, link titles, file names and embed titles in block order |
| Documents.SearchableTextMeans | services/page-service/internal/usecase/events.go:146-163 | the text is all non-empty texts, link titles, file names and embed titles of all blocks in order, one space between two |
| Documents.ResolveDegraded | services/page-service/internal/usecase/embed_resolution.go:17-30 | without a resolver every reference gets a degraded descriptor; the last reference to a block wins |
| Documents.DescribedIffNamed | services/page-service/internal/usecase/embed_resolution.go:17-30 | a block id has a descriptor if and only if a reference names it |
| Documents.LastReferenceWins | services/page-service/internal/usecase/embed_resolution.go:17-30 | the descriptor is that of the last reference naming the id: its table and display configuration, without rows |
| Documents.HydrateEmbeds | services/page-service/internal/domain/document.go:120-134 | puts the descriptor of its id into each block that has one and changes nothing else |
| Documents.DegradedShows | services/page-service/internal/usecase/get_page.go:72-98 | with distinct ids each block is shown its own table degraded, or is shown as it is |
| Documents.LoadSaveRoundTrip | services/page-service/internal/domain/document.go:61-143 | loading a stored snapshot degraded and saving it back stores an equal snapshot if and only if blocks sharing an id with a table embed carry the same embed |
| Documents.ValidateAndHydrate | services/page-service/internal/usecase/attach_file.go:19-45 | the pass over the shared slice leaves and returns what `HydratePass` says, also when it stops at an unavailable attachment; what that is, `HydrationMeans` states |
| Documents.HydrationMeans | services/page-service/internal/usecase/attach_file.go:23-43 | the blocks before the first one whose file is unknown, absent or not ready carry the name the service gives; that block and all after it are untouched, and the error says which file and which of the reasons; there is no error if and only if there is no such block |
| Documents.AcceptedIffReady | services/page-service/internal/usecase/attach_file.go:19-45 | a document is accepted if and only if there is no file service or every file is known, present and ready |
| Documents.HydrationKeepsRest | services/page-service/internal/usecase/attach_file.go:23-43 | finished or not, the pass changes file names only |
| Documents.HydrationKeepsCanonical | services/page-service/internal/usecase/attach_file.go:23-43 | the pass never undoes canonicalisation |
| Patches.ApplyConcat | services/collaboration-service/internal/domain/session.go:215-305 | applying a ++ b is applying a and then b, errors included |
| Patches.StepMeans | services/collaboration-service/internal/domain/session.go:219-303 | what an accepted operation leaves, by positions: an edit changes one field of the first block with the id; an insert goes to its index, else right behind the first block with the `after` id, else to the end; a move and a delete take the first block with the id |
| Patches.StepRefuses | services/collaboration-service/internal/domain/session.go:219-303 | an operation is refused, with which error, if and only if a value is malformed, a block is missing or an index is out of range |
| Patches.PatchMeans | services/collaboration-service/internal/domain/session.go:215-305 | a patch goes through one state per operation and ends at the last one with the metadata it had, or fails with the error of the first refused operation |
| Patches.MoveIsUndoablePermutation | services/collaboration-service/internal/domain/session.go:277-293 | a move permutes the blocks, keeps the order of the others and is undone by moving back |
| Patches.InsertThenDelete | services/collaboration-service/internal/domain/session.go:254-299 | inserting a block with a new id and deleting it changes nothing |
| Patches.DeleteThenReinsert | services/collaboration-service/internal/domain/session.go:254-299 | deleting a block and inserting it at its old index changes nothing |
| Patches.IndependentEditsCommute | services/collaboration-service/internal/domain/session.go:219-253 | edits that write different fields or blocks commute, acceptance included |
| Patches.StepKeepsDistinctIds | services/collaboration-service/internal/domain/session.go:219-299 | an accepted operation keeps block ids distinct if and only if it does not insert a used id |
| Patches.PatchKeepsDistinctIds | services/collaboration-service/internal/domain/session.go:215-305 | a patch whose inserted ids are new and distinct keeps block ids distinct |
| Patches.StepCongruence | services/collaboration-service/internal/domain/session.go:219-303 | an operation cannot tell apart documents that a lens identifies |
| Patches.PatchCommutesWithSnapshot | services/collaboration-service/internal/domain/session.go:215-305 | patching a document and patching any snapshot of it agree on the snapshot, and fail alike at the same operation |
| PatchBuffer.BlockBuffer.IndexOf | services/collaboration-service/internal/domain/session.go:307-314 | finds the first block with the id |
| PatchBuffer.BlockBuffer.RemoveSlot | services/collaboration-service/internal/domain/session.go:277-299 | the in-place shift removes exactly the block at the index |
| PatchBuffer.BlockBuffer.InsertSlot | services/collaboration-service/internal/domain/session.go:254-293 | the in-place splice inserts the block at the index, in a larger array when full |
| PatchBuffer.ApplyInPlace | services/collaboration-service/internal/domain/session.go:196-305 | the engine on a cloned mutable buffer computes the fold or its error, writes no object of its caller, and shares none with the result |
| PageStore.IdempotencyKeysAreInjective | services/page-service/internal/adapters/memory/store.go:284-286 | keys of different pages or patches differ when page ids contain no ':', and can collide otherwise |
| PageStore.Store.GetRevision | services/page-service/internal/adapters/memory/store.go:57-82 | finds the head a view shows; a page never published shows its draft |
| PageViews.ViewsShowHeads | services/page-service/internal/adapters/memory/store.go:57-82 | the published view is the last published revision, numbered `publishedNo`, if there is any; otherwise, and for the draft view always, it is the last draft |
| PageStore.Store.SaveDraftRevision | services/page-service/internal/adapters/memory/store.go:205-223 | the conditional draft write: new page, sorted revision, idempotency record, or an error and no change |
| PageStore.Store.SavePublishedRevision | services/page-service/internal/adapters/memory/store.go:225-240 | the conditional write of a published revision, or an error and no change |
| PageStore.Store.ArchivePage | services/page-service/internal/adapters/memory/store.go:242-252 | the conditional status write, or an error and no change |
| PageStore.Store.AppendSorted | services/page-service/internal/adapters/memory/store.go:214-218 | the appended revision is moved left past every higher number and stays after its equals, the rest keeps its order |
| PageStore.Store.ReplaceReferences | services/page-service/internal/adapters/memory/store.go:258-271 | replaces the three projections of one revision |
| PageStore.Store.ClaimPending | services/page-service/internal/adapters/memory/store.go:141-162 | returns the oldest pending records, at most a batch, at least one if there is any |
| PageStore.Store.MarkPublished | services/page-service/internal/adapters/memory/store.go:164-176 | marks the first record with the id and nothing else |
| PageStore.Store.MarkFailed | services/page-service/internal/adapters/memory/store.go:178-190 | marks the first record with the id and nothing else |
| PageEvents.BuildSearchDocument | services/page-service/internal/usecase/events.go:11-51 | the search payload of a revision: links with titles, tables, non-empty embed titles, file ids, text |
| PageEvents.BuildRevisionRecords | services/page-service/internal/usecase/events.go:11-120 | one head event and the two reference events of a revision, in this order, all pending |
| PageEvents.RevisionEventsTell | services/page-service/internal/usecase/events.go:11-120 | a draft says how it was saved and a publication that it is one, each with title, links, tables, files and text of the revision; then its links and its files |
| PageEvents.BuildCreateRecords | services/page-service/internal/usecase/create_page.go:170-231 | the created event comes before the events of the first revision |
| PageServiceRun.PageService.Execute | services/page-service/internal/adapters/memory/store.go:39-44 | the closure under the lock writes revision, projections and events together, or nothing |
| PageServiceRun.PageService.SaveSnapshot | services/page-service/internal/usecase/commit_collaborative_revision.go:50-193 | answer and new state of commits and autosaves, in every error order of the code |
| Requests.SaveMeans | services/page-service/internal/usecase/autosave_draft.go:69-211 | a recorded key is answered from the record; any other save is refused for the first reason that applies and changes nothing, or adds one draft by the actor on the head, with its projections, three pending events, window entry and record, and sets the page record |
| PageServiceRun.PageService.WriteSnapshot | services/page-service/internal/usecase/autosave_draft.go:114-211 | plan and locked write of a save from the page and base read before |
| PageServiceRun.PageService.BuildConflict | services/page-service/internal/usecase/autosave_draft.go:213-224 | the conflict answer carries the current draft head |
| PageServiceRun.PageService.PublishPage | services/page-service/internal/usecase/publish_page.go:37-154 | answer and new state of publishing |
| Requests.PublishMeans | services/page-service/internal/usecase/publish_page.go:37-154 | a publication is refused for the first reason that applies, or adds the draft as a published revision by the actor, with everything that belongs to it |
| PageServiceRun.PageService.RestoreRevision | services/page-service/internal/usecase/restore_revision.go:39-142 | answer and new state of restoring |
| Requests.RestoreMeans | services/page-service/internal/usecase/restore_revision.go:39-142 | a restore is refused for the first reason that applies, or adds title and document of the named revision as a new draft |
| PageServiceRun.PageService.ArchivePage | services/page-service/internal/usecase/archive_page.go:35-114 | answer and new state of archiving, the base checked first |
| Requests.ArchiveMeans | services/page-service/internal/usecase/archive_page.go:35-114 | the base is checked first, an archived page is answered with what it is, any other gets the status and one pending event |
| PageServiceRun.PageService.CreatePage | services/page-service/internal/usecase/create_page.go:48-145 | answer and new state of creating a page |
| Requests.CreateMeans | services/page-service/internal/usecase/create_page.go:48-145 | a creation is refused for the first reason that applies, or adds a page with its first draft, projections and four events |
| PageServiceRun.PageService.GetRevisionHead | services/page-service/internal/usecase/get_revision_head.go:32-69 | the head it returns, and the file names it leaves in the store |
| PageServiceRun.PageService.GetPage | services/page-service/internal/usecase/get_page.go:37-101 | the document of either view with degraded embeds, and the file names it leaves in the revision it showed |
| PageViews.LoadShows | services/page-service/internal/usecase/get_page.go:37-101 | a load of either view shows the whole document of the revision the view is about, tables degraded, and is refused if and only if a file of it is not ready |
| PageViews.LoadLeaves | services/page-service/internal/usecase/get_page.go:63-70 | a load writes the names it found into the blocks of the revision it shows and changes nothing else |
| UseCases.NextRevisionNo | services/page-service/internal/domain/page.go:240-245 | the next number is one above one of the heads and above both |
| Lifecycle.RequestEffect | services/page-service/internal/usecase/autosave_draft.go:82-183 | every request changes nothing, rewrites file names, or makes one lawful change to the page it names |
| Lifecycle.EffectKeepsStoreOk | services/page-service/internal/adapters/memory/store.go:196-280 | each such change keeps numbering, heads, derivations, projections and records right |
| Runs.RequestIsAllOrNothing | services/page-service/internal/adapters/memory/store.go:39-44 | a request adds one revision with its projections, events and window entry, or archives one page with its event, or changes nothing but file names |
| Runs.RunsKeepStoreOk | services/page-service/internal/usecase/publish_page.go:71-121 | the lifecycle invariant holds after every run |
| Runs.RunsKeepWindowsOk | services/page-service/internal/usecase/replay_window.go:15-20 | along every run of requests one at a time each replay window is what its page's revisions from the second on leave in it |
| Guarantees.HeadsPointToLast | services/page-service/internal/usecase/publish_page.go:89-95 | draft and published heads are the last revisions of their kind, the title is the draft head's, the next number is n + 1 |
| Guarantees.RevisionsDerive | services/page-service/internal/usecase/restore_revision.go:77-96 | revision i is numbered i + 1 and based on the last draft before it; a published one shows that draft, a restored one an earlier revision it names; projections are exact |
| Guarantees.ArchivedForever | services/page-service/internal/usecase/archive_page.go:65-90 | an archived page and its history never change again, file names aside |
| Guarantees.KeyForever | services/page-service/internal/usecase/commit_collaborative_revision.go:68-80 | a recorded key stands for the same revision forever |
| Guarantees.SaveIsIdempotent | services/page-service/internal/usecase/commit_collaborative_revision.go:68-80 | repeating an accepted keyed save, at any later time and even after archiving, gives the same answer and changes nothing |
| Guarantees.WindowLogsLatest | services/page-service/internal/adapters/memory/replay_window_store.go:33-56 | with requests one at a time the window logs the latest revisions without a gap and is cut no later than limit and cutoff demand |
| Guarantees.CopiesAge | services/page-service/internal/usecase/autosave_draft.go:82-106 | what was read of a live page stays a true earlier copy until a draft is saved |
| Guarantees.StaleWriteKeepsInvariantIff | services/page-service/internal/adapters/memory/store.go:205-252 | an autosave, commit, publication, restore or archiving planned from an earlier copy is accepted, takes the page back to the copy's published head and status except for what it sets itself, and keeps the invariant if and only if the page was not published in between |
| Guarantees.StaleWriteInRuns | services/page-service/internal/usecase/publish_page.go:47-121 | a request that reads its page, later its revision, and writes still later, with any run in between, is refused if a draft was saved meanwhile and otherwise ends as above |
| Guarantees.ReadingStays | services/page-service/internal/usecase/restore_revision.go:61-76 | what was read of a revision stays true of it, file names aside |
| Guarantees.StaleSaveCanLosePublication | services/page-service/internal/adapters/memory/store.go:210-214 | a concrete page that is read, published and then saved late ends with broken numbering |
| Guarantees.StaleSaveCanReviveArchived | services/page-service/internal/adapters/memory/store.go:210-214 | a concrete page that is read, archived and then saved late is live again |
| ReplayWindow.FilterInPlace | services/page-service/internal/adapters/memory/replay_window_store.go:41-48 | filtering through the slice's own front keeps exactly the entries not older than the cutoff, in order |
| ReplayWindow.ReplayWindowStore.Append | services/page-service/internal/adapters/memory/replay_window_store.go:33-56 | stamps, filters and trims one page's window, and touches no other |
| ReplayWindow.AppendMeans | services/page-service/internal/adapters/memory/replay_window_store.go:33-56 | the window is the end of the entries not older than its time to live, as long as the limit allows, the new one last |
| ReplayWindow.FilterMeans | services/page-service/internal/adapters/memory/replay_window_store.go:41-70 | filtering by time and by number goes entry by entry and keeps the order |
| ReplayWindow.ReplayWindowStore.ListSinceRevision | services/page-service/internal/adapters/memory/replay_window_store.go:58-70 | the entries above a revision number, in order |
| ReplayWindow.WindowIsLogSuffix | services/page-service/internal/adapters/memory/replay_window_store.go:33-56 | with ordered times the window is exactly a suffix of the unbounded log |
| ReplayWindow.WindowLength | services/page-service/internal/adapters/memory/replay_window_store.go:33-56 | its length is min(limit, entries no older than the last cutoff) |
| Resume.ClassifyPendingPatchIds | services/page-service/internal/usecase/resume_editor_sync.go:118-151 | replayed and missing are the selections of known and unknown ids |
| Resume.ClassificationIsOrderedPartition | services/page-service/internal/usecase/resume_editor_sync.go:118-151 | the two lists split the distinct trimmed ids, keep first-occurrence order, and missing means in neither window nor records |
| Resume.CanResumeWithoutReload | services/page-service/internal/usecase/resume_editor_sync.go:160-187 | the decision is the function that the two laws below characterise, with its early exits |
| Resume.ResumesAtHeadIff | services/page-service/internal/usecase/resume_editor_sync.go:160-166 | a client at the head resumes if and only if it has no token, or one of this page and revision |
| Resume.ResumesBelowHeadIff | services/page-service/internal/usecase/resume_editor_sync.go:168-187 | any other client resumes if and only if it has a token of this page and its revision, the window has an entry above that revision, and each such entry is a patch it waits for |
| Resume.TokenResumes | services/page-service/internal/usecase/resume_editor_sync.go:70-116 | round trip: the token of any answer, used while the head has not moved, lets the client resume |
| Resume.ResumeEditorSync | services/page-service/internal/usecase/resume_editor_sync.go:45-116 | resume or replace, what each answer carries, that resuming writes nothing, and what a reload leaves in the store even when it fails |
| Resume.ResumeIsSound | services/page-service/internal/usecase/resume_editor_sync.go:70-86 | for any window whose entries are true, with or without gaps: on resume all unseen revisions are the client's pending patches if and only if those without an entry are; so always when each unseen revision has its entry |
| Resume.ResumeOneAtATimeIsSound | services/page-service/internal/usecase/resume_editor_sync.go:70-86 | with requests one at a time the revisions without an entry are those before the window's first, and a window that reaches back to the client's revision suffices |
| Resume.UncoveredResumeIsUnsound | services/page-service/internal/usecase/resume_editor_sync.go:160-187 | a legal run with a window of one entry in which the client may resume although somebody else's autosave is among the revisions it has not seen |
| LateAppends.RunsKeepReplayInv | services/page-service/internal/usecase/commit_collaborative_revision.go:152-186 | with appends late, out of order or lost, in every state of every run each entry is true of its revision, and each revision but a first one has an entry that is in the window, due, lost or dropped |
| LateAppends.InterleavedResumeIsSound | services/page-service/internal/usecase/resume_editor_sync.go:70-86 | in every reachable state of the interleaved system a resume is sound if and only if the unseen revisions without an entry are the client's patches; so it is when no unseen revision's entry is due, lost or dropped |
| LateAppendExample.LateAppendMisleads | services/page-service/internal/usecase/autosave_draft.go:164-207 | for any window length above one, a legal run after which the window reaches back to the client's revision and the client may resume past somebody else's autosave, whose entry is still due |
| OutboxRelay.FlushOnce | pkg/messaging/outbox.go:76-109 | one flush settles the next min(batch, pending) records in insertion order while others arrive, marks as published exactly what was handed over, and keeps non-pending records a prefix |
| OutboxRelay.Deliver | pkg/messaging/outbox.go:83-105 | publish first, then mark the record by its id |
| SearchIndex.IndexStore.Consume | services/knowledge-graph-search-service/internal/usecase/project_page_events.go:22-95 | how one event changes the index; links of an unknown page or another workspace are ignored |
| SearchIndex.ProjectMeans | services/knowledge-graph-search-service/internal/usecase/project_page_events.go:22-95 | a search document replaces its page's entry field by field and its targets; extracted links replace the targets of a known page; any other event and page is left alone |
| SearchIndex.IndexStore.ReplacePageLinks | services/knowledge-graph-search-service/internal/adapters/memory/store.go:34-41 | replaces the targets of a known page of that workspace only |
| SearchIndex.IndexStore.GetBacklinks | services/knowledge-graph-search-service/internal/adapters/memory/store.go:93-115 | the loop finds exactly the other pages of the workspace that target the page |
| SearchIndex.RepeatedEventChangesNothing | services/knowledge-graph-search-service/internal/usecase/project_page_events.go:22-95 | delivering an event twice in a row is delivering it once |
| EndToEnd.RevisionEventsProject | services/page-service/internal/usecase/extract_links.go:10-66 | the events of a revision set its page's entry and targets, consistently, and touch no other page |
| EndToEnd.RunsKeepIndexOk | services/page-service/internal/usecase/extract_links.go:10-66 | along every run the outbox holds the events from which the index of all latest revisions is rebuilt |
| EndToEnd.RunsKeepRelayOk | pkg/messaging/outbox.go:76-109 | requests and relay steps in any order keep what a flush requires |
| EndToEnd.DrainedIndexAgrees | services/knowledge-graph-search-service/internal/adapters/memory/store.go:26-41 | after a drained outbox without failures each page has one entry: title and time of its latest revision, its texts in block order, the titles of its links and tables; its targets are the pages that revision links to, and backlinks are exactly the linking pages |
| DraftChain.AddedToChain | services/page-service/internal/adapters/memory/store.go:205-240 | put after its equals, a draft above the head extends the chain and a published one leaves it alone |
| DraftChain.AnySortingChains | services/page-service/internal/adapters/memory/store.go:214-218 | the same for every list that some sorting by number makes of the revisions, in whatever order it leaves equal numbers |
| DraftChain.RehydratedChain | services/page-service/internal/usecase/attach_file.go:23-43 | file names written in place are invisible to the chain |
| PageInterleaving.WriteExtendsChain | services/page-service/internal/adapters/memory/store.go:205-252 | an accepted write from stale copies appends its draft on the head of that moment, or nothing |
| PageInterleaving.SaveAppends | services/page-service/internal/usecase/autosave_draft.go:108-183 | an accepted save appends one draft whose base is the preceding draft head |
| PageInterleaving.CommitAppends | services/page-service/internal/usecase/commit_collaborative_revision.go:100-193 | an accepted commit appends the patched head, whatever happened since the room was read |
| PageInterleaving.RestoreKeepsInv | services/page-service/internal/usecase/restore_revision.go:61-127 | a restore from stale copies appends the target's document on the head of that moment |
| PageInterleaving.LostRaceMeans | services/page-service/internal/usecase/commit_collaborative_revision.go:167-173 | a planned write that comes too late changes nothing; a commit is told the head of its copy, a restore that it was stale, any other reads the present head |
| PageInterleaving.ConflictMeans | services/page-service/internal/usecase/autosave_draft.go:213-224 | a conflict is answered with number, id and document of the draft head of that moment |
| PageInterleaving.WriteProjects | services/page-service/internal/adapters/memory/store.go:258-280 | a new revision is projected exactly, wherever it is put in the list, and no other revision's tables change |
| PageInterleaving.PageStepKeepsInv | services/page-service/internal/usecase/autosave_draft.go:69-183 | any step of any request keeps chains, records, exact projections and the request's own copies right, and loses no record |
| Collaboration.RoomKeysAreInjective | services/collaboration-service/internal/domain/session.go:192-194 | rooms of different workspaces or pages have different keys when page ids contain no ':' |
| CollaborationSafety.RecordedCommit | services/page-service/internal/usecase/commit_collaborative_revision.go:68-80 | a commit found recorded is answered with the draft that shows the room's patched document |
| CollaborationSafety.CommitStepAnswers | services/collaboration-service/internal/usecase/submit_patch.go:104-156 | accepted means the patched room is on the chain; aborted means the head is above the base |
| CollaborationSafety.LockedRoomWaits | services/collaboration-service/internal/usecase/submit_patch.go:39-47 | a submit whose room is locked changes nothing; otherwise it takes the lock and goes on |
| CollaborationSafety.CrashMeans | services/collaboration-service/internal/usecase/submit_patch.go:104-125 | a call that dies gives its lock back and sends nothing; a commit it had sent goes on where it was |
| CollaborationSafety.ActionKeepsInv | services/collaboration-service/internal/usecase/submit_patch.go:39-188 | every action of every call keeps store, rooms, local copies and messages right |
| CollaborationGuarantees.RunsKeepSystemInv | services/collaboration-service/internal/usecase/session_lifecycle.go:41-168 | in every reachable state each room, fetched head and payload is some committed draft |
| CollaborationGuarantees.RunsOnlyGrow | services/page-service/internal/adapters/memory/store.go:205-252 | over any interleaving chains only gain drafts at the end, heads only rise and no idempotency record is lost |
| CollaborationGuarantees.LeftBaseNeverReturns | services/page-service/internal/adapters/memory/store.go:210-212 | a base number the head has left is never the head again |
| CollaborationGuarantees.OneDraftPerBase | services/page-service/internal/adapters/memory/store.go:205-223 | two actions of a run that save a draft of a page on one base number, by autosave, commit or restore, are the same action |
| CollaborationGuarantees.DraftsAreLinked | services/page-service/internal/usecase/commit_collaborative_revision.go:111-122 | each draft is based on the draft right before it and numbered above it |
| CollaborationGuarantees.PublishKeepsDrafts | services/page-service/internal/usecase/publish_page.go:89-121 | publishing never moves a draft head or adds a draft |
| CollaborationGuarantees.ArchiveKeepsDrafts | services/page-service/internal/usecase/archive_page.go:75-90 | archiving never moves a draft head or adds a draft |
| CollaborationGuarantees.StaleWriteInSystem | services/page-service/internal/adapters/memory/store.go:205-252 | with any calls in flight, a planned write lands if and only if no draft was saved since its request read the page; it then puts that copy back except for the head or status it is about, so another publication is lost exactly if the copy has another published head |
| CollaborationGuarantees.CommitNeverOverwrites | services/collaboration-service/internal/usecase/submit_patch.go:104-156 | a commit step saves nothing, or one draft by the submitting actor on the current head, showing that head's document patched, recorded under its patch id |
| CollaborationGuarantees.RoomsAreNeverWrong | services/collaboration-service/internal/usecase/submit_patch.go:127-155 | the room under a page's key is some draft of that page |
| CollaborationGuarantees.MessagesStayTrue | services/collaboration-service/internal/usecase/session_lifecycle.go:58-104 | whatever a client was sent stays true of the chain |
| CollaborationGuarantees.AbortedReportsNewer | services/collaboration-service/internal/usecase/submit_patch.go:115-146 | after an aborted commit the stored and reported head is strictly above the base |
| CollaborationGuarantees.PatchesAreAcceptedOnce | services/collaboration-service/internal/usecase/submit_patch.go:150-165 | two accepted answers for one patch id or one base name the same draft |
| CollaborationGuarantees.RecordsNeverChange | services/page-service/internal/usecase/commit_collaborative_revision.go:140-149 | a recorded patch id stays recorded and names the same draft at all times |
| CollaborationGuarantees.SavedCommitStays | services/page-service/internal/usecase/commit_collaborative_revision.go:140-193 | the step in which a commit saves its draft records the patch id, and draft and record stay for the rest of the run |
| CollaborationGuarantees.LostRoomIsRecovered | services/collaboration-service/internal/usecase/submit_patch.go:104-156 | once a commit saved its draft, whatever became of the submit and whatever else ran, submitting the patch again on that base changes nothing in the store and leaves the room showing that draft |
| CollaborationGuarantees.ResubmitRecovers | services/collaboration-service/internal/usecase/submit_patch.go:104-156 | in any reachable state, a submit whose patch id is recorded changes nothing in the store and leaves the room at the recorded draft |
| CollaborationGuarantees.ReplayEqualsState | services/collaboration-service/internal/usecase/submit_patch.go:150-165 | accepted patches applied to a joined document in number order give the page service's document after each |
| CollaborationGuarantees.ReusedPatchIdIsRightIff | services/page-service/internal/usecase/commit_collaborative_revision.go:68-80 | a reused patch id leaves a right room if and only if its operations lead to the recorded document |
| ReusedPatchId.ReusedIdLeavesWrongRoom | services/collaboration-service/internal/usecase/submit_patch.go:87-156 | two concrete patches under one id: the second submit leaves the store alone, and a room under the first one's draft whose document was never a draft |
| CollaborationGuarantees.SubmitsExcludeEachOther | services/collaboration-service/internal/usecase/submit_patch.go:40-43 | two submits never hold the same room's lock |
| Uninterrupted.SaveAloneIsSave | services/page-service/internal/usecase/commit_collaborative_revision.go:50-193 | the steps of a save, run alone, are the atomic use case |
| Uninterrupted.PublishAloneIsPublish | services/page-service/internal/usecase/publish_page.go:37-154 | the steps of publishing, run alone, are the atomic use case |
| Uninterrupted.RestoreAloneIsRestore | services/page-service/internal/usecase/restore_revision.go:39-142 | the steps of restoring, run alone, are the atomic use case |
| Uninterrupted.ArchiveAloneIsArchive | services/page-service/internal/usecase/archive_page.go:35-114 | the steps of archiving, run alone, are the atomic use case |
| RoomService.RoomStateStore.Get | services/collaboration-service/internal/adapters/memory/store.go:21-30 | an expired room is not found |
| RoomService.PresenceStore.Upsert | services/collaboration-service/internal/adapters/memory/store.go:58-68 | a session counts as present until its time to live has passed |
| RoomService.PresenceStore.Touch | services/collaboration-service/internal/adapters/memory/store.go:70-85 | only a known session is prolonged |
| RoomService.PresenceStore.Remove | services/collaboration-service/internal/adapters/memory/store.go:87-98 | removes one session of one room |
| RoomService.PresenceStore.List | services/collaboration-service/internal/adapters/memory/store.go:100-118 | lists exactly who is present and forgets who is not, in one pass |
| RoomService.CollaborationService.SubmitPatch | services/collaboration-service/internal/usecase/submit_patch.go:39-166 | an uninterrupted submit is a run of the system's steps, with its answer and its room |
| RoomService.DecideMeans | services/collaboration-service/internal/usecase/submit_patch.go:64-102 | a submit is rejected if its session is unknown or its patch does not apply, told to rebase if the room is not at its base, and otherwise commits the patched room |
| RoomService.AnsweredMeans | services/collaboration-service/internal/usecase/submit_patch.go:104-156 | an accepted commit goes on to its room, one that must rebase to the newer head, any other ends the call |
| RoomService.CollaborationService.Reload | services/collaboration-service/internal/usecase/submit_patch.go:168-188 | the fetched head becomes the room |
| RoomService.CollaborationService.Join | services/collaboration-service/internal/usecase/session_lifecycle.go:41-105 | an uninterrupted join is a run of the system's steps; a joined session is present |
| RoomService.CollaborationService.RefreshExistingRoom | services/collaboration-service/internal/usecase/session_lifecycle.go:150-168 | an uninterrupted refresh is a run of the system's steps, and the room then lives as long as asked, else as long as before, else 45 seconds |
| RoomService.CallAloneKeepsInv | services/collaboration-service/internal/usecase/submit_patch.go:39-166 | so what holds of every interleaving holds of the methods |

## Left out

- Transport (HTTP, gRPC, WebSocket, NATS), the Postgres, Redis and MinIO adapters, routers, `main` functions and metrics: input and output only.
- Authorisation and authentication: requests are assumed authorised.
- JSON and the base64url text of resume tokens: values are taken as decoded; a patch value of the wrong shape is a separate case; a token that cannot be decoded is no token.
- The random ids of projection rows: rows are compared without them.
- 64-bit overflow of revision numbers, and the document hash.
- The external table service: a table either resolves or not (`UseCases.Env`), live descriptors appear in no answer, and `resume` and page loads are modelled with degraded descriptors.
- PageServiceRun.PageService.SaveSnapshot: the answer names the saved revision; its document with live descriptors is not in it.
- PageServiceRun.PageService.WriteSnapshot: the same.
- PageServiceRun.PageService.RestoreRevision: the same.
- Resume.ResumeEditorSync: a reload shows degraded descriptors only.
- Documents.ResolveDegraded: covers the service without a resolver; with one, each descriptor is whatever the table service answers.
- PageServiceRun.PageService.GetRevisionHead: the slice that the store shares with readers is modelled as an explicit write back of the blocks.
- PageServiceRun.PageService.CreatePage: the slug is taken as normalised already, and the answer names the page and its revision without the page view.
- PageServiceRun.PageService.GetPage: the page record and the list of descriptors beside the document are not in the answer.
- PageStore.Store.AppendSorted: `sort.Slice` is not stable; the model leaves equal numbers in the order they were written. Draft chains do not depend on it (`DraftChain.AnySortingChains`).
- DraftChain.AddedToChain: the same.
- Guarantees.StaleWriteInRuns: one request is interleaved with a run in which the others are single steps; for all requests interleaved see `CollaborationGuarantees.StaleWriteInSystem`, which is about the page record and not about the numbers of the whole history.
- Concurrent readers during hydration: the pass over a shared slice is one step; it only changes file names, in the draft or in the published head.
- OutboxRelay.FlushOnce: a publish succeeds and hands the event over once, or gives up; retries, their timing and duplicate deliveries are not modelled. A failed record is never claimed again, as in the code.
- Runs.RunsKeepWindowsOk: the append is one step with its write and taken to succeed; `LateAppends` is about late and lost ones.
- SearchIndex.IndexStore.GetBacklinks: backlinks are a set of page ids, because sorting by title is not stable; related pages, search ranking and snippets are not modelled.
- RoomService.CollaborationService.SubmitPatch: one instant stands for the clock readings of a call, the last patch id kept in the room is not modelled, and the lock is modelled in `Collaboration` only.
- RoomService.PresenceStore.List: cursors, selections and display names of members are not modelled.
- File uploads, the editor catalogue and version lists: they write nothing that is modelled here. Draft recovery reads the draft as a page load does.
