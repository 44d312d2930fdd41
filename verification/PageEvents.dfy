/**
 The events a stored revision leaves in the outbox, and the records that carry them. One head
 event carries the search document; two reference events carry the links and the attachments.
 Their order and payloads are functions of the page record and the revision, which the
 builders are proved to compute from the references they were handed.
 */
module PageEvents {
  import opened Wrappers
  import Text
  import opened Documents
  import opened PageStore

  /** Ids drawn for the records of one write. */
  type RecordIds = ids: seq<string> | |ids| == 4 witness ["", "", "", ""]

  function OriginOf(r: Revision): Origin {
    Origin(r.pageId, r.id, r.createdAt)
  }

  function RevisionReferences(r: Revision): References {
    ReferencesOf(r.document.blocks, OriginOf(r))
  }

  // ------------------------------------------------------------------- specification

  function CanonicalLinksOfFirst(bs: seq<Block>, links: seq<LinkRef>, n: nat): seq<CanonicalLink>
    requires n <= |links|
  {
    if n == 0 then []
    else
      CanonicalLinksOfFirst(bs, links, n - 1)
      + [CanonicalLink(links[n - 1].targetPageId, links[n - 1].blockId, LinkTitle(bs, links[n - 1].blockId))]
  }

  function TablesOfFirst(bs: seq<Block>, embeds: seq<EmbedRef>, n: nat): seq<EmbeddedTable>
    requires n <= |embeds|
  {
    if n == 0 then []
    else
      TablesOfFirst(bs, embeds, n - 1)
      + [EmbeddedTable(embeds[n - 1].tableId, embeds[n - 1].blockId, EmbedTitle(bs, embeds[n - 1].blockId))]
  }

  /** The non-empty titles of the first n embedded tables, in order. */
  function EmbedTitlesOfFirst(bs: seq<Block>, embeds: seq<EmbedRef>, n: nat): seq<string>
    requires n <= |embeds|
  {
    if n == 0 then []
    else EmbedTitlesOfFirst(bs, embeds, n - 1) + NonEmpty(EmbedTitle(bs, embeds[n - 1].blockId))
  }

  function FileIdsOfFirst(attachments: seq<AttachmentRef>, n: nat): seq<string>
    requires n <= |attachments|
  {
    if n == 0 then [] else FileIdsOfFirst(attachments, n - 1) + [attachments[n - 1].fileId]
  }

  function FileIds(attachments: seq<AttachmentRef>): seq<string> {
    FileIdsOfFirst(attachments, |attachments|)
  }

  /** The search payload of a revision of a page. */
  function SearchDocumentOf(pageId: string, workspaceId: string, r: Revision): SearchDocument {
    var bs, refs := r.document.blocks, RevisionReferences(r);
    SearchDocument(pageId, workspaceId, r.no, r.id, r.title, CanonicalLinksOfFirst(bs, refs.links, |refs.links|),
                   TablesOfFirst(bs, refs.embeds, |refs.embeds|), EmbedTitlesOfFirst(bs, refs.embeds, |refs.embeds|),
                   FileIds(refs.attachments), SearchableText(bs), r.createdAt)
  }

  function HeadEvent(page: Page, r: Revision): Event {
    if r.kind == DraftKind then DraftSaved(SearchDocumentOf(page.id, page.workspaceId, r), r.via)
    else PagePublished(SearchDocumentOf(page.id, page.workspaceId, r))
  }

  function ReferenceEvents(page: Page, r: Revision): seq<Event> {
    [LinksExtracted(page.id, page.workspaceId, r.id, RevisionReferences(r).links),
     AttachmentsChanged(page.id, page.workspaceId, r.id, FileIds(RevisionReferences(r).attachments))]
  }

  /** The events of a saved, restored or published revision. */
  function RevisionEvents(page: Page, r: Revision): seq<Event> {
    [HeadEvent(page, r)] + ReferenceEvents(page, r)
  }

  function CreatedEvent(page: Page, r: Revision): Event {
    PageCreated(page.id, page.workspaceId, page.title, r.no, r.id, page.status)
  }

  function ArchivedEvent(page: Page): Event {
    PageArchived(page.id, page.workspaceId, page.status, page.draftNo, page.draftId, page.updatedAt)
  }

  function PendingRecord(id: string, pageId: string, e: Event, now: int): OutboxRecord {
    OutboxRecord(id, pageId, e, Pending, now, now)
  }

  function Records(ids: RecordIds, pageId: string, events: seq<Event>, now: int): (r: seq<OutboxRecord>)
    requires |events| <= 4
    ensures |r| == |events|
    ensures forall i :: 0 <= i < |r| ==> r[i] == PendingRecord(ids[i], pageId, events[i], now)
    ensures forall i :: 0 <= i < |r| ==> r[i] == OutboxRecord(ids[i], pageId, events[i], Pending, now, now)
  {
    seq(|events|, i requires 0 <= i < |events| => PendingRecord(ids[i], pageId, events[i], now))
  }

  /** The events of the outbox, in insertion order. */
  function Events(outbox: seq<OutboxRecord>): (r: seq<Event>)
    ensures |r| == |outbox|
    ensures forall i :: 0 <= i < |r| ==> r[i] == outbox[i].event
  {
    seq(|outbox|, i requires 0 <= i < |outbox| => outbox[i].event)
  }

  // ------------------------------------------------------------------- what the events tell

  /** The titles looked up for the blocks that the references come from. */
  function TitlesOf(bs: seq<Block>, embeds: seq<EmbedRef>): seq<string> {
    if embeds == [] then [] else [EmbedTitle(bs, embeds[0].blockId)] + TitlesOf(bs, embeds[1..])
  }

  /** The payload tells the revision's number, id, title, time, text, links, tables and files. */
  ghost predicate DocumentTells(d: SearchDocument, pageId: string, workspaceId: string, r: Revision) {
    var bs, refs := r.document.blocks, ReferencesOf(r.document.blocks, Origin(r.pageId, r.id, r.createdAt));
    && d.pageId == pageId && d.workspaceId == workspaceId && d.revisionNo == r.no && d.revisionId == r.id
    && d.title == r.title && d.updatedAt == r.createdAt && d.text == Text.Join(Filled(AllTexts(bs)), " ")
    && LinksTold(d.links, bs, refs.links) && TablesTold(d.tables, bs, refs.embeds)
    && d.embedTitles == Filled(TitlesOf(bs, refs.embeds)) && FilesTold(d.attachmentIds, refs.attachments)
  }

  ghost predicate LinksTold(links: seq<CanonicalLink>, bs: seq<Block>, refs: seq<LinkRef>) {
    |links| == |refs| && forall i :: 0 <= i < |refs| ==>
      && links[i].targetPageId == refs[i].targetPageId && links[i].blockId == refs[i].blockId
      && links[i].targetTitle == LinkTitle(bs, refs[i].blockId)
  }

  ghost predicate TablesTold(tables: seq<EmbeddedTable>, bs: seq<Block>, refs: seq<EmbedRef>) {
    |tables| == |refs| && forall i :: 0 <= i < |refs| ==>
      && tables[i].tableId == refs[i].tableId && tables[i].blockId == refs[i].blockId
      && tables[i].title == EmbedTitle(bs, refs[i].blockId)
  }

  ghost predicate FilesTold(ids: seq<string>, refs: seq<AttachmentRef>) {
    |ids| == |refs| && forall i :: 0 <= i < |refs| ==> ids[i] == refs[i].fileId
  }

  lemma {:induction false} LinksAreTold(bs: seq<Block>, refs: seq<LinkRef>, n: nat)
    requires n <= |refs|
    ensures LinksTold(CanonicalLinksOfFirst(bs, refs, n), bs, refs[..n])
    decreases n
  {
    if n > 0 {
      LinksAreTold(bs, refs, n - 1);
    }
  }

  lemma {:induction false} TablesAreTold(bs: seq<Block>, refs: seq<EmbedRef>, n: nat)
    requires n <= |refs|
    ensures TablesTold(TablesOfFirst(bs, refs, n), bs, refs[..n])
    decreases n
  {
    if n > 0 {
      TablesAreTold(bs, refs, n - 1);
    }
  }

  lemma {:induction false} FilesAreTold(refs: seq<AttachmentRef>, n: nat)
    requires n <= |refs|
    ensures FilesTold(FileIdsOfFirst(refs, n), refs[..n])
    decreases n
  {
    if n > 0 {
      FilesAreTold(refs, n - 1);
    }
  }

  lemma {:induction false} TitlesOfConcat(bs: seq<Block>, xs: seq<EmbedRef>, ys: seq<EmbedRef>)
    ensures TitlesOf(bs, xs + ys) == TitlesOf(bs, xs) + TitlesOf(bs, ys)
    decreases |xs|
  {
    if xs == [] {
      assert xs + ys == ys;
    } else {
      TitlesOfConcat(bs, xs[1..], ys);
      assert (xs + ys)[1..] == xs[1..] + ys;
    }
  }

  lemma {:induction false} TitlesAreFilled(bs: seq<Block>, refs: seq<EmbedRef>, n: nat)
    requires n <= |refs|
    ensures EmbedTitlesOfFirst(bs, refs, n) == Filled(TitlesOf(bs, refs[..n]))
    decreases n
  {
    if n > 0 {
      TitlesAreFilled(bs, refs, n - 1);
      assert refs[..n] == refs[..n - 1] + [refs[n - 1]];
      TitlesOfConcat(bs, refs[..n - 1], [refs[n - 1]]);
      assert TitlesOf(bs, [refs[n - 1]]) == [EmbedTitle(bs, refs[n - 1].blockId)];
      FilledConcat(TitlesOf(bs, refs[..n - 1]), [EmbedTitle(bs, refs[n - 1].blockId)]);
      FilledOne(EmbedTitle(bs, refs[n - 1].blockId));
    }
  }

  lemma SearchDocumentTells(pageId: string, workspaceId: string, r: Revision)
    ensures DocumentTells(SearchDocumentOf(pageId, workspaceId, r), pageId, workspaceId, r)
  {
    var bs, refs := r.document.blocks, RevisionReferences(r);
    LinksAreTold(bs, refs.links, |refs.links|);
    TablesAreTold(bs, refs.embeds, |refs.embeds|);
    FilesAreTold(refs.attachments, |refs.attachments|);
    TitlesAreFilled(bs, refs.embeds, |refs.embeds|);
    SearchableTextMeans(bs);
    assert refs.links[..|refs.links|] == refs.links && refs.embeds[..|refs.embeds|] == refs.embeds;
    assert refs.attachments[..|refs.attachments|] == refs.attachments;
  }

  /** A saved draft says so and how it was saved, a publication that it is one; then links and files follow. */
  lemma RevisionEventsTell(page: Page, r: Revision)
    ensures var events := RevisionEvents(page, r);
            var refs := ReferencesOf(r.document.blocks, Origin(r.pageId, r.id, r.createdAt));
            && |events| == 3
            && (r.kind == DraftKind ==> events[0].DraftSaved? && events[0].via == r.via)
            && (r.kind == PublishedKind ==> events[0].PagePublished?)
            && (events[0].DraftSaved? || events[0].PagePublished?)
            && DocumentTells(events[0].document, page.id, page.workspaceId, r)
            && events[1] == LinksExtracted(page.id, page.workspaceId, r.id, refs.links)
            && events[2].AttachmentsChanged? && events[2].pageId == page.id && events[2].workspaceId == page.workspaceId
            && events[2].revisionId == r.id && FilesTold(events[2].attachmentIds, refs.attachments)
  {
    SearchDocumentTells(page.id, page.workspaceId, r);
    FilesAreTold(RevisionReferences(r).attachments, |RevisionReferences(r).attachments|);
    assert RevisionReferences(r).attachments[..|RevisionReferences(r).attachments|] == RevisionReferences(r).attachments;
  }

  // ------------------------------------------------------------------------- builders

  method TitleOfLinkedBlock(bs: seq<Block>, id: string) returns (title: string)
    ensures title == LinkTitle(bs, id)
  {
    title := "";
    for i := 0 to |bs|
      invariant LinkTitle(bs, id) == LinkTitle(bs[i..], id)
    {
      if bs[i].id == id && bs[i].link.Some? {
        return bs[i].link.value.title;
      }
    }
  }

  method BuildCanonicalLinks(bs: seq<Block>, links: seq<LinkRef>) returns (r: seq<CanonicalLink>)
    ensures r == CanonicalLinksOfFirst(bs, links, |links|)
  {
    r := [];
    for i := 0 to |links|
      invariant r == CanonicalLinksOfFirst(bs, links, i)
    {
      var title := TitleOfLinkedBlock(bs, links[i].blockId);
      r := r + [CanonicalLink(links[i].targetPageId, links[i].blockId, title)];
    }
  }

  method BuildEmbeddedTables(bs: seq<Block>, embeds: seq<EmbedRef>)
    returns (tables: seq<EmbeddedTable>, titles: seq<string>)
    ensures tables == TablesOfFirst(bs, embeds, |embeds|)
    ensures titles == EmbedTitlesOfFirst(bs, embeds, |embeds|)
  {
    tables, titles := [], [];
    for i := 0 to |embeds|
      invariant tables == TablesOfFirst(bs, embeds, i)
      invariant titles == EmbedTitlesOfFirst(bs, embeds, i)
    {
      var title := EmbedTitleByBlockId(bs, embeds[i].blockId);
      tables := tables + [EmbeddedTable(embeds[i].tableId, embeds[i].blockId, title)];
      if title != "" {
        titles := titles + [title];
      }
    }
  }

  method BuildFileIds(attachments: seq<AttachmentRef>) returns (r: seq<string>)
    ensures r == FileIds(attachments)
  {
    r := [];
    for i := 0 to |attachments|
      invariant r == FileIdsOfFirst(attachments, i)
    {
      r := r + [attachments[i].fileId];
    }
  }

  method BuildSearchDocument(page: Page, revision: Revision, refs: References) returns (d: SearchDocument)
    requires refs == RevisionReferences(revision)
    ensures d == SearchDocumentOf(page.id, page.workspaceId, revision)
  {
    var bs := revision.document.blocks;
    var tables, titles := BuildEmbeddedTables(bs, refs.embeds);
    var fileIds := BuildFileIds(refs.attachments);
    var links := BuildCanonicalLinks(bs, refs.links);
    var text := FlattenSearchableText(bs);
    d := SearchDocument(page.id, page.workspaceId, revision.no, revision.id, revision.title, links, tables, titles,
                        fileIds, text, revision.createdAt);
  }

  /** `buildDraftSavedEvent` or `buildPublishedEvent`, followed by `buildReferenceEvents`. */
  method BuildRevisionRecords(ids: RecordIds, page: Page, revision: Revision, refs: References, now: int)
    returns (records: seq<OutboxRecord>)
    requires refs == RevisionReferences(revision)
    ensures records == Records(ids, page.id, RevisionEvents(page, revision), now)
  {
    var document := BuildSearchDocument(page, revision, refs);
    var fileIds := BuildFileIds(refs.attachments);
    var head := if revision.kind == DraftKind then DraftSaved(document, revision.via) else PagePublished(document);
    records := [PendingRecord(ids[0], page.id, head, now),
                PendingRecord(ids[1], page.id, LinksExtracted(page.id, page.workspaceId, revision.id, refs.links), now),
                PendingRecord(ids[2], page.id, AttachmentsChanged(page.id, page.workspaceId, revision.id, fileIds), now)];
  }

  /** `buildCreateEvents` followed by `buildReferenceEvents`. */
  method BuildCreateRecords(ids: RecordIds, page: Page, revision: Revision, refs: References, now: int)
    returns (records: seq<OutboxRecord>)
    requires refs == RevisionReferences(revision) && revision.kind == DraftKind
    ensures records == Records(ids, page.id, [CreatedEvent(page, revision)] + RevisionEvents(page, revision), now)
  {
    var document := BuildSearchDocument(page, revision, refs);
    var fileIds := BuildFileIds(refs.attachments);
    records := [PendingRecord(ids[0], page.id, CreatedEvent(page, revision), now),
                PendingRecord(ids[1], page.id, DraftSaved(document, revision.via), now),
                PendingRecord(ids[2], page.id, LinksExtracted(page.id, page.workspaceId, revision.id, refs.links), now),
                PendingRecord(ids[3], page.id, AttachmentsChanged(page.id, page.workspaceId, revision.id, fileIds), now)];
  }
}
