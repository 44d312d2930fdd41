/**
 The page service's store. `State` and the functions on it are the specification; class
 `Store` is the in-memory adapter.
 */
module PageStore {
  import opened Wrappers
  import opened Sequences
  import opened Documents

  datatype Status = DraftStatus | PublishedStatus | ArchivedStatus
  datatype Kind = DraftKind | PublishedKind
  datatype Source = SavedByRest | SavedByPublish | SavedByRestore | SavedByPatch

  datatype Page = Page(
    id: string, workspaceId: string, slug: string, title: string, status: Status,
    createdBy: string, updatedBy: string,
    draftId: string, draftNo: int, publishedId: string, publishedNo: int,
    createdAt: int, updatedAt: int)

  datatype Revision = Revision(
    id: string, pageId: string, no: int, kind: Kind, baseId: string, restoredFrom: string,
    document: Document, title: string, createdBy: string, via: Source, createdAt: int)

  datatype IdempotencyRecord = IdempotencyRecord(
    pageId: string, key: string, revisionId: string, revisionNo: int, createdAt: int)

  datatype CanonicalLink = CanonicalLink(targetPageId: string, blockId: string, targetTitle: string)
  datatype EmbeddedTable = EmbeddedTable(tableId: string, blockId: string, title: string)

  /** The payload shared by `page.draft.saved` and `page.published`. */
  datatype SearchDocument = SearchDocument(
    pageId: string, workspaceId: string, revisionNo: int, revisionId: string, title: string,
    links: seq<CanonicalLink>, tables: seq<EmbeddedTable>, embedTitles: seq<string>,
    attachmentIds: seq<string>, text: string, updatedAt: int)

  datatype Event =
    | PageCreated(pageId: string, workspaceId: string, title: string, revisionNo: int, revisionId: string, status: Status)
    | DraftSaved(document: SearchDocument, via: Source)
    | PagePublished(document: SearchDocument)
    | LinksExtracted(pageId: string, workspaceId: string, revisionId: string, links: seq<LinkRef>)
    | AttachmentsChanged(pageId: string, workspaceId: string, revisionId: string, attachmentIds: seq<string>)
    | PageArchived(pageId: string, workspaceId: string, status: Status, revisionNo: int, revisionId: string, updatedAt: int)

  datatype OutboxStatus = Pending | Published | Failed

  datatype OutboxRecord = OutboxRecord(
    id: string, aggregateId: string, event: Event, status: OutboxStatus, createdAt: int, availableAt: int)

  datatype StoreError = NotFound | StaleRevision

  datatype State = State(
    pages: map<string, Page>,
    revisions: map<string, seq<Revision>>,
    embeds: map<string, seq<EmbedRef>>,
    attachments: map<string, seq<AttachmentRef>>,
    links: map<string, seq<LinkRef>>,
    idempotencies: map<string, IdempotencyRecord>,
    outbox: seq<OutboxRecord>)

  const EMPTY := State(map[], map[], map[], map[], map[], map[], [])

  // ------------------------------------------------------------------------------ reads

  function RevisionsOf(st: State, pageId: string): seq<Revision> {
    if pageId in st.revisions then st.revisions[pageId] else []
  }

  /** Index of the first of the revisions with that id, or the length. */
  function RevisionIndex(revs: seq<Revision>, id: string, from: nat := 0): (i: nat)
    requires from <= |revs|
    ensures from <= i <= |revs|
    ensures i < |revs| ==> revs[i].id == id
    ensures forall k :: from <= k < i ==> revs[k].id != id
    decreases |revs| - from
  {
    if from == |revs| || revs[from].id == id then from else RevisionIndex(revs, id, from + 1)
  }

  function RevisionById(st: State, pageId: string, id: string): Option<Revision> {
    var revs := RevisionsOf(st, pageId);
    var i := RevisionIndex(revs, id);
    if i < |revs| then Some(revs[i]) else None
  }

  /** Which revision a view of the page shows; a page never published shows its draft. */
  function ShownId(page: Page, view: Kind): string {
    if view == PublishedKind && page.publishedId != "" then page.publishedId else page.draftId
  }

  function HeadRevision(st: State, pageId: string, view: Kind): Option<Revision> {
    if pageId !in st.pages then None else RevisionById(st, pageId, ShownId(st.pages[pageId], view))
  }

  /** `idempotencyMapKey`. */
  function IdempotencyKey(pageId: string, key: string): string {
    pageId + "::" + key
  }

  lemma {:induction false} SplitAtSeparator(p: string, k: string, q: string, m: string)
    requires ':' !in p && ':' !in q && p + "::" + k == q + "::" + m
    ensures p == q && k == m
    decreases |p|
  {
    var whole := p + "::" + k;
    assert whole[|p|] == ':' && whole[|q|] == ':';
    assert |p| == |q|;
    assert p == whole[..|p|] && q == whole[..|q|];
    assert k == whole[|p| + 2..] && m == whole[|q| + 2..];
  }

  /**
   Records of different pages or keys never share a map key when page ids contain no ':';
   without that assumption two pages can collide.
   */
  lemma IdempotencyKeysAreInjective(p: string, k: string, q: string, m: string)
    ensures ':' !in p && ':' !in q && IdempotencyKey(p, k) == IdempotencyKey(q, m) ==> p == q && k == m
    ensures IdempotencyKey("a", "b::c") == IdempotencyKey("a::b", "c")
  {
    if ':' !in p && ':' !in q && IdempotencyKey(p, k) == IdempotencyKey(q, m) {
      SplitAtSeparator(p, k, q, m);
    }
    assert "a" + "::" + "b::c" == "a::b" + "::" + "c";
  }

  // ----------------------------------------------------------------------------- writes

  /** Where `sort.Slice` by number puts a revision appended to a sorted list. */
  function SortPosition(revs: seq<Revision>, n: nat, no: int): (k: nat)
    requires n <= |revs|
    ensures k <= n
    ensures forall i :: k <= i < n ==> revs[i].no > no
    ensures k > 0 ==> revs[k - 1].no <= no
  {
    if n == 0 || revs[n - 1].no <= no then n else SortPosition(revs, n - 1, no)
  }

  function AddSorted(revs: seq<Revision>, r: Revision): seq<Revision> {
    InsertAt(revs, SortPosition(revs, |revs|, r.no), r)
  }

  function PutPage(st: State, page: Page, revision: Revision): State {
    st.(pages := st.pages[page.id := page],
        revisions := st.revisions[page.id := AddSorted(RevisionsOf(st, page.id), revision)])
  }

  /** The compare-and-swap all conditional writes share: it looks at the draft number only. */
  function Guard(st: State, pageId: string, expectedNo: int): Option<StoreError> {
    if pageId !in st.pages then Some(NotFound)
    else if st.pages[pageId].draftNo != expectedNo then Some(StaleRevision)
    else None
  }

  function SaveDraft(st: State, expectedNo: int, page: Page, revision: Revision, record: Option<IdempotencyRecord>)
    : Result<State, StoreError>
  {
    match Guard(st, page.id, expectedNo)
    case Some(e) => Err(e)
    case None =>
      var saved := PutPage(st, page, revision);
      Ok(if record.Some? && record.value.key != ""
         then saved.(idempotencies := saved.idempotencies[IdempotencyKey(page.id, record.value.key) := record.value])
         else saved)
  }

  function SavePublished(st: State, expectedNo: int, page: Page, revision: Revision): Result<State, StoreError> {
    match Guard(st, page.id, expectedNo)
    case Some(e) => Err(e)
    case None => Ok(PutPage(st, page, revision))
  }

  function SaveArchived(st: State, expectedNo: int, page: Page): Result<State, StoreError> {
    match Guard(st, page.id, expectedNo)
    case Some(e) => Err(e)
    case None => Ok(st.(pages := st.pages[page.id := page]))
  }

  function PutReferences(st: State, revisionId: string, refs: References): State {
    st.(embeds := st.embeds[revisionId := refs.embeds],
        attachments := st.attachments[revisionId := refs.attachments],
        links := st.links[revisionId := refs.links])
  }

  function AddEvents(st: State, records: seq<OutboxRecord>): State {
    st.(outbox := st.outbox + records)
  }

  /** What one revision leaves in the store besides itself: its references and its events. */
  function WithTraces(saved: Result<State, StoreError>, revisionId: string, refs: References, records: seq<OutboxRecord>)
    : Result<State, StoreError>
  {
    match saved
    case Err(e) => Err(e)
    case Ok(st) => Ok(AddEvents(PutReferences(st, revisionId, refs), records))
  }

  // ----------------------------------------------------------------------------- outbox

  /** The pending ones of the first n records, in order. */
  function PendingOfFirst(outbox: seq<OutboxRecord>, n: nat): seq<OutboxRecord>
    requires n <= |outbox|
  {
    if n == 0 then []
    else PendingOfFirst(outbox, n - 1) + (if outbox[n - 1].status == Pending then [outbox[n - 1]] else [])
  }

  function PendingOf(outbox: seq<OutboxRecord>): seq<OutboxRecord> {
    PendingOfFirst(outbox, |outbox|)
  }

  lemma {:induction false} PendingPrefix(outbox: seq<OutboxRecord>, n: nat, m: nat)
    requires n <= m <= |outbox|
    ensures PendingOfFirst(outbox, n) <= PendingOfFirst(outbox, m)
    decreases m
  {
    if n < m {
      PendingPrefix(outbox, n, m - 1);
    }
  }

  /** How many messages one claim returns at most: a batch size of zero still claims one. */
  function ClaimSize(batchSize: nat): nat {
    if batchSize == 0 then 1 else batchSize
  }

  /** Index of the first record with that id, or the length. */
  function RecordIndex(outbox: seq<OutboxRecord>, id: string, from: nat := 0): (i: nat)
    requires from <= |outbox|
    ensures from <= i <= |outbox|
    ensures i < |outbox| ==> outbox[i].id == id
    ensures forall k :: from <= k < i ==> outbox[k].id != id
    decreases |outbox| - from
  {
    if from == |outbox| || outbox[from].id == id then from else RecordIndex(outbox, id, from + 1)
  }

  function Mark(outbox: seq<OutboxRecord>, id: string, status: OutboxStatus, at: int): seq<OutboxRecord> {
    var i := RecordIndex(outbox, id);
    if i < |outbox| then outbox[i := outbox[i].(status := status, availableAt := at)] else outbox
  }

  // ----------------------------------------------------------------------- the adapter

  class Store {
    var pages: map<string, Page>
    var revisions: map<string, seq<Revision>>
    var embeds: map<string, seq<EmbedRef>>
    var attachments: map<string, seq<AttachmentRef>>
    var links: map<string, seq<LinkRef>>
    var idempotencies: map<string, IdempotencyRecord>
    var outbox: seq<OutboxRecord>

    ghost function Snapshot(): State
      reads this
    {
      State(pages, revisions, embeds, attachments, links, idempotencies, outbox)
    }

    constructor ()
      ensures Snapshot() == EMPTY
    {
      pages, revisions, embeds, attachments, links := map[], map[], map[], map[], map[];
      idempotencies, outbox := map[], [];
    }

    method GetPage(pageId: string) returns (page: Option<Page>)
      ensures page == if pageId in pages then Some(pages[pageId]) else None
    {
      page := if pageId in pages then Some(pages[pageId]) else None;
    }

    method GetRevisionById(pageId: string, id: string) returns (revision: Option<Revision>)
      ensures revision == RevisionById(Snapshot(), pageId, id)
    {
      var revs := if pageId in revisions then revisions[pageId] else [];
      for i := 0 to |revs|
        invariant RevisionIndex(revs, id) == RevisionIndex(revs, id, i)
      {
        if revs[i].id == id {
          return Some(revs[i]);
        }
      }
      return None;
    }

    method GetRevision(pageId: string, view: Kind) returns (revision: Option<Revision>)
      ensures revision == HeadRevision(Snapshot(), pageId, view)
    {
      if pageId !in revisions || |revisions[pageId]| == 0 {
        return None;
      }
      if pageId !in pages {
        return None;
      }
      var targetId := pages[pageId].draftId;
      if view == PublishedKind && pages[pageId].publishedId != "" {
        targetId := pages[pageId].publishedId;
      }
      revision := GetRevisionById(pageId, targetId);
    }

    method GetDraftIdempotency(pageId: string, key: string) returns (record: Option<IdempotencyRecord>)
      ensures record == if IdempotencyKey(pageId, key) in idempotencies
                        then Some(idempotencies[IdempotencyKey(pageId, key)]) else None
    {
      var k := pageId + "::" + key;
      record := if k in idempotencies then Some(idempotencies[k]) else None;
    }

    /** Appends the revision and moves it left past every higher number. */
    method AppendSorted(pageId: string, revision: Revision) returns (sorted: seq<Revision>)
      ensures sorted == AddSorted(RevisionsOf(Snapshot(), pageId), revision)
    {
      var revs := if pageId in revisions then revisions[pageId] else [];
      var k: nat := |revs|;
      while k > 0 && revs[k - 1].no > revision.no
        invariant k <= |revs|
        invariant SortPosition(revs, |revs|, revision.no) == SortPosition(revs, k, revision.no)
      {
        k := k - 1;
      }
      sorted := revs[..k] + [revision] + revs[k..];
    }

    method CreatePage(page: Page, revision: Revision)
      modifies this
      ensures Snapshot() == PutPage(old(Snapshot()), page, revision)
    {
      var sorted := AppendSorted(page.id, revision);
      pages := pages[page.id := page];
      revisions := revisions[page.id := sorted];
    }

    method SaveDraftRevision(expectedNo: int, page: Page, revision: Revision, record: Option<IdempotencyRecord>)
      returns (error: Option<StoreError>)
      modifies this
      ensures match SaveDraft(old(Snapshot()), expectedNo, page, revision, record)
              case Ok(st) => error == None && Snapshot() == st
              case Err(e) => error == Some(e) && Snapshot() == old(Snapshot())
    {
      if page.id !in pages {
        return Some(NotFound);
      }
      if pages[page.id].draftNo != expectedNo {
        return Some(StaleRevision);
      }
      var sorted := AppendSorted(page.id, revision);
      pages := pages[page.id := page];
      revisions := revisions[page.id := sorted];
      if record.Some? && record.value.key != "" {
        idempotencies := idempotencies[page.id + "::" + record.value.key := record.value];
      }
      return None;
    }

    method SavePublishedRevision(expectedNo: int, page: Page, revision: Revision) returns (error: Option<StoreError>)
      modifies this
      ensures match SavePublished(old(Snapshot()), expectedNo, page, revision)
              case Ok(st) => error == None && Snapshot() == st
              case Err(e) => error == Some(e) && Snapshot() == old(Snapshot())
    {
      if page.id !in pages {
        return Some(NotFound);
      }
      if pages[page.id].draftNo != expectedNo {
        return Some(StaleRevision);
      }
      var sorted := AppendSorted(page.id, revision);
      pages := pages[page.id := page];
      revisions := revisions[page.id := sorted];
      return None;
    }

    method ArchivePage(expectedNo: int, page: Page) returns (error: Option<StoreError>)
      modifies this
      ensures match SaveArchived(old(Snapshot()), expectedNo, page)
              case Ok(st) => error == None && Snapshot() == st
              case Err(e) => error == Some(e) && Snapshot() == old(Snapshot())
    {
      if page.id !in pages {
        return Some(NotFound);
      }
      if pages[page.id].draftNo != expectedNo {
        return Some(StaleRevision);
      }
      pages := pages[page.id := page];
      return None;
    }

    /** A write through the block slice that the store shares with the readers of a revision. */
    method OverwriteBlocks(pageId: string, revisionId: string, blocks: seq<Block>)
      requires RevisionById(Snapshot(), pageId, revisionId).Some?
      modifies this`revisions
      ensures var revs := old(RevisionsOf(Snapshot(), pageId));
              var i := RevisionIndex(revs, revisionId);
              revisions == old(revisions)[pageId := revs[i := revs[i].(document := revs[i].document.(blocks := blocks))]]
    {
      var revs := revisions[pageId];
      for i := 0 to |revs|
        invariant revisions == old(revisions)
        invariant RevisionIndex(revs, revisionId) == RevisionIndex(revs, revisionId, i)
      {
        if revs[i].id == revisionId {
          revisions := revisions[pageId := revs[i := revs[i].(document := revs[i].document.(blocks := blocks))]];
          return;
        }
      }
    }

    /** The three projection writers, which every use case calls together. */
    method ReplaceReferences(revisionId: string, refs: References)
      modifies this
      ensures Snapshot() == PutReferences(old(Snapshot()), revisionId, refs)
    {
      embeds := embeds[revisionId := refs.embeds];
      attachments := attachments[revisionId := refs.attachments];
      links := links[revisionId := refs.links];
    }

    method Add(records: seq<OutboxRecord>)
      modifies this`outbox
      ensures Snapshot() == AddEvents(old(Snapshot()), records)
    {
      outbox := outbox + records;
    }

    method ClaimPending(batchSize: nat) returns (messages: seq<OutboxRecord>)
      ensures messages <= PendingOf(outbox)
      ensures |messages| == if |PendingOf(outbox)| <= ClaimSize(batchSize)
                            then |PendingOf(outbox)| else ClaimSize(batchSize)
      ensures |messages| < |PendingOf(outbox)| ==> |messages| == if batchSize == 0 then 1 else batchSize
    {
      messages := [];
      for i := 0 to |outbox|
        invariant messages == PendingOfFirst(outbox, i)
        invariant |messages| < ClaimSize(batchSize)
      {
        if outbox[i].status != Pending {
          continue;
        }
        messages := messages + [outbox[i]];
        if |messages| >= batchSize {
          PendingPrefix(outbox, i + 1, |outbox|);
          return;
        }
      }
    }

    method MarkPublished(id: string, at: int)
      modifies this`outbox
      ensures outbox == Mark(old(outbox), id, Published, at)
    {
      for i := 0 to |outbox|
        invariant outbox == old(outbox)
        invariant RecordIndex(outbox, id) == RecordIndex(outbox, id, i)
      {
        if outbox[i].id == id {
          outbox := outbox[i := outbox[i].(status := Published, availableAt := at)];
          return;
        }
      }
    }

    method MarkFailed(id: string, at: int)
      modifies this`outbox
      ensures outbox == Mark(old(outbox), id, Failed, at)
    {
      for i := 0 to |outbox|
        invariant outbox == old(outbox)
        invariant RecordIndex(outbox, id) == RecordIndex(outbox, id, i)
      {
        if outbox[i].id == id {
          outbox := outbox[i := outbox[i].(status := Failed, availableAt := at)];
          return;
        }
      }
    }
  }
}
