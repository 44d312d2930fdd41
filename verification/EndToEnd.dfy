/**
 From stored revisions to backlinks: along every run the outbox holds exactly the events from
 which the search index can be rebuilt, so once a fault-free relay has drained it the index
 says of each page what its latest revision says.
 */
module EndToEnd {
  import opened Wrappers
  import opened Text
  import opened Documents
  import opened PageStore
  import opened PageEvents
  import opened ReplayWindow
  import opened UseCases
  import opened Lifecycle
  import opened OutboxRelay
  import opened SearchIndex
  import opened Runs

  // --------------------------------------------------------------- projecting one revision

  lemma {:induction false} ProjectOfPrefix(events: seq<Event>, more: seq<Event>, n: nat)
    requires n <= |events| && events <= more
    ensures ProjectFirst(events, n) == ProjectFirst(more, n)
    decreases n
  {
    if n > 0 {
      ProjectOfPrefix(events, more, n - 1);
    }
  }

  lemma ProjectOneMore(events: seq<Event>, e: Event)
    ensures ProjectFirst(events + [e], |events| + 1) == Project(ProjectFirst(events, |events|), e)
  {
    ProjectOfPrefix(events, events + [e], |events|);
  }

  /** The two events that carry links carry the same ones. */
  lemma {:induction false} CanonicalTargets(bs: seq<Block>, links: seq<LinkRef>, all: seq<CanonicalLink>, n: nat)
    requires n <= |links| && n <= |all| && all[..n] == CanonicalLinksOfFirst(bs, links, n)
    ensures LinkedOfFirst(all, n) == ExtractedOfFirst(links, n)
    decreases n
  {
    if n > 0 {
      assert all[..n] == all[..n - 1] + [all[n - 1]];
      CanonicalTargets(bs, links, all, n - 1);
    }
  }

  lemma {:induction false} CanonicalCount(bs: seq<Block>, links: seq<LinkRef>, n: nat)
    requires n <= |links|
    ensures |CanonicalLinksOfFirst(bs, links, n)| == n
    decreases n
  {
    if n > 0 {
      CanonicalCount(bs, links, n - 1);
    }
  }

  lemma SameTargets(bs: seq<Block>, links: seq<LinkRef>)
    ensures var all := CanonicalLinksOfFirst(bs, links, |links|); 
            LinkedOfFirst(all, |all|) == ExtractedOfFirst(links, |links|)
  {
    CanonicalCount(bs, links, |links|);
    var all := CanonicalLinksOfFirst(bs, links, |links|);
    assert all[..|links|] == all;
    CanonicalTargets(bs, links, all, |links|);
  }

  function EntryFor(pageId: string, workspaceId: string, r: Revision): Projection {
    ProjectionOf(SearchDocumentOf(pageId, workspaceId, r))
  }

  function TargetsOf(r: Revision): seq<string> {
    ExtractedOfFirst(RevisionReferences(r).links, |RevisionReferences(r).links|)
  }

  lemma ProjectThreeMore(before: seq<Event>, a: Event, b: Event, c: Event)
    ensures var all := before + [a, b, c];
            ProjectFirst(all, |all|) == Project(Project(Project(ProjectFirst(before, |before|), a), b), c)
  {
    ProjectOneMore(before, a);
    ProjectOneMore(before + [a], b);
    ProjectOneMore(before + [a] + [b], c);
    assert before + [a] + [b] + [c] == before + [a, b, c];
  }

  lemma ThreeEventsProject(ix: Index, head: Event, d: SearchDocument, links: Event, others: Event)
    requires head.DraftSaved? || head.PagePublished?
    requires head.document == d && links.LinksExtracted? && others.AttachmentsChanged?
    requires links.pageId == d.pageId && links.workspaceId == d.workspaceId
    requires LinkedOfFirst(d.links, |d.links|) == ExtractedOfFirst(links.links, |links.links|)
    ensures Project(Project(Project(ix, head), links), others)
            == Index(ix.pages[d.pageId := ProjectionOf(d)], ix.targets[d.pageId := LinkedOfFirst(d.links, |d.links|)])
  {
    assert Project(ix, head) == Upserted(ix, d);
  }

  /** The events of a revision replace its page's entry and targets, and no other page's. */
  lemma RevisionEventsProject(before: seq<Event>, page: Page, r: Revision)
    ensures var all, ix := before + RevisionEvents(page, r), ProjectFirst(before, |before|);
            ProjectFirst(all, |all|)
            == Index(ix.pages[page.id := EntryFor(page.id, page.workspaceId, r)], ix.targets[page.id := TargetsOf(r)])
  {
    SameTargets(r.document.blocks, RevisionReferences(r).links);
    var d, links, others := HeadEvent(page, r), ReferenceEvents(page, r)[0], ReferenceEvents(page, r)[1];
    assert RevisionEvents(page, r) == [d, links, others];
    ProjectThreeMore(before, d, links, others);
    ThreeEventsProject(ProjectFirst(before, |before|), d, SearchDocumentOf(page.id, page.workspaceId, r), links, others);
  }

  // ----------------------------------------------------------------- the index along a run

  function IndexOf(outbox: seq<OutboxRecord>): Index {
    ProjectFirst(Events(outbox), |outbox|)
  }

  lemma IndexGrows(outbox: seq<OutboxRecord>, records: seq<OutboxRecord>, created: bool, page: Page, r: Revision)
    requires Events(records) == (if created then [CreatedEvent(page, r)] else []) + RevisionEvents(page, r)
    ensures var ix := IndexOf(outbox);
            IndexOf(outbox + records)
            == Index(ix.pages[page.id := EntryFor(page.id, page.workspaceId, r)], ix.targets[page.id := TargetsOf(r)])
  {
    var first := if created then [CreatedEvent(page, r)] else [];
    var before := Events(outbox) + first;
    assert Events(outbox + records) == before + RevisionEvents(page, r);
    RevisionEventsProject(before, page, r);
    if created {
      ProjectOneMore(Events(outbox), CreatedEvent(page, r));
    } else {
      assert before == Events(outbox);
    }
  }

  /** What the index says of one page. */
  datatype Row = Row(entry: Projection, targets: seq<string>)

  /**
   What it should say after the first n revisions: the contents of the last of them, with the
   document as it was saved; names written through the store afterwards are not re-indexed.
   */
  function RowAfter(p: string, workspaceId: string, revs: seq<Revision>, saved: map<string, Document>, n: nat): Option<Row>
    requires n <= |revs|
    decreases n, 0
  {
    if n == 0 then None else RowOf(p, workspaceId, revs, saved, n - 1)
  }

  function RowOf(p: string, workspaceId: string, revs: seq<Revision>, saved: map<string, Document>, i: nat): Option<Row>
    requires i < |revs|
    decreases i, 1
  {
    var r := revs[i];
    if r.id in saved then Some(Row(EntryFor(p, workspaceId, r.(document := saved[r.id])), TargetsOf(r)))
    else RowAfter(p, workspaceId, revs, saved, i)
  }

  /** Each of the first n revisions still shows what was saved, file names aside. */
  ghost predicate SavedFirst(saved: map<string, Document>, revs: seq<Revision>, n: nat)
    requires n <= |revs|
    decreases n, 0
  {
    n == 0 || SavedNext(saved, revs, n - 1)
  }

  ghost predicate SavedNext(saved: map<string, Document>, revs: seq<Revision>, n: nat)
    requires n < |revs|
    decreases n, 1
  {
    SavedFirst(saved, revs, n) && revs[n].id in saved && View(saved[revs[n].id]) == View(revs[n].document)
  }

  ghost predicate PageIndexed(h: History, ix: Index, p: string) {
    var st, revs := h.world.store, RevisionsOf(h.world.store, p);
    && p in st.pages && p in ix.pages && p in ix.targets
    && RowAfter(p, st.pages[p].workspaceId, revs, h.saved, |revs|) == Some(Row(ix.pages[p], ix.targets[p]))
    && SavedFirst(h.saved, revs, |revs|)
  }

  ghost predicate IndexOk(h: History) {
    var ix := IndexOf(h.world.store.outbox);
    && ix.pages.Keys == h.world.store.pages.Keys == ix.targets.Keys
    && forall p :: p in h.world.store.pages ==> PageIndexed(h, ix, p)
  }

  lemma {:induction false} SavedStays(xs: seq<Revision>, ys: seq<Revision>, saved: map<string, Document>,
                                      more: map<string, Document>, n: nat)
    requires n <= |xs| && n <= |ys| && SavedFirst(saved, xs, n)
    requires forall i :: 0 <= i < n ==> AlikeRevision(xs[i], ys[i])
    requires forall i :: 0 <= i < n && xs[i].id in saved ==> xs[i].id in more && more[xs[i].id] == saved[xs[i].id]
    ensures SavedFirst(more, ys, n)
    decreases n
  {
    if n > 0 {
      assert SavedNext(saved, xs, n - 1);
      SavedStays(xs, ys, saved, more, n - 1);
      assert AlikeRevision(xs[n - 1], ys[n - 1]);
      assert SavedNext(more, ys, n - 1);
    }
  }

  lemma RowsStay(p: string, workspaceId: string, xs: seq<Revision>, ys: seq<Revision>,
                 saved: map<string, Document>, more: map<string, Document>, n: nat)
    requires n <= |xs| && n <= |ys| && SavedFirst(saved, xs, n)
    requires n > 0 ==> AlikeRevision(xs[n - 1], ys[n - 1]) && RevisionReferences(xs[n - 1]) == RevisionReferences(ys[n - 1])
    requires n > 0 && xs[n - 1].id in saved ==> xs[n - 1].id in more && more[xs[n - 1].id] == saved[xs[n - 1].id]
    ensures RowAfter(p, workspaceId, ys, more, n) == RowAfter(p, workspaceId, xs, saved, n)
  {
  }

  lemma RowIsNew(p: string, workspaceId: string, revs: seq<Revision>, saved: map<string, Document>, r: Revision)
    requires SavedFirst(saved, revs, |revs|)
    requires forall i :: 0 <= i < |revs| ==> revs[i].id != r.id
    ensures RowAfter(p, workspaceId, revs + [r], saved[r.id := r.document], |revs| + 1)
            == Some(Row(EntryFor(p, workspaceId, r), TargetsOf(r)))
    ensures SavedFirst(saved[r.id := r.document], revs + [r], |revs| + 1)
  {
    var more := saved[r.id := r.document];
    forall i | 0 <= i < |revs| ensures AlikeRevision(revs[i], (revs + [r])[i]) {
    }
    SavedStays(revs, revs + [r], saved, more, |revs|);
    assert SavedNext(more, revs + [r], |revs|);
    assert RowOf(p, workspaceId, revs + [r], more, |revs|) == Some(Row(EntryFor(p, workspaceId, r), TargetsOf(r))) by {
      assert r.(document := r.document) == r;
    }
  }

  lemma GrewIndex(h: History, next: History, request: Request, env: Env, page: Page, r: Revision)
    requires Grew(h, next, request, env, page, r)
    ensures var ix := IndexOf(h.world.store.outbox);
            IndexOf(next.world.store.outbox)
            == Index(ix.pages[page.id := EntryFor(page.id, page.workspaceId, r)], ix.targets[page.id := TargetsOf(r)])
  {
    var created := page.id !in h.world.store.pages;
    var events := (if created then [CreatedEvent(page, r)] else []) + RevisionEvents(page, r);
    var records := Records(env.recordIds, page.id, events, env.now);
    assert Events(records) == events;
    IndexGrows(h.world.store.outbox, records, created, page, r);
  }

  /** The same without saying what the new row is. */
  lemma GrewSomeRow(h: History, next: History, request: Request, env: Env, page: Page, r: Revision)
    returns (entry: Projection, targets: seq<string>)
    requires Grew(h, next, request, env, page, r)
    ensures var ix := IndexOf(h.world.store.outbox);
            IndexOf(next.world.store.outbox) == Index(ix.pages[page.id := entry], ix.targets[page.id := targets])
    ensures next.world.store.pages == h.world.store.pages[page.id := page]
    ensures next.saved == h.saved[r.id := r.document]
  {
    GrewIndex(h, next, request, env, page, r);
    GainedHistory(h, Outcome(next.world, next.answer), request, env, page, r);
    entry, targets := EntryFor(page.id, page.workspaceId, r), TargetsOf(r);
  }

  lemma GrewPageIndexed(h: History, next: History, request: Request, env: Env, page: Page, r: Revision)
    requires Grew(h, next, request, env, page, r) && FreshId(h.world.store, r.id)
    requires page.id in h.world.store.pages ==> PageIndexed(h, IndexOf(h.world.store.outbox), page.id)
    requires page.id !in h.world.store.pages ==> page.id !in h.world.store.revisions
    ensures PageIndexed(next, IndexOf(next.world.store.outbox), page.id)
  {
    GrewIndex(h, next, request, env, page, r);
    GainedHistory(h, Outcome(next.world, next.answer), request, env, page, r);
    RowIsNew(page.id, page.workspaceId, RevisionsOf(h.world.store, page.id), h.saved, r);
  }

  lemma OtherRow(h: History, p: string, id: string, d: Document)
    requires p in h.world.store.pages && FreshId(h.world.store, id)
    requires SavedFirst(h.saved, RevisionsOf(h.world.store, p), |RevisionsOf(h.world.store, p)|)
    ensures var revs, ws := RevisionsOf(h.world.store, p), h.world.store.pages[p].workspaceId;
            && RowAfter(p, ws, revs, h.saved[id := d], |revs|) == RowAfter(p, ws, revs, h.saved, |revs|)
            && SavedFirst(h.saved[id := d], revs, |revs|)
  {
    var revs := RevisionsOf(h.world.store, p);
    AlikeItself(revs);
    SavedStays(revs, revs, h.saved, h.saved[id := d], |revs|);
    RowsStay(p, h.world.store.pages[p].workspaceId, revs, revs, h.saved, h.saved[id := d], |revs|);
  }

  lemma GrewOtherIndexed(h: History, next: History, request: Request, env: Env, page: Page, r: Revision, q: string)
    requires Grew(h, next, request, env, page, r) && FreshId(h.world.store, r.id) && q != page.id
    requires PageIndexed(h, IndexOf(h.world.store.outbox), q)
    ensures PageIndexed(next, IndexOf(next.world.store.outbox), q)
  {
    var entry, targets := GrewSomeRow(h, next, request, env, page, r);
    GrewElsewhere(h, next, request, env, page, r, q);
    OtherRow(h, q, r.id, r.document);
  }

  lemma GrewKeepsIndexOk(h: History, next: History, request: Request, env: Env, page: Page, r: Revision)
    requires Grew(h, next, request, env, page, r) && FreshId(h.world.store, r.id) && IndexOk(h)
    requires page.id in h.world.store.pages <==> page.id in h.world.store.revisions
    ensures IndexOk(next)
  {
    var entry, targets := GrewSomeRow(h, next, request, env, page, r);
    forall q | q in next.world.store.pages ensures PageIndexed(next, IndexOf(next.world.store.outbox), q) {
      if q != page.id {
        GrewOtherIndexed(h, next, request, env, page, r, q);
      } else {
        GrewPageIndexed(h, next, request, env, page, r);
      }
    }
  }

  lemma RereadRow(h: History, next: History, env: Env, p: string)
    requires RereadOnly(h, next, env, p) && PageIndexed(h, IndexOf(h.world.store.outbox), p)
    ensures PageIndexed(next, IndexOf(h.world.store.outbox), p)
  {
    var xs, ys := h.world.store.revisions[p], next.world.store.revisions[p];
    SavedStays(xs, ys, h.saved, h.saved, |xs|);
    RowsStay(p, h.world.store.pages[p].workspaceId, xs, ys, h.saved, h.saved, |xs|);
  }

  lemma RereadKeepsIndexOk(h: History, next: History, env: Env, p: string)
    requires RereadOnly(h, next, env, p) && IndexOk(h) && p in h.world.store.pages
    ensures IndexOk(next)
  {
    RereadRow(h, next, env, p);
    SameRowsKeepIndexOk(h, next, p);
  }

  /** Nothing indexed changes, except perhaps for page p, which is indexed still. */
  lemma SameRowsKeepIndexOk(h: History, next: History, p: string)
    requires IndexOk(h) && next.saved == h.saved
    requires IndexOf(next.world.store.outbox) == IndexOf(h.world.store.outbox)
    requires p in h.world.store.pages ==> PageIndexed(next, IndexOf(h.world.store.outbox), p)
    requires next.world.store.pages.Keys == h.world.store.pages.Keys
    requires forall q :: q in h.world.store.pages && q != p ==>
               && next.world.store.pages[q] == h.world.store.pages[q]
               && RevisionsOf(next.world.store, q) == RevisionsOf(h.world.store, q)
    ensures IndexOk(next)
  {
  }

  lemma ArchivingIsUnseen(outbox: seq<OutboxRecord>, record: OutboxRecord, page: Page)
    requires record.event == ArchivedEvent(page)
    ensures IndexOf(outbox + [record]) == IndexOf(outbox)
  {
    assert Events(outbox + [record]) == Events(outbox) + [record.event];
    ProjectOneMore(Events(outbox), record.event);
  }

  lemma ArchivedKeepsIndexOk(h: History, next: History, env: Env, page: Page)
    requires Archived(h, next, env, page) && IndexOk(h)
    ensures IndexOk(next)
  {
    var outbox := h.world.store.outbox;
    ArchivingIsUnseen(outbox, PendingRecord(env.recordIds[0], page.id, ArchivedEvent(page), env.now), page);
    assert PageIndexed(h, IndexOf(outbox), page.id);
    SameRowsKeepIndexOk(h, next, page.id);
  }

  lemma SameEvents(outbox: seq<OutboxRecord>, other: seq<OutboxRecord>)
    requires Events(outbox) == Events(other)
    ensures IndexOf(outbox) == IndexOf(other)
  {
  }

  /** Nothing the index depends on changed. */
  lemma UnseenKeepsIndexOk(h: History, next: History)
    requires IndexOk(h) && next.saved == h.saved
    requires IndexOf(next.world.store.outbox) == IndexOf(h.world.store.outbox)
    requires next.world.store.pages == h.world.store.pages && next.world.store.revisions == h.world.store.revisions
    ensures IndexOk(next)
  {
  }

  lemma RelayedShape(h: History, ok: bool, at: int)
    ensures var next := Relayed(h, ok, at);
            && Events(next.world.store.outbox) == Events(h.world.store.outbox)
            && next.saved == h.saved && next.world.store == h.world.store.(outbox := next.world.store.outbox)
  {
  }

  lemma RelayKeepsIndexOk(h: History, ok: bool, at: int)
    requires IndexOk(h)
    ensures IndexOk(Relayed(h, ok, at))
  {
    RelayedShape(h, ok, at);
    SameEvents(h.world.store.outbox, Relayed(h, ok, at).world.store.outbox);
    UnseenKeepsIndexOk(h, Relayed(h, ok, at));
  }

  lemma ChangedKeepsIndexOk(h: History, next: History, request: Request, env: Env, e: Effect)
    requires Changed(h, next, request, env, e) && FreshId(h.world.store, env.revisionId) && IndexOk(h)
    requires h.world.store.pages.Keys == h.world.store.revisions.Keys
    ensures IndexOk(next)
  {
    match e
    case Nothing => UnseenKeepsIndexOk(h, next);
    case Rehydrate(p, _) => RereadKeepsIndexOk(h, next, env, p);
    case NewPageWith(page, r) => GrewKeepsIndexOk(h, next, request, env, page, r);
    case AddRevision(write) => GrewKeepsIndexOk(h, next, request, env, write.page, write.revision);
    case SetArchived(write) => ArchivedKeepsIndexOk(h, next, env, write.page);
  }

  lemma {:induction false} RunsKeepIndexOk(limit: nat, turns: seq<Turn>, n: nat)
    requires n <= |turns| && LegalFirst(limit, turns, n)
    ensures IndexOk(RunFirst(limit, turns, n))
    decreases n
  {
    if n > 0 {
      assert LegalNext(limit, turns, n - 1);
      RunsKeepIndexOk(limit, turns, n - 1);
      RunsKeepStoreOk(limit, turns, n - 1);
      var e := TurnChanges(limit, turns, n - 1);
      var h := RunFirst(limit, turns, n - 1);
      match turns[n - 1] {
        case Ask(request, env) => ChangedKeepsIndexOk(h, RunFirst(limit, turns, n), request, env, e);
        case Relay(ok, at) => RelayKeepsIndexOk(h, ok, at);
      }
    }
  }

  // ------------------------------------------------------------------ the relay along a run

  /** Exactly what one flush of the relay needs, and leaves behind again. */
  ghost predicate RelayOk(h: History) {
    var outbox := h.world.store.outbox;
    && SettledUpTo(outbox, h.settled) && DistinctRecordIds(outbox)
    && h.sent == PublishedOfFirst(outbox, h.settled)
  }

  lemma {:induction false} DistinctWithFresh(outbox: seq<OutboxRecord>, records: seq<OutboxRecord>, ids: RecordIds, k: nat)
    requires DistinctRecordIds(outbox) && FreshRecordIds(outbox, ids) && k <= |records| <= 4
    requires forall i :: 0 <= i < |records| ==> records[i].id == ids[i]
    ensures DistinctIdsOfFirst(outbox + records, |outbox| + k)
    decreases k
  {
    var all := outbox + records;
    if k == 0 {
      DistinctIdsOfSame(outbox, all, |outbox|, |outbox|);
    } else {
      DistinctWithFresh(outbox, records, ids, k - 1);
      forall i | 0 <= i < |outbox| + k - 1 ensures all[i].id != all[|outbox| + k - 1].id {
        if i >= |outbox| {
          assert all[i] == records[i - |outbox|];
        }
      }
    }
  }

  lemma AddingKeepsRelayOk(h: History, next: History, records: seq<OutboxRecord>, ids: RecordIds)
    requires RelayOk(h) && FreshRecordIds(h.world.store.outbox, ids) && |records| <= 4
    requires forall i :: 0 <= i < |records| ==> records[i].id == ids[i] && records[i].status == Pending
    requires next.world.store.outbox == h.world.store.outbox + records
    requires next.settled == h.settled && next.sent == h.sent
    ensures RelayOk(next)
  {
    DistinctWithFresh(h.world.store.outbox, records, ids, |records|);
    PublishedOfSame(h.world.store.outbox, next.world.store.outbox, h.settled);
  }

  lemma RelayingKeepsRelayOk(h: History, ok: bool, at: int)
    requires RelayOk(h)
    ensures RelayOk(Relayed(h, ok, at))
  {
    var before, after, n := h.world.store.outbox, Relayed(h, ok, at).world.store.outbox, h.settled;
    if n < |before| {
      PublishedOfSame(before, after, n);
      SameIdsStayDistinct(before, after, |before|);
    }
  }

  lemma {:induction false} SameIdsStayDistinct(xs: seq<OutboxRecord>, ys: seq<OutboxRecord>, n: nat)
    requires n <= |xs| == |ys| && DistinctIdsOfFirst(xs, n)
    requires forall i :: 0 <= i < n ==> xs[i].id == ys[i].id
    ensures DistinctIdsOfFirst(ys, n)
    decreases n
  {
    if n > 0 {
      SameIdsStayDistinct(xs, ys, n - 1);
    }
  }

  lemma ChangedKeepsRelayOk(h: History, next: History, request: Request, env: Env, e: Effect)
    requires Changed(h, next, request, env, e) && RelayOk(h) && FreshRecordIds(h.world.store.outbox, env.recordIds)
    ensures RelayOk(next)
  {
    match e
    case Nothing =>
    case Rehydrate(p, _) =>
    case NewPageWith(page, r) => GrewKeepsRelayOk(h, next, request, env, page, r);
    case AddRevision(write) => GrewKeepsRelayOk(h, next, request, env, write.page, write.revision);
    case SetArchived(write) =>
      var record := PendingRecord(env.recordIds[0], write.page.id, ArchivedEvent(write.page), env.now);
      AddingKeepsRelayOk(h, next, [record], env.recordIds);
  }

  lemma GrewKeepsRelayOk(h: History, next: History, request: Request, env: Env, page: Page, r: Revision)
    requires Grew(h, next, request, env, page, r) && RelayOk(h) && FreshRecordIds(h.world.store.outbox, env.recordIds)
    ensures RelayOk(next)
  {
    GainedHistory(h, Outcome(next.world, next.answer), request, env, page, r);
    var events := (if page.id !in h.world.store.pages then [CreatedEvent(page, r)] else []) + RevisionEvents(page, r);
    AddingKeepsRelayOk(h, next, Records(env.recordIds, page.id, events, env.now), env.recordIds);
  }

  /** Requests and relay steps in any order keep the outbox ready for `FlushOnce`. */
  lemma {:induction false} RunsKeepRelayOk(limit: nat, turns: seq<Turn>, n: nat)
    requires n <= |turns| && LegalFirst(limit, turns, n)
    ensures RelayOk(RunFirst(limit, turns, n))
    decreases n
  {
    if n > 0 {
      assert LegalNext(limit, turns, n - 1);
      RunsKeepRelayOk(limit, turns, n - 1);
      RunsKeepStoreOk(limit, turns, n - 1);
      var e := TurnChanges(limit, turns, n - 1);
      var h := RunFirst(limit, turns, n - 1);
      match turns[n - 1] {
        case Ask(request, env) => ChangedKeepsRelayOk(h, RunFirst(limit, turns, n), request, env, e);
        case Relay(ok, at) => RelayingKeepsRelayOk(h, ok, at);
      }
    }
  }

  // -------------------------------------------------------------------------- the agreement

  /** Everything was relayed and nothing was given up. */
  ghost predicate DrainedWithoutFailure(h: History) {
    && h.settled == |h.world.store.outbox|
    && forall i :: 0 <= i < |h.world.store.outbox| ==> h.world.store.outbox[i].status != Failed
  }

  lemma {:induction false} AllPublished(outbox: seq<OutboxRecord>, n: nat)
    requires n <= |outbox| && forall i :: 0 <= i < n ==> outbox[i].status == Published
    ensures PublishedOfFirst(outbox, n) == Events(outbox)[..n]
    decreases n
  {
    if n > 0 {
      AllPublished(outbox, n - 1);
      assert Events(outbox)[..n] == Events(outbox)[..n - 1] + [outbox[n - 1].event];
    }
  }

  lemma DrainedSent(h: History)
    requires RelayOk(h) && DrainedWithoutFailure(h)
    ensures h.sent == Events(h.world.store.outbox)
    ensures ProjectFirst(h.sent, |h.sent|) == IndexOf(h.world.store.outbox)
  {
    AllPublished(h.world.store.outbox, h.settled);
    assert Events(h.world.store.outbox)[..h.settled] == Events(h.world.store.outbox);
  }

  /** The revision a page shows last, of either kind. */
  function Latest(st: State, p: string): Revision
    requires |RevisionsOf(st, p)| > 0
  {
    var revs := RevisionsOf(st, p);
    revs[|revs| - 1]
  }

  /** A row of the link table, written by this revision, that names the page, blanks aside. */
  ghost predicate LinksTo(links: seq<LinkRef>, p: string) {
    p != "" && exists i :: 0 <= i < |links| && TrimSpace(links[i].targetPageId) == p
  }

  lemma {:induction false} ExtractedMembers(links: seq<LinkRef>, n: nat, p: string)
    requires n <= |links|
    ensures p in ExtractedOfFirst(links, n) <==> p != "" && exists i :: 0 <= i < n && TrimSpace(links[i].targetPageId) == p
    decreases n
  {
    if n > 0 {
      ExtractedMembers(links, n - 1, p);
      var t := Trim(links[n - 1].targetPageId);
      assert ExtractedOfFirst(links, n) == ExtractedOfFirst(links, n - 1) + t;
      assert p in t <==> TrimSpace(links[n - 1].targetPageId) == p && p != "";
    }
  }

  /** The titles of the linked blocks that these references come from. */
  function LinkTitles(bs: seq<Block>, links: seq<LinkRef>): (r: seq<string>)
    ensures |r| == |links| && forall i :: 0 <= i < |links| ==> r[i] == LinkTitle(bs, links[i].blockId)
  {
    seq(|links|, i requires 0 <= i < |links| => LinkTitle(bs, links[i].blockId))
  }

  /**
   The entry holds the revision's title and time; all non-empty texts of its blocks in order,
   one space between two; the trimmed titles of its page links without the blank ones; and the
   titles of its tables without the empty ones.
   */
  ghost predicate RevisionTold(entry: Projection, p: string, workspaceId: string, r: Revision) {
    var bs, refs := r.document.blocks, ReferencesOf(r.document.blocks, Origin(r.pageId, r.id, r.createdAt));
    && entry.pageId == p && entry.workspaceId == workspaceId && entry.title == r.title && entry.updatedAt == r.createdAt
    && entry.text == Join(Filled(AllTexts(bs)), " ")
    && entry.linkTitles == Cleaned(LinkTitles(bs, refs.links)) && entry.embedTitles == Filled(TitlesOf(bs, refs.embeds))
  }

  lemma EntryIsTold(p: string, workspaceId: string, r: Revision)
    ensures RevisionTold(EntryFor(p, workspaceId, r), p, workspaceId, r)
  {
    var d := SearchDocumentOf(p, workspaceId, r);
    SearchDocumentTells(p, workspaceId, r);
    ProjectionHolds(d);
    assert TitlesIn(d.links) == LinkTitles(r.document.blocks, RevisionReferences(r).links);
  }

  /** What the drained index says of a page, in terms of the store alone. */
  ghost predicate Agrees(h: History, ix: Index, p: string) {
    var st, revs := h.world.store, RevisionsOf(h.world.store, p);
    && p in st.pages && |revs| > 0
    && var r := Latest(st, p);
       && r.id in h.saved && View(h.saved[r.id]) == View(r.document)
       && p in ix.pages
       && RevisionTold(ix.pages[p], p, st.pages[p].workspaceId, r.(document := h.saved[r.id]))
       && r.id in st.links && p in ix.targets && ix.targets[p] == Cleaned(ExtractedPages(st.links[r.id]))
  }

  lemma IndexedAgrees(h: History, ix: Index, p: string)
    requires PageIndexed(h, ix, p) && PageOk(h.world.store, p)
    ensures Agrees(h, ix, p)
  {
    var st, revs := h.world.store, RevisionsOf(h.world.store, p);
    LastRow(p, st.pages[p].workspaceId, revs, h.saved, Row(ix.pages[p], ix.targets[p]));
    ProjectedAt(TablesOf(st), p, revs, |revs|, |revs| - 1);
    var r := Latest(st, p);
    EntryIsTold(p, st.pages[p].workspaceId, r.(document := h.saved[r.id]));
    ExtractedAreCleaned(st.links[r.id], |st.links[r.id]|);
    assert ExtractedPages(st.links[r.id])[..|st.links[r.id]|] == ExtractedPages(st.links[r.id]);
  }

  lemma LastRow(p: string, workspaceId: string, revs: seq<Revision>, saved: map<string, Document>, row: Row)
    requires RowAfter(p, workspaceId, revs, saved, |revs|) == Some(row) && SavedFirst(saved, revs, |revs|)
    ensures |revs| > 0
    ensures var r := revs[|revs| - 1];
            && r.id in saved && View(saved[r.id]) == View(r.document)
            && row == Row(EntryFor(p, workspaceId, r.(document := saved[r.id])), TargetsOf(r))
  {
  }

  /** The pages of a workspace whose latest revision links to p, read off the store. */
  ghost function LinkingPages(st: State, workspaceId: string, p: string): set<string>
    requires forall q :: q in st.pages ==> |RevisionsOf(st, q)| > 0 && Latest(st, q).id in st.links
  {
    set q | q in st.pages.Keys && q != p && st.pages[q].workspaceId == workspaceId && LinksTo(st.links[Latest(st, q).id], p)
  }

  lemma BacklinkAgrees(h: History, ix: Index, workspaceId: string, p: string, q: string)
    requires Agrees(h, ix, q)
    ensures IsBacklink(ix, workspaceId, p, q)
            <==> q != p && h.world.store.pages[q].workspaceId == workspaceId
                 && LinksTo(h.world.store.links[Latest(h.world.store, q).id], p)
  {
    var links := h.world.store.links[Latest(h.world.store, q).id];
    ExtractedMembers(links, |links|, p);
    ExtractedAreCleaned(links, |links|);
    assert ExtractedPages(links)[..|links|] == ExtractedPages(links);
    assert ix.pages[q].workspaceId == h.world.store.pages[q].workspaceId;
  }

  ghost predicate AllAgree(h: History, ix: Index) {
    && ix.pages.Keys == h.world.store.pages.Keys == ix.targets.Keys
    && forall q :: q in h.world.store.pages ==> Agrees(h, ix, q)
  }

  lemma BacklinksAgree(h: History, ix: Index, workspaceId: string, p: string)
    requires AllAgree(h, ix)
    ensures Backlinks(ix, workspaceId, p) == LinkingPages(h.world.store, workspaceId, p)
  {
    var st := h.world.store;
    forall q ensures q in Backlinks(ix, workspaceId, p) <==> q in LinkingPages(st, workspaceId, p) {
      if q in st.pages {
        BacklinkAgrees(h, ix, workspaceId, p, q);
      }
    }
  }

  /**
   End to end: after any run whose outbox was drained without a failure, an index fed with
   what the broker handed over holds exactly one entry per page, which together with its
   link targets is the projection of the page's latest revision; and the backlinks of p are
   exactly the other pages of the workspace whose latest revision links to p.
   */
  lemma DrainedIndexAgrees(limit: nat, turns: seq<Turn>)
    requires LegalFirst(limit, turns, |turns|) && DrainedWithoutFailure(RunFirst(limit, turns, |turns|))
    ensures var h := RunFirst(limit, turns, |turns|);
            var ix := ProjectFirst(h.sent, |h.sent|);
            && AllAgree(h, ix)
            && forall workspaceId, p :: Backlinks(ix, workspaceId, p) == LinkingPages(h.world.store, workspaceId, p)
  {
    var h := RunFirst(limit, turns, |turns|);
    RunsKeepStoreOk(limit, turns, |turns|);
    RunsKeepIndexOk(limit, turns, |turns|);
    RunsKeepRelayOk(limit, turns, |turns|);
    IndexAgrees(h);
  }

  lemma IndexAgrees(h: History)
    requires StoreOk(h.world.store) && IndexOk(h) && RelayOk(h) && DrainedWithoutFailure(h)
    ensures var ix := ProjectFirst(h.sent, |h.sent|);
            && AllAgree(h, ix)
            && forall workspaceId, p :: Backlinks(ix, workspaceId, p) == LinkingPages(h.world.store, workspaceId, p)
  {
    DrainedSent(h);
    var ix := ProjectFirst(h.sent, |h.sent|);
    AllPagesAgree(h, ix);
    forall workspaceId, p ensures Backlinks(ix, workspaceId, p) == LinkingPages(h.world.store, workspaceId, p) {
      BacklinksAgree(h, ix, workspaceId, p);
    }
  }

  lemma AllPagesAgree(h: History, ix: Index)
    requires StoreOk(h.world.store) && IndexOk(h) && ix == IndexOf(h.world.store.outbox)
    ensures AllAgree(h, ix)
  {
    forall q | q in h.world.store.pages ensures Agrees(h, ix, q) {
      IndexedAgrees(h, ix, q);
    }
  }
}
