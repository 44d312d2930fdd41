/**
 The search service's read model: one entry per page and the page ids it links to, kept by
 projecting the page events one at a time, and the backlinks computed from it.
 */
module SearchIndex {
  import opened Wrappers
  import opened Text
  import opened PageStore

  datatype Projection = Projection(
    pageId: string, workspaceId: string, title: string, text: string, linkTitles: seq<string>,
    embedTitles: seq<string>, updatedAt: int)

  datatype Index = Index(pages: map<string, Projection>, targets: map<string, seq<string>>)

  const EMPTY_INDEX := Index(map[], map[])

  // --------------------------------------------------------------------- specification

  /** Trims, and drops what is blank. */
  function Trim(s: string): seq<string> {
    if TrimSpace(s) == "" then [] else [TrimSpace(s)]
  }

  function TitlesOfFirst(links: seq<CanonicalLink>, n: nat): seq<string>
    requires n <= |links|
  {
    if n == 0 then [] else TitlesOfFirst(links, n - 1) + Trim(links[n - 1].targetTitle)
  }

  function LinkedOfFirst(links: seq<CanonicalLink>, n: nat): seq<string>
    requires n <= |links|
  {
    if n == 0 then [] else LinkedOfFirst(links, n - 1) + Trim(links[n - 1].targetPageId)
  }

  function ExtractedOfFirst(links: seq<Documents.LinkRef>, n: nat): seq<string>
    requires n <= |links|
  {
    if n == 0 then [] else ExtractedOfFirst(links, n - 1) + Trim(links[n - 1].targetPageId)
  }

  function ProjectionOf(d: SearchDocument): Projection {
    Projection(d.pageId, d.workspaceId, d.title, d.text, TitlesOfFirst(d.links, |d.links|), d.embedTitles, d.updatedAt)
  }

  function Upserted(ix: Index, d: SearchDocument): Index {
    Index(ix.pages[d.pageId := ProjectionOf(d)], ix.targets[d.pageId := LinkedOfFirst(d.links, |d.links|)])
  }

  /** One event; links of a page that is unknown, or known in another workspace, are ignored. */
  function Project(ix: Index, e: Event): Index {
    match e
    case DraftSaved(d, _) => Upserted(ix, d)
    case PagePublished(d) => Upserted(ix, d)
    case LinksExtracted(p, workspaceId, _, links) =>
      if p in ix.pages && ix.pages[p].workspaceId == workspaceId
      then ix.(targets := ix.targets[p := ExtractedOfFirst(links, |links|)])
      else ix
    case PageCreated(_, _, _, _, _, _) => ix
    case AttachmentsChanged(_, _, _, _) => ix
    case PageArchived(_, _, _, _, _, _) => ix
  }

  /** The index after the first n events. */
  function ProjectFirst(events: seq<Event>, n: nat): Index
    requires n <= |events|
  {
    if n == 0 then EMPTY_INDEX else Project(ProjectFirst(events, n - 1), events[n - 1])
  }

  /** Delivering an event twice in a row is delivering it once. */
  lemma RepeatedEventChangesNothing(ix: Index, e: Event)
    ensures Project(Project(ix, e), e) == Project(ix, e)
  {
  }

  /** The texts trimmed, without those that are blank, in order. */
  function Cleaned(texts: seq<string>): seq<string> {
    if texts == [] then []
    else (if TrimSpace(texts[0]) == "" then [] else [TrimSpace(texts[0])]) + Cleaned(texts[1..])
  }

  lemma {:induction false} CleanedConcat(xs: seq<string>, ys: seq<string>)
    ensures Cleaned(xs + ys) == Cleaned(xs) + Cleaned(ys)
    decreases |xs|
  {
    if xs == [] {
      assert xs + ys == ys;
    } else {
      CleanedConcat(xs[1..], ys);
      assert (xs + ys)[1..] == xs[1..] + ys;
    }
  }

  lemma CleanedMore(xs: seq<string>, y: string)
    ensures Cleaned(xs + [y]) == Cleaned(xs) + Trim(y)
  {
    CleanedConcat(xs, [y]);
    assert Cleaned([y]) == Trim(y) + Cleaned([]);
  }

  function TitlesIn(links: seq<CanonicalLink>): (r: seq<string>)
    ensures |r| == |links| && forall i :: 0 <= i < |links| ==> r[i] == links[i].targetTitle
  {
    seq(|links|, i requires 0 <= i < |links| => links[i].targetTitle)
  }

  function PagesIn(links: seq<CanonicalLink>): (r: seq<string>)
    ensures |r| == |links| && forall i :: 0 <= i < |links| ==> r[i] == links[i].targetPageId
  {
    seq(|links|, i requires 0 <= i < |links| => links[i].targetPageId)
  }

  function ExtractedPages(links: seq<Documents.LinkRef>): (r: seq<string>)
    ensures |r| == |links| && forall i :: 0 <= i < |links| ==> r[i] == links[i].targetPageId
  {
    seq(|links|, i requires 0 <= i < |links| => links[i].targetPageId)
  }

  lemma {:induction false} LinksAreCleaned(links: seq<CanonicalLink>, n: nat)
    requires n <= |links|
    ensures TitlesOfFirst(links, n) == Cleaned(TitlesIn(links)[..n])
    ensures LinkedOfFirst(links, n) == Cleaned(PagesIn(links)[..n])
    decreases n
  {
    if n > 0 {
      LinksAreCleaned(links, n - 1);
      assert TitlesIn(links)[..n] == TitlesIn(links)[..n - 1] + [links[n - 1].targetTitle];
      assert PagesIn(links)[..n] == PagesIn(links)[..n - 1] + [links[n - 1].targetPageId];
      CleanedMore(TitlesIn(links)[..n - 1], links[n - 1].targetTitle);
      CleanedMore(PagesIn(links)[..n - 1], links[n - 1].targetPageId);
    }
  }

  lemma {:induction false} ExtractedAreCleaned(links: seq<Documents.LinkRef>, n: nat)
    requires n <= |links|
    ensures ExtractedOfFirst(links, n) == Cleaned(ExtractedPages(links)[..n])
    decreases n
  {
    if n > 0 {
      ExtractedAreCleaned(links, n - 1);
      assert ExtractedPages(links)[..n] == ExtractedPages(links)[..n - 1] + [links[n - 1].targetPageId];
      CleanedMore(ExtractedPages(links)[..n - 1], links[n - 1].targetPageId);
    }
  }

  /** The entry holds what the payload says, with blank link titles dropped. */
  predicate EntryHolds(entry: Projection, d: SearchDocument) {
    && entry.pageId == d.pageId && entry.workspaceId == d.workspaceId && entry.title == d.title && entry.text == d.text
    && entry.linkTitles == Cleaned(TitlesIn(d.links)) && entry.embedTitles == d.embedTitles && entry.updatedAt == d.updatedAt
  }

  /**
   A search document replaces its page's entry and targets; extracted links replace the targets
   of a page known in that workspace; every other event, and every other page, is left alone.
   */
  lemma ProjectMeans(ix: Index, e: Event)
    ensures var after := Project(ix, e);
            match e
            case DraftSaved(d, _) => SearchDocumentReplaces(ix, after, d)
            case PagePublished(d) => SearchDocumentReplaces(ix, after, d)
            case LinksExtracted(p, workspaceId, _, links) =>
              && after.pages == ix.pages
              && after.targets == (if p in ix.pages && ix.pages[p].workspaceId == workspaceId
                                   then ix.targets[p := Cleaned(ExtractedPages(links))] else ix.targets)
            case _ => after == ix
  {
    match e
    case DraftSaved(d, _) => UpsertReplaces(ix, d);
    case PagePublished(d) => UpsertReplaces(ix, d);
    case LinksExtracted(_, _, _, links) =>
      ExtractedAreCleaned(links, |links|);
      assert ExtractedPages(links)[..|links|] == ExtractedPages(links);
    case _ =>
  }

  ghost predicate SearchDocumentReplaces(ix: Index, after: Index, d: SearchDocument) {
    && d.pageId in after.pages && EntryHolds(after.pages[d.pageId], d)
    && after.pages == ix.pages[d.pageId := after.pages[d.pageId]]
    && after.targets == ix.targets[d.pageId := Cleaned(PagesIn(d.links))]
  }

  lemma ProjectionHolds(d: SearchDocument)
    ensures EntryHolds(ProjectionOf(d), d) && LinkedOfFirst(d.links, |d.links|) == Cleaned(PagesIn(d.links))
  {
    LinksAreCleaned(d.links, |d.links|);
    assert TitlesIn(d.links)[..|d.links|] == TitlesIn(d.links) && PagesIn(d.links)[..|d.links|] == PagesIn(d.links);
  }

  lemma UpsertReplaces(ix: Index, d: SearchDocument)
    ensures SearchDocumentReplaces(ix, Upserted(ix, d), d)
  {
    ProjectionHolds(d);
  }

  predicate IsBacklink(ix: Index, workspaceId: string, pageId: string, source: string) {
    && source in ix.targets && source != pageId && pageId in ix.targets[source]
    && (if source in ix.pages then ix.pages[source].workspaceId else "") == workspaceId
  }

  /** `GetBacklinks`, as a set of page ids. */
  function Backlinks(ix: Index, workspaceId: string, pageId: string): set<string> {
    set source | source in ix.targets.Keys && IsBacklink(ix, workspaceId, pageId, source)
  }

  // ------------------------------------------------------------------------- the store

  method AppendTrimmed(parts: seq<string>, s: string) returns (r: seq<string>)
    ensures r == parts + Trim(s)
  {
    var trimmed := TrimSpace(s);
    r := if trimmed != "" then parts + [trimmed] else parts;
  }

  method TrimmedTargets(links: seq<Documents.LinkRef>) returns (targets: seq<string>)
    ensures targets == ExtractedOfFirst(links, |links|)
  {
    targets := [];
    for i := 0 to |links|
      invariant targets == ExtractedOfFirst(links, i)
    {
      targets := AppendTrimmed(targets, links[i].targetPageId);
    }
  }

  method TrimmedLinks(links: seq<CanonicalLink>) returns (titles: seq<string>, targets: seq<string>)
    ensures titles == TitlesOfFirst(links, |links|)
    ensures targets == LinkedOfFirst(links, |links|)
  {
    titles, targets := [], [];
    for i := 0 to |links|
      invariant titles == TitlesOfFirst(links, i)
      invariant targets == LinkedOfFirst(links, i)
    {
      titles := AppendTrimmed(titles, links[i].targetTitle);
      targets := AppendTrimmed(targets, links[i].targetPageId);
    }
  }

  class IndexStore {
    var pages: map<string, Projection>
    var targets: map<string, seq<string>>

    ghost function Snapshot(): Index
      reads this
    {
      Index(pages, targets)
    }

    constructor ()
      ensures Snapshot() == EMPTY_INDEX
    {
      pages, targets := map[], map[];
    }

    method UpsertPage(projection: Projection, targetPageIds: seq<string>)
      modifies this
      ensures Snapshot() == Index(old(pages)[projection.pageId := projection],
                                  old(targets)[projection.pageId := targetPageIds])
    {
      pages := pages[projection.pageId := projection];
      targets := targets[projection.pageId := targetPageIds];
    }

    method ReplacePageLinks(workspaceId: string, source: string, targetPageIds: seq<string>)
      modifies this
      ensures pages == old(pages)
      ensures targets == if source in old(pages) && old(pages)[source].workspaceId == workspaceId
                         then old(targets)[source := targetPageIds] else old(targets)
    {
      if source in pages && pages[source].workspaceId == workspaceId {
        targets := targets[source := targetPageIds];
      }
    }

    method ProjectSearchDocument(d: SearchDocument)
      modifies this
      ensures Snapshot() == Upserted(old(Snapshot()), d)
    {
      var titles, linked := TrimmedLinks(d.links);
      UpsertPage(Projection(d.pageId, d.workspaceId, d.title, d.text, titles, d.embedTitles, d.updatedAt), linked);
    }

    /** `PageEventProjector.Project`. */
    method Consume(e: Event)
      modifies this
      ensures Snapshot() == Project(old(Snapshot()), e)
    {
      match e
      case DraftSaved(d, _) => ProjectSearchDocument(d);
      case PagePublished(d) => ProjectSearchDocument(d);
      case LinksExtracted(p, workspaceId, _, links) =>
        var linked := TrimmedTargets(links);
        ReplacePageLinks(workspaceId, p, linked);
      case PageCreated(_, _, _, _, _, _) =>
      case AttachmentsChanged(_, _, _, _) =>
      case PageArchived(_, _, _, _, _, _) =>
    }

    /** The loop over the target map, in any order. */
    method GetBacklinks(workspaceId: string, pageId: string) returns (backlinks: set<string>)
      ensures backlinks == Backlinks(Snapshot(), workspaceId, pageId)
    {
      backlinks := {};
      var left := targets.Keys;
      while left != {}
        invariant left <= targets.Keys
        invariant backlinks
                  == set source | source in targets.Keys - left && IsBacklink(Snapshot(), workspaceId, pageId, source)
        decreases left
      {
        var source :| source in left;
        left := left - {source};
        if source == pageId || pageId !in targets[source] {
          continue;
        }
        var workspace := if source in pages then pages[source].workspaceId else "";
        if workspace != workspaceId {
          continue;
        }
        backlinks := backlinks + {source};
      }
    }
  }
}
