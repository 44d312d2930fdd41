/**
 The life of a page when requests run one at a time: how each revision derives from the ones
 before it, where the heads point, what the projections hold, and which single change each
 request can make.
 */
module Lifecycle {
  import opened Wrappers
  import opened Sequences
  import opened Documents
  import opened PageStore
  import opened PageEvents
  import opened ReplayWindow
  import opened UseCases

  // ------------------------------------------------------------------------ the invariant

  /** The last index below n that holds a revision of this kind, or -1. */
  function LastOf(revs: seq<Revision>, n: nat, kind: Kind): (i: int)
    requires n <= |revs|
    ensures -1 <= i < n
  {
    if n == 0 then -1 else if revs[n - 1].kind == kind then n - 1 else LastOf(revs, n - 1, kind)
  }

  function IdAt(revs: seq<Revision>, i: int): string
    requires i < |revs|
  {
    if i < 0 then "" else revs[i].id
  }

  predicate SameContent(r: Revision, s: Revision) {
    r.title == s.title && View(r.document) == View(s.document)
  }

  /**
   The revision continues this history: it takes the next number, its id is new, its base is
   the draft head it was made from. A published one carries that draft's title and document,
   a restored one those of an earlier revision it names.
   */
  predicate Derived(before: seq<Revision>, r: Revision) {
    var base, source := LastOf(before, |before|, DraftKind), RevisionIndex(before, r.restoredFrom);
    && r.no == |before| + 1
    && r.id != "" && RevisionIndex(before, r.id) == |before|
    && r.baseId == IdAt(before, base)
    && Canonical(r.document) == r.document
    && (before == [] ==> r.kind == DraftKind)
    && (r.kind == PublishedKind <==> r.via == SavedByPublish)
    && (r.kind == PublishedKind ==> base >= 0 && SameContent(r, before[base]))
    && (r.via == SavedByRestore <==> r.restoredFrom != "")
    && (r.via == SavedByRestore ==> source < |before| && SameContent(r, before[source]))
  }

  /** Each revision continues the ones before it, so they are numbered 1, 2, ... in list order. */
  ghost predicate HistoryOk(revs: seq<Revision>) {
    DerivedFirst(revs, |revs|)
  }

  ghost predicate DerivedFirst(revs: seq<Revision>, n: nat)
    requires n <= |revs|
    decreases n, 0
  {
    n == 0 || DerivedNext(revs, n - 1)
  }

  /** The first n revisions are derived and the next one continues them. */
  ghost predicate DerivedNext(revs: seq<Revision>, n: nat)
    requires n < |revs|
    decreases n, 1
  {
    DerivedFirst(revs, n) && Derived(revs[..n], revs[n])
  }

  lemma {:induction false} DerivedAt(revs: seq<Revision>, n: nat, i: nat)
    requires i < n <= |revs| && DerivedFirst(revs, n)
    ensures Derived(revs[..i], revs[i])
    decreases n
  {
    assert DerivedNext(revs, n - 1);
    if i < n - 1 {
      DerivedAt(revs, n - 1, i);
    }
  }

  /** The head pointers of a page. */
  datatype Heads = Heads(draftNo: int, draftId: string, title: string, publishedNo: int, publishedId: string)

  function HeadsOf(page: Page): Heads {
    Heads(page.draftNo, page.draftId, page.title, page.publishedNo, page.publishedId)
  }

  /** Where the first n revisions leave the heads: each head is the last revision of its kind. */
  function HeadsAfter(revs: seq<Revision>, n: nat): Heads
    requires n <= |revs|
  {
    if n == 0 then Heads(0, "", "", 0, "")
    else
      var h, r := HeadsAfter(revs, n - 1), revs[n - 1];
      if r.kind == DraftKind then Heads(r.no, r.id, r.title, h.publishedNo, h.publishedId)
      else h.(publishedNo := r.no, publishedId := r.id)
  }

  ghost predicate HeadsOk(page: Page, revs: seq<Revision>) {
    && page.draftNo > 0
    && HeadsOf(page) == HeadsAfter(revs, |revs|)
    && (page.status == DraftStatus ==> page.publishedNo == 0)
    && (page.status == PublishedStatus ==> page.publishedNo > 0)
  }

  datatype Tables = Tables(
    embeds: map<string, seq<EmbedRef>>, attachments: map<string, seq<AttachmentRef>>, links: map<string, seq<LinkRef>>)

  function TablesOf(st: State): Tables {
    Tables(st.embeds, st.attachments, st.links)
  }

  /** The projection tables of a revision hold exactly the references of its document. */
  ghost predicate Projected(t: Tables, r: Revision) {
    && r.id in t.embeds && t.embeds[r.id] == RevisionReferences(r).embeds
    && r.id in t.attachments && t.attachments[r.id] == RevisionReferences(r).attachments
    && r.id in t.links && t.links[r.id] == RevisionReferences(r).links
  }

  /** The first n revisions belong to the page and are projected. */
  ghost predicate ProjectedFirst(t: Tables, p: string, revs: seq<Revision>, n: nat)
    requires n <= |revs|
    decreases n, 0
  {
    n == 0 || ProjectedNext(t, p, revs, n - 1)
  }

  ghost predicate ProjectedNext(t: Tables, p: string, revs: seq<Revision>, n: nat)
    requires n < |revs|
    decreases n, 1
  {
    ProjectedFirst(t, p, revs, n) && revs[n].pageId == p && Projected(t, revs[n])
  }

  lemma {:induction false} ProjectedAt(t: Tables, p: string, revs: seq<Revision>, n: nat, i: nat)
    requires i < n <= |revs| && ProjectedFirst(t, p, revs, n)
    ensures revs[i].pageId == p && Projected(t, revs[i])
    decreases n
  {
    assert ProjectedNext(t, p, revs, n - 1);
    if i < n - 1 {
      ProjectedAt(t, p, revs, n - 1, i);
    }
  }

  ghost predicate PageOk(st: State, p: string) {
    var revs := RevisionsOf(st, p);
    && p in st.pages && st.pages[p].id == p && ':' !in p
    && HistoryOk(revs) && HeadsOk(st.pages[p], revs)
    && ProjectedFirst(TablesOf(st), p, revs, |revs|)
  }

  /** A record sits under its own key and names a draft revision of its page. */
  ghost predicate RecordOk(st: State, k: string, record: IdempotencyRecord) {
    && k == IdempotencyKey(record.pageId, record.key)
    && record.pageId in st.pages && record.key != ""
    && var r := RevisionById(st, record.pageId, record.revisionId);
       r.Some? && r.value.no == record.revisionNo
  }

  ghost predicate StoreOk(st: State) {
    && st.pages.Keys == st.revisions.Keys
    && (forall p :: p in st.pages ==> PageOk(st, p))
    && (forall k :: k in st.idempotencies ==> RecordOk(st, k, st.idempotencies[k]))
  }

  ghost predicate FreshId(st: State, id: string) {
    && id != ""
    && forall p, i :: p in st.revisions && 0 <= i < |st.revisions[p]| ==> st.revisions[p][i].id != id
  }

  lemma EmptyStoreOk()
    ensures StoreOk(EMPTY)
  {
  }

  // ------------------------------------------------------------------ facts about histories

  lemma {:induction false} LastOfSame(xs: seq<Revision>, ys: seq<Revision>, n: nat, kind: Kind)
    requires n <= |xs| && n <= |ys|
    requires forall i :: 0 <= i < n ==> xs[i].kind == ys[i].kind
    ensures LastOf(xs, n, kind) == LastOf(ys, n, kind)
    decreases n
  {
    if n > 0 {
      LastOfSame(xs, ys, n - 1, kind);
    }
  }

  /** Characterises RevisionIndex: the first position with the id. */
  lemma IndexIs(revs: seq<Revision>, id: string, i: nat)
    requires i <= |revs|
    requires i < |revs| ==> revs[i].id == id
    requires forall k :: 0 <= k < i ==> revs[k].id != id
    ensures RevisionIndex(revs, id) == i
  {
  }

  lemma IndexAgrees(xs: seq<Revision>, ys: seq<Revision>, id: string)
    requires |xs| == |ys|
    requires forall i :: 0 <= i < |xs| ==> xs[i].id == ys[i].id
    ensures RevisionIndex(xs, id) == RevisionIndex(ys, id)
  {
  }

  /** In a valid history every revision is found under its own id. */
  lemma FoundById(revs: seq<Revision>, i: nat)
    requires HistoryOk(revs) && i < |revs|
    ensures RevisionIndex(revs, revs[i].id) == i
  {
    var id := revs[i].id;
    DerivedAt(revs, |revs|, i);
    forall k | 0 <= k < i ensures revs[k].id != id {
      assert revs[..i][k] == revs[k];
    }
    IndexIs(revs, id, i);
  }

  /** Adding a revision does not change what an id that was already known finds. */
  lemma IndexInLonger(revs: seq<Revision>, r: Revision, id: string)
    requires RevisionIndex(revs, id) < |revs|
    ensures RevisionIndex(revs + [r], id) == RevisionIndex(revs, id)
  {
    IndexIs(revs + [r], id, RevisionIndex(revs, id));
  }

  /** A revision with the next number is sorted to the end. */
  lemma SortedLast(revs: seq<Revision>, r: Revision)
    requires HistoryOk(revs) && r.no == |revs| + 1
    ensures AddSorted(revs, r) == revs + [r]
  {
    if revs != [] {
      DerivedAt(revs, |revs|, |revs| - 1);
    }
  }

  lemma {:induction false} DerivedInLonger(xs: seq<Revision>, ys: seq<Revision>, n: nat)
    requires n <= |xs| && xs <= ys && DerivedFirst(xs, n)
    ensures DerivedFirst(ys, n)
    decreases n
  {
    if n > 0 {
      DerivedInLonger(xs, ys, n - 1);
      assert ys[..n - 1] == xs[..n - 1];
    }
  }

  lemma HistoryGrows(revs: seq<Revision>, r: Revision)
    requires HistoryOk(revs) && Derived(revs, r)
    ensures HistoryOk(revs + [r])
  {
    DerivedInLonger(revs, revs + [r], |revs|);
    assert (revs + [r])[..|revs|] == revs;
  }

  lemma {:induction false} HeadsAfterSame(xs: seq<Revision>, ys: seq<Revision>, n: nat)
    requires n <= |xs| && n <= |ys|
    requires forall i :: 0 <= i < n ==> xs[i].(document := ys[i].document) == ys[i]
    ensures HeadsAfter(xs, n) == HeadsAfter(ys, n)
    decreases n
  {
    if n > 0 {
      HeadsAfterSame(xs, ys, n - 1);
      assert xs[n - 1].(document := ys[n - 1].document) == ys[n - 1];
    }
  }

  /** In a valid history the heads are the last revisions of their kinds. */
  lemma {:induction false} HeadsAreLast(revs: seq<Revision>, n: nat)
    requires n <= |revs| && DerivedFirst(revs, n)
    ensures var h, d, q := HeadsAfter(revs, n), LastOf(revs, n, DraftKind), LastOf(revs, n, PublishedKind);
            && h.draftNo == d + 1 && h.draftId == IdAt(revs, d)
            && h.publishedNo == q + 1 && h.publishedId == IdAt(revs, q)
            && h.title == (if d < 0 then "" else revs[d].title)
            && n == (if d >= q then d else q) + 1
    decreases n
  {
    if n > 0 {
      assert DerivedNext(revs, n - 1);
      HeadsAreLast(revs, n - 1);
      assert revs[n - 1].no == n;
    }
  }

  lemma HeadsMove(page: Page, revs: seq<Revision>, r: Revision)
    requires HeadsOk(page, revs) && r.no > 0 && page.status != ArchivedStatus
    ensures r.kind == DraftKind ==> HeadsOk(WithDraftHead(page, r), revs + [r])
    ensures r.kind == PublishedKind && r.title == page.title ==> HeadsOk(WithPublishedHead(page, r), revs + [r])
  {
    HeadsAfterSame(revs, revs + [r], |revs|);
  }

  lemma NextNoIsLength(page: Page, revs: seq<Revision>)
    requires HistoryOk(revs) && HeadsOk(page, revs)
    ensures NextRevisionNo(page) == |revs| + 1
  {
    HeadsAreLast(revs, |revs|);
  }

  lemma HeadIsFound(st: State, p: string)
    requires PageOk(st, p)
    ensures var revs := RevisionsOf(st, p);
            var d := LastOf(revs, |revs|, DraftKind);
            && d >= 0 && RevisionIndex(revs, st.pages[p].draftId) == d && HeadRevision(st, p, DraftKind) == Some(revs[d])
            && st.pages[p].title == revs[d].title && st.pages[p].draftNo == d + 1
  {
    var revs := RevisionsOf(st, p);
    HeadsAreLast(revs, |revs|);
    FoundById(revs, LastOf(revs, |revs|, DraftKind));
  }

  // ------------------------------------------------------- file names written in place

  /** The same history up to attachment file names. */
  ghost predicate Alike(xs: seq<Revision>, ys: seq<Revision>) {
    && |xs| == |ys|
    && forall i :: 0 <= i < |xs| ==> AlikeRevision(xs[i], ys[i])
  }

  predicate AlikeRevision(x: Revision, y: Revision) {
    && y == x.(document := y.document)
    && View(x.document) == View(y.document)
    && (Canonical(x.document) == x.document ==> Canonical(y.document) == y.document)
  }

  lemma DerivedAlike(xs: seq<Revision>, ys: seq<Revision>, x: Revision, y: Revision)
    requires Alike(xs, ys) && AlikeRevision(x, y) && Derived(xs, x)
    ensures Derived(ys, y)
  {
    LastOfSame(xs, ys, |xs|, DraftKind);
    IndexAgrees(xs, ys, x.restoredFrom);
    IndexAgrees(xs, ys, x.id);
  }

  lemma {:induction false} HistoryAlike(xs: seq<Revision>, ys: seq<Revision>, n: nat)
    requires Alike(xs, ys) && n <= |xs| && DerivedFirst(xs, n)
    ensures DerivedFirst(ys, n)
    decreases n
  {
    if n > 0 {
      HistoryAlike(xs, ys, n - 1);
      DerivedAlike(xs[..n - 1], ys[..n - 1], xs[n - 1], ys[n - 1]);
    }
  }

  lemma RehydratedAlike(revs: seq<Revision>, i: nat, files: FileResolver)
    requires i < |revs| && Canonical(revs[i].document) == revs[i].document
    ensures Alike(revs, revs[i := Rehydrated(revs, i, files)])
  {
    HydrationKeepsRest(files, revs[i].document.blocks, SHARED);
    HydrationKeepsCanonical(files, revs[i].document.blocks);
  }

  /** File names are no references. */
  lemma RehydratedReferences(revs: seq<Revision>, i: nat, files: FileResolver)
    requires i < |revs|
    ensures RevisionReferences(Rehydrated(revs, i, files)) == RevisionReferences(revs[i])
  {
    var bs := revs[i].document.blocks;
    var after := HydratePass(files, bs).blocks;
    HydrationKeepsRest(files, bs, SHARED);
    ReferencesIgnoreLens(SHARED, bs, OriginOf(revs[i]));
    ReferencesIgnoreLens(SHARED, after, OriginOf(revs[i]));
  }

  lemma OneProjectedAlike(t: Tables, x: Revision, y: Revision)
    requires AlikeRevision(x, y) && RevisionReferences(x) == RevisionReferences(y) && Projected(t, x)
    ensures y.pageId == x.pageId && Projected(t, y)
  {
  }

  lemma {:induction false} ProjectedAlike(t: Tables, p: string, xs: seq<Revision>, ys: seq<Revision>, n: nat)
    requires Alike(xs, ys) && n <= |xs| && ProjectedFirst(t, p, xs, n)
    requires forall i :: 0 <= i < n ==> RevisionReferences(xs[i]) == RevisionReferences(ys[i])
    ensures ProjectedFirst(t, p, ys, n)
    decreases n
  {
    if n > 0 {
      ProjectedAlike(t, p, xs, ys, n - 1);
      OneProjectedAlike(t, xs[n - 1], ys[n - 1]);
    }
  }

  lemma HeadsAlike(page: Page, xs: seq<Revision>, ys: seq<Revision>)
    requires Alike(xs, ys) && HeadsOk(page, xs)
    ensures HeadsOk(page, ys)
  {
    HeadsAfterSame(xs, ys, |xs|);
  }

  // ------------------------------------------------------------ the one change of a request

  /** What a request does to the world, if anything. */
  datatype Effect =
    | Nothing
    | Rehydrate(pageId: string, view: Kind)
    | NewPageWith(page: Page, first: Revision)
    | AddRevision(write: Write)
    | SetArchived(write: Write)

  function After(w: World, e: Effect, env: Env): World
    requires e.Rehydrate? ==> e.pageId in w.store.pages
    requires e.AddRevision? ==> e.write.RevisionWrite? && Locked(w.store, e.write).Ok?
    requires e.SetArchived? ==> Locked(w.store, e.write).Ok?
  {
    match e
    case Nothing => w
    case Rehydrate(p, view) => ReadView(w, p, view, env.files).world
    case NewPageWith(page, r) => w.(store := CreateIn(w.store, page, r, env))
    case AddRevision(write) => Logged(w.(store := Locked(w.store, write).value), write.entry, env.clock)
    case SetArchived(write) => w.(store := Locked(w.store, write).value)
  }

  /** A revision write that continues a live page's history with a fresh id. */
  ghost predicate Continues(st: State, write: Write, env: Env) {
    && write.RevisionWrite?
    && var r, p := write.revision, write.revision.pageId;
       && p in st.pages && st.pages[p].status != ArchivedStatus
       && r.id == env.revisionId && r.createdAt == env.now && Derived(RevisionsOf(st, p), r)
       && write == RevisionWriteOf(st.pages[p].draftNo, st.pages[p], r, write.record, write.entry.workspaceId,
                                   write.entry.patchId, env)
       && (write.record.Some? ==>
             && write.record.value == IdempotencyRecord(p, write.record.value.key, r.id, r.no, env.now)
             && write.record.value.key != ""
             && Recorded(st, p, write.record.value.key).None?)
  }

  ghost predicate EffectOk(st: State, e: Effect, env: Env) {
    match e
    case Nothing => true
    case Rehydrate(p, _) => p in st.pages
    case NewPageWith(page, r) =>
      page.id !in st.pages && ':' !in page.id && r.pageId == page.id && r.id == env.revisionId && r.createdAt == env.now
      && Derived([], r) && HeadsOk(page, [r])
    case AddRevision(write) => Continues(st, write, env) && Locked(st, write).Ok?
    case SetArchived(write) =>
      && write.StatusWrite? && write.page.id in st.pages && Locked(st, write).Ok?
      && st.pages[write.page.id].status != ArchivedStatus
      && write == PlanArchive(write.page.updatedBy, write.expectedNo, st.pages[write.page.id], env)
  }

  /** Ids drawn by a request are new; page ids contain no ':'. */
  ghost predicate Drawn(st: State, request: Request, env: Env) {
    && FreshId(st, env.revisionId)
    && (request.CreateRequest? ==> request.create.pageId !in st.pages && ':' !in request.create.pageId)
  }

  lemma HydratedShape(files: FileResolver, d: Document)
    requires Hydrate(files, Canonical(d)).Ok?
    ensures var h := Hydrate(files, Canonical(d)).value; Canonical(h) == h && View(h) == View(d)
  {
    NormAbsorbs(CANONICAL, CANONICAL, d);
    NormAbsorbs(SHARED, CANONICAL, d);
    HydrationKeepsCanonical(files, Canonical(d).blocks);
    HydrationKeepsRest(files, Canonical(d).blocks, SHARED);
  }

  lemma FreshIsNotFound(st: State, p: string, id: string)
    requires FreshId(st, id)
    ensures RevisionIndex(RevisionsOf(st, p), id) == |RevisionsOf(st, p)|
  {
  }

  /** A planned write for the current page passes its own compare-and-swap. */
  lemma PlannedWritePasses(st: State, write: Write)
    requires write.page.id in st.pages && st.pages[write.page.id].draftNo == write.expectedNo
    ensures Locked(st, write).Ok?
  {
  }

  /** A write planned for a revision that continues the page's history is lawful and passes. */
  lemma LawfulWrite(st: State, p: string, r: Revision, record: Option<IdempotencyRecord>, workspaceId: string,
                    patchId: string, env: Env)
    requires p in st.pages && st.pages[p].id == p && st.pages[p].status != ArchivedStatus
    requires r.pageId == p && r.id == env.revisionId && r.createdAt == env.now && Derived(RevisionsOf(st, p), r)
    requires record.Some? ==>
               && record.value == IdempotencyRecord(p, record.value.key, r.id, r.no, env.now)
               && record.value.key != "" && Recorded(st, p, record.value.key).None?
    ensures var write := RevisionWriteOf(st.pages[p].draftNo, st.pages[p], r, record, workspaceId, patchId, env);
            Continues(st, write, env) && Locked(st, write).Ok?
  {
  }

  lemma SavedDraftDerives(st: State, p: string, document: Document, via: Source, actor: string, env: Env)
    requires PageOk(st, p) && FreshId(st, env.revisionId)
    requires Canonical(document) == document && (via == SavedByRest || via == SavedByPatch)
    ensures HeadRevision(st, p, DraftKind).Some?
    ensures Derived(RevisionsOf(st, p),
                    Revision(env.revisionId, p, NextRevisionNo(st.pages[p]), DraftKind,
                             HeadRevision(st, p, DraftKind).value.id, "", document, st.pages[p].title, actor, via, env.now))
  {
    HeadIsFound(st, p);
    FreshIsNotFound(st, p, env.revisionId);
    NextNoIsLength(st.pages[p], RevisionsOf(st, p));
  }

  /** A request that concludes a write either leaves the world alone or takes that write's effect. */
  lemma ConcludedEffect(w: World, write: Write, stale: UseCaseError, env: Env) returns (e: Effect)
    requires Continues(w.store, write, env)
    ensures EffectOk(w.store, e, env) && (e == Nothing || e == AddRevision(write))
    ensures Conclude(w, write, stale, env.clock).world == After(w, e, env)
  {
    e := if Locked(w.store, write).Ok? then AddRevision(write) else Nothing;
  }

  lemma SaveConcludes(w: World, input: SaveInput, env: Env)
    ensures var st, p, o := w.store, input.pageId, Save(w, input, env);
            || o.world == w
            || (&& p in st.pages && st.pages[p].status != ArchivedStatus && st.pages[p].draftNo == input.base
                && Recorded(st, p, input.key).None? && HeadRevision(st, p, DraftKind).Some?
                && var plan := PlanSave(input, st.pages[p], HeadRevision(st, p, DraftKind).value.id, env);
                   plan.Ok? && o == Conclude(w, plan.value, SaveConflict(st, input, st.pages[p], StoreFailed(StaleRevision)), env.clock))
  {
  }

  lemma PlannedSaveContinues(st: State, input: SaveInput, env: Env)
    requires PageOk(st, input.pageId) && FreshId(st, env.revisionId)
    requires input.via == SavedByRest || input.via == SavedByPatch
    requires st.pages[input.pageId].status != ArchivedStatus
    requires st.pages[input.pageId].draftNo == input.base && Recorded(st, input.pageId, input.key).None?
    requires HeadRevision(st, input.pageId, DraftKind).Some?
    ensures var plan := PlanSave(input, st.pages[input.pageId], HeadRevision(st, input.pageId, DraftKind).value.id, env);
            plan.Ok? ==> Continues(st, plan.value, env)
  {
    var p := input.pageId;
    var plan := PlanSave(input, st.pages[p], HeadRevision(st, p, DraftKind).value.id, env);
    if plan.Ok? {
      HydratedShape(env.files, input.document);
      var write := plan.value;
      SavedDraftDerives(st, p, write.revision.document, input.via, input.actor, env);
      LawfulWrite(st, p, write.revision, write.record, input.workspaceId, input.patchId, env);
    }
  }

  lemma SaveEffect(w: World, input: SaveInput, env: Env) returns (e: Effect)
    requires input.pageId in w.store.pages ==> PageOk(w.store, input.pageId)
    requires FreshId(w.store, env.revisionId)
    requires input.via == SavedByRest || input.via == SavedByPatch
    ensures EffectOk(w.store, e, env) && Fits(SaveRequest(input), e)
    ensures Save(w, input, env).world == After(w, e, env)
  {
    var st, p := w.store, input.pageId;
    SaveConcludes(w, input, env);
    if Save(w, input, env).world == w {
      return Nothing;
    }
    PlannedSaveContinues(st, input, env);
    var write := PlanSave(input, st.pages[p], HeadRevision(st, p, DraftKind).value.id, env).value;
    e := ConcludedEffect(w, write, SaveConflict(st, input, st.pages[p], StoreFailed(StaleRevision)), env);
  }

  /** What was read of a stored revision, whatever became of its file names since. */
  predicate ReadingOf(revs: seq<Revision>, read: Revision) {
    var i := RevisionIndex(revs, read.id);
    i < |revs| && SameContent(read, revs[i])
  }

  lemma PublishDerives(st: State, p: string, draft: Revision, actor: string, env: Env)
    requires PageOk(st, p) && FreshId(st, env.revisionId)
    requires draft.id == st.pages[p].draftId && ReadingOf(RevisionsOf(st, p), draft)
    ensures Derived(RevisionsOf(st, p),
                    Revision(env.revisionId, p, NextRevisionNo(st.pages[p]), PublishedKind, draft.id, "",
                             Canonical(draft.document), draft.title, actor, SavedByPublish, env.now))
    ensures draft.title == st.pages[p].title
  {
    HeadIsFound(st, p);
    NormAbsorbs(CANONICAL, CANONICAL, draft.document);
    NormAbsorbs(SHARED, CANONICAL, draft.document);
    FreshIsNotFound(st, p, env.revisionId);
    NextNoIsLength(st.pages[p], RevisionsOf(st, p));
  }

  lemma PlannedPublishContinues(st: State, p: string, workspaceId: string, actor: string, env: Env)
    requires PageOk(st, p) && FreshId(st, env.revisionId) && st.pages[p].status != ArchivedStatus
    ensures HeadRevision(st, p, DraftKind).Some?
    ensures Continues(st, PlanPublish(p, workspaceId, actor, st.pages[p].draftNo, st.pages[p],
                                      HeadRevision(st, p, DraftKind).value, env), env)
  {
    HeadIsFound(st, p);
    PublishDerives(st, p, HeadRevision(st, p, DraftKind).value, actor, env);
    var write := PlanPublish(p, workspaceId, actor, st.pages[p].draftNo, st.pages[p], HeadRevision(st, p, DraftKind).value, env);
    LawfulWrite(st, p, write.revision, None, workspaceId, "", env);
  }

  lemma PublishEffect(w: World, p: string, workspaceId: string, actor: string, base: int, env: Env) returns (e: Effect)
    requires p in w.store.pages ==> PageOk(w.store, p)
    requires FreshId(w.store, env.revisionId)
    ensures EffectOk(w.store, e, env) && Fits(PublishRequest(p, workspaceId, actor, base), e)
    ensures Publish(w, p, workspaceId, actor, base, env).world == After(w, e, env)
  {
    var st := w.store;
    PublishEnds(w, p, workspaceId, actor, base, env);
    if Publish(w, p, workspaceId, actor, base, env).world == w {
      return Nothing;
    }
    PlannedPublishContinues(st, p, workspaceId, actor, env);
    var write := PlanPublish(p, workspaceId, actor, base, st.pages[p], HeadRevision(st, p, DraftKind).value, env);
    e := ConcludedEffect(w, write, Conflict(st, p, StoreFailed(StaleRevision)), env);
  }

  lemma PublishEnds(w: World, p: string, workspaceId: string, actor: string, base: int, env: Env)
    ensures var st, o := w.store, Publish(w, p, workspaceId, actor, base, env);
            || o.world == w
            || (&& p in st.pages && st.pages[p].status != ArchivedStatus && st.pages[p].draftNo == base
                && HeadRevision(st, p, DraftKind).Some?
                && o == Conclude(w, PlanPublish(p, workspaceId, actor, base, st.pages[p], HeadRevision(st, p, DraftKind).value, env),
                                 Conflict(st, p, StoreFailed(StaleRevision)), env.clock))
  {
  }

  lemma PublishConcludes(w: World, p: string, workspaceId: string, actor: string, env: Env)
    requires p in w.store.pages && w.store.pages[p].status != ArchivedStatus && HeadRevision(w.store, p, DraftKind).Some?
    ensures var page, draft := w.store.pages[p], HeadRevision(w.store, p, DraftKind).value;
            Publish(w, p, workspaceId, actor, page.draftNo, env)
            == Conclude(w, PlanPublish(p, workspaceId, actor, page.draftNo, page, draft, env),
                        Conflict(w.store, p, StoreFailed(StaleRevision)), env.clock)
  {
  }

  lemma RestoreDerives(st: State, p: string, actor: string, target: Revision, document: Document, env: Env)
    requires PageOk(st, p) && FreshId(st, env.revisionId) && ReadingOf(RevisionsOf(st, p), target)
    requires Canonical(document) == document && View(document) == View(target.document)
    ensures Derived(RevisionsOf(st, p),
                    Revision(env.revisionId, p, NextRevisionNo(st.pages[p]), DraftKind, st.pages[p].draftId, target.id,
                             document, target.title, actor, SavedByRestore, env.now))
  {
    var revs := RevisionsOf(st, p);
    DerivedAt(revs, |revs|, RevisionIndex(revs, target.id));
    HeadIsFound(st, p);
    FreshIsNotFound(st, p, env.revisionId);
    NextNoIsLength(st.pages[p], revs);
  }

  lemma PlannedRestoreContinues(st: State, p: string, workspaceId: string, actor: string, revisionId: string, env: Env)
    requires PageOk(st, p) && FreshId(st, env.revisionId)
    requires st.pages[p].status != ArchivedStatus && RevisionById(st, p, revisionId).Some?
    ensures var plan := PlanRestore(p, workspaceId, actor, st.pages[p], RevisionById(st, p, revisionId).value, env);
            plan.Ok? ==> Continues(st, plan.value, env)
  {
    var target := RevisionById(st, p, revisionId).value;
    var plan := PlanRestore(p, workspaceId, actor, st.pages[p], target, env);
    if plan.Ok? {
      HydratedShape(env.files, target.document);
      RestoreDerives(st, p, actor, target, plan.value.revision.document, env);
      LawfulWrite(st, p, plan.value.revision, None, workspaceId, "", env);
    }
  }

  lemma RestoreEnds(w: World, p: string, workspaceId: string, actor: string, revisionId: string, env: Env)
    ensures var st, o := w.store, Restore(w, p, workspaceId, actor, revisionId, env);
            || o.world == w
            || (&& p in st.pages && st.pages[p].status != ArchivedStatus && RevisionById(st, p, revisionId).Some?
                && var plan := PlanRestore(p, workspaceId, actor, st.pages[p], RevisionById(st, p, revisionId).value, env);
                   plan.Ok? && o == Conclude(w, plan.value, StoreFailed(StaleRevision), env.clock))
  {
  }

  lemma RestoreEffect(w: World, p: string, workspaceId: string, actor: string, revisionId: string, env: Env)
    returns (e: Effect)
    requires p in w.store.pages ==> PageOk(w.store, p)
    requires FreshId(w.store, env.revisionId)
    ensures EffectOk(w.store, e, env) && Fits(RestoreRequest(p, workspaceId, actor, revisionId), e)
    ensures Restore(w, p, workspaceId, actor, revisionId, env).world == After(w, e, env)
  {
    var st := w.store;
    RestoreEnds(w, p, workspaceId, actor, revisionId, env);
    if Restore(w, p, workspaceId, actor, revisionId, env).world == w {
      return Nothing;
    }
    PlannedRestoreContinues(st, p, workspaceId, actor, revisionId, env);
    var plan := PlanRestore(p, workspaceId, actor, st.pages[p], RevisionById(st, p, revisionId).value, env);
    e := ConcludedEffect(w, plan.value, StoreFailed(StaleRevision), env);
  }

  lemma ArchiveEffect(w: World, p: string, actor: string, base: int, env: Env) returns (e: Effect)
    requires p in w.store.pages ==> PageOk(w.store, p)
    ensures EffectOk(w.store, e, env) && Fits(ArchiveRequest(p, actor, base), e)
    ensures Archive(w, p, actor, base, env).world == After(w, e, env)
  {
    var st := w.store;
    if p !in st.pages || st.pages[p].draftNo != base || st.pages[p].status == ArchivedStatus {
      return Nothing;
    }
    var write := PlanArchive(actor, base, st.pages[p], env);
    PlannedWritePasses(st, write);
    e := SetArchived(write);
  }

  lemma FirstRevisionStarts(input: CreateInput, document: Document, env: Env)
    requires Canonical(document) == document && env.revisionId != ""
    ensures Derived([], FirstRevision(input, document, env))
    ensures HeadsOk(NewPage(input, env), [FirstRevision(input, document, env)])
  {
  }

  lemma CreateEffect(w: World, input: CreateInput, env: Env) returns (e: Effect)
    requires FreshId(w.store, env.revisionId) && input.pageId !in w.store.pages && ':' !in input.pageId
    ensures EffectOk(w.store, e, env) && Fits(CreateRequest(input), e)
    ensures Create(w, input, env).world == After(w, e, env)
  {
    if Hydrate(env.files, Canonical(input.document)).Err? || Create(w, input, env).world == w {
      return Nothing;
    }
    HydratedShape(env.files, input.document);
    var document := Hydrate(env.files, Canonical(input.document)).value;
    FirstRevisionStarts(input, document, env);
    e := NewPageWith(NewPage(input, env), FirstRevision(input, document, env));
  }

  /** The effect concerns the page of the request and logs the entry of the request. */
  ghost predicate Fits(request: Request, e: Effect) {
    match e
    case Nothing => true
    case Rehydrate(p, _) => p == PageOf(request)
    case NewPageWith(page, _) => page.id == PageOf(request) && request.CreateRequest?
    case AddRevision(write) =>
      && write.RevisionWrite? && write.revision.pageId == PageOf(request) && !request.CreateRequest?
      && write.entry == RequestEntry(request, write.revision)
    case SetArchived(write) => write.page.id == PageOf(request)
  }

  /** `via` of a save request is one the two save endpoints use. */
  predicate WellFormed(request: Request) {
    request.SaveRequest? ==> request.save.via == SavedByRest || request.save.via == SavedByPatch
  }

  /** Every request changes nothing, rewrites file names, or makes one lawful change. */
  lemma RequestEffect(w: World, request: Request, env: Env) returns (e: Effect)
    requires PageOf(request) in w.store.pages ==> PageOk(w.store, PageOf(request))
    requires Drawn(w.store, request, env) && WellFormed(request)
    ensures EffectOk(w.store, e, env) && Fits(request, e) && Perform(w, request, env).world == After(w, e, env)
  {
    match request
    case CreateRequest(input) => e := CreateEffect(w, input, env);
    case SaveRequest(input) => e := SaveEffect(w, input, env);
    case PublishRequest(p, ws, actor, base) => e := PublishEffect(w, p, ws, actor, base, env);
    case RestoreRequest(p, ws, actor, id) => e := RestoreEffect(w, p, ws, actor, id, env);
    case ArchiveRequest(p, actor, base) => e := ArchiveEffect(w, p, actor, base, env);
    case ReadRequest(p, view) =>
      if p in w.store.pages { e := Rehydrate(p, view); } else { e := Nothing; }
  }

  // -------------------------------------------------------------- every request keeps it

  /** The store gained this revision of this page, with its projections, and nothing else changed in them. */
  ghost predicate Gained(st: State, after: State, page: Page, r: Revision) {
    var refs := RevisionReferences(r);
    && after.pages == st.pages[page.id := page]
    && after.revisions == st.revisions[page.id := RevisionsOf(st, page.id) + [r]]
    && after.embeds == st.embeds[r.id := refs.embeds]
    && after.attachments == st.attachments[r.id := refs.attachments]
    && after.links == st.links[r.id := refs.links]
  }

  lemma AddedRevision(st: State, write: Write, env: Env)
    requires Continues(st, write, env) && PageOk(st, write.revision.pageId) && Locked(st, write).Ok?
    ensures var after, p, r := Locked(st, write).value, write.revision.pageId, write.revision;
            && write.page == (if r.kind == DraftKind then WithDraftHead(st.pages[p], r) else WithPublishedHead(st.pages[p], r))
            && write.page.id == p && Gained(st, after, write.page, r)
            && after.outbox == st.outbox + Records(env.recordIds, p, RevisionEvents(write.page, r), env.now)
            && after.idempotencies == (if r.kind == PublishedKind || write.record.None? then st.idempotencies
                                       else st.idempotencies[IdempotencyKey(p, write.record.value.key) := write.record.value])
  {
    SortedLast(RevisionsOf(st, write.revision.pageId), write.revision);
  }

  lemma CreatedPage(st: State, page: Page, r: Revision, env: Env)
    requires page.id !in st.revisions && r.no == 1
    ensures var after := CreateIn(st, page, r, env);
            && Gained(st, after, page, r) && after.idempotencies == st.idempotencies
            && after.outbox == st.outbox + Records(env.recordIds, page.id, [CreatedEvent(page, r)] + RevisionEvents(page, r), env.now)
  {
    SortedLast([], r);
  }

  /** Tables that differ at another revision's id project the same revisions. */
  lemma {:induction false} ProjectedStays(t: Tables, u: Tables, p: string, revs: seq<Revision>, more: seq<Revision>, n: nat, id: string)
    requires n <= |revs| && revs <= more && ProjectedFirst(t, p, revs, n)
    requires forall i :: 0 <= i < n ==> revs[i].id != id
    requires forall k :: k in t.embeds && k != id ==> k in u.embeds && u.embeds[k] == t.embeds[k]
    requires forall k :: k in t.attachments && k != id ==> k in u.attachments && u.attachments[k] == t.attachments[k]
    requires forall k :: k in t.links && k != id ==> k in u.links && u.links[k] == t.links[k]
    ensures ProjectedFirst(u, p, more, n)
    decreases n
  {
    if n > 0 {
      ProjectedStays(t, u, p, revs, more, n - 1, id);
    }
  }

  lemma GainedPageOk(st: State, after: State, page: Page, r: Revision)
    requires Gained(st, after, page, r) && FreshId(st, r.id) && r.pageId == page.id && ':' !in page.id
    requires Derived(RevisionsOf(st, page.id), r) && HeadsOk(page, RevisionsOf(st, page.id) + [r])
    requires PageOk(st, page.id) || page.id !in st.revisions
    ensures PageOk(after, page.id)
  {
    HistoryGrows(RevisionsOf(st, page.id), r);
    GainedProjected(st, after, page, r);
  }

  lemma GainedProjected(st: State, after: State, page: Page, r: Revision)
    requires Gained(st, after, page, r) && FreshId(st, r.id) && r.pageId == page.id
    requires ProjectedFirst(TablesOf(st), page.id, RevisionsOf(st, page.id), |RevisionsOf(st, page.id)|)
    ensures var revs := RevisionsOf(st, page.id) + [r]; ProjectedFirst(TablesOf(after), page.id, revs, |revs|)
  {
    var revs := RevisionsOf(st, page.id);
    ProjectedStays(TablesOf(st), TablesOf(after), page.id, revs, revs + [r], |revs|, r.id);
    assert ProjectedNext(TablesOf(after), page.id, revs + [r], |revs|);
  }

  lemma OtherPageOk(st: State, after: State, page: Page, r: Revision, q: string)
    requires Gained(st, after, page, r) && FreshId(st, r.id) && q != page.id && PageOk(st, q)
    requires q in st.revisions
    ensures PageOk(after, q)
  {
    var revs := RevisionsOf(st, q);
    ProjectedStays(TablesOf(st), TablesOf(after), q, revs, revs, |revs|, r.id);
  }

  lemma GainedRecordOk(st: State, after: State, page: Page, r: Revision, k: string, record: IdempotencyRecord)
    requires Gained(st, after, page, r) && RecordOk(st, k, record)
    ensures RecordOk(after, k, record)
  {
  }

  lemma GainedStoreOk(st: State, after: State, page: Page, r: Revision)
    requires StoreOk(st) && Gained(st, after, page, r) && FreshId(st, r.id) && r.pageId == page.id && ':' !in page.id
    requires Derived(RevisionsOf(st, page.id), r) && HeadsOk(page, RevisionsOf(st, page.id) + [r])
    requires after.idempotencies == st.idempotencies
             || exists k, record :: after.idempotencies == st.idempotencies[k := record] && RecordOk(after, k, record)
    ensures StoreOk(after)
  {
    GainedPageOk(st, after, page, r);
    forall q | q in after.pages ensures PageOk(after, q) {
      if q != page.id {
        OtherPageOk(st, after, page, r, q);
      }
    }
    forall k | k in after.idempotencies ensures RecordOk(after, k, after.idempotencies[k]) {
      if k in st.idempotencies {
        GainedRecordOk(st, after, page, r, k, st.idempotencies[k]);
      }
    }
  }

  lemma NewRecordOk(st: State, after: State, page: Page, r: Revision, record: IdempotencyRecord)
    requires Gained(st, after, page, r) && Derived(RevisionsOf(st, page.id), r)
    requires record == IdempotencyRecord(page.id, record.key, r.id, r.no, record.createdAt) && record.key != ""
    ensures RecordOk(after, IdempotencyKey(page.id, record.key), record)
  {
    var revs := RevisionsOf(st, page.id);
    IndexIs(revs + [r], r.id, |revs|);
  }

  lemma AddKeepsStoreOk(st: State, write: Write, env: Env)
    requires StoreOk(st) && FreshId(st, env.revisionId) && Continues(st, write, env) && Locked(st, write).Ok?
    ensures StoreOk(Locked(st, write).value)
  {
    var p, r, after := write.revision.pageId, write.revision, Locked(st, write).value;
    assert PageOk(st, p);
    AddedRevision(st, write, env);
    HeadsMove(st.pages[p], RevisionsOf(st, p), r);
    HeadIsFound(st, p);
    if after.idempotencies != st.idempotencies {
      NewRecordOk(st, after, write.page, r, write.record.value);
    }
    GainedStoreOk(st, after, write.page, r);
  }

  /** Reading a view leaves an alike history in its place and changes nothing else. */
  ghost predicate Reread(st: State, after: State, p: string) {
    && p in st.revisions && p in after.revisions
    && after == st.(revisions := st.revisions[p := after.revisions[p]])
    && Alike(st.revisions[p], after.revisions[p])
  }

  lemma ReadViewRereads(w: World, p: string, view: Kind, files: FileResolver)
    requires PageOk(w.store, p) && p in w.store.revisions
    ensures Reread(w.store, ReadView(w, p, view, files).world.store, p)
    ensures ReadView(w, p, view, files).world == w.(store := ReadView(w, p, view, files).world.store)
    ensures SameReferences(w.store.revisions[p], ReadView(w, p, view, files).world.store.revisions[p])
  {
    ShownIsFound(w.store, p, view);
    var i := RevisionIndex(RevisionsOf(w.store, p), ShownId(w.store.pages[p], view));
    RehydratedIsAlike(w.store, p, i, files);
    ReadViewShape(w, p, view, i, files, ReadView(w, p, view, files).world);
  }

  lemma ShownIsFound(st: State, p: string, view: Kind)
    requires PageOk(st, p)
    ensures HeadRevision(st, p, view).Some?
  {
    var revs := RevisionsOf(st, p);
    HeadIsFound(st, p);
    HeadsAreLast(revs, |revs|);
    if view == PublishedKind && st.pages[p].publishedId != "" {
      FoundById(revs, LastOf(revs, |revs|, PublishedKind));
    }
  }

  lemma RehydratedIsAlike(st: State, p: string, i: nat, files: FileResolver)
    requires PageOk(st, p) && i < |RevisionsOf(st, p)|
    ensures var revs := RevisionsOf(st, p);
            && Alike(revs, revs[i := Rehydrated(revs, i, files)])
            && SameReferences(revs, revs[i := Rehydrated(revs, i, files)])
  {
    DerivedAt(RevisionsOf(st, p), |RevisionsOf(st, p)|, i);
    RehydratedAlike(RevisionsOf(st, p), i, files);
    RehydratedReferences(RevisionsOf(st, p), i, files);
  }

  lemma ReadViewShape(w: World, p: string, view: Kind, i: nat, files: FileResolver, after: World)
    requires after == ReadView(w, p, view, files).world && p in w.store.pages && p in w.store.revisions
    requires HeadRevision(w.store, p, view).Some?
    requires i == RevisionIndex(w.store.revisions[p], ShownId(w.store.pages[p], view))
    ensures i < |w.store.revisions[p]|
    ensures var revs := w.store.revisions[p];
            after == w.(store := w.store.(revisions := w.store.revisions[p := revs[i := Rehydrated(revs, i, files)]]))
  {
  }

  ghost predicate SameReferences(xs: seq<Revision>, ys: seq<Revision>) {
    |xs| == |ys| && forall i :: 0 <= i < |xs| ==> RevisionReferences(xs[i]) == RevisionReferences(ys[i])
  }

  lemma RereadPageOk(st: State, after: State, p: string)
    requires Reread(st, after, p) && PageOk(st, p)
    requires SameReferences(st.revisions[p], after.revisions[p])
    ensures PageOk(after, p)
  {
    var xs, ys := st.revisions[p], after.revisions[p];
    HistoryAlike(xs, ys, |xs|);
    HeadsAlike(st.pages[p], xs, ys);
    ProjectedAlike(TablesOf(st), p, xs, ys, |xs|);
  }

  lemma RereadRecordOk(st: State, after: State, p: string, k: string, record: IdempotencyRecord)
    requires Reread(st, after, p) && RecordOk(st, k, record)
    ensures RecordOk(after, k, record)
  {
    IndexAgrees(st.revisions[p], after.revisions[p], record.revisionId);
  }

  lemma RereadStoreOk(st: State, after: State, p: string)
    requires StoreOk(st) && Reread(st, after, p) && PageOk(after, p)
    ensures StoreOk(after)
  {
    forall q | q in after.pages ensures PageOk(after, q) {
      if q != p {
        assert PageOk(st, q);
      }
    }
    forall k | k in after.idempotencies ensures RecordOk(after, k, after.idempotencies[k]) {
      RereadRecordOk(st, after, p, k, st.idempotencies[k]);
    }
  }

  lemma ArchiveKeepsStoreOk(st: State, write: Write, env: Env)
    requires StoreOk(st) && EffectOk(st, SetArchived(write), env)
    ensures StoreOk(Locked(st, write).value)
  {
    var after := Locked(st, write).value;
    forall q | q in after.pages ensures PageOk(after, q) {
      assert PageOk(st, q);
    }
    forall k | k in after.idempotencies ensures RecordOk(after, k, after.idempotencies[k]) {
      assert RecordOk(st, k, st.idempotencies[k]);
    }
  }

  lemma EffectKeepsStoreOk(w: World, e: Effect, env: Env)
    requires StoreOk(w.store) && FreshId(w.store, env.revisionId) && EffectOk(w.store, e, env)
    ensures StoreOk(After(w, e, env).store)
  {
    match e
    case Nothing =>
    case Rehydrate(p, view) =>
      assert PageOk(w.store, p);
      ReadViewRereads(w, p, view, env.files);
      RereadPageOk(w.store, After(w, e, env).store, p);
      RereadStoreOk(w.store, After(w, e, env).store, p);
    case NewPageWith(page, r) =>
      CreatedPage(w.store, page, r, env);
      assert [] + [r] == [r];
      GainedStoreOk(w.store, After(w, e, env).store, page, r);
    case AddRevision(write) => AddKeepsStoreOk(w.store, write, env);
    case SetArchived(write) => ArchiveKeepsStoreOk(w.store, write, env);
  }
}
