/**
 Whole runs of the page service and its outbox relay, one step after another: requests in any
 order, and the relay publishing the oldest pending record, successfully or not.
 */
module Runs {
  import opened Wrappers
  import opened Documents
  import opened PageStore
  import opened PageEvents
  import opened ReplayWindow
  import opened UseCases
  import opened Lifecycle
  import opened OutboxRelay

  datatype Turn =
    | Ask(request: Request, env: Env)
    | Relay(ok: bool, at: int)

  /**
   A world and what led to it: per page every entry ever appended to its replay window, each
   revision's document as it was saved, how far the relay got and what it handed over, the
   latest times seen and the last answer given.
   */
  datatype History = History(
    world: World, arrivals: map<string, seq<Arrival>>, saved: map<string, Document>,
    settled: nat, sent: seq<Event>, now: int, clock: int, answer: Response)

  function Start(limit: nat): History {
    History(World(EMPTY, map[], limit), map[], map[], 0, [], 0, 0, EmptyPayload)
  }

  function ArrivalsOf(h: History, p: string): seq<Arrival> {
    if p in h.arrivals then h.arrivals[p] else []
  }

  /** The history once a request has left this world behind. */
  function Witnessed(h: History, o: Outcome, request: Request, env: Env): History {
    var after, p := o.world, PageOf(request);
    var before, revs := RevisionsOf(h.world.store, p), RevisionsOf(after.store, p);
    var next := h.(world := after, now := env.now, clock := env.clock, answer := o.response);
    if |revs| <= |before| then next
    else
      var r := revs[|revs| - 1];
      next.(saved := h.saved[r.id := r.document],
            arrivals := h.arrivals[p := if request.CreateRequest? then []
                                        else ArrivalsOf(h, p) + [Arrival(RequestEntry(request, r), env.clock)]])
  }

  function Relayed(h: History, ok: bool, at: int): History {
    var outbox, n := h.world.store.outbox, h.settled;
    if n >= |outbox| then h
    else
      var record := outbox[n].(status := if ok then Published else Failed, availableAt := at);
      h.(world := h.world.(store := h.world.store.(outbox := outbox[n := record])),
         settled := n + 1, sent := if ok then h.sent + [record.event] else h.sent)
  }

  function Next(h: History, t: Turn): History {
    match t
    case Ask(request, env) => Witnessed(h, Perform(h.world, request, env), request, env)
    case Relay(ok, at) => Relayed(h, ok, at)
  }

  ghost predicate FreshRecordIds(outbox: seq<OutboxRecord>, ids: RecordIds) {
    && (forall i, j :: 0 <= i < j < 4 ==> ids[i] != ids[j])
    && (forall i, j :: 0 <= i < |outbox| && 0 <= j < 4 ==> outbox[i].id != ids[j])
  }

  /** Ids are drawn fresh and time does not run backwards. */
  ghost predicate Legal(h: History, t: Turn) {
    t.Ask? ==>
      && Drawn(h.world.store, t.request, t.env) && WellFormed(t.request)
      && FreshRecordIds(h.world.store.outbox, t.env.recordIds)
      && 0 < t.env.now && h.now <= t.env.now && h.clock <= t.env.clock
  }

  /** The history after the first n turns. */
  function RunFirst(limit: nat, turns: seq<Turn>, n: nat): History
    requires n <= |turns|
    decreases n, 0
  {
    if n == 0 then Start(limit) else RunNext(limit, turns, n - 1)
  }

  function RunNext(limit: nat, turns: seq<Turn>, n: nat): History
    requires n < |turns|
    decreases n, 2
  {
    RunAfter(limit, turns, n)
  }

  function RunAfter(limit: nat, turns: seq<Turn>, n: nat): History
    requires n < |turns|
    decreases n, 1
  {
    Next(RunFirst(limit, turns, n), turns[n])
  }

  ghost predicate LegalFirst(limit: nat, turns: seq<Turn>, n: nat)
    requires n <= |turns|
    decreases n, 0
  {
    n == 0 || LegalNext(limit, turns, n - 1)
  }

  ghost predicate LegalNext(limit: nat, turns: seq<Turn>, n: nat)
    requires n < |turns|
    decreases n, 1
  {
    LegalFirst(limit, turns, n) && Legal(RunFirst(limit, turns, n), turns[n])
  }

  // ---------------------------------------------------------------------- one turn's effect

  /** How a history continues when its page gains a revision. */
  lemma GainedHistory(h: History, o: Outcome, request: Request, env: Env, page: Page, r: Revision)
    requires Gained(h.world.store, o.world.store, page, r) && page.id == PageOf(request)
    ensures var p, next := PageOf(request), Witnessed(h, o, request, env);
            && next.world == o.world && next.settled == h.settled && next.sent == h.sent
            && next.now == env.now && next.clock == env.clock
            && next.saved == h.saved[r.id := r.document]
            && next.arrivals == h.arrivals[p := if request.CreateRequest? then []
                                                else ArrivalsOf(h, p) + [Arrival(RequestEntry(request, r), env.clock)]]
  {
  }

  /** How it continues when its page gains none. */
  lemma UngainedHistory(h: History, o: Outcome, request: Request, env: Env)
    requires |RevisionsOf(o.world.store, PageOf(request))| == |RevisionsOf(h.world.store, PageOf(request))|
    ensures Witnessed(h, o, request, env)
            == h.(world := o.world, now := env.now, clock := env.clock, answer := o.response)
  {
  }

  /** One page gained one revision together with its projections, its events and, unless new, its window entry. */
  ghost predicate Grew(h: History, next: History, request: Request, env: Env, page: Page, r: Revision) {
    var st, after, created := h.world.store, next.world.store, page.id !in h.world.store.pages;
    && page.id == PageOf(request) == r.pageId && ':' !in page.id && created == request.CreateRequest?
    && r.id == env.revisionId && r.createdAt == env.now
    && Gained(st, after, page, r)
    && after.outbox
       == st.outbox + Records(env.recordIds, page.id,
                              (if created then [CreatedEvent(page, r)] else []) + RevisionEvents(page, r), env.now)
    && (created ==> next.world == h.world.(store := after) && page.draftNo == 1)
    && (!created ==>
          && st.pages[page.id].status != ArchivedStatus
          && page == (if r.kind == DraftKind then WithDraftHead(st.pages[page.id], r)
                      else WithPublishedHead(st.pages[page.id], r))
          && next.world == Logged(h.world.(store := after), RequestEntry(request, r), env.clock))
    && next == Witnessed(h, Outcome(next.world, next.answer), request, env)
    && KeysGrew(st, after, page.id)
  }

  /** At most one idempotency record was added, under a key of the page that had no revision yet. */
  ghost predicate KeysGrew(st: State, after: State, p: string) {
    || after.idempotencies == st.idempotencies
    || exists key ::
         && key != "" && Recorded(st, p, key).None? && IdempotencyKey(p, key) in after.idempotencies
         && after.idempotencies
            == st.idempotencies[IdempotencyKey(p, key) := after.idempotencies[IdempotencyKey(p, key)]]
  }

  /** One live page became archived and says so in one event. */
  ghost predicate Archived(h: History, next: History, env: Env, page: Page) {
    var st := h.world.store;
    && page.id in st.pages && st.pages[page.id].status != ArchivedStatus
    && page == AsArchived(st.pages[page.id], page.updatedBy, env.now)
    && next.world == h.world.(store := st.(
         pages := st.pages[page.id := page],
         outbox := st.outbox + [PendingRecord(env.recordIds[0], page.id, ArchivedEvent(page), env.now)]))
    && next == h.(world := next.world, now := env.now, clock := env.clock, answer := next.answer)
  }

  ghost predicate RereadOnly(h: History, next: History, env: Env, p: string) {
    && Reread(h.world.store, next.world.store, p)
    && SameReferences(h.world.store.revisions[p], next.world.store.revisions[p])
    && next.world == h.world.(store := next.world.store)
    && next == h.(world := next.world, now := env.now, clock := env.clock, answer := next.answer)
  }

  ghost predicate Changed(h: History, next: History, request: Request, env: Env, e: Effect) {
    match e
    case Nothing => next == h.(now := env.now, clock := env.clock, answer := next.answer)
    case Rehydrate(p, _) => p == PageOf(request) && RereadOnly(h, next, env, p)
    case NewPageWith(page, r) => request.CreateRequest? && Grew(h, next, request, env, page, r)
    case AddRevision(write) => write.RevisionWrite? && !request.CreateRequest? && Grew(h, next, request, env, write.page, write.revision)
    case SetArchived(write) => write.page.id == PageOf(request) && Archived(h, next, env, write.page)
  }

  /**
   Every request does nothing to the store, or rewrites file names in the history it read, or
   makes exactly one whole change: a page with its first revision, one more revision of a
   live page, or one page archived.
   */
  lemma RequestIsAllOrNothing(h: History, request: Request, env: Env, o: Outcome) returns (e: Effect)
    requires StoreOk(h.world.store) && Legal(h, Ask(request, env)) && o == Perform(h.world, request, env)
    ensures Changed(h, Witnessed(h, o, request, env), request, env, e)
    ensures StoreOk(o.world.store)
  {
    e := RequestEffect(h.world, request, env);
    EffectKeepsStoreOk(h.world, e, env);
    EffectChanges(h, request, env, e, o);
  }

  lemma EffectChanges(h: History, request: Request, env: Env, e: Effect, o: Outcome)
    requires PageOf(request) in h.world.store.pages ==> PageOk(h.world.store, PageOf(request))
    requires h.world.store.pages.Keys == h.world.store.revisions.Keys
    requires EffectOk(h.world.store, e, env) && Fits(request, e) && o.world == After(h.world, e, env)
    ensures Changed(h, Witnessed(h, o, request, env), request, env, e)
  {
    match e
    case Nothing => UngainedHistory(h, o, request, env);
    case Rehydrate(p, view) =>
      ReadViewRereads(h.world, p, view, env.files);
      UngainedHistory(h, o, request, env);
    case NewPageWith(page, r) =>
      CreatedPage(h.world.store, page, r, env);
      GainedHistory(h, o, request, env, page, r);
    case AddRevision(write) => AdditionChanges(h, request, env, write, o);
    case SetArchived(write) =>
      ArchivedShape(h.world.store, write, env);
      UngainedHistory(h, o, request, env);
  }

  lemma ArchivedShape(st: State, write: Write, env: Env)
    requires EffectOk(st, SetArchived(write), env)
    ensures Locked(st, write).value == st.(
              pages := st.pages[write.page.id := write.page],
              outbox := st.outbox + [PendingRecord(env.recordIds[0], write.page.id, ArchivedEvent(write.page), env.now)])
  {
    assert write.records == [PendingRecord(env.recordIds[0], write.page.id, ArchivedEvent(write.page), env.now)];
  }

  lemma AdditionChanges(h: History, request: Request, env: Env, write: Write, o: Outcome)
    requires PageOk(h.world.store, PageOf(request))
    requires EffectOk(h.world.store, AddRevision(write), env) && Fits(request, AddRevision(write))
    requires o.world == After(h.world, AddRevision(write), env)
    ensures Grew(h, Witnessed(h, o, request, env), request, env, write.page, write.revision)
  {
    AddedRevision(h.world.store, write, env);
    GainedHistory(h, o, request, env, write.page, write.revision);
    assert [] + RevisionEvents(write.page, write.revision) == RevisionEvents(write.page, write.revision);
    AdditionKeys(h.world.store, write, env);
  }

  lemma AdditionKeys(st: State, write: Write, env: Env)
    requires Continues(st, write, env) && PageOk(st, write.revision.pageId) && Locked(st, write).Ok?
    ensures KeysGrew(st, Locked(st, write).value, write.page.id)
  {
    AddedRevision(st, write, env);
    if Locked(st, write).value.idempotencies != st.idempotencies {
      assert Recorded(st, write.revision.pageId, write.record.value.key).None?;
    }
  }

  // ------------------------------------------------------------------ the store invariant

  lemma OutboxIsApart(st: State, after: State)
    requires StoreOk(st) && after == st.(outbox := after.outbox)
    ensures StoreOk(after)
  {
    forall p | p in after.pages ensures PageOk(after, p) {
      assert PageOk(st, p);
    }
    forall k | k in after.idempotencies ensures RecordOk(after, k, after.idempotencies[k]) {
      assert RecordOk(st, k, st.idempotencies[k]);
    }
  }

  /** What turn n of a legal run did: one lawful change, or one relay step. */
  lemma TurnChanges(limit: nat, turns: seq<Turn>, n: nat) returns (e: Effect)
    requires n < |turns| && LegalFirst(limit, turns, n + 1) && StoreOk(RunFirst(limit, turns, n).world.store)
    ensures LegalFirst(limit, turns, n) && Legal(RunFirst(limit, turns, n), turns[n])
    ensures var h, next := RunFirst(limit, turns, n), RunFirst(limit, turns, n + 1);
            && StoreOk(next.world.store)
            && match turns[n]
               case Ask(request, env) => Changed(h, next, request, env, e)
               case Relay(ok, at) => next == Relayed(h, ok, at)
  {
    e := Nothing;
    assert LegalNext(limit, turns, n);
    assert RunNext(limit, turns, n) == RunAfter(limit, turns, n);
    var h := RunFirst(limit, turns, n);
    match turns[n]
    case Ask(request, env) =>
      assert RunAfter(limit, turns, n) == Witnessed(h, Perform(h.world, request, env), request, env);
      e := RequestIsAllOrNothing(h, request, env, Perform(h.world, request, env));
    case Relay(ok, at) =>
      assert RunAfter(limit, turns, n) == Relayed(h, ok, at);
      OutboxIsApart(h.world.store, Relayed(h, ok, at).world.store);
  }

  /** In every reachable state every page is numbered, headed, derived and projected as promised. */
  lemma {:induction false} RunsKeepStoreOk(limit: nat, turns: seq<Turn>, n: nat)
    requires n <= |turns| && LegalFirst(limit, turns, n)
    ensures StoreOk(RunFirst(limit, turns, n).world.store)
    decreases n
  {
    if n == 0 {
      EmptyStoreOk();
    } else {
      assert LegalNext(limit, turns, n - 1);
      RunsKeepStoreOk(limit, turns, n - 1);
      var e := TurnChanges(limit, turns, n - 1);
    }
  }

  // ------------------------------------------------------------- windows log the revisions

  /** The entry is the one its revision leaves, whoever and whatever patch it names. */
  ghost predicate Logs(e: Entry, r: Revision) {
    e == EntryOf(r, e.workspaceId, e.patchId) && e.createdAt > 0
  }

  /** The first n arrivals log revisions 2, 3, ..., n + 1, in time order. */
  ghost predicate LogFirst(revs: seq<Revision>, log: seq<Arrival>, n: nat)
    requires n <= |log| && n < |revs|
    decreases n, 0
  {
    n == 0 || LogNext(revs, log, n - 1)
  }

  ghost predicate LogNext(revs: seq<Revision>, log: seq<Arrival>, n: nat)
    requires n < |log| && n + 1 < |revs|
    decreases n, 1
  {
    && LogFirst(revs, log, n) && Logs(log[n].entry, revs[n + 1])
    && (n > 0 ==> log[n - 1].entry.createdAt <= log[n].entry.createdAt && log[n - 1].clock <= log[n].clock)
  }

  ghost predicate LogOk(revs: seq<Revision>, log: seq<Arrival>, now: int, clock: int) {
    && |log| + 1 == |revs| && LogFirst(revs, log, |log|)
    && (log != [] ==> log[|log| - 1].entry.createdAt <= now && log[|log| - 1].clock <= clock)
  }

  ghost predicate WindowOk(h: History, p: string) {
    var log := ArrivalsOf(h, p);
    && LogOk(RevisionsOf(h.world.store, p), log, h.now, h.clock)
    && EntriesOf(h.world.windows, p) == WindowAfter(log, |log|, WINDOW_TTL, h.world.limit)
  }

  ghost predicate WindowsOk(h: History) {
    && (forall p :: p in h.world.store.pages ==> WindowOk(h, p))
    && (forall p :: p in h.world.windows ==> p in h.world.store.pages)
  }

  lemma {:induction false} LogAlike(xs: seq<Revision>, ys: seq<Revision>, log: seq<Arrival>, more: seq<Arrival>, n: nat)
    requires n <= |log| && n < |xs| && n < |ys| && log <= more && LogFirst(xs, log, n)
    requires forall i :: 0 <= i <= n ==> ys[i] == xs[i].(document := ys[i].document)
    ensures LogFirst(ys, more, n)
    decreases n
  {
    if n > 0 {
      assert LogNext(xs, log, n - 1);
      LogAlike(xs, ys, log, more, n - 1);
      assert ys[n] == xs[n].(document := ys[n].document);
      assert LogNext(ys, more, n - 1);
    }
  }

  lemma LogGrows(revs: seq<Revision>, log: seq<Arrival>, r: Revision, a: Arrival, now: int, clock: int)
    requires LogOk(revs, log, now, clock) && Logs(a.entry, r)
    requires now <= a.entry.createdAt && clock <= a.clock
    ensures LogOk(revs + [r], log + [a], a.entry.createdAt, a.clock)
  {
    LogAlike(revs, revs + [r], log, log + [a], |log|);
    assert LogNext(revs + [r], log + [a], |log|);
  }

  lemma {:induction false} WindowOfPrefix(log: seq<Arrival>, more: seq<Arrival>, n: nat, ttl: int, limit: nat)
    requires n <= |log| && log <= more
    ensures WindowAfter(log, n, ttl, limit) == WindowAfter(more, n, ttl, limit)
    decreases n
  {
    if n > 0 {
      WindowOfPrefix(log, more, n - 1, ttl, limit);
    }
  }

  lemma GrewArrival(h: History, next: History, request: Request, env: Env, page: Page, r: Revision)
    requires Grew(h, next, request, env, page, r) && page.id in h.world.store.pages
    ensures var p, e := page.id, RequestEntry(request, r);
            && ArrivalsOf(next, p) == ArrivalsOf(h, p) + [Arrival(e, env.clock)]
            && RevisionsOf(next.world.store, p) == RevisionsOf(h.world.store, p) + [r]
            && EntriesOf(next.world.windows, p)
               == Appended(EntriesOf(h.world.windows, p), e, WINDOW_TTL, h.world.limit, env.clock)
            && next.now == env.now && next.clock == env.clock && next.world.limit == h.world.limit
            && e == EntryOf(r, e.workspaceId, e.patchId) && e.createdAt == env.now
  {
    GainedHistory(h, Outcome(next.world, next.answer), request, env, page, r);
    EntryIsOfRevision(request, r);
  }

  lemma EntryIsOfRevision(request: Request, r: Revision)
    ensures var e := RequestEntry(request, r); e == EntryOf(r, e.workspaceId, e.patchId) && e.pageId == r.pageId
  {
  }

  lemma GainedWindow(h: History, next: History, p: string, e: Entry, r: Revision)
    requires WindowOk(h, p) && e == EntryOf(r, e.workspaceId, e.patchId) && e.createdAt == next.now
    requires 0 < next.now && h.now <= next.now && h.clock <= next.clock && next.world.limit == h.world.limit
    requires ArrivalsOf(next, p) == ArrivalsOf(h, p) + [Arrival(e, next.clock)]
    requires RevisionsOf(next.world.store, p) == RevisionsOf(h.world.store, p) + [r]
    requires EntriesOf(next.world.windows, p)
             == Appended(EntriesOf(h.world.windows, p), e, WINDOW_TTL, h.world.limit, next.clock)
    ensures WindowOk(next, p)
  {
    var log, a := ArrivalsOf(h, p), Arrival(e, next.clock);
    LogGrows(RevisionsOf(h.world.store, p), log, r, a, h.now, h.clock);
    WindowOfPrefix(log, log + [a], |log|, WINDOW_TTL, h.world.limit);
  }

  /** A page whose revisions (up to documents), log and window stay keeps its window invariant. */
  lemma UntouchedWindow(h: History, next: History, p: string)
    requires WindowOk(h, p) && ArrivalsOf(next, p) == ArrivalsOf(h, p) && next.world.limit == h.world.limit
    requires EntriesOf(next.world.windows, p) == EntriesOf(h.world.windows, p)
    requires Alike(RevisionsOf(h.world.store, p), RevisionsOf(next.world.store, p))
    requires h.now <= next.now && h.clock <= next.clock
    ensures WindowOk(next, p)
  {
    var log := ArrivalsOf(h, p);
    LogAlike(RevisionsOf(h.world.store, p), RevisionsOf(next.world.store, p), log, log, |log|);
  }

  lemma AlikeItself(revs: seq<Revision>)
    ensures Alike(revs, revs)
  {
  }

  lemma CreatedWindow(h: History, next: History, request: Request, env: Env, page: Page, r: Revision)
    requires WindowsOk(h) && Grew(h, next, request, env, page, r) && page.id !in h.world.store.pages
    requires page.id !in h.world.store.revisions
    ensures WindowOk(next, page.id)
  {
    GainedHistory(h, Outcome(next.world, next.answer), request, env, page, r);
  }

  /** Growth of one page is not seen by another. */
  lemma GrewElsewhere(h: History, next: History, request: Request, env: Env, page: Page, r: Revision, q: string)
    requires Grew(h, next, request, env, page, r) && q != page.id
    ensures q in next.world.store.pages <==> q in h.world.store.pages
    ensures RevisionsOf(next.world.store, q) == RevisionsOf(h.world.store, q)
    ensures ArrivalsOf(next, q) == ArrivalsOf(h, q)
    ensures EntriesOf(next.world.windows, q) == EntriesOf(h.world.windows, q)
    ensures next.now == env.now && next.clock == env.clock && next.world.limit == h.world.limit
  {
    GainedHistory(h, Outcome(next.world, next.answer), request, env, page, r);
  }

  lemma GrewWindow(h: History, next: History, request: Request, env: Env, page: Page, r: Revision)
    requires Grew(h, next, request, env, page, r) && WindowsOk(h)
    requires page.id in h.world.store.pages <==> page.id in h.world.store.revisions
    requires 0 < env.now && h.now <= env.now && h.clock <= env.clock
    ensures WindowOk(next, page.id)
  {
    if page.id in h.world.store.pages {
      assert WindowOk(h, page.id);
      GrewArrival(h, next, request, env, page, r);
      GainedWindow(h, next, page.id, RequestEntry(request, r), r);
    } else {
      CreatedWindow(h, next, request, env, page, r);
    }
  }

  lemma GrewWindowMap(h: History, next: History, request: Request, env: Env, page: Page, r: Revision)
    requires Grew(h, next, request, env, page, r)
    ensures next.world.store.pages == h.world.store.pages[page.id := page]
    ensures next.world.windows.Keys <= h.world.windows.Keys + {page.id}
  {
  }

  lemma GrewWindowKeys(h: History, next: History, page: Page)
    requires next.world.store.pages == h.world.store.pages[page.id := page]
    requires next.world.windows.Keys <= h.world.windows.Keys + {page.id}
    requires forall p :: p in h.world.windows ==> p in h.world.store.pages
    ensures forall p :: p in next.world.windows ==> p in next.world.store.pages
  {
  }

  lemma GrewKeepsWindowsOk(h: History, next: History, request: Request, env: Env, page: Page, r: Revision)
    requires WindowsOk(h) && Grew(h, next, request, env, page, r)
    requires page.id in h.world.store.pages <==> page.id in h.world.store.revisions
    requires 0 < env.now && h.now <= env.now && h.clock <= env.clock
    ensures WindowsOk(next)
  {
    GrewWindowMap(h, next, request, env, page, r);
    GrewWindowKeys(h, next, page);
    forall p | p in next.world.store.pages ensures WindowOk(next, p) {
      if p == page.id {
        GrewWindow(h, next, request, env, page, r);
      } else {
        GrewElsewhere(h, next, request, env, page, r, p);
        AlikeItself(RevisionsOf(h.world.store, p));
        UntouchedWindow(h, next, p);
      }
    }
  }

  lemma QuietKeepsWindowsOk(h: History, next: History)
    requires WindowsOk(h) && h.now <= next.now && h.clock <= next.clock
    requires next.arrivals == h.arrivals && next.world == h.world.(store := next.world.store)
    requires next.world.store.pages.Keys == h.world.store.pages.Keys
    requires forall p :: p in h.world.store.pages ==>
               Alike(RevisionsOf(h.world.store, p), RevisionsOf(next.world.store, p))
    ensures WindowsOk(next)
  {
    forall p | p in next.world.store.pages ensures WindowOk(next, p) {
      UntouchedWindow(h, next, p);
    }
  }

  lemma ChangedKeepsWindowsOk(h: History, next: History, request: Request, env: Env, e: Effect)
    requires h.world.store.pages.Keys == h.world.store.revisions.Keys
    requires WindowsOk(h) && Changed(h, next, request, env, e)
    requires 0 < env.now && h.now <= env.now && h.clock <= env.clock
    ensures WindowsOk(next)
  {
    forall p ensures Alike(RevisionsOf(h.world.store, p), RevisionsOf(h.world.store, p)) {
      AlikeItself(RevisionsOf(h.world.store, p));
    }
    match e
    case NewPageWith(page, r) => GrewKeepsWindowsOk(h, next, request, env, page, r);
    case AddRevision(write) => GrewKeepsWindowsOk(h, next, request, env, write.page, write.revision);
    case _ => QuietKeepsWindowsOk(h, next);
  }

  lemma RelayedKeepsWindowsOk(h: History, ok: bool, at: int)
    requires WindowsOk(h)
    ensures WindowsOk(Relayed(h, ok, at))
  {
  }

  lemma {:induction false} RunsKeepWindowsOk(limit: nat, turns: seq<Turn>, n: nat)
    requires n <= |turns| && LegalFirst(limit, turns, n)
    ensures WindowsOk(RunFirst(limit, turns, n))
    decreases n
  {
    if n > 0 {
      assert LegalNext(limit, turns, n - 1);
      RunsKeepWindowsOk(limit, turns, n - 1);
      RunsKeepStoreOk(limit, turns, n - 1);
      var e := TurnChanges(limit, turns, n - 1);
      var h := RunFirst(limit, turns, n - 1);
      match turns[n - 1] {
        case Ask(request, env) => ChangedKeepsWindowsOk(h, RunFirst(limit, turns, n), request, env, e);
        case Relay(ok, at) => RelayedKeepsWindowsOk(h, ok, at);
      }
    }
  }
}
