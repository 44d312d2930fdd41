/** What the lifecycle invariant means for clients, and what stale readings can do to it. */
module Guarantees {
  import opened Wrappers
  import opened Sequences
  import opened Documents
  import opened PageStore
  import opened PageEvents
  import opened ReplayWindow
  import opened UseCases
  import opened Lifecycle
  import opened Runs

  // ------------------------------------------------------------------- a page at any time

  lemma {:induction false} LastOfIsLast(revs: seq<Revision>, n: nat, kind: Kind)
    requires n <= |revs|
    ensures var i := LastOf(revs, n, kind);
            && (i >= 0 ==> revs[i].kind == kind)
            && forall k :: i < k < n ==> revs[k].kind != kind
    decreases n
  {
    if n > 0 && revs[n - 1].kind != kind {
      LastOfIsLast(revs, n - 1, kind);
    }
  }

  ghost predicate IsLastDraft(revs: seq<Revision>, i: int, n: nat)
    requires n <= |revs|
  {
    && 0 <= i < n && revs[i].kind == DraftKind
    && forall k :: i < k < n ==> revs[k].kind == PublishedKind
  }

  /** No revision of the page is published, or exactly the one numbered `no` is the last published one. */
  ghost predicate IsLastPublished(revs: seq<Revision>, no: int, id: string) {
    || (no == 0 && id == "" && forall k :: 0 <= k < |revs| ==> revs[k].kind == DraftKind)
    || (&& 0 < no <= |revs| && revs[no - 1].kind == PublishedKind && revs[no - 1].id == id
        && forall k :: no <= k < |revs| ==> revs[k].kind == DraftKind)
  }

  /** Both heads of a page, in terms of its revision list. */
  lemma HeadsPointToLast(st: State, p: string)
    requires PageOk(st, p)
    ensures var page, revs := st.pages[p], RevisionsOf(st, p);
            && IsLastDraft(revs, page.draftNo - 1, |revs|)
            && page.draftId == revs[page.draftNo - 1].id && page.title == revs[page.draftNo - 1].title
            && IsLastPublished(revs, page.publishedNo, page.publishedId)
            && (page.status == DraftStatus ==> page.publishedNo == 0)
            && (page.status == PublishedStatus ==> page.publishedNo > 0)
            && NextRevisionNo(page) == |revs| + 1
  {
    var revs := RevisionsOf(st, p);
    HeadsAreLast(revs, |revs|);
    LastOfIsLast(revs, |revs|, DraftKind);
    LastOfIsLast(revs, |revs|, PublishedKind);
    NextNoIsLength(st.pages[p], revs);
  }

  /** The draft a revision was made from: the last one before it, or none. */
  ghost predicate MadeFrom(revs: seq<Revision>, i: nat)
    requires i < |revs|
  {
    var r := revs[i];
    || (r.baseId == "" && i == 0)
    || exists b :: IsLastDraft(revs, b, i) && r.baseId == revs[b].id
                   && (r.kind == PublishedKind ==> SameContent(r, revs[b]))
  }

  /**
   Revision i of a page: numbered i + 1, found under its id and under no other, stored as a
   canonical snapshot, based on the last draft before it, publishing that draft unchanged or
   restoring an earlier revision it names, and projected exactly.
   */
  lemma RevisionsDerive(st: State, p: string, i: nat)
    requires PageOk(st, p) && i < |RevisionsOf(st, p)|
    ensures var revs := RevisionsOf(st, p);
            var r := revs[i];
            && r.no == i + 1 && r.pageId == p && RevisionById(st, p, r.id) == Some(r)
            && Canonical(r.document) == r.document && Projected(TablesOf(st), r)
            && MadeFrom(revs, i)
            && (r.restoredFrom != "" <==> r.via == SavedByRestore)
            && (r.restoredFrom != "" ==>
                  exists s :: 0 <= s < i && revs[s].id == r.restoredFrom && SameContent(r, revs[s]))
  {
    var revs := RevisionsOf(st, p);
    DerivedAt(revs, |revs|, i);
    ProjectedAt(TablesOf(st), p, revs, |revs|, i);
    FoundById(revs, i);
    BaseIsLastDraft(revs, i);
    SourceIsEarlier(revs, i);
  }

  lemma SourceIsEarlier(revs: seq<Revision>, i: nat)
    requires i < |revs| && Derived(revs[..i], revs[i])
    ensures revs[i].restoredFrom != "" ==>
              exists s :: 0 <= s < i && revs[s].id == revs[i].restoredFrom && SameContent(revs[i], revs[s])
  {
  }

  lemma BaseIsLastDraft(revs: seq<Revision>, i: nat)
    requires i < |revs| && HistoryOk(revs) && Derived(revs[..i], revs[i])
    ensures MadeFrom(revs, i)
  {
    var b := LastOf(revs[..i], i, DraftKind);
    LastOfIsLast(revs[..i], i, DraftKind);
    assert forall k :: 0 <= k < i ==> revs[..i][k] == revs[k];
    DerivedAt(revs, |revs|, 0);
    if b >= 0 {
      assert IsLastDraft(revs, b, i);
    }
  }

  // ------------------------------------------------------------------------------- forever

  lemma AlikeTransitive(xs: seq<Revision>, ys: seq<Revision>, zs: seq<Revision>)
    requires Alike(xs, ys) && Alike(ys, zs)
    ensures Alike(xs, zs)
  {
  }

  /** The page is archived, and neither it nor its history (file names aside) differs from before. */
  ghost predicate StillArchived(st: State, after: State, p: string) {
    && p in st.pages && st.pages[p].status == ArchivedStatus
    && p in after.pages && after.pages[p] == st.pages[p]
    && Alike(RevisionsOf(st, p), RevisionsOf(after, p))
  }

  lemma ChangedKeepsArchived(h: History, next: History, request: Request, env: Env, e: Effect, p: string)
    requires Changed(h, next, request, env, e)
    requires p in h.world.store.pages && h.world.store.pages[p].status == ArchivedStatus
    ensures StillArchived(h.world.store, next.world.store, p)
  {
    AlikeItself(RevisionsOf(h.world.store, p));
    match e
    case Nothing =>
    case Rehydrate(q, _) =>
    case NewPageWith(page, r) => GrewElsewhere(h, next, request, env, page, r, p);
    case AddRevision(write) => GrewElsewhere(h, next, request, env, write.page, write.revision, p);
    case SetArchived(write) =>
  }

  /** Archived is terminal: whatever follows, the page and its history stay as they were. */
  lemma {:induction false} ArchivedForever(limit: nat, turns: seq<Turn>, n: nat, m: nat, p: string)
    requires n <= m <= |turns| && LegalFirst(limit, turns, m)
    requires p in RunFirst(limit, turns, n).world.store.pages
    requires RunFirst(limit, turns, n).world.store.pages[p].status == ArchivedStatus
    ensures StillArchived(RunFirst(limit, turns, n).world.store, RunFirst(limit, turns, m).world.store, p)
    decreases m
  {
    var st := RunFirst(limit, turns, n).world.store;
    if n == m {
      AlikeItself(RevisionsOf(st, p));
    } else {
      assert LegalNext(limit, turns, m - 1);
      ArchivedForever(limit, turns, n, m - 1, p);
      RunsKeepStoreOk(limit, turns, m - 1);
      var h, next := RunFirst(limit, turns, m - 1), RunFirst(limit, turns, m);
      var e := TurnChanges(limit, turns, m - 1);
      match turns[m - 1] {
        case Ask(request, env) => ChangedKeepsArchived(h, next, request, env, e, p);
        case Relay(_, _) => AlikeItself(RevisionsOf(h.world.store, p));
      }
      AlikeTransitive(RevisionsOf(st, p), RevisionsOf(h.world.store, p), RevisionsOf(next.world.store, p));
    }
  }

  /** The key stands for this revision. */
  ghost predicate StandsFor(st: State, p: string, key: string, id: string, no: int) {
    && Recorded(st, p, key).Some?
    && Recorded(st, p, key).value.id == id && Recorded(st, p, key).value.no == no
  }

  lemma KeyStays(st: State, after: State, page: Page, r: Revision, p: string, key: string)
    requires Gained(st, after, page, r) && KeysGrew(st, after, page.id)
    requires ':' !in p && ':' !in page.id && Recorded(st, p, key).Some?
    ensures StandsFor(after, p, key, Recorded(st, p, key).value.id, Recorded(st, p, key).value.no)
  {
    var k := IdempotencyKey(p, key);
    if after.idempotencies != st.idempotencies {
      var other :| other != "" && Recorded(st, page.id, other).None? && IdempotencyKey(page.id, other) in after.idempotencies
        && after.idempotencies
           == st.idempotencies[IdempotencyKey(page.id, other) := after.idempotencies[IdempotencyKey(page.id, other)]];
      IdempotencyKeysAreInjective(p, key, page.id, other);
    }
    if p == page.id {
      IndexInLonger(RevisionsOf(st, p), r, st.idempotencies[k].revisionId);
    }
  }

  lemma ChangedKeepsKey(h: History, next: History, request: Request, env: Env, e: Effect, p: string, key: string,
                        id: string, no: int)
    requires Changed(h, next, request, env, e) && ':' !in p && StandsFor(h.world.store, p, key, id, no)
    ensures StandsFor(next.world.store, p, key, id, no)
  {
    var st, after := h.world.store, next.world.store;
    match e
    case Nothing =>
    case Rehydrate(q, _) =>
      if p == q {
        IndexAgrees(st.revisions[p], after.revisions[p], st.idempotencies[IdempotencyKey(p, key)].revisionId);
      }
    case NewPageWith(page, r) => GrewKeepsKey(h, next, request, env, page, r, p, key, id, no);
    case AddRevision(write) => GrewKeepsKey(h, next, request, env, write.page, write.revision, p, key, id, no);
    case SetArchived(write) =>
  }

  lemma GrewKeepsKey(h: History, next: History, request: Request, env: Env, page: Page, r: Revision, p: string, key: string,
                     id: string, no: int)
    requires Grew(h, next, request, env, page, r) && ':' !in p && StandsFor(h.world.store, p, key, id, no)
    ensures StandsFor(next.world.store, p, key, id, no)
  {
    KeyStays(h.world.store, next.world.store, page, r, p, key);
  }

  lemma StandingPageExists(st: State, p: string, key: string, id: string, no: int)
    requires StoreOk(st) && StandsFor(st, p, key, id, no)
    ensures ':' !in p
  {
  }

  lemma RelayKeepsKey(h: History, ok: bool, at: int, p: string, key: string, id: string, no: int)
    requires StandsFor(h.world.store, p, key, id, no)
    ensures StandsFor(Relayed(h, ok, at).world.store, p, key, id, no)
  {
  }

  /** Once a key stands for a revision it does so forever. */
  lemma {:induction false} KeyForever(limit: nat, turns: seq<Turn>, n: nat, m: nat, p: string, key: string, id: string, no: int)
    requires n <= m <= |turns| && LegalFirst(limit, turns, m)
    requires StandsFor(RunFirst(limit, turns, n).world.store, p, key, id, no)
    ensures StandsFor(RunFirst(limit, turns, m).world.store, p, key, id, no)
    decreases m
  {
    if n < m {
      assert LegalNext(limit, turns, m - 1);
      KeyForever(limit, turns, n, m - 1, p, key, id, no);
      KeyStaysOneTurn(limit, turns, m - 1, p, key, id, no);
    }
  }

  lemma KeyStaysOneTurn(limit: nat, turns: seq<Turn>, n: nat, p: string, key: string, id: string, no: int)
    requires n < |turns| && LegalFirst(limit, turns, n + 1)
    requires StandsFor(RunFirst(limit, turns, n).world.store, p, key, id, no)
    ensures StandsFor(RunFirst(limit, turns, n + 1).world.store, p, key, id, no)
  {
    assert LegalNext(limit, turns, n);
    RunsKeepStoreOk(limit, turns, n);
    var h := RunFirst(limit, turns, n);
    StandingPageExists(h.world.store, p, key, id, no);
    var e := TurnChanges(limit, turns, n);
    match turns[n]
    case Ask(request, env) => ChangedKeepsKey(h, RunFirst(limit, turns, n + 1), request, env, e, p, key, id, no);
    case Relay(ok, at) => RelayKeepsKey(h, ok, at, p, key, id, no);
  }

  /** A valid save with a recorded key returns the recorded revision and changes nothing, archived page or not. */
  lemma RecordedSaveReplays(w: World, input: SaveInput, env: Env, id: string, no: int)
    requires StandsFor(w.store, input.pageId, input.key, id, no)
    requires Text.TrimSpace(input.pageId) != "" && input.base > 0
    ensures Save(w, input, env) == Outcome(w, Accepted(input.pageId, id, no))
  {
  }

  /** The three ways a save ends. */
  lemma SaveEnds(w: World, input: SaveInput, env: Env, o: Outcome)
    requires o == Save(w, input, env)
    ensures var st, p := w.store, input.pageId;
            || (o.world == w && o.response.Refused?)
            || (o.world == w && Recorded(st, p, input.key).Some?
                && o.response == Accepted(p, Recorded(st, p, input.key).value.id, Recorded(st, p, input.key).value.no))
            || (&& p in st.pages && st.pages[p].status != ArchivedStatus && st.pages[p].draftNo == input.base
                && Recorded(st, p, input.key).None? && HeadRevision(st, p, DraftKind).Some?
                && Text.TrimSpace(p) != "" && input.base > 0
                && var plan := PlanSave(input, st.pages[p], HeadRevision(st, p, DraftKind).value.id, env);
                   plan.Ok? && Locked(st, plan.value).Ok? && o.world.store == Locked(st, plan.value).value
                   && o.response == Accepted(p, plan.value.revision.id, plan.value.revision.no))
  {
  }

  lemma NewKeyStands(st: State, write: Write, env: Env)
    requires Continues(st, write, env) && PageOk(st, write.revision.pageId) && Locked(st, write).Ok?
    requires write.record.Some? && write.revision.kind == DraftKind
    ensures StandsFor(Locked(st, write).value, write.revision.pageId, write.record.value.key, write.revision.id, write.revision.no)
  {
    AddedRevision(st, write, env);
    NewRecordStands(st, Locked(st, write).value, write.page, write.revision, write.record.value);
  }

  lemma NewRecordStands(st: State, after: State, page: Page, r: Revision, record: IdempotencyRecord)
    requires Gained(st, after, page, r) && Derived(RevisionsOf(st, page.id), r)
    requires record.key != "" && record.revisionId == r.id
    requires after.idempotencies == st.idempotencies[IdempotencyKey(page.id, record.key) := record]
    ensures StandsFor(after, page.id, record.key, r.id, r.no)
  {
    var revs := RevisionsOf(st, page.id);
    IndexIs(revs + [r], r.id, |revs|);
  }

  /** An accepted save with a key records it. */
  lemma AcceptedSaveRecords(w: World, input: SaveInput, env: Env, o: Outcome)
    requires input.pageId in w.store.pages ==> PageOk(w.store, input.pageId)
    requires FreshId(w.store, env.revisionId) && (input.via == SavedByRest || input.via == SavedByPatch)
    requires input.key != "" && o == Save(w, input, env) && o.response.Accepted?
    ensures StandsFor(o.world.store, input.pageId, input.key, o.response.revisionId, o.response.revisionNo)
    ensures o.response.pageId == input.pageId && Text.TrimSpace(input.pageId) != ""
  {
    SaveEnds(w, input, env, o);
    if Recorded(w.store, input.pageId, input.key).None? {
      PlannedSaveContinues(w.store, input, env);
      NewKeyStands(w.store, PlanSave(input, w.store.pages[input.pageId],
                                     HeadRevision(w.store, input.pageId, DraftKind).value.id, env).value, env);
    }
  }

  lemma SaveTurn(limit: nat, turns: seq<Turn>, n: nat) returns (o: Outcome)
    requires n < |turns| && turns[n].Ask? && turns[n].request.SaveRequest?
    ensures o == Save(RunFirst(limit, turns, n).world, turns[n].request.save, turns[n].env)
    ensures RunFirst(limit, turns, n + 1).world == o.world && RunFirst(limit, turns, n + 1).answer == o.response
  {
    o := Save(RunFirst(limit, turns, n).world, turns[n].request.save, turns[n].env);
    assert RunNext(limit, turns, n) == RunAfter(limit, turns, n) == Witnessed(RunFirst(limit, turns, n), o, turns[n].request, turns[n].env);
  }

  lemma AcceptedTurnRecords(limit: nat, turns: seq<Turn>, n: nat, input: SaveInput)
    requires n < |turns| && LegalFirst(limit, turns, n + 1)
    requires turns[n].Ask? && turns[n].request == SaveRequest(input) && input.key != ""
    requires RunFirst(limit, turns, n + 1).answer.Accepted?
    ensures var h := RunFirst(limit, turns, n + 1);
            && StandsFor(h.world.store, input.pageId, input.key, h.answer.revisionId, h.answer.revisionNo)
            && h.answer.pageId == input.pageId && Text.TrimSpace(input.pageId) != ""
  {
    assert LegalNext(limit, turns, n);
    RunsKeepStoreOk(limit, turns, n);
    var o := SaveTurn(limit, turns, n);
    AcceptedSaveRecords(RunFirst(limit, turns, n).world, input, turns[n].env, o);
  }

  lemma ReplayedTurn(limit: nat, turns: seq<Turn>, n: nat, input: SaveInput, id: string, no: int)
    requires n < |turns| && turns[n].Ask? && turns[n].request == SaveRequest(input)
    requires StandsFor(RunFirst(limit, turns, n).world.store, input.pageId, input.key, id, no)
    requires Text.TrimSpace(input.pageId) != "" && input.base > 0
    ensures RunFirst(limit, turns, n + 1).answer == Accepted(input.pageId, id, no)
    ensures RunFirst(limit, turns, n + 1).world == RunFirst(limit, turns, n).world
  {
    var o := SaveTurn(limit, turns, n);
    RecordedSaveReplays(RunFirst(limit, turns, n).world, input, turns[n].env, id, no);
  }

  /**
   A save that was accepted under a key is answered with the same revision whenever it is
   repeated, whatever happened in between, and the repetition changes nothing.
   */
  lemma SaveIsIdempotent(limit: nat, turns: seq<Turn>, n: nat, m: nat, first: SaveInput, again: SaveInput)
    requires n < m < |turns| && LegalFirst(limit, turns, m + 1)
    requires turns[n].Ask? && turns[n].request == SaveRequest(first)
    requires turns[m].Ask? && turns[m].request == SaveRequest(again)
    requires first.key != "" && again.key == first.key && again.pageId == first.pageId && again.base > 0
    requires RunFirst(limit, turns, n + 1).answer.Accepted?
    ensures RunFirst(limit, turns, m + 1).answer == RunFirst(limit, turns, n + 1).answer
    ensures RunFirst(limit, turns, m + 1).world == RunFirst(limit, turns, m).world
  {
    LegalPrefix(limit, turns, m, m + 1);
    LegalPrefix(limit, turns, n + 1, m);
    AcceptedTurnRecords(limit, turns, n, first);
    var answer := RunFirst(limit, turns, n + 1).answer;
    KeyForever(limit, turns, n + 1, m, first.pageId, first.key, answer.revisionId, answer.revisionNo);
    ReplayedTurn(limit, turns, m, again, answer.revisionId, answer.revisionNo);
  }

  lemma {:induction false} LegalPrefix(limit: nat, turns: seq<Turn>, n: nat, m: nat)
    requires n <= m <= |turns| && LegalFirst(limit, turns, m)
    ensures LegalFirst(limit, turns, n)
    decreases m
  {
    if n < m {
      assert LegalNext(limit, turns, m - 1);
      LegalPrefix(limit, turns, n, m - 1);
    }
  }

  // -------------------------------------------------------------------- the replay window

  lemma {:induction false} LogAt(revs: seq<Revision>, log: seq<Arrival>, n: nat, i: nat)
    requires i < n <= |log| && n < |revs| && LogFirst(revs, log, n)
    ensures Logs(log[i].entry, revs[i + 1])
    ensures i > 0 ==> log[i - 1].entry.createdAt <= log[i].entry.createdAt && log[i - 1].clock <= log[i].clock
    decreases n
  {
    assert LogNext(revs, log, n - 1);
    if i < n - 1 {
      LogAt(revs, log, n - 1, i);
    }
  }

  lemma {:induction false} LogTimes(revs: seq<Revision>, log: seq<Arrival>, i: nat, j: nat)
    requires i <= j < |log| && |log| < |revs| && LogFirst(revs, log, |log|)
    ensures log[i].entry.createdAt <= log[j].entry.createdAt
    decreases j
  {
    if i < j {
      LogTimes(revs, log, i, j - 1);
      LogAt(revs, log, |log|, j);
    }
  }

  lemma LogIsOrdered(revs: seq<Revision>, log: seq<Arrival>)
    requires |log| < |revs| && LogFirst(revs, log, |log|)
    ensures Ordered(log)
  {
    forall i | 0 <= i < |log| ensures Log(log)[i] == log[i].entry && (i > 0 ==> log[i - 1].clock <= log[i].clock) {
      LogAt(revs, log, |log|, i);
    }
    forall i, j | 0 <= i <= j < |log| ensures Log(log)[i].createdAt <= Log(log)[j].createdAt {
      LogTimes(revs, log, i, j);
    }
  }

  /** The window holds the latest entries of the log, and they log the latest revisions, in order. */
  ghost predicate LogsLatest(window: seq<Entry>, log: seq<Arrival>, revs: seq<Revision>) {
    && |window| <= |log| && |log| + 1 == |revs|
    && forall i :: 0 <= i < |window| ==>
         && window[i] == log[|log| - |window| + i].entry
         && Logs(window[i], revs[|revs| - |window| + i])
  }

  /**
   Along every run the replay window of a page logs its latest revisions without a gap; it
   starts no later than the length limit and the last append's cutoff force it to.
   */
  lemma WindowLogsLatest(h: History, p: string)
    requires WindowOk(h, p)
    ensures var window, revs, log := EntriesOf(h.world.windows, p), RevisionsOf(h.world.store, p), ArrivalsOf(h, p);
            && LogsLatest(window, log, revs)
            && |window| == if log == [] then 0 else |log| - WindowStart(log, |log|, WINDOW_TTL, h.world.limit)
  {
    SuffixLogsLatest(RevisionsOf(h.world.store, p), ArrivalsOf(h, p), h.world.limit);
  }

  lemma SuffixLogsLatest(revs: seq<Revision>, log: seq<Arrival>, limit: nat)
    requires |log| + 1 == |revs| && LogFirst(revs, log, |log|)
    ensures var window := WindowAfter(log, |log|, WINDOW_TTL, limit);
            && LogsLatest(window, log, revs)
            && |window| == if log == [] then 0 else |log| - WindowStart(log, |log|, WINDOW_TTL, limit)
  {
    if log != [] {
      LogIsOrdered(revs, log);
      WindowIsLogSuffix(log, |log|, WINDOW_TTL, limit);
      TailLogsLatest(revs, log, WindowStart(log, |log|, WINDOW_TTL, limit), WindowAfter(log, |log|, WINDOW_TTL, limit));
    }
  }

  lemma TailLogsLatest(revs: seq<Revision>, log: seq<Arrival>, from: nat, window: seq<Entry>)
    requires |log| + 1 == |revs| && from <= |log| && LogFirst(revs, log, |log|)
    requires window == Log(log)[from..|log|]
    ensures LogsLatest(window, log, revs)
  {
    forall i | 0 <= i < |window|
      ensures window[i] == log[|log| - |window| + i].entry && Logs(window[i], revs[|revs| - |window| + i])
    {
      LogAt(revs, log, |log|, from + i);
      assert window[i] == Log(log)[from + i];
    }
  }

  // ------------------------------------------------------------- writes from stale readings

  /**
   `copy` is how the page read earlier, when its draft head was the present one; since then
   it may have been published and archived, but no draft was saved.
   */
  ghost predicate EarlierCopy(copy: Page, page: Page, revs: seq<Revision>) {
    && copy.id == page.id && copy.status != ArchivedStatus
    && copy.draftNo == page.draftNo && copy.draftId == page.draftId && copy.title == page.title
    && (copy.status == DraftStatus ==> copy.publishedNo == 0)
    && (copy.status == PublishedStatus ==> copy.publishedNo > 0)
    && (copy.publishedId == "" || RevisionIndex(revs, copy.publishedId) < |revs|)
    && (if copy.publishedNo == page.publishedNo then copy.publishedId == page.publishedId
        else copy.publishedId != page.publishedId && copy.publishedNo < page.publishedNo && page.draftNo < page.publishedNo)
  }

  lemma CopyIsEarlier(st: State, p: string)
    requires PageOk(st, p) && st.pages[p].status != ArchivedStatus
    ensures EarlierCopy(st.pages[p], st.pages[p], RevisionsOf(st, p))
  {
    var revs := RevisionsOf(st, p);
    HeadsAreLast(revs, |revs|);
    if st.pages[p].publishedId != "" {
      FoundById(revs, LastOf(revs, |revs|, PublishedKind));
    }
  }

  /** A change either leaves the copy an earlier one or has moved the draft head past it. */
  ghost predicate AgedCopy(copy: Page, st: State, p: string) {
    && p in st.pages && copy.draftNo <= st.pages[p].draftNo
    && (copy.draftNo == st.pages[p].draftNo ==> EarlierCopy(copy, st.pages[p], RevisionsOf(st, p)))
  }

  lemma PublicationAges(copy: Page, page: Page, revs: seq<Revision>, r: Revision)
    requires EarlierCopy(copy, page, revs) && r.no > page.draftNo && r.no > page.publishedNo
    requires r.id != "" && RevisionIndex(revs, r.id) == |revs|
    ensures EarlierCopy(copy, WithPublishedHead(page, r).(title := page.title), revs + [r])
  {
    if copy.publishedId != "" {
      IndexInLonger(revs, r, copy.publishedId);
    }
  }

  lemma HeadsAge(copy: Page, page: Page, revs: seq<Revision>, r: Revision)
    requires HistoryOk(revs + [r]) && HistoryOk(revs) && HeadsOk(page, revs)
    requires HeadsOk(WithPublishedHead(page, r), revs + [r]) || r.kind == DraftKind
    requires copy.draftNo <= page.draftNo
    requires copy.draftNo == page.draftNo ==> EarlierCopy(copy, page, revs)
    ensures r.kind == DraftKind ==> r.no > page.draftNo
    ensures r.kind == PublishedKind && copy.draftNo == page.draftNo ==>
              EarlierCopy(copy, WithPublishedHead(page, r), revs + [r])
  {
    HeadsAreLast(revs, |revs|);
    DerivedAt(revs + [r], |revs| + 1, |revs|);
    assert (revs + [r])[..|revs|] == revs;
    if r.kind == PublishedKind && copy.draftNo == page.draftNo {
      PublicationAges(copy, page, revs, r);
      HeadsAfterSame(revs, revs + [r], |revs|);
    }
  }

  lemma GrewHeads(h: History, next: History, request: Request, env: Env, page: Page, r: Revision)
    requires Grew(h, next, request, env, page, r) && page.id in h.world.store.pages
    ensures next.world.store.pages[page.id] == page
    ensures page == (if r.kind == DraftKind then WithDraftHead(h.world.store.pages[page.id], r)
                     else WithPublishedHead(h.world.store.pages[page.id], r))
    ensures RevisionsOf(next.world.store, page.id) == RevisionsOf(h.world.store, page.id) + [r]
  {
  }

  lemma GrewAges(h: History, next: History, request: Request, env: Env, page: Page, r: Revision, copy: Page)
    requires Grew(h, next, request, env, page, r) && AgedCopy(copy, h.world.store, page.id)
    requires PageOk(h.world.store, page.id) && PageOk(next.world.store, page.id)
    ensures AgedCopy(copy, next.world.store, page.id)
  {
    GrewHeads(h, next, request, env, page, r);
    HeadsAge(copy, h.world.store.pages[page.id], RevisionsOf(h.world.store, page.id), r);
  }

  lemma ChangedAges(h: History, next: History, request: Request, env: Env, e: Effect, p: string, copy: Page)
    requires Changed(h, next, request, env, e) && AgedCopy(copy, h.world.store, p)
    requires PageOk(h.world.store, p) && PageOk(next.world.store, p)
    ensures AgedCopy(copy, next.world.store, p)
  {
    match e
    case Nothing =>
    case Rehydrate(q, _) =>
      if q == p {
        IndexAgrees(h.world.store.revisions[p], next.world.store.revisions[p], copy.publishedId);
      }
    case NewPageWith(page, r) => GrewElsewhere(h, next, request, env, page, r, p);
    case AddRevision(write) =>
      if write.page.id == p {
        GrewAges(h, next, request, env, write.page, write.revision, copy);
      } else {
        GrewElsewhere(h, next, request, env, write.page, write.revision, p);
        OtherPageKept(h, next, request, env, write.page, write.revision, p);
      }
    case SetArchived(write) =>
  }

  lemma OtherPageKept(h: History, next: History, request: Request, env: Env, page: Page, r: Revision, q: string)
    requires Grew(h, next, request, env, page, r) && q != page.id && q in h.world.store.pages
    ensures q in next.world.store.pages && next.world.store.pages[q] == h.world.store.pages[q]
  {
  }

  /** What a request read of a live page stays an earlier copy for as long as no draft is saved. */
  lemma {:induction false} CopiesAge(limit: nat, turns: seq<Turn>, n: nat, m: nat, p: string)
    requires n <= m <= |turns| && LegalFirst(limit, turns, m)
    requires p in RunFirst(limit, turns, n).world.store.pages
    requires RunFirst(limit, turns, n).world.store.pages[p].status != ArchivedStatus
    ensures AgedCopy(RunFirst(limit, turns, n).world.store.pages[p], RunFirst(limit, turns, m).world.store, p)
    decreases m
  {
    RunsKeepStoreOk(limit, turns, m);
    if n == m {
      CopyIsEarlier(RunFirst(limit, turns, n).world.store, p);
    } else {
      assert LegalNext(limit, turns, m - 1);
      CopiesAge(limit, turns, n, m - 1, p);
      RunsKeepStoreOk(limit, turns, m - 1);
      AgeOneTurn(limit, turns, m - 1, p, RunFirst(limit, turns, n).world.store.pages[p]);
    }
  }

  lemma AgeOneTurn(limit: nat, turns: seq<Turn>, n: nat, p: string, copy: Page)
    requires n < |turns| && LegalFirst(limit, turns, n + 1)
    requires StoreOk(RunFirst(limit, turns, n).world.store)
    requires AgedCopy(copy, RunFirst(limit, turns, n).world.store, p)
    ensures AgedCopy(copy, RunFirst(limit, turns, n + 1).world.store, p)
  {
    var h, next := RunFirst(limit, turns, n), RunFirst(limit, turns, n + 1);
    var e := TurnChanges(limit, turns, n);
    match turns[n]
    case Ask(request, env) =>
      PagesStay(h, next, request, env, e, p);
      assert PageOk(h.world.store, p) && PageOk(next.world.store, p);
      ChangedAges(h, next, request, env, e, p, copy);
    case Relay(ok, at) =>
  }

  lemma PagesStay(h: History, next: History, request: Request, env: Env, e: Effect, p: string)
    requires Changed(h, next, request, env, e) && p in h.world.store.pages
    ensures p in next.world.store.pages
  {
  }

  lemma {:induction false} NumbersUpTo(revs: seq<Revision>, i: nat)
    requires HistoryOk(revs) && i < |revs|
    ensures revs[i].no == i + 1
  {
    DerivedAt(revs, |revs|, i);
  }

  lemma TakenNumberBreaksHistory(revs: seq<Revision>, r: Revision)
    requires HistoryOk(revs) && r.no <= |revs|
    ensures !HistoryOk(AddSorted(revs, r))
  {
    var after := AddSorted(revs, r);
    forall i | 0 <= i < |revs| ensures revs[i].no <= |revs| {
      NumbersUpTo(revs, i);
    }
    if HistoryOk(after) {
      NumbersUpTo(after, |revs|);
    }
  }

  lemma StaleNumberIsTaken(copy: Page, page: Page, revs: seq<Revision>)
    requires HistoryOk(revs) && HeadsOk(page, revs) && EarlierCopy(copy, page, revs)
    ensures copy.publishedId != page.publishedId ==> NextRevisionNo(copy) <= |revs|
    ensures copy.publishedId == page.publishedId ==> NextRevisionNo(copy) == |revs| + 1 && HeadsOk(copy, revs)
  {
    HeadsAreLast(revs, |revs|);
  }

  /** The write a request plans from a copy of its page and a revision it read. */
  function PlanOf(request: Request, copy: Page, read: Revision, env: Env): Result<Write, UseCaseError> {
    match request
    case SaveRequest(input) => PlanSave(input, copy, read.id, env)
    case PublishRequest(p, workspaceId, actor, base) => Ok(PlanPublish(p, workspaceId, actor, base, copy, read, env))
    case RestoreRequest(p, workspaceId, actor, _) => PlanRestore(p, workspaceId, actor, copy, read, env)
    case ArchiveRequest(p, actor, base) => Ok(PlanArchive(actor, base, copy, env))
    case _ => Err(Validation)
  }

  /** The base the request names is the draft head it found in the copy; a restore names none. */
  predicate BaseAgrees(request: Request, copy: Page) {
    match request
    case SaveRequest(input) => input.base == copy.draftNo
    case PublishRequest(_, _, _, base) => base == copy.draftNo
    case ArchiveRequest(_, _, base) => base == copy.draftNo
    case _ => true
  }

  /** A save and a publication read the draft head next, a restore the revision it was given. */
  ghost predicate ReadAgrees(request: Request, copy: Page, read: Revision, revs: seq<Revision>) {
    && (request.SaveRequest? || request.PublishRequest? ==> read.id == copy.draftId)
    && (request.PublishRequest? || request.RestoreRequest? ==> ReadingOf(revs, read))
  }

  /** The request planned this write for its page from the copy and from what it read next. */
  ghost predicate Planned(request: Request, copy: Page, read: Revision, revs: seq<Revision>, env: Env, write: Write) {
    && PlanOf(request, copy, read, env) == Ok(write) && copy.id == PageOf(request)
    && WellFormed(request) && BaseAgrees(request, copy) && ReadAgrees(request, copy, read, revs)
  }

  /** The status a page has after the write: the copy's own, unless the write is about it. */
  function StatusAfter(request: Request, copy: Page): Status {
    match request
    case PublishRequest(_, _, _, _) => PublishedStatus
    case ArchiveRequest(_, _, _) => ArchivedStatus
    case _ => copy.status
  }

  /** The write's revision follows the copy's heads and its page is the copy with that head moved. */
  ghost predicate FollowsCopy(copy: Page, write: Write, id: string) {
    && write.RevisionWrite? && write.expectedNo == copy.draftNo
    && var r := write.revision;
       && r.id == id && r.pageId == copy.id && r.no == NextRevisionNo(copy)
       && write.page == (if r.kind == DraftKind then WithDraftHead(copy, r) else WithPublishedHead(copy, r))
  }

  lemma PlanFollowsCopy(request: Request, copy: Page, read: Revision, env: Env, write: Write)
    requires PlanOf(request, copy, read, env) == Ok(write) && copy.id == PageOf(request) && BaseAgrees(request, copy)
    ensures request.ArchiveRequest? || (FollowsCopy(copy, write, env.revisionId)
                                        && (write.revision.kind == PublishedKind <==> request.PublishRequest?))
  {
  }

  /** The write added the revision at its number's place, with its projections. */
  ghost predicate Inserted(st: State, after: State, page: Page, r: Revision) {
    && after.pages == st.pages[page.id := page]
    && after.revisions == st.revisions[page.id := AddSorted(RevisionsOf(st, page.id), r)]
    && after.embeds == st.embeds[r.id := RevisionReferences(r).embeds]
    && after.attachments == st.attachments[r.id := RevisionReferences(r).attachments]
    && after.links == st.links[r.id := RevisionReferences(r).links]
  }

  lemma LockedRevision(st: State, write: Write)
    requires write.RevisionWrite? && write.page.id in st.pages
    requires st.pages[write.page.id].draftNo == write.expectedNo
    ensures Locked(st, write).Ok? && Inserted(st, Locked(st, write).value, write.page, write.revision)
  {
    var saved := if write.revision.kind == DraftKind
                 then SaveDraft(st, write.expectedNo, write.page, write.revision, write.record)
                 else SavePublished(st, write.expectedNo, write.page, write.revision);
    SavedRevision(st, write.expectedNo, write.page, write.revision, write.record, saved);
  }

  lemma SavedRevision(st: State, no: int, page: Page, r: Revision, record: Option<IdempotencyRecord>,
                      saved: Result<State, StoreError>)
    requires page.id in st.pages && st.pages[page.id].draftNo == no
    requires saved == if r.kind == DraftKind then SaveDraft(st, no, page, r, record) else SavePublished(st, no, page, r)
    ensures saved.Ok? && TablesOf(saved.value) == TablesOf(st)
    ensures saved.value.pages == st.pages[page.id := page]
    ensures saved.value.revisions == st.revisions[page.id := AddSorted(RevisionsOf(st, page.id), r)]
  {
  }

  /** A plan from a copy with the present heads continues the history. */
  lemma PlanDerives(st: State, request: Request, copy: Page, read: Revision, env: Env, write: Write)
    requires PageOk(st, copy.id) && FreshId(st, env.revisionId) && !request.ArchiveRequest?
    requires HeadsOf(copy) == HeadsOf(st.pages[copy.id])
    requires Planned(request, copy, read, RevisionsOf(st, copy.id), env, write)
    ensures Derived(RevisionsOf(st, copy.id), write.revision)
    ensures write.revision.kind == PublishedKind ==> write.revision.title == copy.title
  {
    var p := copy.id;
    HeadIsFound(st, p);
    match request
    case SaveRequest(input) =>
      HydratedShape(env.files, input.document);
      SavedDraftDerives(st, p, write.revision.document, input.via, input.actor, env);
    case PublishRequest(_, _, actor, _) => PublishDerives(st, p, read, actor, env);
    case RestoreRequest(_, _, actor, _) =>
      HydratedShape(env.files, read.document);
      RestoreDerives(st, p, actor, read, write.revision.document, env);
  }

  lemma FreshWritePageOk(st: State, after: State, copy: Page, page: Page, r: Revision)
    requires PageOk(st, copy.id) && HeadsOk(copy, RevisionsOf(st, copy.id)) && copy.status != ArchivedStatus
    requires FreshId(st, r.id) && r.pageId == copy.id && Derived(RevisionsOf(st, copy.id), r)
    requires r.kind == PublishedKind ==> r.title == copy.title
    requires page == if r.kind == DraftKind then WithDraftHead(copy, r) else WithPublishedHead(copy, r)
    requires Inserted(st, after, page, r)
    ensures PageOk(after, copy.id)
  {
    SortedLast(RevisionsOf(st, copy.id), r);
    HeadsMove(copy, RevisionsOf(st, copy.id), r);
    GainedPageOk(st, after, page, r);
  }

  /** Taking a page back to a copy keeps the invariant exactly when the published head is the same. */
  lemma StaleArchive(st: State, copy: Page, actor: string, now: int, after: State)
    requires PageOk(st, copy.id) && EarlierCopy(copy, st.pages[copy.id], RevisionsOf(st, copy.id))
    requires after.pages == st.pages[copy.id := AsArchived(copy, actor, now)] && after.revisions == st.revisions
    requires TablesOf(after) == TablesOf(st)
    ensures PageOk(after, copy.id) <==> copy.publishedId == st.pages[copy.id].publishedId
  {
  }

  /** What a planned write leaves of its page. */
  ghost predicate WritesBack(after: State, request: Request, copy: Page, write: Write) {
    && copy.id in after.pages && after.pages[copy.id] == write.page
    && write.page.status == StatusAfter(request, copy)
    && (if request.PublishRequest? then write.RevisionWrite? && write.page.publishedId == write.revision.id
        else write.page.publishedId == copy.publishedId)
  }

  /**
   Any write planned from an earlier copy of the page (an autosave, a commit, a publication, a
   restore or an archiving) is accepted whenever no draft was saved since. It always takes
   the page back to the copy, except for the head or status it is about: an archived page
   returns, and a publication made meanwhile is no longer the published head. It keeps the
   lifecycle invariant exactly when the page was not published since the copy was read.
   */
  lemma StaleWriteKeepsInvariantIff(st: State, request: Request, copy: Page, read: Revision, env: Env, write: Write)
    requires PageOk(st, copy.id) && EarlierCopy(copy, st.pages[copy.id], RevisionsOf(st, copy.id))
    requires Planned(request, copy, read, RevisionsOf(st, copy.id), env, write) && FreshId(st, env.revisionId)
    ensures Locked(st, write).Ok? && WritesBack(Locked(st, write).value, request, copy, write)
    ensures PageOk(Locked(st, write).value, copy.id) <==> copy.publishedId == st.pages[copy.id].publishedId
  {
    if request.ArchiveRequest? {
      StaleArchive(st, copy, request.actor, env.now, Locked(st, write).value);
    } else {
      PlanFollowsCopy(request, copy, read, env, write);
      LockedRevision(st, write);
      if copy.publishedId == st.pages[copy.id].publishedId {
        StaleNumberIsTaken(copy, st.pages[copy.id], RevisionsOf(st, copy.id));
        PlanDerives(st, request, copy, read, env, write);
      }
      StaleRevisionWrite(st, copy, write, Locked(st, write).value);
    }
  }

  lemma StaleRevisionWrite(st: State, copy: Page, write: Write, after: State)
    requires PageOk(st, copy.id) && EarlierCopy(copy, st.pages[copy.id], RevisionsOf(st, copy.id))
    requires write.RevisionWrite? && FollowsCopy(copy, write, write.revision.id) && FreshId(st, write.revision.id)
    requires copy.publishedId == st.pages[copy.id].publishedId ==>
               && Derived(RevisionsOf(st, copy.id), write.revision)
               && (write.revision.kind == PublishedKind ==> write.revision.title == copy.title)
    requires Inserted(st, after, write.page, write.revision)
    ensures PageOk(after, copy.id) <==> copy.publishedId == st.pages[copy.id].publishedId
  {
    var revs := RevisionsOf(st, copy.id);
    StaleNumberIsTaken(copy, st.pages[copy.id], revs);
    if copy.publishedId == st.pages[copy.id].publishedId {
      FreshWritePageOk(st, after, copy, write.page, write.revision);
    } else {
      TakenNumberBreaksHistory(revs, write.revision);
    }
  }

  lemma GrewKeepsReading(h: History, next: History, request: Request, env: Env, page: Page, r: Revision, p: string, read: Revision)
    requires Grew(h, next, request, env, page, r) && ReadingOf(RevisionsOf(h.world.store, p), read)
    ensures ReadingOf(RevisionsOf(next.world.store, p), read)
  {
    if p == page.id {
      IndexInLonger(RevisionsOf(h.world.store, p), r, read.id);
    }
  }

  lemma ChangedKeepsReading(h: History, next: History, request: Request, env: Env, e: Effect, p: string, read: Revision)
    requires Changed(h, next, request, env, e) && ReadingOf(RevisionsOf(h.world.store, p), read)
    ensures ReadingOf(RevisionsOf(next.world.store, p), read)
  {
    match e
    case Nothing =>
    case Rehydrate(q, _) =>
      if p == q {
        IndexAgrees(h.world.store.revisions[p], next.world.store.revisions[p], read.id);
      }
    case NewPageWith(page, r) => GrewKeepsReading(h, next, request, env, page, r, p, read);
    case AddRevision(write) => GrewKeepsReading(h, next, request, env, write.page, write.revision, p, read);
    case SetArchived(write) =>
  }

  lemma ReadingStaysOneTurn(limit: nat, turns: seq<Turn>, n: nat, p: string, read: Revision)
    requires n < |turns| && LegalFirst(limit, turns, n + 1)
    requires ReadingOf(RevisionsOf(RunFirst(limit, turns, n).world.store, p), read)
    ensures ReadingOf(RevisionsOf(RunFirst(limit, turns, n + 1).world.store, p), read)
  {
    assert LegalNext(limit, turns, n);
    RunsKeepStoreOk(limit, turns, n);
    var e := TurnChanges(limit, turns, n);
    match turns[n]
    case Ask(request, env) =>
      ChangedKeepsReading(RunFirst(limit, turns, n), RunFirst(limit, turns, n + 1), request, env, e, p, read);
    case Relay(_, _) =>
  }

  /** What was read of a revision stays true of it. */
  lemma {:induction false} ReadingStays(limit: nat, turns: seq<Turn>, n: nat, m: nat, p: string, read: Revision)
    requires n <= m <= |turns| && LegalFirst(limit, turns, m)
    requires ReadingOf(RevisionsOf(RunFirst(limit, turns, n).world.store, p), read)
    ensures ReadingOf(RevisionsOf(RunFirst(limit, turns, m).world.store, p), read)
    decreases m
  {
    if n < m {
      LegalPrefix(limit, turns, m - 1, m);
      ReadingStays(limit, turns, n, m - 1, p, read);
      ReadingStaysOneTurn(limit, turns, m - 1, p, read);
    }
  }

  lemma DraftNumbersRise(limit: nat, turns: seq<Turn>, n: nat, m: nat, p: string)
    requires n <= m <= |turns| && LegalFirst(limit, turns, m) && p in RunFirst(limit, turns, n).world.store.pages
    ensures p in RunFirst(limit, turns, m).world.store.pages
    ensures RunFirst(limit, turns, n).world.store.pages[p].draftNo <= RunFirst(limit, turns, m).world.store.pages[p].draftNo
  {
    if RunFirst(limit, turns, n).world.store.pages[p].status == ArchivedStatus {
      ArchivedForever(limit, turns, n, m, p);
    } else {
      CopiesAge(limit, turns, n, m, p);
    }
  }

  /** The revision a request reads after its page: the draft head, or the one it was asked to restore. */
  ghost predicate Reads(st: State, request: Request, read: Revision) {
    && (request.SaveRequest? || request.PublishRequest? ==> HeadRevision(st, PageOf(request), DraftKind) == Some(read))
    && (request.RestoreRequest? ==> RevisionById(st, request.pageId, request.revisionId) == Some(read))
  }

  /** If the draft head is still the copy's by the time of the write, so it was when the revision was read. */
  lemma ReadingAgrees(st: State, now: State, request: Request, copy: Page, read: Revision)
    requires PageOk(st, PageOf(request)) && Reads(st, request, read) && AgedCopy(copy, st, PageOf(request))
    requires st.pages[PageOf(request)].draftNo == copy.draftNo
    requires ReadingOf(RevisionsOf(st, PageOf(request)), read) ==> ReadingOf(RevisionsOf(now, PageOf(request)), read)
    ensures ReadAgrees(request, copy, read, RevisionsOf(now, PageOf(request)))
  {
    HeadIsFound(st, PageOf(request));
  }

  /** The write was refused because a draft was saved since; or it took the page back, with exactly this risk. */
  ghost predicate StaleOutcome(st: State, request: Request, copy: Page, write: Write) {
    && copy.id in st.pages
    && if copy.draftNo < st.pages[copy.id].draftNo then Locked(st, write) == Err(StaleRevision)
       else && Locked(st, write).Ok? && WritesBack(Locked(st, write).value, request, copy, write)
            && (PageOk(Locked(st, write).value, copy.id) <==> copy.publishedId == st.pages[copy.id].publishedId)
  }

  /**
   A request that reads its page after n turns of a run, its revision after k and writes after
   m is refused, or accepted with the page taken back to what it read; the invariant then
   survives exactly when the page was not published between the first reading and the write.
   */
  lemma StaleWriteInRuns(limit: nat, turns: seq<Turn>, n: nat, k: nat, m: nat, request: Request, copy: Page, read: Revision,
                         env: Env, write: Write)
    requires n <= k <= m <= |turns| && LegalFirst(limit, turns, m)
    requires PageOf(request) in RunFirst(limit, turns, n).world.store.pages
    requires copy == RunFirst(limit, turns, n).world.store.pages[PageOf(request)] && copy.status != ArchivedStatus
    requires Reads(RunFirst(limit, turns, k).world.store, request, read)
    requires WellFormed(request) && BaseAgrees(request, copy) && PlanOf(request, copy, read, env) == Ok(write)
    requires FreshId(RunFirst(limit, turns, m).world.store, env.revisionId)
    ensures StaleOutcome(RunFirst(limit, turns, m).world.store, request, copy, write)
  {
    var p := PageOf(request);
    LegalPrefix(limit, turns, k, m);
    LegalPrefix(limit, turns, n, k);
    RunsKeepStoreOk(limit, turns, n);
    RunsKeepStoreOk(limit, turns, k);
    RunsKeepStoreOk(limit, turns, m);
    CopiesAge(limit, turns, n, k, p);
    CopiesAge(limit, turns, n, m, p);
    DraftNumbersRise(limit, turns, k, m, p);
    var st, now := RunFirst(limit, turns, k).world.store, RunFirst(limit, turns, m).world.store;
    if ReadingOf(RevisionsOf(st, p), read) {
      ReadingStays(limit, turns, k, m, p, read);
    }
    assert PageOk(RunFirst(limit, turns, n).world.store, p) && PageOk(st, p) && PageOk(now, p);
    StaleWriteEnds(st, now, request, copy, read, env, write);
  }

  lemma StaleWriteEnds(st: State, now: State, request: Request, copy: Page, read: Revision, env: Env, write: Write)
    requires copy.id == PageOf(request) && PageOk(st, copy.id) && PageOk(now, copy.id)
    requires AgedCopy(copy, st, copy.id) && AgedCopy(copy, now, copy.id)
    requires st.pages[copy.id].draftNo <= now.pages[copy.id].draftNo && Reads(st, request, read)
    requires ReadingOf(RevisionsOf(st, copy.id), read) ==> ReadingOf(RevisionsOf(now, copy.id), read)
    requires WellFormed(request) && BaseAgrees(request, copy) && PlanOf(request, copy, read, env) == Ok(write)
    requires FreshId(now, env.revisionId)
    ensures StaleOutcome(now, request, copy, write)
  {
    if copy.draftNo < now.pages[copy.id].draftNo {
      PlanFollowsCopy(request, copy, read, env, write);
    } else {
      ReadingAgrees(st, now, request, copy, read);
      StaleWriteKeepsInvariantIff(now, request, copy, read, env, write);
    }
  }

  // ------------------------------------------------------ the losing interleavings do occur

  const BLANK := Document([], map[])

  function EnvAt(time: int, id: string, recordIds: RecordIds): Env {
    Env(time, time, None, {}, id, recordIds)
  }

  const CREATION := EnvAt(1, "r1", ["a", "b", "c", "d"])
  const CHANGE := EnvAt(2, "r2", ["e", "f", "g", "h"])
  const LATE := EnvAt(3, "r3", ["i", "j", "k", "l"])
  const LATE_SAVE := AutosaveInput("p", "w", "u", 1, "", BLANK)

  /** A store with one blank page that was just created. */
  function Created(): World {
    Create(World(EMPTY, map[], DEFAULT_LIMIT), CreateInput("p", "w", "t", "t", BLANK, "u"), CREATION).world
  }

  lemma BlankHydrates()
    ensures Hydrate(None, Canonical(BLANK)) == Ok(BLANK)
  {
  }

  lemma CreatedPageIsLive()
    ensures "p" in Created().store.pages && PageOk(Created().store, "p")
    ensures Created().store.pages["p"].status == DraftStatus && Created().store.pages["p"].draftNo == 1
    ensures FreshId(Created().store, "r2") && FreshId(Created().store, "r3") && FreshId(Created().store, "r4")
    ensures Created().store.idempotencies == map[]
    ensures RevisionsOf(Created().store, "p") == [FirstRevision(CreateInput("p", "w", "t", "t", BLANK, "u"), BLANK, CREATION)]
  {
    BlankHydrates();
    assert Text.TrimSpace("w") == "w" && Text.TrimSpace("t") == "t";
    var input := CreateInput("p", "w", "t", "t", BLANK, "u");
    var page, r := NewPage(input, CREATION), FirstRevision(input, BLANK, CREATION);
    FirstRevisionStarts(input, BLANK, CREATION);
    CreatedPage(EMPTY, page, r, CREATION);
    assert [] + [r] == [r];
    GainedPageOk(EMPTY, Created().store, page, r);
  }

  /** A save planned from the page as it is in this store lands in that one. */
  ghost predicate LateSaveLands(before: State, now: State, after: State) {
    && "p" in before.pages
    && var copy := before.pages["p"];
       && PlanSave(LATE_SAVE, copy, copy.draftId, LATE).Ok?
       && Locked(now, PlanSave(LATE_SAVE, copy, copy.draftId, LATE).value) == Ok(after)
  }

  lemma LateSave(before: State, now: State) returns (after: State)
    requires PageOk(before, "p") && before.pages["p"].status != ArchivedStatus && before.pages["p"].draftNo == 1
    requires PageOk(now, "p") && EarlierCopy(before.pages["p"], now.pages["p"], RevisionsOf(now, "p")) && FreshId(now, "r3")
    ensures LateSaveLands(before, now, after)
    ensures "p" in after.pages && after.pages["p"].status == before.pages["p"].status
    ensures PageOk(after, "p") <==> before.pages["p"].publishedId == now.pages["p"].publishedId
  {
    var copy := before.pages["p"];
    BlankHydrates();
    HeadIsFound(before, "p");
    var write := PlanSave(LATE_SAVE, copy, copy.draftId, LATE).value;
    StaleWriteKeepsInvariantIff(now, SaveRequest(LATE_SAVE), copy, HeadRevision(before, "p", DraftKind).value, LATE, write);
    after := Locked(now, write).value;
  }

  /** Publishing, after the page was read, leaves what was read an earlier copy. */
  lemma PublishedMeanwhile(w: World, now: State)
    requires PageOk(w.store, "p") && w.store.pages["p"].status != ArchivedStatus && w.store.pages["p"].draftNo == 1
    requires FreshId(w.store, "r2") && FreshId(w.store, "r3")
    requires now == Publish(w, "p", "w", "u", 1, CHANGE).world.store
    ensures PageOk(now, "p") && FreshId(now, "r3")
    ensures EarlierCopy(w.store.pages["p"], now.pages["p"], RevisionsOf(now, "p"))
    ensures now.pages["p"].publishedId != w.store.pages["p"].publishedId
  {
    var st := w.store;
    HeadIsFound(st, "p");
    PlannedPublishContinues(st, "p", "w", "u", CHANGE);
    PublishConcludes(w, "p", "w", "u", CHANGE);
    var write := PlanPublish("p", "w", "u", 1, st.pages["p"], HeadRevision(st, "p", DraftKind).value, CHANGE);
    PublicationLands(st, now, write);
  }

  lemma PublicationLands(st: State, now: State, write: Write)
    requires PageOk(st, "p") && Continues(st, write, CHANGE) && write.revision.pageId == "p" && st.pages["p"].draftNo == 1
    requires write.revision.kind == PublishedKind && FreshId(st, "r2") && FreshId(st, "r3")
    requires Locked(st, write).Ok? ==> now == Locked(st, write).value
    ensures PageOk(now, "p") && FreshId(now, "r3")
    ensures EarlierCopy(st.pages["p"], now.pages["p"], RevisionsOf(now, "p"))
    ensures now.pages["p"].publishedId != st.pages["p"].publishedId
  {
    var r := write.revision;
    PlannedWritePasses(st, write);
    AddedRevision(st, write, CHANGE);
    HeadIsFound(st, "p");
    HeadsMove(st.pages["p"], RevisionsOf(st, "p"), r);
    GainedPageOk(st, now, write.page, r);
    CopyIsEarlier(st, "p");
    HeadsAge(st.pages["p"], st.pages["p"], RevisionsOf(st, "p"), r);
    GainedFreshId(st, now, write.page, r, "r3");
    NewHeadDiffers(st, r);
  }

  lemma NewHeadDiffers(st: State, r: Revision)
    requires PageOk(st, "p") && FreshId(st, r.id)
    ensures st.pages["p"].publishedId != r.id
  {
    var revs := RevisionsOf(st, "p");
    HeadsAreLast(revs, |revs|);
  }

  lemma GainedFreshId(st: State, after: State, page: Page, r: Revision, id: string)
    requires Gained(st, after, page, r) && FreshId(st, id) && r.id != id
    ensures FreshId(after, id)
  {
  }

  /** A page read, published meanwhile, then saved from that reading: its numbering breaks. */
  lemma StaleSaveCanLosePublication() returns (now: State, after: State)
    ensures PageOk(Created().store, "p") && now == Publish(Created(), "p", "w", "u", 1, CHANGE).world.store
    ensures PageOk(now, "p") && LateSaveLands(Created().store, now, after)
    ensures !PageOk(after, "p")
  {
    CreatedPageIsLive();
    now := Publish(Created(), "p", "w", "u", 1, CHANGE).world.store;
    PublishedMeanwhile(Created(), now);
    after := LateSave(Created().store, now);
  }

  lemma ArchivedMeanwhile(w: World, now: State)
    requires PageOk(w.store, "p") && w.store.pages["p"].status != ArchivedStatus && w.store.pages["p"].draftNo == 1
    requires FreshId(w.store, "r3") && now == Archive(w, "p", "u", 1, CHANGE).world.store
    ensures PageOk(now, "p") && FreshId(now, "r3") && now.pages["p"].status == ArchivedStatus
    ensures EarlierCopy(w.store.pages["p"], now.pages["p"], RevisionsOf(now, "p"))
  {
    CopyIsEarlier(w.store, "p");
    PlannedWritePasses(w.store, PlanArchive("u", 1, w.store.pages["p"], CHANGE));
  }

  /** A page read, archived meanwhile, then saved from that reading: it is live again. */
  lemma StaleSaveCanReviveArchived() returns (now: State, after: State)
    ensures PageOk(Created().store, "p") && now == Archive(Created(), "p", "u", 1, CHANGE).world.store
    ensures "p" in now.pages && now.pages["p"].status == ArchivedStatus && LateSaveLands(Created().store, now, after)
    ensures "p" in after.pages && after.pages["p"].status != ArchivedStatus
  {
    CreatedPageIsLive();
    now := Archive(Created(), "p", "u", 1, CHANGE).world.store;
    ArchivedMeanwhile(Created(), now);
    after := LateSave(Created().store, now);
  }
}
