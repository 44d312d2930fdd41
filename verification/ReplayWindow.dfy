/**
 The replay window: a per-page log bounded in length and in time, kept by filtering and
 trimming a slice in place on every append.
 */
module ReplayWindow {
  import opened Wrappers

  datatype EntryKind = CollabPatchEntry | AutosaveEntry | PublishEntry | RestoreEntry

  /** `createdAt == ZERO_TIME` is Go's zero time. */
  datatype Entry = Entry(
    pageId: string, workspaceId: string, actorId: string, revisionId: string, revisionNo: int,
    kind: EntryKind, patchId: string, createdAt: int)

  const ZERO_TIME := 0
  const DEFAULT_LIMIT := 32
  const WINDOW_TTL := 10 * 60 * 1_000_000_000

  /** The first n entries without those created before the cutoff, in order. */
  function KeepFirst(entries: seq<Entry>, n: nat, cutoff: int): seq<Entry>
    requires n <= |entries|
  {
    if n == 0 then []
    else KeepFirst(entries, n - 1, cutoff) + (if entries[n - 1].createdAt >= cutoff then [entries[n - 1]] else [])
  }

  function Keep(entries: seq<Entry>, cutoff: int): seq<Entry> {
    KeepFirst(entries, |entries|, cutoff)
  }

  function LastN<T>(s: seq<T>, n: nat): seq<T> {
    if n < |s| then s[|s| - n..] else s
  }

  function Stamped(e: Entry, clock: int): Entry {
    if e.createdAt == ZERO_TIME then e.(createdAt := clock) else e
  }

  /** The window after one append. */
  function Appended(entries: seq<Entry>, e: Entry, ttl: int, limit: nat, clock: int): seq<Entry> {
    var all := entries + [Stamped(e, clock)];
    LastN(if ttl > 0 then Keep(all, clock - ttl) else all, limit)
  }

  function EntriesOf(values: map<string, seq<Entry>>, pageId: string): seq<Entry> {
    if pageId in values then values[pageId] else []
  }

  /** The first n entries without those numbered `from` or below, in order. */
  function SinceFirst(entries: seq<Entry>, n: nat, from: int): seq<Entry>
    requires n <= |entries|
  {
    if n == 0 then []
    else SinceFirst(entries, n - 1, from) + (if entries[n - 1].revisionNo > from then [entries[n - 1]] else [])
  }

  function Since(entries: seq<Entry>, from: int): seq<Entry> {
    SinceFirst(entries, |entries|, from)
  }

  lemma {:induction false} KeepOfPrefix(entries: seq<Entry>, more: seq<Entry>, n: nat, cutoff: int)
    requires n <= |entries| && entries <= more
    ensures KeepFirst(entries, n, cutoff) == KeepFirst(more, n, cutoff)
    ensures SinceFirst(entries, n, cutoff) == SinceFirst(more, n, cutoff)
    decreases n
  {
    if n > 0 {
      KeepOfPrefix(entries, more, n - 1, cutoff);
    }
  }

  /** Filtering by time and by number goes entry by entry: what passes stays, in place, and nothing else. */
  lemma FilterMeans(entries: seq<Entry>, e: Entry, cutoff: int)
    ensures Keep([], cutoff) == [] && Since([], cutoff) == []
    ensures Keep(entries + [e], cutoff) == Keep(entries, cutoff) + (if e.createdAt < cutoff then [] else [e])
    ensures Since(entries + [e], cutoff) == Since(entries, cutoff) + (if e.revisionNo <= cutoff then [] else [e])
  {
    KeepOfPrefix(entries, entries + [e], |entries|, cutoff);
  }

  /**
   After an append the window is the end of what is not older than its time to live, as long as
   the limit allows; an entry without a time was given the clock's.
   */
  lemma AppendMeans(entries: seq<Entry>, e: Entry, ttl: int, limit: nat, clock: int)
    requires ttl > 0
    ensures var timed := e.(createdAt := if e.createdAt != 0 then e.createdAt else clock);
            var kept, w := Keep(entries + [timed], clock - ttl), Appended(entries, e, ttl, limit, clock);
            && |w| <= limit && |w| <= |kept| && (|w| == limit || |w| == |kept|)
            && w == kept[|kept| - |w|..]
  {
  }

  // ------------------------------------------------------------------------ the store

  /** `filtered := entries[:0]`: the kept entries overwrite the front of their own slice. */
  method FilterInPlace(a: array<Entry>, cutoff: int) returns (n: nat)
    modifies a
    ensures n <= a.Length
    ensures a[..n] == Keep(old(a[..]), cutoff)
  {
    ghost var was := a[..];
    n := 0;
    for i := 0 to a.Length
      invariant n <= i
      invariant a[..n] == KeepFirst(was, i, cutoff)
      invariant a[i..] == was[i..]
    {
      assert a[i] == a[i..][0] == was[i];
      var existing := a[i];
      if existing.createdAt >= cutoff {
        a[n] := existing;
        n := n + 1;
      }
      assert a[i + 1..] == was[i + 1..];
    }
  }

  method Recent(entries: seq<Entry>, cutoff: int) returns (recent: seq<Entry>)
    ensures recent == Keep(entries, cutoff)
  {
    var backing := new Entry[|entries|](i requires 0 <= i < |entries| => entries[i]);
    assert backing[..] == entries;
    var n := FilterInPlace(backing, cutoff);
    recent := backing[..n];
  }

  class ReplayWindowStore {
    var values: map<string, seq<Entry>>
    const limit: nat

    constructor (limit: int)
      ensures values == map[]
      ensures this.limit == if limit <= 0 then 32 else limit
    {
      this.limit := if limit <= 0 then DEFAULT_LIMIT else limit;
      values := map[];
    }

    /** `Append`. */
    method Append(entry: Entry, ttl: int, clock: int)
      modifies this
      ensures values == old(values)[entry.pageId :=
                Appended(EntriesOf(old(values), entry.pageId), entry, ttl, limit, clock)]
    {
      var e := entry;
      if e.createdAt == ZERO_TIME {
        e := e.(createdAt := clock);
      }
      var entries := EntriesOf(values, e.pageId) + [e];
      ghost var all := entries;
      if ttl > 0 {
        entries := Recent(entries, clock - ttl);
      }
      ghost var kept := entries;
      if |entries| > limit {
        entries := entries[|entries| - limit..];
      }
      assert entries == LastN(kept, limit);
      assert e == Stamped(entry, clock) && entries == Appended(EntriesOf(values, e.pageId), entry, ttl, limit, clock);
      values := values[e.pageId := entries];
    }

    /** `ListSinceRevision`. */
    method ListSinceRevision(pageId: string, from: int) returns (result: seq<Entry>)
      ensures result == Since(EntriesOf(values, pageId), from)
    {
      var source := if pageId in values then values[pageId] else [];
      result := [];
      for i := 0 to |source|
        invariant result == SinceFirst(source, i, from)
      {
        if source[i].revisionNo > from {
          result := result + [source[i]];
        }
      }
    }
  }

  // ------------------------------------------------------------- the window and its log

  /** One append to a page's window: the entry and the clock the store read. */
  datatype Arrival = Arrival(entry: Entry, clock: int)

  /** The full, unbounded log of a page. */
  function Log(arrivals: seq<Arrival>): (r: seq<Entry>)
    ensures |r| == |arrivals|
    ensures forall i :: 0 <= i < |r| ==> r[i] == Stamped(arrivals[i].entry, arrivals[i].clock)
  {
    seq(|arrivals|, i requires 0 <= i < |arrivals| => Stamped(arrivals[i].entry, arrivals[i].clock))
  }

  /** The window the first n appends leave behind. */
  function WindowAfter(arrivals: seq<Arrival>, n: nat, ttl: int, limit: nat): seq<Entry>
    requires n <= |arrivals|
  {
    if n == 0 then []
    else
      Appended(WindowAfter(arrivals, n - 1, ttl, limit), arrivals[n - 1].entry, ttl, limit, arrivals[n - 1].clock)
  }

  ghost predicate InTimeOrder(entries: seq<Entry>) {
    forall i, j :: 0 <= i <= j < |entries| ==> entries[i].createdAt <= entries[j].createdAt
  }

  /** Creation times and the clock never run backwards. */
  ghost predicate Ordered(arrivals: seq<Arrival>) {
    && InTimeOrder(Log(arrivals))
    && forall i :: 0 < i < |arrivals| ==> arrivals[i - 1].clock <= arrivals[i].clock
  }

  function Max(a: int, b: int): int {
    if a >= b then a else b
  }

  /** Index of the first of the first n entries created at the cutoff or later, or n. */
  function FirstRecent(log: seq<Entry>, n: nat, cutoff: int): (k: nat)
    requires n <= |log|
    ensures k <= n
    ensures forall i :: 0 <= i < k ==> log[i].createdAt < cutoff
    ensures k < n ==> log[k].createdAt >= cutoff
  {
    if n == 0 then 0
    else
      var k := FirstRecent(log, n - 1, cutoff);
      if k < n - 1 || log[n - 1].createdAt >= cutoff then k else n
  }

  /** Entries that split at k into old and recent ones are filtered to their tail. */
  lemma {:induction false} KeepIsTail(log: seq<Entry>, n: nat, cutoff: int, k: nat)
    requires k <= n <= |log|
    requires forall i :: 0 <= i < n ==> (log[i].createdAt >= cutoff <==> i >= k)
    ensures KeepFirst(log, n, cutoff) == log[k..n]
    decreases n
  {
    if k < n {
      KeepIsTail(log, n - 1, cutoff, k);
      assert log[k..n] == log[k..n - 1] + [log[n - 1]];
    } else if n > 0 {
      KeepIsTail(log, n - 1, cutoff, n - 1);
    }
  }

  /** In every stretch of a time-ordered log the recent entries come last. */
  lemma RecentIsTail(log: seq<Entry>, from: nat, n: nat, cutoff: int)
    requires InTimeOrder(log) && from <= n <= |log|
    ensures Keep(log[from..n], cutoff) == log[Max(from, FirstRecent(log, n, cutoff))..n]
  {
    var k := FirstRecent(log, n, cutoff);
    var stretch := log[from..n];
    forall i | 0 <= i < |stretch| ensures stretch[i].createdAt >= cutoff <==> i >= Max(from, k) - from {
      assert stretch[i] == log[from + i];
      if k <= from + i {
        assert log[k].createdAt <= log[from + i].createdAt;
      }
    }
    KeepIsTail(stretch, |stretch|, cutoff, Max(from, k) - from);
    assert stretch[Max(from, k) - from..] == log[Max(from, k)..n];
  }

  /** Where the window starts in the log: no earlier than the limit and the last cutoff allow. */
  function WindowStart(arrivals: seq<Arrival>, n: nat, ttl: int, limit: nat): (k: nat)
    requires 0 < n <= |arrivals|
    ensures k <= n
  {
    Max(FirstRecent(Log(arrivals), n, arrivals[n - 1].clock - ttl), n - limit)
  }

  /** Neither the limit nor a later cutoff brings an entry back. */
  lemma StartOnlyAdvances(arrivals: seq<Arrival>, n: nat, ttl: int, limit: nat)
    requires Ordered(arrivals) && 1 < n <= |arrivals|
    ensures WindowStart(arrivals, n - 1, ttl, limit) <= WindowStart(arrivals, n, ttl, limit)
  {
  }

  lemma TrimmedTail(log: seq<Entry>, from: nat, n: nat, limit: nat)
    requires from <= n <= |log|
    ensures LastN(log[from..n], limit) == log[Max(from, n - limit)..n]
  {
  }

  /** One append to a stretch of a time-ordered log, when the entry is the log's next. */
  lemma AppendToStretch(log: seq<Entry>, from: nat, n: nat, ttl: int, limit: nat, a: Arrival)
    requires InTimeOrder(log) && from < n <= |log| && ttl > 0
    requires log[n - 1] == Stamped(a.entry, a.clock)
    ensures Appended(log[from..n - 1], a.entry, ttl, limit, a.clock)
            == log[Max(Max(from, FirstRecent(log, n, a.clock - ttl)), n - limit)..n]
  {
    assert log[from..n - 1] + [log[n - 1]] == log[from..n];
    RecentIsTail(log, from, n, a.clock - ttl);
    TrimmedTail(log, Max(from, FirstRecent(log, n, a.clock - ttl)), n, limit);
  }

  /**
   The window is exactly the stretch of the full log from `WindowStart` on: in order, with
   no gap, and cut no earlier than the limit and the last cutoff demand.
   */
  lemma {:induction false} WindowIsLogSuffix(arrivals: seq<Arrival>, n: nat, ttl: int, limit: nat)
    requires Ordered(arrivals) && ttl > 0 && 0 < n <= |arrivals|
    ensures WindowAfter(arrivals, n, ttl, limit) == Log(arrivals)[WindowStart(arrivals, n, ttl, limit)..n]
    decreases n
  {
    var log := Log(arrivals);
    var from: nat := 0;
    if n > 1 {
      WindowIsLogSuffix(arrivals, n - 1, ttl, limit);
      from := WindowStart(arrivals, n - 1, ttl, limit);
      StartOnlyAdvances(arrivals, n, ttl, limit);
    }
    AppendToStretch(log, from, n, ttl, limit, arrivals[n - 1]);
  }

  /** So its length is min(limit, entries no older than the last cutoff). */
  lemma WindowLength(arrivals: seq<Arrival>, n: nat, ttl: int, limit: nat)
    requires Ordered(arrivals) && 0 < n <= |arrivals|
    ensures var recent := |KeepFirst(Log(arrivals), n, arrivals[n - 1].clock - ttl)|;
            n - WindowStart(arrivals, n, ttl, limit) == if recent <= limit then recent else limit
  {
    RecentCount(Log(arrivals), n, arrivals[n - 1].clock - ttl);
  }

  lemma RecentCount(log: seq<Entry>, n: nat, cutoff: int)
    requires InTimeOrder(log) && n <= |log|
    ensures |KeepFirst(log, n, cutoff)| == n - FirstRecent(log, n, cutoff)
  {
    KeepIsTail(log, n, cutoff, FirstRecent(log, n, cutoff));
  }
}
