/**
 The outbox relay: claims a batch of pending records, publishes them one by one and marks
 each as published or failed, while use cases keep appending records. Records are settled in
 insertion order, so that at any time those no longer pending are a prefix of the outbox, and
 what was handed over is the published ones among them.
 */
module OutboxRelay {
  import opened Wrappers
  import opened PageStore

  /** The message broker: what subscribers have been handed, in order. */
  class Broker {
    var sent: seq<Event>

    constructor ()
      ensures sent == []
    {
      sent := [];
    }

    /** `Retry(Publish)`: succeeds or gives up; a success hands the event over once. */
    method Publish(event: Event, succeeds: bool) returns (ok: bool)
      modifies this
      ensures ok == succeeds
      ensures sent == if succeeds then old(sent) + [event] else old(sent)
    {
      ok := succeeds;
      if succeeds {
        sent := sent + [event];
      }
    }
  }

  /** Events of the published ones of the first n records, in order. */
  function PublishedOfFirst(outbox: seq<OutboxRecord>, n: nat): seq<Event>
    requires n <= |outbox|
  {
    if n == 0 then []
    else PublishedOfFirst(outbox, n - 1) + (if outbox[n - 1].status == Published then [outbox[n - 1].event] else [])
  }

  /** The first n records are settled, all others are pending. */
  ghost predicate SettledUpTo(outbox: seq<OutboxRecord>, n: nat) {
    && n <= |outbox|
    && forall i :: 0 <= i < |outbox| ==> (outbox[i].status != Pending <==> i < n)
  }

  /** No two of the first n records share an id. */
  ghost predicate DistinctIdsOfFirst(outbox: seq<OutboxRecord>, n: nat)
    requires n <= |outbox|
  {
    n == 0
    || (DistinctIdsOfFirst(outbox, n - 1) && forall i :: 0 <= i < n - 1 ==> outbox[i].id != outbox[n - 1].id)
  }

  ghost predicate DistinctRecordIds(outbox: seq<OutboxRecord>) {
    DistinctIdsOfFirst(outbox, |outbox|)
  }

  lemma {:induction false} DistinctIdsDiffer(outbox: seq<OutboxRecord>, n: nat, i: nat, j: nat)
    requires i < j < n <= |outbox| && DistinctIdsOfFirst(outbox, n)
    ensures outbox[i].id != outbox[j].id
    decreases n
  {
    if j < n - 1 {
      DistinctIdsDiffer(outbox, n - 1, i, j);
    }
  }

  lemma {:induction false} DistinctIdsOfSame(xs: seq<OutboxRecord>, ys: seq<OutboxRecord>, n: nat, m: nat)
    requires n <= m <= |xs| && n <= |ys| && DistinctIdsOfFirst(xs, m)
    requires forall i :: 0 <= i < n ==> xs[i] == ys[i]
    ensures DistinctIdsOfFirst(ys, n)
    decreases m
  {
    if n < m {
      DistinctIdsOfSame(xs, ys, n, m - 1);
    } else if n > 0 {
      DistinctIdsOfSame(xs, ys, n - 1, m - 1);
    }
  }

  ghost predicate AllPending(records: seq<OutboxRecord>) {
    forall i :: 0 <= i < |records| ==> records[i].status == Pending
  }

  /** The records appended before the first n messages were settled. */
  function ArrivedBy(arrivals: seq<seq<OutboxRecord>>, n: nat): seq<OutboxRecord>
    requires n <= |arrivals|
  {
    if n == 0 then [] else ArrivedBy(arrivals, n - 1) + arrivals[n - 1]
  }

  lemma {:induction false} ArrivedPrefix(arrivals: seq<seq<OutboxRecord>>, n: nat, m: nat)
    requires n <= m <= |arrivals|
    ensures ArrivedBy(arrivals, n) <= ArrivedBy(arrivals, m)
    decreases m
  {
    if n < m {
      ArrivedPrefix(arrivals, n, m - 1);
    }
  }

  lemma {:induction false} ArrivedPending(arrivals: seq<seq<OutboxRecord>>, n: nat)
    requires n <= |arrivals|
    requires forall i :: 0 <= i < n ==> AllPending(arrivals[i])
    ensures AllPending(ArrivedBy(arrivals, n))
    decreases n
  {
    if n > 0 {
      ArrivedPending(arrivals, n - 1);
      assert AllPending(arrivals[n - 1]);
    }
  }

  lemma {:induction false} PendingIsRest(outbox: seq<OutboxRecord>, n: nat, m: nat)
    requires SettledUpTo(outbox, n) && m <= |outbox|
    ensures |PendingOfFirst(outbox, m)| == if m <= n then 0 else m - n
    ensures forall i :: 0 <= i < |PendingOfFirst(outbox, m)| ==> PendingOfFirst(outbox, m)[i] == outbox[n + i]
    decreases m
  {
    if m > 0 {
      PendingIsRest(outbox, n, m - 1);
    }
  }

  /**
   `before` with the records of [n, n + k) settled by the outcomes, nothing else changed;
   settling keeps each record's id, event and place.
   */
  ghost predicate SettledBy(before: seq<OutboxRecord>, after: seq<OutboxRecord>, n: nat, k: nat, ok: seq<bool>)
    requires k <= |ok|
  {
    && |after| == |before| && n + k <= |before|
    && (forall i :: 0 <= i < |before| && !(n <= i < n + k) ==> after[i] == before[i])
    && forall i :: n <= i < n + k ==>
         && after[i].status == (if ok[i - n] then Published else Failed)
         && after[i].(status := before[i].status, availableAt := before[i].availableAt) == before[i]
  }

  /** With distinct ids, marking by id settles exactly the intended record. */
  lemma MarkSettlesNext(before: seq<OutboxRecord>, now: seq<OutboxRecord>, n: nat, k: nat, ok: seq<bool>, id: string, at: int)
    requires k < |ok| && n + k < |before| && DistinctRecordIds(before)
    requires SettledBy(before, now, n, k, ok) && id == before[n + k].id
    ensures SettledBy(before, Mark(now, id, if ok[k] then Published else Failed, at), n, k + 1, ok)
  {
    forall i | 0 <= i < |now| ensures now[i].id == before[i].id {
      if n <= i < n + k {
        assert before[i] == now[i].(status := before[i].status, availableAt := before[i].availableAt);
      }
    }
    var i := RecordIndex(now, id);
    assert now[n + k].id == id;
    if i < n + k {
      DistinctIdsDiffer(before, |before|, i, n + k);
    }
  }

  lemma SettledByExtends(before: seq<OutboxRecord>, after: seq<OutboxRecord>, n: nat, k: nat, ok: seq<bool>, more: seq<OutboxRecord>)
    requires k <= |ok| && SettledBy(before, after, n, k, ok)
    ensures SettledBy(before + more, after + more, n, k, ok)
  {
  }

  /** After the flush the settled records are a prefix again, k longer than before. */
  lemma FlushAdvances(before: seq<OutboxRecord>, after: seq<OutboxRecord>, n: nat, k: nat, ok: seq<bool>)
    requires k <= |ok| && SettledUpTo(before, n) && SettledBy(before, after, n, k, ok)
    ensures SettledUpTo(after, n + k)
  {
  }

  lemma {:induction false} PublishedOfSame(xs: seq<OutboxRecord>, ys: seq<OutboxRecord>, n: nat)
    requires n <= |xs| && n <= |ys|
    requires forall i :: 0 <= i < n ==> xs[i].status == ys[i].status && xs[i].event == ys[i].event
    ensures PublishedOfFirst(xs, n) == PublishedOfFirst(ys, n)
    decreases n
  {
    if n > 0 {
      PublishedOfSame(xs, ys, n - 1);
    }
  }

  /**
   `flushOnce` with concurrent appends: `arrivals[i]` is appended while message i is being
   published, `ok[i]` is the outcome of that publish. Starting from an outbox whose first n
   records are settled and a broker that was handed exactly the published ones in order:
   the next min(claim size, pending) records are settled, each as published exactly when
   its publish succeeded, every other record keeps its status, and the broker is again
   handed exactly the published records in outbox order.
   */
  method FlushOnce(store: Store, broker: Broker, batchSize: nat, ok: seq<bool>, arrivals: seq<seq<OutboxRecord>>,
                   at: int, ghost n: nat)
    returns (k: nat)
    requires |ok| == |arrivals| == ClaimSize(batchSize)
    requires forall i :: 0 <= i < |arrivals| ==> AllPending(arrivals[i])
    requires DistinctRecordIds(store.outbox + ArrivedBy(arrivals, |arrivals|))
    requires SettledUpTo(store.outbox, n) && broker.sent == PublishedOfFirst(store.outbox, n)
    modifies store`outbox, broker
    ensures k == if |old(store.outbox)| - n <= ClaimSize(batchSize) then |old(store.outbox)| - n else ClaimSize(batchSize)
    ensures k <= |old(store.outbox)| - n && (batchSize > 0 ==> k <= batchSize)
    ensures k < |old(store.outbox)| - n ==> k == if batchSize == 0 then 1 else batchSize
    ensures SettledBy(old(store.outbox) + ArrivedBy(arrivals, k), store.outbox, n, k, ok)
    ensures SettledUpTo(store.outbox, n + k)
    ensures broker.sent == PublishedOfFirst(store.outbox, n + k)
  {
    PendingIsRest(store.outbox, n, |store.outbox|);
    var messages := store.ClaimPending(batchSize);
    k := |messages|;
    ArrivedPending(arrivals, k);
    RelayBatch(store, broker, messages, ok, arrivals, at, n);
    FlushAdvances(old(store.outbox) + ArrivedBy(arrivals, k), store.outbox, n, k, ok);
  }

  /** The loop over the claimed messages. */
  method RelayBatch(store: Store, broker: Broker, messages: seq<OutboxRecord>, ok: seq<bool>,
                    arrivals: seq<seq<OutboxRecord>>, at: int, ghost n: nat)
    requires |messages| <= |ok| == |arrivals| && n + |messages| <= |store.outbox|
    requires forall i :: 0 <= i < |messages| ==> messages[i] == store.outbox[n + i]
    requires DistinctRecordIds(store.outbox + ArrivedBy(arrivals, |arrivals|))
    requires broker.sent == PublishedOfFirst(store.outbox, n)
    modifies store`outbox, broker
    ensures SettledBy(old(store.outbox) + ArrivedBy(arrivals, |messages|), store.outbox, n, |messages|, ok)
    ensures broker.sent == PublishedOfFirst(store.outbox, n + |messages|)
  {
    ghost var was := store.outbox;
    var k := 0;
    while k < |messages|
      invariant k <= |messages|
      invariant SettledBy(was + ArrivedBy(arrivals, k), store.outbox, n, k, ok)
      invariant broker.sent == PublishedOfFirst(store.outbox, n + k)
    {
      Relay(store, broker, messages[k], ok, arrivals, at, was, n, k);
      k := k + 1;
    }
  }

  /** One round of the loop, with the records that arrive during it. */
  method Relay(store: Store, broker: Broker, message: OutboxRecord, ok: seq<bool>, arrivals: seq<seq<OutboxRecord>>,
               at: int, ghost was: seq<OutboxRecord>, ghost n: nat, k: nat)
    requires k < |arrivals| && k < |ok| && n + k < |was| && message == was[n + k]
    requires DistinctRecordIds(was + ArrivedBy(arrivals, |arrivals|))
    requires SettledBy(was + ArrivedBy(arrivals, k), store.outbox, n, k, ok)
    requires broker.sent == PublishedOfFirst(store.outbox, n + k)
    modifies store`outbox, broker
    ensures SettledBy(was + ArrivedBy(arrivals, k + 1), store.outbox, n, k + 1, ok)
    ensures broker.sent == PublishedOfFirst(store.outbox, n + k + 1)
  {
    Delivered(was, arrivals, store.outbox, n, k, ok, at);
    store.Add(arrivals[k]);
    Deliver(store, broker, message, ok[k], at);
  }

  /** The loop body: publish, then mark the record by its id. */
  method Deliver(store: Store, broker: Broker, message: OutboxRecord, succeeds: bool, at: int)
    modifies store`outbox, broker
    ensures store.outbox == Mark(old(store.outbox), message.id, if succeeds then Published else Failed, at)
    ensures broker.sent == old(broker.sent) + (if succeeds then [message.event] else [])
  {
    var published := broker.Publish(message.event, succeeds);
    if !published {
      store.MarkFailed(message.id, at);
      return;
    }
    store.MarkPublished(message.id, at);
  }

  /** One delivery while records arrive: one more record settled, one more event accounted for. */
  lemma Delivered(was: seq<OutboxRecord>, arrivals: seq<seq<OutboxRecord>>, early: seq<OutboxRecord>,
                  n: nat, k: nat, ok: seq<bool>, at: int)
    requires k < |arrivals| && k < |ok| && n + k < |was|
    requires DistinctRecordIds(was + ArrivedBy(arrivals, |arrivals|))
    requires SettledBy(was + ArrivedBy(arrivals, k), early, n, k, ok)
    ensures var after := Mark(early + arrivals[k], was[n + k].id, if ok[k] then Published else Failed, at);
            && SettledBy(was + ArrivedBy(arrivals, k + 1), after, n, k + 1, ok)
            && PublishedOfFirst(after, n + k + 1)
               == PublishedOfFirst(early, n + k) + (if ok[k] then [was[n + k].event] else [])
  {
    var whole, middle := was + ArrivedBy(arrivals, k + 1), early + arrivals[k];
    NextArrivals(was, arrivals, k);
    SettledByExtends(was + ArrivedBy(arrivals, k), early, n, k, ok, arrivals[k]);
    assert whole[n + k] == was[n + k];
    MarkSettlesNext(whole, middle, n, k, ok, was[n + k].id, at);
    MarkedOneMore(whole, middle, Mark(middle, was[n + k].id, if ok[k] then Published else Failed, at), n, k, ok);
    PublishedOfSame(early, middle, n + k);
  }

  lemma NextArrivals(was: seq<OutboxRecord>, arrivals: seq<seq<OutboxRecord>>, k: nat)
    requires k < |arrivals| && DistinctRecordIds(was + ArrivedBy(arrivals, |arrivals|))
    ensures was + ArrivedBy(arrivals, k + 1) == was + ArrivedBy(arrivals, k) + arrivals[k]
    ensures DistinctRecordIds(was + ArrivedBy(arrivals, k + 1))
  {
    ArrivedPrefix(arrivals, k + 1, |arrivals|);
    PrefixKeepsDistinctIds(was, ArrivedBy(arrivals, k + 1), ArrivedBy(arrivals, |arrivals|));
  }

  lemma PrefixKeepsDistinctIds(was: seq<OutboxRecord>, some: seq<OutboxRecord>, all: seq<OutboxRecord>)
    requires some <= all && DistinctRecordIds(was + all)
    ensures DistinctRecordIds(was + some)
  {
    DistinctIdsOfSame(was + all, was + some, |was + some|, |was + all|);
  }

  lemma MarkedOneMore(before: seq<OutboxRecord>, middle: seq<OutboxRecord>, after: seq<OutboxRecord>, n: nat, k: nat, ok: seq<bool>)
    requires k < |ok| && n + k < |before|
    requires SettledBy(before, middle, n, k, ok) && SettledBy(before, after, n, k + 1, ok)
    ensures PublishedOfFirst(after, n + k + 1)
            == PublishedOfFirst(middle, n + k) + (if ok[k] then [before[n + k].event] else [])
  {
    forall i | 0 <= i <= n + k ensures middle[i].event == before[i].event == after[i].event {
      if n <= i < n + k {
        assert before[i] == middle[i].(status := before[i].status, availableAt := before[i].availableAt);
      }
      if n <= i < n + k + 1 {
        assert before[i] == after[i].(status := before[i].status, availableAt := before[i].availableAt);
      }
    }
    PublishedOfSame(middle, after, n + k);
  }
}
