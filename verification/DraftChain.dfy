/**
 The draft chain of a page when requests interleave: the drafts among its revisions, in list
 order, each numbered above and based on the one before. It only ever grows at its end.
 */
module DraftChain {
  import opened Wrappers
  import opened Sequences
  import opened Documents
  import opened PageStore
  import opened PageEvents
  import opened UseCases
  import opened Lifecycle

  /** What both services agree on about a draft. */
  datatype Snap = Snap(no: int, id: string, view: Document)

  function SnapOf(r: Revision): Snap {
    Snap(r.no, r.id, View(r.document))
  }

  function SnapOfHead(h: Head): Snap {
    Snap(h.no, h.id, View(h.document))
  }

  /** The drafts among the first n revisions. */
  function DraftsFirst(revs: seq<Revision>, n: nat): seq<Snap>
    requires n <= |revs|
    decreases n, 0
  {
    if n == 0 then [] else DraftsNext(revs, n - 1)
  }

  function DraftsNext(revs: seq<Revision>, n: nat): seq<Snap>
    requires n < |revs|
    decreases n, 1
  {
    DraftsFirst(revs, n) + (if revs[n].kind == DraftKind then [SnapOf(revs[n])] else [])
  }

  function Chain(st: State, p: string): seq<Snap> {
    var revs := RevisionsOf(st, p);
    DraftsFirst(revs, |revs|)
  }

  datatype HeadRef = HeadRef(no: int, id: string)

  /** Number and id of the last draft among the first n revisions. */
  function DraftHead(revs: seq<Revision>, n: nat): HeadRef
    requires n <= |revs|
  {
    if n == 0 then HeadRef(0, "")
    else if revs[n - 1].kind == DraftKind then HeadRef(revs[n - 1].no, revs[n - 1].id)
    else DraftHead(revs, n - 1)
  }

  /** Each draft among the first n is based on the draft before it and numbered above it. */
  ghost predicate LinkedFirst(revs: seq<Revision>, n: nat)
    requires n <= |revs|
    decreases n, 0
  {
    n == 0 || LinkedNext(revs, n - 1)
  }

  ghost predicate LinkedNext(revs: seq<Revision>, n: nat)
    requires n < |revs|
    decreases n, 1
  {
    && LinkedFirst(revs, n)
    && (revs[n].kind == DraftKind ==>
          revs[n].baseId == DraftHead(revs, n).id && revs[n].no > DraftHead(revs, n).no)
  }

  /** Each of the first n revisions is found under its id. */
  ghost predicate UniqueFirst(revs: seq<Revision>, n: nat)
    requires n <= |revs|
    decreases n, 0
  {
    n == 0 || UniqueNext(revs, n - 1)
  }

  ghost predicate UniqueNext(revs: seq<Revision>, n: nat)
    requires n < |revs|
    decreases n, 1
  {
    UniqueFirst(revs, n) && RevisionIndex(revs, revs[n].id) == n
  }

  /** A revision list whose drafts form a chain with this head. */
  ghost predicate Chained(revs: seq<Revision>, head: HeadRef) {
    && LinkedFirst(revs, |revs|) && UniqueFirst(revs, |revs|)
    && DraftHead(revs, |revs|) == head && head.no > 0
  }

  // ------------------------------------------------------------------------------ reading

  lemma {:induction false} UniqueAt(revs: seq<Revision>, n: nat, i: nat)
    requires i < n <= |revs| && UniqueFirst(revs, n)
    ensures RevisionIndex(revs, revs[i].id) == i
    decreases n
  {
    assert UniqueNext(revs, n - 1);
    if i < n - 1 {
      UniqueAt(revs, n - 1, i);
    }
  }

  /** The head pointer names the last snap of the chain, which belongs to a stored draft. */
  lemma {:induction false} LastDraft(revs: seq<Revision>, n: nat) returns (d: nat)
    requires n <= |revs| && DraftHead(revs, n).no > 0
    ensures d < n && revs[d].kind == DraftKind && DraftHead(revs, n) == HeadRef(revs[d].no, revs[d].id)
    ensures |DraftsFirst(revs, n)| > 0 && DraftsFirst(revs, n)[|DraftsFirst(revs, n)| - 1] == SnapOf(revs[d])
    decreases n
  {
    assert DraftsFirst(revs, n) == DraftsNext(revs, n - 1);
    if revs[n - 1].kind == DraftKind {
      d := n - 1;
    } else {
      d := LastDraft(revs, n - 1);
    }
  }

  function LastSnap(chain: seq<Snap>): Snap
    requires chain != []
  {
    chain[|chain| - 1]
  }

  /** Numbers rise along the chain, up to the head. */
  ghost predicate Rising(chain: seq<Snap>, top: int) {
    && (forall i, j :: 0 <= i < j < |chain| ==> chain[i].no < chain[j].no)
    && (forall i :: 0 <= i < |chain| ==> chain[i].no <= top)
  }

  lemma RisingGrows(chain: seq<Snap>, top: int, x: Snap)
    requires Rising(chain, top) && x.no > top
    ensures Rising(chain + [x], x.no)
  {
  }

  lemma {:induction false} ChainRises(revs: seq<Revision>, n: nat)
    requires n <= |revs| && LinkedFirst(revs, n)
    ensures Rising(DraftsFirst(revs, n), DraftHead(revs, n).no)
    decreases n
  {
    if n > 0 {
      assert LinkedNext(revs, n - 1);
      assert DraftsFirst(revs, n) == DraftsNext(revs, n - 1);
      ChainRises(revs, n - 1);
      if revs[n - 1].kind == DraftKind {
        RisingGrows(DraftsFirst(revs, n - 1), DraftHead(revs, n - 1).no, SnapOf(revs[n - 1]));
      }
    }
  }

  lemma SameNumberSameSnap(chain: seq<Snap>, top: int, x: Snap, y: Snap)
    requires Rising(chain, top) && x in chain && y in chain && x.no == y.no
    ensures x == y
  {
  }

  lemma {:induction false} DraftNosUpToHead(revs: seq<Revision>, n: nat, i: nat)
    requires i < n <= |revs| && LinkedFirst(revs, n) && revs[i].kind == DraftKind
    ensures revs[i].no <= DraftHead(revs, n).no
    decreases n
  {
    assert LinkedNext(revs, n - 1);
    if i < n - 1 {
      DraftNosUpToHead(revs, n - 1, i);
    }
  }

  // ---------------------------------------------------------------------------- inserting

  /** Interchangeable as far as chains go. */
  ghost predicate SameSnap(x: Revision, y: Revision) {
    x.kind == y.kind && x.id == y.id && x.no == y.no && x.baseId == y.baseId && SnapOf(x) == SnapOf(y)
  }

  /** The first n revisions of both lists are interchangeable. */
  ghost predicate SameFirst(xs: seq<Revision>, ys: seq<Revision>, n: nat)
    requires n <= |xs| && n <= |ys|
    decreases n, 0
  {
    n == 0 || SameNext(xs, ys, n - 1)
  }

  ghost predicate SameNext(xs: seq<Revision>, ys: seq<Revision>, n: nat)
    requires n < |xs| && n < |ys|
    decreases n, 1
  {
    SameFirst(xs, ys, n) && SameSnap(xs[n], ys[n])
  }

  lemma {:induction false} SamePrefix(xs: seq<Revision>, ys: seq<Revision>, n: nat)
    requires n <= |xs| && n <= |ys| && forall i :: 0 <= i < n ==> xs[i] == ys[i]
    ensures SameFirst(xs, ys, n)
    decreases n
  {
    if n > 0 {
      SamePrefix(xs, ys, n - 1);
      assert SameNext(xs, ys, n - 1);
    }
  }

  lemma {:induction false} SameChain(xs: seq<Revision>, ys: seq<Revision>, n: nat)
    requires n <= |xs| && n <= |ys| && SameFirst(xs, ys, n)
    ensures DraftsFirst(xs, n) == DraftsFirst(ys, n) && DraftHead(xs, n) == DraftHead(ys, n)
    ensures LinkedFirst(xs, n) ==> LinkedFirst(ys, n)
    decreases n
  {
    if n > 0 {
      assert SameNext(xs, ys, n - 1);
      SameChain(xs, ys, n - 1);
      assert DraftsFirst(xs, n) == DraftsNext(xs, n - 1) && DraftsFirst(ys, n) == DraftsNext(ys, n - 1);
      if LinkedFirst(xs, n) {
        assert LinkedNext(xs, n - 1);
        assert LinkedNext(ys, n - 1);
      }
    }
  }

  /** Beyond an inserted published revision nothing differs; an inserted draft becomes the last one. */
  lemma {:induction false} ChainAfterInsert(revs: seq<Revision>, k: nat, r: Revision, m: nat)
    requires k <= m <= |revs| && LinkedFirst(revs, m)
    requires r.kind == DraftKind ==>
               && (forall i :: k <= i < m ==> revs[i].kind == PublishedKind)
               && r.baseId == DraftHead(revs, m).id && r.no > DraftHead(revs, m).no
    ensures var ins := InsertAt(revs, k, r);
            if r.kind == DraftKind
            then DraftsFirst(ins, m + 1) == DraftsFirst(revs, m) + [SnapOf(r)] && DraftHead(ins, m + 1) == HeadRef(r.no, r.id)
            else DraftsFirst(ins, m + 1) == DraftsFirst(revs, m) && DraftHead(ins, m + 1) == DraftHead(revs, m)
    ensures LinkedFirst(InsertAt(revs, k, r), m + 1)
    decreases m
  {
    var ins := InsertAt(revs, k, r);
    if m == k {
      SamePrefix(revs, ins, k);
      SameChain(revs, ins, k);
    } else {
      assert LinkedNext(revs, m - 1);
      ChainAfterInsert(revs, k, r, m - 1);
      assert DraftsFirst(revs, m) == DraftsNext(revs, m - 1);
      assert ins[m] == revs[m - 1];
    }
    assert DraftsFirst(ins, m + 1) == DraftsNext(ins, m);
    assert LinkedNext(ins, m);
  }

  lemma LookupAfterInsert(revs: seq<Revision>, k: nat, r: Revision, id: string)
    requires k <= |revs| && RevisionIndex(revs, r.id) == |revs|
    ensures var i := RevisionIndex(revs, id);
            RevisionIndex(InsertAt(revs, k, r), id) == if id == r.id then k else if i < k then i else i + 1
  {
    var i := RevisionIndex(revs, id);
    IndexIs(InsertAt(revs, k, r), id, if id == r.id then k else if i < k then i else i + 1);
  }

  lemma {:induction false} UniqueAfterInsert(revs: seq<Revision>, k: nat, r: Revision, n: nat)
    requires k <= |revs| && n <= |revs| + 1 && UniqueFirst(revs, |revs|) && RevisionIndex(revs, r.id) == |revs|
    ensures UniqueFirst(InsertAt(revs, k, r), n)
    decreases n
  {
    if n > 0 {
      UniqueAfterInsert(revs, k, r, n - 1);
      var ins, j: nat := InsertAt(revs, k, r), n - 1;
      LookupAfterInsert(revs, k, r, ins[j].id);
      if j != k {
        UniqueAt(revs, |revs|, if j < k then j else j - 1);
      }
      assert UniqueNext(ins, n - 1);
    }
  }

  /** A new draft above the head extends the chain; a new published revision leaves it alone. */
  lemma AddedToChain(revs: seq<Revision>, head: HeadRef, r: Revision)
    requires Chained(revs, head) && RevisionIndex(revs, r.id) == |revs|
    requires r.kind == DraftKind ==> r.baseId == head.id && r.no > head.no
    ensures var after := AddSorted(revs, r);
            && Chained(after, if r.kind == DraftKind then HeadRef(r.no, r.id) else head)
            && DraftsFirst(after, |after|) == DraftsFirst(revs, |revs|) + (if r.kind == DraftKind then [SnapOf(r)] else [])
  {
    var k := SortPosition(revs, |revs|, r.no);
    if r.kind == DraftKind {
      forall i | k <= i < |revs| ensures revs[i].kind == PublishedKind {
        if revs[i].kind == DraftKind {
          DraftNosUpToHead(revs, |revs|, i);
        }
      }
    }
    ChainAfterInsert(revs, k, r, |revs|);
    UniqueAfterInsert(revs, k, r, |revs| + 1);
  }

  // --------------------------------------------------------------- any order of equal numbers

  /** The drafts among the first n revisions, as they are stored. */
  function DraftRevisions(revs: seq<Revision>, n: nat): seq<Revision>
    requires n <= |revs|
  {
    if n == 0 then []
    else DraftRevisions(revs, n - 1) + (if revs[n - 1].kind == DraftKind then [revs[n - 1]] else [])
  }

  predicate SortedByNo(revs: seq<Revision>) {
    forall i, j :: 0 <= i < j < |revs| ==> revs[i].no <= revs[j].no
  }

  /** `after` is what some sorting by number makes of the list with r appended. */
  ghost predicate SomeSorting(revs: seq<Revision>, r: Revision, after: seq<Revision>) {
    SortedByNo(after) && multiset(after) == multiset(revs + [r])
  }

  function HeadOfDrafts(ds: seq<Revision>): HeadRef {
    if ds == [] then HeadRef(0, "") else HeadRef(ds[|ds| - 1].no, ds[|ds| - 1].id)
  }

  ghost predicate LinkedDrafts(ds: seq<Revision>) {
    forall i :: 0 <= i < |ds| ==> ds[i].baseId == HeadOfDrafts(ds[..i]).id && ds[i].no > HeadOfDrafts(ds[..i]).no
  }

  function SnapsOf(ds: seq<Revision>): seq<Snap> {
    seq(|ds|, i requires 0 <= i < |ds| => SnapOf(ds[i]))
  }

  lemma LinkedGrows(ds: seq<Revision>, r: Revision)
    ensures LinkedDrafts(ds + [r])
            <==> LinkedDrafts(ds) && r.baseId == HeadOfDrafts(ds).id && r.no > HeadOfDrafts(ds).no
  {
    var more := ds + [r];
    assert more[..|ds|] == ds;
    assert forall i :: 0 <= i < |ds| ==> more[..i] == ds[..i] && more[i] == ds[i];
    if LinkedDrafts(more) {
      assert more[|ds|] == r;
    }
  }

  lemma SnapsGrow(ds: seq<Revision>, r: Revision)
    ensures SnapsOf(ds + [r]) == SnapsOf(ds) + [SnapOf(r)]
  {
  }

  /** Chain, head and links of the first n revisions are those of these drafts. */
  ghost predicate OfDrafts(revs: seq<Revision>, n: nat, ds: seq<Revision>)
    requires n <= |revs|
  {
    && DraftsFirst(revs, n) == SnapsOf(ds) && DraftHead(revs, n) == HeadOfDrafts(ds)
    && (LinkedFirst(revs, n) <==> LinkedDrafts(ds))
  }

  lemma OfDraftsGrows(revs: seq<Revision>, n: nat, ds: seq<Revision>)
    requires n < |revs| && OfDrafts(revs, n, ds)
    ensures OfDrafts(revs, n + 1, ds + (if revs[n].kind == DraftKind then [revs[n]] else []))
  {
    assert ds + [] == ds;
    assert DraftsFirst(revs, n + 1) == DraftsNext(revs, n);
    assert LinkedFirst(revs, n + 1) <==> LinkedNext(revs, n);
    LinkedGrows(ds, revs[n]);
    SnapsGrow(ds, revs[n]);
  }

  lemma NoDrafts(revs: seq<Revision>)
    ensures OfDrafts(revs, 0, [])
  {
  }

  lemma {:induction false} ChainIsOfDrafts(revs: seq<Revision>, n: nat)
    requires n <= |revs|
    ensures OfDrafts(revs, n, DraftRevisions(revs, n))
    decreases n
  {
    if n == 0 {
      NoDrafts(revs);
    } else {
      ChainIsOfDrafts(revs, n - 1);
      OfDraftsGrows(revs, n - 1, DraftRevisions(revs, n - 1));
    }
  }

  /** Which drafts there are does not depend on the order. */
  lemma {:induction false} DraftsCounted(revs: seq<Revision>, n: nat, x: Revision)
    requires n <= |revs|
    ensures multiset(DraftRevisions(revs, n))[x] == if x.kind == DraftKind then multiset(revs[..n])[x] else 0
    decreases n
  {
    if n > 0 {
      DraftsCounted(revs, n - 1, x);
      assert revs[..n] == revs[..n - 1] + [revs[n - 1]];
    }
  }

  lemma {:induction false} DraftsSorted(revs: seq<Revision>, n: nat)
    requires n <= |revs| && SortedByNo(revs)
    ensures SortedByNo(DraftRevisions(revs, n))
    ensures forall i, j :: 0 <= i < |DraftRevisions(revs, n)| && n <= j < |revs| ==> DraftRevisions(revs, n)[i].no <= revs[j].no
    decreases n
  {
    if n > 0 {
      DraftsSorted(revs, n - 1);
    }
  }

  predicate StrictlyByNo(revs: seq<Revision>) {
    forall i, j :: 0 <= i < j < |revs| ==> revs[i].no < revs[j].no
  }

  /** Distinct numbers leave a sorting no choice. */
  lemma {:induction false} SortingIsUnique(xs: seq<Revision>, ys: seq<Revision>)
    requires SortedByNo(xs) && StrictlyByNo(ys) && multiset(xs) == multiset(ys)
    ensures xs == ys
    decreases |xs|
  {
    assert |xs| == |multiset(xs)| == |multiset(ys)| == |ys|;
    if xs != [] {
      LastAgrees(xs, ys);
      WithoutLast(xs);
      WithoutLast(ys);
      SortingIsUnique(xs[..|xs| - 1], ys[..|ys| - 1]);
    }
  }

  lemma WithoutLast(xs: seq<Revision>)
    requires xs != []
    ensures var n := |xs| - 1; xs == xs[..n] + [xs[n]] && multiset(xs[..n]) == multiset(xs) - multiset{xs[n]}
  {
    assert xs == xs[..|xs| - 1] + [xs[|xs| - 1]];
  }

  lemma LastAgrees(xs: seq<Revision>, ys: seq<Revision>)
    requires SortedByNo(xs) && StrictlyByNo(ys) && multiset(xs) == multiset(ys) && |xs| == |ys| > 0
    ensures xs[|xs| - 1] == ys[|ys| - 1]
  {
    var n := |xs| - 1;
    assert xs[n] in multiset(ys) && ys[n] in multiset(xs);
    var i :| 0 <= i <= n && xs[i] == ys[n];
    var j :| 0 <= j <= n && ys[j] == xs[n];
  }

  lemma {:induction false} CountedOnce(revs: seq<Revision>, n: nat, x: Revision)
    requires n <= |revs| && UniqueFirst(revs, |revs|)
    ensures multiset(revs[..n])[x] <= 1 && (multiset(revs[..n])[x] == 1 ==> x in revs[..n])
    decreases n
  {
    if n > 0 {
      CountedOnce(revs, n - 1, x);
      assert revs[..n] == revs[..n - 1] + [revs[n - 1]];
      if revs[n - 1] == x && x in revs[..n - 1] {
        var i :| 0 <= i < n - 1 && revs[i] == x;
        UniqueAt(revs, |revs|, i);
        UniqueAt(revs, |revs|, n - 1);
        assert false;
      }
    }
  }

  lemma TwiceCounted(xs: seq<Revision>, i: nat, j: nat)
    requires i < j < |xs| && xs[i] == xs[j]
    ensures multiset(xs)[xs[i]] >= 2
  {
    assert xs == xs[..j] + xs[j..];
    assert xs[i] in xs[..j] && xs[j] in xs[j..];
  }

  /** Reordering keeps ids apart. */
  lemma IdsStayApart(revs: seq<Revision>, after: seq<Revision>, i: nat, j: nat)
    requires UniqueFirst(revs, |revs|) && multiset(after) == multiset(revs) && i < j < |after|
    ensures after[i].id != after[j].id
  {
    assert after[i] in multiset(revs) && after[j] in multiset(revs);
    var a :| 0 <= a < |revs| && revs[a] == after[i];
    var b :| 0 <= b < |revs| && revs[b] == after[j];
    UniqueAt(revs, |revs|, a);
    UniqueAt(revs, |revs|, b);
    CountedOnce(revs, |revs|, after[i]);
    assert revs[..|revs|] == revs;
    if after[i] == after[j] {
      TwiceCounted(after, i, j);
    }
  }

  lemma {:induction false} UniqueReordered(revs: seq<Revision>, after: seq<Revision>, n: nat)
    requires UniqueFirst(revs, |revs|) && multiset(after) == multiset(revs) && n <= |after|
    ensures UniqueFirst(after, n)
    decreases n
  {
    if n > 0 {
      UniqueReordered(revs, after, n - 1);
      forall k | 0 <= k < n - 1 ensures after[k].id != after[n - 1].id {
        IdsStayApart(revs, after, k, n - 1);
      }
      IndexIs(after, after[n - 1].id, n - 1);
      assert UniqueNext(after, n - 1);
    }
  }

  lemma DraftsAppended(revs: seq<Revision>, r: Revision)
    ensures var whole := revs + [r];
            DraftRevisions(whole, |whole|) == DraftRevisions(revs, |revs|) + (if r.kind == DraftKind then [r] else [])
  {
    DraftsOfPrefix(revs, revs + [r], |revs|);
  }

  /** The drafts of the list with r appended are in strict order already. */
  lemma AppendedDrafts(revs: seq<Revision>, head: HeadRef, r: Revision, ds: seq<Revision>)
    requires Chained(revs, head) && ds == DraftRevisions(revs, |revs|) + (if r.kind == DraftKind then [r] else [])
    requires r.kind == DraftKind ==> r.baseId == head.id && r.no > head.no
    ensures LinkedDrafts(ds) && StrictlyByNo(ds)
  {
    ChainIsOfDrafts(revs, |revs|);
    LinkedGrows(DraftRevisions(revs, |revs|), r);
    LinkedIsStrict(ds);
  }

  lemma {:induction false} LinkedIsStrict(ds: seq<Revision>)
    requires LinkedDrafts(ds)
    ensures StrictlyByNo(ds)
    decreases |ds|
  {
    if ds != [] {
      var n := |ds| - 1;
      assert ds == ds[..n] + [ds[n]];
      LinkedGrows(ds[..n], ds[n]);
      LinkedIsStrict(ds[..n]);
    }
  }

  lemma {:induction false} DraftsOfPrefix(xs: seq<Revision>, ys: seq<Revision>, n: nat)
    requires n <= |xs| && xs <= ys
    ensures DraftRevisions(xs, n) == DraftRevisions(ys, n)
    decreases n
  {
    if n > 0 {
      DraftsOfPrefix(xs, ys, n - 1);
    }
  }

  /**
   `sort.Slice` may leave revisions of equal number in any order. Whatever it does, the draft
   chain is the same: the old one, with the new draft at its end if it is one.
   */
  lemma AnySortingChains(revs: seq<Revision>, head: HeadRef, r: Revision, after: seq<Revision>)
    requires Chained(revs, head) && RevisionIndex(revs, r.id) == |revs| && SomeSorting(revs, r, after)
    requires r.kind == DraftKind ==> r.baseId == head.id && r.no > head.no
    ensures Chained(after, if r.kind == DraftKind then HeadRef(r.no, r.id) else head)
    ensures DraftsFirst(after, |after|) == DraftsFirst(revs, |revs|) + (if r.kind == DraftKind then [SnapOf(r)] else [])
  {
    var whole := revs + [r];
    DraftsAppended(revs, r);
    AppendedDrafts(revs, head, r, DraftRevisions(whole, |whole|));
    UniqueAfterInsert(revs, |revs|, r, |revs| + 1);
    assert InsertAt(revs, |revs|, r) == whole;
    UniqueReordered(whole, after, |after|);
    SameDrafts(whole, after);
    ChainIsOfDrafts(revs, |revs|);
    ChainIsOfDrafts(after, |after|);
  }

  lemma SameDraftsCounted(whole: seq<Revision>, after: seq<Revision>)
    requires multiset(after) == multiset(whole)
    ensures multiset(DraftRevisions(after, |after|)) == multiset(DraftRevisions(whole, |whole|))
  {
    assert after[..|after|] == after && whole[..|whole|] == whole;
    forall x: Revision
      ensures multiset(DraftRevisions(after, |after|))[x] == multiset(DraftRevisions(whole, |whole|))[x]
    {
      DraftsCounted(after, |after|, x);
      DraftsCounted(whole, |whole|, x);
    }
  }

  lemma SameDrafts(whole: seq<Revision>, after: seq<Revision>)
    requires SortedByNo(after) && multiset(after) == multiset(whole) && StrictlyByNo(DraftRevisions(whole, |whole|))
    ensures DraftRevisions(after, |after|) == DraftRevisions(whole, |whole|)
  {
    SameDraftsCounted(whole, after);
    DraftsSorted(after, |after|);
    SortingIsUnique(DraftRevisions(after, |after|), DraftRevisions(whole, |whole|));
  }

  lemma {:induction false} UniqueSame(xs: seq<Revision>, ys: seq<Revision>, n: nat)
    requires n <= |xs| == |ys| && UniqueFirst(xs, n) && forall i :: 0 <= i < |xs| ==> xs[i].id == ys[i].id
    ensures UniqueFirst(ys, n)
    decreases n
  {
    if n > 0 {
      assert UniqueNext(xs, n - 1);
      UniqueSame(xs, ys, n - 1);
      IndexAgrees(xs, ys, xs[n - 1].id);
      assert UniqueNext(ys, n - 1);
    }
  }

  /** File names written in place are invisible to the chain. */
  lemma RehydratedChain(revs: seq<Revision>, head: HeadRef, i: nat, files: FileResolver)
    requires Chained(revs, head) && i < |revs|
    ensures var after := revs[i := Rehydrated(revs, i, files)];
            Chained(after, head) && DraftsFirst(after, |after|) == DraftsFirst(revs, |revs|)
    ensures SnapOf(Rehydrated(revs, i, files)) == SnapOf(revs[i])
  {
    var after := revs[i := Rehydrated(revs, i, files)];
    HydrationKeepsRest(files, revs[i].document.blocks, SHARED);
    SameButOne(revs, after, i, |revs|);
    SameChain(revs, after, |revs|);
    UniqueSame(revs, after, |revs|);
  }

  lemma {:induction false} SameButOne(xs: seq<Revision>, ys: seq<Revision>, i: nat, n: nat)
    requires n <= |xs| == |ys| && i < |xs| && ys == xs[i := ys[i]] && SameSnap(xs[i], ys[i])
    ensures SameFirst(xs, ys, n)
    decreases n
  {
    if n > 0 {
      SameButOne(xs, ys, i, n - 1);
      assert SameNext(xs, ys, n - 1);
    }
  }
}
