/** The stable order of ranked entries, and the insertion sort that computes it in place. */
module StableSort {

  /** A string is ranked by its characters, a response code by itself. */
  datatype Entry<T> = Entry(rank: seq<int>, item: T)

  /** Lexicographic order. */
  predicate Less(a: seq<int>, b: seq<int>) {
    if b == [] then false
    else if a == [] then true
    else a[0] < b[0] || (a[0] == b[0] && Less(a[1..], b[1..]))
  }

  lemma {:induction false} LessIrreflexive(a: seq<int>)
    ensures !Less(a, a)
  {
    if a != [] { LessIrreflexive(a[1..]); }
  }

  lemma {:induction false} LessTransitive(a: seq<int>, b: seq<int>, c: seq<int>)
    requires Less(a, b) && Less(b, c)
    ensures Less(a, c)
  {
    if a != [] && a[0] == b[0] == c[0] { LessTransitive(a[1..], b[1..], c[1..]); }
  }

  lemma {:induction false} LessTotal(a: seq<int>, b: seq<int>)
    ensures a == b || Less(a, b) || Less(b, a)
    ensures !(Less(a, b) && Less(b, a))
  {
    if a != [] && b != [] && a[0] == b[0] {
      LessTotal(a[1..], b[1..]);
      assert a == [a[0]] + a[1..] && b == [b[0]] + b[1..];
    }
  }

  lemma NotLessTransitive(a: seq<int>, b: seq<int>, c: seq<int>)
    requires !Less(b, a) && !Less(c, b)
    ensures !Less(c, a)
  {
    LessTotal(a, b);
    LessTotal(b, c);
    if Less(c, a) {
      if a == b { } else { LessTransitive(c, a, b); }
    }
  }

  predicate Sorted<T>(es: seq<Entry<T>>) {
    forall i, j :: 0 <= i < j < |es| ==> !Less(es[j].rank, es[i].rank)
  }

  /** The entries of one rank, in order. */
  function OfRank<T>(es: seq<Entry<T>>, rank: seq<int>): seq<Entry<T>> {
    if es == [] then []
    else
      var e := es[|es| - 1];
      OfRank(es[..|es| - 1], rank) + (if e.rank == rank then [e] else [])
  }

  /** Walks left from the end past every strictly greater entry. */
  function InsertLast<T>(s: seq<Entry<T>>, e: Entry<T>): seq<Entry<T>> {
    if s == [] || !Less(e.rank, s[|s| - 1].rank) then s + [e] else InsertLast(s[..|s| - 1], e) + [s[|s| - 1]]
  }

  function Sort<T>(es: seq<Entry<T>>): seq<Entry<T>> {
    if es == [] then [] else InsertLast(Sort(es[..|es| - 1]), es[|es| - 1])
  }

  lemma {:induction false} InsertPermutes<T>(s: seq<Entry<T>>, e: Entry<T>)
    ensures multiset(InsertLast(s, e)) == multiset(s) + multiset{e}
  {
    if !(s == [] || !Less(e.rank, s[|s| - 1].rank)) {
      var t, last := s[..|s| - 1], s[|s| - 1];
      InsertPermutes(t, e);
      assert s == t + [last];
      assert InsertLast(s, e) == InsertLast(t, e) + [last];
    }
  }

  lemma {:induction false} InsertSorted<T>(s: seq<Entry<T>>, e: Entry<T>)
    requires Sorted(s)
    ensures Sorted(InsertLast(s, e))
  {
    var n := |s|;
    if n == 0 || !Less(e.rank, s[n - 1].rank) {
      forall i | 0 <= i < n ensures !Less(e.rank, s[i].rank) {
        if i < n - 1 { NotLessTransitive(s[i].rank, s[n - 1].rank, e.rank); }
      }
    } else {
      var t := s[..n - 1];
      InsertSorted(t, e);
      InsertPermutes(t, e);
      LessTotal(e.rank, s[n - 1].rank);
      var r := InsertLast(t, e);
      forall i | 0 <= i < |r| ensures !Less(s[n - 1].rank, r[i].rank) {
        assert r[i] in multiset(r);
        assert r[i] == e || r[i] in t;
      }
    }
  }

  lemma OfRankConcat<T>(a: seq<Entry<T>>, e: Entry<T>, rank: seq<int>)
    ensures OfRank(a + [e], rank) == OfRank(a, rank) + (if e.rank == rank then [e] else [])
  {
    assert (a + [e])[..|a|] == a;
  }

  lemma {:induction false} InsertStable<T>(s: seq<Entry<T>>, e: Entry<T>, rank: seq<int>)
    ensures OfRank(InsertLast(s, e), rank) == OfRank(s, rank) + (if e.rank == rank then [e] else [])
  {
    if s == [] || !Less(e.rank, s[|s| - 1].rank) {
      OfRankConcat(s, e, rank);
    } else {
      var t, last := s[..|s| - 1], s[|s| - 1];
      InsertStable(t, e, rank);
      OfRankConcat(InsertLast(t, e), last, rank);
      LessIrreflexive(e.rank);
    }
  }

  /** The result is sorted, holds the same entries, and keeps the order of entries of equal rank. */
  lemma {:induction false} SortIsStable<T>(es: seq<Entry<T>>)
    ensures Sorted(Sort(es)) && multiset(Sort(es)) == multiset(es)
    ensures forall rank :: OfRank(Sort(es), rank) == OfRank(es, rank)
    decreases |es|
  {
    if es != [] {
      var t, e := es[..|es| - 1], es[|es| - 1];
      SortIsStable(t);
      InsertSorted(Sort(t), e);
      InsertPermutes(Sort(t), e);
      assert es == t + [e];
      forall rank ensures OfRank(Sort(es), rank) == OfRank(es, rank) {
        InsertStable(Sort(t), e, rank);
      }
    }
  }

  lemma {:induction false} SortedFixed<T>(es: seq<Entry<T>>)
    requires Sorted(es)
    ensures Sort(es) == es
    decreases |es|
  {
    if es != [] {
      SortedFixed(es[..|es| - 1]);
      assert es == es[..|es| - 1] + [es[|es| - 1]];
    }
  }

  lemma SortIdempotent<T>(es: seq<Entry<T>>)
    ensures Sort(Sort(es)) == Sort(es)
  {
    SortIsStable(es);
    SortedFixed(Sort(es));
  }

  lemma {:induction false} OfRankLast<T>(es: seq<Entry<T>>, rank: seq<int>)
    ensures |OfRank(es, rank)| <= |es|
    ensures forall e :: e in OfRank(es, rank) ==> e in es && e.rank == rank
    ensures forall e :: e in es && e.rank == rank ==> e in OfRank(es, rank)
    decreases |es|
  {
    if es != [] {
      OfRankLast(es[..|es| - 1], rank);
      assert es == es[..|es| - 1] + [es[|es| - 1]];
    }
  }

  /** The same entries in the same order at every rank. */
  ghost predicate SameGroups<T>(a: seq<Entry<T>>, b: seq<Entry<T>>) {
    forall rank {:trigger OfRank(a, rank)} {:trigger OfRank(b, rank)} :: OfRank(a, rank) == OfRank(b, rank)
  }

  lemma SameMembers<T>(a: seq<Entry<T>>, b: seq<Entry<T>>, e: Entry<T>)
    requires SameGroups(a, b) && e in a
    ensures e in b
  {
    OfRankLast(a, e.rank);
    OfRankLast(b, e.rank);
  }

  lemma SnocInjective<T>(p: seq<T>, x: T, q: seq<T>, y: T)
    requires p + [x] == q + [y]
    ensures p == q && x == y
  {
    assert (p + [x])[..|p|] == p && (q + [y])[..|q|] == q;
    assert (p + [x])[|p|] == x && (q + [y])[|q|] == y;
  }

  lemma DropLast<T>(a: seq<Entry<T>>, x: Entry<T>, b: seq<Entry<T>>, y: Entry<T>)
    requires x.rank == y.rank && SameGroups(a + [x], b + [y])
    ensures x == y && SameGroups(a, b)
  {
    OfRankConcat(a, x, x.rank);
    OfRankConcat(b, y, x.rank);
    SnocInjective(OfRank(a, x.rank), x, OfRank(b, x.rank), y);
    forall rank ensures OfRank(a, rank) == OfRank(b, rank) {
      OfRankConcat(a, x, rank);
      OfRankConcat(b, y, rank);
      if rank != x.rank {
        assert OfRank(a + [x], rank) == OfRank(a, rank) && OfRank(b + [y], rank) == OfRank(b, rank);
      }
    }
  }

  /** There is only one stable sorted order, so any stable sort computes it. */
  lemma {:induction false} StableOrderUnique<T>(a: seq<Entry<T>>, b: seq<Entry<T>>)
    requires Sorted(a) && Sorted(b) && SameGroups(a, b)
    ensures a == b
    decreases |a|
  {
    if a == [] {
      if b != [] { SameMembers(b, a, b[0]); }
    } else {
      SameMembers(a, b, a[0]);
      var c, x, d, y := a[..|a| - 1], a[|a| - 1], b[..|b| - 1], b[|b| - 1];
      assert a == c + [x] && b == d + [y];
      SameMembers(a, b, x);
      SameMembers(b, a, y);
      LessTotal(x.rank, y.rank);
      DropLast(c, x, d, y);
      StableOrderUnique(c, d);
    }
  }

  lemma Regroup<T>(a: seq<T>, x: T, b: seq<T>)
    ensures a + [x] + b == a + ([x] + b)
  {
  }

  /** The inner loop: entry i walks left to its place among the sorted ones before it. */
  method SinkLeft<T>(a: array<Entry<T>>, i: nat)
    requires i < a.Length
    modifies a
    ensures a[..i + 1] == InsertLast(old(a[..i]), old(a[i])) && a[i + 1..] == old(a[i + 1..])
  {
    ghost var s, e, tail := a[..i], a[i], a[i + 1..];
    var j := i;
    assert a[j + 1..i + 1] == [];
    while j > 0 && Less(a[j].rank, a[j - 1].rank)
      invariant 0 <= j <= i && a[j] == e && a[i + 1..] == tail
      invariant InsertLast(s, e) == InsertLast(a[..j], e) + a[j + 1..i + 1]
    {
      ghost var left, right := a[..j], a[j + 1..i + 1];
      assert InsertLast(left, e) == InsertLast(left[..j - 1], e) + [left[j - 1]];
      a[j], a[j - 1] := a[j - 1], a[j];
      j := j - 1;
      assert a[..j] == left[..j];
      assert a[j + 1..i + 1] == [left[j]] + right;
      Regroup(InsertLast(left[..j], e), left[j], right);
    }
    assert a[..i + 1] == a[..j] + [e] + a[j + 1..i + 1];
  }

  /** The two nested loops of the mapping sort, swapping neighbours in one array. */
  method InsertionSort<T>(a: array<Entry<T>>)
    modifies a
    ensures a[..] == Sort(old(a[..]))
  {
    ghost var was := a[..];
    for i := 0 to a.Length
      invariant a[..i] == Sort(was[..i]) && a[i..] == was[i..]
    {
      assert was[..i + 1][..i] == was[..i];
      assert a[i + 1..] == was[i + 1..];
      SinkLeft(a, i);
    }
    assert was[..a.Length] == was;
  }
}
