/** Facts about the traversals of the rewriter: fixed points, and lookups through a stable sort. */
module PatchTraversals {
  import opened Options
  import opened YamlTree
  import opened StableSort
  import opened YamlSlices
  import opened PatchSpec

  // ------------------------------------------------------------------ elements

  lemma {:induction false} EachIndex(ns: seq<Node>, f: Node -> Result<Node>)
    requires Each(ns, f).Ok?
    ensures |Each(ns, f).value| == |ns|
    ensures forall i :: 0 <= i < |ns| ==> f(ns[i]) == Ok(Each(ns, f).value[i])
  {
    if ns != [] {
      EachIndex(ns[1..], f);
      forall i | 0 <= i < |ns| ensures f(ns[i]) == Ok(Each(ns, f).value[i]) {
        if i > 0 { assert ns[i] == ns[1..][i - 1]; }
      }
    }
  }

  lemma {:induction false} EachFixed(ns: seq<Node>, f: Node -> Result<Node>)
    requires forall i :: 0 <= i < |ns| ==> f(ns[i]) == Ok(ns[i])
    ensures Each(ns, f) == Ok(ns)
  {
    if ns != [] {
      forall i | 0 <= i < |ns[1..]| ensures f(ns[1..][i]) == Ok(ns[1..][i]) {
        assert ns[1..][i] == ns[i + 1];
      }
      EachFixed(ns[1..], f);
      assert ns == [ns[0]] + ns[1..] && f(ns[0]) == Ok(ns[0]);
    }
  }

  // --------------------------------------------------------------------- pairs

  ghost predicate AllPairs(c: seq<Node>, P: Pair -> bool) {
    |c| < 2 || (P(Pair(c[0], c[1])) && AllPairs(c[2..], P))
  }

  lemma {:induction false} EachPairFixedIff(c: seq<Node>, f: Pair -> Result<Pair>)
    ensures EachPair(c, f) == Ok(c) <==> AllPairs(c, p => f(p) == Ok(p))
  {
    if |c| >= 2 {
      EachPairFixedIff(c[2..], f);
      assert c == [c[0], c[1]] + c[2..];
      if EachPair(c, f) == Ok(c) {
        var p := f(Pair(c[0], c[1])).value;
        assert c[2..] == ([p.key, p.val] + EachPair(c[2..], f).value)[2..] == EachPair(c[2..], f).value;
        assert p == Pair(c[0], c[1]);
      }
    }
  }

  /** What decides about a result can be decided about its origin, pair by pair. */
  lemma {:induction false} EachPairMapsIff(c: seq<Node>, f: Pair -> Result<Pair>, R: Pair -> bool, P: Pair -> bool,
      Q: Pair -> bool)
    requires AllPairs(c, R) && EachPair(c, f).Ok?
    requires forall p :: R(p) && f(p).Ok? ==> (Q(f(p).value) <==> P(p))
    ensures |EachPair(c, f).value| == |c| && (AllPairs(EachPair(c, f).value, Q) <==> AllPairs(c, P))
  {
    if |c| >= 2 {
      EachPairMapsIff(c[2..], f, R, P, Q);
      var d := EachPair(c, f).value;
      assert d[2..] == EachPair(c[2..], f).value;
      assert Pair(d[0], d[1]) == f(Pair(c[0], c[1])).value;
    }
  }

  /** A traversal that keeps the texts of the keys keeps the ranks and the set of keys. */
  lemma {:induction false} EachPairKeys(c: seq<Node>, f: Pair -> Result<Pair>, rank: string -> seq<int>)
    requires EachPair(c, f).Ok? && AllPairs(c, p => f(p).Ok? ==> f(p).value.key.value == p.key.value)
    ensures var d := EachPair(c, f).value;
            && |d| == |c| && |Pairs(d, rank)| == |Pairs(c, rank)|
            && (forall i :: 0 <= i < |Pairs(c, rank)| ==> Pairs(d, rank)[i].rank == Pairs(c, rank)[i].rank)
            && forall k :: Lookup(d, k).Some? <==> Lookup(c, k).Some?
  {
    if |c| >= 2 {
      EachPairKeys(c[2..], f, rank);
      var d := EachPair(c, f).value;
      assert d[2..] == EachPair(c[2..], f).value;
      assert Pair(d[0], d[1]) == f(Pair(c[0], c[1])).value;
    }
  }

  /** After a traversal that keeps the keys a sorted list is still sorted. */
  lemma SortedStays(c: seq<Node>, f: Pair -> Result<Pair>, rank: string -> seq<int>)
    requires Even(c) && EachPair(c, f).Ok? && AllPairs(c, p => f(p).Ok? ==> f(p).value.key.value == p.key.value)
    requires SortContent(c, rank) == c
    ensures SortContent(EachPair(c, f).value, rank) == EachPair(c, f).value
  {
    var d := EachPair(c, f).value;
    EachPairKeys(c, f, rank);
    SortContentOrder(c, rank);
    SortedFixed(Pairs(d, rank));
    FlattenPairs(d, rank);
  }

  lemma {:induction false} AllPairsEntries(c: seq<Node>, P: Pair -> bool, rank: string -> seq<int>)
    ensures AllPairs(c, P) <==> forall e :: e in Pairs(c, rank) ==> P(e.item)
  {
    if |c| >= 2 {
      AllPairsEntries(c[2..], P, rank);
      var e := Entry(rank(c[0].value), Pair(c[0], c[1]));
      assert Pairs(c, rank) == [e] + Pairs(c[2..], rank);
      if forall e :: e in Pairs(c, rank) ==> P(e.item) {
        assert e in Pairs(c, rank);
      }
    }
  }

  lemma AllPairsSortedIff(c: seq<Node>, P: Pair -> bool, rank: string -> seq<int>)
    ensures AllPairs(SortContent(c, rank), P) <==> AllPairs(c, P)
  {
    AllPairsEntries(c, P, rank);
    AllPairsEntries(SortContent(c, rank), P, rank);
    SortContentPairs(c, rank);
    SortIsStable(Pairs(c, rank));
    SameEntries(Pairs(SortContent(c, rank), rank), Pairs(c, rank));
  }

  lemma SameEntries(a: seq<Entry<Pair>>, b: seq<Entry<Pair>>)
    requires multiset(a) == multiset(b)
    ensures forall e :: e in a <==> e in b
  {
    assert forall e :: e in a <==> e in multiset(a);
    assert forall e :: e in b <==> e in multiset(b);
  }

  /** A write of a value that satisfies P under every key of that text, over values that do, changes nothing about P. */
  lemma {:induction false} AllPairsPutIff(c: seq<Node>, key: Node, val: Node, P: Pair -> bool)
    requires Even(c) && forall k: Node, v: Node :: k.value == key.value ==> P(Pair(k, v))
    ensures AllPairs(Put(c, key, val), P) <==> AllPairs(c, P)
  {
    var r := Put(c, key, val);
    if |c| < 2 {
      assert r[2..] == [];
    } else if c[0].value == key.value {
      assert r[2..] == c[2..];
    } else {
      AllPairsPutIff(c[2..], key, val, P);
      assert r[2..] == Put(c[2..], key, val);
    }
  }

  lemma {:induction false} AllPairsAppendIff(c: seq<Node>, key: Node, val: Node, P: Pair -> bool)
    requires Even(c)
    ensures AllPairs(c + [key, val], P) <==> AllPairs(c, P) && P(Pair(key, val))
  {
    if |c| < 2 {
      assert (c + [key, val])[2..] == [];
    } else {
      AllPairsAppendIff(c[2..], key, val, P);
      assert (c + [key, val])[2..] == c[2..] + [key, val];
    }
  }

  lemma {:induction false} AllPairsWeaken(c: seq<Node>, P: Pair -> bool, Q: Pair -> bool)
    requires AllPairs(c, P) && forall p :: P(p) ==> Q(p)
    ensures AllPairs(c, Q)
  {
    if |c| >= 2 { AllPairsWeaken(c[2..], P, Q); }
  }

  // ---------------------------------------------------- lookups through a sort

  /** The first entry of a key. */
  function FirstOf(es: seq<Entry<Pair>>, key: string): Option<Node> {
    if es == [] then None
    else if FirstOf(es[..|es| - 1], key).Some? then FirstOf(es[..|es| - 1], key)
    else if es[|es| - 1].item.key.value == key then Some(es[|es| - 1].item.val) else None
  }

  lemma {:induction false} FirstOfPrepend(e: Entry<Pair>, es: seq<Entry<Pair>>, key: string)
    ensures FirstOf([e] + es, key) == if e.item.key.value == key then Some(e.item.val) else FirstOf(es, key)
    decreases |es|
  {
    if es == [] {
      assert [e] + es == [e] && [e][..0] == [];
      assert FirstOf([e][..0], key) == None;
    } else {
      FirstOfPrepend(e, es[..|es| - 1], key);
      assert ([e] + es)[..|es|] == [e] + es[..|es| - 1];
    }
  }

  lemma {:induction false} LookupFirst(c: seq<Node>, key: string, rank: string -> seq<int>)
    ensures Lookup(c, key) == FirstOf(Pairs(c, rank), key)
  {
    if |c| >= 2 {
      LookupFirst(c[2..], key, rank);
      FirstOfPrepend(Entry(rank(c[0].value), Pair(c[0], c[1])), Pairs(c[2..], rank), key);
    }
  }

  lemma FirstOfAppend(es: seq<Entry<Pair>>, e: Entry<Pair>, key: string)
    ensures FirstOf(es + [e], key) == if FirstOf(es, key).Some? then FirstOf(es, key)
              else if e.item.key.value == key then Some(e.item.val) else None
  {
    assert (es + [e])[..|es|] == es;
  }

  /** All entries of a key share its rank, so the group of that rank decides. */
  lemma {:induction false} FirstInGroup(es: seq<Entry<Pair>>, key: string, rank: string -> seq<int>)
    requires RankedBy(es, rank)
    ensures FirstOf(OfRank(es, rank(key)), key) == FirstOf(es, key)
    decreases |es|
  {
    if es != [] {
      var t, e := es[..|es| - 1], es[|es| - 1];
      FirstInGroup(t, key, rank);
      if e.rank == rank(key) {
        FirstOfAppend(OfRank(t, rank(key)), e, key);
      } else {
        assert e.item.key.value != key;
        assert OfRank(es, rank(key)) == OfRank(t, rank(key));
      }
    }
  }

  /** A stable sort by a rank of the key keeps every lookup. */
  lemma LookupSorted(c: seq<Node>, key: string, rank: string -> seq<int>)
    ensures Lookup(SortContent(c, rank), key) == Lookup(c, key)
  {
    var p := Pairs(c, rank);
    LookupFirst(c, key, rank);
    LookupFirst(SortContent(c, rank), key, rank);
    SortContentPairs(c, rank);
    SortedGroups(p);
    PairsRanked(c, rank);
    SortedPairsRanked(c, rank);
    FirstInGroup(p, key, rank);
    FirstInGroup(Sort(p), key, rank);
    assert OfRank(Sort(p), rank(key)) == OfRank(p, rank(key));
  }
}
