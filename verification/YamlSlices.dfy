/** The same edits on a growable slice: a length over a backing array that later slices may share. */
module YamlSlices {
  import opened Options
  import opened YamlTree
  import opened StableSort

  // ----------------------------------------------------------- sorted contents

  /** The pairs of a content list with their ranks; a last key without a value is dropped. */
  function Pairs(c: seq<Node>, rank: string -> seq<int>): seq<Entry<Pair>> {
    if |c| < 2 then [] else [Entry(rank(c[0].value), Pair(c[0], c[1]))] + Pairs(c[2..], rank)
  }

  function Flatten(es: seq<Entry<Pair>>): seq<Node> {
    if es == [] then [] else Flatten(es[..|es| - 1]) + [es[|es| - 1].item.key, es[|es| - 1].item.val]
  }

  function SortContent(c: seq<Node>, rank: string -> seq<int>): seq<Node> {
    Flatten(Sort(Pairs(c, rank)))
  }

  /** Keys are compared character by character. */
  function CharRank(key: string): seq<int> {
    if key == "" then [] else [key[0] as int] + CharRank(key[1..])
  }

  ghost predicate RankedBy(es: seq<Entry<Pair>>, rank: string -> seq<int>) {
    forall i :: 0 <= i < |es| ==> es[i].rank == rank(es[i].item.key.value)
  }

  lemma {:induction false} PairsRanked(c: seq<Node>, rank: string -> seq<int>)
    ensures RankedBy(Pairs(c, rank), rank) && |Pairs(c, rank)| == |c| / 2
  {
    if |c| >= 2 { PairsRanked(c[2..], rank); }
  }

  lemma {:induction false} PairsConcat(c: seq<Node>, k: Node, v: Node, rank: string -> seq<int>)
    requires Even(c)
    ensures Pairs(c + [k, v], rank) == Pairs(c, rank) + [Entry(rank(k.value), Pair(k, v))]
  {
    if |c| >= 2 {
      PairsConcat(c[2..], k, v, rank);
      assert (c + [k, v])[2..] == c[2..] + [k, v];
    } else {
      assert (c + [k, v])[2..] == [];
    }
  }

  lemma {:induction false} PairsFlatten(es: seq<Entry<Pair>>, rank: string -> seq<int>)
    requires RankedBy(es, rank)
    ensures Pairs(Flatten(es), rank) == es && |Flatten(es)| == 2 * |es|
    decreases |es|
  {
    if es != [] {
      var t, e := es[..|es| - 1], es[|es| - 1];
      PairsFlatten(t, rank);
      PairsConcat(Flatten(t), e.item.key, e.item.val, rank);
      assert e == Entry(rank(e.item.key.value), Pair(e.item.key, e.item.val));
      assert es == t + [e];
    }
  }

  lemma {:induction false} FlattenPrepend(e: Entry<Pair>, es: seq<Entry<Pair>>)
    ensures Flatten([e] + es) == [e.item.key, e.item.val] + Flatten(es)
    decreases |es|
  {
    if es == [] {
      assert [e] + es == [e];
      assert [e][..0] == [];
    } else {
      FlattenPrepend(e, es[..|es| - 1]);
      assert ([e] + es)[..|es|] == [e] + es[..|es| - 1];
    }
  }

  lemma {:induction false} FlattenPairs(c: seq<Node>, rank: string -> seq<int>)
    requires Even(c)
    ensures Flatten(Pairs(c, rank)) == c
  {
    if |c| >= 2 {
      FlattenPairs(c[2..], rank);
      FlattenPrepend(Entry(rank(c[0].value), Pair(c[0], c[1])), Pairs(c[2..], rank));
      assert c == [c[0], c[1]] + c[2..];
    }
  }

  lemma SortedPairsRanked(c: seq<Node>, rank: string -> seq<int>)
    ensures RankedBy(Sort(Pairs(c, rank)), rank)
  {
    PairsRanked(c, rank);
    SortIsStable(Pairs(c, rank));
    var s, p := Sort(Pairs(c, rank)), Pairs(c, rank);
    forall i | 0 <= i < |s| ensures s[i].rank == rank(s[i].item.key.value) {
      assert s[i] in multiset(s);
      assert s[i] in p;
    }
  }

  lemma SortLength<T>(es: seq<Entry<T>>)
    ensures |Sort(es)| == |es|
  {
    SortIsStable(es);
    assert |multiset(Sort(es))| == |multiset(es)|;
  }

  lemma SortedGroups<T>(es: seq<Entry<T>>)
    ensures Sorted(Sort(es)) && SameGroups(Sort(es), es)
  {
    SortIsStable(es);
  }

  lemma SortContentPairs(c: seq<Node>, rank: string -> seq<int>)
    ensures var s := SortContent(c, rank);
            Pairs(s, rank) == Sort(Pairs(c, rank)) && |s| == |c| / 2 * 2
  {
    PairsRanked(c, rank);
    SortLength(Pairs(c, rank));
    SortedPairsRanked(c, rank);
    PairsFlatten(Sort(Pairs(c, rank)), rank);
  }

  lemma SortContentOrder(c: seq<Node>, rank: string -> seq<int>)
    ensures var s := SortContent(c, rank); Sorted(Pairs(s, rank)) && SameGroups(Pairs(s, rank), Pairs(c, rank))
  {
    SortContentPairs(c, rank);
    SortedGroups(Pairs(c, rank));
  }

  lemma SortContentEven(c: seq<Node>, rank: string -> seq<int>)
    ensures Even(SortContent(c, rank))
  {
    SortContentPairs(c, rank);
  }

  /** The sorted list holds the same pairs in their stable order, and sorting it again changes nothing. */
  lemma SortContentIsStable(c: seq<Node>, rank: string -> seq<int>)
    ensures var s := SortContent(c, rank);
            && Even(s) && Sorted(Pairs(s, rank)) && SameGroups(Pairs(s, rank), Pairs(c, rank))
            && SortContent(s, rank) == s
  {
    SortContentEven(c, rank);
    SortContentOrder(c, rank);
    SortContentFixed(c, rank);
  }

  lemma SortContentFixed(c: seq<Node>, rank: string -> seq<int>)
    ensures SortContent(SortContent(c, rank), rank) == SortContent(c, rank)
  {
    SortContentPairs(c, rank);
    SortIdempotent(Pairs(c, rank));
  }

  // ----------------------------------------------------------------- positions

  /** Where a key stands in key position, or the length. */
  function KeyIndex(c: seq<Node>, key: string): nat {
    if |c| < 2 then |c| else if c[0].value == key then 0 else 2 + KeyIndex(c[2..], key)
  }

  lemma {:induction false} KeyIndexLookup(c: seq<Node>, key: string)
    ensures var i := KeyIndex(c, key);
            && (i == |c| || (i + 1 < |c| && c[i].value == key))
            && Lookup(c, key) == if i < |c| then Some(c[i + 1]) else None
  {
    if |c| >= 2 && c[0].value != key { KeyIndexLookup(c[2..], key); }
  }

  lemma {:induction false} KeyIndexPut(c: seq<Node>, key: Node, val: Node)
    ensures var i := KeyIndex(c, key.value);
            Put(c, key, val) == if i + 1 < |c| then c[i + 1 := val] else c + [key, val]
  {
    KeyIndexLookup(c, key.value);
    if |c| >= 2 && c[0].value != key.value {
      KeyIndexPut(c[2..], key, val);
      KeyIndexLookup(c[2..], key.value);
      assert c == c[..2] + c[2..];
    }
  }

  lemma {:induction false} KeyIndexInsert(c: seq<Node>, anchor: string, key: Node, val: Node)
    ensures var i := KeyIndex(c, anchor);
            Insert(c, anchor, key, val) == if i + 1 < |c| then c[..i + 2] + [key, val] + c[i + 2..] else c + [key, val]
  {
    KeyIndexLookup(c, anchor);
    if |c| >= 2 && c[0].value != anchor {
      KeyIndexInsert(c[2..], anchor, key, val);
      KeyIndexLookup(c[2..], anchor);
      var d, i := c[2..], KeyIndex(c[2..], anchor);
      assert c == c[..2] + d;
      if i + 1 < |d| {
        assert c[..2] + d[..i + 2] == c[..i + 4] && d[i + 2..] == c[i + 4..];
      }
    }
  }

  // --------------------------------------------------------------- the slices

  /** The array after xs was written over it from position n. */
  function Overwritten(a: seq<Node>, n: nat, xs: seq<Node>): seq<Node>
    requires n + |xs| <= |a|
  {
    a[..n] + xs + a[n + |xs|..]
  }

  /**
   * Another slice of length m over the same array sees the same list exactly when it ends before or is overwritten with
   * equals.
   */
  lemma OtherSliceSeesIff(a: seq<Node>, n: nat, xs: seq<Node>, m: nat)
    requires n + |xs| <= |a| && m <= |a|
    ensures Overwritten(a, n, xs)[..m] == a[..m] <==> forall k :: 0 <= k < |xs| && n + k < m ==> a[n + k] == xs[k]
  {
    var b := Overwritten(a, n, xs);
    if forall k :: 0 <= k < |xs| && n + k < m ==> a[n + k] == xs[k] {
      forall i | 0 <= i < m ensures b[i] == a[i] {
        if n <= i < n + |xs| { assert a[n + (i - n)] == xs[i - n]; }
      }
    }
    if b[..m] == a[..m] {
      forall k | 0 <= k < |xs| && n + k < m ensures a[n + k] == xs[k] {
        assert b[..m][n + k] == a[..m][n + k];
      }
    }
  }

  lemma OverwrittenTwice(a: seq<Node>, n: nat, xs: seq<Node>, ys: seq<Node>)
    requires n + |xs| + |ys| <= |a|
    ensures Overwritten(Overwritten(a, n, xs), n + |xs|, ys) == Overwritten(a, n, xs + ys)
  {
  }

  /** Where a pair goes: behind the anchor's, or at the end. */
  function InsertPosition(c: seq<Node>, anchor: string): (n: nat)
    ensures n <= |c|
  {
    KeyIndexLookup(c, anchor);
    if KeyIndex(c, anchor) < |c| then KeyIndex(c, anchor) + 2 else |c|
  }

  /**
   * What an insertion at n leaves in the array it found: the pair and the rest while the capacity lasts; the pair alone
   * when the rest no longer fits and moves to a new array; nothing when not even the pair fits.
   */
  function AfterInsert(a: seq<Node>, len: nat, n: nat, pair: seq<Node>): seq<Node>
    requires n <= len <= |a| && |pair| == 2
  {
    if len + 2 <= |a| then Overwritten(a, n, pair + a[n..len])
    else if n + 2 <= |a| then Overwritten(a, n, pair)
    else a
  }

  /** Writes xs into the array from position n. */
  method CopyInto(a: array<Node>, n: nat, xs: seq<Node>)
    requires n + |xs| <= a.Length
    modifies a
    ensures a[..] == Overwritten(old(a[..]), n, xs)
  {
    ghost var was := a[..];
    for k := 0 to |xs|
      invariant a[..] == Overwritten(was, n, xs[..k])
    {
      a[n + k] := xs[k];
      assert xs[..k + 1] == xs[..k] + [xs[k]];
    }
    assert xs[..|xs|] == xs;
  }

  class Content {
    var backing: array<Node>
    var len: nat

    ghost predicate Valid()
      reads this
    {
      len <= backing.Length
    }

    ghost function View(): seq<Node>
      requires Valid()
      reads this, backing
    {
      backing[..len]
    }

    constructor (nodes: seq<Node>, spare: nat)
      ensures Valid() && fresh(backing) && View() == nodes && backing.Length == |nodes| + spare
    {
      len := |nodes|;
      backing := new Node[|nodes| + spare](i => if 0 <= i < |nodes| then nodes[i] else KeyNode(""));
    }

    /**
     * append(content[:n], xs...): in place while the capacity lasts, otherwise into a new array of any larger size. The
     * old array, which other slices may share, is overwritten from n on in the first case and left alone in the second.
     */
    method AppendAt(n: nat, xs: seq<Node>, spare: nat)
      requires Valid() && n <= len
      modifies this, backing
      ensures Valid() && View() == old(View())[..n] + xs
      ensures if n + |xs| <= old(backing.Length) then backing == old(backing) else fresh(backing)
      ensures old(backing)[..] == if n + |xs| <= old(backing.Length) then Overwritten(old(backing[..]), n, xs)
                else old(backing[..])
    {
      if n + |xs| > backing.Length {
        var source := backing;
        var bigger := new Node[n + |xs| + spare](i requires 0 <= i reads source => if i < source.Length then source[i]
                                                 else KeyNode(""));
        assert bigger[..n] == source[..n];
        backing := bigger;
      }
      CopyInto(backing, n, xs);
      len := n + |xs|;
    }

    /** Looks for a key in key position; the result is the length when there is none. */
    method Find(key: string) returns (i: nat)
      requires Valid()
      ensures i == KeyIndex(View(), key)
    {
      ghost var c := View();
      i := 0;
      assert c[0..] == c;
      while i + 1 < len
        invariant i <= len && KeyIndex(c, key) == i + KeyIndex(c[i..], key)
      {
        if backing[i].value == key {
          return;
        }
        assert c[i..][2..] == c[i + 2..];
        i := i + 2;
      }
      i := len;
    }

    /** Replaces the value of a key in place, keeping its position, and appends the pair otherwise. */
    method Write(key: Node, val: Node, spare: nat)
      requires Valid()
      modifies this, backing
      ensures Valid() && View() == Put(old(View()), key, val)
      ensures backing == old(backing) || fresh(backing)
    {
      var i := Find(key.value);
      KeyIndexLookup(View(), key.value);
      KeyIndexPut(View(), key, val);
      if i < len {
        backing[i + 1] := val;
      } else {
        assert View()[..len] == View();
        AppendAt(len, [key, val], spare);
      }
    }

    /**
     * The suffix is copied before the pair is written over it, so any capacity gives the same list. The array it found
     * may be overwritten although the list moves away from it.
     */
    method InsertAfter(anchor: string, key: string, val: Node, spare: nat)
      requires Valid()
      modifies this, backing
      ensures Valid() && View() == Insert(old(View()), anchor, KeyNode(key), val)
      ensures old(backing)[..] ==
                AfterInsert(old(backing[..]), old(len), InsertPosition(old(View()), anchor), [KeyNode(key), val])
    {
      var i := Find(anchor);
      KeyIndexLookup(View(), anchor);
      KeyIndexInsert(View(), anchor, KeyNode(key), val);
      if i < len {
        InsertAt(i + 2, [KeyNode(key), val], spare);
      } else {
        AppendPair([KeyNode(key), val], spare);
      }
    }

    method AppendPair(pair: seq<Node>, spare: nat)
      requires Valid() && |pair| == 2
      modifies this, backing
      ensures Valid() && View() == old(View()) + pair
      ensures old(backing)[..] == AfterInsert(old(backing[..]), old(len), old(len), pair)
    {
      assert View()[..len] == View() && pair + backing[len..len] == pair;
      AppendAt(len, pair, spare);
    }

    /** Copies the rest, appends the pair behind the prefix, and appends the rest again. */
    method InsertAt(n: nat, pair: seq<Node>, spare: nat)
      requires Valid() && n <= len && |pair| == 2
      modifies this, backing
      ensures Valid() && View() == old(View())[..n] + pair + old(View())[n..]
      ensures old(backing)[..] == AfterInsert(old(backing[..]), old(len), n, pair)
    {
      var rest := backing[n..len];
      if len + 2 <= backing.Length {
        OverwrittenTwice(backing[..], n, pair, rest);
      }
      AppendAt(n, pair, spare);
      assert View()[..len] == View();
      AppendAt(len, rest, spare);
    }

    method Prepend(key: string, val: Node)
      requires Valid()
      modifies this
      ensures Valid() && fresh(backing) && View() == [KeyNode(key), val] + old(View())
    {
      var rest := backing[..len];
      var nodes := [KeyNode(key), val] + rest;
      backing := new Node[|nodes|](i requires 0 <= i < |nodes| => nodes[i]);
      len := |nodes|;
    }

    /** Copies the pairs out, sorts them in place and writes them back over the same array. */
    method SortPairs(rank: string -> seq<int>, spare: nat)
      requires Valid()
      modifies this, backing
      ensures Valid() && View() == SortContent(old(View()), rank) && backing == old(backing)
    {
      PairsRanked(View(), rank);
      SortLength(Pairs(View(), rank));
      var pairs := CollectPairs(rank);
      InsertionSort(pairs);
      WriteBack(pairs, spare);
    }

    method WriteBack(pairs: array<Entry<Pair>>, spare: nat)
      requires Valid() && 2 * pairs.Length <= backing.Length
      modifies this, backing
      ensures Valid() && View() == Flatten(pairs[..]) && backing == old(backing)
    {
      ghost var es := pairs[..];
      len := 0;
      for k := 0 to pairs.Length
        invariant Valid() && View() == Flatten(es[..k]) && backing == old(backing) && len == 2 * k && pairs[..] == es
      {
        assert es[..k + 1][..k] == es[..k];
        assert View()[..len] == View();
        AppendAt(len, [pairs[k].item.key, pairs[k].item.val], spare);
      }
      assert es[..pairs.Length] == es;
    }

    method CollectPairs(rank: string -> seq<int>) returns (pairs: array<Entry<Pair>>)
      requires Valid()
      ensures fresh(pairs) && pairs[..] == Pairs(View(), rank)
    {
      ghost var c := View();
      var out: seq<Entry<Pair>> := [];
      var i := 0;
      assert c[0..] == c;
      while i + 1 < len
        invariant i <= len && Pairs(c, rank) == out + Pairs(c[i..], rank)
      {
        assert c[i..][2..] == c[i + 2..] && c[i..][0] == backing[i] && c[i..][1] == backing[i + 1];
        out := out + [Entry(rank(backing[i].value), Pair(backing[i], backing[i + 1]))];
        i := i + 2;
      }
      pairs := new Entry<Pair>[|out|](k requires 0 <= k < |out| => out[k]);
    }
  }

  // ------------------------------------------------------------ duplicate codes

  /** Drops every number equal to the one kept before it. */
  function Dedupe(s: seq<int>): (r: seq<int>)
    ensures s != [] ==> r != []
  {
    if |s| <= 1 then s
    else
      var d := Dedupe(s[..|s| - 1]);
      if s[|s| - 1] == d[|d| - 1] then d else d + [s[|s| - 1]]
  }

  predicate Increasing(s: seq<int>) {
    forall i, j :: 0 <= i < j < |s| ==> s[i] < s[j]
  }

  lemma {:induction false} DedupeLast(s: seq<int>)
    requires s != []
    ensures Dedupe(s)[|Dedupe(s)| - 1] == s[|s| - 1] && |Dedupe(s)| <= |s|
    decreases |s|
  {
    if |s| > 1 { DedupeLast(s[..|s| - 1]); }
  }

  /** On a sorted list what remains is the strictly increasing list of the same numbers. */
  lemma {:induction false} DedupeSorted(s: seq<int>)
    requires forall i, j :: 0 <= i < j < |s| ==> s[i] <= s[j]
    ensures Increasing(Dedupe(s)) && forall x :: x in Dedupe(s) <==> x in s
    decreases |s|
  {
    DedupeMembers(s);
    if |s| > 1 {
      var t, x := s[..|s| - 1], s[|s| - 1];
      var d := Dedupe(t);
      DedupeSorted(t);
      DedupeLast(t);
      assert d[|d| - 1] == t[|t| - 1] <= x;
      if d[|d| - 1] != x {
        assert forall i :: 0 <= i < |d| ==> d[i] <= d[|d| - 1] < x;
      }
    }
  }

  lemma {:induction false} DedupeMembers(s: seq<int>)
    ensures forall x :: x in Dedupe(s) <==> x in s
    decreases |s|
  {
    if |s| > 1 {
      DedupeMembers(s[..|s| - 1]);
      assert s == s[..|s| - 1] + [s[|s| - 1]];
    }
  }

  /** Reads and writes one array; the write position never passes the read position. */
  method DedupeInts(codes: array<int>) returns (n: nat)
    modifies codes
    ensures n <= codes.Length && codes[..n] == Dedupe(old(codes[..]))
  {
    if codes.Length == 0 {
      return 0;
    }
    ghost var was := codes[..];
    n := 1;
    for i := 1 to codes.Length
      invariant 1 <= n <= i && codes[..n] == Dedupe(was[..i])
      invariant forall k :: i <= k < codes.Length ==> codes[k] == was[k]
    {
      ghost var kept := codes[..n];
      assert was[..i + 1][..i] == was[..i] && was[..i + 1][i] == codes[i];
      if codes[i] != codes[n - 1] {
        codes[n] := codes[i];
        n := n + 1;
        assert codes[..n] == kept + [was[i]];
      }
    }
    assert was[..codes.Length] == was;
  }
}
