/** YAML nodes and the keyed edits of their content lists, in which keys and values alternate. */
module YamlTree {
  import opened Options

  datatype Kind = DocumentKind | MappingKind | SequenceKind | ScalarKind | AliasKind

  /** look stands for the tag, style and comments, which no edit reads. */
  datatype Node = Node(kind: Kind, value: string, look: nat, content: seq<Node>)

  const PLAIN := 0

  function KeyNode(key: string): Node {
    Node(ScalarKind, key, PLAIN, [])
  }

  function MapNode(content: seq<Node>): Node {
    Node(MappingKind, "", PLAIN, content)
  }

  function SeqNode(items: seq<Node>): Node {
    Node(SequenceKind, "", PLAIN, items)
  }

  // ------------------------------------------------------------ content lists

  /** The value behind the first occurrence of a key in key position. */
  function Lookup(c: seq<Node>, key: string): Option<Node> {
    if |c| < 2 then None else if c[0].value == key then Some(c[1]) else Lookup(c[2..], key)
  }

  /** Replaces the value of a key in place, or appends the pair. */
  function Put(c: seq<Node>, key: Node, val: Node): seq<Node> {
    if |c| < 2 then c + [key, val]
    else if c[0].value == key.value then [c[0], val] + c[2..]
    else c[..2] + Put(c[2..], key, val)
  }

  /** Adds a pair directly behind the anchor, or at the end when there is none. */
  function Insert(c: seq<Node>, anchor: string, key: Node, val: Node): seq<Node> {
    if |c| < 2 then c + [key, val]
    else if c[0].value == anchor then c[..2] + [key, val] + c[2..]
    else c[..2] + Insert(c[2..], anchor, key, val)
  }

  predicate Even(c: seq<Node>) {
    |c| % 2 == 0
  }

  // ------------------------------------------------------------------- nodes

  function Get(m: Node, key: string): Option<Node> {
    if m.kind == MappingKind then Lookup(m.content, key) else None
  }

  function Set(m: Node, key: string, val: Node): Node {
    m.(content := Put(m.content, KeyNode(key), val))
  }

  function SetAfter(m: Node, anchor: string, key: string, val: Node): Node {
    if Get(m, key).Some? then Set(m, key, val) else m.(content := Insert(m.content, anchor, KeyNode(key), val))
  }

  function SetFirst(m: Node, key: string, val: Node): Node {
    if Get(m, key).Some? then Set(m, key, val) else m.(content := [KeyNode(key), val] + m.content)
  }

  // -------------------------------------------------------------- list algebra

  lemma {:induction false} PutSame(c: seq<Node>, key: Node, val: Node)
    requires Lookup(c, key.value) == Some(val)
    ensures Put(c, key, val) == c
  {
    if |c| >= 2 && c[0].value != key.value {
      PutSame(c[2..], key, val);
    }
  }

  lemma {:induction false} LookupPut(c: seq<Node>, key: Node, val: Node)
    requires Even(c) || Lookup(c, key.value).Some?
    ensures Lookup(Put(c, key, val), key.value) == Some(val)
    ensures |Put(c, key, val)| == if Lookup(c, key.value).Some? then |c| else |c| + 2
  {
    if |c| >= 2 && c[0].value != key.value {
      LookupPut(c[2..], key, val);
      assert Put(c, key, val)[2..] == Put(c[2..], key, val);
    }
  }

  lemma {:induction false} LookupPutOther(c: seq<Node>, key: Node, val: Node, other: string)
    requires (Even(c) || Lookup(c, key.value).Some?) && other != key.value
    ensures Lookup(Put(c, key, val), other) == Lookup(c, other)
  {
    if |c| >= 2 && c[0].value != key.value {
      LookupPutOther(c[2..], key, val, other);
      assert Put(c, key, val)[2..] == Put(c[2..], key, val);
    } else if |c| >= 2 {
      assert Put(c, key, val)[2..] == c[2..];
    }
  }

  lemma {:induction false} PutPut(c: seq<Node>, key: Node, val: Node, again: Node)
    requires Lookup(c, key.value).Some?
    ensures Put(Put(c, key, val), key, again) == Put(c, key, again)
  {
    if c[0].value != key.value {
      PutPut(c[2..], key, val, again);
      assert Put(c, key, val)[2..] == Put(c[2..], key, val);
    } else {
      assert Put(c, key, val)[2..] == c[2..];
    }
  }

  lemma {:induction false} PutCommutes(c: seq<Node>, k: Node, v: Node, j: Node, w: Node)
    requires Lookup(c, k.value).Some? && k.value != j.value
    ensures Put(Put(c, k, v), j, w) == Put(Put(c, j, w), k, v)
  {
    var a, b := Put(c, k, v), Put(c, j, w);
    if c[0].value == k.value {
      assert a[2..] == c[2..] && a[..2] == [c[0], v];
      assert b[2..] == Put(c[2..], j, w) && b[0] == c[0];
    } else if c[0].value == j.value {
      assert a[2..] == Put(c[2..], k, v) && a[0] == c[0];
      assert b[2..] == c[2..] && b[..2] == [c[0], w];
    } else {
      assert a[2..] == Put(c[2..], k, v) && a[..2] == c[..2];
      assert b[2..] == Put(c[2..], j, w) && b[..2] == c[..2];
      PutCommutes(c[2..], k, v, j, w);
    }
  }

  lemma {:induction false} LookupInsert(c: seq<Node>, anchor: string, key: Node, val: Node)
    requires Even(c) && Lookup(c, key.value).None?
    ensures Lookup(Insert(c, anchor, key, val), key.value) == Some(val)
    ensures forall other :: other != key.value ==> Lookup(Insert(c, anchor, key, val), other) == Lookup(c, other)
  {
    var r := Insert(c, anchor, key, val);
    if |c| >= 2 {
      if c[0].value == anchor {
        assert r[2..] == [key, val] + c[2..];
        assert r[2..][2..] == c[2..];
      } else {
        LookupInsert(c[2..], anchor, key, val);
        assert r[2..] == Insert(c[2..], anchor, key, val);
      }
    }
  }

  lemma {:induction false} InsertLength(c: seq<Node>, anchor: string, key: Node, val: Node)
    ensures |Insert(c, anchor, key, val)| == |c| + 2
  {
    if |c| >= 2 && c[0].value != anchor {
      InsertLength(c[2..], anchor, key, val);
    }
  }

  /** The place of an insertion: everything before it and behind it is untouched. */
  lemma {:induction false} InsertSplits(c: seq<Node>, anchor: string, key: Node, val: Node) returns (n: nat)
    ensures n <= |c| && Insert(c, anchor, key, val) == c[..n] + [key, val] + c[n..]
    ensures if Lookup(c, anchor).Some?
              then n >= 2 && n % 2 == 0 && c[n - 2].value == anchor && Lookup(c[..n - 2], anchor).None? else n == |c|
  {
    if |c| < 2 {
      n := |c|;
    } else if c[0].value == anchor {
      n := 2;
    } else {
      var k := InsertSplits(c[2..], anchor, key, val);
      n := k + 2;
      assert c[..n] == c[..2] + c[2..][..k] && c[n..] == c[2..][k..];
      if Lookup(c, anchor).Some? {
        assert c[..n - 2][2..] == c[2..][..k - 2];
        assert k > 2 ==> c[..n - 2][0] == c[0];
      }
    }
  }

  // ------------------------------------------------- when an edit is idempotent

  /** Only the exotic value that equals its own key node escapes on an odd list. */
  predicate PutRepeatable(c: seq<Node>, key: Node, val: Node) {
    Even(c) || Lookup(c, key.value).Some? || (c[|c| - 1].value == key.value && val == key)
  }

  lemma {:induction false} PutOddMissing(c: seq<Node>, key: Node, val: Node)
    requires !Even(c) && Lookup(c, key.value).None?
    ensures Put(c, key, val) == c + [key, val]
    ensures Lookup(c + [key, val], key.value) == if c[|c| - 1].value == key.value then Some(key) else None
  {
    if |c| >= 2 {
      PutOddMissing(c[2..], key, val);
      assert (c + [key, val])[2..] == c[2..] + [key, val];
    }
  }

  /** A second replacement changes nothing exactly when the list alternates properly or the key was there. */
  lemma PutIdempotentIff(c: seq<Node>, key: Node, val: Node)
    ensures Put(Put(c, key, val), key, val) == Put(c, key, val) <==> PutRepeatable(c, key, val)
  {
    var r := Put(c, key, val);
    if Even(c) || Lookup(c, key.value).Some? {
      LookupPut(c, key, val);
      PutSame(r, key, val);
    } else {
      PutOddMissing(c, key, val);
      if c[|c| - 1].value == key.value {
        LastPairReplaced(c, key, val);
      } else {
        PutOddMissing(r, key, val);
      }
    }
  }

  lemma {:induction false} LastPairReplaced(c: seq<Node>, key: Node, val: Node)
    requires !Even(c) && Lookup(c, key.value).None? && c[|c| - 1].value == key.value
    ensures Put(c + [key, val], key, val) == c + [val, val]
  {
    if |c| >= 2 {
      LastPairReplaced(c[2..], key, val);
      assert (c + [key, val])[2..] == c[2..] + [key, val];
      assert c[..2] + (c[2..] + [val, val]) == c + [val, val];
    } else {
      assert (c + [key, val])[2..] == [val];
    }
  }

  lemma SetAfterLookup(m: Node, anchor: string, key: string, val: Node)
    requires m.kind == MappingKind && Even(m.content)
    ensures var r := SetAfter(m, anchor, key, val);
            && r.kind == MappingKind && Even(r.content) && Get(r, key) == Some(val)
            && forall other :: other != key ==> Get(r, other) == Get(m, other)
  {
    if Get(m, key).Some? {
      LookupPut(m.content, KeyNode(key), val);
      forall other | other != key ensures Get(SetAfter(m, anchor, key, val), other) == Get(m, other) {
        LookupPutOther(m.content, KeyNode(key), val, other);
      }
    } else {
      LookupInsert(m.content, anchor, KeyNode(key), val);
      InsertLength(m.content, anchor, KeyNode(key), val);
    }
  }

  lemma SetLookup(m: Node, key: string, val: Node)
    requires m.kind == MappingKind && Even(m.content)
    ensures var r := Set(m, key, val);
            && r.kind == MappingKind && Even(r.content) && Get(r, key) == Some(val)
            && forall other :: other != key ==> Get(r, other) == Get(m, other)
  {
    LookupPut(m.content, KeyNode(key), val);
    forall other | other != key ensures Get(Set(m, key, val), other) == Get(m, other) {
      LookupPutOther(m.content, KeyNode(key), val, other);
    }
  }

  lemma SetFirstLookup(m: Node, key: string, val: Node)
    requires m.kind == MappingKind && Even(m.content)
    ensures var r := SetFirst(m, key, val);
            && r.kind == MappingKind && Even(r.content) && Get(r, key) == Some(val)
            && forall other :: other != key ==> Get(r, other) == Get(m, other)
  {
    if Get(m, key).Some? {
      SetLookup(m, key, val);
    } else {
      assert ([KeyNode(key), val] + m.content)[2..] == m.content;
    }
  }

  /** An edit that finds its value already there changes nothing. */
  lemma EditsSame(m: Node, anchor: string, key: string, val: Node)
    requires Get(m, key) == Some(val)
    ensures Set(m, key, val) == m && SetAfter(m, anchor, key, val) == m && SetFirst(m, key, val) == m
  {
    PutSame(m.content, KeyNode(key), val);
  }

  /** Placing a key behind an anchor, or first, is idempotent exactly on mappings; other nodes grow with every run. */
  lemma PlacementIdempotentIff(m: Node, anchor: string, key: string, val: Node)
    requires m.kind == MappingKind ==> Even(m.content)
    ensures SetAfter(SetAfter(m, anchor, key, val), anchor, key, val) == SetAfter(m, anchor, key, val) <==>
            m.kind == MappingKind
    ensures SetFirst(SetFirst(m, key, val), key, val) == SetFirst(m, key, val) <==> m.kind == MappingKind
  {
    if m.kind == MappingKind {
      SetAfterLookup(m, anchor, key, val);
      EditsSame(SetAfter(m, anchor, key, val), anchor, key, val);
      SetFirstLookup(m, key, val);
      EditsSame(SetFirst(m, key, val), anchor, key, val);
    } else {
      InsertLength(m.content, anchor, KeyNode(key), val);
      InsertLength(SetAfter(m, anchor, key, val).content, anchor, KeyNode(key), val);
      assert |SetFirst(SetFirst(m, key, val), key, val).content| == |SetFirst(m, key, val).content| + 2;
    }
  }

  // --------------------------------------------------------------- many keys

  /** A list of pairs to write one after the other. */
  datatype Pair = Pair(key: Node, val: Node)

  function PutAll(c: seq<Node>, ps: seq<Pair>): seq<Node>
    decreases |ps|
  {
    if ps == [] then c else PutAll(Put(c, ps[0].key, ps[0].val), ps[1..])
  }

  /** The value written last under a key. */
  function Last(ps: seq<Pair>, key: string): Option<Node> {
    if ps == [] then None
    else if Last(ps[1..], key).Some? then Last(ps[1..], key)
    else if ps[0].key.value == key then Some(ps[0].val) else None
  }

  lemma {:induction false} LookupPutAll(c: seq<Node>, ps: seq<Pair>)
    requires Even(c)
    ensures Even(PutAll(c, ps))
    ensures forall k :: Lookup(PutAll(c, ps), k) == if Last(ps, k).Some? then Last(ps, k) else Lookup(c, k)
    decreases |ps|
  {
    if ps != [] {
      var d := Put(c, ps[0].key, ps[0].val);
      LookupPut(c, ps[0].key, ps[0].val);
      LookupPutAll(d, ps[1..]);
      forall k ensures Lookup(PutAll(c, ps), k) == if Last(ps, k).Some? then Last(ps, k) else Lookup(c, k) {
        if k != ps[0].key.value { LookupPutOther(c, ps[0].key, ps[0].val, k); }
      }
    }
  }

  /** A value about to be overwritten does not matter. */
  lemma {:induction false} PutForgotten(c: seq<Node>, key: Node, val: Node, ps: seq<Pair>)
    requires Lookup(c, key.value).Some? && Last(ps, key.value).Some?
    ensures PutAll(Put(c, key, val), ps) == PutAll(c, ps)
    decreases |ps|
  {
    var q := ps[0];
    if q.key.value == key.value {
      PutPutAlike(c, key, val, q);
    } else {
      PutCommutes(c, key, val, q.key, q.val);
      var d := Put(c, q.key, q.val);
      LookupKept(c, q.key, q.val, key.value);
      PutForgotten(d, key, val, ps[1..]);
    }
  }

  lemma {:induction false} LookupKept(c: seq<Node>, key: Node, val: Node, other: string)
    requires Lookup(c, other).Some?
    ensures Lookup(Put(c, key, val), other).Some?
  {
    if |c| >= 2 && c[0].value != key.value && c[0].value != other {
      LookupKept(c[2..], key, val, other);
      assert Put(c, key, val)[2..] == Put(c[2..], key, val);
    } else if |c| >= 2 && c[0].value == key.value {
      assert Put(c, key, val)[2..] == c[2..];
    }
  }

  /** Keys of equal value address the same entry. */
  lemma {:induction false} PutPutAlike(c: seq<Node>, key: Node, val: Node, q: Pair)
    requires Lookup(c, key.value).Some? && q.key.value == key.value
    ensures Put(Put(c, key, val), q.key, q.val) == Put(c, q.key, q.val)
  {
    if c[0].value != key.value {
      PutPutAlike(c[2..], key, val, q);
      assert Put(c, key, val)[2..] == Put(c[2..], key, val);
    } else {
      assert Put(c, key, val)[2..] == c[2..];
    }
  }

  /** Writing values that are all there already changes nothing, even through repeated keys. */
  lemma {:induction false} PutAllSame(c: seq<Node>, ps: seq<Pair>)
    requires forall k :: Last(ps, k).Some? ==> Lookup(c, k) == Last(ps, k)
    ensures PutAll(c, ps) == c
    decreases |ps|
  {
    if ps != [] {
      var k := ps[0].key.value;
      assert Last(ps, k).Some?;
      forall j | Last(ps[1..], j).Some? ensures Lookup(c, j) == Last(ps[1..], j) {
        assert Last(ps, j) == Last(ps[1..], j);
      }
      PutAllSame(c, ps[1..]);
      if Last(ps[1..], k).Some? {
        PutForgotten(c, ps[0].key, ps[0].val, ps[1..]);
      } else {
        PutSame(c, ps[0].key, ps[0].val);
      }
    }
  }

  // ------------------------------------------- when a batch of writes repeats

  lemma {:induction false} LookupBehindPairs(c: seq<Node>, tail: seq<Node>, k: string)
    requires Even(c)
    ensures Lookup(c + tail, k) == if Lookup(c, k).Some? then Lookup(c, k) else Lookup(tail, k)
  {
    if c == [] {
      assert c + tail == tail;
    } else {
      LookupBehindPairs(c[2..], tail, k);
      assert (c + tail)[2..] == c[2..] + tail;
    }
  }

  lemma LookupIgnoresLast(c: seq<Node>, x: Node, k: string)
    requires Even(c)
    ensures Lookup(c + [x], k) == Lookup(c, k)
  {
    LookupBehindPairs(c, [x], k);
  }

  lemma LookupAppended(c: seq<Node>, key: Node, val: Node, k: string)
    ensures Lookup(c + [key, val], k) ==
              if Lookup(c, k).Some? then Lookup(c, k)
              else if Even(c) then (if key.value == k then Some(val) else None)
              else if c[|c| - 1].value == k then Some(key) else None
  {
    if Even(c) {
      LookupBehindPairs(c, [key, val], k);
      assert [key, val][2..] == [];
    } else {
      var d, x := c[..|c| - 1], c[|c| - 1];
      assert c == d + [x];
      LookupIgnoresLast(d, x, k);
      assert c + [key, val] == d + [x, key, val];
      LookupBehindPairs(d, [x, key, val], k);
      assert [x, key, val][2..] == [val];
    }
  }

  /** A write of a missing key appends, any other one replaces and leaves length and last node of an odd list alone. */
  lemma {:induction false} PutShape(c: seq<Node>, key: Node, val: Node)
    ensures Lookup(c, key.value).None? ==> Put(c, key, val) == c + [key, val]
    ensures Lookup(c, key.value).Some? ==>
              |Put(c, key, val)| == |c| && (!Even(c) ==> Put(c, key, val)[|c| - 1] == c[|c| - 1])
  {
    if |c| >= 2 && c[0].value != key.value {
      PutShape(c[2..], key, val);
      assert c == c[..2] + c[2..];
    }
  }

  /** Which keys are present changes only by an append. */
  lemma PutFound(c: seq<Node>, key: Node, val: Node, k: string)
    requires Lookup(c, key.value).Some?
    ensures Lookup(Put(c, key, val), k) == if k == key.value then Some(val) else Lookup(c, k)
  {
    LookupPut(c, key, val);
    if k != key.value { LookupPutOther(c, key, val, k); }
  }

  /** A key that is present ends up with the value written last, in lists of any length. */
  lemma {:induction false} FoundReadsBack(c: seq<Node>, ps: seq<Pair>, k: string)
    requires Lookup(c, k).Some?
    ensures Lookup(PutAll(c, ps), k) == if Last(ps, k).Some? then Last(ps, k) else Lookup(c, k)
    decreases |ps|
  {
    if ps != [] {
      var key, val := ps[0].key, ps[0].val;
      PutShape(c, key, val);
      if Lookup(c, key.value).Some? { PutFound(c, key, val, k); } else { LookupAppended(c, key, val, k); }
      FoundReadsBack(Put(c, key, val), ps[1..], k);
    }
  }

  predicate AllFound(c: seq<Node>, ps: seq<Pair>) {
    forall i :: 0 <= i < |ps| ==> Lookup(c, ps[i].key.value).Some?
  }

  /** The list grows exactly when a key is missing. */
  lemma {:induction false} PutAllLength(c: seq<Node>, ps: seq<Pair>)
    ensures |PutAll(c, ps)| >= |c| && |PutAll(c, ps)| % 2 == |c| % 2
    ensures |PutAll(c, ps)| == |c| <==> AllFound(c, ps)
    decreases |ps|
  {
    if ps != [] {
      var key, val, rest := ps[0].key, ps[0].val, ps[1..];
      PutShape(c, key, val);
      PutAllLength(Put(c, key, val), rest);
      AllFoundSplit(c, ps);
      if Lookup(c, key.value).Some? { FoundAfterPut(c, key, val, rest); }
    }
  }

  lemma AllFoundSplit(c: seq<Node>, ps: seq<Pair>)
    requires ps != []
    ensures AllFound(c, ps) <==> Lookup(c, ps[0].key.value).Some? && AllFound(c, ps[1..])
  {
    assert forall i :: 1 <= i < |ps| ==> ps[i] == ps[1..][i - 1];
  }

  lemma FoundAfterPut(c: seq<Node>, key: Node, val: Node, rest: seq<Pair>)
    requires Lookup(c, key.value).Some?
    ensures AllFound(Put(c, key, val), rest) <==> AllFound(c, rest)
  {
    forall i | 0 <= i < |rest|
      ensures Lookup(Put(c, key, val), rest[i].key.value).Some? <==> Lookup(c, rest[i].key.value).Some?
    {
      PutFound(c, key, val, rest[i].key.value);
    }
  }

  /** After the writes every written key holds the value it was given last. */
  ghost predicate ReadsBack(c: seq<Node>, ps: seq<Pair>) {
    forall k :: Last(ps, k).Some? ==> Lookup(PutAll(c, ps), k) == Last(ps, k)
  }

  lemma {:induction false} WrittenKey(ps: seq<Pair>, k: string)
    ensures Last(ps, k).Some? <==> exists i :: 0 <= i < |ps| && ps[i].key.value == k
    decreases |ps|
  {
    if ps != [] {
      var rest := ps[1..];
      WrittenKey(rest, k);
      assert forall i :: 0 <= i < |rest| ==> rest[i] == ps[i + 1];
      assert forall i :: 1 <= i < |ps| ==> ps[i] == rest[i - 1];
    }
  }

  lemma FoundKeysReadBack(c: seq<Node>, ps: seq<Pair>)
    requires AllFound(c, ps)
    ensures ReadsBack(c, ps)
  {
    forall k | Last(ps, k).Some? ensures Lookup(PutAll(c, ps), k) == Last(ps, k) {
      WrittenKey(ps, k);
      FoundReadsBack(c, ps, k);
    }
  }

  /** For every list and every batch: the second batch changes nothing exactly when the first one reads back. */
  lemma PutAllTwiceIff(c: seq<Node>, ps: seq<Pair>)
    ensures PutAll(PutAll(c, ps), ps) == PutAll(c, ps) <==> ReadsBack(c, ps)
  {
    var r := PutAll(c, ps);
    if ReadsBack(c, ps) {
      PutAllSame(r, ps);
    }
    if PutAll(r, ps) == r {
      PutAllLength(r, ps);
      FoundKeysReadBack(r, ps);
    }
  }

  // ------------------------------------------------ read back, seen from before

  /** How often a key is written. */
  function Writes(ps: seq<Pair>, k: string): nat {
    if ps == [] then 0 else (if ps[0].key.value == k then 1 else 0) + Writes(ps[1..], k)
  }

  /** No written value has the text of a written key. */
  predicate Textual(ps: seq<Pair>) {
    forall i, j :: 0 <= i < |ps| && 0 <= j < |ps| ==> ps[i].val.value != ps[j].key.value
  }

  /**
   * The list alternates properly, or no written key is missing; a missing one may only be the text of the odd last
   * node, and then it has to be written twice.
   */
  predicate Fits(c: seq<Node>, ps: seq<Pair>) {
    Even(c) || forall i :: 0 <= i < |ps| ==> Lookup(c, ps[i].key.value).Some? || LandsOnLast(c, ps, ps[i].key.value)
  }

  predicate LandsOnLast(c: seq<Node>, ps: seq<Pair>, k: string)
    requires c != []
  {
    k == c[|c| - 1].value && Writes(ps, k) >= 2
  }

  lemma {:induction false} LastOfWrites(ps: seq<Pair>, k: string)
    ensures Last(ps, k).Some? <==> Writes(ps, k) > 0
    decreases |ps|
  {
    if ps != [] { LastOfWrites(ps[1..], k); }
  }

  /** Behind an odd list a missing key is lost unless the last node has its text. */
  lemma {:induction false} LostKey(c: seq<Node>, ps: seq<Pair>, k: string)
    requires !Even(c) && Lookup(c, k).None? && c[|c| - 1].value != k
    requires forall i :: 0 <= i < |ps| ==> ps[i].val.value != k
    ensures Lookup(PutAll(c, ps), k).None?
    decreases |ps|
  {
    if ps != [] {
      var key, val, rest := ps[0].key, ps[0].val, ps[1..];
      assert forall i :: 0 <= i < |rest| ==> rest[i] == ps[i + 1];
      PutShape(c, key, val);
      if Lookup(c, key.value).Some? { PutFound(c, key, val, k); } else { LookupAppended(c, key, val, k); }
      LostKey(Put(c, key, val), rest, k);
    }
  }

  /** The first write of the last node's text only makes it a key; a second one gives it its value. */
  lemma {:induction false} LastNodeKey(c: seq<Node>, ps: seq<Pair>, k: string)
    requires !Even(c) && Lookup(c, k).None? && c[|c| - 1].value == k && Writes(ps, k) > 0
    requires forall i :: 0 <= i < |ps| ==> ps[i].val.value != k
    requires forall i :: 0 <= i < |ps| ==> Lookup(c, ps[i].key.value).Some? || ps[i].key.value == k
    ensures Lookup(PutAll(c, ps), k) == Last(ps, k) <==> Writes(ps, k) >= 2
    decreases |ps|
  {
    var key, val, rest := ps[0].key, ps[0].val, ps[1..];
    assert forall i :: 0 <= i < |rest| ==> rest[i] == ps[i + 1];
    PutShape(c, key, val);
    LastOfWrites(rest, k);
    if key.value == k {
      LookupAppended(c, key, val, k);
      FoundReadsBack(Put(c, key, val), rest, k);
    } else {
      PutFound(c, key, val, k);
      forall i | 0 <= i < |rest| ensures Lookup(Put(c, key, val), rest[i].key.value).Some? || rest[i].key.value == k {
        PutFound(c, key, val, rest[i].key.value);
      }
      LastNodeKey(Put(c, key, val), rest, k);
    }
  }

  lemma OddReadsBack(c: seq<Node>, ps: seq<Pair>, k: string)
    requires !Even(c) && Textual(ps) && Fits(c, ps) && Last(ps, k).Some?
    ensures Lookup(PutAll(c, ps), k) == Last(ps, k)
  {
    WrittenKey(ps, k);
    var j :| 0 <= j < |ps| && ps[j].key.value == k;
    if Lookup(c, k).Some? {
      FoundReadsBack(c, ps, k);
    } else {
      LastOfWrites(ps, k);
      LastNodeKey(c, ps, k);
    }
  }

  lemma OddFits(c: seq<Node>, ps: seq<Pair>, i: nat)
    requires !Even(c) && Textual(ps) && ReadsBack(c, ps) && i < |ps| && Lookup(c, ps[i].key.value).None?
    ensures LandsOnLast(c, ps, ps[i].key.value)
  {
    var last := c[|c| - 1].value;
    forall j | 0 <= j < |ps| && Lookup(c, ps[j].key.value).None? ensures ps[j].key.value == last {
      WrittenKey(ps, ps[j].key.value);
      if ps[j].key.value != last { LostKey(c, ps, ps[j].key.value); }
    }
    WrittenKey(ps, last);
    LastOfWrites(ps, last);
    LastNodeKey(c, ps, last);
  }

  /** What decides can be checked before the first write. */
  lemma ReadsBackIff(c: seq<Node>, ps: seq<Pair>)
    requires Textual(ps)
    ensures ReadsBack(c, ps) <==> Fits(c, ps)
  {
    if Even(c) {
      LookupPutAll(c, ps);
    } else {
      if Fits(c, ps) {
        forall k | Last(ps, k).Some? ensures Lookup(PutAll(c, ps), k) == Last(ps, k) { OddReadsBack(c, ps, k); }
      }
      if ReadsBack(c, ps) {
        forall i | 0 <= i < |ps| ensures Lookup(c, ps[i].key.value).Some? || LandsOnLast(c, ps, ps[i].key.value) {
          if Lookup(c, ps[i].key.value).None? { OddFits(c, ps, i); }
        }
      }
    }
  }
}
