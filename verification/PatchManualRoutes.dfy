/** Exactly which sets of hand-written routes keep the rewriting idempotent for every document. */
module PatchManualRoutes {
  import opened Options
  import opened YamlTree
  import opened YamlSlices
  import opened PathTemplates
  import opened PatchSpec
  import opened PatchTraversals
  import opened PatchTheorems
  import opened PatchIdempotence
  import opened PatchDocumentTwice

  /** A second run leaves the result of the first one alone. */
  predicate Twice(root: Node, input: Input)
    requires PatchRoot(root, input).Ok?
  {
    PatchRoot(PatchRoot(root, input).value, input) == PatchRoot(root, input)
  }

  /** The promise of the tool, for every parsed document that fits. */
  ghost predicate AlwaysTwice(input: Input) {
    forall root {:trigger Parsed(root)} :: Parsed(root) && PatchRoot(root, input).Ok? && DocumentFits(root, input) ==>
      Twice(root, input)
  }

  const NO_SCHEMAS := MapNode([KeyNode("schemas"), MapNode([])])

  /** The smallest document around an info block and a list of paths. */
  function Minimal(info: Node, paths: seq<Node>): Node {
    MapNode([KeyNode("info"), info, KeyNode("paths"), MapNode(paths), KeyNode("components"), NO_SCHEMAS])
  }

  lemma LookupHere(k: Node, v: Node, rest: seq<Node>, key: string)
    ensures Lookup([k, v] + rest, key) == if k.value == key then Some(v) else Lookup(rest, key)
  {
    assert ([k, v] + rest)[2..] == rest;
  }

  lemma MinimalLookup(info: Node, paths: seq<Node>, key: string)
    ensures Get(Minimal(info, paths), key) ==
              if key == "info" then Some(info) else if key == "paths" then Some(MapNode(paths))
              else if key == "components" then Some(NO_SCHEMAS) else None
  {
    var components := [KeyNode("components"), NO_SCHEMAS];
    var tail := [KeyNode("paths"), MapNode(paths)] + components;
    assert Minimal(info, paths).content == [KeyNode("info"), info] + tail;
    LookupHere(KeyNode("info"), info, tail, key);
    LookupHere(KeyNode("paths"), MapNode(paths), components, key);
    LookupHere(KeyNode("components"), NO_SCHEMAS, [], key);
    assert components + [] == components;
  }

  lemma MinimalLookups(info: Node, paths: seq<Node>)
    ensures var m := Minimal(info, paths);
            && Get(m, "info") == Some(info) && Get(m, "paths") == Some(MapNode(paths)) && Get(m, "tags") == None
            && Get(m, "components") == Some(NO_SCHEMAS)
  {
    MinimalLookup(info, paths, "info");
    MinimalLookup(info, paths, "paths");
    MinimalLookup(info, paths, "tags");
    MinimalLookup(info, paths, "components");
  }

  lemma MinimalParsed(info: Node, paths: seq<Node>)
    requires Parsed(info) && ContentParsed(paths)
    ensures Parsed(Minimal(info, paths))
  {
    assert Parsed(MapNode([])) && Parsed(KeyNode("schemas"));
    assert Parsed(NO_SCHEMAS);
    assert Parsed(KeyNode("info")) && Parsed(KeyNode("paths")) && Parsed(KeyNode("components"));
    assert Parsed(MapNode(paths));
  }

  lemma MinimalFits(paths: seq<Node>, input: Input)
    requires PathsFit(paths, input)
    ensures DocumentFits(Minimal(MapNode([]), paths), input)
  {
    MinimalLookups(MapNode([]), paths);
    assert Get(NO_SCHEMAS, "schemas") == Some(MapNode([]));
  }

  /** On a minimal document the tool succeeds whenever its paths do. */
  lemma MinimalSucceeds(info: Node, paths: seq<Node>, input: Input)
    requires PatchPaths(paths, input).Ok?
    ensures PatchRoot(Minimal(info, paths), input).Ok?
  {
    var m, t := Minimal(info, paths), input.texts;
    MinimalLookups(info, paths);
    HeadLookup(m, t);
    var a := PatchHead(m, t).value;
    PathsFrame(a, input);
    SetFirstLookup(NO_SCHEMAS, "securitySchemes", t.schemes);
    assert Get(NO_SCHEMAS, "schemas") == Some(MapNode([]));
    assert EachPair([], (p: Pair) => PatchNamedSchema(p, input)) == Ok([]);
  }

  /** A document idempotent as a whole has idempotent paths. */
  lemma TwicePaths(paths: seq<Node>, input: Input)
    requires ContentParsed(paths) && PathsFit(paths, input) && AlwaysTwice(input) && PatchPaths(paths, input).Ok?
    ensures PatchPaths(PatchPaths(paths, input).value, input) == PatchPaths(paths, input)
  {
    var m := Minimal(MapNode([]), paths);
    MinimalLookups(MapNode([]), paths);
    MinimalParsed(MapNode([]), paths);
    MinimalFits(paths, input);
    MinimalSucceeds(MapNode([]), paths, input);
    assert Twice(m, input);
    HeadThrough(m, input);
    PathsThrough(m, input);
    PathsThrough(PatchRoot(m, input).value, input);
  }

  // ------------------------------------------------------- documents that drift

  /** A document whose info block is an empty sequence: the tool succeeds on it and a second run changes it. */
  lemma SequenceInfoDrifts(input: Input)
    requires !Ambiguous(input.routes)
    ensures PatchRoot(Minimal(SeqNode([]), []), input).Ok? && !Twice(Minimal(SeqNode([]), []), input)
  {
    NoPathsPatched(input);
    MinimalSucceeds(SeqNode([]), [], input);
    MinimalLookup(SeqNode([]), [], "info");
    OtherInfoDrifts(Minimal(SeqNode([]), []), input);
  }

  lemma NoPathsPatched(input: Input)
    requires !Ambiguous(input.routes)
    ensures PatchPaths([], input).Ok?
  {
    assert EachPair([], (p: Pair) => PatchPath(p, input)) == Ok([]);
  }

  /** An operation whose responses are a sequence of one node. */
  function OddOperation(id: string, x: Node): Node {
    MapNode([KeyNode("operationId"), KeyNode(id), KeyNode("responses"), SeqNode([x])])
  }

  function OddPaths(route: string, id: string, x: Node): seq<Node> {
    [KeyNode(route), MapNode([KeyNode("get"), OddOperation(id, x)])]
  }

  lemma OddOperationLookups(id: string, x: Node)
    ensures var op := OddOperation(id, x);
            Get(op, "operationId") == Some(KeyNode(id)) && Get(op, "responses") == Some(SeqNode([x]))
              && Get(op, "parameters") == None
  {
    var c, tail := OddOperation(id, x).content, [KeyNode("responses"), SeqNode([x])];
    assert c == [KeyNode("operationId"), KeyNode(id)] + tail;
    forall key
      ensures Lookup(c, key) == if key == "operationId" then Some(KeyNode(id))
                else if key == "responses" then Some(SeqNode([x])) else None
    {
      LookupHere(KeyNode("operationId"), KeyNode(id), tail, key);
      LookupHere(KeyNode("responses"), SeqNode([x]), [], key);
      assert tail + [] == tail;
    }
  }

  lemma OddOperationPatched(id: string, x: Node, renames: map<string, string>, input: Input)
    requires id in input.operations && |input.operations[id].responses| > 0
    requires forall k :: 0 <= k < |input.operations[id].responses| ==>
               input.operations[id].responses[k].key.value != x.value
    ensures PatchOperation(OddOperation(id, x), renames, input).Ok? && !OpFits(OddOperation(id, x), renames, input)
  {
    var rs := input.operations[id].responses;
    OddOperationLookups(id, x);
    assert Responses(OddOperation(id, x)) == [x];
    assert Lookup([x], rs[0].key.value) == None && !LandsOnLast([x], rs, rs[0].key.value);
  }

  lemma OddPathsPatched(j: nat, id: string, x: Node, input: Input)
    requires j < |input.routes| && !Ambiguous(input.routes) && LastManual(input.manual, input.routes[j]).None?
    requires id in input.operations && |input.operations[id].responses| > 0
    requires forall k :: 0 <= k < |input.operations[id].responses| ==>
               input.operations[id].responses[k].key.value != x.value
    ensures var c := OddPaths(input.routes[j], id, x); PatchPaths(c, input).Ok? && !PathsFit(c, input)
  {
    var route := input.routes[j];
    var c, op := OddPaths(route, id, x), OddOperation(id, x);
    var item, renames := [KeyNode("get"), op], RenamesOf(route, route);
    OneRoute(input.routes, j);
    OddOperationPatched(id, x, renames, input);
    var f := (p: Pair) => PatchMethod(p, renames, input);
    assert item[2..] == [] && f(Pair(item[0], item[1])).Ok? && EachPair(item[2..], f) == Ok([]);
    assert PatchItem(MapNode(item), renames, input).Ok?;
    assert !ItemFits(MapNode(item), renames, input);
    var g := (p: Pair) => PatchPath(p, input);
    assert c[2..] == [] && g(Pair(c[0], c[1])).Ok? && EachPair(c[2..], g) == Ok([]);
    assert !PathFits(Pair(c[0], c[1]), input);
  }

  /** A document with a sequence of one node for responses: the tool succeeds on it and the second run changes it. */
  lemma OddResponsesDocument(j: nat, id: string, x: Node, input: Input)
    requires ManualOk(input) && ModelOk(input) && !Ambiguous(input.routes) && Parsed(x)
    requires j < |input.routes| && LastManual(input.manual, input.routes[j]).None?
    requires id in input.operations && |input.operations[id].responses| > 0
    requires forall k :: 0 <= k < |input.operations[id].responses| ==>
               input.operations[id].responses[k].key.value != x.value
    ensures var m := Minimal(MapNode([]), OddPaths(input.routes[j], id, x)); PatchRoot(m, input).Ok? && !Twice(m, input)
  {
    var paths := OddPaths(input.routes[j], id, x);
    var m := Minimal(MapNode([]), paths);
    OddPathsPatched(j, id, x, input);
    MinimalSucceeds(MapNode([]), paths, input);
    OddParsed(input.routes[j], id, x);
    MinimalParsed(MapNode([]), paths);
    MinimalLookups(MapNode([]), paths);
    RootIdempotentIff(m, input);
  }

  lemma OddParsed(route: string, id: string, x: Node)
    requires Parsed(x)
    ensures ContentParsed(OddPaths(route, id, x))
  {
    assert Parsed(SeqNode([x])) && Parsed(KeyNode("operationId")) && Parsed(KeyNode(id));
    assert Parsed(KeyNode("responses"));
    assert Parsed(OddOperation(id, x)) && Parsed(KeyNode("get"));
    assert Parsed(MapNode([KeyNode("get"), OddOperation(id, x)])) && Parsed(KeyNode(route));
  }

  // ----------------------------------------------------- lists of manual paths

  ghost predicate ManualKeys(c: seq<Node>, ms: seq<Manual>) {
    AllPairs(c, (p: Pair) => LastManual(ms, p.key.value).Some?)
  }

  lemma {:induction false} ManualRecreated(c: seq<Node>, input: Input, k: string)
    requires ManualKeys(c, input.manual) && Lookup(c, k).Some?
    ensures EachPair(c, (p: Pair) => PatchPath(p, input)).Ok?
    ensures LastManual(input.manual, k).Some?
    ensures Lookup(EachPair(c, (p: Pair) => PatchPath(p, input)).value, k) ==
              Some(ManualItem(LastManual(input.manual, k).value))
  {
    var f := (p: Pair) => PatchPath(p, input);
    assert f(Pair(c[0], c[1])) == Ok(Pair(c[0], ManualItem(LastManual(input.manual, c[0].value).value)));
    ManualSucceeds(c[2..], input);
    var d := EachPair(c, f).value;
    assert d[2..] == EachPair(c[2..], f).value;
    if c[0].value != k { ManualRecreated(c[2..], input, k); }
  }

  lemma {:induction false} ManualSucceeds(c: seq<Node>, input: Input)
    requires ManualKeys(c, input.manual)
    ensures EachPair(c, (p: Pair) => PatchPath(p, input)).Ok?
  {
    if |c| >= 2 {
      ManualSucceeds(c[2..], input);
      var f := (p: Pair) => PatchPath(p, input);
      assert f(Pair(c[0], c[1])).Ok?;
    }
  }

  lemma {:induction false} AddManualKeys(c: seq<Node>, ms: seq<Manual>, all: seq<Manual>)
    requires Even(c) && ManualKeys(c, all) && forall i :: 0 <= i < |ms| ==> ms[i] in all
    ensures ManualKeys(AddManual(c, ms), all)
    decreases |ms|
  {
    if ms != [] {
      assert ms[0] in all;
      LastManualIn(all, ms[0].path);
      AllPairsAppendIff(c, KeyNode(ms[0].path), ManualItem(ms[0]), (p: Pair) => LastManual(all, p.key.value).Some?);
      AddManualKeys(if Lookup(c, ms[0].path).Some? then c
                    else c + [KeyNode(ms[0].path), ManualItem(ms[0])], ms[1..], all);
    }
  }

  /** A path that is not there yet comes from its first document. */
  lemma {:induction false} AddManualFirst(c: seq<Node>, ms: seq<Manual>, k: string)
    requires Even(c) && Lookup(c, k).None?
    ensures Lookup(AddManual(c, ms), k) ==
              match FirstManual(ms, k) case Some(m) => Some(ManualItem(m)) case None => None
    decreases |ms|
  {
    if ms != [] {
      var d := if Lookup(c, ms[0].path).Some? then c else c + [KeyNode(ms[0].path), ManualItem(ms[0])];
      LookupAppended(c, KeyNode(ms[0].path), ManualItem(ms[0]), k);
      if ms[0].path == k {
        AddManualLookup(d, ms[1..]);
      } else {
        AddManualFirst(d, ms[1..], k);
      }
    }
  }

  /** After sorted manual paths the second run rewrites every entry from its last document. */
  lemma SecondRunUsesLast(e: seq<Node>, input: Input, k: string)
    requires Even(e) && !Ambiguous(input.routes) && ManualKeys(e, input.manual) && Lookup(e, k).Some?
    requires var r := SortContent(e, CharRank); PatchPaths(r, input) == Ok(r)
    ensures LastManual(input.manual, k).Some? && Lookup(e, k) == Some(ManualItem(LastManual(input.manual, k).value))
  {
    var r := SortContent(e, CharRank);
    AllPairsSortedIff(e, (p: Pair) => LastManual(input.manual, p.key.value).Some?, CharRank);
    LookupSorted(e, k, CharRank);
    ManualRecreated(r, input, k);
    var d := EachPair(r, (p: Pair) => PatchPath(p, input)).value;
    EachPairLength(r, input);
    SortContentIsStable(e, CharRank);
    AddManualLookup(d, input.manual);
    LookupSorted(AddManual(d, input.manual), k, CharRank);
  }

  lemma EachPairLength(c: seq<Node>, input: Input)
    requires EachPair(c, (p: Pair) => PatchPath(p, input)).Ok?
    ensures |EachPair(c, (p: Pair) => PatchPath(p, input)).value| == |c|
  {
    AllTrue(c);
    EachPairMapsIff(c, (p: Pair) => PatchPath(p, input), (p: Pair) => true, (p: Pair) => true, (p: Pair) => true);
  }

  lemma {:induction false} AllTrue(c: seq<Node>)
    ensures AllPairs(c, (p: Pair) => true)
  {
    if |c| >= 2 { AllTrue(c[2..]); }
  }

  // ------------------------------------------------------------- both failures

  lemma {:induction false} FirstManualExists(ms: seq<Manual>, i: nat)
    requires i < |ms|
    ensures FirstManual(ms, ms[i].path).Some?
  {
    if ms[0].path != ms[i].path { FirstManualExists(ms[1..], i - 1); }
  }

  /** Two documents of one path: the first fills an empty document, the last one replaces it. */
  lemma MustAgree(input: Input)
    requires !Ambiguous(input.routes) && AlwaysTwice(input)
    ensures ManualAgrees(input.manual)
  {
    var ms := input.manual;
    var e := AddManual([], ms);
    assert EachPair([], (p: Pair) => PatchPath(p, input)) == Ok([]);
    assert PatchPaths([], input) == Ok(SortContent(e, CharRank));
    assert ContentParsed([]) && PathsFit([], input);
    TwicePaths([], input);
    AddManualLookup([], ms);
    AddManualKeys([], ms, ms);
    forall i | 0 <= i < |ms|
      ensures FirstManual(ms, ms[i].path).Some? && LastManual(ms, ms[i].path).Some?
      ensures ManualItem(FirstManual(ms, ms[i].path).value) == ManualItem(LastManual(ms, ms[i].path).value)
    {
      FirstManualExists(ms, i);
      AddManualFirst([], ms, ms[i].path);
      SecondRunUsesLast(e, input, ms[i].path);
    }
  }

  function Repeat(c: char, n: nat): (s: string)
    ensures |s| == n && forall i :: 0 <= i < n ==> s[i] == c
  {
    seq(n, i => c)
  }

  function Longest(ms: seq<Manual>): (n: nat)
    ensures forall i :: 0 <= i < |ms| ==> |ms[i].path| <= n
  {
    if ms == [] then 0
    else
      var rest := Longest(ms[..|ms| - 1]);
      if |ms[|ms| - 1].path| > rest then |ms[|ms| - 1].path| else rest
  }

  /** A route with variables has a spelling that nobody documents. */
  lemma OtherSpelling(route: string, ms: seq<Manual>) returns (key: string)
    requires HasVariable(route)
    ensures Normalize(key) == Normalize(route) && LastManual(ms, key).None?
  {
    var name := Repeat('x', Longest(ms) + 1);
    Disassembled(route);
    Assembled(route[..Start(route)], name, Rest(route));
    key := route[..Start(route)] + "{" + name + "}" + Rest(route);
    LastManualIn(ms, key);
  }

  lemma OneRoute(routes: seq<string>, j: nat)
    requires !Ambiguous(routes) && j < |routes|
    ensures RouteFor(routes, Normalize(routes[j])) == Some(routes[j])
  {
    RouteForIn(routes, Normalize(routes[j]));
    var r := RouteFor(routes, Normalize(routes[j])).value;
    var i :| 0 <= i < |routes| && routes[i] == r;
  }

  /** A documented route with variables: a generated path turns into it, and the next run overwrites that entry. */
  lemma MustStayApart(input: Input)
    requires !Ambiguous(input.routes) && AlwaysTwice(input)
    ensures ManualApart(input)
  {
    var ms := input.manual;
    forall i, j | 0 <= i < |ms| && 0 <= j < |input.routes| && ms[i].path == input.routes[j]
      ensures !HasVariable(input.routes[j])
    {
      CollidingRoute(input, i, j);
    }
  }

  lemma CollidingRoute(input: Input, i: nat, j: nat)
    requires !Ambiguous(input.routes) && AlwaysTwice(input) && i < |input.manual| && j < |input.routes|
    requires input.manual[i].path == input.routes[j]
    ensures !HasVariable(input.routes[j])
  {
    var ms, route := input.manual, input.routes[j];
    if HasVariable(route) {
      var key := OtherSpelling(route, ms);
      OneRoute(input.routes, j);
      var c, d := [KeyNode(key), MapNode([])], [KeyNode(route), MapNode([])];
      EmptyItem(c, d, key, route, input);
      assert c[2..] == [] && d[2..] == [];
      assert ItemFits(MapNode([]), RenamesOf(key, route), input);
      assert PathsFit(c, input) && Parsed(c[0]) && Parsed(c[1]);
      TwicePaths(c, input);
      AddManualLookup(d, ms);
      LastManualIn(ms, route);
      AddManualKeys(d, ms, ms);
      SecondRunUsesLast(AddManual(d, ms), input, route);
    }
  }

  lemma EmptyItem(c: seq<Node>, d: seq<Node>, key: string, route: string, input: Input)
    requires c == [KeyNode(key), MapNode([])] && d == [KeyNode(route), MapNode([])]
    requires LastManual(input.manual, key).None?
    requires RouteFor(input.routes, Normalize(key)) == Some(route)
    ensures EachPair(c, (p: Pair) => PatchPath(p, input)) == Ok(d)
  {
    var item := MapNode([]);
    assert PatchItem(item, RenamesOf(key, route), input) == Ok(item);
    var f := (p: Pair) => PatchPath(p, input);
    assert c[2..] == [];
    assert f(Pair(c[0], c[1])) == Ok(Pair(KeyNode(route), item));
    assert EachPair(c[2..], f) == Ok([]);
    assert [KeyNode(route), item] + [] == d;
  }

  /**
   * The tool is idempotent on every parsed document that fits exactly when documents of one hand-written path agree
   * and no hand-written path is a route with variables.
   */
  lemma AlwaysTwiceIff(input: Input)
    requires !Ambiguous(input.routes) && ModelOk(input)
    ensures AlwaysTwice(input) <==> ManualOk(input)
  {
    if AlwaysTwice(input) {
      MustAgree(input);
      MustStayApart(input);
    }
    if ManualOk(input) {
      forall root | Parsed(root) && PatchRoot(root, input).Ok? && DocumentFits(root, input) ensures Twice(root, input) {
        RootIdempotentIff(root, input);
      }
    }
  }
}
