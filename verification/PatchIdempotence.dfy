/** Idempotence of the whole rewriting, with the exact conditions under which it holds. */
module PatchIdempotence {
  import opened Options
  import opened YamlTree
  import opened YamlSlices
  import opened PathTemplates
  import opened PatchSpec
  import opened PatchTraversals
  import opened PatchTheorems

  // --------------------------------------------------------------------- paths

  function FirstManual(ms: seq<Manual>, path: string): Option<Manual> {
    if ms == [] then None else if ms[0].path == path then Some(ms[0]) else FirstManual(ms[1..], path)
  }

  /** Documents of one path agree, first to last. */
  predicate ManualAgrees(ms: seq<Manual>) {
    forall i :: 0 <= i < |ms| ==>
      FirstManual(ms, ms[i].path).Some? && LastManual(ms, ms[i].path).Some? &&
      ManualItem(FirstManual(ms, ms[i].path).value) == ManualItem(LastManual(ms, ms[i].path).value)
  }

  /** No route with variables is also documented by hand. */
  predicate ManualApart(input: Input) {
    forall i, j :: 0 <= i < |input.manual| && 0 <= j < |input.routes| && input.manual[i].path == input.routes[j] ==>
      !HasVariable(input.routes[j])
  }

  predicate ManualOk(input: Input) {
    ManualAgrees(input.manual) && ManualApart(input)
  }

  lemma {:induction false} LastManualIn(ms: seq<Manual>, path: string)
    ensures LastManual(ms, path).Some? ==> LastManual(ms, path).value.path == path && LastManual(ms, path).value in ms
    ensures forall i :: 0 <= i < |ms| && ms[i].path == path ==> LastManual(ms, path).Some?
    decreases |ms|
  {
    if ms != [] { LastManualIn(ms[..|ms| - 1], path); }
  }

  lemma {:induction false} RouteForIn(routes: seq<string>, normal: string)
    ensures RouteFor(routes, normal).Some? ==>
              RouteFor(routes, normal).value in routes && Normalize(RouteFor(routes, normal).value) == normal
    ensures forall i :: 0 <= i < |routes| && Normalize(routes[i]) == normal ==> RouteFor(routes, normal).Some?
    decreases |routes|
  {
    if routes != [] { RouteForIn(routes[..|routes| - 1], normal); }
  }

  lemma RenamesSettled(key: string, route: string)
    ensures Settles(RenamesOf(key, route), RenamesOf(route, route))
  {
    var from, to := Variables(key), Variables(route);
    RenamesLookup(from, to, if |from| <= |to| then |from| else |to|);
    RenamesLookup(to, to, |to|);
    RenamesSelf(to, |to|);
  }

  /** A generated path never turns into one that is documented by hand. */
  lemma RouteIsNotManual(key: string, route: string, input: Input)
    requires ManualApart(input) && LastManual(input.manual, key).None? && route in input.routes
    requires Normalize(route) == Normalize(key)
    ensures LastManual(input.manual, route).None?
  {
    LastManualIn(input.manual, route);
    SameNormalStep(key, route);
  }

  /** What a caller can check of a documented path before the first run; hand-written ones are created anew. */
  ghost predicate PathFits(p: Pair, input: Input) {
    LastManual(input.manual, p.key.value).None? && RouteFor(input.routes, Normalize(p.key.value)).Some? ==>
      ItemFits(p.val, RenamesOf(p.key.value, RouteFor(input.routes, Normalize(p.key.value)).value), input)
  }

  lemma PathTwiceIff(p: Pair, input: Input)
    requires Parsed(p.val) && ManualApart(input) && OperationsOk(input) && PatchPath(p, input).Ok?
    ensures FixedPath(PatchPath(p, input).value, input) <==> PathFits(p, input)
    ensures KeyStays(PatchPath(p, input).value, input)
  {
    var key := p.key.value;
    if LastManual(input.manual, key).None? {
      RouteForIn(input.routes, Normalize(key));
      var route := RouteFor(input.routes, Normalize(key)).value;
      RouteIsNotManual(key, route, input);
      RenamesSettled(key, route);
      ItemTwiceIff(p.val, RenamesOf(key, route), RenamesOf(route, route), input);
    }
  }

  ghost predicate FixedPath(p: Pair, input: Input) {
    PatchPath(p, input) == Ok(p)
  }

  /** The next run leaves the text of the key alone. */
  ghost predicate KeyStays(p: Pair, input: Input) {
    PatchPath(p, input).Ok? ==> PatchPath(p, input).value.key.value == p.key.value
  }

  lemma {:induction false} FirstManualAt(ms: seq<Manual>, i: nat)
    requires i < |ms| && forall j :: 0 <= j < i ==> ms[j].path != ms[i].path
    ensures FirstManual(ms, ms[i].path) == Some(ms[i])
  {
    if i > 0 {
      assert ms[0].path != ms[i].path;
      FirstManualAt(ms[1..], i - 1);
    }
  }

  /** Adding the missing documents keeps every entry that is there and provides every documented path. */
  lemma {:induction false} AddManualLookup(c: seq<Node>, ms: seq<Manual>)
    requires Even(c)
    ensures Even(AddManual(c, ms))
    ensures forall k :: Lookup(c, k).Some? ==> Lookup(AddManual(c, ms), k) == Lookup(c, k)
    ensures forall i :: 0 <= i < |ms| ==> Lookup(AddManual(c, ms), ms[i].path).Some?
    decreases |ms|
  {
    if ms != [] {
      var d := if Lookup(c, ms[0].path).Some? then c else c + [KeyNode(ms[0].path), ManualItem(ms[0])];
      forall k ensures Lookup(c, k).Some? ==> Lookup(d, k) == Lookup(c, k) {
        LookupAppended(c, KeyNode(ms[0].path), ManualItem(ms[0]), k);
      }
      LookupAppended(c, KeyNode(ms[0].path), ManualItem(ms[0]), ms[0].path);
      AddManualLookup(d, ms[1..]);
      forall i | 0 <= i < |ms| ensures Lookup(AddManual(c, ms), ms[i].path).Some? {
        if i > 0 { assert ms[i] == ms[1..][i - 1]; }
      }
    }
  }

  lemma {:induction false} AddManualSame(c: seq<Node>, ms: seq<Manual>)
    requires forall i :: 0 <= i < |ms| ==> Lookup(c, ms[i].path).Some?
    ensures AddManual(c, ms) == c
    decreases |ms|
  {
    if ms != [] {
      assert Lookup(c, ms[0].path).Some?;
      forall i | 0 <= i < |ms[1..]| ensures Lookup(c, ms[1..][i].path).Some? { assert ms[1..][i] == ms[i + 1]; }
      AddManualSame(c, ms[1..]);
    }
  }

  lemma ManualEntryFixed(ms: seq<Manual>, i: nat, input: Input)
    requires input.manual == ms && ManualAgrees(ms) && i < |ms| && FirstManual(ms, ms[i].path) == Some(ms[i])
    ensures FixedPath(Pair(KeyNode(ms[i].path), ManualItem(ms[i])), input)
  {
    assert ManualItem(FirstManual(ms, ms[i].path).value) == ManualItem(LastManual(ms, ms[i].path).value);
  }

  lemma AddedLookups(c: seq<Node>, ms: seq<Manual>, i: nat)
    requires Even(c) && i < |ms| && forall j :: 0 <= j < i ==> Lookup(c, ms[j].path).Some?
    ensures var d := if Lookup(c, ms[i].path).Some? then c else c + [KeyNode(ms[i].path), ManualItem(ms[i])];
            Even(d) && forall j :: 0 <= j < i + 1 ==> Lookup(d, ms[j].path).Some?
  {
    forall j | 0 <= j < i + 1 ensures Lookup(c + [KeyNode(ms[i].path), ManualItem(ms[i])], ms[j].path).Some? {
      LookupAppended(c, KeyNode(ms[i].path), ManualItem(ms[i]), ms[j].path);
    }
  }

  /** Adding the missing documents adds nothing that the next run would change. */
  lemma {:induction false} AddManualFixedIff(c: seq<Node>, i: nat, input: Input)
    requires Even(c) && ManualAgrees(input.manual) && i <= |input.manual|
    requires forall j :: 0 <= j < i ==> Lookup(c, input.manual[j].path).Some?
    ensures AllPairs(AddManual(c, input.manual[i..]), p => FixedPath(p, input)) <==>
            AllPairs(c, p => FixedPath(p, input))
    decreases |input.manual| - i
  {
    var ms := input.manual;
    if i < |ms| {
      var m := ms[i];
      var d := if Lookup(c, m.path).Some? then c else c + [KeyNode(m.path), ManualItem(m)];
      assert AddManual(c, ms[i..]) == AddManual(d, ms[i + 1..]) by { assert ms[i..][1..] == ms[i + 1..]; }
      if Lookup(c, m.path).None? {
        FirstManualAt(ms, i);
        ManualEntryFixed(ms, i, input);
        AllPairsAppendIff(c, KeyNode(m.path), ManualItem(m), p => FixedPath(p, input));
      }
      AddedLookups(c, ms, i);
      AddManualFixedIff(d, i + 1, input);
    }
  }

  lemma {:induction false} AddManualKeysStay(c: seq<Node>, ms: seq<Manual>, input: Input)
    requires Even(c) && AllPairs(c, p => KeyStays(p, input)) && forall i :: 0 <= i < |ms| ==> ms[i] in input.manual
    ensures AllPairs(AddManual(c, ms), p => KeyStays(p, input))
    decreases |ms|
  {
    if ms != [] {
      assert ms[0] in input.manual;
      LastManualIn(input.manual, ms[0].path);
      AllPairsAppendIff(c, KeyNode(ms[0].path), ManualItem(ms[0]), p => KeyStays(p, input));
      AddManualKeysStay(if Lookup(c, ms[0].path).Some? then c
                        else c + [KeyNode(ms[0].path), ManualItem(ms[0])], ms[1..], input);
    }
  }

  ghost predicate PathsFit(c: seq<Node>, input: Input) {
    AllPairs(c, (p: Pair) => PathFits(p, input))
  }

  ghost predicate ContentParsed(c: seq<Node>) {
    Even(c) && forall i :: 0 <= i < |c| ==> Parsed(c[i])
  }

  /** The entries before the manual ones are added: which of them the next run leaves alone. */
  lemma EntriesTwiceIff(c: seq<Node>, input: Input)
    requires ContentParsed(c) && ManualApart(input) && OperationsOk(input)
    requires EachPair(c, (p: Pair) => PatchPath(p, input)).Ok?
    ensures var d := EachPair(c, (p: Pair) => PatchPath(p, input)).value;
            && |d| == |c| && AllPairs(d, p => KeyStays(p, input))
            && (AllPairs(d, p => FixedPath(p, input)) <==> PathsFit(c, input))
  {
    var f := (p: Pair) => PatchPath(p, input);
    var parsed := (p: Pair) => Parsed(p.val);
    var fits := (p: Pair) => PathFits(p, input);
    var fixed := (p: Pair) => FixedPath(p, input);
    var stays := (p: Pair) => KeyStays(p, input);
    var any := (p: Pair) => true;
    PairsParsed(c);
    forall p: Pair | parsed(p) && f(p).Ok?
      ensures (fixed(f(p).value) <==> fits(p)) && stays(f(p).value)
    {
      PathTwiceIff(p, input);
    }
    EachPairMapsIff(c, f, parsed, fits, fixed);
    EachPairMapsIff(c, f, parsed, any, stays);
    AllPairsWeaken(c, parsed, any);
  }

  /**
   * Over a sorted list that holds every hand-written route and whose keys stay, the next run only patches entries: it
   * changes nothing exactly when it changes no entry.
   */
  lemma SortedPathsIff(e: seq<Node>, input: Input)
    requires Even(e) && !Ambiguous(input.routes) && AllPairs(e, p => KeyStays(p, input))
    requires forall i :: 0 <= i < |input.manual| ==> Lookup(e, input.manual[i].path).Some?
    ensures var r := SortContent(e, CharRank); PatchPaths(r, input) == Ok(r) <==> AllPairs(e, p => FixedPath(p, input))
  {
    var f := (p: Pair) => PatchPath(p, input);
    var r := SortContent(e, CharRank);
    AllPairsSortedIff(e, p => FixedPath(p, input), CharRank);
    AllPairsSortedIff(e, p => KeyStays(p, input), CharRank);
    SamePairs(r, p => FixedPath(p, input), p => f(p) == Ok(p));
    EachPairFixedIff(r, f);
    if EachPair(r, f).Ok? {
      AllPairsWeaken(r, p => KeyStays(p, input), p => f(p).Ok? ==> f(p).value.key.value == p.key.value);
      ManualStays(e, input);
      SortContentIsStable(e, CharRank);
      SortedStays(r, f, CharRank);
    }
  }

  /** Every hand-written route is still there after the entries are patched. */
  lemma ManualStays(e: seq<Node>, input: Input)
    requires forall i :: 0 <= i < |input.manual| ==> Lookup(e, input.manual[i].path).Some?
    requires var r := SortContent(e, CharRank);
             && EachPair(r, (p: Pair) => PatchPath(p, input)).Ok?
             && AllPairs(r, p => KeyStays(p, input))
    ensures var d := EachPair(SortContent(e, CharRank), (p: Pair) => PatchPath(p, input)).value;
            AddManual(d, input.manual) == d
  {
    var r, f := SortContent(e, CharRank), (p: Pair) => PatchPath(p, input);
    AllPairsWeaken(r, p => KeyStays(p, input), p => f(p).Ok? ==> f(p).value.key.value == p.key.value);
    EachPairKeys(r, f, CharRank);
    forall i | 0 <= i < |input.manual|
      ensures Lookup(EachPair(r, f).value, input.manual[i].path).Some?
    {
      LookupSorted(e, input.manual[i].path, CharRank);
    }
    AddManualSame(EachPair(r, f).value, input.manual);
  }

  lemma SamePairs(c: seq<Node>, P: Pair -> bool, Q: Pair -> bool)
    requires forall p :: P(p) <==> Q(p)
    ensures AllPairs(c, P) <==> AllPairs(c, Q)
  {
    if AllPairs(c, P) { AllPairsWeaken(c, P, Q); }
    if AllPairs(c, Q) { AllPairsWeaken(c, Q, P); }
  }

  /** Renaming, hand-written routes and sorting: the second run finds nothing to do exactly when every entry fits. */
  lemma PathsTwiceIff(c: seq<Node>, input: Input)
    requires ContentParsed(c) && ManualOk(input) && OperationsOk(input) && PatchPaths(c, input).Ok?
    ensures PatchPaths(PatchPaths(c, input).value, input) == PatchPaths(c, input) <==> PathsFit(c, input)
  {
    EntriesTwiceIff(c, input);
    var d := EachPair(c, (p: Pair) => PatchPath(p, input)).value;
    assert input.manual[0..] == input.manual;
    AddManualFixedIff(d, 0, input);
    AddManualKeysStay(d, input.manual, input);
    AddManualLookup(d, input.manual);
    SortedPathsIff(AddManual(d, input.manual), input);
  }

  // ------------------------------------------------------------------- schemas

  /** Keywords constrain a value: none replaces the element schema, and none has a value with the text of a keyword. */
  predicate PlainKeywords(patch: FieldPatch) {
    && Last(patch.keywords, "items").None? && Last(patch.keywords, "additionalProperties").None?
    && Textual(patch.keywords) && Textual(patch.elements)
  }

  predicate FieldsDistinct(patches: seq<FieldPatch>) {
    forall i, j :: 0 <= i < j < |patches| ==> patches[i].field != patches[j].field
  }

  /** As the protos give them: one patch per field name, with plain keywords. */
  predicate PatchesOk(patches: seq<FieldPatch>) {
    FieldsDistinct(patches) && forall i :: 0 <= i < |patches| ==> PlainKeywords(patches[i])
  }

  /** Where the rules of list items and map values go. */
  function ElementKey(prop: Node): string {
    if Get(prop, "items").Some? then "items" else "additionalProperties"
  }

  /** A property and its element schema fit their keywords. */
  predicate PropertyFits(prop: Node, patch: FieldPatch) {
    && Fits(prop.content, patch.keywords)
    && (patch.elements != [] && Get(prop, ElementKey(prop)).Some? ==>
        Fits(Get(prop, ElementKey(prop)).value.content, patch.elements))
  }

  lemma KeywordsKept(prop: Node, patch: FieldPatch)
    requires prop.kind == MappingKind && Even(prop.content) && PlainKeywords(patch)
    ensures var p := WithKeywords(prop, patch.keywords);
            && p.kind == MappingKind && Even(p.content) && WithKeywords(p, patch.keywords) == p
            && Get(p, "items") == Get(prop, "items")
            && Get(p, "additionalProperties") == Get(prop, "additionalProperties")
  {
    LookupPutAll(prop.content, patch.keywords);
    KeywordsTwiceIff(prop, patch.keywords);
  }

  /** Writing the element schema does not touch the keywords beside it. */
  lemma ElementBeside(p: Node, key: string, val: Node, patch: FieldPatch)
    requires p.kind == MappingKind && Even(p.content) && WithKeywords(p, patch.keywords) == p
    requires Last(patch.keywords, key).None?
    ensures var q := Set(p, key, val);
            && q.kind == MappingKind && Even(q.content) && WithKeywords(q, patch.keywords) == q
            && Get(q, key) == Some(val)
            && forall k :: k != key ==> Get(q, k) == Get(p, k)
  {
    var q := Set(p, key, val);
    SetLookup(p, key, val);
    LookupPutAll(p.content, patch.keywords);
    forall k | Last(patch.keywords, k).Some? ensures Lookup(q.content, k) == Last(patch.keywords, k) {
      assert Get(q, k) == Get(p, k);
    }
    PutAllSame(q.content, patch.keywords);
  }

  lemma ElementTwiceIff(p: Node, patch: FieldPatch)
    requires p.kind == MappingKind && Even(p.content) && WithKeywords(p, patch.keywords) == p && PlainKeywords(patch)
    requires patch.elements != [] && Get(p, ElementKey(p)).Some?
    ensures var el := Get(p, ElementKey(p)).value;
            var q := Set(p, ElementKey(p), WithKeywords(el, patch.elements));
            PatchProperty(q, patch) == Ok(q) <==> Fits(el.content, patch.elements)
  {
    var key := ElementKey(p);
    var el := Get(p, key).value;
    var val := WithKeywords(el, patch.elements);
    var q := Set(p, key, val);
    ElementBeside(p, key, val, patch);
    assert ElementKey(q) == key;
    var again := WithKeywords(val, patch.elements);
    ElementBeside(q, key, again, patch);
    KeywordsTwiceIff(el, patch.elements);
    if again == val { EditsSame(q, "", key, val); }
  }

  lemma PropertyTwiceIff(prop: Node, patch: FieldPatch)
    requires Proper(prop) && PlainKeywords(patch) && PatchProperty(prop, patch).Ok?
    ensures var q := PatchProperty(prop, patch).value; PatchProperty(q, patch) == Ok(q) <==> PropertyFits(prop, patch)
  {
    if patch.elements == [] {
      KeywordsTwiceIff(prop, patch.keywords);
    } else {
      KeywordsKept(prop, patch);
      ElementTwiceIff(WithKeywords(prop, patch.keywords), patch);
    }
  }

  ghost predicate PropertySettled(props: Node, patch: FieldPatch) {
    && Get(props, patch.field).Some?
    && PatchProperty(Get(props, patch.field).value, patch) == Ok(Get(props, patch.field).value)
  }

  ghost predicate AllSettled(props: Node, patches: seq<FieldPatch>) {
    forall i :: 0 <= i < |patches| ==> PropertySettled(props, patches[i])
  }

  lemma {:induction false} PropertiesSame(props: Node, patches: seq<FieldPatch>)
    requires AllSettled(props, patches)
    ensures PatchProperties(props, patches) == Ok(props)
    decreases |patches|
  {
    if patches != [] {
      assert PropertySettled(props, patches[0]);
      EditsSame(props, "", patches[0].field, Get(props, patches[0].field).value);
      forall i | 0 <= i < |patches[1..]|
        ensures PropertySettled(props, patches[1..][i])
      {
        assert patches[1..][i] == patches[i + 1];
      }
      PropertiesSame(props, patches[1..]);
    }
  }

  /** The property of a patch before and after. */
  ghost predicate Patched(props: Node, q: Node, patch: FieldPatch) {
    && Get(props, patch.field).Some? && Get(q, patch.field).Some?
    && PatchProperty(Get(props, patch.field).value, patch) == Ok(Get(q, patch.field).value)
  }

  lemma {:induction false} PropertiesLookup(props: Node, patches: seq<FieldPatch>)
    requires props.kind == MappingKind && Even(props.content) && FieldsDistinct(patches)
    requires PatchProperties(props, patches).Ok?
    ensures var q := PatchProperties(props, patches).value;
            && q.kind == MappingKind && Even(q.content)
            && (forall k :: (forall i :: 0 <= i < |patches| ==> patches[i].field != k) ==> Get(q, k) == Get(props, k))
            && forall i :: 0 <= i < |patches| ==> Patched(props, q, patches[i])
    decreases |patches|
  {
    if patches != [] {
      var patch, rest := patches[0], patches[1..];
      var p := PatchProperty(Get(props, patch.field).value, patch).value;
      var next := Set(props, patch.field, p);
      SetLookup(props, patch.field, p);
      assert forall i :: 0 <= i < |rest| ==> rest[i] == patches[i + 1];
      PropertiesLookup(next, rest);
      var q := PatchProperties(next, rest).value;
      assert Get(q, patch.field) == Get(next, patch.field);
      forall i | 0 <= i < |patches| ensures Patched(props, q, patches[i]) {
        if i > 0 { assert patches[i] == rest[i - 1] && Patched(next, q, rest[i - 1]); }
      }
      forall k | forall i :: 0 <= i < |patches| ==> patches[i].field != k ensures Get(q, k) == Get(props, k) {
        assert patches[0].field != k;
        assert forall i :: 0 <= i < |rest| ==> rest[i].field != k;
      }
    }
  }

  lemma UnchangedProperties(props: Node, patches: seq<FieldPatch>)
    requires props.kind == MappingKind && Even(props.content) && FieldsDistinct(patches)
    ensures PatchProperties(props, patches) == Ok(props) <==> AllSettled(props, patches)
  {
    if AllSettled(props, patches) { PropertiesSame(props, patches); }
    if PatchProperties(props, patches) == Ok(props) {
      PropertiesLookup(props, patches);
      forall i | 0 <= i < |patches|
        ensures PropertySettled(props, patches[i])
      {
        assert Patched(props, props, patches[i]);
      }
    }
  }

  predicate PropertiesFit(props: Node, patches: seq<FieldPatch>) {
    forall i :: 0 <= i < |patches| ==>
      (Get(props, patches[i].field).Some? ==> PropertyFits(Get(props, patches[i].field).value, patches[i]))
  }

  lemma PropertiesTwiceIff(props: Node, patches: seq<FieldPatch>)
    requires Parsed(props) && PatchesOk(patches) && PatchProperties(props, patches).Ok?
    ensures var q := PatchProperties(props, patches).value;
            PatchProperties(q, patches) == Ok(q) <==> PropertiesFit(props, patches)
  {
    if patches != [] {
      PropertiesLookup(props, patches);
      var q := PatchProperties(props, patches).value;
      UnchangedProperties(q, patches);
      forall i | 0 <= i < |patches|
        ensures PropertySettled(q, patches[i]) <==> PropertyFits(Get(props, patches[i].field).value, patches[i])
      {
        assert Patched(props, q, patches[i]);
        GetParsed(props, patches[i].field);
        PropertyTwiceIff(Get(props, patches[i].field).value, patches[i]);
      }
    }
  }

  predicate SchemaFits(schema: Node, patches: seq<FieldPatch>) {
    Get(schema, "properties").Some? ==> PropertiesFit(Get(schema, "properties").value, patches)
  }

  lemma SchemaLookup(schema: Node, p: Node, patches: seq<FieldPatch>)
    requires schema.kind == MappingKind && Even(schema.content)
    ensures var s := Set(schema, "properties", p);
            var r := if RequiredNames(patches) != [] then Set(s, "required", SeqNode(RequiredNames(patches))) else s;
            && r.kind == MappingKind && Even(r.content) && Get(r, "properties") == Some(p)
            && (RequiredNames(patches) != [] ==> Get(r, "required") == Some(SeqNode(RequiredNames(patches))))
  {
    SetLookup(schema, "properties", p);
    if RequiredNames(patches) != [] {
      SetLookup(Set(schema, "properties", p), "required", SeqNode(RequiredNames(patches)));
    }
  }

  lemma SchemaTwiceIff(schema: Node, patches: seq<FieldPatch>)
    requires Parsed(schema) && PatchesOk(patches) && PatchSchema(schema, patches).Ok?
    ensures var r := PatchSchema(schema, patches).value;
            PatchSchema(r, patches) == Ok(r) <==> SchemaFits(schema, patches)
  {
    if Get(schema, "properties").Some? {
      var props := Get(schema, "properties").value;
      GetParsed(schema, "properties");
      PropertiesTwiceIff(props, patches);
      var p := PatchProperties(props, patches).value;
      SchemaLookup(schema, p, patches);
      var r := PatchSchema(schema, patches).value;
      if PatchProperties(p, patches) == Ok(p) {
        EditsSame(r, "", "properties", p);
        if RequiredNames(patches) != [] { EditsSame(r, "", "required", SeqNode(RequiredNames(patches))); }
      } else if PatchProperties(p, patches).Ok? {
        SchemaLookup(r, PatchProperties(p, patches).value, patches);
      }
    }
  }

  /** As the tool builds its tables from the protos. */
  predicate ModelOk(input: Input) {
    OperationsOk(input) && forall name :: name in input.messages ==> PatchesOk(input.messages[name])
  }

  ghost predicate FixedSchema(p: Pair, input: Input) {
    PatchNamedSchema(p, input) == Ok(p)
  }

  predicate NamedSchemaFits(p: Pair, input: Input) {
    p.key.value != input.texts.errorName && p.key.value in input.messages ==>
      SchemaFits(p.val, input.messages[p.key.value])
  }

  ghost predicate SchemasFit(c: seq<Node>, input: Input) {
    AllPairs(c, (p: Pair) => NamedSchemaFits(p, input))
  }

  lemma SchemaEntriesTwiceIff(c: seq<Node>, input: Input)
    requires ContentParsed(c) && ModelOk(input) && EachPair(c, (p: Pair) => PatchNamedSchema(p, input)).Ok?
    ensures var d := EachPair(c, (p: Pair) => PatchNamedSchema(p, input)).value;
            |d| == |c| && (AllPairs(d, p => FixedSchema(p, input)) <==> SchemasFit(c, input))
  {
    var f := (p: Pair) => PatchNamedSchema(p, input);
    var parsed := (p: Pair) => Parsed(p.val);
    var fits := (p: Pair) => NamedSchemaFits(p, input);
    var fixed := (p: Pair) => FixedSchema(p, input);
    PairsParsed(c);
    forall p: Pair | parsed(p) && f(p).Ok? ensures fixed(f(p).value) <==> fits(p) {
      if p.key.value != input.texts.errorName { SchemaTwiceIff(p.val, input.messages[p.key.value]); }
    }
    EachPairMapsIff(c, f, parsed, fits, fixed);
  }

  lemma {:induction false} AllKeysStay(c: seq<Node>, input: Input)
    ensures var f := (p: Pair) => PatchNamedSchema(p, input);
            AllPairs(c, p => f(p).Ok? ==> f(p).value.key.value == p.key.value)
  {
    if |c| >= 2 { AllKeysStay(c[2..], input); }
  }

  /** The error schema is found in place after the entries are patched. */
  lemma {:induction false} ErrorSchemaStays(c: seq<Node>, input: Input)
    requires EachPair(c, (p: Pair) => PatchNamedSchema(p, input)).Ok?
    ensures Lookup(EachPair(c, (p: Pair) => PatchNamedSchema(p, input)).value, input.texts.errorName) ==
              Lookup(c, input.texts.errorName)
  {
    if |c| >= 2 {
      ErrorSchemaStays(c[2..], input);
      var f := (p: Pair) => PatchNamedSchema(p, input);
      var d := EachPair(c, f).value;
      assert d[2..] == EachPair(c[2..], f).value;
      assert Pair(d[0], d[1]) == f(Pair(c[0], c[1])).value;
    }
  }

  lemma SortedSchemasIff(e: seq<Node>, input: Input)
    requires Even(e) && Lookup(e, input.texts.errorName) == Some(input.texts.errorSchema)
    ensures var r := SortContent(e, CharRank);
            PatchSchemas(r, input) == Ok(r) <==> AllPairs(e, p => FixedSchema(p, input))
  {
    var f := (p: Pair) => PatchNamedSchema(p, input);
    var r := SortContent(e, CharRank);
    AllPairsSortedIff(e, p => FixedSchema(p, input), CharRank);
    SamePairs(r, p => FixedSchema(p, input), p => f(p) == Ok(p));
    EachPairFixedIff(r, f);
    if EachPair(r, f).Ok? {
      AllKeysStay(r, input);
      SortContentIsStable(e, CharRank);
      SortedStays(r, f, CharRank);
      LookupSorted(e, input.texts.errorName, CharRank);
      ErrorSchemaStays(r, input);
      PutSame(EachPair(r, f).value, KeyNode(input.texts.errorName), input.texts.errorSchema);
    }
  }

  /**
   * Keywords, required lists, the error schema and sorting: nothing to do the second time exactly when every schema
   * fits.
   */
  lemma SchemasTwiceIff(c: seq<Node>, input: Input)
    requires ContentParsed(c) && ModelOk(input) && PatchSchemas(c, input).Ok?
    ensures PatchSchemas(PatchSchemas(c, input).value, input) == PatchSchemas(c, input) <==> SchemasFit(c, input)
  {
    SchemaEntriesTwiceIff(c, input);
    var d := EachPair(c, (p: Pair) => PatchNamedSchema(p, input)).value;
    ErrorWritten(d, input);
    SortedSchemasIff(WithError(d, input), input);
  }

  function WithError(d: seq<Node>, input: Input): seq<Node> {
    Put(d, KeyNode(input.texts.errorName), input.texts.errorSchema)
  }

  lemma ErrorWritten(d: seq<Node>, input: Input)
    requires Even(d)
    ensures Even(WithError(d, input))
    ensures Lookup(WithError(d, input), input.texts.errorName) == Some(input.texts.errorSchema)
    ensures AllPairs(WithError(d, input), p => FixedSchema(p, input)) <==> AllPairs(d, p => FixedSchema(p, input))
  {
    AllPairsPutIff(d, KeyNode(input.texts.errorName), input.texts.errorSchema, p => FixedSchema(p, input));
    LookupPut(d, KeyNode(input.texts.errorName), input.texts.errorSchema);
  }
}
