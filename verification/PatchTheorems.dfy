/** Running the rewriter on its own result: what stays, and exactly when everything does. */
module PatchTheorems {
  import opened Options
  import opened YamlTree
  import opened YamlSlices
  import opened PatchSpec
  import opened PatchTraversals

  // ------------------------------------------------------- shape of a document

  predicate Proper(n: Node) {
    n.kind == MappingKind ==> Even(n.content)
  }

  /** A tree as a YAML parser builds it: every mapping alternates keys and values. Sequences may have any length. */
  predicate Parsed(n: Node) {
    Proper(n) && forall i :: 0 <= i < |n.content| ==> Parsed(n.content[i])
  }

  lemma {:induction false} LookupIn(c: seq<Node>, k: string)
    requires Lookup(c, k).Some?
    ensures Lookup(c, k).value in c
  {
    if c[0].value != k { LookupIn(c[2..], k); }
  }

  lemma GetParsed(n: Node, k: string)
    requires Parsed(n) && Get(n, k).Some?
    ensures Parsed(Get(n, k).value)
  {
    LookupIn(n.content, k);
  }

  lemma {:induction false} PairsParsed(c: seq<Node>)
    requires forall i :: 0 <= i < |c| ==> Parsed(c[i])
    ensures AllPairs(c, (p: Pair) => Parsed(p.val))
  {
    if |c| >= 2 {
      assert forall i :: 0 <= i < |c[2..]| ==> c[2..][i] == c[i + 2];
      PairsParsed(c[2..]);
    }
  }

  // ---------------------------------------------------------------- parameters

  /** Renaming a route's own variables changes nothing. */
  ghost predicate Settles(renames: map<string, string>, again: map<string, string>) {
    forall v :: v in renames ==> renames[v] in again && again[renames[v]] == renames[v]
  }

  lemma RenameFixed(param: Node, renames: map<string, string>, again: map<string, string>)
    requires Proper(param) && RenameParam(param, renames).Ok? && Settles(renames, again)
    ensures var q := RenameParam(param, renames).value;
            && RenameParam(q, again) == Ok(q) && q.kind == param.kind && Proper(q)
            && forall k :: k != "name" ==> Get(q, k) == Get(param, k)
  {
    var place, name := Get(param, "in"), Get(param, "name");
    if place.Some? && name.Some? && place.value.value == "path" {
      var val := name.value.(value := renames[name.value.value]);
      SetLookup(param, "name", val);
      EditsSame(Set(param, "name", val), "", "name", val);
    }
  }

  /** Writing keywords twice is writing them once exactly when the node's list fits them. */
  lemma KeywordsTwiceIff(n: Node, keywords: seq<Pair>)
    requires Textual(keywords)
    ensures WithKeywords(WithKeywords(n, keywords), keywords) == WithKeywords(n, keywords) <==>
            Fits(n.content, keywords)
  {
    PutAllTwiceIff(n.content, keywords);
    ReadsBackIff(n.content, keywords);
  }

  predicate FieldsOk(fields: map<string, ParamPatch>) {
    forall name :: name in fields ==> Textual(fields[name].keywords)
  }

  /** The schema of a parameter fits the keywords of its field. */
  predicate ParamFits(param: Node, fields: map<string, ParamPatch>) {
    var name, schema := Get(param, "name"), Get(param, "schema");
    name.Some? && schema.Some? && name.value.value in fields ==>
      Fits(schema.value.content, fields[name.value.value].keywords)
  }

  lemma ParamLookup(param: Node, patch: ParamPatch, val: Node)
    requires param.kind == MappingKind && Even(param.content)
    ensures var p := Set(param, "schema", val);
            var q := if patch.required then Set(p, "required", TRUE_NODE) else p;
            && Get(q, "schema") == Some(val) && (patch.required ==> Get(q, "required") == Some(TRUE_NODE))
            && Get(q, "in") == Get(param, "in") && Get(q, "name") == Get(param, "name") && q.kind == MappingKind
            && Even(q.content)
  {
    SetLookup(param, "schema", val);
    var p := Set(param, "schema", val);
    if patch.required { SetLookup(p, "required", TRUE_NODE); }
  }

  lemma ParamTwiceIff(param: Node, fields: map<string, ParamPatch>)
    requires Proper(param) && FieldsOk(fields) && PatchParam(param, fields).Ok?
    ensures var q := PatchParam(param, fields).value;
            && Get(q, "in") == Get(param, "in") && Get(q, "name") == Get(param, "name")
            && (PatchParam(q, fields) == Ok(q) <==> ParamFits(param, fields))
  {
    var name, schema := Get(param, "name"), Get(param, "schema");
    if name.Some? && schema.Some? {
      var patch := fields[name.value.value];
      var val := WithKeywords(schema.value, patch.keywords);
      var again := WithKeywords(val, patch.keywords);
      KeywordsTwiceIff(schema.value, patch.keywords);
      ParamLookup(param, patch, val);
      var q := PatchParam(param, fields).value;
      ParamLookup(q, patch, again);
      if again == val {
        EditsSame(q, "", "schema", val);
        if patch.required { EditsSame(q, "", "required", TRUE_NODE); }
      }
    }
  }

  /** The rules leave the two entries alone that the renaming looks at. */
  lemma RenameAfterRules(q: Node, r: Node, again: map<string, string>)
    requires RenameParam(q, again) == Ok(q) && Get(r, "in") == Get(q, "in") && Get(r, "name") == Get(q, "name")
    ensures RenameParam(r, again) == Ok(r)
  {
    var place, name := Get(q, "in"), Get(q, "name");
    if place.Some? && name.Some? && place.value.value == "path" {
      var val := name.value.(value := again[name.value.value]);
      if Get(q, "name") == Some(val) {
        EditsSame(r, "", "name", val);
      } else {
        PutChanges(q.content, KeyNode("name"), val);
      }
    }
  }

  lemma {:induction false} PutChanges(c: seq<Node>, key: Node, val: Node)
    requires Lookup(c, key.value).Some? && Lookup(c, key.value) != Some(val)
    ensures Put(c, key, val) != c
  {
    LookupPut(c, key, val);
  }

  lemma ParamsLookup(op: Node, f: Node -> Result<Node>)
    requires op.kind == MappingKind && Even(op.content) && PatchParams(op, f).Ok?
    ensures var r := PatchParams(op, f).value;
            && r.kind == MappingKind && Even(r.content)
            && (forall k :: k != "parameters" ==> Get(r, k) == Get(op, k))
            && match Get(op, "parameters")
               case None => r == op
               case Some(ps) =>
                 Each(ps.content, f).Ok? && Get(r, "parameters") == Some(ps.(content := Each(ps.content, f).value))
  {
    if Get(op, "parameters").Some? {
      var ps := Get(op, "parameters").value;
      SetLookup(op, "parameters", ps.(content := Each(ps.content, f).value));
    }
  }

  function Params(op: Node): seq<Node> {
    if Get(op, "parameters").Some? then Get(op, "parameters").value.content else []
  }

  ghost predicate Settled(ps: seq<Node>, f: Node -> Result<Node>) {
    forall i :: 0 <= i < |ps| ==> f(ps[i]) == Ok(ps[i])
  }

  ghost predicate ParamsSettled(op: Node, f: Node -> Result<Node>) {
    Settled(Params(op), f)
  }

  lemma ParamsFixed(op: Node, f: Node -> Result<Node>)
    requires ParamsSettled(op, f)
    ensures PatchParams(op, f) == Ok(op)
  {
    if Get(op, "parameters").Some? {
      var ps := Get(op, "parameters").value;
      EachFixed(ps.content, f);
      EditsSame(op, "", "parameters", ps);
    }
  }

  lemma UnchangedSettled(op: Node, f: Node -> Result<Node>)
    requires op.kind == MappingKind && Even(op.content) && PatchParams(op, f).Ok?
    requires Get(PatchParams(op, f).value, "parameters") == Get(op, "parameters")
    ensures ParamsSettled(op, f)
  {
    ParamsLookup(op, f);
    if Get(op, "parameters").Some? { EachIndex(Get(op, "parameters").value.content, f); }
  }

  // ----------------------------------------------------------------- responses

  lemma MergedReads(c: seq<Node>, rs: seq<Pair>, k: string)
    ensures Lookup(Merged(c, rs), k) == Lookup(PutAll(c, rs), k)
  {
    LookupSorted(PutAll(c, rs), k, CodeRank);
  }

  lemma MergedReadsBack(c: seq<Node>, rs: seq<Pair>)
    requires ReadsBack(c, rs)
    ensures Merged(Merged(c, rs), rs) == Merged(c, rs)
  {
    var r := Merged(c, rs);
    forall k | Last(rs, k).Some? ensures Lookup(r, k) == Last(rs, k) { MergedReads(c, rs, k); }
    PutAllSame(r, rs);
    SortContentFixed(PutAll(c, rs), CodeRank);
  }

  lemma MergedLength(c: seq<Node>, rs: seq<Pair>)
    requires Even(c)
    ensures |Merged(c, rs)| == |PutAll(c, rs)|
  {
    PutAllLength(c, rs);
    SortContentPairs(PutAll(c, rs), CodeRank);
  }

  /**
   * For every list and every batch of responses: the second merge changes nothing exactly when the first one reads
   * back.
   */
  lemma MergedTwiceIff(c: seq<Node>, rs: seq<Pair>)
    ensures Merged(Merged(c, rs), rs) == Merged(c, rs) <==> ReadsBack(c, rs)
  {
    var r := Merged(c, rs);
    if ReadsBack(c, rs) {
      MergedReadsBack(c, rs);
    }
    if Merged(r, rs) == r {
      SortContentEven(PutAll(c, rs), CodeRank);
      MergedLength(r, rs);
      PutAllLength(r, rs);
      FoundKeysReadBack(r, rs);
      forall k | Last(rs, k).Some? ensures Lookup(PutAll(c, rs), k) == Last(rs, k) {
        MergedReads(c, rs, k);
        MergedReads(r, rs, k);
      }
    }
  }

  /** What a merge leaves behind alternates, so from the second merge on nothing changes, whatever the list was. */
  lemma TwoMergesSuffice(c: seq<Node>, rs: seq<Pair>)
    ensures var r := Merged(c, rs); Merged(Merged(r, rs), rs) == Merged(r, rs)
  {
    var r := Merged(c, rs);
    SortContentEven(PutAll(c, rs), CodeRank);
    LookupPutAll(r, rs);
    MergedTwiceIff(r, rs);
  }

  /**
   * A list of one node: the code lands in value position, its response is cut off, and the second run adds it again.
   */
  lemma OddResponsesDrift(x: Node, p: Pair)
    requires x.value != p.key.value && p.val.value != p.key.value
    ensures Merged(Merged([x], [p]), [p]) != Merged([x], [p])
  {
    MergedTwiceIff([x], [p]);
    ReadsBackIff([x], [p]);
    assert [p][0] == p && Lookup([x], p.key.value) == None;
  }

  // ---------------------------------------------------------------- operations

  /** Three entries are written and no other one. */
  ghost predicate OthersKept(op: Node, r: Node) {
    forall k :: k != "summary" && k != "responses" && k != "security" ==> Get(r, k) == Get(op, k)
  }

  function Responses(op: Node): seq<Node> {
    if Get(op, "responses").Some? then Get(op, "responses").value.content else []
  }

  lemma MergeLookup(op: Node, responses: seq<Pair>)
    requires op.kind == MappingKind && Even(op.content)
    ensures var r := MergeResponses(op, responses);
            && r.kind == MappingKind && Even(r.content)
            && Get(r, "responses").Some? && Responses(r) == Merged(Responses(op), responses)
            && forall k :: k != "responses" ==> Get(r, k) == Get(op, k)
  {
    var node := if Get(op, "responses").Some? then Get(op, "responses").value else MapNode([]);
    SetLookup(op, "responses", node.(content := Merged(node.content, responses)));
  }

  lemma SecurityLookup(b: Node)
    requires b.kind == MappingKind && Even(b.content)
    ensures var r := Set(b, "security", SeqNode([]));
            && r.kind == MappingKind && Even(r.content) && Get(r, "security") == Some(SeqNode([]))
            && Get(r, "summary") == Get(b, "summary") && Get(r, "responses") == Get(b, "responses")
            && Get(r, "description") == Get(b, "description")
            && forall k :: k != "security" ==> Get(r, k) == Get(b, k)
  {
    SetLookup(b, "security", SeqNode([]));
  }

  /** What the last part of an operation's patch leaves behind. */
  ghost predicate Finished(op: Node, r: Node, id: string, info: Operation, input: Input) {
    && r.kind == MappingKind && Even(r.content) && OthersKept(op, r)
    && Get(r, "summary") == Some(StrNode(input.summary(Description(r), id)))
    && Get(r, "responses").Some? && Responses(r) == Merged(Responses(op), info.responses)
    && (info.isPublic ==> Get(r, "security") == Some(SeqNode([])))
  }

  lemma FinishLookup(op: Node, id: string, info: Operation, input: Input)
    requires op.kind == MappingKind && Even(op.content)
    ensures Finished(op, FinishOperation(op, id, info, input), id, info, input)
  {
    var summary := StrNode(input.summary(Description(op), id));
    var a := SetAfter(op, "tags", "summary", summary);
    SetAfterLookup(op, "tags", "summary", summary);
    assert Get(a, "responses") == Get(op, "responses") && Get(a, "description") == Get(op, "description");
    var b := MergeResponses(a, info.responses);
    MergeLookup(a, info.responses);
    assert Get(b, "summary") == Some(summary) && Get(b, "description") == Get(op, "description");
    if info.isPublic { SecurityLookup(b); }
  }

  lemma FinishedFixed(op: Node, r: Node, id: string, info: Operation, input: Input)
    requires Finished(op, r, id, info, input) && Merged(Responses(r), info.responses) == Responses(r)
    ensures FinishOperation(r, id, info, input) == r
  {
    EditsSame(r, "tags", "summary", StrNode(input.summary(Description(r), id)));
    EditsSame(r, "", "responses", Get(r, "responses").value);
    if info.isPublic { EditsSame(r, "", "security", SeqNode([])); }
  }

  /** Finishing twice is finishing once exactly when the list of responses fits the codes. */
  lemma FinishTwiceIff(op: Node, id: string, info: Operation, input: Input)
    requires op.kind == MappingKind && Even(op.content) && Textual(info.responses)
    ensures var r := FinishOperation(op, id, info, input);
            FinishOperation(r, id, info, input) == r <==> Fits(Responses(op), info.responses)
  {
    var r := FinishOperation(op, id, info, input);
    FinishLookup(op, id, info, input);
    FinishLookup(r, id, info, input);
    MergedTwiceIff(Responses(op), info.responses);
    ReadsBackIff(Responses(op), info.responses);
    if Fits(Responses(op), info.responses) { FinishedFixed(op, r, id, info, input); }
  }

  predicate ParamsProper(op: Node) {
    forall i :: 0 <= i < |Params(op)| ==> Proper(Params(op)[i])
  }

  /** Renaming all parameters settles them. */
  lemma RenamesSettle(op: Node, renames: map<string, string>, again: map<string, string>)
    requires op.kind == MappingKind && Even(op.content) && ParamsProper(op) && Settles(renames, again)
    requires PatchParams(op, p => RenameParam(p, renames)).Ok?
    ensures var r := PatchParams(op, p => RenameParam(p, renames)).value;
            && r.kind == MappingKind && Even(r.content) && ParamsProper(r)
            && ParamsSettled(r, p => RenameParam(p, again))
            && |Params(r)| == |Params(op)|
            && (forall i :: 0 <= i < |Params(op)| ==> RenameParam(Params(op)[i], renames) == Ok(Params(r)[i]))
            && forall k :: k != "parameters" ==> Get(r, k) == Get(op, k)
  {
    var f := (p: Node) => RenameParam(p, renames);
    ParamsLookup(op, f);
    if Get(op, "parameters").Some? {
      var ps := Get(op, "parameters").value.content;
      EachIndex(ps, f);
      forall i | 0 <= i < |ps| ensures var q := Each(ps, f).value[i]; RenameParam(q, again) == Ok(q) && Proper(q) {
        assert ps[i] == Params(op)[i];
        RenameFixed(ps[i], renames, again);
      }
    }
  }

  predicate AllFit(ps: seq<Node>, fields: map<string, ParamPatch>) {
    forall i :: 0 <= i < |ps| ==> ParamFits(ps[i], fields)
  }

  /** The rules do not undo the renaming, and settle the parameters exactly when all of them fit. */
  lemma RulesSettleIff(op: Node, fields: map<string, ParamPatch>, again: map<string, string>)
    requires op.kind == MappingKind && Even(op.content) && ParamsProper(op) && FieldsOk(fields)
    requires ParamsSettled(op, p => RenameParam(p, again)) && PatchParams(op, p => PatchParam(p, fields)).Ok?
    ensures var r := PatchParams(op, p => PatchParam(p, fields)).value;
            && r.kind == MappingKind && Even(r.content) && ParamsSettled(r, p => RenameParam(p, again))
            && (ParamsSettled(r, p => PatchParam(p, fields)) <==> AllFit(Params(op), fields))
            && forall k :: k != "parameters" ==> Get(r, k) == Get(op, k)
  {
    var f := (p: Node) => PatchParam(p, fields);
    ParamsLookup(op, f);
    if Get(op, "parameters").Some? {
      RuledList(Get(op, "parameters").value.content, fields, again);
    }
  }

  lemma RuledList(ps: seq<Node>, fields: map<string, ParamPatch>, again: map<string, string>)
    requires FieldsOk(fields) && Each(ps, p => PatchParam(p, fields)).Ok?
    requires Settled(ps, p => RenameParam(p, again)) && forall i :: 0 <= i < |ps| ==> Proper(ps[i])
    ensures var qs := Each(ps, p => PatchParam(p, fields)).value;
            Settled(qs, p => RenameParam(p, again)) && (Settled(qs, p => PatchParam(p, fields)) <==> AllFit(ps, fields))
  {
    var f := (p: Node) => PatchParam(p, fields);
    EachIndex(ps, f);
    forall i | 0 <= i < |ps|
      ensures var q := Each(ps, f).value[i];
              RenameParam(q, again) == Ok(q) && (f(q) == Ok(q) <==> ParamFits(ps[i], fields))
    {
      RuledParam(ps[i], fields, again);
    }
  }

  lemma RuledParam(p: Node, fields: map<string, ParamPatch>, again: map<string, string>)
    requires FieldsOk(fields) && Proper(p) && RenameParam(p, again) == Ok(p) && PatchParam(p, fields).Ok?
    ensures var q := PatchParam(p, fields).value;
            RenameParam(q, again) == Ok(q) && (PatchParam(q, fields) == Ok(q) <==> ParamFits(p, fields))
  {
    ParamTwiceIff(p, fields);
    RenameAfterRules(p, PatchParam(p, fields).value, again);
  }

  /** The schemas of the renamed parameters fit their keywords. */
  predicate ParamsFit(op: Node, renames: map<string, string>, info: Operation) {
    info.fields.Some? ==>
      forall i :: 0 <= i < |Params(op)| ==>
        (RenameParam(Params(op)[i], renames).Ok? ==>
         ParamFits(RenameParam(Params(op)[i], renames).value, info.fields.value))
  }

  /** What a caller can check of an operation before the first run. */
  predicate OpFits(op: Node, renames: map<string, string>, input: Input) {
    var id := Get(op, "operationId");
    id.Some? && id.value.value in input.operations ==>
      var info := input.operations[id.value.value];
      Fits(Responses(op), info.responses) && ParamsFit(op, renames, info)
  }

  predicate InfoOk(info: Operation) {
    Textual(info.responses) && (info.fields.Some? ==> FieldsOk(info.fields.value))
  }

  /** As the tool builds them: no response and no keyword has the text of a code or keyword it is written with. */
  predicate OperationsOk(input: Input) {
    forall id :: id in input.operations ==> InfoOk(input.operations[id])
  }

  /** The operation between the parameters and the rest. */
  function RuleParams(a: Node, info: Operation): Result<Node> {
    if info.fields.None? then Ok(a) else PatchParams(a, p => PatchParam(p, info.fields.value))
  }

  ghost predicate RulesSettled(r: Node, info: Operation) {
    info.fields.Some? ==> ParamsSettled(r, p => PatchParam(p, info.fields.value))
  }

  lemma ParamsPatchedIff(op: Node, info: Operation, renames: map<string, string>, again: map<string, string>)
    requires op.kind == MappingKind && Even(op.content) && ParamsProper(op) && InfoOk(info) && Settles(renames, again)
    requires PatchParams(op, p => RenameParam(p, renames)).Ok?
    requires RuleParams(PatchParams(op, p => RenameParam(p, renames)).value, info).Ok?
    ensures var b := RuleParams(PatchParams(op, p => RenameParam(p, renames)).value, info).value;
            && b.kind == MappingKind && Even(b.content) && ParamsSettled(b, p => RenameParam(p, again))
            && (RulesSettled(b, info) <==> ParamsFit(op, renames, info))
            && forall k :: k != "parameters" ==> Get(b, k) == Get(op, k)
  {
    RenamesSettle(op, renames, again);
    var a := PatchParams(op, p => RenameParam(p, renames)).value;
    if info.fields.Some? {
      RulesSettleIff(a, info.fields.value, again);
    }
  }

  /** The next run over a finished operation whose renaming is settled. */
  lemma SecondRun(r: Node, id: string, info: Operation, again: map<string, string>, input: Input)
    requires r.kind == MappingKind && Even(r.content) && ParamsSettled(r, p => RenameParam(p, again))
    requires Get(r, "operationId").Some? && Get(r, "operationId").value.value == id && id in input.operations
    requires info == input.operations[id]
    ensures PatchOperation(r, again, input) == Ok(r) <==>
            RulesSettled(r, info) && FinishOperation(r, id, info, input) == r
  {
    ParamsFixed(r, p => RenameParam(p, again));
    if info.fields.None? {
    } else if ParamsSettled(r, p => PatchParam(p, info.fields.value)) {
      ParamsFixed(r, p => PatchParam(p, info.fields.value));
    } else if PatchParams(r, p => PatchParam(p, info.fields.value)).Ok? {
      UnsettledRun(r, id, info, input);
    }
  }

  lemma UnsettledRun(r: Node, id: string, info: Operation, input: Input)
    requires r.kind == MappingKind && Even(r.content) && info.fields.Some?
    requires !ParamsSettled(r, p => PatchParam(p, info.fields.value))
    requires PatchParams(r, p => PatchParam(p, info.fields.value)).Ok?
    ensures FinishOperation(PatchParams(r, p => PatchParam(p, info.fields.value)).value, id, info, input) != r
  {
    var f := (p: Node) => PatchParam(p, info.fields.value);
    var b := PatchParams(r, f).value;
    ParamsLookup(r, f);
    FinishLookup(b, id, info, input);
    if Get(b, "parameters") == Get(r, "parameters") { UnchangedSettled(r, f); }
  }

  /** A patched operation is left alone under the route's own renames exactly when responses and schemas fit. */
  lemma OperationTwiceIff(op: Node, renames: map<string, string>, again: map<string, string>, input: Input)
    requires Parsed(op) && Settles(renames, again) && OperationsOk(input) && PatchOperation(op, renames, input).Ok?
    ensures var r := PatchOperation(op, renames, input).value;
            PatchOperation(r, again, input) == Ok(r) <==> OpFits(op, renames, input)
  {
    var id := Get(op, "operationId").value.value;
    var info := input.operations[id];
    if Get(op, "parameters").Some? { GetParsed(op, "parameters"); }
    ParamsPatchedIff(op, info, renames, again);
    var b := RuleParams(PatchParams(op, p => RenameParam(p, renames)).value, info).value;
    FinishAfterParams(op, b, id, info, input);
    SecondRun(FinishOperation(b, id, info, input), id, info, again, input);
  }

  /** Finishing leaves the parameters and the identifier alone. */
  lemma FinishAfterParams(op: Node, b: Node, id: string, info: Operation, input: Input)
    requires b.kind == MappingKind && Even(b.content) && Textual(info.responses)
    requires forall k :: k != "parameters" ==> Get(b, k) == Get(op, k)
    ensures var r := FinishOperation(b, id, info, input);
            && r.kind == MappingKind && Even(r.content)
            && Get(r, "parameters") == Get(b, "parameters") && Get(r, "operationId") == Get(op, "operationId")
            && (FinishOperation(r, id, info, input) == r <==> Fits(Responses(op), info.responses))
  {
    assert Get(b, "responses") == Get(op, "responses") && Get(b, "operationId") == Get(op, "operationId");
    FinishLookup(b, id, info, input);
    FinishTwiceIff(b, id, info, input);
  }

  ghost predicate ItemFits(item: Node, renames: map<string, string>, input: Input) {
    AllPairs(item.content, (p: Pair) => OpFits(p.val, renames, input))
  }

  lemma ItemTwiceIff(item: Node, renames: map<string, string>, again: map<string, string>, input: Input)
    requires Parsed(item) && Settles(renames, again) && OperationsOk(input) && PatchItem(item, renames, input).Ok?
    ensures var r := PatchItem(item, renames, input).value;
            PatchItem(r, again, input) == Ok(r) <==> ItemFits(item, renames, input)
  {
    var f := (p: Pair) => PatchMethod(p, renames, input);
    var g := (p: Pair) => PatchMethod(p, again, input);
    var parsed := (p: Pair) => Parsed(p.val);
    var fits := (p: Pair) => OpFits(p.val, renames, input);
    var fixed := (p: Pair) => g(p) == Ok(p);
    PairsParsed(item.content);
    forall p: Pair | parsed(p) && f(p).Ok? ensures fixed(f(p).value) <==> fits(p) {
      OperationTwiceIff(p.val, renames, again, input);
    }
    EachPairMapsIff(item.content, f, parsed, fits, fixed);
    EachPairFixedIff(EachPair(item.content, f).value, g);
  }
}
