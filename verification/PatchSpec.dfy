/** The rewriting of a generated OpenAPI document: what one run of the tool does to the tree. */
module PatchSpec {
  import opened Options
  import opened Decimals
  import opened YamlTree
  import opened YamlSlices
  import opened PathTemplates

  datatype Result<+T> = Ok(value: T) | Err

  // ------------------------------------------------------------------- inputs

  /** The keywords of a request field, and whether its rules force a value. */
  datatype ParamPatch = ParamPatch(keywords: seq<Pair>, required: bool)

  /** An RPC: its request fields by name, the error responses it can answer with, and whether it needs no token. */
  datatype Operation = Operation(fields: Option<map<string, ParamPatch>>, responses: seq<Pair>, isPublic: bool)

  /** The constraints of one message field; elements belong to the items of a list or the values of a map. */
  datatype FieldPatch = FieldPatch(field: string, keywords: seq<Pair>, elements: seq<Pair>, required: bool)

  /** A route registered by hand, with its method in lower case. */
  datatype Manual = Manual(path: string, verb: string, operation: Node)

  datatype Texts = Texts(
    title: Node, description: Node, servers: Node, security: Node, schemes: Node,
    errorName: string, errorSchema: Node, tags: map<string, string>)

  datatype Input = Input(
    routes: seq<string>, operations: map<string, Operation>, messages: map<string, seq<FieldPatch>>,
    manual: seq<Manual>, summary: (Option<string>, string) -> string, texts: Texts)

  const LITERAL := 2

  function StrNode(v: string): Node {
    Node(ScalarKind, v, if '\n' in v then LITERAL else PLAIN, [])
  }

  const TRUE_NODE := Node(ScalarKind, "true", 3, [])

  // --------------------------------------------------------------- traversals

  function Each(ns: seq<Node>, f: Node -> Result<Node>): Result<seq<Node>> {
    if ns == [] then Ok([])
    else match (f(ns[0]), Each(ns[1..], f))
      case (Ok(n), Ok(rest)) => Ok([n] + rest)
      case _ => Err
  }

  /** Applies f to every pair of a content list; a last key without a value is left alone. */
  function EachPair(c: seq<Node>, f: Pair -> Result<Pair>): Result<seq<Node>> {
    if |c| < 2 then Ok(c)
    else match (f(Pair(c[0], c[1])), EachPair(c[2..], f))
      case (Ok(p), Ok(rest)) => Ok([p.key, p.val] + rest)
      case _ => Err
  }

  // --------------------------------------------------------------- parameters

  function RenameParam(param: Node, renames: map<string, string>): Result<Node> {
    var place, name := Get(param, "in"), Get(param, "name");
    if place.None? || name.None? || place.value.value != "path" then Ok(param)
    else if name.value.value !in renames then Err
    else Ok(Set(param, "name", name.value.(value := renames[name.value.value])))
  }

  function WithKeywords(n: Node, keywords: seq<Pair>): Node {
    n.(content := PutAll(n.content, keywords))
  }

  function PatchParam(param: Node, fields: map<string, ParamPatch>): Result<Node> {
    var name, schema := Get(param, "name"), Get(param, "schema");
    if name.None? || schema.None? then Ok(param)
    else if name.value.value !in fields then Err
    else
      var patch := fields[name.value.value];
      var p := Set(param, "schema", WithKeywords(schema.value, patch.keywords));
      Ok(if patch.required then Set(p, "required", TRUE_NODE) else p)
  }

  function PatchParams(op: Node, f: Node -> Result<Node>): Result<Node> {
    match Get(op, "parameters")
    case None => Ok(op)
    case Some(params) =>
      match Each(params.content, f)
      case Ok(ns) => Ok(Set(op, "parameters", params.(content := ns)))
      case Err => Err
  }

  // ---------------------------------------------------------------- responses

  const INT_MAX := 0x7fff_ffff_ffff_ffff
  const NO_CODE := 0x4000_0000

  /** A key that is no 64-bit decimal number sorts like one behind all status codes. */
  function CodeOf(key: string): int {
    var negative := key != "" && key[0] == '-';
    var body := if key != "" && (key[0] == '-' || key[0] == '+') then key[1..] else key;
    if body == "" || Digits(body).None? then NO_CODE
    else
      var magnitude: int := Digits(body).value;
      var n := if negative then -magnitude else magnitude;
      if -INT_MAX - 1 <= n <= INT_MAX then n else NO_CODE
  }

  function CodeRank(key: string): seq<int> {
    [CodeOf(key)]
  }

  function Merged(c: seq<Node>, responses: seq<Pair>): seq<Node> {
    SortContent(PutAll(c, responses), CodeRank)
  }

  function MergeResponses(op: Node, responses: seq<Pair>): Node {
    var present := Get(op, "responses");
    var node := if present.Some? then present.value else MapNode([]);
    Set(op, "responses", node.(content := Merged(node.content, responses)))
  }

  // --------------------------------------------------------------- operations

  function Description(op: Node): Option<string> {
    match Get(op, "description")
    case Some(d) => if d.kind == ScalarKind then Some(d.value) else None
    case None => None
  }

  function PatchOperation(op: Node, renames: map<string, string>, input: Input): Result<Node> {
    var id := Get(op, "operationId");
    if id.None? || id.value.value !in input.operations then Err
    else
      var info := input.operations[id.value.value];
      match PatchParams(op, p => RenameParam(p, renames))
      case Err => Err
      case Ok(renamed) =>
        match if info.fields.None? then Ok(renamed) else PatchParams(renamed, p => PatchParam(p, info.fields.value))
        case Err => Err
        case Ok(ruled) => Ok(FinishOperation(ruled, id.value.value, info, input))
  }

  /** The summary, the error responses and the token exemption. */
  function FinishOperation(op: Node, id: string, info: Operation, input: Input): Node {
    var summed := SetAfter(op, "tags", "summary", StrNode(input.summary(Description(op), id)));
    var merged := MergeResponses(summed, info.responses);
    if info.isPublic then Set(merged, "security", SeqNode([])) else merged
  }

  /** One method of a path with its operation. */
  function PatchMethod(p: Pair, renames: map<string, string>, input: Input): Result<Pair> {
    match PatchOperation(p.val, renames, input)
    case Ok(op) => Ok(Pair(p.key, op))
    case Err => Err
  }

  function PatchItem(item: Node, renames: map<string, string>, input: Input): Result<Node> {
    match EachPair(item.content, (p: Pair) => PatchMethod(p, renames, input))
    case Ok(c) => Ok(item.(content := c))
    case Err => Err
  }

  // -------------------------------------------------------------------- paths

  function ManualItem(m: Manual): Node {
    MapNode([KeyNode(m.verb), m.operation])
  }

  /** The documentation of a path that the code finds in its index: the last one listed. */
  function LastManual(ms: seq<Manual>, path: string): Option<Manual> {
    if ms == [] then None
    else if ms[|ms| - 1].path == path then Some(ms[|ms| - 1])
    else LastManual(ms[..|ms| - 1], path)
  }

  /** The route found under a normal form. */
  function RouteFor(routes: seq<string>, normal: string): Option<string> {
    if routes == [] then None
    else if Normalize(routes[|routes| - 1]) == normal then Some(routes[|routes| - 1])
    else RouteFor(routes[..|routes| - 1], normal)
  }

  function PatchPath(p: Pair, input: Input): Result<Pair> {
    var doc := LastManual(input.manual, p.key.value);
    if doc.Some? then Ok(Pair(p.key, ManualItem(doc.value)))
    else
      match RouteFor(input.routes, Normalize(p.key.value))
      case None => Err
      case Some(route) =>
        match PatchItem(p.val, RenamesOf(p.key.value, route), input)
        case Err => Err
        case Ok(item) => Ok(Pair(p.key.(value := route), item))
  }

  function AddManual(c: seq<Node>, ms: seq<Manual>): seq<Node>
    decreases |ms|
  {
    if ms == [] then c
    else AddManual(if Lookup(c, ms[0].path).Some? then c else c + [KeyNode(ms[0].path), ManualItem(ms[0])], ms[1..])
  }

  /** Routes that differ only by variable names are rejected before anything is edited. */
  function PatchPaths(c: seq<Node>, input: Input): Result<seq<Node>> {
    if Ambiguous(input.routes) then Err
    else
      match EachPair(c, (p: Pair) => PatchPath(p, input))
      case Err => Err
      case Ok(d) => Ok(SortContent(AddManual(d, input.manual), CharRank))
  }

  // ------------------------------------------------------------------ schemas

  /** The keywords of a property and of its element schema. */
  function PatchProperty(prop: Node, patch: FieldPatch): Result<Node> {
    var p := WithKeywords(prop, patch.keywords);
    if patch.elements == [] then Ok(p)
    else if Get(p, "items").Some? then Ok(Set(p, "items", WithKeywords(Get(p, "items").value, patch.elements)))
    else if Get(p, "additionalProperties").Some?
    then Ok(Set(p, "additionalProperties", WithKeywords(Get(p, "additionalProperties").value, patch.elements)))
    else Err
  }

  function PatchProperties(props: Node, patches: seq<FieldPatch>): Result<Node>
    decreases |patches|
  {
    if patches == [] then Ok(props)
    else
      match Get(props, patches[0].field)
      case None => Err
      case Some(prop) =>
        match PatchProperty(prop, patches[0])
        case Err => Err
        case Ok(p) => PatchProperties(Set(props, patches[0].field, p), patches[1..])
  }

  function RequiredNames(patches: seq<FieldPatch>): seq<Node> {
    if patches == [] then []
    else (if patches[0].required then [StrNode(patches[0].field)] else []) + RequiredNames(patches[1..])
  }

  function PatchSchema(schema: Node, patches: seq<FieldPatch>): Result<Node> {
    match Get(schema, "properties")
    case None => Ok(schema)
    case Some(props) =>
      match PatchProperties(props, patches)
      case Err => Err
      case Ok(p) =>
        var s := Set(schema, "properties", p);
        Ok(if RequiredNames(patches) != [] then Set(s, "required", SeqNode(RequiredNames(patches))) else s)
  }

  function PatchNamedSchema(p: Pair, input: Input): Result<Pair> {
    if p.key.value == input.texts.errorName then Ok(p)
    else if p.key.value !in input.messages then Err
    else
      match PatchSchema(p.val, input.messages[p.key.value])
      case Err => Err
      case Ok(s) => Ok(Pair(p.key, s))
  }

  function PatchSchemas(c: seq<Node>, input: Input): Result<seq<Node>> {
    match EachPair(c, (p: Pair) => PatchNamedSchema(p, input))
    case Err => Err
    case Ok(d) => Ok(SortContent(Put(d, KeyNode(input.texts.errorName), input.texts.errorSchema), CharRank))
  }

  // ---------------------------------------------------------------- the whole

  function PatchInfo(info: Node, t: Texts): Node {
    SetAfter(Set(info, "title", t.title), "title", "description", t.description)
  }

  function PatchTag(tag: Node, t: Texts): Node {
    match Get(tag, "name")
    case None => tag
    case Some(name) => if name.value in t.tags then Set(tag, "description", StrNode(t.tags[name.value])) else tag
  }

  function PatchEachTag(tags: seq<Node>, t: Texts): (r: seq<Node>)
    ensures |r| == |tags| && forall i :: 0 <= i < |tags| ==> r[i] == PatchTag(tags[i], t)
  {
    if tags == [] then [] else [PatchTag(tags[0], t)] + PatchEachTag(tags[1..], t)
  }

  function PatchTags(root: Node, t: Texts): Node {
    match Get(root, "tags")
    case None => root
    case Some(tags) =>
      if tags.kind != SequenceKind then root
      else Set(root, "tags", tags.(content := PatchEachTag(tags.content, t)))
  }

  /** The constant blocks of the root: info, servers, security and the security scheme. */
  function PatchHead(root: Node, t: Texts): Result<Node> {
    match Get(root, "info")
    case None => Err
    case Some(info) =>
      var a := Set(root, "info", PatchInfo(info, t));
      var b := SetAfter(a, "info", "servers", t.servers);
      var c := SetAfter(b, "servers", "security", t.security);
      var components := if Get(c, "components").Some? then Get(c, "components").value else MapNode([]);
      Ok(Set(c, "components", SetFirst(components, "securitySchemes", t.schemes)))
  }

  function PatchRootPaths(root: Node, input: Input): Result<Node> {
    match Get(root, "paths")
    case None => Err
    case Some(paths) =>
      if paths.kind != MappingKind then Err
      else match PatchPaths(paths.content, input)
        case Err => Err
        case Ok(c) => Ok(Set(root, "paths", paths.(content := c)))
  }

  function PatchComponents(root: Node, input: Input): Result<Node> {
    match Get(root, "components")
    case None => Err
    case Some(components) =>
      match Get(components, "schemas")
      case None => Err
      case Some(schemas) =>
        if schemas.kind != MappingKind then Err
        else match PatchSchemas(schemas.content, input)
          case Err => Err
          case Ok(c) => Ok(Set(root, "components", Set(components, "schemas", schemas.(content := c))))
  }

  function PatchRoot(root: Node, input: Input): Result<Node> {
    if root.kind != MappingKind then Err
    else
      match PatchHead(root, input.texts)
      case Err => Err
      case Ok(a) =>
        match PatchRootPaths(a, input)
        case Err => Err
        case Ok(b) =>
          match PatchComponents(b, input)
          case Err => Err
          case Ok(c) => Ok(PatchTags(c, input.texts))
  }

  function PatchDocument(doc: Node, input: Input): Result<Node> {
    if doc.kind == DocumentKind && |doc.content| == 1
    then match PatchRoot(doc.content[0], input)
      case Ok(root) => Ok(doc.(content := [root]))
      case Err => Err
    else PatchRoot(doc, input)
  }
}
