/** The loops of the rewriter over a shared content slice, refining the functions on lists. */
module PatchInPlace {
  import opened Options
  import opened YamlTree
  import opened YamlSlices
  import opened PathTemplates
  import opened PatchSpec
  import opened PatchIdempotence

  /** Writes each code, replacing an earlier version, then orders them numerically. */
  method MergeCodes(responses: Content, codes: seq<Pair>, spare: nat)
    requires responses.Valid()
    modifies responses, responses.backing
    ensures responses.Valid() && responses.View() == Merged(old(responses.View()), codes)
  {
    ghost var first := responses.View();
    assert codes[0..] == codes;
    for k := 0 to |codes|
      invariant responses.Valid() && PutAll(first, codes) == PutAll(responses.View(), codes[k..])
      invariant responses.backing == old(responses.backing) || fresh(responses.backing)
    {
      assert codes[k..][1..] == codes[k + 1..];
      responses.Write(codes[k].key, codes[k].val, spare);
    }
    assert codes[|codes|..] == [];
    responses.SortPairs(CodeRank, spare);
  }

  /** The index of the hand-written routes; of two documents of one path the later one stays. */
  method IndexManual(ms: seq<Manual>) returns (index: map<string, Manual>)
    ensures forall path :: (path in index <==> LastManual(ms, path).Some?)
              && (path in index ==> LastManual(ms, path) == Some(index[path]))
  {
    index := map[];
    for i := 0 to |ms|
      invariant forall path :: (path in index <==> LastManual(ms[..i], path).Some?)
                  && (path in index ==> LastManual(ms[..i], path) == Some(index[path]))
    {
      assert ms[..i + 1][..i] == ms[..i];
      index := index[ms[i].path := ms[i]];
    }
    assert ms[..|ms|] == ms;
  }

  lemma IndexAgrees(templates: map<string, string>, routes: seq<string>, normal: string)
    requires Indexes(templates, routes)
    ensures RouteFor(routes, normal) == if normal in templates then Some(templates[normal]) else None
  {
    RouteForIn(routes, normal);
  }

  /** One entry, with the two indexes in place of the searches. */
  method PatchEntry(p: Pair, index: map<string, Manual>, templates: map<string, string>, input: Input)
    returns (r: Result<Pair>)
    requires forall path :: (path in index <==> LastManual(input.manual, path).Some?)
               && (path in index ==> LastManual(input.manual, path) == Some(index[path]))
    requires Indexes(templates, input.routes)
    ensures r == PatchPath(p, input)
  {
    if p.key.value in index {
      return Ok(Pair(p.key, ManualItem(index[p.key.value])));
    }
    var normal := NormalizePathTemplate(p.key.value);
    IndexAgrees(templates, input.routes, normal);
    if normal !in templates {
      return Err;
    }
    var renames := PathRenames(p.key.value, templates[normal]);
    match PatchItem(p.val, renames, input) {
      case Err => return Err;
      case Ok(item) => return Ok(Pair(p.key.(value := templates[normal]), item));
    }
  }

  /** How far the first loop has come: everything before i is done, everything behind it is as it was. */
  ghost predicate Progress(first: seq<Node>, now: seq<Node>, i: nat, f: Pair -> Result<Pair>) {
    && i <= |now| == |first| && now[i..] == first[i..]
    && EachPair(first, f) == match EachPair(first[i..], f) case Ok(rest) => Ok(now[..i] + rest) case Err => Err
  }

  lemma ProgressStep(first: seq<Node>, now: seq<Node>, i: nat, f: Pair -> Result<Pair>, p: Pair)
    requires Progress(first, now, i, f) && i + 1 < |now| && f(Pair(now[i], now[i + 1])) == Ok(p)
    ensures Progress(first, now[i := p.key][i + 1 := p.val], i + 2, f)
  {
    var next := now[i := p.key][i + 1 := p.val];
    var d := first[i..];
    assert d[0] == now[i] && d[1] == now[i + 1] && d[2..] == first[i + 2..];
    assert next[..i + 2] == now[..i] + [p.key, p.val];
    assert next[i + 2..] == now[i + 2..] == first[i + 2..];
    if EachPair(d[2..], f).Ok? {
      var rest := EachPair(d[2..], f).value;
      assert now[..i] + ([p.key, p.val] + rest) == next[..i + 2] + rest;
    }
  }

  lemma ProgressStops(first: seq<Node>, now: seq<Node>, i: nat, f: Pair -> Result<Pair>)
    requires Progress(first, now, i, f) && i + 1 < |now| && f(Pair(now[i], now[i + 1])).Err?
    ensures EachPair(first, f).Err?
  {
    var d := first[i..];
    assert d[0] == now[i] && d[1] == now[i + 1];
  }

  lemma ProgressStarts(first: seq<Node>, f: Pair -> Result<Pair>)
    ensures Progress(first, first, 0, f)
  {
    assert first[0..] == first;
    assert EachPair(first, f).Ok? ==> EachPair(first, f).value == first[..0] + EachPair(first, f).value;
  }

  lemma ProgressEnds(first: seq<Node>, now: seq<Node>, i: nat, f: Pair -> Result<Pair>)
    requires Progress(first, now, i, f) && i + 1 >= |now|
    ensures EachPair(first, f) == Ok(now)
  {
    assert EachPair(first[i..], f) == Ok(first[i..]);
    assert now[..i] + first[i..] == now;
  }

  /** Renames and patches every entry where it stands. */
  method PatchEntries(paths: Content, templates: map<string, string>, input: Input) returns (ok: bool)
    requires paths.Valid() && Indexes(templates, input.routes)
    modifies paths.backing
    ensures paths.Valid() && ok == EachPair(old(paths.View()), (p: Pair) => PatchPath(p, input)).Ok?
    ensures ok ==> paths.View() == EachPair(old(paths.View()), (p: Pair) => PatchPath(p, input)).value
  {
    ghost var first, f := paths.View(), (p: Pair) => PatchPath(p, input);
    var index := IndexManual(input.manual);
    var i := 0;
    ProgressStarts(first, f);
    while i + 1 < paths.len
      invariant paths.Valid() && Progress(first, paths.View(), i, f)
      modifies paths.backing
    {
      var r := PatchEntry(Pair(paths.backing[i], paths.backing[i + 1]), index, templates, input);
      if r.Err? {
        ProgressStops(first, paths.View(), i, f);
        return false;
      }
      ProgressStep(first, paths.View(), i, f, r.value);
      ghost var before := paths.View();
      paths.backing[i] := r.value.key;
      paths.backing[i + 1] := r.value.val;
      assert paths.View() == before[i := r.value.key][i + 1 := r.value.val];
      i := i + 2;
    }
    ProgressEnds(first, paths.View(), i, f);
    return true;
  }

  /** Appends the documents of the routes that are missing. */
  method AddMissing(paths: Content, ms: seq<Manual>, spare: nat)
    requires paths.Valid()
    modifies paths, paths.backing
    ensures paths.Valid() && paths.View() == AddManual(old(paths.View()), ms)
    ensures paths.backing == old(paths.backing) || fresh(paths.backing)
  {
    ghost var first := paths.View();
    assert ms[0..] == ms;
    for k := 0 to |ms|
      invariant paths.Valid() && AddManual(first, ms) == AddManual(paths.View(), ms[k..])
      invariant paths.backing == old(paths.backing) || fresh(paths.backing)
    {
      assert ms[k..][1..] == ms[k + 1..];
      var i := paths.Find(ms[k].path);
      KeyIndexLookup(paths.View(), ms[k].path);
      if i == paths.len {
        assert paths.View()[..paths.len] == paths.View();
        paths.AppendAt(paths.len, [KeyNode(ms[k].path), ManualItem(ms[k])], spare);
      }
    }
    assert ms[|ms|..] == [];
  }

  /** The whole step over the paths, in place: it fails or leaves exactly the patched, completed and sorted list. */
  method RewritePaths(paths: Content, input: Input, spare: nat) returns (ok: bool)
    requires paths.Valid()
    modifies paths, paths.backing
    ensures paths.Valid() && ok == PatchPaths(old(paths.View()), input).Ok?
    ensures ok ==> paths.View() == PatchPaths(old(paths.View()), input).value
  {
    var templates := BuildTemplates(input.routes);
    if templates.None? {
      return false;
    }
    ok := PatchEntries(paths, templates.value, input);
    if ok {
      AddMissing(paths, input.manual, spare);
      paths.SortPairs(CharRank, spare);
    }
  }
}
