/** Path templates such as /v1/posts/{post_id}: variables, normal forms and renaming. */
module PathTemplates {
  import opened Options

  // ------------------------------------------------------------ specification

  /** The first position of c at or after i, or the length. */
  function IndexFrom(s: string, c: char, i: nat): (r: nat)
    requires i <= |s|
    ensures i <= r <= |s|
    ensures r < |s| ==> s[r] == c
    ensures forall k :: i <= k < r ==> s[k] != c
    decreases |s| - i
  {
    if i == |s| || s[i] == c then i else IndexFrom(s, c, i + 1)
  }

  function Start(path: string): (r: nat)
    ensures r <= |path|
  {
    IndexFrom(path, '{', 0)
  }

  function End(path: string): (r: nat)
    ensures Start(path) <= r <= |path|
  {
    IndexFrom(path, '}', Start(path))
  }

  /** Whether an opening brace is closed later on. */
  predicate HasVariable(path: string) {
    End(path) < |path|
  }

  function Name(path: string): string
    requires HasVariable(path)
  {
    path[Start(path) + 1..End(path)]
  }

  function Rest(path: string): string
    requires HasVariable(path)
  {
    path[End(path) + 1..]
  }

  function Variables(path: string): seq<string>
    decreases |path|
  {
    if HasVariable(path) then [Name(path)] + Variables(Rest(path)) else []
  }

  /** Every variable replaced by an empty pair of braces. */
  function Normalize(path: string): string
    decreases |path|
  {
    if HasVariable(path) then path[..Start(path)] + "{}" + Normalize(Rest(path)) else path
  }

  /** Every variable replaced by its image. */
  function Substitute(path: string, names: map<string, string>): string
    decreases |path|
  {
    if HasVariable(path)
    then path[..Start(path)] + "{" + (if Name(path) in names then names[Name(path)] else Name(path)) + "}" +
      Substitute(Rest(path), names)
    else path
  }

  /** The first n variables of one template mapped to those of another; a repeated variable keeps its last image. */
  function Renames(from: seq<string>, to: seq<string>, n: nat): map<string, string>
    requires n <= |from| && n <= |to|
  {
    if n == 0 then map[] else Renames(from, to, n - 1)[from[n - 1] := to[n - 1]]
  }

  /** The renames that the code builds; it stops at the shorter list. */
  function RenamesOf(generated: string, route: string): map<string, string> {
    var from, to := Variables(generated), Variables(route);
    Renames(from, to, if |from| <= |to| then |from| else |to|)
  }

  // -------------------------------------------------------------------- proofs

  lemma IndexUnique(s: string, c: char, i: nat, r: nat)
    requires i <= r <= |s| && (r < |s| ==> s[r] == c) && forall k :: i <= k < r ==> s[k] != c
    ensures IndexFrom(s, c, i) == r
  {
  }

  /** A plain prefix, a name without a closing brace and any tail parse as they were put together. */
  lemma Assembled(pre: string, name: string, tail: string)
    requires '{' !in pre && '}' !in name
    ensures var p := pre + "{" + name + "}" + tail;
            HasVariable(p) && Start(p) == |pre| && p[..Start(p)] == pre && Name(p) == name && Rest(p) == tail
  {
    var p := pre + "{" + name + "}" + tail;
    assert p[|pre|] == '{' && p[|pre| + 1 + |name|] == '}';
    assert forall k :: 0 <= k < |pre| ==> p[k] == pre[k];
    IndexUnique(p, '{', 0, |pre|);
    assert forall k :: |pre| + 1 <= k < |pre| + 1 + |name| ==> p[k] == name[k - |pre| - 1];
    IndexUnique(p, '}', |pre|, |pre| + 1 + |name|);
    assert p[|pre| + 1..|pre| + 1 + |name|] == name;
    assert p[|pre| + 1 + |name| + 1..] == tail;
  }

  lemma Disassembled(p: string)
    requires HasVariable(p)
    ensures '{' !in p[..Start(p)] && '}' !in Name(p)
    ensures p == p[..Start(p)] + "{" + Name(p) + "}" + Rest(p)
  {
    assert p[Start(p)] == '{' by {
      assert Start(p) <= End(p) < |p|;
    }
    assert Start(p) < End(p);
  }

  lemma NormalizeShape(p: string)
    requires HasVariable(p)
    ensures var n := Normalize(p);
            HasVariable(n) && Start(n) == Start(p) && n[..Start(n)] == p[..Start(p)] && Name(n) == ""
              && Rest(n) == Normalize(Rest(p))
  {
    Disassembled(p);
    Assembled(p[..Start(p)], "", Normalize(Rest(p)));
    assert p[..Start(p)] + "{" + "" + "}" + Normalize(Rest(p)) == Normalize(p);
  }

  lemma {:induction false} NormalizeIdempotent(p: string)
    ensures Normalize(Normalize(p)) == Normalize(p)
    decreases |p|
  {
    if HasVariable(p) {
      NormalizeShape(p);
      NormalizeIdempotent(Rest(p));
    }
  }

  /** Templates with the same normal form agree on their first variable and on what follows. */
  lemma SameNormalStep(g: string, r: string)
    requires Normalize(g) == Normalize(r)
    ensures HasVariable(g) <==> HasVariable(r)
    ensures HasVariable(g) ==> g[..Start(g)] == r[..Start(r)] && Normalize(Rest(g)) == Normalize(Rest(r))
    ensures !HasVariable(g) ==> g == r
  {
    if HasVariable(g) { NormalizeShape(g); }
    if HasVariable(r) { NormalizeShape(r); }
  }

  /** Equal normal forms have equally many variables. */
  lemma {:induction false} SameNormalSameCount(g: string, r: string)
    requires Normalize(g) == Normalize(r)
    ensures |Variables(g)| == |Variables(r)|
    decreases |g|
  {
    SameNormalStep(g, r);
    if HasVariable(g) {
      SameNormalSameCount(Rest(g), Rest(r));
    }
  }

  /** A substitution turns one template into the other exactly when it agrees with them position by position. */
  lemma {:induction false} SubstituteIff(g: string, r: string, names: map<string, string>)
    requires Normalize(g) == Normalize(r) && |Variables(g)| == |Variables(r)|
    requires forall k :: 0 <= k < |Variables(g)| ==> Variables(g)[k] in names && '}' !in names[Variables(g)[k]]
    ensures Substitute(g, names) == r <==>
            forall k :: 0 <= k < |Variables(g)| ==> names[Variables(g)[k]] == Variables(r)[k]
    decreases |g|
  {
    SameNormalStep(g, r);
    if HasVariable(g) {
      var vg, vr := Variables(g), Variables(r);
      assert vg == [Name(g)] + Variables(Rest(g)) && vr == [Name(r)] + Variables(Rest(r));
      assert vg[0] == Name(g) && vr[0] == Name(r) && Variables(Rest(g)) == vg[1..] && Variables(Rest(r)) == vr[1..];
      SubstituteIff(Rest(g), Rest(r), names);
      SubstituteHead(g, r, names);
      HeadAndTail(vg, vr, names);
    }
  }

  lemma HeadAndTail(from: seq<string>, to: seq<string>, names: map<string, string>)
    requires |from| == |to| > 0 && forall k :: 0 <= k < |from| ==> from[k] in names
    ensures (forall k :: 0 <= k < |from| ==> names[from[k]] == to[k]) <==>
            names[from[0]] == to[0] && forall k :: 0 <= k < |from[1..]| ==> names[from[1..][k]] == to[1..][k]
  {
    assert forall k :: 1 <= k < |from| ==> from[k] == from[1..][k - 1] && to[k] == to[1..][k - 1];
  }

  lemma SubstituteHead(g: string, r: string, names: map<string, string>)
    requires HasVariable(g) && HasVariable(r) && g[..Start(g)] == r[..Start(r)] && Name(g) in names
    requires '}' !in names[Name(g)]
    ensures Substitute(g, names) == r <==> names[Name(g)] == Name(r) && Substitute(Rest(g), names) == Rest(r)
  {
    Disassembled(g);
    Disassembled(r);
    Assembled(g[..Start(g)], names[Name(g)], Substitute(Rest(g), names));
  }

  lemma {:induction false} VariablesClosed(p: string)
    ensures forall k :: 0 <= k < |Variables(p)| ==> '}' !in Variables(p)[k]
    decreases |p|
  {
    if HasVariable(p) {
      Disassembled(p);
      VariablesClosed(Rest(p));
    }
  }

  lemma {:induction false} RenamesLookup(from: seq<string>, to: seq<string>, n: nat)
    requires n <= |from| && n <= |to|
    ensures forall k :: 0 <= k < n ==> from[k] in Renames(from, to, n)
    ensures forall v :: v in Renames(from, to, n) ==>
              exists k :: 0 <= k < n && from[k] == v && to[k] == Renames(from, to, n)[v]
  {
    if n > 0 {
      RenamesLookup(from, to, n - 1);
      forall v | v in Renames(from, to, n)
        ensures exists k :: 0 <= k < n && from[k] == v && to[k] == Renames(from, to, n)[v]
      {
        if v == from[n - 1] {
          assert to[n - 1] == Renames(from, to, n)[v];
        } else {
          var k :| 0 <= k < n - 1 && from[k] == v && to[k] == Renames(from, to, n - 1)[v];
        }
      }
    }
  }

  /** Every repetition of a variable in one template meets a repetition in the other. */
  predicate Consistent(from: seq<string>, to: seq<string>)
    requires |from| == |to|
  {
    forall i, j :: 0 <= i < |from| && 0 <= j < |from| && from[i] == from[j] ==> to[i] == to[j]
  }

  lemma RenamesAgreeIff(from: seq<string>, to: seq<string>)
    requires |from| == |to|
    ensures var m := Renames(from, to, |from|);
            && (forall k :: 0 <= k < |from| ==> from[k] in m)
            && ((forall k :: 0 <= k < |from| ==> m[from[k]] == to[k]) <==> Consistent(from, to))
  {
    var m := Renames(from, to, |from|);
    RenamesLookup(from, to, |from|);
    if Consistent(from, to) {
      forall k | 0 <= k < |from| ensures m[from[k]] == to[k] {
        var j :| 0 <= j < |from| && from[j] == from[k] && to[j] == m[from[k]];
      }
    }
  }

  /**
   * Renaming a generated template's variables gives the route's template, character for character, exactly when
   * equal variables of the one stand for equal variables of the other; in particular when they are all distinct.
   */
  lemma RenamingGivesRouteIff(g: string, r: string)
    requires Normalize(g) == Normalize(r)
    ensures |Variables(g)| == |Variables(r)|
    ensures Substitute(g, RenamesOf(g, r)) == r <==> Consistent(Variables(g), Variables(r))
  {
    SameNormalSameCount(g, r);
    var vg, vr := Variables(g), Variables(r);
    var m := Renames(vg, vr, |vg|);
    RenamesAgreeIff(vg, vr);
    RenamesLookup(vg, vr, |vg|);
    VariablesClosed(r);
    forall k | 0 <= k < |vg| ensures '}' !in m[vg[k]] {
      var j :| 0 <= j < |vg| && vg[j] == vg[k] && vr[j] == m[vg[k]];
    }
    SubstituteIff(g, r, m);
  }

  lemma DistinctIsConsistent(from: seq<string>, to: seq<string>)
    requires |from| == |to| && forall i, j :: 0 <= i < j < |from| ==> from[i] != from[j]
    ensures Consistent(from, to)
  {
  }

  /** Renaming a route's template to itself renames nothing. */
  lemma {:induction false} RenamesSelf(vs: seq<string>, n: nat)
    requires n <= |vs|
    ensures forall v :: v in Renames(vs, vs, n) ==> Renames(vs, vs, n)[v] == v
  {
    if n > 0 { RenamesSelf(vs, n - 1); }
  }

  lemma OneVariable(name: string, rest: string)
    requires '{' !in name && '}' !in name
    ensures var path := "{" + name + "}" + rest;
            Variables(path) == [name] + Variables(rest) && Normalize(path) == "{}" + Normalize(rest)
  {
    Assembled("", name, rest);
    assert "" + "{" + name + "}" + rest == "{" + name + "}" + rest;
  }

  lemma TwoVariables(first: string, second: string)
    requires '{' !in first && '}' !in first && '{' !in second && '}' !in second
    ensures var path := "{" + first + "}" + ("{" + second + "}");
            Variables(path) == [first, second] && Normalize(path) == "{}" + ("{}" + "")
  {
    assert Variables("") == [] && Normalize("") == "";
    OneVariable(second, "");
    assert "{" + second + "}" + "" == "{" + second + "}";
    OneVariable(first, "{" + second + "}");
  }

  /** A template that repeats a variable where the route has two loses one of the route's names. */
  lemma RepeatedVariableLosesName(a: string, x: string, y: string)
    requires '{' !in a && '}' !in a && '{' !in x && '}' !in x && '{' !in y && '}' !in y && x != y
    ensures var g, r := "{" + a + "}" + ("{" + a + "}"), "{" + x + "}" + ("{" + y + "}");
            Normalize(g) == Normalize(r) && Substitute(g, RenamesOf(g, r)) != r
  {
    var g, r := "{" + a + "}" + ("{" + a + "}"), "{" + x + "}" + ("{" + y + "}");
    TwoVariables(a, a);
    TwoVariables(x, y);
    RenamingGivesRouteIff(g, r);
    assert Variables(g)[0] == Variables(g)[1] && Variables(r)[0] != Variables(r)[1];
  }

  // ----------------------------------------------------------- the scanning code

  method FindVariables(path: string) returns (out: seq<string>)
    ensures out == Variables(path)
  {
    out := [];
    var rest := path;
    while true
      invariant Variables(path) == out + Variables(rest)
      decreases |rest|
    {
      if !HasVariable(rest) {
        return;
      }
      Disassembled(rest);
      out := out + [Name(rest)];
      rest := Rest(rest);
    }
  }

  method NormalizePathTemplate(path: string) returns (out: string)
    ensures out == Normalize(path)
  {
    out := "";
    var rest := path;
    while true
      invariant Normalize(path) == out + Normalize(rest)
      decreases |rest|
    {
      if !HasVariable(rest) {
        out := out + rest;
        return;
      }
      Disassembled(rest);
      ghost var head, tail := rest[..Start(rest)] + "{}", Normalize(Rest(rest));
      assert out + (head + tail) == (out + head) + tail;
      out := out + (rest[..Start(rest)] + "{}");
      rest := Rest(rest);
    }
  }

  method PathRenames(generated: string, route: string) returns (renames: map<string, string>)
    ensures renames == RenamesOf(generated, route)
  {
    var from := FindVariables(generated);
    var to := FindVariables(route);
    renames := map[];
    var i := 0;
    while i < |from|
      invariant i <= |from| && i <= |to| && renames == Renames(from, to, i)
    {
      if i >= |to| {
        break;
      }
      renames := renames[from[i] := to[i]];
      i := i + 1;
    }
  }

  /** Every route is found under its normal form; routes that differ only by variable names are rejected. */
  ghost predicate Indexes(templates: map<string, string>, routes: seq<string>) {
    && (forall i :: 0 <= i < |routes| ==>
        Normalize(routes[i]) in templates && templates[Normalize(routes[i])] == routes[i])
    && (forall n :: n in templates ==> templates[n] in routes && Normalize(templates[n]) == n)
  }

  predicate Ambiguous(routes: seq<string>) {
    exists i, j :: 0 <= i < |routes| && 0 <= j < |routes| && routes[i] != routes[j]
      && Normalize(routes[i]) == Normalize(routes[j])
  }

  method BuildTemplates(routes: seq<string>) returns (templates: Option<map<string, string>>)
    ensures templates.None? <==> Ambiguous(routes)
    ensures templates.Some? ==> Indexes(templates.value, routes)
  {
    var out: map<string, string> := map[];
    for i := 0 to |routes|
      invariant Indexes(out, routes[..i])
    {
      var key := NormalizePathTemplate(routes[i]);
      if key in out && out[key] != routes[i] {
        var j :| 0 <= j < i && routes[j] == out[key];
        assert Normalize(routes[j]) == Normalize(routes[i]);
        return None;
      }
      ghost var before := out;
      out := out[key := routes[i]];
      assert routes[..i + 1] == routes[..i] + [routes[i]];
    }
    assert routes[..|routes|] == routes;
    return Some(out);
  }
}
