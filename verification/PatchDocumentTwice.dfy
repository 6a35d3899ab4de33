/** The second run of the tool on a whole document. */
module PatchDocumentTwice {
  import opened Options
  import opened YamlTree
  import opened PatchSpec
  import opened PatchTheorems
  import opened PatchIdempotence

  // ------------------------------------------------------------------ the head

  /** The constant entries are in place, whatever the info block is like. */
  ghost predicate HeadDone(r: Node, t: Texts) {
    && r.kind == MappingKind && Even(r.content) && Get(r, "info").Some?
    && Get(r, "servers") == Some(t.servers) && Get(r, "security") == Some(t.security)
    && Get(r, "components").Some? && Get(Get(r, "components").value, "securitySchemes") == Some(t.schemes)
  }

  lemma HeadFixed(r: Node, t: Texts)
    requires HeadDone(r, t) && PatchInfo(Get(r, "info").value, t) == Get(r, "info").value
    ensures PatchHead(r, t) == Ok(r)
  {
    EditsSame(r, "", "info", Get(r, "info").value);
    HeadRestored(r, Get(r, "info").value, t);
  }

  /** With the info block put back as it was, the head writes what it wrote before. */
  lemma HeadRestored(r: Node, info: Node, t: Texts)
    requires HeadDone(r, t) && Get(r, "info") == Some(PatchInfo(info, t))
    ensures PatchHead(Set(r, "info", info), t) == Ok(r)
  {
    SetLookup(r, "info", info);
    PutPut(r.content, KeyNode("info"), info, PatchInfo(info, t));
    EditsSame(r, "", "info", PatchInfo(info, t));
    EditsSame(r, "info", "servers", t.servers);
    EditsSame(r, "servers", "security", t.security);
    EditsSame(Get(r, "components").value, "", "securitySchemes", t.schemes);
    EditsSame(r, "", "components", Get(r, "components").value);
  }

  /** The head writes four entries of the root and one of the components. */
  lemma HeadLookup(root: Node, t: Texts)
    requires root.kind == MappingKind && Even(root.content) && PatchHead(root, t).Ok?
    ensures var r := PatchHead(root, t).value;
            && r.kind == MappingKind && Even(r.content)
            && Get(r, "info") == Some(PatchInfo(Get(root, "info").value, t))
            && Get(r, "servers") == Some(t.servers) && Get(r, "security") == Some(t.security)
            && Get(r, "paths") == Get(root, "paths") && Get(r, "tags") == Get(root, "tags")
            && Get(r, "components") == Some(SetFirst(if Get(root, "components").Some? then Get(root, "components").value
                                                     else MapNode([]), "securitySchemes", t.schemes))
  {
    var info := PatchInfo(Get(root, "info").value, t);
    var a := Set(root, "info", info);
    SetLookup(root, "info", info);
    var b := SetAfter(a, "info", "servers", t.servers);
    SetAfterLookup(a, "info", "servers", t.servers);
    assert Get(b, "info") == Some(info) && Get(b, "paths") == Get(root, "paths") && Get(b, "tags") == Get(root, "tags");
    assert Get(b, "components") == Get(root, "components");
    var c := SetAfter(b, "servers", "security", t.security);
    SetAfterLookup(b, "servers", "security", t.security);
    assert Get(c, "info") == Some(info) && Get(c, "servers") == Some(t.servers);
    assert Get(c, "components") == Get(root, "components");
    SecondHalf(c, t);
  }

  lemma SecondHalf(c: Node, t: Texts)
    requires c.kind == MappingKind && Even(c.content)
    ensures var components := if Get(c, "components").Some? then Get(c, "components").value else MapNode([]);
            var r := Set(c, "components", SetFirst(components, "securitySchemes", t.schemes));
            && r.kind == MappingKind && Even(r.content)
            && Get(r, "components") == Some(SetFirst(components, "securitySchemes", t.schemes))
            && forall k :: k != "components" ==> Get(r, k) == Get(c, k)
  {
    var components := if Get(c, "components").Some? then Get(c, "components").value else MapNode([]);
    SetLookup(c, "components", SetFirst(components, "securitySchemes", t.schemes));
  }

  /** Patching the info block twice is patching it once exactly when it is a mapping; anything else grows. */
  lemma InfoIdempotentIff(info: Node, t: Texts)
    requires Proper(info)
    ensures PatchInfo(PatchInfo(info, t), t) == PatchInfo(info, t) <==> info.kind == MappingKind
  {
    var a := Set(info, "title", t.title);
    if info.kind == MappingKind {
      SetLookup(info, "title", t.title);
      SetAfterLookup(a, "title", "description", t.description);
      var r := PatchInfo(info, t);
      EditsSame(r, "", "title", t.title);
      EditsSame(r, "title", "description", t.description);
    } else {
      var r := PatchInfo(info, t);
      PutGrows(r.content, KeyNode("title"), t.title);
      InsertLength(Set(r, "title", t.title).content, "title", KeyNode("description"), t.description);
    }
  }

  lemma {:induction false} PutGrows(c: seq<Node>, key: Node, val: Node)
    ensures |Put(c, key, val)| >= |c|
  {
    if |c| >= 2 && c[0].value != key.value { PutGrows(c[2..], key, val); }
  }

  // ------------------------------------------------------------------ the body

  /** Everything behind the head is as the next run would leave it. */
  ghost predicate BodyDone(r: Node, input: Input) {
    && Get(r, "paths").Some? && Get(r, "paths").value.kind == MappingKind
    && PatchPaths(Get(r, "paths").value.content, input) == Ok(Get(r, "paths").value.content)
    && Get(r, "components").Some? && SchemasDone(Get(r, "components").value, input)
    && TagsDone(r, input.texts)
  }

  ghost predicate SchemasDone(components: Node, input: Input) {
    && Get(components, "schemas").Some? && Get(components, "schemas").value.kind == MappingKind
    && PatchSchemas(Get(components, "schemas").value.content, input) == Ok(Get(components, "schemas").value.content)
  }

  ghost predicate TagsDone(r: Node, t: Texts) {
    Get(r, "tags").Some? && Get(r, "tags").value.kind == SequenceKind ==>
      forall i :: 0 <= i < |Get(r, "tags").value.content| ==>
        PatchTag(Get(r, "tags").value.content[i], t) == Get(r, "tags").value.content[i]
  }

  lemma BodyFixed(r: Node, input: Input)
    requires BodyDone(r, input)
    ensures PatchRootPaths(r, input) == Ok(r) && PatchComponents(r, input) == Ok(r) && PatchTags(r, input.texts) == r
  {
    EditsSame(r, "", "paths", Get(r, "paths").value);
    var components := Get(r, "components").value;
    EditsSame(components, "", "schemas", Get(components, "schemas").value);
    EditsSame(r, "", "components", components);
    if Get(r, "tags").Some? && Get(r, "tags").value.kind == SequenceKind {
      var tags := Get(r, "tags").value;
      assert PatchEachTag(tags.content, input.texts) == tags.content;
      EditsSame(r, "", "tags", tags);
    }
  }

  lemma TagFixed(tag: Node, t: Texts)
    requires Proper(tag)
    ensures PatchTag(PatchTag(tag, t), t) == PatchTag(tag, t)
  {
    if Get(tag, "name").Some? && Get(tag, "name").value.value in t.tags {
      var val := StrNode(t.tags[Get(tag, "name").value.value]);
      SetLookup(tag, "description", val);
      EditsSame(Set(tag, "description", val), "", "description", val);
    }
  }

  /** Tags are the last entry written; only they change. */
  lemma TagsFrame(r: Node, t: Texts)
    requires r.kind == MappingKind && Even(r.content)
    ensures var q := PatchTags(r, t);
            && q.kind == MappingKind && Even(q.content) && (forall k :: k != "tags" ==> Get(q, k) == Get(r, k))
            && Get(q, "tags") == match Get(r, "tags")
                                 case None => None
                                 case Some(tags) =>
                                   if tags.kind == SequenceKind
                                   then Some(tags.(content := PatchEachTag(tags.content, t))) else Some(tags)
  {
    if Get(r, "tags").Some? && Get(r, "tags").value.kind == SequenceKind {
      var tags := Get(r, "tags").value;
      SetLookup(r, "tags", tags.(content := PatchEachTag(tags.content, t)));
    }
  }

  lemma TagsSettle(r: Node, t: Texts)
    requires r.kind == MappingKind && Even(r.content)
    requires Get(r, "tags").Some? ==> forall n :: n in Get(r, "tags").value.content ==> Proper(n)
    ensures TagsDone(PatchTags(r, t), t)
  {
    TagsFrame(r, t);
    if Get(r, "tags").Some? && Get(r, "tags").value.kind == SequenceKind {
      var tags := Get(r, "tags").value.content;
      forall i | 0 <= i < |tags| ensures PatchTag(PatchEachTag(tags, t)[i], t) == PatchEachTag(tags, t)[i] {
        assert tags[i] in tags;
        TagFixed(tags[i], t);
      }
    }
  }

  // ------------------------------------------------------- what a run passes on

  lemma PathsFrame(a: Node, input: Input)
    requires a.kind == MappingKind && Even(a.content) && PatchRootPaths(a, input).Ok?
    ensures var b := PatchRootPaths(a, input).value;
            && b.kind == MappingKind && Even(b.content) && (forall k :: k != "paths" ==> Get(b, k) == Get(a, k))
            && PatchPaths(Get(a, "paths").value.content, input).Ok?
            && Get(b, "paths") ==
                 Some(Get(a, "paths").value.(content := PatchPaths(Get(a, "paths").value.content, input).value))
  {
    var paths := Get(a, "paths").value;
    SetLookup(a, "paths", paths.(content := PatchPaths(paths.content, input).value));
  }

  /** The components with their patched schemas. */
  function WithSchemas(components: Node, input: Input): Node
    requires Get(components, "schemas").Some? && PatchSchemas(Get(components, "schemas").value.content, input).Ok?
  {
    var schemas := Get(components, "schemas").value;
    Set(components, "schemas", schemas.(content := PatchSchemas(schemas.content, input).value))
  }

  lemma ComponentsFrame(b: Node, input: Input)
    requires b.kind == MappingKind && Even(b.content) && PatchComponents(b, input).Ok?
    ensures var c := PatchComponents(b, input).value;
            && c.kind == MappingKind && Even(c.content) && (forall k :: k != "components" ==> Get(c, k) == Get(b, k))
            && Get(b, "components").Some? && Get(Get(b, "components").value, "schemas").Some?
            && Get(Get(b, "components").value, "schemas").value.kind == MappingKind
            && PatchSchemas(Get(Get(b, "components").value, "schemas").value.content, input).Ok?
            && Get(c, "components") == Some(WithSchemas(Get(b, "components").value, input))
  {
    SetLookup(b, "components", WithSchemas(Get(b, "components").value, input));
  }

  /** The patched schemas stand beside everything else of the components. */
  lemma SchemasBeside(components: Node, input: Input)
    requires components.kind == MappingKind && Even(components.content)
    requires Get(components, "schemas").Some? && PatchSchemas(Get(components, "schemas").value.content, input).Ok?
    ensures var d, schemas := WithSchemas(components, input), Get(components, "schemas").value;
            && Proper(d) && Get(d, "schemas") == Some(schemas.(content := PatchSchemas(schemas.content, input).value))
            && Get(d, "securitySchemes") == Get(components, "securitySchemes")
  {
    var schemas := Get(components, "schemas").value;
    SetSchemas(components, schemas.(content := PatchSchemas(schemas.content, input).value));
  }

  lemma SetSchemas(components: Node, schemas: Node)
    requires components.kind == MappingKind && Even(components.content)
    ensures var d := Set(components, "schemas", schemas);
            Proper(d) && Get(d, "schemas") == Some(schemas)
              && Get(d, "securitySchemes") == Get(components, "securitySchemes")
  {
    SetLookup(components, "schemas", schemas);
  }

  /** Whatever else a run does, the info block and the paths of its result are the patched ones. */
  lemma HeadThrough(root: Node, input: Input)
    requires root.kind == MappingKind && Even(root.content) && PatchRoot(root, input).Ok?
    ensures var r := PatchRoot(root, input).value;
            && r.kind == MappingKind && Even(r.content)
            && Get(r, "servers") == Some(input.texts.servers) && Get(r, "security") == Some(input.texts.security)
            && Get(root, "info").Some? && Get(r, "info") == Some(PatchInfo(Get(root, "info").value, input.texts))
  {
    HeadLookup(root, input.texts);
    var a := PatchHead(root, input.texts).value;
    PathsFrame(a, input);
    var b := PatchRootPaths(a, input).value;
    ComponentsFrame(b, input);
    TagsFrame(PatchComponents(b, input).value, input.texts);
  }

  lemma PathsThrough(root: Node, input: Input)
    requires root.kind == MappingKind && Even(root.content) && PatchRoot(root, input).Ok?
    ensures Get(root, "paths").Some? && Get(root, "paths").value.kind == MappingKind
    ensures PatchPaths(Get(root, "paths").value.content, input).Ok?
    ensures Get(PatchRoot(root, input).value, "paths") ==
              Some(Get(root, "paths").value.(content := PatchPaths(Get(root, "paths").value.content, input).value))
  {
    HeadLookup(root, input.texts);
    var a := PatchHead(root, input.texts).value;
    PathsFrame(a, input);
    var b := PatchRootPaths(a, input).value;
    ComponentsFrame(b, input);
    TagsFrame(PatchComponents(b, input).value, input.texts);
  }

  /** Without a components mapping the run fails. */
  lemma HasComponents(root: Node, b: Node, input: Input)
    requires PatchComponents(b, input).Ok?
    requires Get(b, "components") == Some(SetFirst(if Get(root, "components").Some? then Get(root, "components").value
                                                   else MapNode([]), "securitySchemes", input.texts.schemes))
    ensures Get(root, "components").Some? && Get(root, "components").value.kind == MappingKind
  {
    var made := SetFirst(MapNode([]), "securitySchemes", input.texts.schemes);
    SetFirstLookup(MapNode([]), "securitySchemes", input.texts.schemes);
    assert Get(made, "schemas") == Get(MapNode([]), "schemas") == None;
  }

  function Schemas(root: Node): Option<Node> {
    if Get(root, "components").Some? then Get(Get(root, "components").value, "schemas") else None
  }

  lemma SchemasThrough(root: Node, input: Input)
    requires root.kind == MappingKind && Even(root.content) && PatchRoot(root, input).Ok?
    requires Get(root, "components").Some? ==> Proper(Get(root, "components").value)
    ensures var r := PatchRoot(root, input).value;
            && Schemas(root).Some? && Schemas(root).value.kind == MappingKind
            && PatchSchemas(Schemas(root).value.content, input).Ok?
            && Schemas(r) ==
                 Some(Schemas(root).value.(content := PatchSchemas(Schemas(root).value.content, input).value))
            && Get(r, "components").Some? && Proper(Get(r, "components").value)
            && Get(Get(r, "components").value, "securitySchemes") == Some(input.texts.schemes)
  {
    ComponentsThrough(root, input);
    var first := SetFirst(Get(root, "components").value, "securitySchemes", input.texts.schemes);
    SetFirstLookup(Get(root, "components").value, "securitySchemes", input.texts.schemes);
    assert Get(first, "schemas") == Get(Get(root, "components").value, "schemas");
    SchemasBeside(first, input);
  }

  /** The components of the result: the scheme first, then the schemas patched. */
  lemma ComponentsThrough(root: Node, input: Input)
    requires root.kind == MappingKind && Even(root.content) && PatchRoot(root, input).Ok?
    ensures Get(root, "components").Some? && Get(root, "components").value.kind == MappingKind
    ensures var first := SetFirst(Get(root, "components").value, "securitySchemes", input.texts.schemes);
            && Get(first, "schemas").Some? && Get(first, "schemas").value.kind == MappingKind
            && PatchSchemas(Get(first, "schemas").value.content, input).Ok?
            && Get(PatchRoot(root, input).value, "components") == Some(WithSchemas(first, input))
  {
    HeadLookup(root, input.texts);
    var a := PatchHead(root, input.texts).value;
    PathsFrame(a, input);
    var b := PatchRootPaths(a, input).value;
    assert Get(b, "components") == Get(a, "components");
    HasComponents(root, b, input);
    ComponentsFrame(b, input);
    TagsFrame(PatchComponents(b, input).value, input.texts);
  }

  /** The tags reach the last step as they were. */
  lemma TagsArrive(root: Node, input: Input) returns (c: Node)
    requires root.kind == MappingKind && Even(root.content) && PatchRoot(root, input).Ok?
    ensures c.kind == MappingKind && Even(c.content) && Get(c, "tags") == Get(root, "tags")
    ensures PatchRoot(root, input).value == PatchTags(c, input.texts)
  {
    HeadKeepsTags(root, input.texts);
    var a := PatchHead(root, input.texts).value;
    PathsKeepTags(a, input);
    var b := PatchRootPaths(a, input).value;
    ComponentsKeepTags(b, input);
    c := PatchComponents(b, input).value;
  }

  lemma HeadKeepsTags(root: Node, t: Texts)
    requires root.kind == MappingKind && Even(root.content) && PatchHead(root, t).Ok?
    ensures var a := PatchHead(root, t).value; Proper(a) && a.kind == MappingKind && Get(a, "tags") == Get(root, "tags")
  {
    HeadLookup(root, t);
  }

  lemma PathsKeepTags(a: Node, input: Input)
    requires a.kind == MappingKind && Even(a.content) && PatchRootPaths(a, input).Ok?
    ensures var b := PatchRootPaths(a, input).value;
            b.kind == MappingKind && Even(b.content) && Get(b, "tags") == Get(a, "tags")
  {
    PathsFrame(a, input);
  }

  lemma ComponentsKeepTags(b: Node, input: Input)
    requires b.kind == MappingKind && Even(b.content) && PatchComponents(b, input).Ok?
    ensures var c := PatchComponents(b, input).value;
            c.kind == MappingKind && Even(c.content) && Get(c, "tags") == Get(b, "tags")
  {
    ComponentsFrame(b, input);
  }

  lemma TagsThrough(root: Node, input: Input)
    requires Parsed(root) && PatchRoot(root, input).Ok?
    ensures TagsDone(PatchRoot(root, input).value, input.texts)
  {
    var c := TagsArrive(root, input);
    if Get(root, "tags").Some? { GetParsed(root, "tags"); }
    TagsSettle(c, input.texts);
  }

  // ----------------------------------------------------------------- both runs

  /**
   * What a caller can check before the first run: the info block is a mapping, and every list of responses, every
   * schema of a parameter and every property fits what is written into it.
   */
  ghost predicate DocumentFits(root: Node, input: Input) {
    && Get(root, "info").Some? && Get(root, "info").value.kind == MappingKind
    && Get(root, "paths").Some? && PathsFit(Get(root, "paths").value.content, input)
    && Schemas(root).Some? && SchemasFit(Schemas(root).value.content, input)
  }

  /** A second run that changes nothing changes no part. */
  lemma UnchangedParts(r: Node, input: Input)
    requires r.kind == MappingKind && Even(r.content) && PatchRoot(r, input) == Ok(r)
    requires Get(r, "components").Some? ==> Proper(Get(r, "components").value)
    ensures Get(r, "info").Some? && PatchInfo(Get(r, "info").value, input.texts) == Get(r, "info").value
    ensures Get(r, "paths").Some?
    ensures PatchPaths(Get(r, "paths").value.content, input) == Ok(Get(r, "paths").value.content)
    ensures Schemas(r).Some? && PatchSchemas(Schemas(r).value.content, input) == Ok(Schemas(r).value.content)
  {
    HeadThrough(r, input);
    PathsThrough(r, input);
    SchemasThrough(r, input);
  }

  /** The parts of the first result, and what each says about the second run. */
  lemma PartsTwiceIff(root: Node, input: Input)
    requires Parsed(root) && ManualOk(input) && ModelOk(input) && PatchRoot(root, input).Ok?
    ensures var r := PatchRoot(root, input).value;
            && Get(root, "info").Some? && Get(root, "paths").Some? && Schemas(root).Some?
            && Get(r, "info").Some? && Get(r, "paths").Some? && Schemas(r).Some?
            && (PatchInfo(Get(r, "info").value, input.texts) == Get(r, "info").value <==>
                Get(root, "info").value.kind == MappingKind)
            && (PatchPaths(Get(r, "paths").value.content, input) == Ok(Get(r, "paths").value.content) <==>
                PathsFit(Get(root, "paths").value.content, input))
            && (PatchSchemas(Schemas(r).value.content, input) == Ok(Schemas(r).value.content) <==>
                SchemasFit(Schemas(root).value.content, input))
  {
    HeadThrough(root, input);
    PathsThrough(root, input);
    if Get(root, "components").Some? { GetParsed(root, "components"); }
    SchemasThrough(root, input);
    GetParsed(root, "info");
    GetParsed(root, "paths");
    GetParsed(Get(root, "components").value, "schemas");
    InfoIdempotentIff(Get(root, "info").value, input.texts);
    PathsTwiceIff(Get(root, "paths").value.content, input);
    SchemasTwiceIff(Schemas(root).value.content, input);
  }

  /** A root whose parts are all settled is left alone. */
  lemma SettledRoot(root: Node, input: Input)
    requires Parsed(root) && PatchRoot(root, input).Ok?
    requires var r := PatchRoot(root, input).value;
             && Get(r, "info").Some? && PatchInfo(Get(r, "info").value, input.texts) == Get(r, "info").value
             && Get(r, "paths").Some?
             && PatchPaths(Get(r, "paths").value.content, input) == Ok(Get(r, "paths").value.content)
             && Schemas(r).Some? && PatchSchemas(Schemas(r).value.content, input) == Ok(Schemas(r).value.content)
    ensures PatchRoot(PatchRoot(root, input).value, input) == PatchRoot(root, input)
  {
    var r := PatchRoot(root, input).value;
    HeadThrough(root, input);
    PathsThrough(root, input);
    if Get(root, "components").Some? { GetParsed(root, "components"); }
    SchemasThrough(root, input);
    TagsThrough(root, input);
    HeadFixed(r, input.texts);
    BodyFixed(r, input);
  }

  /**
   * For every parsed document on which the tool succeeds, a second run succeeds and changes nothing exactly when the
   * info block is a mapping and everything written into fits.
   */
  lemma RootIdempotentIff(root: Node, input: Input)
    requires Parsed(root) && ManualOk(input) && ModelOk(input) && PatchRoot(root, input).Ok?
    ensures PatchRoot(PatchRoot(root, input).value, input) == PatchRoot(root, input) <==> DocumentFits(root, input)
  {
    PartsTwiceIff(root, input);
    var r := PatchRoot(root, input).value;
    if DocumentFits(root, input) {
      SettledRoot(root, input);
    }
    if PatchRoot(r, input) == Ok(r) {
      HeadThrough(root, input);
      if Get(root, "components").Some? { GetParsed(root, "components"); }
      SchemasThrough(root, input);
      UnchangedParts(r, input);
    }
  }

  /** An info block that is no mapping changes again. */
  lemma OtherInfoDrifts(root: Node, input: Input)
    requires root.kind == MappingKind && Even(root.content) && PatchRoot(root, input).Ok?
    requires Get(root, "info").Some? && Get(root, "info").value.kind != MappingKind
    ensures PatchRoot(PatchRoot(root, input).value, input) != PatchRoot(root, input)
  {
    HeadThrough(root, input);
    InfoIdempotentIff(Get(root, "info").value, input.texts);
    var r := PatchRoot(root, input).value;
    if PatchRoot(r, input) == Ok(r) { HeadThrough(r, input); }
  }

  /** A scalar is printed without what was written under it. */
  function Printed(n: Node): Node
    requires n.kind == ScalarKind
  {
    n.(content := [])
  }

  /**
   * A scalar info block is patched in the tree only: printed and read again it is what it was, and the next run gives
   * the same tree exactly when the rest fits.
   */
  lemma ScalarInfoIdempotentIff(root: Node, input: Input)
    requires Parsed(root) && ManualOk(input) && ModelOk(input) && PatchRoot(root, input).Ok?
    requires Get(root, "info").Some? && Get(root, "info").value.kind == ScalarKind
    requires Get(root, "info").value.content == []
    ensures var r := PatchRoot(root, input).value;
            && Get(r, "info").Some? && Get(r, "info").value.kind == ScalarKind
            && Get(root, "paths").Some? && Schemas(root).Some?
            && (PatchRoot(Set(r, "info", Printed(Get(r, "info").value)), input) == Ok(r) <==>
                PathsFit(Get(root, "paths").value.content, input) && SchemasFit(Schemas(root).value.content, input))
  {
    PartsTwiceIff(root, input);
    HeadThrough(root, input);
    var info, r := Get(root, "info").value, PatchRoot(root, input).value;
    assert Printed(Get(r, "info").value) == info;
    if PathsFit(Get(root, "paths").value.content, input) && SchemasFit(Schemas(root).value.content, input) {
      RestoredRoot(root, input);
    }
    if PatchRoot(Set(r, "info", info), input) == Ok(r) {
      if Get(root, "components").Some? { GetParsed(root, "components"); }
      SchemasThrough(root, input);
      RestoredParts(r, info, input);
    }
  }

  lemma RestoredRoot(root: Node, input: Input)
    requires Parsed(root) && PatchRoot(root, input).Ok? && Get(root, "info").Some?
    requires var r := PatchRoot(root, input).value;
             && Get(r, "paths").Some?
             && PatchPaths(Get(r, "paths").value.content, input) == Ok(Get(r, "paths").value.content)
             && Schemas(r).Some? && PatchSchemas(Schemas(r).value.content, input) == Ok(Schemas(r).value.content)
    ensures var r := PatchRoot(root, input).value; PatchRoot(Set(r, "info", Get(root, "info").value), input) == Ok(r)
  {
    var r := PatchRoot(root, input).value;
    HeadThrough(root, input);
    PathsThrough(root, input);
    if Get(root, "components").Some? { GetParsed(root, "components"); }
    SchemasThrough(root, input);
    TagsThrough(root, input);
    HeadRestored(r, Get(root, "info").value, input.texts);
    BodyFixed(r, input);
  }

  lemma RestoredParts(r: Node, info: Node, input: Input)
    requires r.kind == MappingKind && Even(r.content) && PatchRoot(Set(r, "info", info), input) == Ok(r)
    requires Get(r, "components").Some? ==> Proper(Get(r, "components").value)
    ensures Get(r, "paths").Some?
    ensures PatchPaths(Get(r, "paths").value.content, input) == Ok(Get(r, "paths").value.content)
    ensures Schemas(r).Some? && PatchSchemas(Schemas(r).value.content, input) == Ok(Schemas(r).value.content)
  {
    SetLookup(r, "info", info);
    PathsThrough(Set(r, "info", info), input);
    SchemasThrough(Set(r, "info", info), input);
  }

  function RootOf(doc: Node): Node {
    if doc.kind == DocumentKind && |doc.content| == 1 then doc.content[0] else doc
  }

  /** The same for a parsed file, whose root sits in a document node. */
  lemma DocumentIdempotentIff(doc: Node, input: Input)
    requires Parsed(doc) && ManualOk(input) && ModelOk(input) && PatchDocument(doc, input).Ok?
    ensures PatchDocument(PatchDocument(doc, input).value, input) == PatchDocument(doc, input) <==>
            DocumentFits(RootOf(doc), input)
  {
    RootIdempotentIff(RootOf(doc), input);
    HeadThrough(RootOf(doc), input);
  }
}
