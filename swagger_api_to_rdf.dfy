/** The smaller converter: one `ex:hasMethod` triple per method child of
    every path. Nothing but `paths` is read. */
module SwaggerApiToRdf {
  import opened Wrappers
  import opened Collect
  import opened Rdf
  import opened UriRules
  import opened Swagger

  const HAS_METHOD: Node := Uri("ex:hasMethod")

  /** The triple for one (path, method) pair; `tokenPath` is the path string
      of the path token, `methodName` the method key. */
  function HasMethodTriple(tokenPath: string, methodName: string): Triple
  {
    var pathUri := ApiPathUri(tokenPath);
    Triple(Uri(pathUri), HAS_METHOD, Uri(MethodUri(pathUri, methodName)))
  }

  function MethodFn(tokenPath: string): Method -> seq<Triple>
  {
    (m: Method) => [HasMethodTriple(tokenPath, m.name)]
  }

  /** `tokenPath` stands for Newtonsoft's `JToken.Path` of the path property with a given key. */
  function ApiPathTriples(p: PathItem, tokenPath: string -> string): seq<Triple>
  {
    FlatMap(p.methods, MethodFn(tokenPath(p.key)))
  }

  function ApiPathFn(tokenPath: string -> string): PathItem -> seq<Triple>
  {
    (p: PathItem) => ApiPathTriples(p, tokenPath)
  }

  /** The graph a run saves, or the error that ends it before anything is saved. */
  function ApiConversion(doc: Document, tokenPath: string -> string): Result<seq<Triple>, ConvError>
  {
    match doc.paths
    case None => Err(MissingPaths)
    case Some(paths) => Ok(Dedup(FlatMap(paths, ApiPathFn(tokenPath))))
  }

  /** One iteration of the outer loop: every method child of one path. */
  method AssertApiPath(rdfGraph: Graph, path: PathItem, tokenPath: string -> string)
    requires rdfGraph.Valid()
    modifies rdfGraph
    ensures rdfGraph.Valid()
    ensures rdfGraph.asserted == old(rdfGraph.asserted) + ApiPathTriples(path, tokenPath)
  {
    var methods := path.methods;
    ghost var f := MethodFn(tokenPath(path.key));
    for j := 0 to |methods|
      invariant rdfGraph.Valid()
      invariant rdfGraph.asserted == old(rdfGraph.asserted) + FlatMap(methods[..j], f)
    {
      ghost var done := FlatMap(methods[..j], f);
      var pathUri := API_BASE + tokenPath(path.key);
      var methodUri := pathUri + "#" + methods[j].name;
      var subjectNode := Uri(pathUri);
      var objectNode := Uri(methodUri);
      rdfGraph.Assert(Triple(subjectNode, HAS_METHOD, objectNode));
      assert f(methods[j]) == [Triple(subjectNode, HAS_METHOD, objectNode)];
      FlatMapStep(methods, j, f);
      AppendAssoc(old(rdfGraph.asserted), done, f(methods[j]));
    }
    assert methods[..|methods|] == methods;
  }

  /** Walks `paths` as the source does, asserting into a fresh graph. */
  method ConvertApi(doc: Document, tokenPath: string -> string) returns (result: Result<seq<Triple>, ConvError>)
    ensures result == ApiConversion(doc, tokenPath)
  {
    var rdfGraph := new Graph();
    if doc.paths.None? {
      return Err(MissingPaths);
    }
    var paths := doc.paths.value;
    ghost var f := ApiPathFn(tokenPath);
    for i := 0 to |paths|
      invariant rdfGraph.Valid()
      invariant rdfGraph.asserted == FlatMap(paths[..i], f)
    {
      ghost var done := FlatMap(paths[..i], f);
      AssertApiPath(rdfGraph, paths[i], tokenPath);
      assert f(paths[i]) == ApiPathTriples(paths[i], tokenPath);
      FlatMapStep(paths, i, f);
    }
    assert paths[..|paths|] == paths;
    return Ok(rdfGraph.triples);
  }

  // ---------------------------------------------------------------------
  // What the output means.

  /** A completed run yields distinct triples, exactly one `hasMethod` triple
      for each (path, method) pair of the document. */
  lemma ApiConversionExactly(doc: Document, tokenPath: string -> string, g: seq<Triple>)
    requires ApiConversion(doc, tokenPath) == Ok(g)
    ensures NoDup(g)
    ensures forall t :: t in g <==>
              exists p, m :: p in doc.paths.value && m in p.methods &&
                             t == HasMethodTriple(tokenPath(p.key), m.name)
  {
    var paths := doc.paths.value;
    forall t ensures t in g <==>
                     exists p, m :: p in paths && m in p.methods && t == HasMethodTriple(tokenPath(p.key), m.name)
    {
      FlatMapMembers(paths, ApiPathFn(tokenPath), t);
      forall p | p in paths
        ensures t in ApiPathFn(tokenPath)(p) <==>
                exists m :: m in p.methods && t == HasMethodTriple(tokenPath(p.key), m.name)
      {
        FlatMapMembers(p.methods, MethodFn(tokenPath(p.key)), t);
        assert forall m :: MethodFn(tokenPath(p.key))(m) == [HasMethodTriple(tokenPath(p.key), m.name)];
      }
    }
  }

  /** Each triple has predicate `ex:hasMethod`; its subject is the base
      without a slash followed by a path string, and its object extends the
      subject by `#` and the method name. */
  lemma ApiTripleShape(doc: Document, tokenPath: string -> string, g: seq<Triple>, t: Triple)
    requires ApiConversion(doc, tokenPath) == Ok(g)
    requires t in g
    ensures t.pred == HAS_METHOD
    ensures t.subj.Uri? && t.obj.Uri?
    ensures API_BASE <= t.subj.iri
    ensures t.subj.iri < t.obj.iri && t.obj.iri[|t.subj.iri|] == '#'
    ensures exists p, m :: p in doc.paths.value && m in p.methods &&
                           t.subj.iri[|API_BASE|..] == tokenPath(p.key) &&
                           t.obj.iri[|t.subj.iri| + 1..] == m.name
  {
    ApiConversionExactly(doc, tokenPath, g);
    var p, m :| p in doc.paths.value && m in p.methods && t == HasMethodTriple(tokenPath(p.key), m.name);
    var pathUri := ApiPathUri(tokenPath(p.key));
    assert t.subj.iri == pathUri;
    assert t.obj.iri == MethodUri(pathUri, m.name);
  }

  /** The run aborts exactly when `paths` is missing, and the result depends on
      `paths` alone: `tags` and `schemes` are never read. */
  lemma ApiConversionReadsOnlyPaths(doc: Document, tokenPath: string -> string)
    ensures ApiConversion(doc, tokenPath).Err? <==> doc.paths.None?
    ensures ApiConversion(doc, tokenPath).Err? ==> ApiConversion(doc, tokenPath).error == MissingPaths
    ensures ApiConversion(doc, tokenPath) == ApiConversion(Document(None, None, doc.paths), tokenPath)
  {
  }
}

/** The smaller converter's inner loop as written: it lists
    `Children<JProperty>()` of the path property itself, whose only child is
    the path's object value, so it sees no method and asserts nothing. The
    intended reading lists the children of the value, as the richer
    converter does; that reading is `SwaggerApiToRdf.ApiConversion`. */
module SwaggerApiToRdfFindings {
  import opened Wrappers
  import opened Collect
  import opened Rdf
  import opened Swagger
  import opened JsonTokens
  import opened SwaggerApiToRdf

  /** A method child of a path as a token; the smaller converter reads only its key. */
  function MethodToken(m: Method): JToken
  {
    JProperty(m.name, JObject([]))
  }

  function MethodTokens(methods: seq<Method>): (r: seq<JToken>)
    ensures |r| == |methods|
    ensures forall i :: 0 <= i < |methods| ==> r[i] == MethodToken(methods[i])
  {
    seq(|methods|, i requires 0 <= i < |methods| => MethodToken(methods[i]))
  }

  /** A property of the `paths` object as the outer loop enumerates it. */
  function PathToken(p: PathItem): JToken
  {
    JProperty(p.key, JObject(MethodTokens(p.methods)))
  }

  /** The loop body for one enumerated child token. */
  function TokenFn(tokenPath: string): JToken -> seq<Triple>
  {
    (c: JToken) => if c.JProperty? then [HasMethodTriple(tokenPath, c.name)] else []
  }

  function AsWrittenPathTriples(p: PathItem, tokenPath: string -> string): seq<Triple>
  {
    FlatMap(ChildProperties(PathToken(p)), TokenFn(tokenPath(p.key)))
  }

  function AsWrittenPathFn(tokenPath: string -> string): PathItem -> seq<Triple>
  {
    (p: PathItem) => AsWrittenPathTriples(p, tokenPath)
  }

  /** The run as written: `MissingPaths`, or the graph the loops build. */
  function ApiConversionAsWritten(doc: Document, tokenPath: string -> string): Result<seq<Triple>, ConvError>
  {
    match doc.paths
    case None => Err(MissingPaths)
    case Some(paths) => Ok(Dedup(FlatMap(paths, AsWrittenPathFn(tokenPath))))
  }

  /** As written, every run that has `paths` saves an empty graph. */
  lemma AsWrittenAssertsNothing(doc: Document, tokenPath: string -> string)
    requires doc.paths.Some?
    ensures ApiConversionAsWritten(doc, tokenPath) == Ok([])
  {
    var paths := doc.paths.value;
    var all := FlatMap(paths, AsWrittenPathFn(tokenPath));
    forall p | p in paths ensures AsWrittenPathFn(tokenPath)(p) == [] {
      PropertyHasNoChildProperties(PathToken(p));
    }
    if all != [] {
      FlatMapMembers(paths, AsWrittenPathFn(tokenPath), all[0]);
      assert false;
    }
  }

  /** Any method of any path shows the discrepancy: the intended graph holds
      its `hasMethod` triple, the graph as written is empty. */
  lemma AsWrittenMissesMethods(doc: Document, tokenPath: string -> string, p: PathItem, m: Method)
    requires doc.paths.Some? && p in doc.paths.value && m in p.methods
    ensures ApiConversionAsWritten(doc, tokenPath) == Ok([])
    ensures ApiConversion(doc, tokenPath).Ok?
    ensures HasMethodTriple(tokenPath(p.key), m.name) in ApiConversion(doc, tokenPath).value
  {
    AsWrittenAssertsNothing(doc, tokenPath);
    ApiConversionExactly(doc, tokenPath, ApiConversion(doc, tokenPath).value);
  }

  /** Listing the children of the path's value yields its methods in order,
      and the loop body over them yields exactly the intended path triples. */
  lemma CorrectedReadsValueChildren(p: PathItem, tokenPath: string -> string)
    ensures ChildProperties(PathToken(p).value) == MethodTokens(p.methods)
    ensures FlatMap(ChildProperties(PathToken(p).value), TokenFn(tokenPath(p.key))) == ApiPathTriples(p, tokenPath)
  {
    PropertiesOfProperties(MethodTokens(p.methods));
    TokensOfMethods(p.methods, tokenPath(p.key));
  }

  lemma {:induction false} TokensOfMethods(methods: seq<Method>, tokenPath: string)
    ensures FlatMap(MethodTokens(methods), TokenFn(tokenPath)) == FlatMap(methods, MethodFn(tokenPath))
    decreases |methods|
  {
    if |methods| > 0 {
      var n := |methods| - 1;
      var init := methods[..n];
      assert MethodTokens(methods)[..n] == MethodTokens(init);
      TokensOfMethods(init, tokenPath);
      assert TokenFn(tokenPath)(MethodTokens(methods)[n]) == MethodFn(tokenPath)(methods[n]);
    }
  }
}
