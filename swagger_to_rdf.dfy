/** The richer converter: tags, schemes and paths of a Swagger document
    asserted as triples into one graph. */
module SwaggerToRdf {
  import opened Wrappers
  import opened Collect
  import opened Rdf
  import opened UriRules
  import opened Swagger

  // Predicate and class nodes, by the prefixed names the converter writes.
  const RDF_TYPE: Node := Uri("rdf:type")
  const RDFS_LABEL: Node := Uri("rdfs:label")
  const RDFS_COMMENT: Node := Uri("rdfs:comment")
  const EX_TAG: Node := Uri("ex:Tag")
  const EX_SCHEME: Node := Uri("ex:Scheme")
  const METHOD_PROPERTY: Node := Uri("ex:isMethodType")
  const PATH_TAGS_PROPERTY: Node := Uri("ex:IsPathTag")
  const SUMMARY_PROPERTY: Node := Uri("ex:HasSummary")

  // ---------------------------------------------------------------------
  // What each part of the document contributes, in assertion order.

  /** The three triples asserted for one entry of `tags`. */
  function TagTriples(e: TagEntry): seq<Triple>
  {
    var subject := Uri(TagUri(e.name));
    [Triple(subject, RDF_TYPE, EX_TAG),
     Triple(subject, RDFS_LABEL, Literal(e.name)),
     Triple(subject, RDFS_COMMENT, Literal(e.description))]
  }

  /** The two triples asserted for one entry of `schemes`. */
  function SchemeTriples(name: string): seq<Triple>
  {
    var subject := Uri(SchemeUri(name));
    [Triple(subject, RDF_TYPE, EX_SCHEME),
     Triple(subject, RDFS_LABEL, Literal(name))]
  }

  function TagSection(tags: Option<seq<TagEntry>>): seq<Triple>
  {
    if tags.None? then [] else FlatMap(tags.value, TagTriples)
  }

  function SchemeSection(schemes: Option<seq<string>>): seq<Triple>
  {
    if schemes.None? then [] else FlatMap(schemes.value, SchemeTriples)
  }

  function PathTagTriple(pathUri: string, tag: string): Triple
  {
    Triple(Uri(pathUri), PATH_TAGS_PROPERTY, Uri(ResourceUri(tag)))
  }

  function TagRefs(pathUri: string): string -> seq<Triple>
  {
    tag => [PathTagTriple(pathUri, tag)]
  }

  function SummaryTriple(pathUri: string, summary: string): Triple
  {
    Triple(Uri(pathUri), SUMMARY_PROPERTY, Uri(SummaryUri(summary)))
  }

  function MethodTypeTriple(pathUri: string, methodName: string): Triple
  {
    Triple(Uri(pathUri), METHOD_PROPERTY, Uri(ResourceUri(methodName)))
  }

  /** One operation under the path with key `key`: one triple per tag, then
      the summary and the method type; a missing `tags` or `summary` aborts.
      `unescape` stands for `Regex.Unescape` applied to the method key. */
  function OperationTriples(key: string, m: Method, unescape: string -> string): Result<seq<Triple>, ConvError>
  {
    var pathUri := PathUri(key);
    match m.op.tags
    case None => Err(MissingTags(key, m.name))
    case Some(tags) =>
      match m.op.summary
      case None => Err(MissingSummary(key, m.name))
      case Some(summary) =>
        Ok(FlatMap(tags, TagRefs(pathUri)) +
           [SummaryTriple(pathUri, summary), MethodTypeTriple(pathUri, unescape(m.name))])
  }

  function OperationFn(key: string, unescape: string -> string): Method -> Result<seq<Triple>, ConvError>
  {
    m => OperationTriples(key, m, unescape)
  }

  function PathTriples(p: PathItem, unescape: string -> string): Result<seq<Triple>, ConvError>
  {
    CollectAll(p.methods, OperationFn(p.key, unescape))
  }

  function PathFn(unescape: string -> string): PathItem -> Result<seq<Triple>, ConvError>
  {
    p => PathTriples(p, unescape)
  }

  function PathsTriples(paths: seq<PathItem>, unescape: string -> string): Result<seq<Triple>, ConvError>
  {
    CollectAll(paths, PathFn(unescape))
  }

  /** Every triple asserted by a run that completes, in assertion order, or
      the error that ends the run. */
  function Emitted(doc: Document, unescape: string -> string): Result<seq<Triple>, ConvError>
  {
    match doc.paths
    case None => Err(MissingPaths)
    case Some(paths) =>
      match PathsTriples(paths, unescape)
      case Err(e) => Err(e)
      case Ok(pathPart) => Ok(TagSection(doc.tags) + SchemeSection(doc.schemes) + pathPart)
  }

  /** The graph a run serializes (its triples in insertion order), or the
      error that ends the run with nothing serialized. */
  function Conversion(doc: Document, unescape: string -> string): Result<seq<Triple>, ConvError>
  {
    match Emitted(doc, unescape)
    case Err(e) => Err(e)
    case Ok(ts) => Ok(Dedup(ts))
  }

  // ---------------------------------------------------------------------
  // The converter itself, one method per loop of the source.

  /** One iteration of the `tags` loop. */
  method AssertTag(graph: Graph, tag: TagEntry)
    requires graph.Valid()
    modifies graph
    ensures graph.Valid()
    ensures graph.asserted == old(graph.asserted) + TagTriples(tag)
  {
    var tagName := tag.name;
    var tagDescription := tag.description;
    var tagSubject := Uri(TagUri(tagName));
    graph.Assert(Triple(tagSubject, RDF_TYPE, EX_TAG));
    graph.Assert(Triple(tagSubject, RDFS_LABEL, Literal(tagName)));
    graph.Assert(Triple(tagSubject, RDFS_COMMENT, Literal(tagDescription)));
  }

  /** The `tags` loop: three assertions per entry. */
  method AssertTags(graph: Graph, tags: seq<TagEntry>)
    requires graph.Valid()
    modifies graph
    ensures graph.Valid()
    ensures graph.asserted == old(graph.asserted) + FlatMap(tags, TagTriples)
  {
    for i := 0 to |tags|
      invariant graph.Valid()
      invariant graph.asserted == old(graph.asserted) + FlatMap(tags[..i], TagTriples)
    {
      AssertTag(graph, tags[i]);
      FlatMapStep(tags, i, TagTriples);
    }
    assert tags[..|tags|] == tags;
  }

  /** One iteration of the `schemes` loop. */
  method AssertScheme(graph: Graph, schemeName: string)
    requires graph.Valid()
    modifies graph
    ensures graph.Valid()
    ensures graph.asserted == old(graph.asserted) + SchemeTriples(schemeName)
  {
    var schemeSubject := Uri(SchemeUri(schemeName));
    graph.Assert(Triple(schemeSubject, RDF_TYPE, EX_SCHEME));
    graph.Assert(Triple(schemeSubject, RDFS_LABEL, Literal(schemeName)));
  }

  /** The `schemes` loop: two assertions per entry. */
  method AssertSchemes(graph: Graph, schemes: seq<string>)
    requires graph.Valid()
    modifies graph
    ensures graph.Valid()
    ensures graph.asserted == old(graph.asserted) + FlatMap(schemes, SchemeTriples)
  {
    for i := 0 to |schemes|
      invariant graph.Valid()
      invariant graph.asserted == old(graph.asserted) + FlatMap(schemes[..i], SchemeTriples)
    {
      AssertScheme(graph, schemes[i]);
      FlatMapStep(schemes, i, SchemeTriples);
    }
    assert schemes[..|schemes|] == schemes;
  }

  /** The loop over an operation's `tags`: one `IsPathTag` assertion each. */
  method AssertPathTags(graph: Graph, pathUri: string, tags: seq<string>)
    requires graph.Valid()
    modifies graph
    ensures graph.Valid()
    ensures graph.asserted == old(graph.asserted) + FlatMap(tags, TagRefs(pathUri))
  {
    for k := 0 to |tags|
      invariant graph.Valid()
      invariant graph.asserted == old(graph.asserted) + FlatMap(tags[..k], TagRefs(pathUri))
    {
      var subject := Uri(pathUri);
      var obj := Uri(ResourceUri(tags[k]));
      graph.Assert(Triple(subject, PATH_TAGS_PROPERTY, obj));
      FlatMapStep(tags, k, TagRefs(pathUri));
    }
    assert tags[..|tags|] == tags;
  }

  /** The body of the method loop for one operation. On failure the triples
      already asserted for it stay in the graph, which is never serialized. */
  method AssertOperation(graph: Graph, key: string, pathUri: string, methodProperty: Method,
                         unescape: string -> string) returns (failure: Option<ConvError>)
    requires graph.Valid()
    requires pathUri == PathUri(key)
    modifies graph
    ensures graph.Valid()
    ensures failure.None? <==> OperationTriples(key, methodProperty, unescape).Ok?
    ensures failure.Some? ==> OperationTriples(key, methodProperty, unescape) == Err(failure.value)
    ensures failure.None? ==>
              graph.asserted == old(graph.asserted) + OperationTriples(key, methodProperty, unescape).value
  {
    var methodName := unescape(methodProperty.name);
    if methodProperty.op.tags.None? {
      return Some(MissingTags(key, methodProperty.name));
    }
    var tags := methodProperty.op.tags.value;
    AssertPathTags(graph, pathUri, tags);
    if methodProperty.op.summary.None? {
      return Some(MissingSummary(key, methodProperty.name));
    }
    var summary := methodProperty.op.summary.value;
    graph.Assert(Triple(Uri(pathUri), SUMMARY_PROPERTY,
                        Uri(SummaryUri(summary))));
    graph.Assert(Triple(Uri(pathUri), METHOD_PROPERTY, Uri(ResourceUri(methodName))));
    failure := None;
  }

  /** One iteration of the `paths` loop: the path URI, then every method child. */
  method AssertPath(graph: Graph, pathProperty: PathItem, unescape: string -> string)
    returns (failure: Option<ConvError>)
    requires graph.Valid()
    modifies graph
    ensures graph.Valid()
    ensures failure.None? <==> PathTriples(pathProperty, unescape).Ok?
    ensures failure.Some? ==> PathTriples(pathProperty, unescape) == Err(failure.value)
    ensures failure.None? ==>
              graph.asserted == old(graph.asserted) + PathTriples(pathProperty, unescape).value
  {
    var pathUri := PathUri(pathProperty.key);
    var methods := pathProperty.methods;
    ghost var f := OperationFn(pathProperty.key, unescape);
    for j := 0 to |methods|
      invariant graph.Valid()
      invariant CollectAll(methods[..j], f).Ok?
      invariant graph.asserted == old(graph.asserted) + CollectAll(methods[..j], f).value
    {
      ghost var done := CollectAll(methods[..j], f).value;
      failure := AssertOperation(graph, pathProperty.key, pathUri, methods[j], unescape);
      assert f(methods[j]) == OperationTriples(pathProperty.key, methods[j], unescape);
      if failure.Some? {
        CollectErrStep(methods, j, f);
        return;
      }
      CollectOkStep(methods, j, f);
      AppendAssoc(old(graph.asserted), done, f(methods[j]).value);
    }
    assert methods[..|methods|] == methods;
    failure := None;
  }

  /** Walks the document as the source does, asserting into a fresh graph;
      the result is the graph's triples, or the error that stops the run. */
  method Convert(doc: Document, unescape: string -> string) returns (result: Result<seq<Triple>, ConvError>)
    ensures result == Conversion(doc, unescape)
  {
    var graph := new Graph();
    if doc.tags.Some? {
      AssertTags(graph, doc.tags.value);
    }
    if doc.schemes.Some? {
      AssertSchemes(graph, doc.schemes.value);
    }
    ghost var prelude := graph.asserted;
    assert prelude == TagSection(doc.tags) + SchemeSection(doc.schemes);

    if doc.paths.None? {
      return Err(MissingPaths);
    }
    var paths := doc.paths.value;
    for i := 0 to |paths|
      invariant graph.Valid()
      invariant PathsTriples(paths[..i], unescape).Ok?
      invariant graph.asserted == prelude + PathsTriples(paths[..i], unescape).value
    {
      ghost var done := PathsTriples(paths[..i], unescape).value;
      var failure := AssertPath(graph, paths[i], unescape);
      assert PathFn(unescape)(paths[i]) == PathTriples(paths[i], unescape);
      if failure.Some? {
        CollectErrStep(paths, i, PathFn(unescape));
        return Err(failure.value);
      }
      CollectOkStep(paths, i, PathFn(unescape));
      AppendAssoc(prelude, done, PathTriples(paths[i], unescape).value);
    }
    assert paths[..|paths|] == paths;
    return Ok(graph.triples);
  }
}

/** What the richer converter's output means, stated without its loops. */
module SwaggerToRdfProperties {
  import opened Wrappers
  import opened Collect
  import opened Rdf
  import opened UriRules
  import opened Swagger
  import opened SwaggerToRdf

  /** The statements made about one tag entry. */
  ghost predicate TagStatement(e: TagEntry, t: Triple)
  {
    t.subj == Uri(BASE + "tag/" + e.name) &&
    ((t.pred == RDF_TYPE && t.obj == EX_TAG) ||
     (t.pred == RDFS_LABEL && t.obj == Literal(e.name)) ||
     (t.pred == RDFS_COMMENT && t.obj == Literal(e.description)))
  }

  /** The statements made about one scheme: a lowercased subject, an original-case label. */
  ghost predicate SchemeStatement(name: string, t: Triple)
  {
    t.subj == Uri(BASE + "scheme/" + ToLower(name)) &&
    ((t.pred == RDF_TYPE && t.obj == EX_SCHEME) ||
     (t.pred == RDFS_LABEL && t.obj == Literal(name)))
  }

  /** The statements made for one operation, all about the path URI. */
  ghost predicate OperationStatement(key: string, m: Method, unescape: string -> string, t: Triple)
  {
    m.op.tags.Some? && m.op.summary.Some? &&
    t.subj == Uri(PathUri(key)) &&
    ((t.pred == PATH_TAGS_PROPERTY && exists tag :: tag in m.op.tags.value && t.obj == Uri(BASE + tag)) ||
     (t.pred == SUMMARY_PROPERTY && t.obj == Uri(BASE + ReplaceChar(m.op.summary.value, ' ', '_'))) ||
     (t.pred == METHOD_PROPERTY && t.obj == Uri(BASE + unescape(m.name))))
  }

  /** A triple the document calls for. */
  ghost predicate Described(doc: Document, unescape: string -> string, t: Triple)
  {
    (doc.tags.Some? && exists e :: e in doc.tags.value && TagStatement(e, t)) ||
    (doc.schemes.Some? && exists s :: s in doc.schemes.value && SchemeStatement(s, t)) ||
    (doc.paths.Some? && exists p, m :: p in doc.paths.value && m in p.methods && OperationStatement(p.key, m, unescape, t))
  }

  /** Every operation of the document has both `tags` and `summary`. */
  ghost predicate Complete(paths: seq<PathItem>)
  {
    forall p, m :: p in paths && m in p.methods ==> m.op.tags.Some? && m.op.summary.Some?
  }

  lemma TagTriplesExactly(e: TagEntry, t: Triple)
    ensures t in TagTriples(e) <==> TagStatement(e, t)
  {
  }

  lemma SchemeTriplesExactly(name: string, t: Triple)
    ensures t in SchemeTriples(name) <==> SchemeStatement(name, t)
  {
  }

  /** An operation fails exactly when it lacks `tags` or `summary`, the
      missing `tags` being reported first; otherwise its triples are exactly
      its statements. */
  lemma OperationExactly(key: string, m: Method, unescape: string -> string, t: Triple)
    ensures OperationTriples(key, m, unescape).Ok? <==> m.op.tags.Some? && m.op.summary.Some?
    ensures m.op.tags.None? ==> OperationTriples(key, m, unescape) == Err(MissingTags(key, m.name))
    ensures m.op.tags.Some? && m.op.summary.None? ==>
              OperationTriples(key, m, unescape) == Err(MissingSummary(key, m.name))
    ensures OperationTriples(key, m, unescape).Ok? ==>
              (t in OperationTriples(key, m, unescape).value <==> OperationStatement(key, m, unescape, t))
  {
    if m.op.tags.Some? && m.op.summary.Some? {
      var pathUri := PathUri(key);
      var tags := m.op.tags.value;
      FlatMapMembers(tags, TagRefs(pathUri), t);
      assert forall tag :: TagRefs(pathUri)(tag) == [PathTagTriple(pathUri, tag)];
      assert SummaryUri(m.op.summary.value) == BASE + ReplaceChar(m.op.summary.value, ' ', '_');
    }
  }

  lemma PathsOkIff(paths: seq<PathItem>, unescape: string -> string)
    ensures PathsTriples(paths, unescape).Ok? <==> Complete(paths)
  {
    CollectOkIff(paths, PathFn(unescape));
    forall p | p in paths
      ensures PathFn(unescape)(p).Ok? <==>
              forall m :: m in p.methods ==> m.op.tags.Some? && m.op.summary.Some?
    {
      CollectOkIff(p.methods, OperationFn(p.key, unescape));
      forall m | m in p.methods
        ensures OperationFn(p.key, unescape)(m).Ok? <==> m.op.tags.Some? && m.op.summary.Some?
      {
        OperationExactly(p.key, m, unescape, Triple(Literal(""), Literal(""), Literal("")));
      }
    }
  }

  lemma PathsMembers(paths: seq<PathItem>, unescape: string -> string, t: Triple)
    requires PathsTriples(paths, unescape).Ok?
    ensures t in PathsTriples(paths, unescape).value <==>
            exists p, m :: p in paths && m in p.methods && OperationStatement(p.key, m, unescape, t)
  {
    CollectOkMembers(paths, PathFn(unescape), t);
    CollectOkIff(paths, PathFn(unescape));
    forall p | p in paths
      ensures PathFn(unescape)(p).Ok?
      ensures t in PathFn(unescape)(p).value <==>
              exists m :: m in p.methods && OperationStatement(p.key, m, unescape, t)
    {
      var f := OperationFn(p.key, unescape);
      assert PathFn(unescape)(p) == CollectAll(p.methods, f);
      CollectOkMembers(p.methods, f, t);
      CollectOkIff(p.methods, f);
      forall m | m in p.methods
        ensures f(m).Ok? && (t in f(m).value <==> OperationStatement(p.key, m, unescape, t))
      {
        OperationExactly(p.key, m, unescape, t);
      }
    }
  }

  /** A completed conversion yields distinct triples, and exactly the ones
      the document calls for. */
  lemma ConversionExactly(doc: Document, unescape: string -> string, g: seq<Triple>)
    requires Conversion(doc, unescape) == Ok(g)
    ensures NoDup(g)
    ensures forall t :: t in g <==> Described(doc, unescape, t)
  {
    var paths := doc.paths.value;
    forall t ensures t in g <==> Described(doc, unescape, t) {
      if doc.tags.Some? {
        FlatMapMembers(doc.tags.value, TagTriples, t);
        forall e ensures t in TagTriples(e) <==> TagStatement(e, t) {
          TagTriplesExactly(e, t);
        }
      }
      if doc.schemes.Some? {
        FlatMapMembers(doc.schemes.value, SchemeTriples, t);
        forall s ensures t in SchemeTriples(s) <==> SchemeStatement(s, t) {
          SchemeTriplesExactly(s, t);
        }
      }
      PathsMembers(paths, unescape, t);
    }
  }

  /** A conversion completes exactly when `paths` is present and every
      operation has `tags` and `summary`; `tags` and `schemes` play no part. */
  lemma ConversionOkIff(doc: Document, unescape: string -> string)
    ensures Conversion(doc, unescape).Ok? <==> doc.paths.Some? && Complete(doc.paths.value)
  {
    if doc.paths.Some? {
      PathsOkIff(doc.paths.value, unescape);
    }
  }

  /** Operation (i, j) is the first in document order that lacks a field. */
  ghost predicate FirstFailure(paths: seq<PathItem>, unescape: string -> string, i: int, j: int)
  {
    0 <= i < |paths| && 0 <= j < |paths[i].methods| &&
    OperationTriples(paths[i].key, paths[i].methods[j], unescape).Err? &&
    (forall k :: 0 <= k < i ==> PathTriples(paths[k], unescape).Ok?) &&
    (forall l :: 0 <= l < j ==> OperationTriples(paths[i].key, paths[i].methods[l], unescape).Ok?)
  }

  /** An aborted conversion reports a missing `paths`, or else the error of
      the first operation in document order that lacks `tags` or `summary`. */
  lemma ConversionFirstError(doc: Document, unescape: string -> string)
    requires Conversion(doc, unescape).Err?
    ensures Conversion(doc, unescape).error == MissingPaths <==> doc.paths.None?
    ensures doc.paths.Some? ==>
              exists i, j :: FirstFailure(doc.paths.value, unescape, i, j) &&
                             Conversion(doc, unescape) ==
                             OperationTriples(doc.paths.value[i].key, doc.paths.value[i].methods[j], unescape)
  {
    if doc.paths.Some? {
      var paths := doc.paths.value;
      CollectFirstErr(paths, PathFn(unescape));
      var i :| 0 <= i < |paths| && PathFn(unescape)(paths[i]) == PathsTriples(paths, unescape) &&
               forall k :: 0 <= k < i ==> PathFn(unescape)(paths[k]).Ok?;
      var p := paths[i];
      var f := OperationFn(p.key, unescape);
      assert PathFn(unescape)(p) == CollectAll(p.methods, f);
      CollectFirstErr(p.methods, f);
      var j :| 0 <= j < |p.methods| && f(p.methods[j]) == CollectAll(p.methods, f) &&
               forall l :: 0 <= l < j ==> f(p.methods[l]).Ok?;
      assert FirstFailure(paths, unescape, i, j);
      var e := OperationTriples(p.key, p.methods[j], unescape);
      OperationExactly(p.key, p.methods[j], unescape, Triple(Literal(""), Literal(""), Literal("")));
      assert e.error != MissingPaths;
    }
  }

  /** An absent `tags` or `schemes` section is not an error and contributes
      what an empty one does: nothing. */
  lemma AbsentSectionsContributeNothing(doc: Document, unescape: string -> string)
    ensures Conversion(doc.(tags := None), unescape) == Conversion(doc.(tags := Some([])), unescape)
    ensures Conversion(doc.(schemes := None), unescape) == Conversion(doc.(schemes := Some([])), unescape)
    ensures Conversion(doc.(tags := None, schemes := None), unescape).Ok? == Conversion(doc, unescape).Ok?
  {
    ConversionOkIff(doc, unescape);
    ConversionOkIff(doc.(tags := None, schemes := None), unescape);
  }

  /** Every operation of a completed conversion contributes its tag
      references, its summary and its method type, all about the path URI. */
  lemma OperationTriplesPresent(doc: Document, unescape: string -> string, g: seq<Triple>,
                                p: PathItem, m: Method)
    requires Conversion(doc, unescape) == Ok(g)
    requires doc.paths.Some? && p in doc.paths.value && m in p.methods
    ensures m.op.tags.Some? && m.op.summary.Some?
    ensures forall tag :: tag in m.op.tags.value ==>
              Triple(Uri(PathUri(p.key)), PATH_TAGS_PROPERTY, Uri(BASE + tag)) in g
    ensures Triple(Uri(PathUri(p.key)), SUMMARY_PROPERTY,
                   Uri(BASE + ReplaceChar(m.op.summary.value, ' ', '_'))) in g
    ensures Triple(Uri(PathUri(p.key)), METHOD_PROPERTY, Uri(BASE + unescape(m.name))) in g
  {
    ConversionOkIff(doc, unescape);
    ConversionExactly(doc, unescape, g);
    forall tag | tag in m.op.tags.value
      ensures Triple(Uri(PathUri(p.key)), PATH_TAGS_PROPERTY, Uri(BASE + tag)) in g
    {
      assert OperationStatement(p.key, m, unescape, Triple(Uri(PathUri(p.key)), PATH_TAGS_PROPERTY, Uri(BASE + tag)));
    }
    assert OperationStatement(p.key, m, unescape, Triple(Uri(PathUri(p.key)), SUMMARY_PROPERTY,
                   Uri(BASE + ReplaceChar(m.op.summary.value, ' ', '_'))));
    assert OperationStatement(p.key, m, unescape, Triple(Uri(PathUri(p.key)), METHOD_PROPERTY, Uri(BASE + unescape(m.name))));
  }

  /** Every scheme of a completed conversion gets a lowercased subject and keeps
      its original-case name as the label. */
  lemma SchemeTriplesPresent(doc: Document, unescape: string -> string, g: seq<Triple>, name: string)
    requires Conversion(doc, unescape) == Ok(g)
    requires doc.schemes.Some? && name in doc.schemes.value
    ensures Triple(Uri(BASE + "scheme/" + ToLower(name)), RDF_TYPE, EX_SCHEME) in g
    ensures Triple(Uri(BASE + "scheme/" + ToLower(name)), RDFS_LABEL, Literal(name)) in g
  {
    ConversionExactly(doc, unescape, g);
    assert SchemeStatement(name, Triple(Uri(BASE + "scheme/" + ToLower(name)), RDF_TYPE, EX_SCHEME));
    assert SchemeStatement(name, Triple(Uri(BASE + "scheme/" + ToLower(name)), RDFS_LABEL, Literal(name)));
  }

  /** Schemes that differ only in case, such as "HTTP" and "http", describe
      one subject, which then carries both labels. */
  lemma SchemesShareSubject(doc: Document, unescape: string -> string, g: seq<Triple>, a: string, b: string)
    requires Conversion(doc, unescape) == Ok(g)
    requires doc.schemes.Some? && a in doc.schemes.value && b in doc.schemes.value
    requires ToLower(a) == ToLower(b)
    ensures Triple(Uri(SchemeUri(a)), RDFS_LABEL, Literal(a)) in g
    ensures Triple(Uri(SchemeUri(a)), RDFS_LABEL, Literal(b)) in g
  {
    SchemeTriplesPresent(doc, unescape, g, a);
    SchemeTriplesPresent(doc, unescape, g, b);
    SchemeUriIgnoresCase(a, b);
  }

  /** Every tag entry of a completed conversion gets its type, label and
      comment, the comment whatever the description is. */
  lemma TagTriplesPresent(doc: Document, unescape: string -> string, g: seq<Triple>, e: TagEntry)
    requires Conversion(doc, unescape) == Ok(g)
    requires doc.tags.Some? && e in doc.tags.value
    ensures Triple(Uri(BASE + "tag/" + e.name), RDF_TYPE, EX_TAG) in g
    ensures Triple(Uri(BASE + "tag/" + e.name), RDFS_LABEL, Literal(e.name)) in g
    ensures Triple(Uri(BASE + "tag/" + e.name), RDFS_COMMENT, Literal(e.description)) in g
  {
    ConversionExactly(doc, unescape, g);
    assert TagStatement(e, Triple(Uri(BASE + "tag/" + e.name), RDF_TYPE, EX_TAG));
    assert TagStatement(e, Triple(Uri(BASE + "tag/" + e.name), RDFS_LABEL, Literal(e.name)));
    assert TagStatement(e, Triple(Uri(BASE + "tag/" + e.name), RDFS_COMMENT, Literal(e.description)));
  }
}

/** Worked examples of the richer converter. */
module SwaggerToRdfExamples {
  import opened Wrappers
  import opened Collect
  import opened Rdf
  import opened UriRules
  import opened Swagger
  import opened SwaggerToRdf
  import opened SwaggerToRdfProperties

  function PetDocument(): Document
  {
    Document(None, None, Some([PathItem("/pets/{id}", [Method("get", Operation(Some(["pet"]), Some("Find pet")))])]))
  }

  /** A single GET under "/pets/{id}", tagged "pet" and summarised
      "Find pet", yields three triples about the path URI "http://example.org//pets/_id_". */
  lemma PetPathExample()
    ensures var r := Conversion(PetDocument(), Verbatim);
            r.Ok? &&
            Triple(Uri(BASE + "/pets/_id_"), PATH_TAGS_PROPERTY, Uri(BASE + "pet")) in r.value &&
            Triple(Uri(BASE + "/pets/_id_"), SUMMARY_PROPERTY, Uri(BASE + "Find_pet")) in r.value &&
            Triple(Uri(BASE + "/pets/_id_"), METHOD_PROPERTY, Uri(BASE + "get")) in r.value
  {
    var doc := PetDocument();
    var p := doc.paths.value[0];
    var m := p.methods[0];
    ConversionOkIff(doc, Verbatim);
    OperationTriplesPresent(doc, Verbatim, Conversion(doc, Verbatim).value, p, m);
    PathUriExample();
    SummaryExample();
  }

  lemma PathUriExample()
    ensures PathUri("/pets/{id}") == BASE + "/pets/_id_"
  {
    var a, b := "/pets/{id}", "/pets/_id_";
    PathUriIgnoresBraces(a, b);
    BraceFreeKeepsPlainKey(b);
  }

  lemma SummaryExample()
    ensures ReplaceChar("Find pet", ' ', '_') == "Find_pet"
  {
    var r := ReplaceChar("Find pet", ' ', '_');
    assert |r| == 8;
    assert r[0] == 'F' && r[1] == 'i' && r[2] == 'n' && r[3] == 'd';
    assert r[4] == '_';
    assert r[5] == 'p' && r[6] == 'e' && r[7] == 't';
  }

  /** One path "/pets" with a GET and a POST, both tagged "pet". */
  function SharedTagPathItem(): PathItem
  {
    PathItem("/pets", [
      Method("get", Operation(Some(["pet"]), Some("List"))),
      Method("post", Operation(Some(["pet"]), Some("Add")))])
  }

  function SharedTagDocument(): Document
  {
    Document(None, None, Some([SharedTagPathItem()]))
  }

  /** The unescape of a method key without backslash escapes. */
  function Verbatim(s: string): string
  {
    s
  }

  /** The triple both operations of the shared-tag path assert. */
  function SharedTagTriple(): Triple
  {
    PathTagTriple(PathUri("/pets"), "pet")
  }

  /** An operation with the single tag "pet" starts with its tag reference. */
  lemma PetTaggedOperation(key: string, m: Method)
    requires m.op.tags == Some(["pet"]) && m.op.summary.Some?
    ensures var r := OperationTriples(key, m, Verbatim);
            r.Ok? && |r.value| == 3 && r.value[0] == PathTagTriple(PathUri(key), "pet")
  {
    var pathUri := PathUri(key);
    assert FlatMap(["pet"], TagRefs(pathUri)) == [PathTagTriple(pathUri, "pet")] by {
      FlatMapStep(["pet"], 0, TagRefs(pathUri));
      assert ["pet"][..1] == ["pet"];
    }
  }

  lemma SharedTagPath()
    ensures var r := PathTriples(SharedTagPathItem(), Verbatim);
            r.Ok? && |r.value| == 6 && r.value[0] == SharedTagTriple() && r.value[3] == SharedTagTriple()
  {
    var p := SharedTagPathItem();
    var m0, m1 := p.methods[0], p.methods[1];
    PetTaggedOperation(p.key, m0);
    PetTaggedOperation(p.key, m1);
    CollectTwo(m0, m1, OperationFn(p.key, Verbatim));
    assert p.methods == [m0, m1];
  }

  /** A document with one path and neither tags nor schemes emits exactly that path's triples. */
  lemma EmittedOfOnePath(p: PathItem, unescape: string -> string)
    requires PathTriples(p, unescape).Ok?
    ensures Emitted(Document(None, None, Some([p])), unescape) == PathTriples(p, unescape)
  {
    CollectOne(p, PathFn(unescape));
    assert [] + [] + PathTriples(p, unescape).value == PathTriples(p, unescape).value;
  }

  /** Two operations under one path that share a tag assert the same
      `IsPathTag` triple twice; the graph keeps it once. */
  lemma SharedTagExample()
    ensures var t := SharedTagTriple();
            var emitted := Emitted(SharedTagDocument(), Verbatim);
            var r := Conversion(SharedTagDocument(), Verbatim);
            emitted.Ok? && emitted.value[0] == t && emitted.value[3] == t &&
            r.Ok? && t in r.value && |r.value| < |emitted.value| &&
            forall i, j :: 0 <= i < j < |r.value| ==> r.value[i] != r.value[j]
  {
    var doc := SharedTagDocument();
    SharedTagPath();
    EmittedOfOnePath(SharedTagPathItem(), Verbatim);
    var emitted := Emitted(doc, Verbatim).value;
    ConversionOkIff(doc, Verbatim);
    ConversionExactly(doc, Verbatim, Conversion(doc, Verbatim).value);
    assert Conversion(doc, Verbatim).value == Dedup(emitted);
    DedupShrinks(emitted, 0, 3);
  }
}
