# Swagger to RDF converters, modelled in Dafny

The repository ships two small console converters. Each reads a Swagger 2.0
JSON document and asserts RDF triples into a dotNetRDF graph.

- **The richer converter** (`SwaggerToRDFConvertor/Program.cs`):
  - For every entry of `tags` it asserts `rdf:type ex:Tag`, `rdfs:label` and `rdfs:comment`.
  - For every entry of `schemes` it asserts `rdf:type ex:Scheme` and `rdfs:label`. The subject is built from the lowercased name.
  - For every operation of every path it asserts:
    - one `ex:IsPathTag` triple per tag;
    - an `ex:HasSummary` triple;
    - an `ex:isMethodType` triple.

    All three have the path URI as subject. The path URI is `http://example.org/` followed by the path key, with `{` and `}` replaced by `_`.
- **The smaller converter** (`SwaggerAPIToRDFConvertor/Program.cs`):
  - It is meant to assert one triple `<pathUri> ex:hasMethod <pathUri#method>` for every method child of every path.
  - The path URI is `http://example.org` (no trailing slash) followed by the path string of the JSON token.
  - As written it asserts no `hasMethod` triple at all. The inner loop lists `Children<JProperty>()` of the path property itself. That property's only child is its object value, which is not a property, so the loop body never runs and an empty graph is saved (see "## Findings").
  - If the body did run, creating the node `ex:hasMethod` would fail, because this converter never declares the `ex` prefix.
  - The model of `SwaggerApiToRdf` follows the evident intent: the method children of the path's value, as the richer converter lists them. `SwaggerApiToRdfFindings` models the loop as written.

Both converters are loops that update a mutable graph, and the model keeps them that way:

- `Rdf.Graph` is a class. Its `triples` field is updated in place by `Assert`. A ghost `asserted` field records every assertion made.
- The invariant `triples == Dedup(asserted)` states that a graph is a set of triples in first-insertion order.
- `SwaggerToRdf.Convert` and `SwaggerApiToRdf.ConvertApi` walk the document with the source's nested loops. One helper method covers each loop body.
- Each is proved equal to a pure function that states its result: `Conversion` and `ApiConversion` respectively.
- The lemmas in `SwaggerToRdfProperties` and in `SwaggerApiToRdf` then say what the resulting graph contains:
  - exactly the triples the document calls for, with no duplicates;
  - when the run aborts, and with which error.

The input is a typed value (`Swagger.Document`). `tags` and `schemes` are optional. `paths` is optional too, because its absence is a run-ending error in both converters. An operation's `tags` or `summary` may be absent, which makes the richer converter abort. Each null dereference of the source becomes an `Err` of `Swagger.ConvError`. The error carries the path key and the method key where one applies.

Details of the code the model keeps:

- The `ex:HasSummary` object is a URI node: the base followed by the summary with spaces replaced by `_`. It is not a literal.
- The per-operation triples have the path URI as subject, not an operation URI.
- The tag `rdfs:comment` triple is asserted unconditionally, with the description as given.
- An operation without `tags` or without `summary` ends the run.
- The richer converter's path URI keeps the key's leading `/` after the base's trailing `/`. A key `/pets` therefore gives `http://example.org//pets`. The smaller converter would give `http://example.org/pets` if `JToken.Path` were the key itself. For a general token path, the two URIs coincide exactly when the token path is `/` followed by the brace-free key.

## Model

| member | source | states |
|---|---|---|
| Rdf.InsFacts | SwaggerAPIToRDFConvertor/SwaggerToRDFConvertor/Program.cs:71 | adding a triple to a graph keeps the old triples as a prefix, adds exactly that triple, keeps the triples distinct, and changes nothing when the triple is already present |
| Rdf.Dedup | SwaggerAPIToRDFConvertor/SwaggerToRDFConvertor/Program.cs:12 | the graph built by a sequence of assertions holds no duplicates, holds exactly the asserted triples, and is no longer than the sequence |
| Rdf.DedupSnoc | SwaggerAPIToRDFConvertor/SwaggerToRDFConvertor/Program.cs:71 | asserting one more triple is adding it to the graph built so far |
| Rdf.DedupOfNoDup | SwaggerAPIToRDFConvertor/SwaggerToRDFConvertor/Program.cs:12 | assertions without repeats build a graph that is exactly them, in order |
| Rdf.DedupTwice | SwaggerAPIToRDFConvertor/SwaggerToRDFConvertor/Program.cs:71 | asserting the same sequence twice builds the same graph as asserting it once |
| Rdf.DedupShrinks | SwaggerAPIToRDFConvertor/SwaggerToRDFConvertor/Program.cs:64-72 | if a triple is asserted twice, the graph has fewer triples than there were assertions |
| Rdf.Graph.constructor | SwaggerAPIToRDFConvertor/SwaggerToRDFConvertor/Program.cs:12 | a new graph is empty and satisfies the set invariant |
| Rdf.Graph.Assert | SwaggerAPIToRDFConvertor/SwaggerToRDFConvertor/Program.cs:71 | records the assertion, adds the triple unless present, and keeps `triples == Dedup(asserted)` |
| UriRules.ReplaceChar | SwaggerAPIToRDFConvertor/SwaggerToRDFConvertor/Program.cs:55 | one-character replacement: same length, each occurrence of the old character replaced and every other character kept, with none of the old character left |
| UriRules.ReplaceCharIdempotent | SwaggerAPIToRDFConvertor/SwaggerToRDFConvertor/Program.cs:75 | a second identical replacement changes nothing, so the doubled space replacement equals a single one |
| UriRules.PathUri | SwaggerAPIToRDFConvertor/SwaggerToRDFConvertor/Program.cs:55-56 | path URI: the base followed by the key character by character, with `{` and `}` turned into `_`; no brace remains |
| UriRules.BraceFreeKeepsPlainKey | SwaggerAPIToRDFConvertor/SwaggerToRDFConvertor/Program.cs:55 | a key without braces is not changed by the rewriting |
| UriRules.PathUriIgnoresBraces | SwaggerAPIToRDFConvertor/SwaggerToRDFConvertor/Program.cs:55-56 | keys that differ only between `{`, `}` and `_` share one path URI |
| UriRules.PathUriMergesKeys | SwaggerAPIToRDFConvertor/SwaggerToRDFConvertor/Program.cs:55-56 | two different keys, `/p/{id}` and `/p/_id_`, share one path URI |
| UriRules.ResourceUri | SwaggerAPIToRDFConvertor/SwaggerToRDFConvertor/Program.cs:67 | tag references and method types are the base with the name appended unchanged |
| UriRules.TagUri | SwaggerAPIToRDFConvertor/SwaggerToRDFConvertor/Program.cs:29 | a tag's subject splits into the base with `tag/`, then the name unchanged |
| UriRules.TagUriInjective | SwaggerAPIToRDFConvertor/SwaggerToRDFConvertor/Program.cs:29 | distinct tag names give distinct tag subjects |
| UriRules.TagUriNotSchemeUri | SwaggerAPIToRDFConvertor/SwaggerToRDFConvertor/Program.cs:44 | no tag subject is ever a scheme subject |
| UriRules.LowerChar | SwaggerAPIToRDFConvertor/SwaggerToRDFConvertor/Program.cs:44 | an ASCII upper-case letter goes to its lower-case form, every other character is kept, and no upper-case letter results |
| UriRules.ToLower | SwaggerAPIToRDFConvertor/SwaggerToRDFConvertor/Program.cs:44 | lowercasing preserves length and lowercases each character in place |
| UriRules.ToLowerIdempotent | SwaggerAPIToRDFConvertor/SwaggerToRDFConvertor/Program.cs:44 | a lowercased name has no upper-case letter, and lowercasing it again changes nothing |
| UriRules.SchemeUri | SwaggerAPIToRDFConvertor/SwaggerToRDFConvertor/Program.cs:44 | a scheme's subject is the base with `scheme/`, then the name lowercased character by character; no capital follows `scheme/` |
| UriRules.SchemeUriIgnoresCase | SwaggerAPIToRDFConvertor/SwaggerToRDFConvertor/Program.cs:44 | names that agree up to case share one scheme subject |
| UriRules.SchemeUriMergesCase | SwaggerAPIToRDFConvertor/SwaggerToRDFConvertor/Program.cs:44 | the different names `HTTP` and `http` share one scheme subject |
| UriRules.SummaryUri | SwaggerAPIToRDFConvertor/SwaggerToRDFConvertor/Program.cs:75 | the summary object equals the resource URI of the summary with one space replacement, contains no space, and has the summary's length after the base |
| UriRules.ApiPathUri | SwaggerAPIToRDFConvertor/SwaggerAPIToRDFConvertor/Program.cs:25 | the smaller converter's path URI splits into the slash-less base and the token path |
| UriRules.MethodUri | SwaggerAPIToRDFConvertor/SwaggerAPIToRDFConvertor/Program.cs:26 | the method URI strictly extends the path URI, with `#` right after it and exactly the method name after that |
| UriRules.MethodUriInjective | SwaggerAPIToRDFConvertor/SwaggerAPIToRDFConvertor/Program.cs:26 | under one path URI, distinct method names give distinct method URIs |
| UriRules.PathUrisCoincide | SwaggerAPIToRDFConvertor/SwaggerAPIToRDFConvertor/Program.cs:25 | the richer converter's path URI for a key equals the smaller one's for a token path exactly when the token path is `/` followed by the brace-free key; if the token path were the key itself they would never agree |
| SwaggerToRdf.AssertTag | SwaggerAPIToRDFConvertor/SwaggerToRDFConvertor/Program.cs:27-35 | one tag entry asserts its type, label and comment triples, in that order |
| SwaggerToRdf.AssertTags | SwaggerAPIToRDFConvertor/SwaggerToRDFConvertor/Program.cs:25-36 | the `tags` loop asserts the tag triples of every entry in document order |
| SwaggerToRdf.AssertScheme | SwaggerAPIToRDFConvertor/SwaggerToRDFConvertor/Program.cs:43-49 | one scheme asserts its type and label triples |
| SwaggerToRdf.AssertSchemes | SwaggerAPIToRDFConvertor/SwaggerToRDFConvertor/Program.cs:41-50 | the `schemes` loop asserts the scheme triples of every entry in document order |
| SwaggerToRdf.AssertPathTags | SwaggerAPIToRDFConvertor/SwaggerToRDFConvertor/Program.cs:64-72 | the per-operation tag loop asserts one `IsPathTag` triple per tag |
| SwaggerToRdf.AssertOperation | SwaggerAPIToRDFConvertor/SwaggerToRDFConvertor/Program.cs:60-83 | an operation fails exactly when `OperationTriples` does, with the same error; on success it asserts exactly that operation's triples |
| SwaggerToRdf.AssertPath | SwaggerAPIToRDFConvertor/SwaggerToRDFConvertor/Program.cs:55-84 | a path fails at its first failing operation, with that operation's error; on success it asserts the triples of all its operations in order |
| SwaggerToRdf.Convert | SwaggerAPIToRDFConvertor/SwaggerToRDFConvertor/Program.cs:12-85 | the converter's loops return exactly `Conversion(doc)`: the de-duplicated tag, scheme and path triples, or the error that ends the run |
| SwaggerToRdfProperties.TagTriplesExactly | SwaggerAPIToRDFConvertor/SwaggerToRDFConvertor/Program.cs:29-35 | a triple belongs to an entry's tag triples exactly when it is one of the three statements about that tag |
| SwaggerToRdfProperties.SchemeTriplesExactly | SwaggerAPIToRDFConvertor/SwaggerToRDFConvertor/Program.cs:44-49 | a triple belongs to a scheme's triples exactly when it is one of the two statements about that scheme |
| SwaggerToRdfProperties.OperationExactly | SwaggerAPIToRDFConvertor/SwaggerToRDFConvertor/Program.cs:62-83 | an operation succeeds exactly when it has both `tags` and `summary`; a missing `tags` is reported before a missing `summary`; on success its triples are exactly its tag, summary and method-type statements about the path URI |
| SwaggerToRdfProperties.PathsOkIff | SwaggerAPIToRDFConvertor/SwaggerToRDFConvertor/Program.cs:53-85 | the paths section succeeds exactly when every operation has `tags` and `summary` |
| SwaggerToRdfProperties.PathsMembers | SwaggerAPIToRDFConvertor/SwaggerToRDFConvertor/Program.cs:53-85 | the path triples are exactly the statements of the operations of all paths |
| SwaggerToRdfProperties.ConversionExactly | SwaggerAPIToRDFConvertor/SwaggerToRDFConvertor/Program.cs:23-85 | a completed conversion has no duplicate triples, and a triple is in it exactly when the tags, the schemes or an operation of the document call for it |
| SwaggerToRdfProperties.ConversionOkIff | SwaggerAPIToRDFConvertor/SwaggerToRDFConvertor/Program.cs:53-85 | a conversion completes exactly when `paths` is present and every operation has `tags` and `summary`; tags and schemes never make it fail |
| SwaggerToRdfProperties.ConversionFirstError | SwaggerAPIToRDFConvertor/SwaggerToRDFConvertor/Program.cs:53-85 | an aborted conversion reports `MissingPaths` exactly when `paths` is missing; otherwise it reports the error of the first operation in document order that lacks a field |
| SwaggerToRdfProperties.AbsentSectionsContributeNothing | SwaggerAPIToRDFConvertor/SwaggerToRDFConvertor/Program.cs:23-51 | an absent `tags` or `schemes` section gives the same result as an empty one, and removing both does not change whether the conversion completes |
| SwaggerToRdfProperties.OperationTriplesPresent | SwaggerAPIToRDFConvertor/SwaggerToRDFConvertor/Program.cs:62-83 | in a completed conversion every operation has both fields, and its tag, summary and method-type triples about the path URI are in the graph |
| SwaggerToRdfProperties.SchemeTriplesPresent | SwaggerAPIToRDFConvertor/SwaggerToRDFConvertor/Program.cs:43-49 | every scheme gets a subject with the lowercased name, and its label keeps the original case |
| SwaggerToRdfProperties.SchemesShareSubject | SwaggerAPIToRDFConvertor/SwaggerToRDFConvertor/Program.cs:43-49 | schemes that differ only in case describe one subject, which carries both labels |
| SwaggerToRdfProperties.TagTriplesPresent | SwaggerAPIToRDFConvertor/SwaggerToRDFConvertor/Program.cs:27-35 | every tag entry gets its type, label and comment triples |
| SwaggerToRdfExamples.PetPathExample | SwaggerAPIToRDFConvertor/SwaggerToRDFConvertor/Program.cs:53-84 | a GET under `/pets/{id}`, tagged `pet` with summary `Find pet`, yields its three triples about `http://example.org//pets/_id_` |
| SwaggerToRdfExamples.PathUriExample | SwaggerAPIToRDFConvertor/SwaggerToRDFConvertor/Program.cs:55-56 | `/pets/{id}` gives the path URI `http://example.org//pets/_id_` |
| SwaggerToRdfExamples.SummaryExample | SwaggerAPIToRDFConvertor/SwaggerToRDFConvertor/Program.cs:75 | `Find pet` becomes `Find_pet` |
| SwaggerToRdfExamples.PetTaggedOperation | SwaggerAPIToRDFConvertor/SwaggerToRDFConvertor/Program.cs:62-83 | an operation tagged only `pet` yields three triples, the first being its tag reference |
| SwaggerToRdfExamples.SharedTagPath | SwaggerAPIToRDFConvertor/SwaggerToRDFConvertor/Program.cs:58-84 | a GET and a POST under `/pets`, both tagged `pet`, assert six triples, and the first and the fourth are the same tag reference |
| SwaggerToRdfExamples.EmittedOfOnePath | SwaggerAPIToRDFConvertor/SwaggerToRDFConvertor/Program.cs:53-85 | a document with only one path asserts exactly that path's triples |
| SwaggerToRdfExamples.SharedTagExample | SwaggerAPIToRDFConvertor/SwaggerToRDFConvertor/Program.cs:64-72 | the repeated tag reference appears once in the graph, which is then smaller than the number of assertions and free of duplicates |
| SwaggerApiToRdf.AssertApiPath | SwaggerAPIToRDFConvertor/SwaggerAPIToRDFConvertor/Program.cs:22-37 | the inner loop asserts one `hasMethod` triple per method child, in order |
| SwaggerApiToRdf.ConvertApi | SwaggerAPIToRDFConvertor/SwaggerAPIToRDFConvertor/Program.cs:17-38 | the converter's loops return exactly `ApiConversion(doc)`: `MissingPaths`, or the de-duplicated `hasMethod` triples of all paths |
| SwaggerApiToRdf.ApiConversionExactly | SwaggerAPIToRDFConvertor/SwaggerAPIToRDFConvertor/Program.cs:20-34 | a completed run has no duplicates, and a triple is in it exactly when it is the `hasMethod` triple of some path and method of the document |
| SwaggerApiToRdf.ApiTripleShape | SwaggerAPIToRDFConvertor/SwaggerAPIToRDFConvertor/Program.cs:25-31 | every triple has predicate `ex:hasMethod` and URI nodes; the subject is the slash-less base followed by a path's token path; the object strictly extends the subject by `#` and a method name of that path |
| SwaggerApiToRdf.ApiConversionReadsOnlyPaths | SwaggerAPIToRDFConvertor/SwaggerAPIToRDFConvertor/Program.cs:20 | the run aborts, with `MissingPaths`, exactly when `paths` is absent, and its result does not depend on `tags` or `schemes` |

| JsonTokens.Properties | SwaggerAPIToRDFConvertor/SwaggerAPIToRDFConvertor/Program.cs:22 | the properties among a list of tokens: exactly its members that are properties, never more tokens than the list |
| JsonTokens.PropertiesOfProperties | SwaggerAPIToRDFConvertor/SwaggerAPIToRDFConvertor/Program.cs:22 | a list made only of properties is kept whole, in order |
| JsonTokens.PropertyHasNoChildProperties | SwaggerAPIToRDFConvertor/SwaggerAPIToRDFConvertor/Program.cs:22 | a property whose value is an object has no property among its children |
| SwaggerApiToRdfFindings.MethodTokens | SwaggerAPIToRDFConvertor/SwaggerAPIToRDFConvertor/Program.cs:22 | a path's method children as tokens: one property per method, in order |
| SwaggerApiToRdfFindings.AsWrittenAssertsNothing | SwaggerAPIToRDFConvertor/SwaggerAPIToRDFConvertor/Program.cs:20-38 | as written, every run that has `paths` saves an empty graph |
| SwaggerApiToRdfFindings.AsWrittenMissesMethods | SwaggerAPIToRDFConvertor/SwaggerAPIToRDFConvertor/Program.cs:22-34 | for any method of any path, the intended graph holds its `hasMethod` triple while the graph as written is empty |
| SwaggerApiToRdfFindings.CorrectedReadsValueChildren | SwaggerAPIToRDFConvertor/SwaggerAPIToRDFConvertor/Program.cs:22-34 | listing the children of the path's value yields its methods in order, and the loop body over them yields exactly the path's intended `hasMethod` triples |
| SwaggerApiToRdfFindings.TokensOfMethods | SwaggerAPIToRDFConvertor/SwaggerAPIToRDFConvertor/Program.cs:22-34 | the loop body over the method tokens gives the same triples as over the methods |

## Left out

- File and console I/O, JSON parsing and Turtle serialization (`File.ReadAllText`, `JObject.Parse`, `CompressingTurtleWriter.Save`, `Console.WriteLine`): the model starts from a parsed document and ends with the graph's triples.
- The two console test applications are left out. So is the `RDFConvertor.ConvertSwaggerApiToRdf` engine they call, which is not part of this model.
- Prefix resolution: predicate and class nodes are kept as the prefixed names the code writes (`rdf:type`, `ex:IsPathTag`, …). The namespace map is not modelled. Neither is the fact that the smaller converter never declares the `ex` prefix.
- `Regex.Unescape` is modelled as an arbitrary total function `unescape` on the method key. The exception it raises on a malformed escape is left out.
- Well-formedness checks of `System.Uri` and `UriFactory.Create`, and their `UriFormatException`, are left out: every built string is taken to be a valid URI. The escaping and normalisation these constructors apply are left out too. For example, a tag `my tag` becomes `http://example.org/my%20tag`, and a key `/a/../b` loses its dot segment. The graph's node text can therefore differ from the model's strings, and keys the model keeps apart can merge.
- UriRules.ToLower: models only ASCII case mapping. The culture-dependent mapping of `String.ToLower` outside ASCII is left out.
- UriRules.LowerChar: keeps every non-ASCII character unchanged. `Char.ToLower` maps non-ASCII capitals by culture, which is left out.
- The smaller converter's `JToken.Path` is a function parameter `tokenPath` from path key to path string, because its exact text is Newtonsoft behaviour.
- The smaller converter's `path.Children<JProperty>()`: the main model takes it to enumerate the method children of the path, as the code evidently intends. `JsonTokens` models Newtonsoft's children of a property (its single value) only as far as "## Findings" needs.
- The missing `ex` prefix declaration in the smaller converter, and the exception `CreateUriNode("ex:hasMethod")` would raise on it, are not modelled. The loop body that makes that call never runs as written.
- Null or non-string `name` and `description` of a tag entry, and null entries of `schemes` or an operation's `tags`, are left out: these are strings in the input type.
- JSON values of the wrong shape (for example `tags` that is not an array) cannot be represented in the input type.
- On an abort the source throws after some triples are already asserted, and nothing is serialized. The model returns the error instead of a graph. The triples already asserted stay in the discarded graph object, and `ConvError`'s payload is the model's own description of which operation failed.
- The `definitions`, `securityDefinitions`, `consumes`, `produces` and other Swagger sections are left out: neither converter reads them.

## Findings

| source | as written | input that shows it | evidently intended | confidence | as-written member | corrected member |
|---|---|---|---|---|---|---|
| SwaggerAPIToRDFConvertor/SwaggerAPIToRDFConvertor/Program.cs:22 | `path.Children<JProperty>()` lists the children of the path property, whose only child is the path's object value, so no method is enumerated and the saved graph is empty | any document with a path holding a method, such as `{"paths": {"/pets": {"get": {}}}}` | list `path.Value.Children<JProperty>()`, as the richer converter does on its line 58, giving one `hasMethod` triple per method | not executed; relies on Newtonsoft's `Children` of a `JProperty` being its value | SwaggerApiToRdfFindings.AsWrittenMissesMethods | SwaggerApiToRdfFindings.CorrectedReadsValueChildren |
