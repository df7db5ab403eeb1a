/** The parts of a parsed Swagger 2.0 document the converters read. */
module Swagger {
  import opened Wrappers

  /** An entry of the top-level `tags` array. */
  datatype TagEntry = TagEntry(name: string, description: string)

  /** An operation object: its `tags` array and its `summary`. Either may be
      absent (or JSON null), which the richer converter cannot handle. */
  datatype Operation = Operation(tags: Option<seq<string>>, summary: Option<string>)

  /** A method child of a path item: the raw JSON key and its operation. */
  datatype Method = Method(name: string, op: Operation)

  /** A property of the `paths` object: the key and its method children, in document order. */
  datatype PathItem = PathItem(key: string, methods: seq<Method>)

  /** The top level: `tags` and `schemes` are optional, the converters treat `paths` as required. */
  datatype Document = Document(
    tags: Option<seq<TagEntry>>,
    schemes: Option<seq<string>>,
    paths: Option<seq<PathItem>>)

  /** Why a conversion aborts: each is a null dereference in the source,
      which ends the run before anything is serialized. The payloads name the
      path key and the method key of the offending operation. */
  datatype ConvError =
    | MissingPaths
    | MissingTags(pathKey: string, methodKey: string)
    | MissingSummary(pathKey: string, methodKey: string)
}
