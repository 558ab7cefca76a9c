/**
 * The metadata attached to a provider method by the `@Tool`, `@Resource` and
 * `@Prompt` decorators (the files under src/mcp/decorators). The registry treats this
 * metadata as an untyped record, so one record type carries the fields of all
 * three kinds; a field a kind does not use stays `None` (`undefined`).
 * Zod schemas are opaque here: only the shape of an object schema (its field
 * names, descriptions and optionality) is visible to the core.
 */
module Descriptors {
  import opened Values

  /** The `type` of a discovered entry: 'tool' | 'resource' | 'prompt'. */
  datatype Kind = ToolKind | ResourceKind | PromptKind

  /** One field of a `z.object({...})` shape: its key, `.description` and `.isOptional()`. */
  datatype ShapeField = ShapeField(key: string, description: Option<string>, optional: bool)

  /** A Zod schema: an object schema with its shape, `z.any()`, or any other schema. */
  datatype Schema = ZodObject(shape: seq<ShapeField>) | ZodAny | ZodOther(id: nat)

  /** `z.object({})` */
  const EmptyObjectSchema: Schema := ZodObject([])

  datatype ToolAnnotations = ToolAnnotations(
    title: Option<string>,
    readOnlyHint: Option<bool>,
    destructiveHint: Option<bool>,
    idempotentHint: Option<bool>,
    openWorldHint: Option<bool>)

  datatype Metadata = Metadata(
    name: Option<string>,
    description: Option<string>,
    uri: Option<string>,
    mimeType: Option<string>,
    parameters: Option<Schema>,
    outputSchema: Option<Schema>,
    annotations: Option<ToolAnnotations>)

  /** JavaScript's `!metadata['name']`: the name is missing or empty. */
  predicate NameFalsy(m: Metadata) {
    m.name.None? || m.name.value == ""
  }
}
