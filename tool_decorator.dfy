/**
 * The `@Tool` decorator (src/mcp/decorators/tool.decorator.ts). It fills in
 * the schemas of the caller's options object in place, then attaches that
 * object as the method's tool metadata. The name is not defaulted here; the
 * registry defaults it to the method name at discovery.
 */
module ToolDecorator {
  import opened Values
  import opened Descriptors

  /** `ToolOptions`: the object literal passed to `@Tool`, which the decorator updates in place. */
  class ToolOptions {
    var name: Option<string>
    var description: Option<string>
    var parameters: Option<Schema>
    var outputSchema: Option<Schema>
    var annotations: Option<ToolAnnotations>

    constructor(name: Option<string>, description: Option<string>, parameters: Option<Schema>,
                outputSchema: Option<Schema>, annotations: Option<ToolAnnotations>)
      ensures Value() == Metadata(name, description, None, None, parameters, outputSchema, annotations)
    {
      this.name := name;
      this.description := description;
      this.parameters := parameters;
      this.outputSchema := outputSchema;
      this.annotations := annotations;
    }

    /** The options as the metadata record the registry reads. */
    function Value(): Metadata
      reads this
    {
      Metadata(name, description, None, None, parameters, outputSchema, annotations)
    }
  }

  /** The options after `@Tool` has filled in missing schemas. */
  function WithSchemaDefaults(m: Metadata): (r: Metadata)
    ensures r.parameters == if m.parameters.None? then Some(EmptyObjectSchema) else m.parameters
    ensures r.outputSchema == if m.outputSchema.None? then Some(ZodAny) else m.outputSchema
    ensures r.(parameters := m.parameters, outputSchema := m.outputSchema) == m
  {
    m.(parameters := if m.parameters.None? then Some(EmptyObjectSchema) else m.parameters,
       outputSchema := if m.outputSchema.None? then Some(ZodAny) else m.outputSchema)
  }

  /**
   * `Tool(options)`: default `parameters` to `z.object({})` and `outputSchema`
   * to `z.any()` on the options object itself, and return the metadata the
   * decorator attaches (that same object).
   */
  method Tool(options: ToolOptions) returns (metadata: Metadata)
    modifies options
    ensures options.Value() == WithSchemaDefaults(old(options.Value()))
    ensures metadata == options.Value()
  {
    if options.parameters.None? {
      options.parameters := Some(EmptyObjectSchema);
    }
    if options.outputSchema.None? {
      options.outputSchema := Some(ZodAny);
    }
    metadata := options.Value();
  }

  /** Decorating twice is the same as decorating once. */
  lemma WithSchemaDefaultsIdempotent(m: Metadata)
    ensures WithSchemaDefaults(WithSchemaDefaults(m)) == WithSchemaDefaults(m)
  {
  }

  /**
   * After decoration both schemas are present, supplied schemas are kept,
   * and the name, description and annotations are the caller's.
   */
  lemma DecoratedShape(m: Metadata)
    ensures var r := WithSchemaDefaults(m);
      r.parameters.Some? && r.outputSchema.Some? &&
      (m.parameters.Some? ==> r.parameters == m.parameters) &&
      (m.outputSchema.Some? ==> r.outputSchema == m.outputSchema) &&
      r.name == m.name && r.description == m.description && r.annotations == m.annotations
  {
  }
}
