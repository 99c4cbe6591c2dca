/**
 * The schema parser: it reads API schema documents, turns each into a raw
 * schema, and runs the middleware chain over it. The chain is the global
 * middleware registered on the parser, followed by the two metadata-bound
 * middleware when template metadata is supplied.
 */
module SchemaParsing {
  import opened Wrappers

  /** Template metadata, keyed by template name; its contents are not interpreted here. */
  type TemplateMetadata = map<string, string>

  /** The middleware the parser knows by name; `Custom` is anything registered later through `use`. */
  datatype Middleware =
    | GenerateUrl
    | GenerateTemplateSource
    | TransformValidator
    | CheckValidator(validatorLoader: string)
    | FallbackErrors
    | CheckParameter(metadata: TemplateMetadata)
    | AddMissingErrors(metadata: TemplateMetadata)
    | Custom(name: string)

  /** The format a schema document is written in; `Other` carries the unrecognised format's name. */
  datatype SchemaFormat = Yaml | Other(format: string)

  /** One item from the schema reader. */
  datatype SchemaData = SchemaData(name: string, content: string, format: SchemaFormat)

  /** A raw schema: its top-level keys and their values, kept as text. */
  type RawSchema = map<string, string>

  /** The global middleware, in the order the constructor registers them. */
  function GlobalMiddleware(validatorLoader: string): seq<Middleware> {
    [GenerateUrl, GenerateTemplateSource, TransformValidator, CheckValidator(validatorLoader), FallbackErrors]
  }

  /** The chain `parse` runs: the registered middleware, then the metadata-bound pair when metadata is given. */
  function ParseChain(registered: seq<Middleware>, metadata: Option<TemplateMetadata>): (chain: seq<Middleware>)
    ensures |chain| >= |registered| && chain[..|registered|] == registered
    ensures metadata.None? ==> chain == registered
    ensures metadata.Some? ==>
      |chain| == |registered| + 2
      && chain[|registered|] == CheckParameter(metadata.value)
      && chain[|registered| + 1] == AddMissingErrors(metadata.value)
  {
    match metadata
    case None => registered
    case Some(m) => registered + [CheckParameter(m), AddMissingErrors(m)]
  }

  /** The message `parse` fails with on a document format it does not know. */
  function UnsupportedMessage(format: string): string {
    "Unsupported schema type: " + format
  }

  /**
   * `parseContent`: a YAML document becomes its loaded mapping with
   * `sourceName` set to the item's name, unless the document itself has a
   * `sourceName` key, which then wins; a document the loader rejects fails
   * with the loader's error, and any other format is refused.
   */
  function ParseContent(data: SchemaData, yamlLoad: string -> Result<RawSchema, string>): (r: Result<RawSchema, string>)
    ensures r.Success? <==> data.format.Yaml? && yamlLoad(data.content).Success?
    ensures data.format.Other? ==> r == Failure(UnsupportedMessage(data.format.format))
    ensures data.format.Yaml? && yamlLoad(data.content).Failure? ==> r == Failure(yamlLoad(data.content).error)
    ensures r.Success? ==>
      var document := yamlLoad(data.content).value;
      r.value.Keys == document.Keys + {"sourceName"}
      && (forall key :: key in document ==> r.value[key] == document[key])
      && ("sourceName" !in document ==> r.value["sourceName"] == data.name)
  {
    match data.format
    case Yaml =>
      (match yamlLoad(data.content)
       case Success(document) => Success(map["sourceName" := data.name] + document)
       case Failure(e) => Failure(e))
    case Other(format) => Failure(UnsupportedMessage(format))
  }

  /**
   * The reference for `parse`: every item parsed and run through the chain
   * in reader order, stopping at the first item that fails to parse or whose
   * chain fails.
   */
  function ParseAll(
    chain: seq<Middleware>,
    items: seq<SchemaData>,
    yamlLoad: string -> Result<RawSchema, string>,
    execute: (seq<Middleware>, RawSchema) -> Result<RawSchema, string>
  ): Result<seq<RawSchema>, string>
  {
    if items == [] then Success([])
    else
      match ParseContent(items[0], yamlLoad)
      case Failure(e) => Failure(e)
      case Success(raw) =>
        match execute(chain, raw)
        case Failure(e) => Failure(e)
        case Success(schema) =>
          Prepend([schema], ParseAll(chain, items[1..], yamlLoad, execute))
  }

  /** A successful parse yields one schema per item, in order, each the chain's output on that item. */
  lemma {:induction false} ParseAllOnePerItem(
    chain: seq<Middleware>,
    items: seq<SchemaData>,
    yamlLoad: string -> Result<RawSchema, string>,
    execute: (seq<Middleware>, RawSchema) -> Result<RawSchema, string>
  )
    requires ParseAll(chain, items, yamlLoad, execute).Success?
    ensures var schemas := ParseAll(chain, items, yamlLoad, execute).value;
      |schemas| == |items|
      && forall i :: 0 <= i < |items| ==>
           ParseContent(items[i], yamlLoad).Success?
           && execute(chain, ParseContent(items[i], yamlLoad).value) == Success(schemas[i])
  {
    if items != [] {
      ParseAllOnePerItem(chain, items[1..], yamlLoad, execute);
      var schemas := ParseAll(chain, items, yamlLoad, execute).value;
      forall i | 1 <= i < |items|
        ensures execute(chain, ParseContent(items[i], yamlLoad).value) == Success(schemas[i])
      {
        assert items[1..][i - 1] == items[i];
      }
    }
  }

  /** The item parses and the chain succeeds on it. */
  predicate ItemGoesThrough(
    chain: seq<Middleware>,
    item: SchemaData,
    yamlLoad: string -> Result<RawSchema, string>,
    execute: (seq<Middleware>, RawSchema) -> Result<RawSchema, string>
  ) {
    ParseContent(item, yamlLoad).Success? && execute(chain, ParseContent(item, yamlLoad).value).Success?
  }

  /**
   * An item that cannot be parsed (an unsupported format, or YAML the loader
   * rejects) makes the whole parse fail, with that item's error when every
   * earlier item went through.
   */
  lemma {:induction false} ParseAllStopsAtBadItem(
    chain: seq<Middleware>,
    items: seq<SchemaData>,
    yamlLoad: string -> Result<RawSchema, string>,
    execute: (seq<Middleware>, RawSchema) -> Result<RawSchema, string>,
    k: nat
  )
    requires k < |items| && ParseContent(items[k], yamlLoad).Failure?
    ensures ParseAll(chain, items, yamlLoad, execute).Failure?
    ensures (forall i :: 0 <= i < k ==> ItemGoesThrough(chain, items[i], yamlLoad, execute)) ==>
      ParseAll(chain, items, yamlLoad, execute) == Failure(ParseContent(items[k], yamlLoad).error)
  {
    if k > 0 {
      var rest := items[1..];
      assert rest[k - 1] == items[k];
      ParseAllStopsAtBadItem(chain, rest, yamlLoad, execute, k - 1);
      if forall i :: 0 <= i < k ==> ItemGoesThrough(chain, items[i], yamlLoad, execute) {
        forall i | 0 <= i < k - 1
          ensures ItemGoesThrough(chain, rest[i], yamlLoad, execute)
        {
          assert rest[i] == items[i + 1];
        }
      }
    }
  }

  /** `done` placed in front of a successful outcome; a failure stays as it is. */
  function Prepend(done: seq<RawSchema>, r: Result<seq<RawSchema>, string>): Result<seq<RawSchema>, string> {
    match r
    case Failure(e) => Failure(e)
    case Success(rest) => Success(done + rest)
  }

  lemma PrependNothing(r: Result<seq<RawSchema>, string>)
    ensures Prepend([], r) == r
  {
    if r.Success? {
      assert [] + r.value == r.value;
    }
  }

  lemma PrependOne(done: seq<RawSchema>, schema: RawSchema, r: Result<seq<RawSchema>, string>)
    ensures Prepend(done, Prepend([schema], r)) == Prepend(done + [schema], r)
  {
    if r.Success? {
      assert done + ([schema] + r.value) == (done + [schema]) + r.value;
    }
  }

  class SchemaParser {
    const schemaReader: seq<SchemaData>
    var middleware: seq<Middleware>

    /** Registers the five global middleware, in order, and nothing else. */
    constructor (schemaReader: seq<SchemaData>, validatorLoader: string)
      ensures this.schemaReader == schemaReader
      ensures middleware == GlobalMiddleware(validatorLoader)
    {
      this.schemaReader := schemaReader;
      middleware := [];
      new;
      var self := Use(GenerateUrl);
      self := Use(GenerateTemplateSource);
      self := Use(TransformValidator);
      self := Use(CheckValidator(validatorLoader));
      self := Use(FallbackErrors);
    }

    /** `use`: appends exactly one middleware and hands back the same parser, for chaining. */
    method Use(m: Middleware) returns (self: SchemaParser)
      modifies this
      ensures middleware == old(middleware) + [m]
      ensures self == this
    {
      middleware := middleware + [m];
      self := this;
    }

    /**
     * `parse`: builds the chain on a copy of the registered middleware and
     * runs it on every item from the reader in order, collecting the schemas;
     * the first failure ends the parse. It changes no field of the parser.
     * `yamlLoad` stands for the YAML loader and `execute` for the composed
     * chain run on one raw schema.
     */
    method Parse(
      metadata: Option<TemplateMetadata>,
      yamlLoad: string -> Result<RawSchema, string>,
      execute: (seq<Middleware>, RawSchema) -> Result<RawSchema, string>
    ) returns (r: Result<seq<RawSchema>, string>)
      ensures r == ParseAll(ParseChain(middleware, metadata), schemaReader, yamlLoad, execute)
    {
      var chain := middleware;
      if metadata.Some? {
        chain := chain + [CheckParameter(metadata.value)];
        chain := chain + [AddMissingErrors(metadata.value)];
      }
      assert chain == ParseChain(middleware, metadata);
      var schemas: seq<RawSchema> := [];
      assert schemaReader[0..] == schemaReader;
      PrependNothing(ParseAll(chain, schemaReader, yamlLoad, execute));
      for i := 0 to |schemaReader|
        invariant ParseAll(chain, schemaReader, yamlLoad, execute)
          == Prepend(schemas, ParseAll(chain, schemaReader[i..], yamlLoad, execute))
      {
        assert schemaReader[i..][0] == schemaReader[i];
        assert schemaReader[i..][1..] == schemaReader[i + 1..];
        var raw := ParseContent(schemaReader[i], yamlLoad);
        if raw.Failure? {
          return Failure(raw.error);
        }
        var schema := execute(chain, raw.value);
        if schema.Failure? {
          return Failure(schema.error);
        }
        PrependOne(schemas, schema.value, ParseAll(chain, schemaReader[i + 1..], yamlLoad, execute));
        schemas := schemas + [schema.value];
      }
      assert schemaReader[|schemaReader|..] == [];
      assert schemas + [] == schemas;
      return Success(schemas);
    }
  }
}
