# A verified model of VulcanSQL's query binding, Canner driver and schema pipeline

VulcanSQL turns SQL templates into REST APIs. This project models five pieces of it in Dafny.

- **Per-builder parameter binding** (`query_builder.dfy`, module `QueryBuilding`).
  - Every `{% req %}` block gets its own parameterizer: a counter and an ordered binding sequence `$1, $2, …`.
  - It also gets its own data query builder. The builder records `limit` / `offset` / `take` calls with last-write-wins semantics.
  - When its value is asked for, the builder binds the recorded operations through its own parameterizer, limit first, and executes.
  - The three template scenarios (same scope, sibling scope, nested scope) and the three chaining scenarios are stated as methods. Their postconditions are the expected data-source calls.
- **The Canner data source** (`canner.dfy`, module `Canner`, with `decimal.dfy`).
  - The pool registry that `onActivate` fills and `destroy` ends.
  - The `prepare` placeholder `$<n>` and its injectivity.
  - `execute`: profile lookup, connection check-out, and release on error.
  - The row stream of `getResultFromCursor`, with the `fetchNext` buffer.
  - `getColumns`.
  - The `export` checks and the file names `downloadFiles` writes.
- **Validator resolution** (`validators.dfy`, module `Validators`).
  - `ValidatorLoader.load` resolves a name over the built-in classes followed by the extension classes, searching backwards.
  - The extension classes must not repeat a name.
- **The response sampler** (`response_sampler.dfy`, module `ResponseSampling`).
  - It probes the template with limit 0 and offset 0.
  - It upper-cases the column types.
  - It merges the result behind the declared response by lodash `unionBy` on the name.
- **The schema parser** (`schema_parser.dfy`, module `SchemaParsing`).
  - The global middleware list and `use`.
  - The chain `parse` builds, with the metadata-bound middleware added.
  - `parseContent` for YAML and for unsupported formats.
  - The per-item parse loop.

Effects on state are modelled as classes whose methods are proved against pure step functions:
- `RowStream.FetchNext` against `FetchStep`;
- `CannerDataSource.OnActivate` against `AddPools`;
- `SchemaParser.Parse` against `ParseAll`;
- `ValidatorLoader.Load` against `Resolve`.

The properties the source promises are lemmas about those functions.

Foreign behaviour enters as parameters, never as assumptions:
- the backend's rows and read failure;
- the YAML loader;
- the composed middleware;
- the adapter's presigned URLs;
- the modules a dynamic import yields.

## Model

| member | source | states |
|---|---|---|
| Decimal.DecimalRoundTrip | packages/extension-driver-canner/src/lib/cannerDataSource.ts:144 | the decimal text of a bind position is all digits and reads back as that position |
| Canner.PrepareRoundTrip | packages/extension-driver-canner/src/lib/cannerDataSource.ts:143-145 | `prepare` yields `$` followed by digits whose value is the 1-based bind position |
| Canner.PrepareInjective | packages/extension-driver-canner/src/lib/cannerDataSource.ts:143-145 | two different bind positions never get the same placeholder |
| Canner.DownloadFileName | packages/extension-driver-canner/src/lib/cannerDataSource.ts:93-96 | the saved file is the URL's stem followed by `.parquet` |
| Canner.FileStemIsPlainName | packages/extension-driver-canner/src/lib/cannerDataSource.ts:93 | the stem is never empty (`part<index>` fallback) and holds no '/' or '?' |
| Canner.AfterLastSlash | packages/extension-driver-canner/src/lib/cannerDataSource.ts:93 | the last segment of a URL holds no '/', is a suffix of the URL, and is preceded by '/' whenever it is shorter |
| Canner.BeforeFirstQuestionMark | packages/extension-driver-canner/src/lib/cannerDataSource.ts:93 | the part before the query holds no '?', is a prefix of the segment, and is followed by '?' whenever it is shorter |
| Canner.FileStemOfPresignedUrl | packages/extension-driver-canner/src/lib/cannerDataSource.ts:91-93 | for a URL `…/name?query` the stem is exactly `name`, whatever the prefix |
| Canner.SlashInQuery | packages/extension-driver-canner/src/lib/cannerDataSource.ts:93 | only the last '/' of the whole URL counts: a URL ending in `/tail` (no '/' or '?' in `tail`) is saved under `tail`, even when that '/' sits inside the query string |
| Canner.SlashInQueryExample | packages/extension-driver-canner/src/lib/cannerDataSource.ts:93 | `h/p/file?a=b/c` is saved under the stem `c`, not `file` |
| Canner.DownloadTargetsInDirectory | packages/extension-driver-canner/src/lib/cannerDataSource.ts:85-105 | the `i`-th download is written to the export directory, one '/', a non-empty stem free of '/' and '?', and `.parquet`, so every file lands directly in the directory |
| Canner.Cursor.Read | packages/extension-driver-canner/src/lib/cannerDataSource.ts:199-210 | a read hands out up to `maxRows` further rows in order and consumes them, every remaining row when `maxRows` is 0 (the driver's "no row limit"), or rejects with the backend's error once the rows have run out |
| Canner.Cursor.EmitDone | packages/extension-driver-canner/src/lib/cannerDataSource.ts:124-131 | the `once('done')` listener runs at most once: the cursor is closed and the client released one time, a later `done` changes nothing |
| Canner.Cursor.RemoveDoneListener | packages/extension-driver-canner/src/lib/cannerDataSource.ts:124-131 | after the `done` listener is removed, no later `done` finds it (the corrected catch block under Findings) |
| Canner.FetchStepInOrder | packages/extension-driver-canner/src/lib/cannerDataSource.ts:163-169 | `fetchNext` hands out rows in result order with none skipped or repeated; `null` and read errors come only after the last row, for every chunk size including 0; with a positive chunk size the buffer holds at most `chunkSize` rows |
| Canner.RowStream.FetchNext | packages/extension-driver-canner/src/lib/cannerDataSource.ts:163-169 | the returned row and the new buffer, index and cursor state are one `FetchStep` of the old state (refill when the index reaches the buffer end, a failed read changes nothing) |
| Canner.RowStream.Destroy | packages/extension-driver-canner/src/lib/cannerDataSource.ts:181-185 | destroying emits `done`, so the cursor is closed and the client released exactly once; the first error is kept |
| Canner.RowStream.Pull | packages/extension-driver-canner/src/lib/cannerDataSource.ts:172-180 | one `read()` pushes the next row, or ends and destroys the stream on `null`, or destroys it with the read error; the stream invariant (rows in order, release exactly on destroy) is kept, and once the stream is destroyed every row of the result has been pushed |
| Canner.Drain | packages/extension-driver-canner/src/lib/cannerDataSource.ts:170-188 | reading the stream to its end releases the client exactly once and delivers the whole result in backend order, for every chunk size including 0 |
| Canner.OpenRowStreamAsWritten | packages/extension-driver-canner/src/lib/cannerDataSource.ts:121-140 | as written: a failed first read releases the client and fails but leaves the `done` listener registered; otherwise a fresh valid stream over the backend's rows holds the unreleased client |
| Canner.DoneAfterFailedReadAsWritten | packages/extension-driver-canner/src/lib/cannerDataSource.ts:124-138 | as written, a `done` emitted on the cursor after a failed first read releases the client a second time |
| Canner.OpenRowStream | packages/extension-driver-canner/src/lib/cannerDataSource.ts:121-140 | corrected: a failed first read removes the `done` listener and releases the client once; otherwise a fresh valid stream over the backend's rows holds the unreleased client |
| Canner.DoneAfterFailedRead | packages/extension-driver-canner/src/lib/cannerDataSource.ts:124-138 | corrected: a `done` after a failed first read leaves the client released exactly once |
| Canner.AddPoolsValid | packages/extension-driver-canner/src/lib/cannerDataSource.ts:31-53 | registering pools keeps one position per registered profile name and only extends the existing order |
| Canner.AddPoolsKeys | packages/extension-driver-canner/src/lib/cannerDataSource.ts:48-51 | the registered names are the earlier ones plus every profile's name |
| Canner.AddPoolsUntouched | packages/extension-driver-canner/src/lib/cannerDataSource.ts:48-51 | a name no profile carries keeps its earlier options or stays unregistered |
| Canner.AddPoolsLastWins | packages/extension-driver-canner/src/lib/cannerDataSource.ts:48-51 | a name ends up with the connection options of the last profile carrying it |
| Canner.CannerDataSource.OnActivate | packages/extension-driver-canner/src/lib/cannerDataSource.ts:29-54 | the registry after activation is `AddPools` of the old one over the profiles in order, and stays well formed |
| Canner.CannerDataSource.Execute | packages/extension-driver-canner/src/lib/cannerDataSource.ts:106-141 | an unknown profile fails before any connection; otherwise one client is acquired; a failed build or first read releases it once and rethrows (the first-read case through the corrected `OpenRowStream`); success returns the columns and a fresh stream over the result with the profile's chunk size (default 100), the client held until `done` |
| Canner.CannerDataSource.ExportPrecheck | packages/extension-driver-canner/src/lib/cannerDataSource.ts:61-68 | profile-not-found exactly when the profile is unknown, directory-not-found exactly when it is known but the directory is missing, otherwise the profile's options |
| Canner.CannerDataSource.Export | packages/extension-driver-canner/src/lib/cannerDataSource.ts:56-83 | a failed check creates no adapter and sends no request; otherwise one adapter and one URL request, then one download per URL; the export fails exactly when some download fails, else it writes `DownloadTargets` |
| Canner.CannerDataSource.Destroy | packages/extension-driver-canner/src/lib/cannerDataSource.ts:147-151 | every registered pool is ended once, in registration order |
| QueryBuilding.GaplessAppend | packages/core/test/template-engine/built-in-extensions/query-builder/operations.spec.ts:54-59 | binding further values after a gapless sequence `$1…$n` keeps it gapless |
| QueryBuilding.GaplessMapSize | packages/core/test/template-engine/built-in-extensions/query-builder/operations.spec.ts:57 | a gapless binding sequence gives a `bindParams` map with exactly one entry per bound value |
| QueryBuilding.GaplessLookup | packages/core/test/template-engine/built-in-extensions/query-builder/operations.spec.ts:58-59 | in a gapless sequence `$k` looks up the k-th bound value |
| QueryBuilding.Parameterizer.GenerateIdentifier | packages/core/test/template-engine/built-in-extensions/query-builder/operations.spec.ts:55-59 | the next value gets `$<index+1>`, appended to the block's own bindings; the bindings stay gapless |
| QueryBuilding.Render | packages/core/test/template-engine/built-in-extensions/query-builder/operations.spec.ts:44-55 | a block's statement has each expression replaced by its identifier, and its values are bound in order after the existing ones |
| QueryBuilding.LastWriteWins | packages/core/test/data-query/builder/limit-offset-clause.spec.ts:51-95 | after any chain of `limit`/`offset`/`take` calls each operation holds the argument of the last call that set it |
| QueryBuilding.DataQueryBuilder.Limit | packages/core/test/data-query/builder/limit-offset-clause.spec.ts:43-47 | `limit` overwrites only the recorded limit and returns the same builder for chaining |
| QueryBuilding.DataQueryBuilder.Offset | packages/core/test/data-query/builder/limit-offset-clause.spec.ts:43-47 | `offset` overwrites only the recorded offset and returns the same builder |
| QueryBuilding.DataQueryBuilder.Take | packages/core/test/data-query/builder/limit-offset-clause.spec.ts:131-138 | `take` overwrites both operations and returns the same builder |
| QueryBuilding.DataQueryBuilder.Value | packages/core/test/template-engine/built-in-extensions/query-builder/operations.spec.ts:54-59 | the recorded limit and then offset are bound through the builder's own parameterizer, and the data source receives the statement, the bound identifiers and the whole binding sequence |
| QueryBuilding.SameScopeScenario | packages/core/test/template-engine/built-in-extensions/query-builder/operations.spec.ts:40-60 | one call: `…id = $1`, limit `$2`, bindings `$1 → id`, `$2 → 2`, two map entries |
| QueryBuilding.SiblingScopeScenario | packages/core/test/template-engine/built-in-extensions/query-builder/operations.spec.ts:62-94 | the user call as above, then the group call `…userName = $1` binding only the fetched name |
| QueryBuilding.NestedScopeScenario | packages/core/test/template-engine/built-in-extensions/query-builder/operations.spec.ts:96-126 | the group block stays open (its parameterizer created first, its text rendered) while the inner user block renders and executes; the calls are the same two as in the sibling test, since only the group's own expression lands in its sequence |
| QueryBuilding.LimitThenOffsetScenario | packages/core/test/data-query/builder/limit-offset-clause.spec.ts:21-49 | `limit(a).offset(b)` records `a` and `b` and binds nothing |
| QueryBuilding.RepeatedCallsScenario | packages/core/test/data-query/builder/limit-offset-clause.spec.ts:51-95 | `limit(a1).offset(b1).offset(b2).limit(a2)` records `a2` and `b2` |
| QueryBuilding.TakeAfterLimitOffsetScenario | packages/core/test/data-query/builder/limit-offset-clause.spec.ts:97-140 | `limit(a1).offset(b1).take(a2, b2)` records `a2` and `b2` |
| Validators.Resolve | packages/core/src/lib/validators/validatorLoader.ts:52-63 | a class found reports the requested name and is one of the candidates; none is found exactly when no candidate reports the name |
| Validators.ResolveAppend | packages/core/src/lib/validators/validatorLoader.ts:52-53 | with the reversed search, a name in the later part of the list wins over the earlier part |
| Validators.ExtensionWins | packages/core/src/lib/validators/validatorLoader.ts:52-57 | with distinct extension names, an extension's name resolves to that extension even if a built-in shares it |
| Validators.BuiltInFallback | packages/core/src/lib/validators/validatorLoader.ts:52-57 | a name no extension reports resolves among the built-ins alone |
| Validators.Reverse | packages/core/src/lib/validators/validatorLoader.ts:53 | the reversed list has the same length, with the element at `i` taken from position `n-1-i` |
| Validators.ValidatorLoader.constructor | packages/core/src/lib/validators/validatorLoader.ts:28-34 | an absent extension list is taken as empty |
| Validators.ValidatorLoader.CheckSameNameValidator | packages/core/src/lib/validators/validatorLoader.ts:66-77 | the check passes exactly when the extension names are distinct; otherwise it names the first class repeating an earlier name |
| Validators.ValidatorLoader.Load | packages/core/src/lib/validators/validatorLoader.ts:35-64 | a duplicate-extension error exactly when extension names clash; otherwise the last candidate reporting the name, or a not-defined error when there is none |
| Validators.SameNameAsWritten | packages/core/src/lib/validators/validatorLoader.ts:66-77 | the object-literal check rejects exactly when names clash or some name is an inherited object key |
| Validators.InheritedNameRejected | packages/core/src/lib/validators/validatorLoader.ts:67-70 | a lone validator named after an inherited key has distinct names, yet the object-literal check rejects it |
| ResponseSampling.NormalizeResponseColumns | packages/build/src/lib/schema-parser/middleware/responseSampler.ts:48-55 | the same columns in order, names kept, each type the input's type with every character upper-cased (letters `a`-`z` to `A`-`Z`, everything else unchanged) |
| ResponseSampling.NormalizeIdempotent | packages/build/src/lib/schema-parser/middleware/responseSampler.ts:48-55 | normalising twice equals normalising once |
| ResponseSampling.UnionByFirstOccurrence | packages/build/src/lib/schema-parser/middleware/responseSampler.ts:57-62 | every entry `unionBy` keeps is the first input entry with its name |
| ResponseSampling.UnionByKeepsUnique | packages/build/src/lib/schema-parser/middleware/responseSampler.ts:57-62 | a list with distinct names passes through `unionBy` unchanged |
| ResponseSampling.UnionByAppend | packages/build/src/lib/schema-parser/middleware/responseSampler.ts:57-62 | `unionBy` over two lists is the first list's result followed by the second's, restricted to names the first did not have |
| ResponseSampling.MergeResponseNames | packages/build/src/lib/schema-parser/middleware/responseSampler.ts:57-62 | the merge has one entry per name, its names are exactly those of both sides, and each entry comes from one side |
| ResponseSampling.MergeResponseDeclaredFirst | packages/build/src/lib/schema-parser/middleware/responseSampler.ts:42-45 | the merge is the deduplicated declared response followed by the sampled columns whose names were not declared |
| ResponseSampling.MergeDeclaredWins | packages/build/src/lib/schema-parser/middleware/responseSampler.ts:42-45 | a declared name is always answered by a declared entry, never by a sampled column |
| ResponseSampling.ResponseSampler.Handle | packages/build/src/lib/schema-parser/middleware/responseSampler.ts:22-46 | without example parameters nothing runs and the schema is unchanged; otherwise one probe with limit 0 and offset 0 runs; if it fails, the handler rejects with its error and the response is unchanged; otherwise the response becomes the merge of the declared response (or none) with the normalised columns |
| SchemaParsing.ParseChain | packages/build/src/lib/schema-parser/schemaParser.ts:54-58 | the registered middleware stay first and untouched, followed by check-parameter and add-missing-errors exactly when metadata is given |
| SchemaParsing.ParseContent | packages/build/src/lib/schema-parser/schemaParser.ts:75-85 | succeeds exactly for YAML the loader accepts; the result has the document's keys plus `sourceName`, document values win, and `sourceName` defaults to the item's name; YAML the loader rejects fails with the loader's error; other formats fail with the unsupported-type message |
| SchemaParsing.ParseAllOnePerItem | packages/build/src/lib/schema-parser/schemaParser.ts:60-67 | a successful parse yields one schema per item, in reader order, each the chain's output on that item's parsed content |
| SchemaParsing.ParseAllStopsAtBadItem | packages/build/src/lib/schema-parser/schemaParser.ts:60-66 | an item in an unsupported format or with YAML the loader rejects fails the whole parse, with that item's error when every earlier item went through |
| SchemaParsing.SchemaParser.constructor | packages/build/src/lib/schema-parser/schemaParser.ts:33-47 | a new parser holds exactly the five global middleware in registration order: generate-url, generate-template-source, transform-validator, check-validator with the loader, fallback-errors |
| SchemaParsing.SchemaParser.Use | packages/build/src/lib/schema-parser/schemaParser.ts:70-73 | `use` appends exactly one middleware and returns the same parser |
| SchemaParsing.SchemaParser.Parse | packages/build/src/lib/schema-parser/schemaParser.ts:49-68 | `parse` equals `ParseAll` of the chain built from a copy of the registered middleware over the reader's items, and leaves the parser unchanged |

## Left out

- Network and driver I/O is not modelled: the pg `Pool` and `Cursor`, axios, the file system, and the `Readable` stream machinery. A cursor is modelled as the backend's rows plus an optional failure once those rows run out, and a directory's existence is a set parameter.
- `downloadFiles` runs its downloads concurrently under `Promise.all`. The model reduces them to a set of failing indices. Write order and partial files are not modelled.
- `path.join` is modelled as a plain '/' join; path normalisation is not.
- Canner.Prepare: bind positions and chunk sizes are JavaScript numbers, taken here as exact naturals. Exponent notation from 1e21, precision loss above 2^53, and negative or fractional chunk sizes are not modelled; `PrepareRoundTrip` and `PrepareInjective` hold for the source only below 2^53, which a bind counter does not leave. Postgres treats a row limit of 0 or less as no limit, which the model covers for 0 only.
- Canner.CannerDataSource.OnActivate: the `select 1` probe, the pool error handler and the logging are left out. In the source a failing probe aborts activation after the earlier profiles were added. The model adds every profile.
- `buildSQL` is modelled as a parameter of `Execute`, and `mapFromPGTypeId` as the `typeOf` parameter.
- `CannerAdapter.createAsyncQueryResultUrls` is modelled as the `presignedUrls` parameter.
- Canner.RowStream.Pull: `autoDestroy` is modelled as destroying the stream as soon as `null` is pushed. Node's scheduling of `read()` calls is not modelled. A falsy row is not distinguished from `null`, since rows are objects.
- Canner.CannerDataSource.Export: a download whose response body errors is not modelled. `pipe` does not forward that error to the write stream, and only the write stream has listeners, so such a download never settles and neither does the export. The model lets every download either finish or fail.
- Canner.OpenRowStream: the model's `Execute` removes the `done` listener before its catch block releases the client. This is the corrected behaviour; the code as written is under Findings.
- Canner.Cursor.EmitDone: `cursor.close()` is taken as synchronous and never failing. In the source a rejected `close()` skips `client.release()`, and the client is never released.
- Canner.RowStream.Pull: a `done` emitted on the cursor by anything other than the stream's `destroy` is not modelled. In the model the client is released when the stream is destroyed; the `once` listener makes a later `done` harmless either way.
- Canner.CannerDataSource.Destroy: a second call is not modelled faithfully. The source does not guard against it either, but pg-pool's `end()` rejects on a pool that was already ended, so the source's second call fails at its first pool and ends nothing; the model records every pool as ended again. pg-pool is not part of this model.
- The DataQueryBuilder, Parameterizer and `req` tag sources are not part of this model. They are modelled from what the tests in operations.spec.ts and limit-offset-clause.spec.ts require. Identifiers come from the driver's `prepare`. At execution the limit is bound before the offset; this order is an assumption the tests do not pin down.
- Template compilation (nunjucks) is reduced to a block's SQL pieces and expression values.
- `koa-compose` and the middleware bodies other than the response sampler are modelled as the `execute` parameter of `Parse`. `Handle` models what happens after `await next()` returns.
- `yaml.load` is modelled as a parameter that returns a string map or the error it throws.
- Asynchronous reading from the schema reader is modelled as a sequence.
- ResponseSampling.NormalizeResponseColumns: `toUpperCase` is modelled for ASCII letters only.
- The probe's outcome, its columns or the error its execution rejects with, comes from the `columnsOf` parameter of the template engine.
- `defaultImport`, `mergedModules` and `flatten` are modelled as the `builtInClasses` and `exportedValidators` parameters of `Load`.
- Instantiating a validator class is modelled as the name its instances report.
- Validators.ValidatorLoader.Load: `if (this.extensions)` is always true, because an empty array is truthy. The duplicate check therefore always runs, and the model runs it unconditionally.
- Validators.ValidatorLoader.CheckSameNameValidator: the model checks name membership in a real map. This is the corrected behaviour; the code as written is under Findings.
- Dependency injection, logging and error message texts other than the parse errors are not modelled.

## Findings

| source | as written | input that shows it | evidently intended | confidence | as-written member | corrected member |
|---|---|---|---|---|---|---|
| packages/core/src/lib/validators/validatorLoader.ts:67-70 | `checkSameNameValidator` registers names in an object literal and tests `validator.name in map`, which also holds for keys inherited from `Object.prototype` | one extension validator whose name is `constructor` (or `toString`, `valueOf`, …) is reported as defined in other extensions | a name is a duplicate only when an earlier extension class reports it | high, not executed | Validators.SameNameAsWritten, Validators.InheritedNameRejected | Validators.ValidatorLoader.CheckSameNameValidator |
| packages/extension-driver-canner/src/lib/cannerDataSource.ts:124-140 | `execute` registers `cursor.once('done', …)`, which closes the cursor and releases the client; when the first read fails, the catch block releases the client too, and the listener stays registered | a query whose first read fails: if anything other than the stream's `destroy` (the only `emit('done')` in this file, line 183) emits `done` on the cursor afterwards, the listener releases the already released client a second time | the client is released exactly once on every path | low, not executed; nothing in the repository emits `done` on this path, and pg-cursor, which would have to, is not part of this model | Canner.OpenRowStreamAsWritten, Canner.DoneAfterFailedReadAsWritten | Canner.OpenRowStream, Canner.DoneAfterFailedRead |
