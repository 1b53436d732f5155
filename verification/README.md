# Agent Builder request model

This project models the local decision logic of `AgentBuilderUtil`, a thin
helper over a managed search and document-AI service. The helper builds
request objects and hands them to remote clients. Three of its operations
have logic worth stating, and each is modelled here as a pure function over
plain datatypes:

- **Document-processing configuration** (`Processing`). The function maps a
  base parsing-strategy name (`digital_parsing_config`, `ocr_parsing_config`,
  `layout_parsing_config`) to a parsing configuration. It names the
  configuration after the data store. It attaches a layout-based chunking
  block when chunking is enabled. It then walks the per-file-type overrides
  in dictionary order, validating each one and storing it under its file
  type. Last, it rejects chunking with a non-layout base strategy and rejects
  a chunk size outside [100, 500]. Building the chunking block already fails
  when the size does not fit the block's 32-bit field, so with chunking
  enabled such a size is reported before any override. Every `ValueError`
  the builder raises is a `ConfigError` in a `Result`, and the first rule
  violated decides the error.
- **Search request** (`SearchRequests`). The function assembles the request
  record. The extractive-content block is always present. There is a snippet
  block only when `return_snippet` is true, a chunk block only in `CHUNKS`
  mode, and a spell-correction block only when the mode is a non-empty
  string.
- **Import source selection** (`ImportRequests`). A non-empty object-storage
  URI selects an object-storage source with schema `document`. Otherwise a
  warehouse-table source with schema `custom` is used. Reconciliation is
  always incremental.

`Paths` holds the resource names these requests carry, as '/'-joined
segments. `Wrappers` holds `Option` and `Result`.

Besides the operations, the model defines what their results mean:

- `ValidOptions` lists every rule an accepted configuration request obeys.
  The builder succeeds exactly on the options that satisfy it, and its
  errors follow the order of the checks.
- `Canonical` keeps the part of the search options that reaches the request,
  and `RequestOptions` reads options back from a request. Two option sets
  yield the same request exactly when their canonical forms agree.
- `SourceOf` reads back which source an import request uses.
- `DataStoreIdOf` parses a resource name and recovers the data store id.

Three facts about the code shape the model:

- The chunk-size bound (util/agent_builder.py:93) is checked on every call,
  even when chunking is disabled.
- The spell-correction block (util/agent_builder.py:291) is attached exactly
  when the mode is a non-empty string.
- The configuration name (util/agent_builder.py:52) is not injective over the
  whole (project, location, collection, id) tuple. It is injective when no
  component contains '/'. For example, project `p/locations/l` with location
  `m` formats the same name as project `p` with location `l/locations/m`.

Python values are represented as follows:

- A missing override dictionary, like an empty one, is the empty list.
- An override value is a record of its two optional keys.
- An optional argument that is left at `None` is `Option.None`.
- Scalar fields of a request message (strings, integers, flags) have no
  presence. An argument left at `None` is stored as the zero value (`""`,
  `0`, `false`), exactly as if the zero value had been passed. This holds
  for the search filter, page size, extractive limits and chunk counts, and
  for the warehouse dataset and table of an import.
- Truthiness is spelled out: `Truthy` for an optional flag, `NonEmpty` for an
  optional string.

## Model

| member | source | states |
|---|---|---|
| Paths.ProcessingConfigNameRoundTrip | util/agent_builder.py:52 | the data store id can be read back from the configuration name `projects/{p}/locations/{l}/collections/{c}/dataStores/{id}/documentProcessingConfig` |
| Paths.ServingConfigPathRoundTrip | util/agent_builder.py:258 | the data store id can be read back from the serving-config path `.../dataStores/{id}/servingConfigs/default_serving_config` |
| Paths.ProcessingConfigNameInjective | util/agent_builder.py:52 | under one builder, two different data store ids never yield the same configuration name |
| Paths.ServingConfigPathInjective | util/agent_builder.py:258 | under one builder, two different data store ids never yield the same serving-config path |
| Paths.ProcessingConfigNameDeterminesTuple | util/agent_builder.py:52 | when no component contains '/', equal configuration names imply equal project, location, collection and data store id |
| Processing.BaseParsingConfig | util/agent_builder.py:38-49 | a base strategy name is accepted iff it is one of the three known names; the error is always "Invalid parsing_config_type"; the result selects the named strategy and carries `use_native_text` for OCR |
| Processing.OverrideConfig | util/agent_builder.py:64-86 | an override is accepted iff its file type is supported and its strategy is absent, digital or layout, or is OCR on pdf; each rejection has its own error; absent strategy stores an empty parsing config; OCR stores `use_native_text`, defaulting to false; the digital-only file-type error is never produced |
| Processing.StoreOverrides | util/agent_builder.py:64-88 | all overrides succeed iff every item is accepted; otherwise the first rejected item's error is reported; on success the stored keys are the earlier keys plus exactly the supplied file types, and with distinct keys each file type holds its own item's configuration |
| Processing.GenerateDocumentProcessingConfig | util/agent_builder.py:27-96 | succeeds iff all rules hold; an unknown base name fails first, then, with chunking enabled, a size outside the 32-bit range, then the first rejected override, then chunking without layout, then a size outside [100, 500]; on success the name, default parsing, chunking block (present iff enabled, with the given size and heading flag) and override keys are as supplied |
| Processing.FirstRejectedExists | util/agent_builder.py:64-67 | when some override item is rejected, a first rejected item exists in iteration order |
| Processing.Int32ErrorBeforeOverrides | util/agent_builder.py:56-62 | with a known base strategy and chunking enabled, a size outside the 32-bit range fails when the chunking block is built, before any override is examined |
| Processing.HugeChunkSizeExample | util/agent_builder.py:56-67 | chunk size 2^31 with chunking enabled and an unsupported `txt` override reports the 32-bit error, not the file-type error |
| Processing.OverrideErrorsComeFirst | util/agent_builder.py:64-94 | with a known base strategy, a chunking block that can be built, and a rejected override, the call fails with the first rejected item's error and never with a chunking or chunk-size error |
| Processing.ChunkSizeCheckedWithoutChunking | util/agent_builder.py:93-94 | with chunking disabled, a size outside [100, 500] still makes the call fail, with the size error once the earlier rules pass |
| Processing.ChunkingNeedsLayout | util/agent_builder.py:90-91 | enabling chunking with any base strategy other than layout always fails |
| Processing.ChunkSizeRangeAccepted | util/agent_builder.py:90-96 | for any size in [100, 500], the outcome depends only on the other rules |
| Processing.DefaultOptionsAccepted | util/agent_builder.py:27-36 | the default arguments yield layout parsing, no chunking block and no overrides |
| Processing.LayoutChunkingExample | util/agent_builder.py:56-62 | layout parsing with chunking at size 500 yields a chunking block of size 500 |
| Processing.DigitalChunkingExample | util/agent_builder.py:90-91 | digital parsing with chunking at size 300 fails with the chunking error |
| Processing.FileTypeErrorBeforeChunkSize | util/agent_builder.py:64-67 | an unsupported file type combined with chunk size 50 reports the file-type error |
| Processing.OverridesIndependentOfChunking | util/agent_builder.py:69-88 | overrides are not held to the chunking rule; an OCR pdf override defaults `use_native_text` to false, and an override without a strategy is stored empty |
| SearchRequests.GenerateSearchRequest | util/agent_builder.py:242-296 | the serving config has the fixed shape; query, filter, page size and the extractive-content limits are carried, an absent one as its zero value; the snippet block is present iff the flag is true; the chunk block is present iff the mode is `CHUNKS` and carries the counts; spell correction is present iff the mode is non-empty |
| SearchRequests.SearchRequestRoundTrip | util/agent_builder.py:257-296 | reading the options back from a request gives exactly their canonical form, in which a zero scalar is the same as an absent one |
| SearchRequests.RequestDependsOnCanonical | util/agent_builder.py:278-294 | the request depends only on the canonical form of the options |
| SearchRequests.SameRequestIffSameCanonical | util/agent_builder.py:257-296 | two option sets produce the same request iff their canonical forms are equal; for example, `None` and `""` as filter or `None` and `0` as page size give the same request |
| SearchRequests.ZeroValueIsNoValue | util/agent_builder.py:257-262 | passing `""` as filter and `0` as page size builds the same request as leaving both at `None` |
| SearchRequests.ChunkCountsIgnoredOutsideChunkMode | util/agent_builder.py:283-287 | outside `CHUNKS` mode there is no chunk block, and supplied chunk counts do not change the request |
| SearchRequests.DefaultSearchRequest | util/agent_builder.py:254-294 | a request built from the defaults asks for suggestion-only spell correction and has neither a snippet nor a chunk block |
| ImportRequests.ImportDocumentsRequestFor | util/agent_builder.py:133-151 | exactly one source is set; it is object storage with the single URI and schema `document` iff the URI is non-empty, and otherwise a warehouse table with the builder's project, the given dataset and table (an absent one as `""`) and schema `custom`; reconciliation is always incremental |
| ImportRequests.ImportSourceRoundTrip | util/agent_builder.py:133-151 | the source read back from a request is the URI when it is non-empty, and otherwise the dataset and table, an absent one read as `""` |
| ImportRequests.GcsIgnoresBigQueryArguments | util/agent_builder.py:133-140 | with a non-empty URI, the warehouse arguments do not affect the request |
| ImportRequests.EmptyUriIsNoUri | util/agent_builder.py:133-151 | an empty URI and a missing URI select the same warehouse import |
| ImportRequests.MissingTableIsEmptyTable | util/agent_builder.py:141-150 | a missing dataset and table give the same warehouse import as empty ones |

## Left out

- Client construction and regional endpoint selection (util/agent_builder.py:14-23) are left out. They configure remote SDK clients and make no local decision about requests.
- `create_datastore` and `create_engine` are left out. They forward fixed request shapes to remote clients, and `create_engine` blocks on the remote operation.
- `list_documents`, `get_processed_document`, `get_chunk`, `list_chunks` and `get_document` are left out. Each is a one-to-one forward to a remote client.
- `check_index_status` is left out because it is a remote fetch and a message-to-dict conversion. Its exception handler builds an `Exception` but never raises it, so a failed check returns `None`, just as a document that is not yet indexed does. The model does not show that loss of information.
- `branch_path` is left out because it is a client helper whose format is not part of this model. In the import model, `parent` is an opaque input.
- Submitting the import request and returning the operation handle are left out. These are remote calls.
- Logging is left out.
- The 32-bit range of the integer fields of the search request (page size, extractive limits, chunk counts) is left out. An out-of-range value there makes the message constructor raise, and the model carries the value unchanged.
- Protobuf coercion of field values is left out. This includes rejecting a mode string that is not an enum name and rejecting values of the wrong Python type. The model's inputs are already typed.
- Paths.ProcessingConfigNameDeterminesTuple: this only holds when no component contains '/'. The formatter itself does not enforce that, and the example in the introduction shows two tuples that collide.
