/**
 The document-processing configuration builder: it selects a default parsing
 strategy, optionally attaches layout-based chunking, validates and stores
 per-file-type parsing overrides, and finally checks the chunking options.
 Validation stops at the first violated rule, in the order the builder
 checks them.
 */
module Processing {
  import opened Wrappers
  import opened Paths

  const DigitalParsing: string := "digital_parsing_config"
  const OcrParsing: string := "ocr_parsing_config"
  const LayoutParsing: string := "layout_parsing_config"

  /** The file types that may carry a parsing override. */
  const SupportedFileTypes: seq<string> := ["pdf", "html", "docx", "pptx", "xlsm", "xlsx"]

  const MinChunkSize: int := 100
  const MaxChunkSize: int := 500

  /** The chunking message stores its size in a 32-bit signed field. */
  const Int32Min: int := -0x8000_0000
  const Int32Max: int := 0x7FFF_FFFF

  /** The one parsing strategy a parsing configuration selects; `Unset` when it selects none. */
  datatype ParsingConfig = Unset | Digital | Ocr(useNativeText: bool) | Layout

  datatype ChunkingConfig = LayoutBasedChunking(chunkSize: int, includeAncestorHeadings: bool)

  datatype DocumentProcessingConfig = DocumentProcessingConfig(
    name: string,
    defaultParsingConfig: ParsingConfig,
    chunkingConfig: Option<ChunkingConfig>,
    parsingConfigOverrides: map<string, ParsingConfig>)

  /**
   One value of the override dictionary: its `parsing_config_type` and
   `use_native_text` entries, each of which may be absent.
   */
  datatype OverrideSpec = OverrideSpec(parsingConfigType: Option<string>, useNativeText: Option<bool>)

  /**
   The caller's options. `fileTypeOverrides` lists the override dictionary's
   items in iteration order; a missing dictionary is the empty list.
   */
  datatype ProcessingOptions = ProcessingOptions(
    parsingConfigType: string,
    useNativeText: bool,
    enableChunking: bool,
    chunkSize: int,
    includeAncestorHeadings: bool,
    fileTypeOverrides: seq<(string, OverrideSpec)>)

  /** The options a caller gets by passing only the data store id. */
  const DefaultOptions: ProcessingOptions := ProcessingOptions(LayoutParsing, false, false, 500, true, [])

  /**
   The `ValueError`s the builder raises, one per rule, and the one the
   chunking message raises for a size that does not fit its 32-bit field.
   */
  datatype ConfigError =
    | InvalidParsingConfigType
    | ChunkSizeNotInt32
    | UnsupportedFileType(fileType: string)
    | DigitalUnsupportedFor(fileType: string)
    | OcrOnlyForPdf
    | InvalidOverrideParsingConfigType
    | ChunkingRequiresLayout
    | ChunkSizeOutOfRange

  // ---------------------------------------------------------------------------
  // Reference definitions: which inputs each rule accepts, stated on their own.
  // ---------------------------------------------------------------------------

  predicate KnownStrategy(name: string) {
    name == DigitalParsing || name == OcrParsing || name == LayoutParsing
  }

  /** The strategy name a parsing configuration was built from; `None` for `Unset`. */
  function StrategyOf(pc: ParsingConfig): Option<string> {
    match pc
    case Unset => None
    case Digital => Some(DigitalParsing)
    case Ocr(_) => Some(OcrParsing)
    case Layout => Some(LayoutParsing)
  }

  /** An override is accepted for a supported file type whose strategy, if given, is known and, for OCR, is on a pdf. */
  predicate OverrideAccepted(fileType: string, spec: OverrideSpec) {
    && fileType in SupportedFileTypes
    && match spec.parsingConfigType
       case None => true
       case Some(t) => t == DigitalParsing || t == LayoutParsing || (t == OcrParsing && fileType == "pdf")
  }

  predicate AllOverridesAccepted(overrides: seq<(string, OverrideSpec)>) {
    forall i :: 0 <= i < |overrides| ==> OverrideAccepted(overrides[i].0, overrides[i].1)
  }

  /** Item `i` is the first override that is not accepted. */
  predicate FirstRejected(overrides: seq<(string, OverrideSpec)>, i: int) {
    && 0 <= i < |overrides|
    && !OverrideAccepted(overrides[i].0, overrides[i].1)
    && forall j :: 0 <= j < i ==> OverrideAccepted(overrides[j].0, overrides[j].1)
  }

  function FileTypes(overrides: seq<(string, OverrideSpec)>): set<string> {
    set i | 0 <= i < |overrides| :: overrides[i].0
  }

  /** A dictionary's items never repeat a key. */
  predicate DistinctFileTypes(overrides: seq<(string, OverrideSpec)>) {
    forall i, j :: 0 <= i < j < |overrides| ==> overrides[i].0 != overrides[j].0
  }

  predicate InInt32(n: int) {
    Int32Min <= n <= Int32Max
  }

  predicate ChunkSizeInRange(chunkSize: int) {
    MinChunkSize <= chunkSize <= MaxChunkSize
  }

  /** Every rule holds: the options the builder turns into a configuration. */
  predicate ValidOptions(o: ProcessingOptions) {
    && KnownStrategy(o.parsingConfigType)
    && AllOverridesAccepted(o.fileTypeOverrides)
    && (o.enableChunking ==> o.parsingConfigType == LayoutParsing)
    && ChunkSizeInRange(o.chunkSize)
  }

  // ---------------------------------------------------------------------------
  // The builder.
  // ---------------------------------------------------------------------------

  /** The default parsing configuration for a strategy name. */
  function BaseParsingConfig(parsingConfigType: string, useNativeText: bool): (r: Result<ParsingConfig, ConfigError>)
    ensures r.Success? <==> KnownStrategy(parsingConfigType)
    ensures r.Failure? ==> r.error == InvalidParsingConfigType
    ensures r.Success? ==> StrategyOf(r.value) == Some(parsingConfigType)
    ensures r.Success? && r.value.Ocr? ==> r.value.useNativeText == useNativeText
  {
    if parsingConfigType == DigitalParsing then Success(Digital)
    else if parsingConfigType == OcrParsing then Success(Ocr(useNativeText))
    else if parsingConfigType == LayoutParsing then Success(Layout)
    else Failure(InvalidParsingConfigType)
  }

  /**
   The parsing configuration stored for one override item. The check for
   digital parsing repeats the file-type check made just before it, so its
   error is never produced.
   */
  function OverrideConfig(fileType: string, spec: OverrideSpec): (r: Result<ParsingConfig, ConfigError>)
    ensures r.Success? <==> OverrideAccepted(fileType, spec)
    ensures fileType !in SupportedFileTypes ==> r == Failure(UnsupportedFileType(fileType))
    ensures fileType in SupportedFileTypes && spec.parsingConfigType == Some(OcrParsing) && fileType != "pdf" ==>
                r == Failure(OcrOnlyForPdf)
    ensures fileType in SupportedFileTypes && spec.parsingConfigType.Some? && !KnownStrategy(spec.parsingConfigType.value) ==>
                r == Failure(InvalidOverrideParsingConfigType)
    ensures !(r.Failure? && r.error.DigitalUnsupportedFor?)
    ensures r.Success? ==> StrategyOf(r.value) == spec.parsingConfigType
    ensures r.Success? && r.value.Ocr? ==> r.value.useNativeText == spec.useNativeText.GetOr(false)
  {
    if fileType !in SupportedFileTypes then
      Failure(UnsupportedFileType(fileType))
    else
      match spec.parsingConfigType
      case None => Success(Unset)
      case Some(t) =>
        if t == DigitalParsing then
          if fileType !in SupportedFileTypes then Failure(DigitalUnsupportedFor(fileType)) else Success(Digital)
        else if t == OcrParsing then
          if fileType != "pdf" then Failure(OcrOnlyForPdf) else Success(Ocr(spec.useNativeText.GetOr(false)))
        else if t == LayoutParsing then
          Success(Layout)
        else
          Failure(InvalidOverrideParsingConfigType)
  }

  /**
   Walks the override items in order, storing each one's parsing
   configuration under its file type in `stored`, and stops at the first
   item that is rejected.
   */
  function StoreOverrides(stored: map<string, ParsingConfig>, overrides: seq<(string, OverrideSpec)>): (r: Result<map<string, ParsingConfig>, ConfigError>)
    ensures r.Success? <==> AllOverridesAccepted(overrides)
    ensures forall i :: FirstRejected(overrides, i) ==> r == Failure(OverrideConfig(overrides[i].0, overrides[i].1).error)
    ensures r.Success? ==> r.value.Keys == stored.Keys + FileTypes(overrides)
    ensures r.Success? ==> forall k :: k in stored && k !in FileTypes(overrides) ==> r.value[k] == stored[k]
    ensures r.Success? && DistinctFileTypes(overrides) ==>
              forall i :: 0 <= i < |overrides| ==> OverrideConfig(overrides[i].0, overrides[i].1) == Success(r.value[overrides[i].0])
    decreases |overrides|
  {
    if |overrides| == 0 then
      Success(stored)
    else
      var (fileType, spec) := overrides[0];
      var config :- OverrideConfig(fileType, spec);
      var r := StoreOverrides(stored[fileType := config], overrides[1..]);
      assert FileTypes(overrides) == {fileType} + FileTypes(overrides[1..]) by {
        forall k | k in FileTypes(overrides) ensures k in {fileType} + FileTypes(overrides[1..]) {
          var i :| 0 <= i < |overrides| && overrides[i].0 == k;
          if i > 0 {
            assert overrides[1..][i - 1].0 == k;
          }
        }
        forall k | k in FileTypes(overrides[1..]) ensures k in FileTypes(overrides) {
          var i :| 0 <= i < |overrides[1..]| && overrides[1..][i].0 == k;
          assert overrides[i + 1].0 == k;
        }
      }
      r
  }

  /** `generate_document_processing_config`: validates the options and builds the configuration. */
  function GenerateDocumentProcessingConfig(b: Builder, dataStoreId: string, o: ProcessingOptions): (r: Result<DocumentProcessingConfig, ConfigError>)
    ensures r.Success? <==> ValidOptions(o)
    ensures !KnownStrategy(o.parsingConfigType) ==> r == Failure(InvalidParsingConfigType)
    ensures KnownStrategy(o.parsingConfigType) && o.enableChunking && !InInt32(o.chunkSize) ==>
                r == Failure(ChunkSizeNotInt32)
    ensures KnownStrategy(o.parsingConfigType) && (o.enableChunking ==> InInt32(o.chunkSize)) ==>
              forall i :: FirstRejected(o.fileTypeOverrides, i) ==>
                r == Failure(OverrideConfig(o.fileTypeOverrides[i].0, o.fileTypeOverrides[i].1).error)
    ensures KnownStrategy(o.parsingConfigType) && AllOverridesAccepted(o.fileTypeOverrides)
              && o.enableChunking && InInt32(o.chunkSize) && o.parsingConfigType != LayoutParsing ==>
                r == Failure(ChunkingRequiresLayout)
    ensures KnownStrategy(o.parsingConfigType) && AllOverridesAccepted(o.fileTypeOverrides)
              && (o.enableChunking ==> InInt32(o.chunkSize) && o.parsingConfigType == LayoutParsing)
              && !ChunkSizeInRange(o.chunkSize) ==>
                r == Failure(ChunkSizeOutOfRange)
    ensures r.Success? ==> r.value.name == ProcessingConfigName(b, dataStoreId)
    ensures r.Success? ==> StrategyOf(r.value.defaultParsingConfig) == Some(o.parsingConfigType)
    ensures r.Success? && r.value.defaultParsingConfig.Ocr? ==> r.value.defaultParsingConfig.useNativeText == o.useNativeText
    ensures r.Success? ==> (r.value.chunkingConfig.Some? <==> o.enableChunking)
    ensures r.Success? && o.enableChunking ==>
              r.value.chunkingConfig.value.chunkSize == o.chunkSize
              && r.value.chunkingConfig.value.includeAncestorHeadings == o.includeAncestorHeadings
    ensures r.Success? ==> r.value.parsingConfigOverrides.Keys == FileTypes(o.fileTypeOverrides)
    ensures r.Success? && DistinctFileTypes(o.fileTypeOverrides) ==>
              forall i :: 0 <= i < |o.fileTypeOverrides| ==>
                OverrideConfig(o.fileTypeOverrides[i].0, o.fileTypeOverrides[i].1)
                  == Success(r.value.parsingConfigOverrides[o.fileTypeOverrides[i].0])
  {
    var base :- BaseParsingConfig(o.parsingConfigType, o.useNativeText);
    var chunking :-
      if !o.enableChunking then Success(None)
      else if !InInt32(o.chunkSize) then Failure(ChunkSizeNotInt32)
      else Success(Some(LayoutBasedChunking(o.chunkSize, o.includeAncestorHeadings)));
    var overrides :- StoreOverrides(map[], o.fileTypeOverrides);
    if o.enableChunking && o.parsingConfigType != LayoutParsing then
      Failure(ChunkingRequiresLayout)
    else if o.chunkSize < MinChunkSize || o.chunkSize > MaxChunkSize then
      Failure(ChunkSizeOutOfRange)
    else
      Success(DocumentProcessingConfig(ProcessingConfigName(b, dataStoreId), base, chunking, overrides))
  }

  // ---------------------------------------------------------------------------
  // Properties relating several calls or several rules.
  // ---------------------------------------------------------------------------

  /** When some override is rejected, there is a first one. */
  lemma {:induction false} FirstRejectedExists(overrides: seq<(string, OverrideSpec)>)
    requires !AllOverridesAccepted(overrides)
    ensures exists i :: FirstRejected(overrides, i)
    decreases |overrides|
  {
    if OverrideAccepted(overrides[0].0, overrides[0].1) {
      var rest := overrides[1..];
      assert !AllOverridesAccepted(rest) by {
        var k :| 0 <= k < |overrides| && !OverrideAccepted(overrides[k].0, overrides[k].1);
        assert rest[k - 1] == overrides[k];
      }
      FirstRejectedExists(rest);
      var i :| FirstRejected(rest, i);
      forall j | 0 <= j < i + 1 ensures OverrideAccepted(overrides[j].0, overrides[j].1) {
        if j > 0 {
          assert overrides[j] == rest[j - 1];
        }
      }
      assert overrides[i + 1] == rest[i];
      assert FirstRejected(overrides, i + 1);
    } else {
      assert FirstRejected(overrides, 0);
    }
  }

  /**
   A chunk size that does not fit the chunking message's 32-bit field is
   reported as soon as the chunking block is built, before any override is
   looked at.
   */
  lemma Int32ErrorBeforeOverrides(b: Builder, dataStoreId: string, o: ProcessingOptions)
    requires KnownStrategy(o.parsingConfigType)
    requires o.enableChunking && !InInt32(o.chunkSize)
    ensures GenerateDocumentProcessingConfig(b, dataStoreId, o) == Failure(ChunkSizeNotInt32)
  {
  }

  /** A size of 2^31 with chunking enabled beats an unsupported file type. */
  lemma HugeChunkSizeExample(b: Builder, dataStoreId: string)
    ensures GenerateDocumentProcessingConfig(b, dataStoreId,
              ProcessingOptions(LayoutParsing, false, true, 0x8000_0000, true, [("txt", OverrideSpec(None, None))]))
              == Failure(ChunkSizeNotInt32)
  {
  }

  /**
   With a known base strategy and a chunking block that can be built, a
   rejected override decides the outcome: the first rejected item's own error
   is reported, never a chunking-strategy or chunk-range error.
   */
  lemma OverrideErrorsComeFirst(b: Builder, dataStoreId: string, o: ProcessingOptions)
    requires KnownStrategy(o.parsingConfigType)
    requires o.enableChunking ==> InInt32(o.chunkSize)
    requires !AllOverridesAccepted(o.fileTypeOverrides)
    ensures exists i :: FirstRejected(o.fileTypeOverrides, i) &&
              GenerateDocumentProcessingConfig(b, dataStoreId, o)
                == Failure(OverrideConfig(o.fileTypeOverrides[i].0, o.fileTypeOverrides[i].1).error)
    ensures GenerateDocumentProcessingConfig(b, dataStoreId, o).Failure?
    ensures GenerateDocumentProcessingConfig(b, dataStoreId, o).error !in {ChunkingRequiresLayout, ChunkSizeOutOfRange}
  {
    FirstRejectedExists(o.fileTypeOverrides);
    var i :| FirstRejected(o.fileTypeOverrides, i);
    var item := o.fileTypeOverrides[i];
    assert !OverrideAccepted(item.0, item.1);
  }

  /** The chunk-size bound applies even when chunking is disabled. */
  lemma ChunkSizeCheckedWithoutChunking(b: Builder, dataStoreId: string, o: ProcessingOptions)
    requires !o.enableChunking
    requires !ChunkSizeInRange(o.chunkSize)
    ensures GenerateDocumentProcessingConfig(b, dataStoreId, o).Failure?
    ensures KnownStrategy(o.parsingConfigType) && AllOverridesAccepted(o.fileTypeOverrides) ==>
              GenerateDocumentProcessingConfig(b, dataStoreId, o).error == ChunkSizeOutOfRange
  {
  }

  /** Enabling chunking with a strategy other than layout always fails. */
  lemma ChunkingNeedsLayout(b: Builder, dataStoreId: string, o: ProcessingOptions)
    requires o.enableChunking && o.parsingConfigType != LayoutParsing
    ensures GenerateDocumentProcessingConfig(b, dataStoreId, o).Failure?
  {
  }

  /**
   Every chunk size in [100, 500] passes the size check: changing only the
   size within that range never changes whether the options are accepted.
   */
  lemma ChunkSizeRangeAccepted(b: Builder, dataStoreId: string, o: ProcessingOptions, size: int)
    requires ChunkSizeInRange(size)
    ensures GenerateDocumentProcessingConfig(b, dataStoreId, o.(chunkSize := size)).Success? <==>
              KnownStrategy(o.parsingConfigType) && AllOverridesAccepted(o.fileTypeOverrides)
              && (o.enableChunking ==> o.parsingConfigType == LayoutParsing)
  {
  }

  /** The options a caller gets by default are accepted and select layout parsing without chunking. */
  lemma DefaultOptionsAccepted(b: Builder, dataStoreId: string)
    ensures GenerateDocumentProcessingConfig(b, dataStoreId, DefaultOptions)
              == Success(DocumentProcessingConfig(ProcessingConfigName(b, dataStoreId), Layout, None, map[]))
  {
    assert FileTypes([]) == {};
  }

  /** Layout parsing with chunking enabled and size 500 yields a chunking block of size 500. */
  lemma LayoutChunkingExample(b: Builder, dataStoreId: string)
    ensures var r := GenerateDocumentProcessingConfig(b, dataStoreId, ProcessingOptions(LayoutParsing, false, true, 500, true, []));
            r.Success? && r.value.chunkingConfig == Some(LayoutBasedChunking(500, true))
  {
  }

  /** Digital parsing with chunking enabled fails even with a valid size. */
  lemma DigitalChunkingExample(b: Builder, dataStoreId: string)
    ensures GenerateDocumentProcessingConfig(b, dataStoreId, ProcessingOptions(DigitalParsing, false, true, 300, true, []))
              == Failure(ChunkingRequiresLayout)
  {
  }

  /** An unsupported file type is reported even when the chunk size is also out of range. */
  lemma FileTypeErrorBeforeChunkSize(b: Builder, dataStoreId: string)
    ensures GenerateDocumentProcessingConfig(b, dataStoreId,
              ProcessingOptions(LayoutParsing, false, false, 50, true, [("txt", OverrideSpec(None, None))]))
              == Failure(UnsupportedFileType("txt"))
  {
    assert FirstRejected([("txt", OverrideSpec(None, None))], 0);
  }

  /**
   Overrides are not held to the chunking rule: layout chunking with an OCR
   override for pdf succeeds, the override defaulting `use_native_text` to
   false and an override without a strategy storing an empty configuration.
   */
  lemma OverridesIndependentOfChunking(b: Builder, dataStoreId: string)
    ensures var overrides := [("pdf", OverrideSpec(Some(OcrParsing), None)), ("html", OverrideSpec(None, Some(true)))];
            var r := GenerateDocumentProcessingConfig(b, dataStoreId, ProcessingOptions(LayoutParsing, false, true, 250, false, overrides));
            r.Success? && r.value.parsingConfigOverrides == map["pdf" := Ocr(false), "html" := Unset]
  {
    var overrides := [("pdf", OverrideSpec(Some(OcrParsing), None)), ("html", OverrideSpec(None, Some(true)))];
    assert AllOverridesAccepted(overrides);
    assert DistinctFileTypes(overrides);
    assert FileTypes(overrides) == {"pdf", "html"} by {
      assert overrides[0].0 == "pdf" && overrides[1].0 == "html";
    }
  }
}
