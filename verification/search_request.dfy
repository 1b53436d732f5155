/**
 The search-request builder: a record assembled from the caller's options,
 with an extractive-content block always present and the snippet, chunk and
 spell-correction blocks present only when the options call for them.
 */
module SearchRequests {
  import opened Wrappers
  import opened Paths

  const DocumentsMode: string := "DOCUMENTS"
  const ChunksMode: string := "CHUNKS"
  const SuggestionOnly: string := "SUGGESTION_ONLY"

  /*
   Scalar fields of the request message have no presence: an argument left
   at `None` is stored as the field's zero value ("", 0 or false), the same
   as passing that zero value. Sub-messages do have presence and are
   `Option`s here.
   */

  datatype ExtractiveContentSpec = ExtractiveContentSpec(
    maxExtractiveAnswerCount: int,
    maxExtractiveSegmentCount: int,
    returnExtractiveSegmentScore: bool)

  datatype SnippetSpec = SnippetSpec(returnSnippet: bool)

  datatype ChunkSpec = ChunkSpec(numPreviousChunks: int, numNextChunks: int)

  datatype ContentSearchSpec = ContentSearchSpec(
    searchResultMode: string,
    extractiveContentSpec: ExtractiveContentSpec,
    snippetSpec: Option<SnippetSpec>,
    chunkSpec: Option<ChunkSpec>)

  datatype SpellCorrectionSpec = SpellCorrectionSpec(mode: string)

  datatype SearchRequest = SearchRequest(
    servingConfig: string,
    query: string,
    filter: string,
    pageSize: int,
    contentSearchSpec: ContentSearchSpec,
    spellCorrectionSpec: Option<SpellCorrectionSpec>)

  /** The caller's options; `None` is an argument left at its `None` default. */
  datatype SearchOptions = SearchOptions(
    query: string,
    filter: Option<string>,
    pageSize: Option<int>,
    maxExtractiveAnswerCount: Option<int>,
    maxExtractiveSegmentCount: Option<int>,
    returnExtractiveSegmentScore: Option<bool>,
    returnSnippet: Option<bool>,
    numPreviousChunks: Option<int>,
    numNextChunks: Option<int>,
    searchResultMode: string,
    spellCorrectionMode: Option<string>)

  /** The options a caller gets by passing only the query. */
  function DefaultSearchOptions(query: string): SearchOptions {
    SearchOptions(query, None, None, None, None, None, None, None, None, DocumentsMode, Some(SuggestionOnly))
  }

  /** Python truthiness of an optional flag. */
  predicate Truthy(flag: Option<bool>) {
    flag == Some(true)
  }

  /** An argument as the message sees it: passing the zero value is the same as passing nothing. */
  function Present<T(==)>(x: Option<T>, zero: T): Option<T> {
    if x == Some(zero) then None else x
  }

  /** A message field read back as an argument: the zero value reads as absent. */
  function Presence<T(==)>(v: T, zero: T): Option<T> {
    if v == zero then None else Some(v)
  }

  /** `generate_search_request`. */
  function GenerateSearchRequest(b: Builder, dataStoreId: string, o: SearchOptions): (r: SearchRequest)
    ensures r.servingConfig == ServingConfigPath(b, dataStoreId)
    ensures r.query == o.query && r.filter == o.filter.GetOr("") && r.pageSize == o.pageSize.GetOr(0)
    ensures r.contentSearchSpec.searchResultMode == o.searchResultMode
    ensures r.contentSearchSpec.extractiveContentSpec
              == ExtractiveContentSpec(o.maxExtractiveAnswerCount.GetOr(0), o.maxExtractiveSegmentCount.GetOr(0),
                                       o.returnExtractiveSegmentScore.GetOr(false))
    ensures r.contentSearchSpec.snippetSpec.Some? <==> Truthy(o.returnSnippet)
    ensures r.contentSearchSpec.snippetSpec.Some? ==> r.contentSearchSpec.snippetSpec.value.returnSnippet
    ensures r.contentSearchSpec.chunkSpec.Some? <==> o.searchResultMode == ChunksMode
    ensures r.contentSearchSpec.chunkSpec.Some? ==>
              r.contentSearchSpec.chunkSpec.value.numPreviousChunks == o.numPreviousChunks.GetOr(0)
              && r.contentSearchSpec.chunkSpec.value.numNextChunks == o.numNextChunks.GetOr(0)
    ensures r.spellCorrectionSpec.Some? <==> NonEmpty(o.spellCorrectionMode)
    ensures r.spellCorrectionSpec.Some? ==> Some(r.spellCorrectionSpec.value.mode) == o.spellCorrectionMode
  {
    var extractive := ExtractiveContentSpec(
      o.maxExtractiveAnswerCount.GetOr(0), o.maxExtractiveSegmentCount.GetOr(0), o.returnExtractiveSegmentScore.GetOr(false));
    var content := ContentSearchSpec(o.searchResultMode, extractive, None, None);
    var content := if Truthy(o.returnSnippet) then content.(snippetSpec := Some(SnippetSpec(true))) else content;
    var content :=
      if o.searchResultMode == ChunksMode then
        content.(chunkSpec := Some(ChunkSpec(o.numPreviousChunks.GetOr(0), o.numNextChunks.GetOr(0))))
      else content;
    var spell := if NonEmpty(o.spellCorrectionMode) then Some(SpellCorrectionSpec(o.spellCorrectionMode.value)) else None;
    SearchRequest(ServingConfigPath(b, dataStoreId), o.query, o.filter.GetOr(""), o.pageSize.GetOr(0), content, spell)
  }

  /**
   The options with every value the request does not keep replaced by a
   fixed one: a zero value passed for a scalar field, chunk counts outside
   chunk mode, a falsy snippet flag, an empty spell-correction mode.
   */
  function Canonical(o: SearchOptions): SearchOptions {
    var chunks := o.searchResultMode == ChunksMode;
    o.(filter := Present(o.filter, ""),
       pageSize := Present(o.pageSize, 0),
       maxExtractiveAnswerCount := Present(o.maxExtractiveAnswerCount, 0),
       maxExtractiveSegmentCount := Present(o.maxExtractiveSegmentCount, 0),
       returnExtractiveSegmentScore := Present(o.returnExtractiveSegmentScore, false),
       returnSnippet := if Truthy(o.returnSnippet) then Some(true) else None,
       numPreviousChunks := if chunks then Present(o.numPreviousChunks, 0) else None,
       numNextChunks := if chunks then Present(o.numNextChunks, 0) else None,
       spellCorrectionMode := if NonEmpty(o.spellCorrectionMode) then o.spellCorrectionMode else None)
  }

  /** Reads the options back out of a request. */
  function RequestOptions(r: SearchRequest): SearchOptions {
    var content := r.contentSearchSpec;
    var extractive := content.extractiveContentSpec;
    SearchOptions(
      r.query, Presence(r.filter, ""), Presence(r.pageSize, 0),
      Presence(extractive.maxExtractiveAnswerCount, 0), Presence(extractive.maxExtractiveSegmentCount, 0),
      Presence(extractive.returnExtractiveSegmentScore, false),
      if content.snippetSpec.Some? && content.snippetSpec.value.returnSnippet then Some(true) else None,
      if content.chunkSpec.Some? then Presence(content.chunkSpec.value.numPreviousChunks, 0) else None,
      if content.chunkSpec.Some? then Presence(content.chunkSpec.value.numNextChunks, 0) else None,
      content.searchResultMode,
      if r.spellCorrectionSpec.Some? then Some(r.spellCorrectionSpec.value.mode) else None)
  }

  /** A request keeps exactly the canonical part of its options. */
  lemma SearchRequestRoundTrip(b: Builder, dataStoreId: string, o: SearchOptions)
    ensures RequestOptions(GenerateSearchRequest(b, dataStoreId, o)) == Canonical(o)
  {
  }

  /** The request depends on the options only through their canonical part. */
  lemma RequestDependsOnCanonical(b: Builder, dataStoreId: string, o: SearchOptions)
    ensures GenerateSearchRequest(b, dataStoreId, Canonical(o)) == GenerateSearchRequest(b, dataStoreId, o)
  {
  }

  /** Two option sets give the same request exactly when their canonical parts agree. */
  lemma SameRequestIffSameCanonical(b: Builder, dataStoreId: string, o1: SearchOptions, o2: SearchOptions)
    ensures GenerateSearchRequest(b, dataStoreId, o1) == GenerateSearchRequest(b, dataStoreId, o2) <==>
              Canonical(o1) == Canonical(o2)
  {
    SearchRequestRoundTrip(b, dataStoreId, o1);
    SearchRequestRoundTrip(b, dataStoreId, o2);
    RequestDependsOnCanonical(b, dataStoreId, o1);
    RequestDependsOnCanonical(b, dataStoreId, o2);
  }

  /** Outside chunk mode, the chunk counts a caller supplies leave the request unchanged. */
  lemma ChunkCountsIgnoredOutsideChunkMode(b: Builder, dataStoreId: string, o: SearchOptions, previous: Option<int>, next: Option<int>)
    requires o.searchResultMode != ChunksMode
    ensures GenerateSearchRequest(b, dataStoreId, o.(numPreviousChunks := previous, numNextChunks := next))
              == GenerateSearchRequest(b, dataStoreId, o)
    ensures GenerateSearchRequest(b, dataStoreId, o).contentSearchSpec.chunkSpec.None?
  {
  }

  /** By default the request asks for suggestion-only spell correction and has neither snippet nor chunk block. */
  lemma DefaultSearchRequest(b: Builder, dataStoreId: string, query: string)
    ensures var r := GenerateSearchRequest(b, dataStoreId, DefaultSearchOptions(query));
            && r.spellCorrectionSpec == Some(SpellCorrectionSpec(SuggestionOnly))
            && r.contentSearchSpec.snippetSpec.None?
            && r.contentSearchSpec.chunkSpec.None?
  {
  }

  /** Passing the zero value for a scalar field builds the same request as leaving it at `None`. */
  lemma ZeroValueIsNoValue(b: Builder, dataStoreId: string, o: SearchOptions)
    ensures GenerateSearchRequest(b, dataStoreId, o.(filter := Some(""), pageSize := Some(0)))
              == GenerateSearchRequest(b, dataStoreId, o.(filter := None, pageSize := None))
  {
  }
}
