# searching-agent: the decision logic of a retrieval-refinement question-answering agent

This project models the deterministic core of the searching-agent repository. It also proves properties of that core.

The agent answers a question in rounds:
- it asks a language model for search queries;
- it runs each query through a combined web searcher;
- it compresses documents that are too large;
- it asks the model to analyse them into records with sources;
- it answers once some validated record is meaningful, or gives up when the retry budget is used up.

Around the agent sit:
- a context-budget manager, which answers directly or does a map-reduce over token chunks;
- an extractor of JSON records from raw model output;
- a scraper spider that rewrites single-page-application links and deduplicates search hits;
- the spider's item pipelines;
- three formatters of numbered result blocks.

The language model, the search providers, the tokenizer, `json.loads`, `urljoin`, the Unicode `\w` class and the prompt templates are oracles. They are function-typed parameters, or fields of a configuration datatype, and nothing is assumed about them beyond their types. Integers are unbounded.

Modules, one per source file plus four helpers:

- `AgentGraph` (agent_graph.py).
  - The nodes of `LangGraphPipeline` and the `GraphState` record.
  - The router and the graph driven as an explicit loop (`Run`), with `Loop` and `RunResult` as its specification.
- `LlmProcessor` (llm/llm_processor.py): token chunking and `process_large_context`.
- `Llm` (llm/llm_handler.py): the request/response boundary of the model client and its failure values.
- `Str2Dir` (utils/str2dir.py): character cleaning, span selection, parsing with one retry, and flattening of string lists.
- `CombinedWebSearcher` (searchers/combined_web_searcher.py): construction and the merge with URL deduplication.
- `ActionSpider` (scraper/spiders/action.py): section parsing, URL rewriting, search-page URLs, the request-blocking decision, and `parse_search` as a method of the `Spider` class over its seen-URL sets.
- `Pipelines` (searchers/action_scraper/pipelines.py):
  - the class `InMemoryPipeline`;
  - the file-name choice of `ScraperPipeline`.
- `Formatters` (utils/formatters.py), `MainRagScript` (main_rag_script.py) and `ArchiveMainScript` (arhive/main_script.py): the numbered text blocks.
- Helpers:
  - `Text`: `strip`, `split`, `join`, `find`, `rfind`.
  - `Json`: a small JSON value type and dict lookups.
  - `Urls`: `urlsplit`/`urlparse`, `quote`, `quote_plus`.
  - `Wrappers`: `Option`, `Result`.

The loops of the source are methods with loop invariants. Each is proved equal to a specification function, and the properties of that function are proved as lemmas. Code that is an expression in the source is a function.

Where the repository's description and the code disagree, the model follows the code:
- The design describes the final node as formatting only the meaningful records. The code formats every raw record of `qa_results` (agent_graph.py:219-227), although the router validated them and skips the invalid ones.
  - The model states the node as written (`RawGenerateAnswer`). Two inputs on which it raises are under "## Findings".
  - The rest of the model, `Run` included, uses a corrected node (`GenerateAnswer`). It formats exactly the records that validate, the ones the router saw. This is the smallest change that removes the exception. It keeps validated records that are not meaningful, because the code never filters on meaningfulness.
  - When every record validates, both nodes give the same answer (`RawGenerateAnswerAgrees`).
  - A record that fails validation but is formatted without raising gives different answers. An example is a source without `fragment`: the node as written formats it with `''`, and the corrected node drops it.
- The number of query rounds is bounded by `max(max_retries, 1)`, not by `max_retries`. The first round always runs (agent_graph.py:82-89).

## Model

| member | source | states |
|---|---|---|
| AgentGraph.GenerateQueries | agent_graph.py:95-105 | The node increases `rephrasing_count` by exactly one and changes no field but the queries and the counter. |
| AgentGraph.QueryLinesAreQueries | agent_graph.py:103 | Every query read from a response is non-empty, stripped and has no line break. |
| AgentGraph.QueryLinesRoundTrip | agent_graph.py:103 | Proper queries written one per line are read back exactly, in order. |
| AgentGraph.CompressDoc | agent_graph.py:146-172 | A document whose content has more tokens than the threshold gets the compression answer as `content`; otherwise it is unchanged. Every other key and value is kept. |
| AgentGraph.CompressDocs | agent_graph.py:145-172 | One document out per document in, in order, each the compressed form of the one at its position. |
| AgentGraph.CompressAll | agent_graph.py:145-172 | The document loop computes exactly `CompressDocs`. |
| AgentGraph.AnswerBlocks | agent_graph.py:175-177 | One block per document, in order, with the keys `title`, `url` and `content` in that order. Each value is the document's own, or `""` where the document lacks that key. |
| AgentGraph.Tag | agent_graph.py:191-193 | Each record, in order, is tagged with the query that produced it. |
| AgentGraph.AppendTagged | agent_graph.py:191-193 | The tagging loop appends exactly the tagged records after the earlier ones. |
| AgentGraph.SearchAndAnalyzeSpec | agent_graph.py:116-125 | Earlier records stay a prefix, and no other field changes. With no queries, only the feedback is set and the records are untouched. Otherwise the feedback is kept. |
| AgentGraph.SkippedQuery | agent_graph.py:130-142 | A query whose search finds nothing contributes no record, and the queries after it still contribute theirs. |
| AgentGraph.QueryRecordsTagged | agent_graph.py:186-196 | Every record one query contributes is a dict tagged with that query. |
| AgentGraph.NewRecordsTagged | agent_graph.py:128-196 | Every new record is a dict tagged with one of the node's queries. |
| AgentGraph.AnalyzeQuery | agent_graph.py:130-199 | The work on one query appends exactly that query's records. |
| AgentGraph.SearchAndAnalyzeNode | agent_graph.py:108-201 | The node's loop over the queries computes exactly `SearchAndAnalyze`. |
| AgentGraph.StrField | agent_graph.py:31-41 | A field is read as a string exactly when it is present and holds a string. |
| AgentGraph.ValidateSourceRoundTrip | agent_graph.py:31-35 | A source written as a dict of its three string fields validates back to itself. |
| AgentGraph.ValidateSourcesRoundTrip | agent_graph.py:40 | A list of sources written as dicts validates back to itself, in order. |
| AgentGraph.ValidateSourcesSpec | agent_graph.py:40 | A list of sources validates exactly when every item does. It then holds the items' sources in order. |
| AgentGraph.ValidateRoundTrip | agent_graph.py:37-41 | An analysis written as a record (string answer, list of source dicts, string query context) validates back to itself, so validation loses nothing of a well-formed record. |
| AgentGraph.ErrorRecordRejected | agent_graph.py:219-227 | The model client's error record, tagged with its query, fails validation because its `data` is a dict. The final node as written raises on it. |
| AgentGraph.FailedAnalysisRecords | agent_graph.py:178-193 | When a query's analysis call fails and `json.loads` reads back the dict that `json.dumps` wrote, the query contributes exactly the tagged error record. |
| AgentGraph.NormalizeAllValid | agent_graph.py:253-263 | When every record validates, all of them are kept, position by position. |
| AgentGraph.NormalizeConcat | agent_graph.py:253-263 | Validation works record by record: it distributes over concatenation. |
| AgentGraph.NormalizeMeaningful | agent_graph.py:253-269 | Some validated record is meaningful exactly when some raw record validates to a meaningful analysis. |
| AgentGraph.NormalizeResults | agent_graph.py:250-263 | The validation loop keeps exactly the records that validate, in order. |
| AgentGraph.DecideSpec | agent_graph.py:267-282 | Each exit in both directions: CONTINUE iff some record is meaningful; otherwise END iff `rephrasing_count >= max_retries`, and RETRY iff below it. |
| AgentGraph.DecideNextStep | agent_graph.py:247-282 | The router method computes exactly `Decide`. |
| AgentGraph.SectionHead | agent_graph.py:222 | A section head is non-empty and opens with `-`. |
| AgentGraph.SectionStarts | agent_graph.py:222-226 | Every evidence section opens with its numbered head, whose first character is not whitespace. |
| AgentGraph.PairsOf | agent_graph.py:221-227 | One pair per source of an analysis, in source order. |
| AgentGraph.PairsSpec | agent_graph.py:219-227 | Every pair is a source of one of the analyses. There are no pairs exactly when no analysis has a source. |
| AgentGraph.EvidenceSpec | agent_graph.py:217-227 | The evidence is the sections concatenated in pair order. The section at position `k` carries number `k + 1`, so the counter starts at 1 and rises by one per pair, and it names the query of its record. |
| AgentGraph.EvidenceBlank | agent_graph.py:229-231 | The evidence is blank exactly when there is no pair. |
| AgentGraph.GenerateAnswerSpec | agent_graph.py:214-242 | No records give the first fixed message. Records without any source give the second fixed message, without a model call. Otherwise the answer is the context manager's answer on the evidence. |
| AgentGraph.AppendSections | agent_graph.py:221-227 | The inner loop appends one section per source of the record, numbered on from the sections before it. The counter ends one past the last section. |
| AgentGraph.GenerateFinalAnswerNode | agent_graph.py:205-245 | The final node sets `final_answer` to `GenerateAnswer` and changes nothing else. |
| AgentGraph.RawSources | agent_graph.py:220-221 | When iterating a record's `data` does not raise, every item it passes to `.get` is a dict. |
| AgentGraph.RawPairsOf | agent_graph.py:219-227 | The pairs of a raw record, when formatting it does not raise, are its dict sources. |
| AgentGraph.FinalNodeRaisesOnSkippedRecord | agent_graph.py:219-227 | A concrete state exists in which the router answers CONTINUE and the final node as written raises, on a record that validation skipped. |
| AgentGraph.FinalNodeRaisesOnErrorRecord | agent_graph.py:219-227 | For every error text: with one good record and the tagged error record of a failed analysis call, the router answers CONTINUE, the final node as written raises, and the validated records are just the good one. |
| AgentGraph.RawEvidenceAgrees | agent_graph.py:219-227 | When every record validates, the evidence as written equals the evidence over the validated records. |
| AgentGraph.RawGenerateAnswerAgrees | agent_graph.py:205-245 | When every record validates, the final node as written gives the corrected node's answer. |
| AgentGraph.Round | agent_graph.py:83-84 | One round raises the counter by one, keeps the query and the answer, and keeps earlier records as a prefix. |
| AgentGraph.LoopOutcome | agent_graph.py:82-90 | The graph stops either at CONTINUE, with the final node's answer, or at END, with the answer unchanged. |
| AgentGraph.LoopBounds | agent_graph.py:82-90 | Records only accumulate and the query is kept. The number of rounds is at least one more than before, and at most the larger of the budget and that. |
| AgentGraph.RunSpec | agent_graph.py:284-294 | The answer of a run is never blank. The run keeps the query and does between 1 and `max(max_retries, 1)` rounds. |
| AgentGraph.NothingFoundRun | agent_graph.py:85-89 | When no provider ever finds anything, the run collects no record, uses exactly `max(max_retries, 1)` rounds and answers with the fixed apology. |
| AgentGraph.Run | agent_graph.py:284-298 | The explicit driver loop from the initial state computes exactly `RunResult`. |
| LlmProcessor.TokenChunksSpec | llm/llm_processor.py:46-50 | The chunks put back together are the tokens. There are `ceil(n / size)` chunks, none for no tokens. Each is non-empty and at most `size` long, and all but the last have exactly `size` tokens. |
| LlmProcessor.CreateChunks | llm/llm_processor.py:44-51 | The stepped loop yields the decoded slices in order. |
| LlmProcessor.ChunkRequests | llm/llm_processor.py:89-94 | One map-step request per chunk, in chunk order. |
| LlmProcessor.Summaries | llm/llm_processor.py:89-94 | One summary per chunk, each the model's answer to that chunk's request. |
| LlmProcessor.KeepNonEmpty | llm/llm_processor.py:95-96 | Only non-empty summaries are kept, and there are no more of them than there were summaries. |
| LlmProcessor.KeepMembership | llm/llm_processor.py:95-96 | A summary is kept exactly when it occurs and is non-empty. |
| LlmProcessor.KeepAll | llm/llm_processor.py:95-96 | All-non-empty summaries are kept unchanged, in order. |
| LlmProcessor.ContextRequestsSpec | llm/llm_processor.py:67-117 | If prompt and text fit strictly under window minus reserve, the only call is the synthesis call on the original text. Otherwise there is one summarisation call per chunk, in order, and then the synthesis call on the kept summaries joined by the fixed separator, unchanged whether or not they still overflow. The synthesis call always asks for the final-answer budget and never for JSON. |
| LlmProcessor.ChunkPromptHoldsChunk | llm/llm_processor.py:91 | A chunk appears verbatim in its map-step prompt. |
| LlmProcessor.ProcessLargeContext | llm/llm_processor.py:53-117 | The method makes exactly the requests of `ContextRequests`, in order, and returns `ContextAnswer`. |
| Llm.GetResponse | llm/llm_handler.py:35-72 | A completed call gives its content. A failure gives `""`, or the error record when JSON was asked for. |
| Llm.ErrorRecordShape | llm/llm_handler.py:71 | Whatever the error text, the error record is an object text from `{` to `}` that holds printable ASCII only, so the extractor's cleaning keeps all of it. |
| Json.DumpsPrintable | llm/llm_handler.py:71 | `json.dumps` with its default `ensure_ascii` writes printable ASCII only, and writes a dict from `{` to `}`. |
| Json.QuoteStringPrintable | llm/llm_handler.py:71 | With `ensure_ascii`, a quoted string holds printable ASCII only: control and non-ASCII characters become escapes. |
| Str2Dir.CleanString | utils/str2dir.py:7-11 | Cleaning never lengthens the text and keeps only word characters, space, tab and ASCII punctuation. |
| Str2Dir.CleanConcat | utils/str2dir.py:7-11 | Cleaning works character by character: it distributes over concatenation, so kept characters stay in order. |
| Str2Dir.CleanMembership | utils/str2dir.py:7-11 | A character survives exactly when it occurs in the input and is kept. |
| Str2Dir.CleanKeepsClean | utils/str2dir.py:7-11 | Text made of kept characters is unchanged, so cleaning is idempotent. |
| Str2Dir.CleanDropsNewlines | utils/str2dir.py:7-11 | Raw newlines never survive. |
| Str2Dir.CleanPrintable | utils/str2dir.py:7-11 | Printable ASCII text survives cleaning unchanged. |
| Str2Dir.FlattenFields | utils/str2dir.py:20-27 | Flattening keeps the keys. A list of strings, the empty list included, becomes its items joined by `", "`. Every other value is unchanged. |
| Str2Dir.FlattenIdempotent | utils/str2dir.py:20-27 | Flattening twice is flattening once. |
| Str2Dir.FlattenNoLists | utils/str2dir.py:20-27 | A dict without a list-of-strings value is left as it is. |
| Str2Dir.ProcessDictListsToStrings | utils/str2dir.py:14-27 | The loop computes exactly `FlattenFields`. |
| Str2Dir.SpanOfSpec | utils/str2dir.py:56-69 | A span exists exactly when some opening bracket precedes some closing one. It then runs from the first opening bracket to the last closing one. |
| Str2Dir.SelectSpanSpec | utils/str2dir.py:56-74 | The object span wins whenever one exists. The array span is used only without one. With neither, nothing is selected. |
| Str2Dir.FromSpanCases | utils/str2dir.py:82-126 | A parsed dict gives one record. A list gives one flattened dict per item, or `[]` if any item is not a dict. A failed parse of `{...}` gives the outcome of exactly one bracket-wrapped retry. A failed parse of `[...]` gives `[]`. |
| Str2Dir.FromSpan | utils/str2dir.py:76-131 | Every record the parse yields is a dict. |
| Str2Dir.ExtractRecords | utils/str2dir.py:31-134 | The extractor never fails, and every record it yields is a dict. |
| Str2Dir.StructureTextToJsonList | utils/str2dir.py:31-134 | The method computes exactly `ExtractRecords`. |
| Str2Dir.ParseSpan | utils/str2dir.py:76-131 | The parsing part computes exactly `FromSpan`. |
| Str2Dir.ProcessList | utils/str2dir.py:87-93 | The item loop yields one flattened dict per item, or `[]` at the first non-dict. |
| Str2Dir.StrayQuotedObject | utils/str2dir.py:138-167 | An object wrapped in stray quotes, between newlines, yields the one record with its answer and its four sources. |
| Str2Dir.DumpedObjectExtracted | utils/str2dir.py:47-99 | The `json.dumps` text of a dict without string lists, read back by `json.loads`, is extracted as exactly that dict. |
| CombinedWebSearcher.Create | searchers/combined_web_searcher.py:17-19 | Construction fails exactly for an empty provider list, and otherwise keeps the list. |
| CombinedWebSearcher.Outcomes | searchers/combined_web_searcher.py:29-33 | Every provider is called once, in order, with the same query and arguments. |
| CombinedWebSearcher.Dedup | searchers/combined_web_searcher.py:34-39 | Every kept document has a truthy URL. |
| CombinedWebSearcher.DedupUnique | searchers/combined_web_searcher.py:27-38 | No URL is kept twice. |
| CombinedWebSearcher.DedupUrls | searchers/combined_web_searcher.py:34-39 | The kept URLs are exactly the URLs of the input. |
| CombinedWebSearcher.DedupSubsequence | searchers/combined_web_searcher.py:29-39 | The kept documents appear in the input in the same order. |
| CombinedWebSearcher.DedupFirstWins | searchers/combined_web_searcher.py:34-39 | The first document carrying a URL is the one kept. |
| CombinedWebSearcher.SearchResultsSpec | searchers/combined_web_searcher.py:22-44 | The result is a subsequence of all provider results in provider order, failed providers' partial results included. It has every URL once and only documents with URLs, loses no URL and keeps each URL's first document. |
| CombinedWebSearcher.ExceptionsSwallowed | searchers/combined_web_searcher.py:29-41 | Documents how the model captures the `except` of lines 39-40: the merge never reads whether a provider raised, so it equals the one where every provider returned normally the items it yielded before raising, and later providers are still merged. This holds by the definition of `Outcome`, not by a proof about the loop. |
| CombinedWebSearcher.MergeItems | searchers/combined_web_searcher.py:34-39 | The inner loop extends the kept documents by the new ones and keeps the seen set equal to their URLs. |
| CombinedWebSearcher.Search | searchers/combined_web_searcher.py:22-44 | The method computes exactly `SearchResults`. |
| ActionSpider.ParseSections | scraper/spiders/action.py:32-33 | A missing or empty argument gives the five default sections, and no section is empty. |
| ActionSpider.NormalizeSections | scraper/spiders/action.py:33 | The stripped, lower-cased pieces are never more than the pieces, and none is empty. |
| ActionSpider.NormalizeSectionsMembers | scraper/spiders/action.py:33 | A name is a section exactly when some piece strips to a non-blank text whose lower-case form it is. |
| ActionSpider.NormalizeSectionsConcat | scraper/spiders/action.py:33 | Pieces are normalised one by one and in order: a concatenation normalises to the concatenated results. |
| ActionSpider.ParseSectionsRoundTrip | scraper/spiders/action.py:33 | Section names written comma-separated are read back exactly. |
| ActionSpider.Spider.constructor | scraper/spiders/action.py:14-41 | A non-empty phrase forces search traversal. A `None` limit is 0, and a given one is kept. The sections are parsed, and both seen sets start empty. |
| ActionSpider.ToDirectRewrites | scraper/spiders/action.py:43-62 | A URL whose document reference is `document/<mod>/<id>[/...]` is rewritten to `scheme://netloc/system/content/doc/<mod>/<id>/`. |
| ActionSpider.ToDirectKeeps | scraper/spiders/action.py:58-65 | A URL without a document reference, or one that `urlparse` rejects, is returned unchanged. |
| ActionSpider.ToDirectNeedsId | scraper/spiders/action.py:59-63 | `document/<mod>` without an id is not rewritten. |
| ActionSpider.HashPathUnreachable | scraper/spiders/action.py:54-55 | A parsed path never starts with `/#/`, so that branch is dead. |
| ActionSpider.ToDirectIdempotent | scraper/spiders/action.py:43-63 | Direct content URLs are fixed points of the rewriting. |
| ActionSpider.ToDirectFromHash | scraper/spiders/action.py:45-62 | The SPA form `scheme://netloc/#/document/<mod>/<id>` is rewritten to its direct content URL. |
| ActionSpider.SearchUrls | scraper/spiders/action.py:76-80 | No more pages than sections. |
| ActionSpider.KnownSections | scraper/spiders/action.py:69-75 | A section has a search page exactly when it is one of the five defaults. |
| ActionSpider.SearchUrlEmbedsPhrase | scraper/spiders/action.py:68-75 | Every page ends with the `phrase` parameter holding the `quote_plus` encoding. The encoding contains none of `&`, `#`, `=` and `/`. |
| ActionSpider.SearchUrlsKnown | scraper/spiders/action.py:76-80 | Known sections give one page each, in section order. |
| ActionSpider.DefaultSearchUrls | scraper/spiders/action.py:69-80 | The default sections give five pages. |
| ActionSpider.SearchUrlsConcat | scraper/spiders/action.py:76-80 | Pages of a concatenation are the pages of each part: unknown sections are skipped and order is kept. |
| ActionSpider.BuildSearchUrls | scraper/spiders/action.py:67-80 | The loop computes exactly `SearchUrls` of the encoded phrase. |
| ActionSpider.AuthCheckSubsumed | scraper/spiders/action.py:90 | The long `auth_check` test implies the short one. |
| ActionSpider.RouteBlockedCaseInsensitive | scraper/spiders/action.py:85 | A URL and its lower-cased form get the same decision. |
| ActionSpider.ExtensionTestPath | scraper/spiders/action.py:97 | The extension test sees the lower-cased part before the first `?`. |
| ActionSpider.QueryExtensionIgnored | scraper/spiders/action.py:82-100 | A request of a type that is not blocked, with no blocked substring, is aborted exactly when its path before `?` ends in a static extension. An extension in the query string does not block it. |
| ActionSpider.RootedDecision | scraper/spiders/action.py:82-100 | A `document` request for `root?query`, with a root that ends in `/` and holds no `?`, is aborted exactly when a blocked substring occurs in it. |
| ActionSpider.SearchUrlShape | scraper/spiders/action.py:69-75 | Every search page is `https://1gl.ru/`, then `?`, then the SPA fragment. |
| ActionSpider.SearchUrlDecision | scraper/spiders/action.py:82-100 | A `document` request for any of the spider's search pages is aborted exactly when a blocked substring occurs in it, whatever the phrase's extension. |
| ActionSpider.DirectUrlDecision | scraper/spiders/action.py:82-100 | A `document` request for a direct content URL without `?` is aborted exactly when a blocked substring occurs in it. |
| ActionSpider.ParseSearchSpec | scraper/spiders/action.py:187-233 | One call requests no SPA URL or direct URL twice and none seen before. It respects a positive limit. Requests come from the linked items, in increasing rank. The seen sets grow by exactly the requested URLs. |
| ActionSpider.ParseSearchComplete | scraper/spiders/action.py:191-233 | The converse of `ParseSearchSpec`: every item with a link whose SPA URL and direct URL were not seen before is requested. Some request shares its SPA URL or its direct URL, since an earlier item of the page may have claimed one, unless a positive limit was reached first. |
| ActionSpider.NoRepeatAcrossPages | scraper/spiders/action.py:196-211 | Two successive calls never request the same SPA URL or the same direct URL. |
| ActionSpider.Spider.ParseSearch | scraper/spiders/action.py:180-233 | The method yields the requests of `ParseSearchResult` and updates the spider's seen sets to its sets. A response URL that `urlparse` rejects yields nothing. |
| Pipelines.InMemoryPipeline.constructor | searchers/action_scraper/pipelines.py:18-19 | The collector starts empty. |
| Pipelines.InMemoryPipeline.ProcessItem | searchers/action_scraper/pipelines.py:21-23 | The item is appended to the stored items and returned unchanged. |
| Pipelines.Or | searchers/action_scraper/pipelines.py:71 | Python's `or` is truthy exactly when one of its operands is. |
| Pipelines.SecondLevelDomain | searchers/action_scraper/pipelines.py:54-55 | The second-level label contains no dot. |
| Pipelines.SecondLevelDomainOfLabels | searchers/action_scraper/pipelines.py:53-55 | For a host of dot-separated labels, with or without a `:port`, the label taken is the next-to-last one, or the only one. |
| Pipelines.SecondLevelDomainExample | searchers/action_scraper/pipelines.py:53-55 | The shape of the source comment's example (`1gl.ru` and `www.1gl.ru` give `1gl`): a name under a top-level label gives that name, with or without a subdomain in front or a `:port` behind. |
| Pipelines.BuildFilenameFlat | searchers/action_scraper/pipelines.py:50-63 | A pattern file name is a plain `.json` name without `/`. |
| Pipelines.BuildFilenameDirect | searchers/action_scraper/pipelines.py:50-62 | A direct content URL gets the name `<sld>-<mod>-<id>.json`. |
| Pipelines.BuildFilenameHash | searchers/action_scraper/pipelines.py:57-63 | The SPA form of a link gets no pattern name. |
| Pipelines.SaveFilenameNone | searchers/action_scraper/pipelines.py:70-74 | Nothing is saved exactly when none of `url`, `original_url` and `resolved_url` is truthy. |
| Pipelines.SaveFilenamePattern | searchers/action_scraper/pipelines.py:70-79 | A truthy `resolved_url` with a pattern name decides the file name, whatever `url` holds. |
| Pipelines.SaveFilenameResolved | searchers/action_scraper/pipelines.py:70-79 | An item whose `resolved_url` is a direct content URL is saved under its pattern name. |
| Pipelines.SaveFilenameFallback | searchers/action_scraper/pipelines.py:80-82 | Without a pattern name, the name is the fully percent-encoded original URL plus `.json`. |
| Pipelines.SaveFilenameFlat | searchers/action_scraper/pipelines.py:76-82 | A saved item's file name never contains `/`, so the file stays in the data directory. |
| Pipelines.ProcessItem | searchers/action_scraper/pipelines.py:67-92 | `process_item` always hands on the input item. |
| Formatters.FieldOr | utils/formatters.py:12-14 | A present key gives its value, and a missing one the default. |
| Formatters.Preview | utils/formatters.py:17 | Content of at most 2500 characters is kept whole. Longer content gives its first 2500 characters followed by `...`. No preview exceeds 2503 characters. |
| Formatters.BlockHeader | utils/formatters.py:19 | Every block opens with its own `Источник #n` header. |
| Formatters.FormatSpec | utils/formatters.py:3-24 | An empty list gives exactly the no-results message for the source name, and only then. Otherwise the output is one block per item, in input order, the `k`-th numbered `k + 1`. |
| Formatters.FormatSearchResults | utils/formatters.py:3-24 | The `+=` loop computes exactly `Format`. |
| MainRagScript.FormatScraperSpec | main_rag_script.py:46-65 | An empty list gives exactly the fixed internal-base message, and only then. Otherwise the output is the same numbered blocks as the shared formatter. |
| MainRagScript.FormatScraperResults | main_rag_script.py:46-65 | The `+=` loop computes exactly `FormatScraper`. |
| ArchiveMainScript.Snippet | arhive/main_script.py:47 | The snippet has no newline and the length of the raw snippet. |
| ArchiveMainScript.WebBlockSpec | arhive/main_script.py:45-52 | Every block opens with its header and ends with its one-line snippet. |
| ArchiveMainScript.FormatWebSpec | arhive/main_script.py:38-54 | An error or an empty `organic` list gives the fixed message, and only then. Otherwise the output is one block per organic item, in order, numbered from 1. |
| ArchiveMainScript.FormatSearchResults | arhive/main_script.py:38-54 | The `+=` loop computes exactly `FormatWeb`. |
| Urls.QuotePlusNoSeparators | scraper/spiders/action.py:68 | `quote_plus` output contains none of `&`, `#`, `=`, `/`, `?` and space. |
| Urls.QuoteDecodes | searchers/action_scraper/pipelines.py:82 | `quote(s, safe="")` percent-decodes back to the UTF-8 bytes of `s`. |

## Left out

- The language model, the search providers, the tokenizer, `json.loads`, `urljoin`, the Unicode `\w` class and the prompt templates are oracles.
  - Each is a deterministic function of its arguments. A model that answers the same prompt differently across rounds is not represented.
  - Nothing is assumed about decoding token slices back to text.
- prompts/templates is not part of this model. The final-answer template is a parameter, and the other prompts are opaque functions of their fields.
- Printing, logging, `_print_final_result`, `_save_results_to_json`, `open_spider`, the JSON file write in `ScraperPipeline.process_item` and the configuration constants are left out. The constants (`CONTENT_TOKEN_THRESHOLD`, `MODEL_CONTEXT_WINDOW`, `MAX_TOKENS_FINAL_ANSWER`, `MAX_RETRIES`, `DATA_DIR`) are parameters of the configuration record.
- These parts of the repository are not modelled:
  - the search-provider adapters and page fetchers;
  - `start_requests`, `after_login` and `parse_page` of the spider, and the CSS/XPath selection, which becomes the list of result items of a page;
  - Scrapy/Playwright scheduling;
  - the scraper runners, factories and `main()` functions;
  - the drafts.
- `BaseSearcher` is a function type rather than an interface, because the providers are called only through `search`.
- AgentGraph.DecideNextStep: the writes into `state` at agent_graph.py:265 and 281 are not relied on, because whether LangGraph keeps writes made in a routing function is outside the code. The feedback after a RETRY therefore stays as it was.
- AgentGraph.NormalizeResults: the `isinstance(qa, LLMAnalysis)` branch (agent_graph.py:255-256) is not modelled, because the records are always dicts. A record that is not a dict fails validation like an invalid one.
- AgentGraph.Validate assumes Pydantic v2 `str` strictness: only strings validate as strings.
- AgentGraph.AnalyzeQuery: the `except` blocks at agent_graph.py:136-138 and 198-199 are not modelled as separate paths. The searcher catches every provider exception, and the model client returns failure values instead of raising. The one exception that can leave the extractor is described under `Str2Dir.ExtractRecords` below.
- AgentGraph.GenerateFinalAnswerNode: the five `+=` of one section are one append of the section text. The result is the same string.
- LlmProcessor.CreateChunks: the chunk size is positive, because `range` with step 0 raises and only positive sizes are configured.
- ActionSpider.RouteBlocked: `_route_blocking` is a decision. The `abort`/`continue_` calls are left out, and an exception that continues the request cannot arise in the model.
- Pipelines.InMemoryPipeline.ProcessItem stores the item value. The `dict(item)` copy and any aliasing are not modelled.
- AgentGraph.Run: its contract, and those of `Loop`, `RunResult`, `LoopOutcome` and `RunSpec`, describe the run with the corrected final node.
  - With the node as written, a run whose records include one that fails validation can end in an exception (see "## Findings").
  - Where every record is formatted without raising, the answer can still differ: the node as written formats, with `''` defaults, records that the corrected node drops.
- AgentGraph.NothingFoundRun: LangGraph's default `recursion_limit` of 25 steps is not modelled. Each round is two graph steps. So a run that reaches a 13th round raises `GraphRecursionError` instead of answering or ending with the fallback answer. That is possible only when `max_retries` is 13 or more, and `NothingFoundRun` then describes a run that Python does not complete.
- Text.Lower folds ASCII letters only. Python's `str.lower` also folds other letters, for example the Kelvin sign to `k`. Section names (action.py:33, `ActionSpider.ParseSections`) and blocked URLs (action.py:85, `ActionSpider.RouteBlocked`) outside ASCII are therefore not lower-cased as Python would.
- Llm.GetResponse: a completion's content is always a string. The client library can give `None`, for example for a refusal. The query node would then raise at `response.strip()` (agent_graph.py:103), and that is not modelled.
- CombinedWebSearcher.Dedup: search documents are maps from strings to strings. The exceptions that other values would raise are not modelled:
  - a non-string `content` when tokens are counted (agent_graph.py:148) or a document is formatted;
  - an unhashable `url`, where `url not in seen_urls` (combined_web_searcher.py:37) raises inside the provider's `try`, so the rest of that provider's items are dropped.
- Json.PyRepr: JSON numbers are integers; floats are not modelled. The `repr` of a string is put in single quotes without Python's escaping or its switch to double quotes. This affects `str()` of non-string fields in `AgentGraph.RawGenerateAnswer`, and `Pipelines.FallbackFilename` for a truthy original URL that is not a string (searchers/action_scraper/pipelines.py:82): for the list `["a'b"]` Python writes `["a'b"]` and the model `['a'b']`.
- Urls.UrlParse rejects only an unbalanced `[` or `]` in the netloc. Python 3.12 also raises `ValueError` for a bracketed host that is not a valid IPv6 or IPvFuture address, and for a netloc whose NFKC form gains one of `/?#@:`. For such URLs the model parses where Python raises, and `ActionSpider.ToDirectContentUrl` may rewrite a URL that Python returns unchanged.
- ActionSpider.Spider.constructor takes typed arguments. Scrapy passes `-a` arguments as strings. So `int("5")`, the `ValueError` of `int("x")` and `bool("False") == True` are not modelled. The default limit of 10 is `DefaultSearchLimit`, passed by the caller.
- Str2Dir.ExtractRecords never fails, and `parse` reports only success or `JSONDecodeError`. A `RecursionError` from the retried `json.loads` (str2dir.py:106), raised inside the `except` block, escapes the function. Its only caller catches it (agent_graph.py:198-199) and skips the query, which is what the model gives when `parse` reports that failure as `None`.

## Findings

| source | as written | input that shows it | evidently intended | confidence | as-written member | corrected member |
|---|---|---|---|---|---|---|
| agent_graph.py:219-227 | The final node iterates `qa_item.get("data", [])` of every raw record and calls `.get` on each item, although the router validated the records and skipped the invalid ones. | `qa_results` = [a valid record, the same record with `data` a single source dict instead of a list]. The router answers CONTINUE because of the first record. For the second, iterating the dict gives its string keys, and `str.get` raises `AttributeError`, which ends the run. | Format only the records that validate, the ones the router saw. This is the smallest change that removes the exception. The design's "only meaningful records" would also drop validated records that are not meaningful, and the code never filters on meaningfulness. | not executed | AgentGraph.FinalNodeRaisesOnSkippedRecord | AgentGraph.GenerateAnswerSpec |
| llm/llm_handler.py:71 | When a JSON call fails, the model client writes an error record whose `data` is a single dict, not the list of sources the schema asks for. | One query's analysis call fails, for example by a timeout, and another query gives a valid, meaningful record. The error record is extracted and tagged like any other (`FailedAnalysisRecords`). The router skips it and answers CONTINUE, and the final node raises on it, as in the row above. | The same correction: the corrected node skips the error record, as the router does. | not executed | AgentGraph.FinalNodeRaisesOnErrorRecord | AgentGraph.GenerateAnswerSpec |
