/** The retrieval-refinement agent (agent_graph.py, class `LangGraphPipeline`): query generation,
    per-query search and analysis, the routing decision, the final answer, and the graph driver
    `generate_queries -> search_and_analyze_per_query -> {RETRY -> generate_queries |
    CONTINUE -> generate_answer -> END | END}` (lines 75-91) as an explicit loop over the state. */
module AgentGraph {
  import opened Wrappers
  import opened Text
  import opened Json
  import opened Llm
  import LP = LlmProcessor
  import CW = CombinedWebSearcher
  import S2D = Str2Dir
  import Formatters

  /** `GraphState` (lines 45-51). The records in `qaResults` are the dicts the analysis step appended. */
  datatype GraphState = GraphState(originalQuery: string, searchQueries: seq<string>, qaResults: seq<Json>,
                                   feedback: string, rephrasingCount: int, finalAnswer: string)

  /** Everything the pipeline calls out to, and its configuration: the model, the combined searcher, the
      context processor, `json.loads` and `\w` for the extractor, the four prompt templates of
      prompts/templates (which is not part of this model) as functions of their two placeholders, and
      the constants `CONTENT_TOKEN_THRESHOLD`, `MAX_TOKENS_FINAL_ANSWER`, `DEFAULT_LIMIT` and
      `max_retries`. */
  datatype Env = Env(llm: Request -> Completion, searcher: CW.Searcher, processor: LP.Processor,
                     parse: string -> Option<Json>, isWord: char -> bool,
                     queryPrompt: (string, string) -> string, analyzerPrompt: (string, string) -> string,
                     compressionPrompt: (string, string) -> string, finalPrompt: (string, string) -> string,
                     contentTokenThreshold: int, maxTokensFinalAnswer: int, defaultLimit: int, maxRetries: int)

  // ---------------------------------------------------------------------------------------------
  // generate_search_queries_node (lines 95-105)

  const FeedbackLead := "Учти предыдущую обратную связь: "

  /** `feedback_prompt` (line 100). */
  function FeedbackPrompt(feedback: string): string {
    if feedback != "" then FeedbackLead + feedback else ""
  }

  /** `[q.strip() for q in lines if q.strip()]` */
  function StrippedNonEmpty(lines: seq<string>): seq<string> {
    if lines == [] then []
    else (if Strip(lines[0]) != "" then [Strip(lines[0])] else []) + StrippedNonEmpty(lines[1..])
  }

  /** The search queries read from a response (line 103). */
  function QueryLines(response: string): seq<string> {
    StrippedNonEmpty(Split(Strip(response), '\n'))
  }

  /** The request of line 102: the default temperature and budget, no JSON. */
  function QueryRequest(env: Env, s: GraphState): Request {
    DefaultRequest(env.queryPrompt(s.originalQuery, FeedbackPrompt(s.feedback)))
  }

  /** `generate_search_queries_node`: new queries, and one more round counted. */
  function GenerateQueries(env: Env, s: GraphState): (r: GraphState)
    ensures r.rephrasingCount == s.rephrasingCount + 1
    ensures r == s.(searchQueries := r.searchQueries, rephrasingCount := r.rephrasingCount)
  {
    s.(searchQueries := QueryLines(GetResponse(env.llm, QueryRequest(env, s))),
       rephrasingCount := s.rephrasingCount + 1)
  }

  /** A query as the model is asked to write it: non-empty, without surrounding whitespace, on one line. */
  predicate IsQuery(q: string) {
    q != "" && Strip(q) == q && '\n' !in q
  }

  lemma StripIdempotent(s: string)
    ensures Strip(Strip(s)) == Strip(s)
  {
    StripBlank(s);
    StripUnchanged(Strip(s));
  }

  /** `strip` takes a slice, so it adds no character. */
  lemma StripSlice(s: string)
    ensures forall c :: c in Strip(s) ==> c in s
  {
    var l := LStrip(s, IsWhitespace);
    LStripSpec(s, IsWhitespace);
    RStripSpec(l, IsWhitespace);
    forall c | c in Strip(s) ensures c in s {
      var k :| 0 <= k < |Strip(s)| && Strip(s)[k] == c;
      assert Strip(s)[k] == l[k];
      assert l[k] == s[|s| - |l| + k];
    }
  }

  lemma {:induction false} StrippedNonEmptyQueries(lines: seq<string>)
    requires forall k :: 0 <= k < |lines| ==> '\n' !in lines[k]
    ensures forall k :: 0 <= k < |StrippedNonEmpty(lines)| ==> IsQuery(StrippedNonEmpty(lines)[k])
  {
    if lines != [] {
      StrippedNonEmptyQueries(lines[1..]);
      StripIdempotent(lines[0]);
      StripSlice(lines[0]);
    }
  }

  /** Every generated query is a proper one-line query. */
  lemma QueryLinesAreQueries(response: string)
    ensures forall k :: 0 <= k < |QueryLines(response)| ==> IsQuery(QueryLines(response)[k])
  {
    SplitPieces(Strip(response), '\n');
    StrippedNonEmptyQueries(Split(Strip(response), '\n'));
  }

  lemma {:induction false} StrippedNonEmptyKeeps(qs: seq<string>)
    requires forall k :: 0 <= k < |qs| ==> IsQuery(qs[k])
    ensures StrippedNonEmpty(qs) == qs
  {
    if qs != [] {
      StrippedNonEmptyKeeps(qs[1..]);
    }
  }

  /** A response listing proper queries one per line yields exactly those queries, in order. */
  lemma QueryLinesRoundTrip(qs: seq<string>)
    requires forall k :: 0 <= k < |qs| ==> IsQuery(qs[k])
    ensures QueryLines(Join(qs, "\n")) == qs
  {
    if qs == [] {
      assert Strip("") == "";
    } else {
      JoinOfQueriesStripped(qs);
      assert "\n" == ['\n'];
      SplitJoin(qs, '\n');
      StrippedNonEmptyKeeps(qs);
    }
  }

  lemma JoinOfQueriesStripped(qs: seq<string>)
    requires qs != [] && forall k :: 0 <= k < |qs| ==> IsQuery(qs[k])
    ensures Strip(Join(qs, "\n")) == Join(qs, "\n")
  {
    var text := Join(qs, "\n");
    assert forall k :: 0 <= k < |qs| ==> qs[k] != [];
    JoinEnds(qs, "\n");
    QueryEnds(qs[0]);
    QueryEnds(qs[|qs| - 1]);
    StripUnchanged(text);
  }

  /** A proper query neither starts nor ends with whitespace. */
  lemma QueryEnds(q: string)
    requires IsQuery(q)
    ensures q != [] && !IsWhitespace(q[0]) && !IsWhitespace(q[|q| - 1])
  {
    StripBlank(q);
  }

  /** A join of non-empty parts starts with the first part's first character and ends with the last
      part's last character. */
  lemma {:induction false} JoinEnds(parts: seq<string>, sep: string)
    requires |parts| >= 1 && forall k :: 0 <= k < |parts| ==> parts[k] != []
    ensures var j := Join(parts, sep);
      j != [] && j[0] == parts[0][0] && j[|j| - 1] == parts[|parts| - 1][|parts[|parts| - 1]| - 1]
  {
    if |parts| > 1 {
      JoinEnds(parts[1..], sep);
    }
  }

  // ---------------------------------------------------------------------------------------------
  // search_and_analyze_per_query_node (lines 108-201)

  const NoQueriesFeedback := "Не удалось сгенерировать поисковые запросы."
  const ContextKey := "original_search_query_context"

  /** The compression call of lines 154-163. */
  function CompressionRequest(env: Env, query: string, content: string): Request {
    Request(env.compressionPrompt(query, content), 0.0, 1024, false)
  }

  /** A document after the size check of lines 147-172. */
  function CompressDoc(env: Env, query: string, doc: CW.SearchDoc): (r: CW.SearchDoc)
    ensures forall key :: key != "content" ==> (key in r <==> key in doc) && (key in doc ==> r[key] == doc[key])
    ensures var content := if "content" in doc then doc["content"] else "";
      if LP.EstimateTokens(env.processor, content) > env.contentTokenThreshold
      then "content" in r && r["content"] == GetResponse(env.llm, CompressionRequest(env, query, content))
      else r == doc
  {
    var content := if "content" in doc then doc["content"] else "";
    if LP.EstimateTokens(env.processor, content) > env.contentTokenThreshold then
      doc["content" := GetResponse(env.llm, CompressionRequest(env, query, content))]
    else doc
  }

  /** `processed_search_results`: every document in order, compressed where too large. */
  function CompressDocs(env: Env, query: string, docs: seq<CW.SearchDoc>): (r: seq<CW.SearchDoc>)
    ensures |r| == |docs| && forall k :: 0 <= k < |docs| ==> r[k] == CompressDoc(env, query, docs[k])
  {
    seq(|docs|, k requires 0 <= k < |docs| => CompressDoc(env, query, docs[k]))
  }

  function GetOrEmpty(doc: CW.SearchDoc, key: string): string {
    if key in doc then doc[key] else ""
  }

  /** `formatted_search_answer_blocks` (lines 175-177): per document, in order, its title, url and
      content under those keys, each the empty string where the document lacks it. */
  function AnswerBlocks(docs: seq<CW.SearchDoc>): (r: seq<seq<(string, string)>>)
    ensures |r| == |docs|
    ensures forall k :: 0 <= k < |docs| ==>
      |r[k]| == 3 && r[k][0].0 == "title" && r[k][1].0 == "url" && r[k][2].0 == "content"
      && r[k][0].1 == (if "title" in docs[k] then docs[k]["title"] else "")
      && r[k][1].1 == (if "url" in docs[k] then docs[k]["url"] else "")
      && r[k][2].1 == (if "content" in docs[k] then docs[k]["content"] else "")
  {
    seq(|docs|, k requires 0 <= k < |docs| =>
      [("title", GetOrEmpty(docs[k], "title")), ("url", GetOrEmpty(docs[k], "url")),
       ("content", GetOrEmpty(docs[k], "content"))])
  }

  /** The analysis call of lines 178-181: the default temperature and budget, JSON asked for. */
  function AnalyzerRequest(env: Env, originalQuery: string, docs: seq<CW.SearchDoc>): Request {
    Request(env.analyzerPrompt(originalQuery, DumpRecords(AnswerBlocks(docs))), DefaultTemperature, DefaultMaxTokens, true)
  }

  /** `item_dict["original_search_query_context"] = single_query` (line 192). */
  function TagRecord(rec: Json, query: string): Json {
    if rec.JObj? then JObj(SetKey(rec.fields, ContextKey, JStr(query))) else rec
  }

  function Tag(records: seq<Json>, query: string): (r: seq<Json>)
    ensures |r| == |records| && forall k :: 0 <= k < |records| ==> r[k] == TagRecord(records[k], query)
  {
    seq(|records|, k requires 0 <= k < |records| => TagRecord(records[k], query))
  }

  /** The records one query contributes (lines 130-196). */
  function QueryRecords(env: Env, originalQuery: string, query: string): seq<Json> {
    var results := CW.SearchResults(env.searcher, query, env.defaultLimit);
    if results == [] then []
    else
      var docs := CompressDocs(env, query, results);
      var response := GetResponse(env.llm, AnalyzerRequest(env, originalQuery, docs));
      Tag(S2D.ExtractRecords(response, env.isWord, env.parse), query)
  }

  /** The records of one query, as a function of the query. */
  function QueryRecordsOf(env: Env, originalQuery: string): string -> seq<Json> {
    q => QueryRecords(env, originalQuery, q)
  }

  /** What the loop over the queries collects, in query order. */
  function Collect(records: string -> seq<Json>, queries: seq<string>): seq<Json> {
    if queries == [] then [] else Collect(records, queries[..|queries| - 1]) + records(queries[|queries| - 1])
  }

  /** The records of all queries, in query order. */
  function NewRecords(env: Env, originalQuery: string, queries: seq<string>): seq<Json> {
    Collect(QueryRecordsOf(env, originalQuery), queries)
  }

  /** `search_and_analyze_per_query_node`: with no queries only the feedback is set; otherwise the new
      records are appended to the earlier ones. */
  function SearchAndAnalyze(env: Env, s: GraphState): GraphState {
    if s.searchQueries == [] then s.(feedback := NoQueriesFeedback)
    else s.(qaResults := s.qaResults + NewRecords(env, s.originalQuery, s.searchQueries))
  }

  /** The node keeps every earlier record as a prefix and changes nothing else but the feedback, which it
      sets exactly when there are no queries. */
  lemma SearchAndAnalyzeSpec(env: Env, s: GraphState)
    ensures var r := SearchAndAnalyze(env, s);
      r.qaResults[..|s.qaResults|] == s.qaResults
      && r.originalQuery == s.originalQuery && r.searchQueries == s.searchQueries
      && r.rephrasingCount == s.rephrasingCount && r.finalAnswer == s.finalAnswer
      && (s.searchQueries == [] ==> r.qaResults == s.qaResults && r.feedback == NoQueriesFeedback)
      && (s.searchQueries != [] ==> r.feedback == s.feedback)
  {
    var r := SearchAndAnalyze(env, s);
    if s.searchQueries != [] {
      assert (s.qaResults + NewRecords(env, s.originalQuery, s.searchQueries))[..|s.qaResults|] == s.qaResults;
    }
  }

  /** The records of consecutive query lists follow one another. */
  lemma {:induction false} CollectConcat(records: string -> seq<Json>, a: seq<string>, b: seq<string>)
    ensures Collect(records, a + b) == Collect(records, a) + Collect(records, b)
    decreases |b|
  {
    if b == [] {
      assert a + b == a;
    } else {
      var init := b[..|b| - 1];
      assert (a + b)[..|a + b| - 1] == a + init;
      CollectConcat(records, a, init);
    }
  }

  lemma CollectSnoc(records: string -> seq<Json>, qs: seq<string>, q: string)
    ensures Collect(records, qs + [q]) == Collect(records, qs) + records(q)
  {
    assert (qs + [q])[..|qs|] == qs;
  }

  lemma CollectPrefix(records: string -> seq<Json>, qs: seq<string>, i: nat)
    requires i < |qs|
    ensures Collect(records, qs[..i + 1]) == Collect(records, qs[..i]) + records(qs[i])
  {
    assert qs[..i + 1] == qs[..i] + [qs[i]];
    CollectSnoc(records, qs[..i], qs[i]);
  }

  /** The records of one more query follow those collected so far. */
  lemma CollectStep(base: seq<Json>, records: string -> seq<Json>, qs: seq<string>, i: nat)
    requires i < |qs|
    ensures (base + Collect(records, qs[..i])) + records(qs[i]) == base + Collect(records, qs[..i + 1])
  {
    CollectPrefix(records, qs, i);
    var a := Collect(records, qs[..i]);
    var b := records(qs[i]);
    assert (base + a) + b == base + (a + b);
  }

  /** A query whose search finds nothing contributes nothing, and the queries after it still contribute. */
  lemma SkippedQuery(env: Env, originalQuery: string, a: seq<string>, q: string, b: seq<string>)
    requires CW.SearchResults(env.searcher, q, env.defaultLimit) == []
    ensures NewRecords(env, originalQuery, a + [q] + b) == NewRecords(env, originalQuery, a) + NewRecords(env, originalQuery, b)
  {
    var f := QueryRecordsOf(env, originalQuery);
    assert f(q) == [];
    assert Collect(f, a + [q]) == Collect(f, a) by {
      CollectSnoc(f, a, q);
    }
    assert Collect(f, a + [q] + b) == Collect(f, a + [q]) + Collect(f, b) by {
      CollectConcat(f, a + [q], b);
    }
  }

  /** Every record a query contributes is a dict tagged with that query, and keeps all its other fields. */
  lemma QueryRecordsTagged(env: Env, originalQuery: string, q: string)
    ensures forall k :: 0 <= k < |QueryRecords(env, originalQuery, q)| ==> TaggedWith(QueryRecords(env, originalQuery, q)[k], q)
  {
    var recs := QueryRecords(env, originalQuery, q);
    forall k | 0 <= k < |recs| ensures TaggedWith(recs[k], q) {
      var results := CW.SearchResults(env.searcher, q, env.defaultLimit);
      var docs := CompressDocs(env, q, results);
      var response := GetResponse(env.llm, AnalyzerRequest(env, originalQuery, docs));
      var extracted := S2D.ExtractRecords(response, env.isWord, env.parse);
      assert recs[k] == TagRecord(extracted[k], q);
      SetKeyGet(extracted[k].fields, ContextKey, JStr(q), ContextKey);
    }
  }

  /** A record the analysis step appended for query `q`. */
  predicate TaggedWith(rec: Json, q: string) {
    rec.JObj? && Get(rec.fields, ContextKey) == Some(JStr(q))
  }

  /** A record tagged with one of `queries`. */
  predicate TaggedFrom(rec: Json, queries: seq<string>) {
    rec.JObj? && var t := Get(rec.fields, ContextKey); t.Some? && t.value.JStr? && t.value.s in queries
  }

  lemma TaggedFromPrefix(rec: Json, queries: seq<string>, n: nat)
    requires n <= |queries| && TaggedFrom(rec, queries[..n])
    ensures TaggedFrom(rec, queries)
  {
    var q := Get(rec.fields, ContextKey).value.s;
    var i :| 0 <= i < n && queries[..n][i] == q;
    assert queries[i] == q;
  }

  lemma {:induction false} CollectTagged(records: string -> seq<Json>, queries: seq<string>)
    requires forall q, k :: 0 <= k < |records(q)| ==> TaggedWith(records(q)[k], q)
    ensures forall k :: 0 <= k < |Collect(records, queries)| ==> TaggedFrom(Collect(records, queries)[k], queries)
  {
    if queries != [] {
      var n := |queries| - 1;
      var q := queries[n];
      CollectTagged(records, queries[..n]);
      var a := Collect(records, queries[..n]);
      var b := records(q);
      assert Collect(records, queries) == a + b;
      forall k | 0 <= k < |a + b| ensures TaggedFrom((a + b)[k], queries) {
        if k < |a| {
          assert (a + b)[k] == a[k];
          TaggedFromPrefix(a[k], queries, n);
        } else {
          assert (a + b)[k] == b[k - |a|];
          assert TaggedWith(b[k - |a|], q);
        }
      }
    }
  }

  /** Every new record is a dict tagged with one of the queries. */
  lemma NewRecordsTagged(env: Env, originalQuery: string, queries: seq<string>)
    ensures forall k :: 0 <= k < |NewRecords(env, originalQuery, queries)| ==>
      TaggedFrom(NewRecords(env, originalQuery, queries)[k], queries)
  {
    var f := QueryRecordsOf(env, originalQuery);
    forall q, k | 0 <= k < |f(q)| ensures TaggedWith(f(q)[k], q) {
      QueryRecordsTagged(env, originalQuery, q);
    }
    CollectTagged(f, queries);
  }

  /** The document loop of lines 145-172. */
  method CompressAll(env: Env, query: string, docs: seq<CW.SearchDoc>) returns (processed: seq<CW.SearchDoc>)
    ensures processed == CompressDocs(env, query, docs)
  {
    processed := [];
    for i := 0 to |docs|
      invariant |processed| == i && forall k :: 0 <= k < i ==> processed[k] == CompressDoc(env, query, docs[k])
    {
      var doc := docs[i];
      var content := if "content" in doc then doc["content"] else "";
      var numTokens := LP.EstimateTokens(env.processor, content);
      if numTokens > env.contentTokenThreshold {
        var compressedContent := GetResponse(env.llm, CompressionRequest(env, query, content));
        var newDoc := doc["content" := compressedContent];
        processed := processed + [newDoc];
      } else {
        processed := processed + [doc];
      }
    }
  }

  /** The tagging loop of lines 191-193. */
  method AppendTagged(allQaResults: seq<Json>, extracted: seq<Json>, query: string) returns (r: seq<Json>)
    ensures r == allQaResults + Tag(extracted, query)
  {
    r := allQaResults;
    for j := 0 to |extracted|
      invariant r == allQaResults + Tag(extracted[..j], query)
    {
      var itemDict := extracted[j];
      assert Tag(extracted[..j + 1], query) == Tag(extracted[..j], query) + [TagRecord(itemDict, query)];
      r := r + [TagRecord(itemDict, query)];
    }
    assert extracted[..|extracted|] == extracted;
  }

  /** The work on one query (lines 130-196). */
  method AnalyzeQuery(env: Env, originalQuery: string, singleQuery: string, allQaResults: seq<Json>)
    returns (r: seq<Json>)
    ensures r == allQaResults + QueryRecordsOf(env, originalQuery)(singleQuery)
  {
    var singleQuerySearchResults := CW.Search(env.searcher, singleQuery, env.defaultLimit);
    if singleQuerySearchResults == [] {
      return allQaResults;
    }
    var processedSearchResults := CompressAll(env, singleQuery, singleQuerySearchResults);
    var responseFromLlm := GetResponse(env.llm, AnalyzerRequest(env, originalQuery, processedSearchResults));
    var extractedJsonList := S2D.StructureTextToJsonList(responseFromLlm, env.isWord, env.parse);
    if extractedJsonList == [] {
      return allQaResults;
    }
    r := AppendTagged(allQaResults, extractedJsonList, singleQuery);
  }

  /** `search_and_analyze_per_query_node` (lines 108-201). */
  method SearchAndAnalyzeNode(env: Env, s: GraphState) returns (r: GraphState)
    ensures r == SearchAndAnalyze(env, s)
  {
    var searchQueries := s.searchQueries;
    var allQaResults := s.qaResults;
    if searchQueries == [] {
      return s.(feedback := NoQueriesFeedback);
    }
    ghost var f := QueryRecordsOf(env, s.originalQuery);
    for i := 0 to |searchQueries|
      invariant allQaResults == s.qaResults + Collect(f, searchQueries[..i])
    {
      CollectStep(s.qaResults, f, searchQueries, i);
      allQaResults := AnalyzeQuery(env, s.originalQuery, searchQueries[i], allQaResults);
    }
    assert searchQueries[..|searchQueries|] == searchQueries;
    assert allQaResults == s.qaResults + NewRecords(env, s.originalQuery, searchQueries);
    r := s.(qaResults := allQaResults);
  }

  // ---------------------------------------------------------------------------------------------
  // decide_next_step (lines 247-282) and the models LLMAnalysis / DataSource (lines 31-41)

  /** `DataSource`: three string fields. */
  datatype DataSource = DataSource(url: string, title: string, fragment: string)

  /** `LLMAnalysis`: the answer for one query, its sources, and the query it answers. */
  datatype Analysis = Analysis(answer: string, data: seq<DataSource>, context: string)

  /** A field that is present and a string; Pydantic's `str` accepts nothing else. */
  function StrField(fields: seq<Field>, key: string): (r: Option<string>)
    ensures r.Some? <==> Get(fields, key).Some? && Get(fields, key).value.JStr?
    ensures r.Some? ==> Get(fields, key) == Some(JStr(r.value))
  {
    var v := Get(fields, key);
    if v.Some? && v.value.JStr? then Some(v.value.s) else None
  }

  /** `DataSource(**d)`: a dict with string `url`, `title` and `fragment`; other keys are ignored.
      `None` is a `ValidationError`. */
  function ValidateSource(v: Json): Option<DataSource> {
    if !v.JObj? then None
    else
      var url := StrField(v.fields, "url");
      var title := StrField(v.fields, "title");
      var fragment := StrField(v.fields, "fragment");
      if url.Some? && title.Some? && fragment.Some? then Some(DataSource(url.value, title.value, fragment.value))
      else None
  }

  /** A source validates exactly when it is a dict whose three fields are strings, and then carries them. */
  lemma ValidateSourceSpec(v: Json)
    ensures ValidateSource(v).Some? <==>
      v.JObj? && StrField(v.fields, "url").Some? && StrField(v.fields, "title").Some? && StrField(v.fields, "fragment").Some?
    ensures ValidateSource(v).Some? ==>
      var d := ValidateSource(v).value;
      Get(v.fields, "url") == Some(JStr(d.url)) && Get(v.fields, "title") == Some(JStr(d.title))
      && Get(v.fields, "fragment") == Some(JStr(d.fragment))
  {
  }

  /** `List[DataSource]`: every item must validate, or the whole list fails. */
  function ValidateSources(items: seq<Json>): Option<seq<DataSource>> {
    if items == [] then Some([])
    else
      var init := ValidateSources(items[..|items| - 1]);
      var last := ValidateSource(items[|items| - 1]);
      if init.Some? && last.Some? then Some(init.value + [last.value]) else None
  }

  /** The list validates exactly when every item does, and then holds the items' sources in order. */
  lemma {:induction false} ValidateSourcesSpec(items: seq<Json>)
    ensures ValidateSources(items).Some? <==> forall k :: 0 <= k < |items| ==> ValidateSource(items[k]).Some?
    ensures ValidateSources(items).Some? ==>
      |ValidateSources(items).value| == |items|
      && forall k :: 0 <= k < |items| ==> ValidateSource(items[k]) == Some(ValidateSources(items).value[k])
  {
    if items != [] {
      var init := items[..|items| - 1];
      ValidateSourcesSpec(init);
      assert forall k :: 0 <= k < |init| ==> init[k] == items[k];
      var r := ValidateSources(items);
      if r.Some? {
        var a := ValidateSources(init).value;
        assert r.value == a + [ValidateSource(items[|items| - 1]).value];
        forall k | 0 <= k < |items| ensures ValidateSource(items[k]) == Some(r.value[k]) {
          if k < |init| {
            assert r.value[k] == a[k];
          }
        }
      }
    }
  }

  /** `LLMAnalysis(**qa)`: a string `answer`, a list `data` of valid sources, and a string context that
      defaults to empty. */
  function Validate(rec: Json): Option<Analysis> {
    if !rec.JObj? then None
    else
      var answer := StrField(rec.fields, "answer");
      var data := Get(rec.fields, "data");
      var sources := if data.Some? && data.value.JArr? then ValidateSources(data.value.items) else None;
      var c := Get(rec.fields, ContextKey);
      var context := if c.None? then Some("") else if c.value.JStr? then Some(c.value.s) else None;
      if answer.Some? && sources.Some? && context.Some? then Some(Analysis(answer.value, sources.value, context.value))
      else None
  }

  /** A record validates exactly when it is a dict with a string answer, a list of valid sources and a
      missing or string context; the analysis then carries those values. */
  lemma ValidateSpec(rec: Json)
    ensures Validate(rec).Some? <==>
      rec.JObj? && StrField(rec.fields, "answer").Some?
      && (var data := Get(rec.fields, "data"); data.Some? && data.value.JArr? && ValidateSources(data.value.items).Some?)
      && (var c := Get(rec.fields, ContextKey); c.None? || c.value.JStr?)
    ensures Validate(rec).Some? ==>
      var a := Validate(rec).value;
      Get(rec.fields, "answer") == Some(JStr(a.answer))
      && Get(rec.fields, "data") == Some(JArr(Get(rec.fields, "data").value.items))
      && ValidateSources(Get(rec.fields, "data").value.items) == Some(a.data)
      && ((Get(rec.fields, ContextKey) == None && a.context == "") || Get(rec.fields, ContextKey) == Some(JStr(a.context)))
  {
  }

  /** A source as the analyzer is asked to write it. */
  function SourceValue(d: DataSource): Json {
    SourceDict(d.url, d.title, d.fragment)
  }

  function SourceValues(ds: seq<DataSource>): (r: seq<Json>)
    ensures |r| == |ds| && forall k :: 0 <= k < |ds| ==> r[k] == SourceValue(ds[k])
  {
    seq(|ds|, k requires 0 <= k < |ds| => SourceValue(ds[k]))
  }

  /** A record as the analyzer is asked to write it, tagged with its query. */
  function AnalysisValue(a: Analysis): Json {
    JObj([Field("answer", JStr(a.answer)), Field("data", JArr(SourceValues(a.data))), Field(ContextKey, JStr(a.context))])
  }

  /** Every source written as a dict of its three fields validates back to itself. */
  lemma ValidateSourceRoundTrip(d: DataSource)
    ensures ValidateSource(SourceValue(d)) == Some(d)
  {
    GetThree("url", JStr(d.url), "title", JStr(d.title), "fragment", JStr(d.fragment));
  }

  /** Every list of sources written out validates back to itself, in order. */
  lemma {:induction false} ValidateSourcesRoundTrip(ds: seq<DataSource>)
    ensures ValidateSources(SourceValues(ds)) == Some(ds)
  {
    if ds != [] {
      var n := |ds| - 1;
      var init := ds[..n];
      var items := SourceValues(ds);
      assert items[..n] == SourceValues(init);
      ValidateSourcesRoundTrip(init);
      ValidateSourceRoundTrip(ds[n]);
      ValidateSourcesStep(items, init, ds[n]);
      assert init + [ds[n]] == ds;
    }
  }

  lemma ValidateSourcesStep(items: seq<Json>, init: seq<DataSource>, d: DataSource)
    requires items != [] && ValidateSources(items[..|items| - 1]) == Some(init)
    requires ValidateSource(items[|items| - 1]) == Some(d)
    ensures ValidateSources(items) == Some(init + [d])
  {
  }

  /** Every analysis written out as a record validates back to itself: validation loses nothing of a
      well-formed record. */
  lemma ValidateRoundTrip(a: Analysis)
    ensures Validate(AnalysisValue(a)) == Some(a)
  {
    var items := SourceValues(a.data);
    var fields := AnalysisValue(a).fields;
    assert Get(fields, "answer") == Some(JStr(a.answer)) && Get(fields, "data") == Some(JArr(items))
           && Get(fields, ContextKey) == Some(JStr(a.context)) by {
      assert "answer" != ContextKey && "data" != ContextKey by { assert ContextKey[0] == 'o'; }
      GetThree("answer", JStr(a.answer), "data", JArr(items), ContextKey, JStr(a.context));
    }
    ValidateSourcesRoundTrip(a.data);
    ValidateFields(fields, a.answer, items, a.data, a.context);
  }

  lemma ValidateFields(fields: seq<Field>, answer: string, items: seq<Json>, sources: seq<DataSource>, context: string)
    requires Get(fields, "answer") == Some(JStr(answer)) && Get(fields, "data") == Some(JArr(items))
    requires Get(fields, ContextKey) == Some(JStr(context)) && ValidateSources(items) == Some(sources)
    ensures Validate(JObj(fields)) == Some(Analysis(answer, sources, context))
  {
  }

  /** The error record of a failed analysis call, tagged with its query, fails validation, because its
      `data` is a dict and not a list; and the final node as written raises on it, because iterating that
      dict gives its keys. */
  lemma ErrorRecordRejected(error: string, query: string)
    ensures Validate(TagRecord(ErrorValue(error), query)) == None
    ensures RawPairsOf(TagRecord(ErrorValue(error), query)) == None
  {
    var fields := ErrorValue(error).fields;
    var data := fields[2].value;
    var tagged := TagRecord(ErrorValue(error), query);
    assert tagged == JObj(SetKey(fields, ContextKey, JStr(query)));
    assert Get(tagged.fields, "data") == Some(data) by {
      assert Get(fields, "data") == Some(data) by {
        assert Get(fields[2..], "data") == Some(data);
      }
      SetKeyGet(fields, ContextKey, JStr(query), "data");
      assert "data" != ContextKey by { assert ContextKey[0] == 'o'; }
    }
    DictDataRejected(tagged, data);
  }

  /** A record whose `data` is a non-empty dict fails validation, and formatting it as written raises. */
  lemma DictDataRejected(rec: Json, data: Json)
    requires rec.JObj? && Get(rec.fields, "data") == Some(data) && data.JObj? && data.fields != []
    ensures Validate(rec) == None && RawPairsOf(rec) == None
  {
  }

  /** The values of the items `f` accepts, in order. */
  function Keep<A, B>(f: A -> Option<B>, xs: seq<A>): (r: seq<B>)
    ensures |r| <= |xs|
  {
    if xs == [] then []
    else
      var v := f(xs[|xs| - 1]);
      Keep(f, xs[..|xs| - 1]) + (if v.Some? then [v.value] else [])
  }

  lemma KeepSnoc<A, B>(f: A -> Option<B>, xs: seq<A>, x: A)
    ensures Keep(f, xs + [x]) == Keep(f, xs) + (if f(x).Some? then [f(x).value] else [])
  {
    assert (xs + [x])[..|xs|] == xs;
  }

  /** Keeping from a concatenation keeps from each part. */
  lemma {:induction false} KeepConcat<A, B>(f: A -> Option<B>, a: seq<A>, b: seq<A>)
    ensures Keep(f, a + b) == Keep(f, a) + Keep(f, b)
    decreases |b|
  {
    if b == [] {
      assert a + b == a;
    } else {
      var init := b[..|b| - 1];
      var last := b[|b| - 1];
      KeepConcat(f, a, init);
      assert a + b == (a + init) + [last];
      KeepSnoc(f, a + init, last);
      KeepSnoc(f, init, last);
      assert b == init + [last];
    }
  }

  /** When `f` accepts every item, all of them are kept, position by position. */
  lemma {:induction false} KeepAll<A, B>(f: A -> Option<B>, xs: seq<A>)
    requires forall k :: 0 <= k < |xs| ==> f(xs[k]).Some?
    ensures |Keep(f, xs)| == |xs| && forall k :: 0 <= k < |xs| ==> Keep(f, xs)[k] == f(xs[k]).value
  {
    if xs != [] {
      var init := xs[..|xs| - 1];
      KeepAll(f, init);
      assert forall k :: 0 <= k < |init| ==> init[k] == xs[k];
      assert Keep(f, xs) == Keep(f, init) + [f(xs[|xs| - 1]).value];
    }
  }

  /** A kept value has property `p` exactly when some item is accepted with a value that has it. */
  lemma {:induction false} KeepExists<A, B>(f: A -> Option<B>, xs: seq<A>, p: B -> bool)
    ensures (exists k :: 0 <= k < |Keep(f, xs)| && p(Keep(f, xs)[k]))
            <==> exists j :: 0 <= j < |xs| && f(xs[j]).Some? && p(f(xs[j]).value)
  {
    if xs != [] {
      var init := xs[..|xs| - 1];
      var x := xs[|xs| - 1];
      KeepExists(f, init, p);
      assert xs == init + [x];
      KeepSnoc(f, init, x);
      var n := Keep(f, init);
      var tail := if f(x).Some? then [f(x).value] else [];
      if exists k :: 0 <= k < |n + tail| && p((n + tail)[k]) {
        var k :| 0 <= k < |n + tail| && p((n + tail)[k]);
        if k < |n| {
          assert (n + tail)[k] == n[k];
          var j :| 0 <= j < |init| && f(init[j]).Some? && p(f(init[j]).value);
          assert xs[j] == init[j];
        } else {
          assert f(xs[|xs| - 1]).Some?;
        }
      }
      if exists j :: 0 <= j < |xs| && f(xs[j]).Some? && p(f(xs[j]).value) {
        var j :| 0 <= j < |xs| && f(xs[j]).Some? && p(f(xs[j]).value);
        if j < |init| {
          assert xs[j] == init[j];
          var k :| 0 <= k < |n| && p(n[k]);
          assert (n + tail)[k] == n[k];
        } else {
          assert (n + tail)[|n|] == f(x).value;
        }
      }
    }
  }

  /** `normalized_qa_results`: the records that validate, in order; the others are skipped. */
  function Normalize(qa: seq<Json>): seq<Analysis> {
    Keep(Validate, qa)
  }

  /** When every record validates, normalization keeps all of them, position by position. */
  lemma NormalizeAllValid(qa: seq<Json>)
    requires forall k :: 0 <= k < |qa| ==> Validate(qa[k]).Some?
    ensures |Normalize(qa)| == |qa| && forall k :: 0 <= k < |qa| ==> Normalize(qa)[k] == Validate(qa[k]).value
  {
    KeepAll(Validate, qa);
  }

  /** Normalizing the records of several rounds normalizes each round's records. */
  lemma NormalizeConcat(a: seq<Json>, b: seq<Json>)
    ensures Normalize(a + b) == Normalize(a) + Normalize(b)
  {
    KeepConcat(Validate, a, b);
  }

  /** `qa.answer.strip() and any(ds.url.strip() for ds in qa.data)` */
  predicate Meaningful(a: Analysis) {
    Strip(a.answer) != "" && exists k :: 0 <= k < |a.data| && Strip(a.data[k].url) != ""
  }

  predicate AnyMeaningful(analyses: seq<Analysis>) {
    exists k :: 0 <= k < |analyses| && Meaningful(analyses[k])
  }

  /** Some record validates to a meaningful analysis. */
  predicate SomeRecordMeaningful(qa: seq<Json>) {
    exists k :: 0 <= k < |qa| && Validate(qa[k]).Some? && Meaningful(Validate(qa[k]).value)
  }

  /** A meaningful analysis survives normalization exactly when its record validates. */
  lemma NormalizeMeaningful(qa: seq<Json>)
    ensures AnyMeaningful(Normalize(qa)) <==> SomeRecordMeaningful(qa)
  {
    KeepExists(Validate, qa, Meaningful);
  }

  /** The three exits of the router. */
  datatype Route = Retry | Continue | End

  /** `decide_next_step`: answer as soon as one validated record is meaningful; otherwise stop once
      the round budget is used up, and retry before that. */
  function Decide(env: Env, s: GraphState): Route {
    if AnyMeaningful(Normalize(s.qaResults)) then Continue
    else if s.rephrasingCount >= env.maxRetries then End
    else Retry
  }

  /** Each exit, both directions, in terms of the raw records. */
  lemma DecideSpec(env: Env, s: GraphState)
    ensures Decide(env, s) == Continue <==> SomeRecordMeaningful(s.qaResults)
    ensures Decide(env, s) == End <==> !SomeRecordMeaningful(s.qaResults) && s.rephrasingCount >= env.maxRetries
    ensures Decide(env, s) == Retry <==> !SomeRecordMeaningful(s.qaResults) && s.rephrasingCount < env.maxRetries
  {
    NormalizeMeaningful(s.qaResults);
  }

  lemma NormalizePrefix(qa: seq<Json>, i: nat)
    requires i < |qa|
    ensures Normalize(qa[..i + 1]) == Normalize(qa[..i]) + (if Validate(qa[i]).Some? then [Validate(qa[i]).value] else [])
  {
    assert qa[..i + 1] == qa[..i] + [qa[i]];
    KeepSnoc(Validate, qa[..i], qa[i]);
  }

  /** The validation loop of lines 250-263. */
  method NormalizeResults(qaResults: seq<Json>) returns (normalized: seq<Analysis>)
    ensures normalized == Normalize(qaResults)
  {
    normalized := [];
    for i := 0 to |qaResults|
      invariant normalized == Normalize(qaResults[..i])
    {
      NormalizePrefix(qaResults, i);
      var validated := Validate(qaResults[i]);
      if validated.Some? {
        normalized := normalized + [validated.value];
      }
    }
    assert qaResults[..|qaResults|] == qaResults;
  }

  /** `decide_next_step` (lines 247-282). */
  method DecideNextStep(env: Env, s: GraphState) returns (route: Route)
    ensures route == Decide(env, s)
  {
    var normalized := NormalizeResults(s.qaResults);
    var meaningfulQaFound := AnyMeaningful(normalized);
    if meaningfulQaFound {
      return Continue;
    }
    if s.rephrasingCount >= env.maxRetries {
      return End;
    }
    return Retry;
  }

  // ---------------------------------------------------------------------------------------------
  // generate_final_answer_node (lines 205-245)

  const NoQaAnswer := "Не удалось сгенерировать ответ на основе найденной информации."
  const BlankEvidenceAnswer := "Не удалось сгенерировать содержательный ответ."

  const SectionOpen := "--- Источник "
  const QueryOpen := " (поисковый запрос: '"
  const HeadClose := "') ---\n"
  const TitleLead := "Заголовок: "
  const LinkLead := "Ссылка: "
  const AnswerLead := "Краткий ответ по этому источнику: "
  const FragmentLead := "Фргамент текста, на базе которого сформулирован краткий ответ: "

  /** The first line of a section (line 222). */
  function SectionHead(n: nat, context: string): (r: string)
    ensures r != [] && r[0] == '-'
  {
    SectionOpen + NatToString(n) + QueryOpen + context + HeadClose
  }

  /** The other four lines of a section and the blank line after it (lines 223-226). */
  function SectionBody(title: string, url: string, answer: string, fragment: string): string {
    TitleLead + title + "\n" + LinkLead + url + "\n" + AnswerLead + answer + "\n" + FragmentLead + fragment + "\n\n"
  }

  function Section(n: nat, context: string, title: string, url: string, answer: string, fragment: string): string {
    SectionHead(n, context) + SectionBody(title, url, answer, fragment)
  }

  /** A section opens with its numbered head, whose first character is the dash of `---`. */
  lemma SectionStarts(n: nat, p: Pair)
    ensures StartsWith(PairSection(n, p), SectionHead(n, p.qa.context)) && PairSection(n, p)[0] == '-'
  {
    var h := SectionHead(n, p.qa.context);
    assert PairSection(n, p)[..|h|] == h;
  }

  /** One source of one analysis: a section of the evidence. */
  datatype Pair = Pair(qa: Analysis, source: DataSource)

  /** The pairs of one analysis, in source order. */
  function PairsOf(a: Analysis): (r: seq<Pair>)
    ensures |r| == |a.data| && forall k :: 0 <= k < |r| ==> r[k] == Pair(a, a.data[k])
  {
    seq(|a.data|, k requires 0 <= k < |a.data| => Pair(a, a.data[k]))
  }

  /** The pairs visited by the nested loop of lines 219-227. */
  function Pairs(analyses: seq<Analysis>): seq<Pair> {
    if analyses == [] then [] else Pairs(analyses[..|analyses| - 1]) + PairsOf(analyses[|analyses| - 1])
  }

  function PairSection(n: nat, p: Pair): string {
    Section(n, p.qa.context, p.source.title, p.source.url, p.qa.answer, p.source.fragment)
  }

  /** `formatted_qa_for_final_answer` over the validated analyses, numbered from 1. */
  function Evidence(analyses: seq<Analysis>): string {
    Formatters.Numbered(Pairs(analyses), 1, PairSection)
  }

  /** Every pair is a source of one of the analyses, and there is one pair per source. */
  lemma {:induction false} PairsSpec(analyses: seq<Analysis>)
    ensures forall k :: 0 <= k < |Pairs(analyses)| ==>
      Pairs(analyses)[k].qa in analyses && Pairs(analyses)[k].source in Pairs(analyses)[k].qa.data
    ensures Pairs(analyses) == [] <==> forall k :: 0 <= k < |analyses| ==> analyses[k].data == []
  {
    if analyses != [] {
      var init := analyses[..|analyses| - 1];
      var last := analyses[|analyses| - 1];
      PairsSpec(init);
      var a: seq<Pair> := Pairs(init);
      var b: seq<Pair> := PairsOf(last);
      assert Pairs(analyses) == a + b;
      forall k | 0 <= k < |a + b| ensures (a + b)[k].qa in analyses && (a + b)[k].source in (a + b)[k].qa.data {
        if k < |a| {
          assert (a + b)[k] == a[k];
          var i :| 0 <= i < |init| && init[i] == a[k].qa;
          assert analyses[i] == init[i];
        } else {
          assert (a + b)[k] == b[k - |a|];
        }
      }
      assert forall k :: 0 <= k < |init| ==> init[k] == analyses[k];
    }
  }

  /** The evidence is the sections numbered by position, each opening with its number and query. */
  lemma EvidenceSpec(analyses: seq<Analysis>)
    ensures var ps := Pairs(analyses);
      Evidence(analyses) == Formatters.Concat(Formatters.BlockList(ps, 1, PairSection))
      && forall k :: 0 <= k < |ps| ==>
           StartsWith(Formatters.BlockList(ps, 1, PairSection)[k], SectionHead(k + 1, ps[k].qa.context))
  {
    var ps := Pairs(analyses);
    Formatters.NumberedIsConcat(ps, 1, PairSection);
    forall k | 0 <= k < |ps| ensures StartsWith(Formatters.BlockList(ps, 1, PairSection)[k], SectionHead(k + 1, ps[k].qa.context)) {
      SectionStarts(k + 1, ps[k]);
    }
  }

  /** The evidence is blank exactly when there is no source at all. */
  lemma EvidenceBlank(analyses: seq<Analysis>)
    ensures Strip(Evidence(analyses)) == "" <==> Pairs(analyses) == []
  {
    var ps := Pairs(analyses);
    var ev := Evidence(analyses);
    StripBlank(ev);
    if ps != [] {
      assert ev == PairSection(1, ps[0]) + Formatters.Numbered(ps[1..], 2, PairSection);
      SectionStarts(1, ps[0]);
      assert ev[0] == '-';
      assert !IsWhitespace(ev[0]);
    } else {
      assert ev == "";
    }
  }

  /** What the final node answers, over the validated analyses: the no-results message without
      records, the no-content message without sources, and otherwise the processor's answer. */
  function GenerateAnswer(env: Env, s: GraphState): string {
    if s.qaResults == [] then NoQaAnswer
    else
      var evidence := Evidence(Normalize(s.qaResults));
      if Strip(evidence) == "" then BlankEvidenceAnswer
      else LP.ContextAnswer(env.processor, env.llm, env.finalPrompt, s.originalQuery, evidence, env.maxTokensFinalAnswer)
  }

  /** The three outcomes of the final node. */
  lemma GenerateAnswerSpec(env: Env, s: GraphState)
    ensures GenerateAnswer(env, s) == NoQaAnswer <== s.qaResults == []
    ensures s.qaResults != [] && Pairs(Normalize(s.qaResults)) == [] ==> GenerateAnswer(env, s) == BlankEvidenceAnswer
    ensures s.qaResults != [] && Pairs(Normalize(s.qaResults)) != [] ==>
      GenerateAnswer(env, s) == LP.ContextAnswer(env.processor, env.llm, env.finalPrompt, s.originalQuery,
                                                 Evidence(Normalize(s.qaResults)), env.maxTokensFinalAnswer)
  {
    EvidenceBlank(Normalize(s.qaResults));
  }

  lemma PairsPrefix(analyses: seq<Analysis>, i: nat)
    requires i < |analyses|
    ensures Pairs(analyses[..i + 1]) == Pairs(analyses[..i]) + PairsOf(analyses[i])
  {
    assert analyses[..i + 1][..i] == analyses[..i];
  }

  /** One more source of `qa` appends its section, numbered after all sections so far. */
  lemma SectionStep(before: seq<Pair>, qa: Analysis, j: nat, r: string, counter: nat)
    requires j < |qa.data|
    requires r == Formatters.Numbered(before + PairsOf(qa)[..j], 1, PairSection) && counter == 1 + |before| + j
    ensures var d := qa.data[j];
      r + (SectionHead(counter, qa.context) + SectionBody(d.title, d.url, qa.answer, d.fragment))
      == Formatters.Numbered(before + PairsOf(qa)[..j + 1], 1, PairSection)
  {
    var ps := PairsOf(qa);
    var d := qa.data[j];
    PairsSnoc(before, ps, j, PairSection);
    assert ps[j] == Pair(qa, d);
    SectionOfPair(counter, qa, d);
  }

  lemma PrefixSnoc<T>(before: seq<T>, ps: seq<T>, j: nat)
    requires j < |ps|
    ensures before + ps[..j + 1] == (before + ps[..j]) + [ps[j]]
  {
    assert ps[..j + 1] == ps[..j] + [ps[j]];
  }

  lemma PairsSnoc<T>(before: seq<T>, ps: seq<T>, j: nat, block: (nat, T) -> string)
    requires j < |ps|
    ensures Formatters.Numbered(before + ps[..j + 1], 1, block)
      == Formatters.Numbered(before + ps[..j], 1, block) + block(1 + |before| + j, ps[j])
  {
    var longer := before + ps[..j + 1];
    var items := before + ps[..j];
    PrefixSnoc(before, ps, j);
    assert longer == items + [ps[j]];
    assert |items| == |before| + j;
    Formatters.NumberedSnoc(items, ps[j], 1, block);
    assert Formatters.Numbered(longer, 1, block) == Formatters.Numbered(items + [ps[j]], 1, block);
  }

  lemma SectionOfPair(n: nat, qa: Analysis, d: DataSource)
    ensures PairSection(n, Pair(qa, d)) == SectionHead(n, qa.context) + SectionBody(d.title, d.url, qa.answer, d.fragment)
  {
  }

  /** The inner loop of lines 221-227 for one analysis. */
  method AppendSections(formatted: string, sourceCounter: nat, ghost before: seq<Pair>, qa: Analysis)
    returns (r: string, counter: nat)
    requires formatted == Formatters.Numbered(before, 1, PairSection) && sourceCounter == 1 + |before|
    ensures r == Formatters.Numbered(before + PairsOf(qa), 1, PairSection) && counter == 1 + |before + PairsOf(qa)|
  {
    r, counter := formatted, sourceCounter;
    assert before + PairsOf(qa)[..0] == before;
    for j := 0 to |qa.data|
      invariant r == Formatters.Numbered(before + PairsOf(qa)[..j], 1, PairSection) && counter == 1 + |before| + j
    {
      var dataSource := qa.data[j];
      SectionStep(before, qa, j, r, counter);
      var section := SectionHead(counter, qa.context)
                     + SectionBody(dataSource.title, dataSource.url, qa.answer, dataSource.fragment);
      r := r + section;
      counter := counter + 1;
    }
    ghost var ps := PairsOf(qa);
    assert ps[..|qa.data|] == ps;
    ghost var all := before + ps;
    assert before + ps[..|qa.data|] == all;
  }

  /** `generate_final_answer_node` (lines 205-245), formatting the validated analyses. */
  method GenerateFinalAnswerNode(env: Env, s: GraphState) returns (r: GraphState)
    ensures r == s.(finalAnswer := GenerateAnswer(env, s))
  {
    if s.qaResults == [] {
      return s.(finalAnswer := NoQaAnswer);
    }
    var normalized := NormalizeResults(s.qaResults);
    var formatted := "";
    var sourceCounter := 1;
    for i := 0 to |normalized|
      invariant formatted == Evidence(normalized[..i]) && sourceCounter == 1 + |Pairs(normalized[..i])|
    {
      PairsPrefix(normalized, i);
      formatted, sourceCounter := AppendSections(formatted, sourceCounter, Pairs(normalized[..i]), normalized[i]);
    }
    assert normalized[..|normalized|] == normalized;
    if Strip(formatted) == "" {
      return s.(finalAnswer := BlankEvidenceAnswer);
    }
    var answer, _ := LP.ProcessLargeContext(env.processor, env.llm, env.finalPrompt, s.originalQuery, formatted,
                                            env.maxTokensFinalAnswer);
    r := s.(finalAnswer := answer);
  }

  // ---------------------------------------------------------------------------------------------
  // The final node as written: it formats the raw dicts of `qa_results`, not the validated ones

  /** `d.get(key, default)` */
  function GetOr(fields: seq<Field>, key: string, default: Json): (r: Json)
    ensures Get(fields, key).None? ==> r == default
    ensures Get(fields, key).Some? ==> r == Get(fields, key).value
  {
    var v := Get(fields, key);
    if v.Some? then v.value else default
  }

  /** `str(d.get(key, ''))` for a dict `d` (only dicts are ever paired, see `RawPairsOf`). */
  function StrOf(d: Json, key: string): string {
    if d.JObj? then PyStr(GetOr(d.fields, key, JStr(""))) else ""
  }

  /** What `for data_source in qa_item.get("data", [])` followed by `data_source.get(...)` gets through:
      every item of a list of dicts, nothing of a missing key, an empty string or an empty dict, and
      `None` for an exception: a `TypeError` for `None`, a bool or a number (not iterable), and an
      `AttributeError` for any item that is not a dict (the characters of a string, the keys of a
      dict, a list or scalar inside the list). */
  function RawSources(data: Option<Json>): (r: Option<seq<Json>>)
    ensures r.Some? ==> forall k :: 0 <= k < |r.value| ==> r.value[k].JObj?
  {
    match data
    case None => Some([])
    case Some(JArr(items)) => if forall k :: 0 <= k < |items| ==> items[k].JObj? then Some(items) else None
    case Some(JStr(text)) => if text == "" then Some([]) else None
    case Some(JObj(fields)) => if fields == [] then Some([]) else None
    case Some(_) => None
  }

  /** One raw record and one of its raw sources. */
  datatype RawPair = RawPair(rec: Json, source: Json)

  /** The pairs of one raw record, or `None` when formatting it raises. */
  function RawPairsOf(rec: Json): (r: Option<seq<RawPair>>)
    ensures r.Some? ==> forall k :: 0 <= k < |r.value| ==> r.value[k].rec == rec && r.value[k].source.JObj?
  {
    if !rec.JObj? then None
    else
      var sources := RawSources(Get(rec.fields, "data"));
      if sources.None? then None
      else Some(seq(|sources.value|, k requires 0 <= k < |sources.value| => RawPair(rec, sources.value[k])))
  }

  /** The pairs of all raw records, or `None` when formatting any of them raises. */
  function RawPairs(qa: seq<Json>): Option<seq<RawPair>> {
    if qa == [] then Some([])
    else
      var init := RawPairs(qa[..|qa| - 1]);
      var last := RawPairsOf(qa[|qa| - 1]);
      if init.Some? && last.Some? then Some(init.value + last.value) else None
  }

  function RawSection(n: nat, p: RawPair): string {
    Section(n, StrOf(p.rec, ContextKey), StrOf(p.source, "title"), StrOf(p.source, "url"), StrOf(p.rec, "answer"),
            StrOf(p.source, "fragment"))
  }

  function RawEvidence(qa: seq<Json>): Option<string> {
    var ps := RawPairs(qa);
    if ps.None? then None else Some(Formatters.Numbered(ps.value, 1, RawSection))
  }

  /** `generate_final_answer_node` as written; `None` is the exception that ends the whole run. */
  function RawGenerateAnswer(env: Env, s: GraphState): Option<string> {
    if s.qaResults == [] then Some(NoQaAnswer)
    else
      var evidence := RawEvidence(s.qaResults);
      if evidence.None? then None
      else if Strip(evidence.value) == "" then Some(BlankEvidenceAnswer)
      else Some(LP.ContextAnswer(env.processor, env.llm, env.finalPrompt, s.originalQuery, evidence.value,
                                 env.maxTokensFinalAnswer))
  }

  /** A source dict with the three fields. */
  function SourceDict(url: string, title: string, fragment: string): Json {
    JObj([Field("url", JStr(url)), Field("title", JStr(title)), Field("fragment", JStr(fragment))])
  }

  /** A record as the analyzer is asked to write it, with one source. */
  const GoodRecord: Json := JObj([Field("answer", JStr("a")), Field("data", JArr([SourceDict("u", "t", "f")])),
                                   Field(ContextKey, JStr("q"))])

  /** The same record with `data` a single source dict instead of a list of them. */
  const BadRecord: Json := JObj([Field("answer", JStr("a")), Field("data", SourceDict("u", "t", "f")),
                                  Field(ContextKey, JStr("q"))])

  const GoodAnalysis := Analysis("a", [DataSource("u", "t", "f")], "q")

  lemma GoodSourceValidates()
    ensures ValidateSources([SourceDict("u", "t", "f")]) == Some([DataSource("u", "t", "f")])
  {
    var src := SourceDict("u", "t", "f");
    var d := DataSource("u", "t", "f");
    assert ValidateSource(src) == Some(d);
    var one := [src];
    assert one[..|one| - 1] == [];
    assert ValidateSources(one[..|one| - 1]) == Some([]);
    assert ValidateSources(one) == Some([] + [d]);
    assert [] + [d] == [d];
  }

  lemma GoodRecordFields()
    ensures StrField(GoodRecord.fields, "answer") == Some("a")
    ensures Get(GoodRecord.fields, "data") == Some(JArr([SourceDict("u", "t", "f")]))
    ensures Get(GoodRecord.fields, ContextKey) == Some(JStr("q"))
  {
    var fields := GoodRecord.fields;
    assert ContextKey[0] == 'o' && "answer" != ContextKey && "data" != ContextKey;
    assert Get(fields[2..], ContextKey) == Some(JStr("q"));
    assert Get(fields[1..], ContextKey) == Get(fields[2..], ContextKey);
  }

  lemma GoodRecordValidates()
    ensures Validate(GoodRecord) == Some(GoodAnalysis)
  {
    GoodSourceValidates();
    GoodRecordFields();
  }

  lemma BadRecordSkippedAndRaises()
    ensures Validate(BadRecord) == None && RawPairsOf(BadRecord) == None
  {
    var fields := BadRecord.fields;
    assert Get(fields, "data") == Some(SourceDict("u", "t", "f"));
  }

  lemma GoodAnalysisMeaningful()
    ensures Meaningful(GoodAnalysis)
  {
    StripUnchanged("a");
    StripUnchanged("u");
    assert GoodAnalysis.data[0].url == "u";
  }

  /** The router answers CONTINUE because of one good record, and the final node then raises on a
      neighbouring record whose `data` is a single source dict instead of a list: validation skipped
      it, but the final node iterates over its keys. The corrected node answers from the good record. */
  lemma FinalNodeRaisesOnSkippedRecord(env: Env)
    ensures var s := GraphState("query", ["q"], [GoodRecord, BadRecord], "", 1, "");
      Decide(env, s) == Continue
      && RawGenerateAnswer(env, s) == None
      && Normalize(s.qaResults) == [GoodAnalysis]
  {
    var qa := [GoodRecord, BadRecord];
    NormalizeGoodBad();
    GoodAnalysisMeaningful();
    assert Normalize(qa)[0] == GoodAnalysis;
    assert AnyMeaningful(Normalize(qa));
    BadRecordSkippedAndRaises();
    assert qa[..1] == [GoodRecord];
    assert RawPairs(qa) == None;
  }

  /** A query whose analysis call fails contributes the error record, tagged with the query, when
      `json.loads` reads back the dict that `json.dumps` wrote. */
  lemma FailedAnalysisRecords(env: Env, originalQuery: string, q: string, error: string)
    requires S2D.IsWordClass(env.isWord)
    requires CW.SearchResults(env.searcher, q, env.defaultLimit) != []
    requires env.llm(AnalyzerRequest(env, originalQuery, CompressDocs(env, q, CW.SearchResults(env.searcher, q, env.defaultLimit))))
             == Failed(error)
    requires env.parse(ErrorRecord(error)) == Some(ErrorValue(error))
    ensures QueryRecords(env, originalQuery, q) == [TagRecord(ErrorValue(error), q)]
  {
    var docs := CompressDocs(env, q, CW.SearchResults(env.searcher, q, env.defaultLimit));
    var response := GetResponse(env.llm, AnalyzerRequest(env, originalQuery, docs));
    assert response == ErrorRecord(error);
    ErrorRecordExtracted(error, env.isWord, env.parse);
  }

  /** The extractor reads the error record back as the one dict `json.dumps` wrote. */
  lemma ErrorRecordExtracted(error: string, isWord: char -> bool, parse: string -> Option<Json>)
    requires S2D.IsWordClass(isWord)
    requires parse(ErrorRecord(error)) == Some(ErrorValue(error))
    ensures S2D.ExtractRecords(ErrorRecord(error), isWord, parse) == [ErrorValue(error)]
  {
    var fields := ErrorValue(error).fields;
    ErrorRecordShape(error);
    forall k | 0 <= k < |fields|
      ensures !S2D.IsStringList(fields[k].value)
    {
      assert fields[k].value.JStr? || fields[k].value.JObj?;
    }
    S2D.DumpedObjectExtracted(ErrorRecord(error), isWord, parse, fields);
  }

  /** The same failure with the model's own error record: one query gave a good record, the analysis
      call of another failed. The router answers CONTINUE, and the final node as written raises. */
  lemma FinalNodeRaisesOnErrorRecord(env: Env, error: string)
    ensures var s := GraphState("query", ["q", "r"], [GoodRecord, TagRecord(ErrorValue(error), "r")], "", 1, "");
      Decide(env, s) == Continue
      && RawGenerateAnswer(env, s) == None
      && Normalize(s.qaResults) == [GoodAnalysis]
  {
    var bad := TagRecord(ErrorValue(error), "r");
    ErrorRecordRejected(error, "r");
    GoodBeforeSkipped(env, GraphState("query", ["q", "r"], [GoodRecord, bad], "", 1, ""), bad);
  }

  /** The good record followed by one that fails validation and on which formatting raises. */
  lemma GoodBeforeSkipped(env: Env, s: GraphState, bad: Json)
    requires s.qaResults == [GoodRecord, bad]
    requires Validate(bad) == None && RawPairsOf(bad) == None
    ensures Decide(env, s) == Continue && RawGenerateAnswer(env, s) == None && Normalize(s.qaResults) == [GoodAnalysis]
  {
    NormalizeGoodThen(bad);
    RawPairsGoodThen(bad);
    GoodAnalysisMeaningful();
    assert AnyMeaningful([GoodAnalysis]) by {
      assert [GoodAnalysis][0] == GoodAnalysis;
    }
  }

  lemma NormalizeGoodThen(bad: Json)
    requires Validate(bad) == None
    ensures Normalize([GoodRecord, bad]) == [GoodAnalysis]
  {
    GoodRecordValidates();
    KeepSnoc(Validate, [], GoodRecord);
    assert [] + [GoodRecord] == [GoodRecord];
    KeepSnoc(Validate, [GoodRecord], bad);
    assert [GoodRecord] + [bad] == [GoodRecord, bad];
  }

  lemma RawPairsGoodThen(bad: Json)
    requires RawPairsOf(bad) == None
    ensures RawPairs([GoodRecord, bad]) == None
  {
    var qa := [GoodRecord, bad];
    assert qa[..1] == [GoodRecord];
    assert qa[1] == bad;
  }

  lemma NormalizeGoodBad()
    ensures Normalize([GoodRecord, BadRecord]) == [GoodAnalysis]
  {
    var qa := [GoodRecord, BadRecord];
    GoodRecordValidates();
    BadRecordSkippedAndRaises();
    KeepSnoc(Validate, [], GoodRecord);
    assert [] + [GoodRecord] == [GoodRecord];
    KeepSnoc(Validate, [GoodRecord], BadRecord);
    assert [GoodRecord] + [BadRecord] == qa;
  }

  /** `Numbered` over two lists whose blocks agree position by position. */
  lemma {:induction false} NumberedAgree<A, B>(xs: seq<A>, ys: seq<B>, start: nat, f: (nat, A) -> string,
                                               g: (nat, B) -> string)
    requires |xs| == |ys| && forall k :: 0 <= k < |xs| ==> f(start + k, xs[k]) == g(start + k, ys[k])
    ensures Formatters.Numbered(xs, start, f) == Formatters.Numbered(ys, start, g)
    decreases |xs|
  {
    if xs != [] {
      assert f(start, xs[0]) == g(start, ys[0]);
      forall k | 0 <= k < |xs[1..]| ensures f(start + 1 + k, xs[1..][k]) == g(start + 1 + k, ys[1..][k]) {
        assert f(start + (k + 1), xs[k + 1]) == g(start + (k + 1), ys[k + 1]);
      }
      NumberedAgree(xs[1..], ys[1..], start + 1, f, g);
    }
  }

  /** For a record that validates, the raw section of each source is the validated one. */
  lemma RawSectionAgrees(n: nat, rec: Json, source: Json)
    requires Validate(rec).Some? && ValidateSource(source).Some?
    ensures RawSection(n, RawPair(rec, source)) == PairSection(n, Pair(Validate(rec).value, ValidateSource(source).value))
  {
    ValidateSpec(rec);
    ValidateSourceSpec(source);
  }

  /** The sources of a record that validates are the dicts of its `data` list. */
  lemma ValidSources(rec: Json) returns (items: seq<Json>)
    requires Validate(rec).Some?
    ensures rec.JObj? && RawSources(Get(rec.fields, "data")) == Some(items)
    ensures |items| == |Validate(rec).value.data|
    ensures forall k :: 0 <= k < |items| ==> ValidateSource(items[k]) == Some(Validate(rec).value.data[k])
  {
    ValidateSpec(rec);
    items := Get(rec.fields, "data").value.items;
    ValidateSourcesSpec(items);
    forall k | 0 <= k < |items| ensures items[k].JObj? {
      ValidateSourceSpec(items[k]);
    }
  }

  /** A record that validates is formatted the same raw and validated. */
  lemma RawPairsOfAgrees(rec: Json, start: nat)
    requires Validate(rec).Some?
    ensures RawPairsOf(rec).Some? && |RawPairsOf(rec).value| == |PairsOf(Validate(rec).value)|
    ensures Formatters.Numbered(RawPairsOf(rec).value, start, RawSection)
            == Formatters.Numbered(PairsOf(Validate(rec).value), start, PairSection)
  {
    var a := Validate(rec).value;
    var items := ValidSources(rec);
    var raw := RawPairsOf(rec).value;
    var ps := PairsOf(a);
    assert |raw| == |items| == |ps|;
    forall k | 0 <= k < |raw| ensures RawSection(start + k, raw[k]) == PairSection(start + k, ps[k]) {
      assert raw[k] == RawPair(rec, items[k]);
      assert ps[k] == Pair(a, a.data[k]);
      RawSectionAgrees(start + k, rec, items[k]);
    }
    NumberedAgree(raw, ps, start, RawSection, PairSection);
  }

  lemma PairsSnocAnalysis(analyses: seq<Analysis>, a: Analysis)
    ensures Pairs(analyses + [a]) == Pairs(analyses) + PairsOf(a)
  {
    assert (analyses + [a])[..|analyses|] == analyses;
  }

  /** When every record validates, the node as written formats exactly the validated analyses. */
  lemma {:induction false} RawPairsAgree(qa: seq<Json>)
    requires forall k :: 0 <= k < |qa| ==> Validate(qa[k]).Some?
    ensures RawPairs(qa).Some? && |RawPairs(qa).value| == |Pairs(Normalize(qa))|
    ensures Formatters.Numbered(RawPairs(qa).value, 1, RawSection) == Evidence(Normalize(qa))
  {
    if qa != [] {
      var init := qa[..|qa| - 1];
      var rec := qa[|qa| - 1];
      assert forall k :: 0 <= k < |init| ==> init[k] == qa[k];
      RawPairsAgree(init);
      var rawInit := RawPairs(init).value;
      RawPairsOfAgrees(rec, 1 + |rawInit|);
      var rawLast := RawPairsOf(rec).value;
      assert RawPairs(qa) == Some(rawInit + rawLast);
      ValidSnocPairs(qa);
      var pInit := Pairs(Normalize(init));
      var pLast := PairsOf(Validate(rec).value);
      assert |rawInit + rawLast| == |pInit| + |pLast| == |pInit + pLast|;
      NumberedConcatAgree(rawInit, rawLast, Pairs(Normalize(init)), PairsOf(Validate(rec).value), RawSection, PairSection);
    }
  }

  lemma ValidSnocPairs(qa: seq<Json>)
    requires qa != [] && Validate(qa[|qa| - 1]).Some?
    ensures Pairs(Normalize(qa)) == Pairs(Normalize(qa[..|qa| - 1])) + PairsOf(Validate(qa[|qa| - 1]).value)
  {
    var init := qa[..|qa| - 1];
    var rec := qa[|qa| - 1];
    assert qa == init + [rec];
    var a := Validate(rec).value;
    KeepSnoc(Validate, init, rec);
    assert Normalize(init + [rec]) == Normalize(init) + [a];
    PairsSnocAnalysis(Normalize(init), a);
  }

  lemma NumberedConcatAgree<A, B>(xs: seq<A>, xs': seq<A>, ys: seq<B>, ys': seq<B>, f: (nat, A) -> string,
                                  g: (nat, B) -> string)
    requires |xs| == |ys| && Formatters.Numbered(xs, 1, f) == Formatters.Numbered(ys, 1, g)
    requires Formatters.Numbered(xs', 1 + |xs|, f) == Formatters.Numbered(ys', 1 + |xs|, g)
    ensures Formatters.Numbered(xs + xs', 1, f) == Formatters.Numbered(ys + ys', 1, g)
  {
    Formatters.NumberedConcat(xs, xs', 1, f);
    Formatters.NumberedConcat(ys, ys', 1, g);
  }

  lemma RawEvidenceAgrees(qa: seq<Json>)
    requires forall k :: 0 <= k < |qa| ==> Validate(qa[k]).Some?
    ensures RawEvidence(qa) == Some(Evidence(Normalize(qa)))
  {
    RawPairsAgree(qa);
  }

  /** The corrected node answers as the node as written does wherever the latter does not raise on a
      record that validation keeps. */
  lemma RawGenerateAnswerAgrees(env: Env, s: GraphState)
    requires forall k :: 0 <= k < |s.qaResults| ==> Validate(s.qaResults[k]).Some?
    ensures RawGenerateAnswer(env, s) == Some(GenerateAnswer(env, s))
  {
    RawEvidenceAgrees(s.qaResults);
  }

  // ---------------------------------------------------------------------------------------------
  // The graph (lines 75-91) and `run` (lines 284-298)

  /** `initial_state` (lines 286-289). */
  function InitialState(query: string): GraphState {
    GraphState(query, [], [], "", 0, "")
  }

  /** One pass through `generate_queries` and `search_and_analyze_per_query`. */
  function Round(env: Env, s: GraphState): (r: GraphState)
    ensures r.rephrasingCount == s.rephrasingCount + 1
    ensures r.originalQuery == s.originalQuery && r.finalAnswer == s.finalAnswer
    ensures StartsWithSeq(r.qaResults, s.qaResults)
  {
    var queried := GenerateQueries(env, s);
    SearchAndAnalyzeSpec(env, queried);
    SearchAndAnalyze(env, queried)
  }

  /** `a` begins with `b`. */
  predicate StartsWithSeq<T(==)>(a: seq<T>, b: seq<T>) {
    |b| <= |a| && a[..|b|] == b
  }

  /** How many more rounds the budget allows. */
  function Measure(env: Env, s: GraphState): nat {
    if s.rephrasingCount < env.maxRetries then env.maxRetries - s.rephrasingCount else 0
  }

  /** `graph.invoke` from the state `s` at the entry point: rounds until the router answers CONTINUE,
      then the final node, or END. */
  function Loop(env: Env, s: GraphState): GraphState
    decreases Measure(env, s)
  {
    var next := Round(env, s);
    match Decide(env, next)
    case Continue => next.(finalAnswer := GenerateAnswer(env, next))
    case End => next
    case Retry => Loop(env, next)
  }

  const FallbackLead := "К сожалению, "
  const FallbackAnswer := FallbackLead + "не удалось найти релевантную информацию или сгенерировать ответ после нескольких попыток."

  /** What `run` returns: the final state, with the apology when the answer is missing or blank. */
  function RunResult(env: Env, query: string): GraphState {
    var final := Loop(env, InitialState(query));
    if Strip(final.finalAnswer) == "" then final.(finalAnswer := FallbackAnswer) else final
  }

  function Max(a: int, b: int): int {
    if a >= b then a else b
  }

  /** The run stops with an answer from the final node when some validated record is meaningful, or
      without one when the budget is used up. */
  lemma {:induction false} LoopOutcome(env: Env, s: GraphState)
    ensures var f := Loop(env, s);
      (Decide(env, f) == Continue && f.finalAnswer == GenerateAnswer(env, f))
      || (Decide(env, f) == End && f.finalAnswer == s.finalAnswer)
    decreases Measure(env, s)
  {
    var next := Round(env, s);
    var route := Decide(env, next);
    if route == Continue {
      AnswerKeepsRoute(env, next, GenerateAnswer(env, next));
    } else if route == Retry {
      LoopOutcome(env, next);
    }
  }

  /** Records only accumulate, the query is kept, and the rounds are between one more than before and
      the larger of the budget and that. */
  lemma {:induction false} LoopBounds(env: Env, s: GraphState)
    ensures var f := Loop(env, s);
      s.rephrasingCount + 1 <= f.rephrasingCount <= Max(env.maxRetries, s.rephrasingCount + 1)
      && f.originalQuery == s.originalQuery && StartsWithSeq(f.qaResults, s.qaResults)
    decreases Measure(env, s)
  {
    var next := Round(env, s);
    if Decide(env, next) == Retry {
      LoopBounds(env, next);
      StartsWithSeqTrans(Loop(env, next).qaResults, next.qaResults, s.qaResults);
    }
  }

  /** The router and the final node look at neither `final_answer` nor `feedback`. */
  lemma AnswerKeepsRoute(env: Env, s: GraphState, answer: string)
    ensures Decide(env, s.(finalAnswer := answer)) == Decide(env, s)
    ensures GenerateAnswer(env, s.(finalAnswer := answer)) == GenerateAnswer(env, s)
  {
  }

  lemma StartsWithSeqTrans<T>(a: seq<T>, b: seq<T>, c: seq<T>)
    requires StartsWithSeq(a, b) && StartsWithSeq(b, c)
    ensures StartsWithSeq(a, c)
  {
    assert a[..|c|] == a[..|b|][..|c|];
  }

  /** The answer of a run is never blank, and the run keeps the query and stays within the budget of
      `max(max_retries, 1)` rounds. */
  lemma RunSpec(env: Env, query: string)
    ensures var r := RunResult(env, query);
      Strip(r.finalAnswer) != "" && r.originalQuery == query
      && 1 <= r.rephrasingCount <= Max(env.maxRetries, 1)
  {
    LoopBounds(env, InitialState(query));
    var fallback := FallbackAnswer;
    assert fallback[0] == FallbackLead[0] == 'К';
    StripBlank(fallback);
  }

  /** Every provider answers every search with nothing. */
  ghost predicate NothingFound(env: Env) {
    forall k, q, n :: 0 <= k < |env.searcher.searchers| ==> env.searcher.searchers[k](q, n).items == []
  }

  lemma {:induction false} AllItemsEmpty(outcomes: seq<CW.Outcome>)
    requires forall k :: 0 <= k < |outcomes| ==> outcomes[k].items == []
    ensures CW.AllItems(outcomes) == []
  {
    if outcomes != [] {
      AllItemsEmpty(outcomes[..|outcomes| - 1]);
    }
  }

  lemma {:induction false} CollectEmpty(records: string -> seq<Json>, queries: seq<string>)
    requires forall q :: records(q) == []
    ensures Collect(records, queries) == []
  {
    if queries != [] {
      CollectEmpty(records, queries[..|queries| - 1]);
    }
  }

  /** With nothing found no record is ever added. */
  lemma NothingFoundRound(env: Env, s: GraphState)
    requires NothingFound(env)
    ensures Round(env, s).qaResults == s.qaResults
  {
    var f := QueryRecordsOf(env, s.originalQuery);
    forall q ensures f(q) == [] {
      var outcomes := CW.Outcomes(env.searcher.searchers, q, env.defaultLimit);
      AllItemsEmpty(outcomes);
    }
    CollectEmpty(f, GenerateQueries(env, s).searchQueries);
  }

  lemma {:induction false} NothingFoundLoop(env: Env, s: GraphState)
    requires NothingFound(env) && s.qaResults == []
    ensures var f := Loop(env, s);
      f.qaResults == [] && f.finalAnswer == s.finalAnswer
      && f.rephrasingCount == Max(env.maxRetries, s.rephrasingCount + 1)
    decreases Measure(env, s)
  {
    var next := Round(env, s);
    NothingFoundRound(env, s);
    assert Normalize([]) == [];
    if Decide(env, next) == Retry {
      NothingFoundLoop(env, next);
    }
  }

  /** When no provider ever finds anything, the run uses the whole budget, collects no record and
      answers with the apology. */
  lemma NothingFoundRun(env: Env, query: string)
    requires NothingFound(env)
    ensures var r := RunResult(env, query);
      r.qaResults == [] && r.rephrasingCount == Max(env.maxRetries, 1) && r.finalAnswer == FallbackAnswer
  {
    var final := Loop(env, InitialState(query));
    assert final.qaResults == [] && final.finalAnswer == "" && final.rephrasingCount == Max(env.maxRetries, 1) by {
      NothingFoundLoop(env, InitialState(query));
    }
    BlankAnswerReplaced(env, query);
  }

  /** A loop that ends without an answer gets the fallback answer. */
  lemma BlankAnswerReplaced(env: Env, query: string)
    requires Loop(env, InitialState(query)).finalAnswer == ""
    ensures RunResult(env, query) == Loop(env, InitialState(query)).(finalAnswer := FallbackAnswer)
  {
    assert Strip("") == "";
  }

  /** `run` (lines 284-298) with the graph driven explicitly; printing and the JSON log are left out. */
  method Run(env: Env, query: string) returns (finalState: GraphState)
    ensures finalState == RunResult(env, query)
  {
    var state := InitialState(query);
    ghost var target := Loop(env, state);
    var route := Retry;
    while route == Retry
      invariant route == Retry ==> Loop(env, state) == target
      invariant route != Retry ==> state == target
      decreases if route == Retry then Measure(env, state) + 1 else 0
    {
      ghost var before := state;
      state := GenerateQueries(env, state);
      state := SearchAndAnalyzeNode(env, state);
      assert state == Round(env, before);
      route := DecideNextStep(env, state);
      if route == Continue {
        state := GenerateFinalAnswerNode(env, state);
      }
    }
    finalState := state;
    if Strip(finalState.finalAnswer) == "" {
      finalState := finalState.(finalAnswer := FallbackAnswer);
    }
  }
}
