/** The context budget manager (llm/llm_processor.py): token estimation, token-level chunking and the
    map-reduce preparation of a long text before the final synthesis call. The tokenizer is a pair of
    oracles `encode`/`decode`, the final prompt template is a function of the query and the text. */
module LlmProcessor {
  import opened Text
  import opened Llm

  type Token = nat

  /** `tiktoken`'s `encode` and `decode`; nothing is assumed about them. */
  datatype Tokenizer = Tokenizer(encode: string -> seq<Token>, decode: seq<Token> -> string)

  /** `range(0, n, step)` raises for a zero step, so the chunk size is positive. */
  type ChunkSize = n: int | n > 0 witness 4000

  /** An `LLMProcessor`: its tokenizer, `max_tokens_per_chunk` and `model_context_window`. */
  datatype Processor = Processor(tokenizer: Tokenizer, maxTokensPerChunk: ChunkSize, modelContextWindow: int)

  const DefaultChunkSize: ChunkSize := 4000
  const DefaultContextWindow: int := 16000
  const DefaultMaxTokensForFinalAnswer: int := 4096

  /** The separator of the reduce step (line 100). */
  const SummarySeparator: string := "\n\n---\n\n"

  /** Temperature and output budget of a map-step call (line 94). */
  const ChunkTemperature: real := 0.0
  const ChunkMaxTokens: int := 1024

  /** `CHUNK_PROCESSOR_PROMPT.format(query=query, chunk=chunk)` (lines 10-20). */
  function ChunkPrompt(query: string, chunk: string): string {
    ChunkPromptIntro + query + ChunkPromptMiddle + chunk + ChunkPromptEnd
  }

  /** The fixed parts of `CHUNK_PROCESSOR_PROMPT` around its two fields. */
  const ChunkPromptIntro: string :=
    "\nИз предоставленного ниже текста извлеки и кратко перечисли только ту информацию, которая напрямую относится к запросу пользователя.\n"
    + "Сохраняй ключевые факты, цифры и выводы. Если в тексте нет релевантной информации, верни пустой ответ.\n"
    + "\nЗапрос пользователя: \""
  const ChunkPromptMiddle: string := "\"\n\nТекст для анализа:\n---\n"
  const ChunkPromptEnd: string := "\n---\n"

  /** The map-step model call for one chunk. */
  function ChunkRequest(query: string, chunk: string): Request {
    Request(ChunkPrompt(query, chunk), ChunkTemperature, ChunkMaxTokens, false)
  }

  /** The final synthesis call, on both paths (lines 75-78 and 114-117). */
  function FinalRequest(prompt: string, maxTokensForFinalAnswer: int): Request {
    Request(prompt, DefaultTemperature, maxTokensForFinalAnswer, false)
  }

  /** `_estimate_tokens` (lines 40-42). */
  function EstimateTokens(p: Processor, text: string): nat {
    |p.tokenizer.encode(text)|
  }

  /** The comparison at line 72: prompt and text fit the window less the reserved output, strictly. */
  predicate Fits(p: Processor, template: (string, string) -> string, query: string, text: string,
                 maxTokensForFinalAnswer: int) {
    EstimateTokens(p, text) + EstimateTokens(p, template(query, ""))
      < p.modelContextWindow - maxTokensForFinalAnswer
  }

  function Min(a: int, b: int): int {
    if a <= b then a else b
  }

  /** The slices `tokens[i:i + size]` for `i` in `range(start, len(tokens), size)`. */
  function SlicesFrom(tokens: seq<Token>, start: nat, size: ChunkSize): seq<seq<Token>>
    decreases |tokens| - start
  {
    if start >= |tokens| then []
    else [tokens[start..Min(start + size, |tokens|)]] + SlicesFrom(tokens, start + size, size)
  }

  /** The token slices of `_create_chunks` (lines 46-50). */
  function TokenChunks(tokens: seq<Token>, size: ChunkSize): seq<seq<Token>> {
    SlicesFrom(tokens, 0, size)
  }

  function Flatten(chunks: seq<seq<Token>>): seq<Token> {
    if chunks == [] then [] else chunks[0] + Flatten(chunks[1..])
  }

  /** The slices from `start` on put back together give the tokens from `start` on. */
  lemma {:induction false} SlicesFlatten(tokens: seq<Token>, start: nat, size: ChunkSize)
    requires start <= |tokens|
    ensures Flatten(SlicesFrom(tokens, start, size)) == tokens[start..]
    decreases |tokens| - start
  {
    if start < |tokens| {
      var end := Min(start + size, |tokens|);
      var rest := SlicesFrom(tokens, start + size, size);
      assert SlicesFrom(tokens, start, size)[1..] == rest;
      if start + size <= |tokens| {
        SlicesFlatten(tokens, start + size, size);
      } else {
        assert rest == [];
      }
      assert tokens[start..] == tokens[start..end] + tokens[end..];
    }
  }

  /** Each slice from `start` on is non-empty and at most `size` long, and only the last may be shorter. */
  lemma {:induction false} SlicesSizes(tokens: seq<Token>, start: nat, size: ChunkSize)
    ensures var cs := SlicesFrom(tokens, start, size);
      (forall k :: 0 <= k < |cs| ==> 0 < |cs[k]| <= size)
      && (forall k :: 0 <= k < |cs| - 1 ==> |cs[k]| == size)
    decreases |tokens| - start
  {
    if start < |tokens| {
      SlicesSizes(tokens, start + size, size);
      var cs := SlicesFrom(tokens, start, size);
      assert cs[1..] == SlicesFrom(tokens, start + size, size);
      if start + size < |tokens| {
        assert SlicesFrom(tokens, start + size, size) != [];
      }
    }
  }

  lemma DivStep(x: int, size: ChunkSize)
    requires x >= 0
    ensures (x + size) / size == x / size + 1
  {
    var q, r := x / size, x % size;
    assert x == q * size + r;
    assert x + size == (q + 1) * size + r;
    DivUnique(x + size, size, q + 1, r);
  }

  lemma DivUnique(a: int, d: int, q: int, r: int)
    requires d > 0 && a == q * d + r && 0 <= r < d
    ensures a / d == q
  {
    var q', r' := a / d, a % d;
    assert a == q' * d + r';
    assert (q' - q) * d == r - r';
    MulAtLeast(q' - q, d);
    MulAtLeast(q - q', d);
  }

  lemma MulAtLeast(k: int, d: int)
    requires d > 0
    ensures k >= 1 ==> k * d >= d
  {
    if k >= 1 {
      assert k * d == d + (k - 1) * d;
    }
  }

  /** `len(range(start, n, size))` slices. */
  lemma {:induction false} SlicesCount(tokens: seq<Token>, start: nat, size: ChunkSize)
    requires start <= |tokens|
    ensures |SlicesFrom(tokens, start, size)| == (|tokens| - start + size - 1) / size
    decreases |tokens| - start
  {
    var n := |tokens| - start;
    if start < |tokens| {
      if start + size <= |tokens| {
        SlicesCount(tokens, start + size, size);
        DivStep(n - 1, size);
        assert n - 1 + size == n + size - 1;
      } else {
        assert SlicesFrom(tokens, start + size, size) == [];
        assert size <= n + size - 1 < 2 * size;
      }
    }
  }

  /** The chunks of the tokens: put back together they are the tokens, there are `ceil(n / size)` of
      them (none for no tokens), each is non-empty and at most `size` long, and all but the last have
      exactly `size` tokens. */
  lemma TokenChunksSpec(tokens: seq<Token>, size: ChunkSize)
    ensures var cs := TokenChunks(tokens, size);
      Flatten(cs) == tokens
      && |cs| == (|tokens| + size - 1) / size
      && (forall k :: 0 <= k < |cs| ==> 0 < |cs[k]| <= size)
      && (forall k :: 0 <= k < |cs| - 1 ==> |cs[k]| == size)
  {
    SlicesFlatten(tokens, 0, size);
    SlicesCount(tokens, 0, size);
    SlicesSizes(tokens, 0, size);
  }

  /** Each token slice decoded, in order. */
  function DecodeAll(tok: Tokenizer, cs: seq<seq<Token>>): (r: seq<string>)
    ensures |r| == |cs|
  {
    if cs == [] then [] else [tok.decode(cs[0])] + DecodeAll(tok, cs[1..])
  }

  /** The `k`-th decoded chunk is the decoding of the `k`-th slice. */
  lemma {:induction false} DecodeAllAt(tok: Tokenizer, cs: seq<seq<Token>>, k: nat)
    requires k < |cs|
    ensures DecodeAll(tok, cs)[k] == tok.decode(cs[k])
  {
    if k > 0 {
      DecodeAllAt(tok, cs[1..], k - 1);
    }
  }

  /** The decoded chunks of a text. */
  function ChunkTexts(p: Processor, text: string): seq<string> {
    DecodeAll(p.tokenizer, TokenChunks(p.tokenizer.encode(text), p.maxTokensPerChunk))
  }

  /** Decoding the slice at `i` moves it from the slices still to decode to the chunks decoded. */
  lemma ChunkStep(tok: Tokenizer, tokens: seq<Token>, i: nat, size: ChunkSize, chunks: seq<string>)
    requires i < |tokens|
    ensures chunks + DecodeAll(tok, SlicesFrom(tokens, i, size))
            == (chunks + [tok.decode(tokens[i..Min(i + size, |tokens|)])]) + DecodeAll(tok, SlicesFrom(tokens, i + size, size))
  {
    var chunk := tokens[i..Min(i + size, |tokens|)];
    var rest := SlicesFrom(tokens, i + size, size);
    assert SlicesFrom(tokens, i, size) == [chunk] + rest;
    var decoded := DecodeAll(tok, rest);
    assert ([chunk] + rest)[1..] == rest;
    assert DecodeAll(tok, [chunk] + rest) == [tok.decode(chunk)] + decoded;
    assert chunks + ([tok.decode(chunk)] + decoded) == (chunks + [tok.decode(chunk)]) + decoded;
  }

  /** `_create_chunks` (lines 44-51). */
  method CreateChunks(p: Processor, text: string) returns (chunks: seq<string>)
    ensures chunks == ChunkTexts(p, text)
  {
    var tok := p.tokenizer;
    var tokens := tok.encode(text);
    var size := p.maxTokensPerChunk;
    ghost var target := DecodeAll(tok, TokenChunks(tokens, size));
    chunks := [];
    var i: nat := 0;
    assert chunks + DecodeAll(tok, SlicesFrom(tokens, 0, size)) == target;
    while i < |tokens|
      invariant chunks + DecodeAll(tok, SlicesFrom(tokens, i, size)) == target
      decreases |tokens| - i
    {
      var chunkTokens := tokens[i..Min(i + size, |tokens|)];
      ChunkStep(tok, tokens, i, size, chunks);
      chunks := chunks + [tok.decode(chunkTokens)];
      i := i + size;
    }
    assert SlicesFrom(tokens, i, size) == [];
    assert chunks + DecodeAll(tok, []) == chunks;
  }

  /** The requests of the map step: one per chunk, in chunk order. */
  function ChunkRequests(query: string, chunks: seq<string>): (r: seq<Request>)
    ensures |r| == |chunks| && forall k :: 0 <= k < |chunks| ==> r[k] == ChunkRequest(query, chunks[k])
  {
    seq(|chunks|, k requires 0 <= k < |chunks| => ChunkRequest(query, chunks[k]))
  }

  /** The model's summary of each chunk. */
  function Summaries(llm: Request -> Completion, query: string, chunks: seq<string>): (r: seq<string>)
    ensures |r| == |chunks| && forall k :: 0 <= k < |chunks| ==> r[k] == GetResponse(llm, ChunkRequest(query, chunks[k]))
  {
    seq(|chunks|, k requires 0 <= k < |chunks| => GetResponse(llm, ChunkRequest(query, chunks[k])))
  }

  /** The summaries that `if summary:` keeps (lines 95-96), in order. */
  function KeepNonEmpty(summaries: seq<string>): (r: seq<string>)
    ensures |r| <= |summaries|
    ensures forall k :: 0 <= k < |r| ==> r[k] != ""
  {
    if summaries == [] then []
    else
      var last := summaries[|summaries| - 1];
      KeepNonEmpty(summaries[..|summaries| - 1]) + (if last != "" then [last] else [])
  }

  /** Keeping works element by element: it distributes over concatenation. */
  lemma {:induction false} KeepConcat(a: seq<string>, b: seq<string>)
    ensures KeepNonEmpty(a + b) == KeepNonEmpty(a) + KeepNonEmpty(b)
    decreases |b|
  {
    if b == [] {
      assert a + b == a;
    } else {
      var init := b[..|b| - 1];
      assert (a + b)[..|a + b| - 1] == a + init;
      KeepConcat(a, init);
    }
  }

  /** A summary is kept exactly when it is non-empty: nothing non-empty is dropped and every kept one
      was produced. */
  lemma {:induction false} KeepMembership(summaries: seq<string>, s: string)
    ensures s in KeepNonEmpty(summaries) <==> s in summaries && s != ""
  {
    if summaries != [] {
      KeepMembership(summaries[..|summaries| - 1], s);
      assert summaries == summaries[..|summaries| - 1] + [summaries[|summaries| - 1]];
    }
  }

  /** All summaries non-empty: all are kept, in order. */
  lemma {:induction false} KeepAll(summaries: seq<string>)
    requires forall k :: 0 <= k < |summaries| ==> summaries[k] != ""
    ensures KeepNonEmpty(summaries) == summaries
  {
    if summaries != [] {
      KeepAll(summaries[..|summaries| - 1]);
      assert summaries == summaries[..|summaries| - 1] + [summaries[|summaries| - 1]];
    }
  }

  /** The text that the final prompt receives (lines 67-109): the original on the single-shot path, the
      joined non-empty chunk summaries otherwise, whether or not these still overflow. */
  function SynthesisText(p: Processor, llm: Request -> Completion, template: (string, string) -> string,
                         query: string, text: string, maxTokensForFinalAnswer: int): string {
    if Fits(p, template, query, text, maxTokensForFinalAnswer) then text
    else Join(KeepNonEmpty(Summaries(llm, query, ChunkTexts(p, text))), SummarySeparator)
  }

  /** Every model request `process_large_context` makes, in order; the last is the synthesis call. */
  function ContextRequests(p: Processor, llm: Request -> Completion, template: (string, string) -> string,
                           query: string, text: string, maxTokensForFinalAnswer: int): (r: seq<Request>)
    ensures |r| >= 1
  {
    var final := FinalRequest(template(query, SynthesisText(p, llm, template, query, text, maxTokensForFinalAnswer)),
                              maxTokensForFinalAnswer);
    if Fits(p, template, query, text, maxTokensForFinalAnswer) then [final]
    else ChunkRequests(query, ChunkTexts(p, text)) + [final]
  }

  /** What `process_large_context` returns: the answer to its last request. */
  function ContextAnswer(p: Processor, llm: Request -> Completion, template: (string, string) -> string,
                         query: string, text: string, maxTokensForFinalAnswer: int): string {
    var requests := ContextRequests(p, llm, template, query, text, maxTokensForFinalAnswer);
    GetResponse(llm, requests[|requests| - 1])
  }

  /** On the single-shot path the only call is the synthesis call on the original text. On the
      map-reduce path there is exactly one summarisation call per chunk, in chunk order, before the
      synthesis call on the kept summaries joined by the separator. The synthesis call is always the
      last, always asks for `maxTokensForFinalAnswer` tokens and never for JSON. */
  lemma ContextRequestsSpec(p: Processor, llm: Request -> Completion, template: (string, string) -> string,
                            query: string, text: string, maxTokensForFinalAnswer: int)
    ensures var r := ContextRequests(p, llm, template, query, text, maxTokensForFinalAnswer);
      var last := r[|r| - 1];
      last.maxTokens == maxTokensForFinalAnswer && !last.jsonObject
      && (Fits(p, template, query, text, maxTokensForFinalAnswer) ==>
            r == [FinalRequest(template(query, text), maxTokensForFinalAnswer)])
      && (!Fits(p, template, query, text, maxTokensForFinalAnswer) ==>
            var chunks := ChunkTexts(p, text);
            |r| == |chunks| + 1
            && (forall k :: 0 <= k < |chunks| ==> r[k] == ChunkRequest(query, chunks[k]) && r[k].maxTokens == ChunkMaxTokens)
            && last.prompt == template(query, Join(KeepNonEmpty(Summaries(llm, query, chunks)), SummarySeparator)))
  {
  }

  /** The chunk a map-step call is about appears verbatim in its prompt. */
  lemma ChunkPromptHoldsChunk(query: string, chunk: string)
    ensures Contains(ChunkPrompt(query, chunk), chunk)
  {
    var prompt := ChunkPrompt(query, chunk);
    var head := ChunkPromptIntro + query + ChunkPromptMiddle;
    assert prompt == head + chunk + "\n---\n";
    assert prompt[|head|..|head| + |chunk|] == chunk;
    ContainsAt(prompt, chunk, |head|);
  }

  /** One more chunk adds its request, and its summary when that is non-empty. */
  lemma MapStep(llm: Request -> Completion, query: string, chunks: seq<string>, i: nat)
    requires i < |chunks|
    ensures ChunkRequests(query, chunks[..i + 1]) == ChunkRequests(query, chunks[..i]) + [ChunkRequest(query, chunks[i])]
    ensures var summary := GetResponse(llm, ChunkRequest(query, chunks[i]));
      KeepNonEmpty(Summaries(llm, query, chunks[..i + 1]))
      == KeepNonEmpty(Summaries(llm, query, chunks[..i])) + (if summary != "" then [summary] else [])
  {
    var summary := GetResponse(llm, ChunkRequest(query, chunks[i]));
    var before := Summaries(llm, query, chunks[..i]);
    var after := Summaries(llm, query, chunks[..i + 1]);
    assert after == before + [summary];
    assert after[..|after| - 1] == before;
  }

  /** `process_large_context` (lines 53-117); `requests` are the calls it makes to the model, in order. */
  method ProcessLargeContext(p: Processor, llm: Request -> Completion, template: (string, string) -> string,
                             query: string, searchResults: string, maxTokensForFinalAnswer: int)
    returns (answer: string, requests: seq<Request>)
    ensures requests == ContextRequests(p, llm, template, query, searchResults, maxTokensForFinalAnswer)
    ensures answer == ContextAnswer(p, llm, template, query, searchResults, maxTokensForFinalAnswer)
  {
    var searchResultsTokens := EstimateTokens(p, searchResults);
    var promptTemplateTokens := EstimateTokens(p, template(query, ""));
    if searchResultsTokens + promptTemplateTokens < p.modelContextWindow - maxTokensForFinalAnswer {
      var finalPrompt := template(query, searchResults);
      requests := [FinalRequest(finalPrompt, maxTokensForFinalAnswer)];
      answer := GetResponse(llm, requests[0]);
      return;
    }
    var chunks := CreateChunks(p, searchResults);
    var relevantInfoList: seq<string> := [];
    requests := [];
    for i := 0 to |chunks|
      invariant requests == ChunkRequests(query, chunks[..i])
      invariant relevantInfoList == KeepNonEmpty(Summaries(llm, query, chunks[..i]))
    {
      var req := ChunkRequest(query, chunks[i]);
      var summary := GetResponse(llm, req);
      MapStep(llm, query, chunks, i);
      requests := requests + [req];
      if summary != "" {
        relevantInfoList := relevantInfoList + [summary];
      }
    }
    assert chunks[..|chunks|] == chunks;
    var combinedSummaries := Join(relevantInfoList, SummarySeparator);
    var finalSearchResults: string;
    if EstimateTokens(p, combinedSummaries) + promptTemplateTokens >= p.modelContextWindow - maxTokensForFinalAnswer {
      finalSearchResults := combinedSummaries;
    } else {
      finalSearchResults := combinedSummaries;
    }
    var finalPrompt := template(query, finalSearchResults);
    requests := requests + [FinalRequest(finalPrompt, maxTokensForFinalAnswer)];
    answer := GetResponse(llm, requests[|requests| - 1]);
  }
}
