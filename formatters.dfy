/** The result formatter of utils/formatters.py, and the numbered-block scheme that it shares with the
    formatters of main_rag_script.py and arhive/main_script.py. */
module Formatters {
  import opened Text

  /** A search or scraper result, a dict of string fields. */
  type Doc = map<string, string>

  /** `item.get(key, default)`. */
  function FieldOr(item: Doc, key: string, default: string): (r: string)
    ensures key in item ==> r == item[key]
    ensures key !in item ==> r == default
  {
    if key in item then item[key] else default
  }

  /** Concatenation of a list of texts. */
  function Concat(parts: seq<string>): string {
    if parts == [] then "" else parts[0] + Concat(parts[1..])
  }

  /** The text grown by `formatted_string +=` over `enumerate(items, start)`: one block per item, the
      item at position `k` numbered `start + k`. */
  function Numbered<T>(items: seq<T>, start: nat, block: (nat, T) -> string): string
    decreases |items|
  {
    if items == [] then "" else block(start, items[0]) + Numbered(items[1..], start + 1, block)
  }

  /** The blocks, item by item. */
  function BlockList<T>(items: seq<T>, start: nat, block: (nat, T) -> string): (r: seq<string>)
    ensures |r| == |items| && forall k :: 0 <= k < |items| ==> r[k] == block(start + k, items[k])
  {
    seq(|items|, k requires 0 <= k < |items| => block(start + k, items[k]))
  }

  /** The recursive numbering is the concatenation of the blocks numbered by position. */
  lemma {:induction false} NumberedIsConcat<T>(items: seq<T>, start: nat, block: (nat, T) -> string)
    ensures Numbered(items, start, block) == Concat(BlockList(items, start, block))
    decreases |items|
  {
    if items != [] {
      NumberedIsConcat(items[1..], start + 1, block);
      assert BlockList(items, start, block)[1..] == BlockList(items[1..], start + 1, block);
    }
  }

  /** Appending items appends their blocks, numbered on from where the earlier ones stopped. */
  lemma {:induction false} NumberedConcat<T>(a: seq<T>, b: seq<T>, start: nat, block: (nat, T) -> string)
    ensures Numbered(a + b, start, block) == Numbered(a, start, block) + Numbered(b, start + |a|, block)
    decreases |a|
  {
    if a == [] {
      assert a + b == b;
    } else {
      assert (a + b)[1..] == a[1..] + b;
      NumberedConcat(a[1..], b, start + 1, block);
    }
  }

  lemma NumberedSnoc<T>(items: seq<T>, item: T, start: nat, block: (nat, T) -> string)
    ensures Numbered(items + [item], start, block) == Numbered(items, start, block) + block(start + |items|, item)
  {
    NumberedConcat(items, [item], start, block);
    assert Numbered([item], start + |items|, block) == block(start + |items|, item) + Numbered([], start + |items| + 1, block);
  }

  /** One more item of a prefix adds its block. */
  lemma NumberedStep<T>(items: seq<T>, i: nat, start: nat, block: (nat, T) -> string)
    requires i < |items|
    ensures Numbered(items[..i + 1], start, block) == Numbered(items[..i], start, block) + block(start + i, items[i])
  {
    assert items[..i + 1] == items[..i] + [items[i]];
    NumberedSnoc(items[..i], items[i], start, block);
  }

  /** The number of characters kept of a long content (line 17). */
  const PreviewLimit: nat := 2500

  /** `content_preview` (line 17): the content, or its first 2500 characters and `...` when longer. */
  function Preview(content: string): (r: string)
    ensures |r| <= PreviewLimit + 3
    ensures |content| <= PreviewLimit ==> r == content
    ensures |content| > PreviewLimit ==> StartsWith(r, content[..PreviewLimit]) && EndsWith(r, "...")
  {
    if |content| > PreviewLimit then
      var r := content[..PreviewLimit] + "...";
      assert r[..PreviewLimit] == content[..PreviewLimit];
      assert r[|r| - 3..] == "...";
      r
    else content
  }

  const DefaultTitle := "Без заголовка"
  const DefaultUrl := "Ссылка отсутствует"
  const DefaultContent := "Содержимое отсутствует"

  const HeaderPrefix := "Источник #"
  const TitleLabel := "  Название: "
  const UrlLabel := "  Ссылка: "
  const ContentOpen := "  Содержимое:\n\"\"\"\n"
  const ContentClose := "\n\"\"\"\n\n"

  /** The first line of the block numbered `n`. */
  function Header(n: nat): (r: string)
    ensures |r| > 0 && r[0] == 'И'
  {
    HeaderPrefix + NatToString(n) + ":\n"
  }

  /** The title line of a block. */
  function TitleLine(title: string): string {
    TitleLabel + title + "\n"
  }

  /** The link line of a block. */
  function UrlLine(url: string): string {
    UrlLabel + url + "\n"
  }

  /** The quoted content that closes a block. */
  function ContentLines(preview: string): string {
    ContentOpen + preview + ContentClose
  }

  /** The lines of a block after its header. */
  function BlockBody(item: Doc): string {
    TitleLine(FieldOr(item, "title", DefaultTitle)) + UrlLine(FieldOr(item, "url", DefaultUrl))
    + ContentLines(Preview(FieldOr(item, "content", DefaultContent)))
  }

  /** The block of one item (lines 12-22). */
  function Block(n: nat, item: Doc): string {
    Header(n) + BlockBody(item)
  }

  /** Four appends to the text in a row append their concatenation. */
  lemma AppendFour(f: string, a: string, b: string, c: string, d: string)
    ensures f + a + b + c + d == f + (a + (b + c + d))
  {
    var bcd := b + c + d;
    assert (f + a) + b + c + d == (f + a) + bcd;
    assert (f + a) + bcd == f + (a + bcd);
  }

  /** One turn of the loop of `format_search_results` (lines 11-22): the four lines of the item at
      position `i` extend the blocks of the items before it by the block of that item. */
  lemma BlockStep(results: seq<Doc>, i: nat, f: string, title: string, url: string, preview: string)
    requires i < |results| && f == Numbered(results[..i], 1, Block)
    requires title == FieldOr(results[i], "title", DefaultTitle) && url == FieldOr(results[i], "url", DefaultUrl)
    requires preview == Preview(FieldOr(results[i], "content", DefaultContent))
    ensures f + Header(i + 1) + TitleLine(title) + UrlLine(url) + ContentLines(preview)
            == Numbered(results[..i + 1], 1, Block)
  {
    NumberedStep(results, i, 1, Block);
    AppendFour(f, Header(i + 1), TitleLine(title), UrlLine(url), ContentLines(preview));
  }

  /** Every block opens with its own number. */
  lemma BlockHeader(n: nat, item: Doc)
    ensures StartsWith(Block(n, item), Header(n))
  {
    var h := Header(n);
    assert (h + BlockBody(item))[..|h|] == h;
  }

  function NoResults(sourceName: string): string {
    "Поиск в " + sourceName + " не дал результатов."
  }

  /** What `format_search_results` returns (lines 3-24). */
  function Format(results: seq<Doc>, sourceName: string): string {
    if results == [] then NoResults(sourceName) else Numbered(results, 1, Block)
  }

  /** A non-empty list gives its blocks, the `k`-th numbered `k + 1`, in input order; the no-results
      message appears exactly for the empty list. */
  lemma FormatSpec(results: seq<Doc>, sourceName: string)
    ensures results == [] ==> Format(results, sourceName) == NoResults(sourceName)
    ensures results != [] ==>
      Format(results, sourceName) == Concat(BlockList(results, 1, Block))
      && forall k :: 0 <= k < |results| ==> StartsWith(BlockList(results, 1, Block)[k], Header(k + 1))
    ensures Format(results, sourceName) == NoResults(sourceName) <==> results == []
  {
    if results != [] {
      NumberedIsConcat(results, 1, Block);
      forall k | 0 <= k < |results|
        ensures StartsWith(BlockList(results, 1, Block)[k], Header(k + 1))
      {
        BlockHeader(1 + k, results[k]);
      }
      var f := Format(results, sourceName);
      assert f == Block(1, results[0]) + Numbered(results[1..], 2, Block);
      BlockHeader(1, results[0]);
      assert f[0] == 'И';
      assert NoResults(sourceName)[0] == 'П';
    }
  }

  /** `format_search_results` (lines 3-24). */
  method FormatSearchResults(results: seq<Doc>, sourceName: string) returns (formatted: string)
    ensures formatted == Format(results, sourceName)
  {
    if results == [] {
      return NoResults(sourceName);
    }
    formatted := "";
    for i := 0 to |results|
      invariant formatted == Numbered(results[..i], 1, Block)
    {
      var item := results[i];
      var title := FieldOr(item, "title", DefaultTitle);
      var url := FieldOr(item, "url", DefaultUrl);
      var content := FieldOr(item, "content", DefaultContent);
      var contentPreview := Preview(content);
      BlockStep(results, i, formatted, title, url, contentPreview);
      formatted := formatted + Header(i + 1);
      formatted := formatted + TitleLine(title);
      formatted := formatted + UrlLine(url);
      formatted := formatted + ContentLines(contentPreview);
    }
    assert results[..|results|] == results;
  }
}

/** The scraper result formatter of main_rag_script.py: the blocks of utils/formatters.py under its
    own no-results message. */
module MainRagScript {
  import opened Formatters

  /** Written in two pieces so that the verifier can look inside the literal. */
  const NoScraperResults: string := "Поиск во внутренней базе знаний" + " не дал результатов."

  /** What `format_scraper_results` returns (lines 46-65). */
  function FormatScraper(results: seq<Doc>): string {
    if results == [] then NoScraperResults else Numbered(results, 1, Block)
  }

  /** The same blocks as the shared formatter; only the empty case differs. */
  lemma FormatScraperSpec(results: seq<Doc>, sourceName: string)
    ensures results == [] ==> FormatScraper(results) == NoScraperResults
    ensures results != [] ==> FormatScraper(results) == Format(results, sourceName)
    ensures FormatScraper(results) == NoScraperResults <==> results == []
  {
    FormatSpec(results, sourceName);
    if results != [] {
      var f := FormatScraper(results);
      BlockHeader(1, results[0]);
      assert f == Block(1, results[0]) + Numbered(results[1..], 2, Block);
      assert f[0] == 'И';
      assert NoScraperResults[0] == 'П';
    }
  }

  /** `format_scraper_results` (lines 46-65). */
  method FormatScraperResults(results: seq<Doc>) returns (formatted: string)
    ensures formatted == FormatScraper(results)
  {
    if results == [] {
      return NoScraperResults;
    }
    formatted := "";
    for i := 0 to |results|
      invariant formatted == Numbered(results[..i], 1, Block)
    {
      var item := results[i];
      var title := FieldOr(item, "title", DefaultTitle);
      var url := FieldOr(item, "url", DefaultUrl);
      var content := FieldOr(item, "content", DefaultContent);
      var contentPreview := Preview(content);
      BlockStep(results, i, formatted, title, url, contentPreview);
      formatted := formatted + Header(i + 1);
      formatted := formatted + TitleLine(title);
      formatted := formatted + UrlLine(url);
      formatted := formatted + ContentLines(contentPreview);
    }
    assert results[..|results|] == results;
  }
}

/** The web search formatter of arhive/main_script.py, over a Serper-style response. */
module ArchiveMainScript {
  import opened Text
  import opened Formatters

  /** The response dict: whether it has an `"error"` key, and its `"organic"` list (empty when the key
      is missing or its value is falsy). */
  datatype SearchResponse = SearchResponse(hasError: bool, organic: seq<Doc>)

  const NoWebResults := "Поиск в интернете не дал результатов."
  const DefaultLink := "Ссылка отсутствует"
  const DefaultSnippet := "Описание отсутствует"

  /** The snippet with its line breaks turned into spaces (line 47). */
  function Snippet(item: Doc): (r: string)
    ensures '\n' !in r
    ensures |r| == |FieldOr(item, "snippet", DefaultSnippet)|
  {
    var s := FieldOr(item, "snippet", DefaultSnippet);
    var r := ReplaceChar(s, '\n', ' ');
    assert forall k :: 0 <= k < |r| ==> r[k] != '\n';
    r
  }

  const SnippetLabel := "  Фрагмент: "

  /** The snippet line that closes a block. */
  function SnippetLine(item: Doc): string {
    SnippetLabel + Snippet(item) + "\n\n"
  }

  /** The block of one organic result (lines 45-52). */
  function WebBlock(n: nat, item: Doc): string {
    Header(n) + (WebFields(item) + SnippetLine(item))
  }

  /** The title and link lines. */
  function WebFields(item: Doc): string {
    TitleLine(FieldOr(item, "title", DefaultTitle)) + UrlLine(FieldOr(item, "link", DefaultLink))
  }

  /** One turn of the loop (lines 44-52): the four lines of the organic result at position `i`
      extend the blocks of the results before it by the block of that result. */
  lemma WebBlockStep(organic: seq<Doc>, i: nat, f: string, title: string, link: string, snippet: string)
    requires i < |organic| && f == Numbered(organic[..i], 1, WebBlock)
    requires title == FieldOr(organic[i], "title", DefaultTitle) && link == FieldOr(organic[i], "link", DefaultLink)
    requires snippet == ReplaceChar(FieldOr(organic[i], "snippet", DefaultSnippet), '\n', ' ')
    ensures f + Header(i + 1) + TitleLine(title) + UrlLine(link) + (SnippetLabel + snippet + "\n\n")
            == Numbered(organic[..i + 1], 1, WebBlock)
  {
    NumberedStep(organic, i, 1, WebBlock);
    var h, t, u, l := Header(i + 1), TitleLine(title), UrlLine(link), SnippetLabel + snippet + "\n\n";
    assert l == SnippetLine(organic[i]);
    AppendFour(f, h, t, u, l);
  }

  /** What `format_search_results` returns (lines 38-54). */
  function FormatWeb(results: SearchResponse): string {
    if results.hasError || results.organic == [] then NoWebResults else Numbered(results.organic, 1, WebBlock)
  }

  /** The snippet line of a block holds the whole snippet on one line, and every block opens with its
      own number. */
  lemma WebBlockSpec(n: nat, item: Doc)
    ensures StartsWith(WebBlock(n, item), Header(n))
    ensures EndsWith(WebBlock(n, item), SnippetLine(item))
  {
    SeqEnds(Header(n), WebFields(item), SnippetLine(item));
  }

  lemma SeqEnds(a: string, b: string, c: string)
    ensures StartsWith(a + (b + c), a) && EndsWith(a + (b + c), c)
  {
    assert (a + (b + c))[..|a|] == a;
    assert (a + (b + c))[|a| + |b|..] == c;
  }

  /** An error or an empty organic list gives the fixed message; otherwise the blocks of the organic
      results, the `k`-th numbered `k + 1`. */
  lemma FormatWebSpec(results: SearchResponse)
    ensures results.hasError || results.organic == [] ==> FormatWeb(results) == NoWebResults
    ensures !results.hasError && results.organic != [] ==>
      FormatWeb(results) == Concat(BlockList(results.organic, 1, WebBlock))
      && forall k :: 0 <= k < |results.organic| ==>
           StartsWith(BlockList(results.organic, 1, WebBlock)[k], Header(k + 1))
    ensures FormatWeb(results) == NoWebResults <==> results.hasError || results.organic == []
  {
    if !results.hasError && results.organic != [] {
      var items := results.organic;
      NumberedIsConcat(items, 1, WebBlock);
      forall k | 0 <= k < |items|
        ensures StartsWith(BlockList(items, 1, WebBlock)[k], Header(k + 1))
      {
        WebBlockSpec(1 + k, items[k]);
      }
      var f := FormatWeb(results);
      WebBlockSpec(1, items[0]);
      assert f == WebBlock(1, items[0]) + Numbered(items[1..], 2, WebBlock);
      assert f[0] == 'И';
      assert NoWebResults[0] == 'П';
    }
  }

  /** `format_search_results` (lines 38-54). */
  method FormatSearchResults(results: SearchResponse) returns (formatted: string)
    ensures formatted == FormatWeb(results)
  {
    if results.hasError || results.organic == [] {
      return NoWebResults;
    }
    var organic := results.organic;
    formatted := "";
    for i := 0 to |organic|
      invariant formatted == Numbered(organic[..i], 1, WebBlock)
    {
      var item := organic[i];
      var title := FieldOr(item, "title", DefaultTitle);
      var link := FieldOr(item, "link", DefaultLink);
      var snippet := ReplaceChar(FieldOr(item, "snippet", DefaultSnippet), '\n', ' ');
      WebBlockStep(organic, i, formatted, title, link, snippet);
      formatted := formatted + Header(i + 1);
      formatted := formatted + TitleLine(title);
      formatted := formatted + UrlLine(link);
      formatted := formatted + (SnippetLabel + snippet + "\n\n");
    }
    assert organic[..|organic|] == organic;
  }
}
