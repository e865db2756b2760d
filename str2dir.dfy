/** Extraction of structured records from a language model's raw reply (utils/str2dir.py).
    `json.loads` is a parameter `parse` (None stands for `JSONDecodeError`) and the Unicode `\w` class
    is a parameter `isWord`. */
module Str2Dir {
  import opened Wrappers
  import opened Text
  import opened Json

  /** Python's `string.punctuation`. */
  predicate IsAsciiPunctuation(c: char) {
    ('!' <= c <= '/') || (':' <= c <= '@') || ('[' <= c <= '`') || ('{' <= c <= '~')
  }

  /** `[A-Za-z0-9_]` */
  predicate IsAsciiWordChar(c: char) {
    ('a' <= c <= 'z') || ('A' <= c <= 'Z') || ('0' <= c <= '9') || c == '_'
  }

  /** What `re`'s Unicode `\w` must be: exactly `[A-Za-z0-9_]` on ASCII; beyond ASCII the
      Unicode database decides, which the model leaves open. */
  ghost predicate IsWordClass(isWord: char -> bool) {
    forall c: char :: c < '\U{80}' ==> (isWord(c) <==> IsAsciiWordChar(c))
  }

  /** The characters that the pattern `[^\w \t<punctuation>]` does not match, and so keeps. */
  predicate Kept(isWord: char -> bool, c: char) {
    isWord(c) || c == ' ' || c == '\t' || IsAsciiPunctuation(c)
  }

  /** `clean_string_except_letters_digits_spaces_punctuation`: deletes every character that is not kept. */
  function CleanString(text: string, isWord: char -> bool): (r: string)
    ensures |r| <= |text|
    ensures forall i :: 0 <= i < |r| ==> Kept(isWord, r[i])
  {
    if text == [] then ""
    else (if Kept(isWord, text[0]) then [text[0]] else "") + CleanString(text[1..], isWord)
  }

  /** Cleaning works character by character: it distributes over concatenation. */
  lemma {:induction false} CleanConcat(a: string, b: string, isWord: char -> bool)
    ensures CleanString(a + b, isWord) == CleanString(a, isWord) + CleanString(b, isWord)
  {
    if a != [] {
      assert (a + b)[1..] == a[1..] + b;
      CleanConcat(a[1..], b, isWord);
    } else {
      assert a + b == b;
    }
  }

  /** A character survives cleaning exactly when it occurs in the input and is kept. */
  lemma {:induction false} CleanMembership(text: string, isWord: char -> bool, c: char)
    ensures c in CleanString(text, isWord) <==> c in text && Kept(isWord, c)
  {
    if text != [] {
      CleanMembership(text[1..], isWord, c);
      assert text == [text[0]] + text[1..];
    }
  }

  /** Text made only of kept characters is left as it is; in particular cleaning is idempotent. */
  lemma {:induction false} CleanKeepsClean(text: string, isWord: char -> bool)
    requires forall i :: 0 <= i < |text| ==> Kept(isWord, text[i])
    ensures CleanString(text, isWord) == text
  {
    if text != [] {
      CleanKeepsClean(text[1..], isWord);
      assert text == [text[0]] + text[1..];
    }
  }

  /** Raw newlines are never kept. */
  lemma CleanDropsNewlines(text: string, isWord: char -> bool)
    requires IsWordClass(isWord)
    ensures '\n' !in CleanString(text, isWord)
  {
    assert !isWord('\n');
  }

  /** Some `open` precedes some `close`. */
  predicate HasPair(s: string, open: char, close: char) {
    exists i, j :: 0 <= i < j < |s| && s[i] == open && s[j] == close
  }

  /** `t` runs from the first `open` of `s` to its last `close`. */
  ghost predicate IsOuterSpan(s: string, open: char, close: char, t: string) {
    exists a, b :: 0 <= a < b <= |s| && t == s[a..b] && s[a] == open && s[b - 1] == close
                   && open !in s[..a] && close !in s[b..]
  }

  /** The text from the first `open` to the last `close`, when the first precedes the last. */
  function SpanOf(s: string, open: char, close: char): Option<string> {
    var a := Find(s, open);
    var b := RFind(s, close);
    if a != -1 && b != -1 && b > a then Some(s[a..b + 1]) else None
  }

  /** Lines 56-74: the object span if the first `{` precedes the last `}`, else the array span if the
      first `[` precedes the last `]`, else nothing. */
  function SelectSpan(s: string): Option<string> {
    var obj := SpanOf(s, '{', '}');
    if obj.Some? then obj else SpanOf(s, '[', ']')
  }

  lemma PairIffOrdered(s: string, open: char, close: char)
    ensures HasPair(s, open, close) <==> Find(s, open) != -1 && RFind(s, close) != -1 && RFind(s, close) > Find(s, open)
  {
    if HasPair(s, open, close) {
      var i, j :| 0 <= i < j < |s| && s[i] == open && s[j] == close;
      FindFirst(s, open);
      RFindLast(s, close);
    }
  }

  lemma OuterSpanWitness(s: string, open: char, close: char)
    requires Find(s, open) != -1 && RFind(s, close) > Find(s, open)
    ensures IsOuterSpan(s, open, close, s[Find(s, open)..RFind(s, close) + 1])
  {
    var a, b := Find(s, open), RFind(s, close) + 1;
    FindFirst(s, open);
    RFindLast(s, close);
    assert s[b - 1] == close && close !in s[b..];
  }

  /** A span exists exactly when some `open` precedes some `close`, and it is the outer one. */
  lemma SpanOfSpec(s: string, open: char, close: char)
    ensures HasPair(s, open, close) <==> SpanOf(s, open, close).Some?
    ensures HasPair(s, open, close) ==> IsOuterSpan(s, open, close, SpanOf(s, open, close).value)
  {
    PairIffOrdered(s, open, close);
    if HasPair(s, open, close) {
      OuterSpanWitness(s, open, close);
    }
  }

  /** The object span has priority; the array span is used only when there is no object span. */
  lemma SelectSpanSpec(s: string)
    ensures HasPair(s, '{', '}') ==> SelectSpan(s).Some? && IsOuterSpan(s, '{', '}', SelectSpan(s).value)
    ensures !HasPair(s, '{', '}') && HasPair(s, '[', ']') ==>
              SelectSpan(s).Some? && IsOuterSpan(s, '[', ']', SelectSpan(s).value)
    ensures !HasPair(s, '{', '}') && !HasPair(s, '[', ']') ==> SelectSpan(s) == None
  {
    SpanOfSpec(s, '{', '}');
    SpanOfSpec(s, '[', ']');
  }

  /** `isinstance(value, list) and all(isinstance(item, str) for item in value)`, true of `[]`. */
  predicate IsStringList(v: Json) {
    v.JArr? && forall k :: 0 <= k < |v.items| ==> v.items[k].JStr?
  }

  function StringItems(items: seq<Json>): (r: seq<string>)
    requires forall k :: 0 <= k < |items| ==> items[k].JStr?
    ensures |r| == |items| && forall k :: 0 <= k < |items| ==> items[k] == JStr(r[k])
  {
    seq(|items|, k requires 0 <= k < |items| => items[k].s)
  }

  /** One value as `_process_dict_lists_to_strings` rewrites it. */
  function FlattenValue(v: Json): Json {
    if IsStringList(v) then JStr(Join(StringItems(v.items), ", ")) else v
  }

  /** A whole dict as `_process_dict_lists_to_strings` rewrites it. */
  function FlattenFields(fields: seq<Field>): (r: seq<Field>)
    ensures Keys(r) == Keys(fields)
    ensures forall k :: 0 <= k < |r| ==> !IsStringList(r[k].value)
    ensures forall k :: 0 <= k < |r| ==> !IsStringList(fields[k].value) ==> r[k].value == fields[k].value
    ensures forall k :: 0 <= k < |r| ==> IsStringList(fields[k].value) ==>
              r[k].value == JStr(Join(StringItems(fields[k].value.items), ", "))
  {
    seq(|fields|, k requires 0 <= k < |fields| => Field(fields[k].key, FlattenValue(fields[k].value)))
  }

  /** Flattening twice is flattening once. */
  lemma FlattenIdempotent(fields: seq<Field>)
    ensures FlattenFields(FlattenFields(fields)) == FlattenFields(fields)
  {
  }

  /** `_process_dict_lists_to_strings` (lines 14-27). */
  method ProcessDictListsToStrings(fields: seq<Field>) returns (processed: seq<Field>)
    ensures processed == FlattenFields(fields)
  {
    processed := [];
    for i := 0 to |fields|
      invariant |processed| == i
      invariant forall k :: 0 <= k < i ==> processed[k] == Field(fields[k].key, FlattenValue(fields[k].value))
    {
      var value := fields[i].value;
      if value.JArr? && forall k :: 0 <= k < |value.items| ==> value.items[k].JStr? {
        processed := processed + [Field(fields[i].key, JStr(Join(StringItems(value.items), ", ")))];
      } else {
        processed := processed + [Field(fields[i].key, value)];
      }
    }
  }

  predicate AllObjects(items: seq<Json>) {
    forall k :: 0 <= k < |items| ==> items[k].JObj?
  }

  function FlattenAll(items: seq<Json>): (r: seq<Json>)
    requires AllObjects(items)
    ensures |r| == |items|
  {
    seq(|items|, k requires 0 <= k < |items| && items[k].JObj? => JObj(FlattenFields(items[k].fields)))
  }

  /** Lines 82-99: what a successful first parse yields. */
  function FromParsed(data: Json): seq<Json> {
    match data
    case JObj(fields) => [JObj(FlattenFields(fields))]
    case JArr(items) => if AllObjects(items) then FlattenAll(items) else []
    case _ => []
  }

  /** Lines 106-122: what a successful parse of the bracket-wrapped span yields. */
  function FromRetried(data: Json): seq<Json> {
    if data.JArr? && AllObjects(data.items) then FlattenAll(data.items) else []
  }

  /** Lines 79-131: what the selected span yields, with one retry that wraps an object span in brackets. */
  function FromSpan(span: string, parse: string -> Option<Json>): (r: seq<Json>)
    ensures forall k :: 0 <= k < |r| ==> r[k].JObj?
  {
    match parse(span)
    case Some(data) => FromParsed(data)
    case None =>
      if StartsWith(span, "{") && EndsWith(span, "}") then
        match parse("[" + span + "]")
        case Some(data) => FromRetried(data)
        case None => []
      else []
  }

  /** `structure_text_to_json_list` as a function of its input: it never fails and yields only dicts. */
  function ExtractRecords(text: string, isWord: char -> bool, parse: string -> Option<Json>): (r: seq<Json>)
    ensures forall k :: 0 <= k < |r| ==> r[k].JObj?
  {
    match SelectSpan(Strip(CleanString(text, isWord)))
    case None => []
    case Some(span) => FromSpan(span, parse)
  }

  /** `structure_text_to_json_list` (lines 31-134). */
  method StructureTextToJsonList(text: string, isWord: char -> bool, parse: string -> Option<Json>)
    returns (records: seq<Json>)
    ensures records == ExtractRecords(text, isWord, parse)
  {
    var cleanedInput := CleanString(text, isWord);
    var stripped := Strip(cleanedInput);
    var span := SelectSpan(stripped);
    if span.None? {
      return [];
    }
    records := ParseSpan(span.value, parse);
  }

  /** The parsing part of `structure_text_to_json_list` (lines 79-131). */
  method ParseSpan(jsonToParse: string, parse: string -> Option<Json>) returns (records: seq<Json>)
    ensures records == FromSpan(jsonToParse, parse)
  {
    var parsed := parse(jsonToParse);
    if parsed.Some? {
      var data := parsed.value;
      records := [];
      if data.JObj? {
        var one := ProcessDictListsToStrings(data.fields);
        records := [JObj(one)];
      } else if data.JArr? {
        records := ProcessList(data.items);
      }
      return;
    }
    if StartsWith(jsonToParse, "{") && EndsWith(jsonToParse, "}") {
      var modified := parse("[" + jsonToParse + "]");
      if modified.Some? && modified.value.JArr? {
        records := ProcessList(modified.value.items);
        return;
      }
      return [];
    }
    return [];
  }

  /** The loops at lines 87-93 and 110-117: one flattened dict per item, or `[]` on the first non-dict. */
  method ProcessList(items: seq<Json>) returns (records: seq<Json>)
    ensures records == (if AllObjects(items) then FlattenAll(items) else [])
  {
    records := [];
    for i := 0 to |items|
      invariant AllObjects(items[..i])
      invariant |records| == i
      invariant forall k :: 0 <= k < i ==> records[k] == JObj(FlattenFields(items[k].fields))
    {
      if !items[i].JObj? {
        return [];
      }
      var one := ProcessDictListsToStrings(items[i].fields);
      records := records + [JObj(one)];
    }
    assert items[..|items|] == items;
  }

  /** A selected span starts with `{` and ends with `}`, or starts with `[` and ends with `]`. */
  lemma SpanShape(s: string)
    ensures SelectSpan(s).Some? ==>
      var t := SelectSpan(s).value;
      |t| >= 2 && ((t[0] == '{' && t[|t| - 1] == '}') || (t[0] == '[' && t[|t| - 1] == ']'))
  {
  }

  /** What each parse outcome of a selected span yields: a dict gives one record, a list gives one record
      per item or none if an item is not a dict, and a failed parse is retried once, bracket-wrapped, and
      only for an object span. */
  lemma FromSpanCases(span: string, parse: string -> Option<Json>)
    requires |span| >= 2 && ((span[0] == '{' && span[|span| - 1] == '}') || (span[0] == '[' && span[|span| - 1] == ']'))
    ensures parse(span).Some? && parse(span).value.JObj? ==>
              FromSpan(span, parse) == [JObj(FlattenFields(parse(span).value.fields))]
    ensures parse(span).Some? && parse(span).value.JArr? ==>
              FromSpan(span, parse) ==
                if AllObjects(parse(span).value.items) then FlattenAll(parse(span).value.items) else []
    ensures parse(span).None? && span[0] == '{' ==>
              FromSpan(span, parse) ==
                if parse("[" + span + "]").Some? then FromRetried(parse("[" + span + "]").value) else []
    ensures parse(span).None? && span[0] == '[' ==> FromSpan(span, parse) == []
  {
    assert span[0] == '{' ==> StartsWith(span, "{") && EndsWith(span, "}");
    assert span[0] == '[' ==> !StartsWith(span, "{");
  }

  lemma CleanWrapped(raw: string, isWord: char -> bool)
    requires IsWordClass(isWord)
    ensures CleanString("\n'" + raw + "'\n", isWord) == "'" + CleanString(raw, isWord) + "'"
  {
    assert "\n'" + raw + "'\n" == "\n'" + (raw + "'\n");
    CleanConcat("\n'", raw + "'\n", isWord);
    CleanConcat(raw, "'\n", isWord);
    assert !isWord('\n');
    assert CleanString("\n'", isWord) == "'" by { assert "\n'"[1..] == "'"; }
    assert CleanString("'\n", isWord) == "'" by { assert "'\n"[1..] == "\n"; }
  }

  lemma SelectQuoted(body: string)
    requires |body| >= 2 && body[0] == '{' && body[|body| - 1] == '}'
    ensures SelectSpan("'" + body + "'") == Some(body)
  {
    var cleaned := "'" + body + "'";
    assert cleaned[1] == '{' && cleaned[0] != '{';
    assert Find(cleaned, '{') == 1;
    assert cleaned[|cleaned| - 1] != '}' && cleaned[|cleaned| - 2] == '}';
    assert RFind(cleaned, '}') == |cleaned| - 2;
    assert cleaned[1..|cleaned| - 1] == body;
  }

  lemma QuotedSpan(text: string, body: string, isWord: char -> bool, parse: string -> Option<Json>)
    requires |body| >= 2 && body[0] == '{' && body[|body| - 1] == '}'
    requires CleanString(text, isWord) == "'" + body + "'"
    ensures ExtractRecords(text, isWord, parse) == FromSpan(body, parse)
  {
    StripUnchanged("'" + body + "'");
    SelectQuoted(body);
  }

  lemma ParsedAnswer(body: string, parse: string -> Option<Json>, answer: string, sources: seq<Json>)
    requires parse(body) == Some(JObj([Field("answer", JStr(answer)), Field("data", JArr(sources))]))
    requires |sources| > 0 && AllObjects(sources)
    ensures FromSpan(body, parse) == [JObj([Field("answer", JStr(answer)), Field("data", JArr(sources))])]
  {
    var fields := [Field("answer", JStr(answer)), Field("data", JArr(sources))];
    assert !IsStringList(JArr(sources)) by { assert !sources[0].JStr?; }
    FlattenNoLists(fields);
  }

  /** The embedded example (lines 138-167): one object wrapped in stray quotes, surrounded by newlines,
      yields that object as the only record; a `data` list of objects is left as a list. */
  lemma StrayQuotedObject(raw: string, isWord: char -> bool, parse: string -> Option<Json>,
                          answer: string, sources: seq<Json>)
    requires IsWordClass(isWord)
    requires var body := CleanString(raw, isWord); |body| >= 2 && body[0] == '{' && body[|body| - 1] == '}'
    requires parse(CleanString(raw, isWord)) == Some(JObj([Field("answer", JStr(answer)), Field("data", JArr(sources))]))
    requires |sources| == 4 && AllObjects(sources)
    ensures ExtractRecords("\n'" + raw + "'\n", isWord, parse)
            == [JObj([Field("answer", JStr(answer)), Field("data", JArr(sources))])]
  {
    CleanWrapped(raw, isWord);
    QuotedSpan("\n'" + raw + "'\n", CleanString(raw, isWord), isWord, parse);
    ParsedAnswer(CleanString(raw, isWord), parse, answer, sources);
  }

  /** A dict without a list-of-strings value is left as it is. */
  lemma FlattenNoLists(fields: seq<Field>)
    requires forall k :: 0 <= k < |fields| ==> !IsStringList(fields[k].value)
    ensures FlattenFields(fields) == fields
  {
    var r := FlattenFields(fields);
    forall k | 0 <= k < |fields| ensures r[k] == fields[k] {
      assert Keys(r)[k] == Keys(fields)[k];
    }
  }

  /** Printable ASCII survives cleaning: letters, digits and `_` are `\w`, the rest is a space or
      punctuation. */
  lemma PrintableKept(isWord: char -> bool, c: char)
    requires IsWordClass(isWord) && IsPrintableAscii(c)
    ensures Kept(isWord, c)
  {
    assert c < '\U{80}';
  }

  /** Printable ASCII text is left as it is by cleaning. */
  lemma CleanPrintable(text: string, isWord: char -> bool)
    requires IsWordClass(isWord) && AllPrintable(text)
    ensures CleanString(text, isWord) == text
  {
    forall i | 0 <= i < |text| ensures Kept(isWord, text[i]) {
      PrintableKept(isWord, text[i]);
    }
    CleanKeepsClean(text, isWord);
  }

  /** A text from `{` to `}` is its own object span. */
  lemma SelectWholeObject(text: string)
    requires |text| >= 2 && text[0] == '{' && text[|text| - 1] == '}'
    ensures SelectSpan(text) == Some(text)
  {
    assert Find(text, '{') == 0;
    RFindLast(text, '}');
    assert RFind(text, '}') == |text| - 1;
    assert text[0..|text|] == text;
  }

  /** The `json.dumps` text of a dict (printable ASCII from `{` to `}`), when `json.loads` reads the dict
      back and it holds no list of strings, is extracted as exactly that dict. */
  lemma DumpedObjectExtracted(text: string, isWord: char -> bool, parse: string -> Option<Json>,
                              fields: seq<Field>)
    requires IsWordClass(isWord)
    requires AllPrintable(text) && |text| >= 2 && text[0] == '{' && text[|text| - 1] == '}'
    requires parse(text) == Some(JObj(fields))
    requires forall k :: 0 <= k < |fields| ==> !IsStringList(fields[k].value)
    ensures ExtractRecords(text, isWord, parse) == [JObj(fields)]
  {
    CleanPrintable(text, isWord);
    StripUnchanged(text);
    SelectWholeObject(text);
    FlattenNoLists(fields);
    assert FromSpan(text, parse) == [JObj(FlattenFields(fields))];
  }
}
