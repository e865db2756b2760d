/** The values that Python's `json.loads` produces, dictionary access on them, Python's `str()` of them
    and the string escaping of `json.dumps`. */
module Json {
  import opened Wrappers
  import opened Text

  /** A decoded JSON value. An object keeps its key order, as a Python dict does, as an
      association list. Numbers are integers. */
  datatype Json = JNull | JBool(b: bool) | JNum(n: int) | JStr(s: string) | JArr(items: seq<Json>) | JObj(fields: seq<Field>)

  datatype Field = Field(key: string, value: Json)

  /** `d.get(key)`: the value of the first field named `key`. */
  function Get(fields: seq<Field>, key: string): (r: Option<Json>)
    ensures r.None? <==> forall k :: 0 <= k < |fields| ==> fields[k].key != key
    ensures r.Some? ==> exists k :: 0 <= k < |fields| && fields[k] == Field(key, r.value)
  {
    if fields == [] then None
    else if fields[0].key == key then Some(fields[0].value)
    else Get(fields[1..], key)
  }

  /** The keys of a dict, in order. */
  function Keys(fields: seq<Field>): (r: seq<string>)
    ensures |r| == |fields| && forall k :: 0 <= k < |fields| ==> r[k] == fields[k].key
  {
    seq(|fields|, k requires 0 <= k < |fields| => fields[k].key)
  }

  /** `d[key] = value`: overwrites the first field named `key` where it stands, or appends a new one. */
  function SetKey(fields: seq<Field>, key: string, value: Json): seq<Field> {
    if fields == [] then [Field(key, value)]
    else if fields[0].key == key then [Field(key, value)] + fields[1..]
    else [fields[0]] + SetKey(fields[1..], key, value)
  }

  lemma KeysCons(f: Field, fields: seq<Field>)
    ensures Keys([f] + fields) == [f.key] + Keys(fields)
  {
  }

  /** `d[key] = value` keeps the key order, adding `key` at the end when it is new. */
  lemma {:induction false} SetKeyKeys(fields: seq<Field>, key: string, value: Json)
    ensures Get(fields, key).Some? ==> Keys(SetKey(fields, key, value)) == Keys(fields)
    ensures Get(fields, key).None? ==> Keys(SetKey(fields, key, value)) == Keys(fields) + [key]
  {
    if fields != [] {
      KeysCons(fields[0], fields[1..]);
      assert fields == [fields[0]] + fields[1..];
      if fields[0].key != key {
        SetKeyKeys(fields[1..], key, value);
        KeysCons(fields[0], SetKey(fields[1..], key, value));
      } else {
        KeysCons(Field(key, value), fields[1..]);
      }
    }
  }

  /** After `d[key] = value`, `d.get(key)` is `value` and every other key reads as before. */
  lemma {:induction false} SetKeyGet(fields: seq<Field>, key: string, value: Json, other: string)
    ensures Get(SetKey(fields, key, value), other) == if other == key then Some(value) else Get(fields, other)
  {
    if fields != [] && fields[0].key != key {
      SetKeyGet(fields[1..], key, value, other);
      assert ([fields[0]] + SetKey(fields[1..], key, value))[1..] == SetKey(fields[1..], key, value);
    } else if fields != [] {
      assert ([Field(key, value)] + fields[1..])[1..] == fields[1..];
    }
  }

  /** Lookups in a dict of three distinct keys. */
  lemma GetThree(k1: string, v1: Json, k2: string, v2: Json, k3: string, v3: Json)
    requires k1 != k2 && k1 != k3 && k2 != k3
    ensures var fields := [Field(k1, v1), Field(k2, v2), Field(k3, v3)];
      Get(fields, k1) == Some(v1) && Get(fields, k2) == Some(v2) && Get(fields, k3) == Some(v3)
  {
    var fields := [Field(k1, v1), Field(k2, v2), Field(k3, v3)];
    assert Get(fields[2..], k3) == Some(v3);
    assert Get(fields[1..], k2) == Some(v2);
  }

  /** Python's `str(v)`: a string is itself; everything else is its `repr`. */
  function PyStr(v: Json): string {
    if v.JStr? then v.s else PyRepr(v)
  }

  /** Python's `repr(v)`. Strings are put in single quotes without escaping. */
  function PyRepr(v: Json): string
    decreases v, 1
  {
    match v
    case JNull => "None"
    case JBool(b) => if b then "True" else "False"
    case JNum(n) => IntToString(n)
    case JStr(s) => "'" + s + "'"
    case JArr(items) => "[" + ReprItems(items) + "]"
    case JObj(fields) => "{" + ReprFields(fields) + "}"
  }

  function ReprItems(items: seq<Json>): string
    decreases items, 0
  {
    if items == [] then ""
    else if |items| == 1 then PyRepr(items[0])
    else PyRepr(items[0]) + ", " + ReprItems(items[1..])
  }

  function ReprFields(fields: seq<Field>): string
    decreases fields, 0
  {
    if fields == [] then ""
    else
      var f := fields[0];
      var entry := "'" + f.key + "': " + PyRepr(f.value);
      if |fields| == 1 then entry else entry + ", " + ReprFields(fields[1..])
  }

  function HexDigit(d: nat): char
    requires d < 16
  {
    "0123456789abcdef"[d]
  }

  /** Four lower-case hex digits, as in `'{0:04x}'.format(n)`. */
  function Hex4(n: nat): string
    requires n < 0x10000
  {
    [HexDigit(n / 4096), HexDigit(n / 256 % 16), HexDigit(n / 16 % 16), HexDigit(n % 16)]
  }

  /** How `json.dumps` writes one character of a string. */
  function EscapeChar(c: char, ensureAscii: bool): string {
    if c == '"' then "\\\""
    else if c == '\\' then "\\\\"
    else if c == '\n' then "\\n"
    else if c == '\r' then "\\r"
    else if c == '\t' then "\\t"
    else if c == '\U{8}' then "\\b"
    else if c == '\U{C}' then "\\f"
    else if c < ' ' then "\\u" + Hex4(c as int)
    else if ensureAscii && c as int > 126 then
      if c as int < 0x10000 then "\\u" + Hex4(c as int)
      else
        var v := c as int - 0x10000;
        "\\u" + Hex4(0xD800 + v / 1024) + "\\u" + Hex4(0xDC00 + v % 1024)
    else [c]
  }

  /** `json.dumps(s, ensure_ascii=ensureAscii)` for a string `s`. */
  function QuoteString(s: string, ensureAscii: bool): string {
    "\"" + EscapeBody(s, ensureAscii) + "\""
  }

  function EscapeBody(s: string, ensureAscii: bool): string {
    if s == [] then "" else EscapeChar(s[0], ensureAscii) + EscapeBody(s[1..], ensureAscii)
  }

  /** `json.dumps(v)` with the default separators `", "` and `": "` and `ensure_ascii=True`. */
  function Dumps(v: Json): string
    decreases v, 1
  {
    match v
    case JNull => "null"
    case JBool(b) => if b then "true" else "false"
    case JNum(n) => IntToString(n)
    case JStr(s) => QuoteString(s, true)
    case JArr(items) => "[" + DumpItems(items) + "]"
    case JObj(fields) => "{" + DumpFields(fields) + "}"
  }

  function DumpItems(items: seq<Json>): string
    decreases items, 0
  {
    if items == [] then ""
    else if |items| == 1 then Dumps(items[0])
    else Dumps(items[0]) + ", " + DumpItems(items[1..])
  }

  function DumpFields(fields: seq<Field>): string
    decreases fields, 0
  {
    if fields == [] then ""
    else
      var f := fields[0];
      var entry := QuoteString(f.key, true) + ": " + Dumps(f.value);
      if |fields| == 1 then entry else entry + ", " + DumpFields(fields[1..])
  }

  /** A character from the space to the tilde. */
  predicate IsPrintableAscii(c: char) {
    ' ' <= c <= '~'
  }

  predicate AllPrintable(s: string) {
    forall i :: 0 <= i < |s| ==> IsPrintableAscii(s[i])
  }

  lemma PrintableConcat(a: string, b: string)
    requires AllPrintable(a) && AllPrintable(b)
    ensures AllPrintable(a + b)
  {
    forall i | 0 <= i < |a + b| ensures IsPrintableAscii((a + b)[i]) {
      if i >= |a| {
        assert (a + b)[i] == b[i - |a|];
      }
    }
  }

  lemma Hex4Printable(n: nat)
    requires n < 0x10000
    ensures AllPrintable(Hex4(n))
  {
    var h := Hex4(n);
    assert forall d :: 0 <= d < 16 ==> '0' <= HexDigit(d) <= 'f';
    assert forall i :: 0 <= i < 4 ==> '0' <= h[i] <= 'f';
  }

  lemma EscapeUnicodePrintable(n: nat)
    requires n < 0x10000
    ensures AllPrintable("\\u" + Hex4(n))
  {
    Hex4Printable(n);
    PrintableConcat("\\u", Hex4(n));
  }

  lemma EscapeCharPrintable(c: char)
    ensures AllPrintable(EscapeChar(c, true))
  {
    var e := EscapeChar(c, true);
    if c == '"' || c == '\\' || c == '\n' || c == '\r' || c == '\t' || c == '\U{8}' || c == '\U{C}' {
      SimpleEscapePrintable(c);
    } else if c < ' ' {
      assert e == "\\u" + Hex4(c as int);
      EscapeUnicodePrintable(c as int);
    } else if c as int > 126 {
      WideEscapePrintable(c);
    } else {
      assert e == [c];
    }
  }

  lemma SimpleEscapePrintable(c: char)
    requires c == '"' || c == '\\' || c == '\n' || c == '\r' || c == '\t' || c == '\U{8}' || c == '\U{C}'
    ensures AllPrintable(EscapeChar(c, true))
  {
    var e := EscapeChar(c, true);
    assert |e| == 2 && e[0] == '\\' && ' ' <= e[1] <= '~';
  }

  lemma WideEscapePrintable(c: char)
    requires c as int > 126 && c != '"' && c != '\\'
    ensures AllPrintable(EscapeChar(c, true))
  {
    var e := EscapeChar(c, true);
    if c as int < 0x10000 {
      assert e == "\\u" + Hex4(c as int);
      EscapeUnicodePrintable(c as int);
    } else {
      var v := c as int - 0x10000;
      var hi := "\\u" + Hex4(0xD800 + v / 1024);
      var lo := "\\u" + Hex4(0xDC00 + v % 1024);
      assert e == hi + lo;
      EscapeUnicodePrintable(0xD800 + v / 1024);
      EscapeUnicodePrintable(0xDC00 + v % 1024);
      PrintableConcat(hi, lo);
    }
  }

  lemma {:induction false} EscapeBodyPrintable(s: string)
    ensures AllPrintable(EscapeBody(s, true))
  {
    if s != [] {
      EscapeCharPrintable(s[0]);
      EscapeBodyPrintable(s[1..]);
      PrintableConcat(EscapeChar(s[0], true), EscapeBody(s[1..], true));
    }
  }

  /** With `ensure_ascii=True` a quoted string holds only printable ASCII: control characters and
      everything beyond ASCII are written as escapes. */
  lemma QuoteStringPrintable(s: string)
    ensures AllPrintable(QuoteString(s, true))
  {
    EscapeBodyPrintable(s);
    PrintableConcat("\"", EscapeBody(s, true));
    PrintableConcat("\"" + EscapeBody(s, true), "\"");
  }

  lemma {:induction false} NatToStringPrintable(n: nat)
    ensures AllPrintable(NatToString(n))
  {
    assert forall d :: 0 <= d < 10 ==> '0' <= DigitChar(d) <= '9';
    if n >= 10 {
      NatToStringPrintable(n / 10);
      PrintableConcat(NatToString(n / 10), [DigitChar(n % 10)]);
    }
  }

  /** Put between two printable texts, a printable separator keeps the whole printable. */
  lemma PrintableJoin3(a: string, sep: string, b: string)
    requires AllPrintable(a) && AllPrintable(sep) && AllPrintable(b)
    ensures AllPrintable(a + sep + b)
  {
    PrintableConcat(a, sep);
    PrintableConcat(a + sep, b);
  }

  /** `json.dumps` with `ensure_ascii=True` writes printable ASCII only. */
  lemma {:induction false} DumpsPrintable(v: Json)
    ensures AllPrintable(Dumps(v))
    ensures v.JObj? ==> |Dumps(v)| >= 2 && Dumps(v)[0] == '{' && Dumps(v)[|Dumps(v)| - 1] == '}'
    decreases v, 1
  {
    match v
    case JNull =>
    case JBool(b) =>
    case JNum(n) =>
      NatToStringPrintable(if n < 0 then -n else n);
      if n < 0 {
        PrintableConcat("-", NatToString(-n));
      }
    case JStr(s) => QuoteStringPrintable(s);
    case JArr(items) =>
      DumpItemsPrintable(items);
      PrintableJoin3("[", DumpItems(items), "]");
    case JObj(fields) =>
      DumpFieldsPrintable(fields);
      PrintableJoin3("{", DumpFields(fields), "}");
  }

  lemma {:induction false} DumpItemsPrintable(items: seq<Json>)
    ensures AllPrintable(DumpItems(items))
    decreases items, 0
  {
    if |items| == 1 {
      DumpsPrintable(items[0]);
    } else if items != [] {
      DumpsPrintable(items[0]);
      DumpItemsPrintable(items[1..]);
      PrintableJoin3(Dumps(items[0]), ", ", DumpItems(items[1..]));
    }
  }

  lemma {:induction false} DumpFieldsPrintable(fields: seq<Field>)
    ensures AllPrintable(DumpFields(fields))
    decreases fields, 0
  {
    if fields != [] {
      var f := fields[0];
      QuoteStringPrintable(f.key);
      DumpsPrintable(f.value);
      PrintableJoin3(QuoteString(f.key, true), ": ", Dumps(f.value));
      if |fields| > 1 {
        DumpFieldsPrintable(fields[1..]);
        PrintableJoin3(QuoteString(f.key, true) + ": " + Dumps(f.value), ", ", DumpFields(fields[1..]));
      }
    }
  }

  /** `json.dumps(records, ensure_ascii=False, indent=2)` for a list of dicts with string values. */
  function DumpRecords(records: seq<seq<(string, string)>>): string {
    if records == [] then "[]" else "[\n" + DumpRecordList(records) + "\n]"
  }

  function DumpRecordList(records: seq<seq<(string, string)>>): string {
    if records == [] then ""
    else if |records| == 1 then DumpRecord(records[0])
    else DumpRecord(records[0]) + ",\n" + DumpRecordList(records[1..])
  }

  function DumpRecord(record: seq<(string, string)>): string {
    if record == [] then "  {}" else "  {\n" + DumpEntries(record) + "\n  }"
  }

  function DumpEntries(record: seq<(string, string)>): string {
    if record == [] then ""
    else
      var entry := "    " + QuoteString(record[0].0, false) + ": " + QuoteString(record[0].1, false);
      if |record| == 1 then entry else entry + ",\n" + DumpEntries(record[1..])
  }
}
