/** The parts of `urllib.parse` that the scraper relies on, with the semantics of Python 3.12:
    `urlsplit`/`urlparse` (a `ValueError` is `None`), and `quote`/`quote_plus` with UTF-8
    percent-encoding. */
module Urls {
  import opened Wrappers
  import opened Text

  /** The six fields of a `ParseResult`. */
  datatype UrlParts = UrlParts(scheme: string, netloc: string, path: string, params: string,
                               query: string, fragment: string)

  /** `_WHATWG_C0_CONTROL_OR_SPACE`, stripped from the front of a URL. */
  predicate IsC0OrSpace(c: char) {
    c <= ' '
  }

  /** `_UNSAFE_URL_BYTES_TO_REMOVE`, deleted anywhere in a URL. */
  predicate IsUnsafeByte(c: char) {
    c == '\t' || c == '\r' || c == '\n'
  }

  predicate IsAsciiLetter(c: char) {
    ('a' <= c <= 'z') || ('A' <= c <= 'Z')
  }

  predicate IsAsciiDigit(c: char) {
    '0' <= c <= '9'
  }

  /** `scheme_chars` */
  predicate IsSchemeChar(c: char) {
    IsAsciiLetter(c) || IsAsciiDigit(c) || c == '+' || c == '-' || c == '.'
  }

  /** The characters that end a network location: `/`, `?` and `#`. */
  predicate IsNetlocDelim(c: char) {
    c == '/' || c == '?' || c == '#'
  }

  function RemoveUnsafe(s: string): (r: string)
    ensures forall k :: 0 <= k < |r| ==> !IsUnsafeByte(r[k])
  {
    if s == [] then "" else (if IsUnsafeByte(s[0]) then "" else [s[0]]) + RemoveUnsafe(s[1..])
  }

  lemma {:induction false} RemoveUnsafeNoop(s: string)
    requires forall k :: 0 <= k < |s| ==> !IsUnsafeByte(s[k])
    ensures RemoveUnsafe(s) == s
  {
    if s != [] {
      RemoveUnsafeNoop(s[1..]);
      assert s == [s[0]] + s[1..];
    }
  }

  /** A scheme is taken when a `:` follows a non-empty run of scheme characters that starts with a letter. */
  predicate HasScheme(url: string) {
    var i := Find(url, ':');
    i > 0 && IsAsciiLetter(url[0]) && forall k :: 0 <= k < i ==> IsSchemeChar(url[k])
  }

  /** `s.split(c, 1)` when `c in s`: the text before and after the first `c`. */
  function SplitOnce(s: string, c: char): (r: (string, string))
    requires c in s
    ensures s == r.0 + [c] + r.1 && c !in r.0
  {
    var i := Find(s, c);
    FindFirst(s, c);
    assert s == s[..i] + [c] + s[i + 1..];
    (s[..i], s[i + 1..])
  }

  /** The URL after the leading C0 controls and spaces are stripped and tabs and newlines removed. */
  function Cleaned(url: string): (r: string)
    ensures forall k :: 0 <= k < |r| ==> !IsUnsafeByte(r[k])
  {
    RemoveUnsafe(LStrip(url, IsC0OrSpace))
  }

  /** The lower-cased scheme and the rest of the URL. */
  function SplitScheme(url: string): (r: (string, string))
  {
    if HasScheme(url) then (Lower(url[..Find(url, ':')]), url[Find(url, ':') + 1..]) else ("", url)
  }

  /** `_splitnetloc(url, 2)` after a leading `//`: the netloc runs up to the first `/`, `?` or `#`. */
  function SplitNetloc(url: string): (r: (string, string))
    ensures forall k :: 0 <= k < |r.0| ==> !IsNetlocDelim(r.0[k])
    ensures r.1 == [] || IsNetlocDelim(r.1[0]) || !StartsWith(url, "//")
  {
    if StartsWith(url, "//") then
      var tail := url[2..];
      var d := FindAny(tail, IsNetlocDelim);
      (tail[..d], tail[d..])
    else ("", url)
  }

  /** `url.split(c, 1)` when `c in url`, else the whole URL and an empty second part. */
  function SplitOptional(url: string, c: char): (r: (string, string))
    ensures c !in r.0
  {
    if c in url then SplitOnce(url, c) else (url, "")
  }

  /** `urlsplit(url)`; `None` is the `ValueError` raised for an unbalanced `[` or `]` in the netloc. */
  function UrlSplit(url: string): (r: Option<UrlParts>)
    ensures r.Some? ==> r.value.params == "" && '#' !in r.value.path && '?' !in r.value.path
    ensures r.Some? ==> forall k :: 0 <= k < |r.value.netloc| ==> !IsNetlocDelim(r.value.netloc[k])
  {
    var scheme := SplitScheme(Cleaned(url));
    var netloc := SplitNetloc(scheme.1);
    if ('[' in netloc.0) != (']' in netloc.0) then None
    else
      var fragment := SplitOptional(netloc.1, '#');
      var query := SplitOptional(fragment.0, '?');
      assert '#' !in query.0 by {
        assert StartsWith(fragment.0, query.0) by { if '?' in fragment.0 {} }
      }
      Some(UrlParts(scheme.0, netloc.0, query.0, "", query.1, fragment.1))
  }

  /** `uses_params` */
  predicate UsesParams(scheme: string) {
    scheme in {"", "ftp", "hdl", "prospero", "http", "imap", "https", "shttp", "rtsp", "rtsps", "rtspu",
               "sip", "sips", "mms", "sftp", "tel"}
  }

  /** `_splitparams(path)`: the last segment's first `;` starts the parameters. */
  function SplitParams(path: string): (r: (string, string))
    requires ';' in path
    ensures StartsWith(path, r.0)
  {
    if '/' in path then
      var slash := RFind(path, '/');
      var semi := Find(path[slash..], ';');
      if semi < 0 then (path, "") else (path[..slash + semi], path[slash + semi + 1..])
    else
      var semi := Find(path, ';');
      (path[..semi], path[semi + 1..])
  }

  /** `urlparse(url)` */
  function UrlParse(url: string): (r: Option<UrlParts>)
    ensures r.Some? ==> '#' !in r.value.path && '?' !in r.value.path
    ensures r.Some? ==> forall k :: 0 <= k < |r.value.netloc| ==> !IsNetlocDelim(r.value.netloc[k])
  {
    match UrlSplit(url)
    case None => None
    case Some(p) =>
      if UsesParams(p.scheme) && ';' in p.path then
        var sp := SplitParams(p.path);
        assert forall k :: 0 <= k < |sp.0| ==> sp.0[k] == p.path[k];
        Some(p.(path := sp.0, params := sp.1))
      else Some(p)
  }

  /** A URL `scheme://netloc/path#fragment` whose pieces need none of the rules above is split back into
      those pieces. */
  predicate PlainScheme(scheme: string) {
    |scheme| > 0 && IsAsciiLetter(scheme[0]) && !('A' <= scheme[0] <= 'Z')
    && forall k :: 0 <= k < |scheme| ==> IsSchemeChar(scheme[k]) && !('A' <= scheme[k] <= 'Z')
  }

  /** Free of tabs and line breaks. */
  predicate PlainText(s: string) {
    '\t' !in s && '\r' !in s && '\n' !in s
  }

  predicate PlainNetloc(netloc: string) {
    PlainText(netloc) && '/' !in netloc && '?' !in netloc && '#' !in netloc && '[' !in netloc && ']' !in netloc
  }

  lemma PlainConcat(a: string, b: string)
    requires PlainText(a) && PlainText(b)
    ensures PlainText(a + b)
  {
  }

  lemma LowerNoop(s: string)
    requires forall k :: 0 <= k < |s| ==> !('A' <= s[k] <= 'Z')
    ensures Lower(s) == s
  {
  }

  lemma SchemeSplit(scheme: string, rest: string)
    requires PlainScheme(scheme)
    ensures var s := scheme + ":" + rest;
      HasScheme(s) && Find(s, ':') == |scheme| && Lower(s[..|scheme|]) == scheme && s[|scheme| + 1..] == rest
  {
    var s := scheme + ":" + rest;
    assert ':' !in scheme by { assert forall k :: 0 <= k < |scheme| ==> scheme[k] != ':'; }
    FindAfter(scheme, ":" + rest, ':');
    assert s == scheme + (":" + rest);
    assert s[..|scheme|] == scheme;
    LowerNoop(scheme);
  }

  /** `urlsplit` of `scheme://netloc` followed by text starting at a netloc delimiter. */
  lemma SplitHierarchical(scheme: string, netloc: string, rest: string)
    requires PlainScheme(scheme) && PlainNetloc(netloc) && PlainText(rest)
    requires rest == [] || IsNetlocDelim(rest[0])
    ensures var url := scheme + "://" + netloc + rest;
      var fragment := SplitOptional(rest, '#');
      var query := SplitOptional(fragment.0, '?');
      UrlSplit(url) == Some(UrlParts(scheme, netloc, query.0, "", query.1, fragment.1))
  {
    var url := scheme + "://" + netloc + rest;
    CleanedPlain(scheme, netloc, rest);
    SchemeSplit(scheme, "//" + netloc + rest);
    assert url == scheme + ":" + ("//" + netloc + rest);
    NetlocSplit(netloc, rest);
  }

  lemma CleanedPlain(scheme: string, netloc: string, rest: string)
    requires PlainScheme(scheme) && PlainNetloc(netloc) && PlainText(rest)
    ensures Cleaned(scheme + "://" + netloc + rest) == scheme + "://" + netloc + rest
  {
    var url := scheme + "://" + netloc + rest;
    assert url[0] == scheme[0];
    assert LStrip(url, IsC0OrSpace) == url;
    assert PlainText(scheme) by {
      forall k | 0 <= k < |scheme| ensures !IsUnsafeByte(scheme[k]) { assert IsSchemeChar(scheme[k]); }
    }
    PlainConcat(scheme, "://");
    PlainConcat(scheme + "://", netloc);
    PlainConcat(scheme + "://" + netloc, rest);
    RemoveUnsafeNoop(url);
  }

  lemma NetlocSplit(netloc: string, rest: string)
    requires PlainNetloc(netloc)
    requires rest == [] || IsNetlocDelim(rest[0])
    ensures SplitNetloc("//" + netloc + rest) == (netloc, rest)
    ensures '[' !in netloc && ']' !in netloc
  {
    var tail := ("//" + netloc + rest)[2..];
    assert tail == netloc + rest;
    FindAnyAfter(netloc, rest, IsNetlocDelim);
    assert FindAny(rest, IsNetlocDelim) == 0;
    assert tail[..|netloc|] == netloc && tail[|netloc|..] == rest;
  }

  /** Without a `;` in the path, `urlparse` adds nothing to `urlsplit`. */
  lemma ParseNoParams(url: string)
    requires UrlSplit(url).Some? && ';' !in UrlSplit(url).value.path
    ensures UrlParse(url) == UrlSplit(url)
  {
  }

  lemma SplitWithFragment(scheme: string, netloc: string, path: string, fragment: string)
    requires PlainScheme(scheme) && PlainNetloc(netloc) && PlainText(path) && PlainText(fragment)
    requires path == [] || path[0] == '/'
    requires '#' !in path && '?' !in path
    ensures UrlSplit(scheme + "://" + netloc + path + "#" + fragment)
            == Some(UrlParts(scheme, netloc, path, "", "", fragment))
  {
    var rest := path + "#" + fragment;
    assert PlainText(rest) by {
      PlainConcat(path, "#");
      PlainConcat(path + "#", fragment);
    }
    assert SplitOptional(rest, '#') == (path, fragment) by {
      FindAfter(path, "#" + fragment, '#');
      assert rest == path + ("#" + fragment);
    }
    assert SplitOptional(path, '?') == (path, "");
    assert rest == [] || IsNetlocDelim(rest[0]);
    var url := scheme + "://" + netloc + path + "#" + fragment;
    assert url == scheme + "://" + netloc + rest;
    SplitHierarchical(scheme, netloc, rest);
    assert UrlSplit(url) == UrlSplit(scheme + "://" + netloc + rest);
  }

  /** `urlparse` of `scheme://netloc/path#fragment`, where the path holds no `#`, `?` or `;`. */
  lemma ParseWithFragment(scheme: string, netloc: string, path: string, fragment: string)
    requires PlainScheme(scheme) && PlainNetloc(netloc) && PlainText(path) && PlainText(fragment)
    requires path == [] || path[0] == '/'
    requires '#' !in path && '?' !in path && ';' !in path
    ensures UrlParse(scheme + "://" + netloc + path + "#" + fragment)
            == Some(UrlParts(scheme, netloc, path, "", "", fragment))
  {
    SplitWithFragment(scheme, netloc, path, fragment);
    ParseNoParams(scheme + "://" + netloc + path + "#" + fragment);
  }

  /** `urlparse` of `scheme://netloc/path`, where the path holds no `#`, `?` or `;`. */
  lemma ParsePlain(scheme: string, netloc: string, path: string)
    requires PlainScheme(scheme) && PlainNetloc(netloc) && PlainText(path)
    requires path == [] || path[0] == '/'
    requires '#' !in path && '?' !in path && ';' !in path
    ensures UrlParse(scheme + "://" + netloc + path) == Some(UrlParts(scheme, netloc, path, "", "", ""))
  {
    SplitHierarchical(scheme, netloc, path);
    assert SplitOptional(path, '#') == (path, "");
    assert SplitOptional(path, '?') == (path, "");
    ParseNoParams(scheme + "://" + netloc + path);
  }

  type Byte = b: int | 0 <= b < 256

  /** The UTF-8 encoding of one character. */
  function Utf8(c: char): (r: seq<Byte>)
    ensures 1 <= |r| <= 4
    ensures |r| == 1 <==> c < '\U{80}'
    ensures |r| == 1 ==> r[0] == c as int
  {
    var n := c as int;
    if n < 0x80 then [n]
    else if n < 0x800 then [0xC0 + n / 64, 0x80 + n % 64]
    else if n < 0x10000 then [0xE0 + n / 4096, 0x80 + n / 64 % 64, 0x80 + n % 64]
    else [0xF0 + n / 262144, 0x80 + n / 4096 % 64, 0x80 + n / 64 % 64, 0x80 + n % 64]
  }

  function Utf8Bytes(s: string): seq<Byte> {
    if s == [] then [] else Utf8(s[0]) + Utf8Bytes(s[1..])
  }

  /** Upper-case hex digit, as in `'%{:02X}'`. */
  function HexUpper(d: int): (c: char)
    requires 0 <= d < 16
  {
    if d < 10 then ('0' as int + d) as char else ('A' as int + d - 10) as char
  }

  function HexValue(c: char): Option<int> {
    if '0' <= c <= '9' then Some(c as int - '0' as int)
    else if 'A' <= c <= 'F' then Some(c as int - 'A' as int + 10)
    else if 'a' <= c <= 'f' then Some(c as int - 'a' as int + 10)
    else None
  }

  function PercentBytes(bs: seq<Byte>): (r: string)
    ensures |r| == 3 * |bs|
    ensures forall k :: 0 <= k < |r| ==> r[k] == '%' || IsAsciiDigit(r[k]) || ('A' <= r[k] <= 'F')
  {
    if bs == [] then "" else ['%', HexUpper(bs[0] / 16), HexUpper(bs[0] % 16)] + PercentBytes(bs[1..])
  }

  /** `_ALWAYS_SAFE`: letters, digits and `_.-~`. */
  predicate IsAlwaysSafe(c: char) {
    IsAsciiLetter(c) || IsAsciiDigit(c) || c == '_' || c == '.' || c == '-' || c == '~'
  }

  /** How `quote` writes one character; `safe` may only add ASCII characters. */
  function QuoteChar(c: char, safe: char -> bool): (r: string)
    ensures forall k :: 0 <= k < |r| ==> r[k] == '%' || IsAlwaysSafe(r[k]) || (r[k] < '\U{80}' && safe(r[k]))
  {
    if c < '\U{80}' && (IsAlwaysSafe(c) || safe(c)) then [c] else PercentBytes(Utf8(c))
  }

  /** `quote(s, safe=...)` */
  function Quote(s: string, safe: char -> bool): (r: string)
    ensures forall k :: 0 <= k < |r| ==> r[k] == '%' || IsAlwaysSafe(r[k]) || (r[k] < '\U{80}' && safe(r[k]))
  {
    if s == [] then "" else QuoteChar(s[0], safe) + Quote(s[1..], safe)
  }

  function NoneSafe(c: char): bool {
    false
  }

  function SpaceSafe(c: char): bool {
    c == ' '
  }

  /** `quote_plus(s)`: `safe=''` and a space becomes `+`. */
  function QuotePlus(s: string): (r: string)
    ensures forall k :: 0 <= k < |r| ==> r[k] == '%' || r[k] == '+' || IsAlwaysSafe(r[k])
  {
    ReplaceChar(Quote(s, SpaceSafe), ' ', '+')
  }

  /** A percent-encoded string cannot break out of a URL component: it holds no separator of any kind. */
  lemma QuotePlusNoSeparators(s: string)
    ensures forall k :: 0 <= k < |QuotePlus(s)| ==>
      QuotePlus(s)[k] !in {'&', '=', '#', '?', '/', ' ', '\\', ':'}
  {
  }

  /** Reads `%XX` escapes and plain ASCII characters back into bytes. */
  function PercentDecode(t: string): Option<seq<Byte>> {
    if t == [] then Some([])
    else if t[0] == '%' then
      if |t| >= 3 && HexValue(t[1]).Some? && HexValue(t[2]).Some? then
        match PercentDecode(t[3..])
        case Some(rest) => Some([16 * HexValue(t[1]).value + HexValue(t[2]).value] + rest)
        case None => None
      else None
    else if t[0] < '\U{80}' then
      match PercentDecode(t[1..])
      case Some(rest) => Some([t[0] as int] + rest)
      case None => None
    else None
  }

  lemma {:induction false} DecodePercentBytes(bs: seq<Byte>, t: string)
    ensures PercentDecode(PercentBytes(bs) + t) ==
            if PercentDecode(t).Some? then Some(bs + PercentDecode(t).value) else None
  {
    if bs != [] {
      var u := PercentBytes(bs) + t;
      var b := bs[0];
      assert u == ['%', HexUpper(b / 16), HexUpper(b % 16)] + (PercentBytes(bs[1..]) + t);
      assert u[3..] == PercentBytes(bs[1..]) + t;
      assert HexValue(HexUpper(b / 16)) == Some(b / 16);
      assert HexValue(HexUpper(b % 16)) == Some(b % 16);
      DecodePercentBytes(bs[1..], t);
      assert 16 * (b / 16) + b % 16 == b;
      if PercentDecode(t).Some? {
        assert bs + PercentDecode(t).value == [b] + (bs[1..] + PercentDecode(t).value);
      }
    } else {
      assert PercentBytes(bs) + t == t;
      if PercentDecode(t).Some? { assert bs + PercentDecode(t).value == PercentDecode(t).value; }
    }
  }

  /** Decoding the escapes of `quote(s, safe)` gives back the UTF-8 bytes of `s`, so distinct strings
      are quoted differently as far as their bytes differ. */
  lemma {:induction false} QuoteDecodes(s: string, safe: char -> bool)
    requires !safe('%')
    ensures PercentDecode(Quote(s, safe)) == Some(Utf8Bytes(s))
  {
    if s != [] {
      QuoteDecodes(s[1..], safe);
      var c := s[0];
      var rest := Quote(s[1..], safe);
      if c < '\U{80}' && (IsAlwaysSafe(c) || safe(c)) {
        assert c != '%' by { assert !IsAlwaysSafe('%'); }
        assert ([c] + rest)[1..] == rest;
      } else {
        DecodePercentBytes(Utf8(c), rest);
      }
    }
  }
}
