/** Strings with Python's built-in semantics: `strip`, `split`, `join`, `find`, `rfind`, `lower`, `in`. */
module Text {

  /** Python's `str.isspace()`: the characters that an argument-less `strip()` removes. */
  predicate IsWhitespace(c: char) {
    c == ' ' || ('\t' <= c <= '\r') || ('\U{1C}' <= c <= '\U{1F}') || c == '\U{85}' || c == '\U{A0}'
    || c == '\U{1680}' || ('\U{2000}' <= c <= '\U{200A}') || c == '\U{2028}' || c == '\U{2029}'
    || c == '\U{202F}' || c == '\U{205F}' || c == '\U{3000}'
  }

  /** Python's `not s.strip()`: nothing but whitespace. */
  predicate IsBlank(s: string) {
    forall i :: 0 <= i < |s| ==> IsWhitespace(s[i])
  }

  /** `s.lstrip(chars)` for the characters satisfying `drop` (see `LStripSpec`). */
  function LStrip(s: string, drop: char -> bool): (r: string)
    ensures |r| <= |s|
  {
    if s != [] && drop(s[0]) then LStrip(s[1..], drop) else s
  }

  /** `lstrip` removes a prefix of characters to drop, and what is left does not start with one. */
  lemma {:induction false} LStripSpec(s: string, drop: char -> bool)
    ensures var r := LStrip(s, drop);
      r == s[|s| - |r|..] && (forall i :: 0 <= i < |s| - |r| ==> drop(s[i])) && (r != [] ==> !drop(r[0]))
  {
    if s != [] && drop(s[0]) {
      LStripSpec(s[1..], drop);
    }
  }

  /** `s.rstrip(chars)` for the characters satisfying `drop` (see `RStripSpec`). */
  function RStrip(s: string, drop: char -> bool): (r: string)
    ensures |r| <= |s|
  {
    if s != [] && drop(s[|s| - 1]) then RStrip(s[..|s| - 1], drop) else s
  }

  /** `rstrip` removes a suffix of characters to drop, and what is left does not end with one. */
  lemma {:induction false} RStripSpec(s: string, drop: char -> bool)
    ensures var r := RStrip(s, drop);
      r == s[..|r|] && (forall i :: |r| <= i < |s| ==> drop(s[i])) && (r != [] ==> !drop(r[|r| - 1]))
  {
    if s != [] && drop(s[|s| - 1]) {
      RStripSpec(s[..|s| - 1], drop);
    }
  }

  /** Nothing is stripped from a string that does not start with a character to drop. */
  lemma LStripNoop(s: string, drop: char -> bool)
    requires s == [] || !drop(s[0])
    ensures LStrip(s, drop) == s
  {
  }

  /** `s.strip()` */
  function Strip(s: string): string {
    RStrip(LStrip(s, IsWhitespace), IsWhitespace)
  }

  /** `s.strip(c)` for a one-character argument. */
  function StripChar(s: string, c: char): string {
    RStrip(LStrip(s, x => x == c), x => x == c)
  }

  /** `s.lstrip(c)` for a one-character argument. */
  function LStripChar(s: string, c: char): string {
    LStrip(s, x => x == c)
  }

  /** A stripped string is empty exactly when the input is blank, and otherwise starts and ends with
      a non-whitespace character. */
  lemma StripBlank(s: string)
    ensures Strip(s) == [] <==> IsBlank(s)
    ensures Strip(s) != [] ==> !IsWhitespace(Strip(s)[0]) && !IsWhitespace(Strip(s)[|Strip(s)| - 1])
  {
    var l := LStrip(s, IsWhitespace);
    LStripSpec(s, IsWhitespace);
    RStripSpec(l, IsWhitespace);
    if l != [] {
      assert !IsWhitespace(l[0]);
      assert s[|s| - |l|] == l[0];
    }
  }

  /** Stripping a string whose ends are not whitespace changes nothing. */
  lemma StripUnchanged(s: string)
    requires s != [] ==> !IsWhitespace(s[0]) && !IsWhitespace(s[|s| - 1])
    ensures Strip(s) == s
  {
  }

  /** `s.split(d)` for a one-character separator: at least one piece. */
  function Split(s: string, d: char): (r: seq<string>)
    ensures |r| >= 1
  {
    if s == [] then [""]
    else
      var rest := Split(s[1..], d);
      if s[0] == d then [""] + rest else [[s[0]] + rest[0]] + rest[1..]
  }

  /** No piece of a split contains the separator. */
  lemma {:induction false} SplitPieces(s: string, d: char)
    ensures forall k :: 0 <= k < |Split(s, d)| ==> d !in Split(s, d)[k]
  {
    if s != [] {
      SplitPieces(s[1..], d);
    }
  }

  /** `sep.join(parts)` */
  function Join(parts: seq<string>, sep: string): string {
    if |parts| == 0 then ""
    else if |parts| == 1 then parts[0]
    else parts[0] + sep + Join(parts[1..], sep)
  }

  /** Joining the pieces of a split with the separator gives the original string back. */
  lemma {:induction false} JoinSplit(s: string, d: char)
    ensures Join(Split(s, d), [d]) == s
  {
    if s != [] {
      JoinSplit(s[1..], d);
      var rest := Split(s[1..], d);
      if s[0] == d {
        assert ([""] + rest)[1..] == rest;
        assert s == [d] + s[1..];
      } else {
        var r := [[s[0]] + rest[0]] + rest[1..];
        assert s == [s[0]] + s[1..];
        if |rest| > 1 {
          assert r[1..] == rest[1..];
          assert Join(rest, [d]) == rest[0] + [d] + Join(rest[1..], [d]);
        }
      }
    }
  }

  lemma {:induction false} SplitNoSep(p: string, d: char)
    requires d !in p
    ensures Split(p, d) == [p]
  {
    if p != [] {
      SplitNoSep(p[1..], d);
      assert p == [p[0]] + p[1..];
    }
  }

  lemma {:induction false} SplitCons(p: string, d: char, rest: string)
    requires d !in p
    ensures Split(p + [d] + rest, d) == [p] + Split(rest, d)
  {
    var s := p + [d] + rest;
    if p == [] {
      assert s[1..] == rest;
    } else {
      assert s[1..] == p[1..] + [d] + rest;
      SplitCons(p[1..], d, rest);
      assert [p[0]] + p[1..] == p;
    }
  }

  /** Splitting a join of separator-free pieces gives the pieces back. */
  lemma {:induction false} SplitJoin(parts: seq<string>, d: char)
    requires |parts| >= 1
    requires forall k :: 0 <= k < |parts| ==> d !in parts[k]
    ensures Split(Join(parts, [d]), d) == parts
  {
    if |parts| == 1 {
      SplitNoSep(parts[0], d);
    } else {
      SplitJoin(parts[1..], d);
      SplitCons(parts[0], d, Join(parts[1..], [d]));
      assert [parts[0]] + parts[1..] == parts;
    }
  }

  /** A character in neither the pieces nor the separator is not in their join. */
  lemma {:induction false} JoinAvoids(parts: seq<string>, sep: string, c: char)
    requires c !in sep
    requires forall k :: 0 <= k < |parts| ==> c !in parts[k]
    ensures c !in Join(parts, sep)
  {
    if |parts| >= 2 {
      JoinAvoids(parts[1..], sep, c);
    }
  }

  /** `s.find(c)`: the first index of `c`, or -1 (see `FindFirst`). */
  function Find(s: string, c: char): (i: int)
    ensures -1 <= i < |s|
    ensures i == -1 <==> c !in s
    ensures 0 <= i ==> s[i] == c
  {
    if s == [] then -1
    else if s[0] == c then 0
    else
      var j := Find(s[1..], c);
      assert s == [s[0]] + s[1..];
      if j == -1 then -1 else j + 1
  }

  /** No `c` precedes the index `find` returns. */
  lemma {:induction false} FindFirst(s: string, c: char)
    ensures Find(s, c) >= 0 ==> c !in s[..Find(s, c)]
  {
    if s != [] && s[0] != c {
      FindFirst(s[1..], c);
      var j := Find(s[1..], c);
      if j >= 0 {
        assert s[..j + 1] == [s[0]] + s[1..][..j];
      }
    }
  }

  /** `s.rfind(c)`: the last index of `c`, or -1 (see `RFindLast`). */
  function RFind(s: string, c: char): (i: int)
    ensures -1 <= i < |s|
    ensures i == -1 <==> c !in s
    ensures 0 <= i ==> s[i] == c
  {
    if s == [] then -1
    else if s[|s| - 1] == c then |s| - 1
    else
      assert s == s[..|s| - 1] + [s[|s| - 1]];
      RFind(s[..|s| - 1], c)
  }

  /** No `c` follows the index `rfind` returns. */
  lemma {:induction false} RFindLast(s: string, c: char)
    ensures RFind(s, c) >= 0 ==> c !in s[RFind(s, c) + 1..]
  {
    if s != [] && s[|s| - 1] != c {
      var t := s[..|s| - 1];
      RFindLast(t, c);
      var j := RFind(t, c);
      if j >= 0 {
        assert s[j + 1..] == t[j + 1..] + [s[|s| - 1]];
      }
    }
  }

  /** `s.split(c, 1)[0]`: everything before the first `c`. */
  function BeforeFirst(s: string, c: char): (r: string)
    ensures StartsWith(s, r) && c !in r
    ensures c in s ==> |r| < |s| && s[|r|] == c
    ensures c !in s ==> r == s
  {
    var i := Find(s, c);
    FindFirst(s, c);
    if i == -1 then s else s[..i]
  }

  predicate StartsWith(s: string, p: string) {
    |p| <= |s| && s[..|p|] == p
  }

  predicate EndsWith(s: string, p: string) {
    |p| <= |s| && s[|s| - |p|..] == p
  }

  /** Python's `sub in s`. */
  predicate Contains(s: string, sub: string) {
    StartsWith(s, sub) || (s != [] && Contains(s[1..], sub))
  }

  /** `sub in s` holds exactly when `sub` occurs at some index of `s`. */
  lemma {:induction false} ContainsAt(s: string, sub: string, i: nat)
    requires i + |sub| <= |s| && s[i..i + |sub|] == sub
    ensures Contains(s, sub)
  {
    if i > 0 {
      assert s[1..][i - 1..i - 1 + |sub|] == s[i..i + |sub|];
      ContainsAt(s[1..], sub, i - 1);
    }
  }

  /** When `p` holds no `c`, the first `c` of `p + q` is the first `c` of `q`, shifted past `p`. */
  lemma {:induction false} FindAfter(p: string, q: string, c: char)
    requires c !in p
    ensures Find(p + q, c) == (if c in q then |p| + Find(q, c) else -1)
  {
    if p != [] {
      assert (p + q)[1..] == p[1..] + q;
      FindAfter(p[1..], q, c);
    } else {
      assert p + q == q;
    }
  }

  /** When `q` holds no `c`, the last `c` of `p + q` is the last `c` of `p`. */
  lemma {:induction false} RFindBefore(p: string, q: string, c: char)
    requires c !in q
    ensures RFind(p + q, c) == RFind(p, c)
  {
    var s := p + q;
    if q != [] {
      assert s[..|s| - 1] == p + q[..|q| - 1];
      RFindBefore(p, q[..|q| - 1], c);
    } else {
      assert s == p;
    }
  }

  /** The first index at which `stop` holds, or `|s|`. */
  function FindAny(s: string, stop: char -> bool): (i: nat)
    ensures i <= |s|
    ensures forall k :: 0 <= k < i ==> !stop(s[k])
    ensures i < |s| ==> stop(s[i])
  {
    if s == [] || stop(s[0]) then 0 else 1 + FindAny(s[1..], stop)
  }

  lemma {:induction false} FindAnyAfter(p: string, q: string, stop: char -> bool)
    requires forall k :: 0 <= k < |p| ==> !stop(p[k])
    ensures FindAny(p + q, stop) == |p| + FindAny(q, stop)
  {
    if p != [] {
      assert (p + q)[1..] == p[1..] + q;
      FindAnyAfter(p[1..], q, stop);
    } else {
      assert p + q == q;
    }
  }

  /** An occurrence of `sub` in `s`, when `sub in s`. */
  lemma {:induction false} ContainsIndex(s: string, sub: string) returns (i: nat)
    requires Contains(s, sub)
    ensures i + |sub| <= |s| && s[i..i + |sub|] == sub
  {
    if StartsWith(s, sub) {
      i := 0;
    } else {
      var j := ContainsIndex(s[1..], sub);
      i := j + 1;
      assert s[1..][j..j + |sub|] == s[i..i + |sub|];
    }
  }

  /** `c.lower()` on ASCII; other characters are kept. */
  function LowerChar(c: char): char {
    if 'A' <= c <= 'Z' then (c as int + 32) as char else c
  }

  /** `s.lower()` on ASCII letters. */
  function Lower(s: string): (r: string)
    ensures |r| == |s|
  {
    if s == [] then [] else [LowerChar(s[0])] + Lower(s[1..])
  }

  /** Lower-casing works character by character. */
  lemma {:induction false} LowerAt(s: string)
    ensures forall k :: 0 <= k < |s| ==> Lower(s)[k] == LowerChar(s[k])
  {
    if s != [] {
      LowerAt(s[1..]);
      assert forall k :: 1 <= k < |s| ==> Lower(s)[k] == Lower(s[1..])[k - 1];
    }
  }

  lemma {:induction false} LowerAppend(a: string, b: string)
    ensures Lower(a + b) == Lower(a) + Lower(b)
  {
    if a == [] {
      assert a + b == b;
    } else {
      assert (a + b)[1..] == a[1..] + b;
      LowerAppend(a[1..], b);
    }
  }

  /** Lower-casing twice is lower-casing once. */
  lemma LowerIdempotent(s: string)
    ensures Lower(Lower(s)) == Lower(s)
  {
    LowerAt(s);
    LowerAt(Lower(s));
  }

  /** A character that is not an ASCII letter is in the lower-cased text exactly when it is in the
      text. */
  lemma LowerKeeps(s: string, c: char)
    requires !('a' <= c <= 'z') && !('A' <= c <= 'Z')
    ensures c in Lower(s) <==> c in s
  {
    LowerAt(s);
    if c in Lower(s) {
      var k :| 0 <= k < |s| && Lower(s)[k] == c;
      assert s[k] == c;
    }
    if c in s {
      var k :| 0 <= k < |s| && s[k] == c;
      assert Lower(s)[k] == c;
    }
  }

  /** `s.replace(a, b)` for one-character arguments. */
  function ReplaceChar(s: string, a: char, b: char): (r: string)
    ensures |r| == |s|
    ensures forall i :: 0 <= i < |s| ==> r[i] == (if s[i] == a then b else s[i])
  {
    seq(|s|, i requires 0 <= i < |s| => if s[i] == a then b else s[i])
  }

  function DigitChar(d: nat): char
    requires d < 10
  {
    "0123456789"[d]
  }

  /** `str(n)` for a natural number. */
  function NatToString(n: nat): string {
    if n < 10 then [DigitChar(n)] else NatToString(n / 10) + [DigitChar(n % 10)]
  }

  /** `str(n)` for an integer. */
  function IntToString(n: int): string {
    if n < 0 then "-" + NatToString(-n) else NatToString(n)
  }
}
