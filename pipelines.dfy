/** The item pipelines of the scraper (searchers/action_scraper/pipelines.py): the in-memory collector
    and the choice of the file name that `ScraperPipeline` saves an item under. Writing the file is
    outside the model. */
module Pipelines {
  import opened Wrappers
  import opened Text
  import opened Json
  import opened Urls
  import ActionSpider

  /** A scraped item: its fields and their values. */
  type Item = map<string, Json>

  /** `InMemoryPipeline` (lines 13-26). */
  class InMemoryPipeline {
    var items: seq<Item>

    constructor()
      ensures items == []
    {
      items := [];
    }

    /** `process_item`: stores a copy of the item and hands the item on unchanged. */
    method ProcessItem(item: Item) returns (r: Item)
      modifies this
      ensures items == old(items) + [item]
      ensures r == item
    {
      items := items + [item];
      r := item;
    }

    /** `get_items`: the items in arrival order. */
    function GetItems(): seq<Item>
      reads this
    {
      items
    }
  }

  /** Python truthiness of a decoded value. */
  predicate Truthy(v: Json) {
    match v
    case JNull => false
    case JBool(b) => b
    case JNum(n) => n != 0
    case JStr(s) => s != ""
    case JArr(items) => items != []
    case JObj(fields) => fields != []
  }

  /** `adapter.get(key)`: `None` for a missing field. */
  function GetField(item: Item, key: string): Option<Json> {
    if key in item then Some(item[key]) else None
  }

  predicate IsTruthy(v: Option<Json>) {
    v.Some? && Truthy(v.value)
  }

  /** Python's `a or b`. */
  function Or(a: Option<Json>, b: Option<Json>): (r: Option<Json>)
    ensures IsTruthy(r) <==> IsTruthy(a) || IsTruthy(b)
  {
    if IsTruthy(a) then a else b
  }

  /** The second-level label of a host (line 54-55): the next-to-last dot-separated label of the network
      location without its port, or the only label. */
  function SecondLevelDomain(netloc: string): (sld: string)
    ensures '.' !in sld
  {
    var hostParts := Split(BeforeFirst(netloc, ':'), '.');
    SplitPieces(BeforeFirst(netloc, ':'), '.');
    if |hostParts| >= 2 then hostParts[|hostParts| - 2] else hostParts[0]
  }

  /** For a host written as dot-separated labels, with or without a `:port`, the second-level label is
      the next-to-last label, or the only one. */
  lemma SecondLevelDomainOfLabels(labels: seq<string>, port: string)
    requires |labels| >= 1
    requires forall k :: 0 <= k < |labels| ==> '.' !in labels[k] && ':' !in labels[k]
    requires port == "" || port[0] == ':'
    ensures SecondLevelDomain(Join(labels, ".") + port)
            == if |labels| >= 2 then labels[|labels| - 2] else labels[0]
  {
    var host := Join(labels, ".");
    assert BeforeFirst(host + port, ':') == host by {
      JoinAvoids(labels, ".", ':');
      BeforePort(host, port);
    }
    assert Split(host, '.') == labels by {
      SplitJoin(labels, '.');
    }
    SecondLevelDomainOf(host + port, host, labels);
  }

  lemma SecondLevelDomainOf(netloc: string, host: string, labels: seq<string>)
    requires BeforeFirst(netloc, ':') == host && Split(host, '.') == labels
    ensures SecondLevelDomain(netloc) == if |labels| >= 2 then labels[|labels| - 2] else labels[0]
  {
  }

  /** The host part of `host + port` is `host` when the port is empty or starts with `:`. */
  lemma BeforePort(host: string, port: string)
    requires ':' !in host
    requires port == "" || port[0] == ':'
    ensures BeforeFirst(host + port, ':') == host
  {
    if port == "" {
      assert host + port == host;
    } else {
      FindAfter(host, port, ':');
      assert (host + port)[..|host|] == host;
    }
  }

  /** The shape of the example of line 53 (`1gl.ru` and `www.1gl.ru` both give `1gl`): a name under a
      top-level label gives the name, with or without a subdomain in front and a port behind. */
  lemma SecondLevelDomainExample(sub: string, name: string, tld: string, port: string)
    requires '.' !in sub && ':' !in sub && '.' !in name && ':' !in name && '.' !in tld && ':' !in tld
    requires port == "" || port[0] == ':'
    ensures SecondLevelDomain(name + "." + tld) == name
    ensures SecondLevelDomain(sub + "." + name + "." + tld + port) == name
  {
    var two := [name, tld];
    var three := [sub, name, tld];
    assert two[1..] == [tld] && three[1..] == two;
    SecondLevelDomainOfLabels(two, "");
    assert Join(two, ".") + "" == name + "." + tld;
    SecondLevelDomainOfLabels(three, port);
    assert Join(three, ".") + port == sub + "." + name + "." + tld + port;
  }

  /** The path segments that `_build_filename` inspects (line 57). */
  function PathParts(path: string): seq<string> {
    Split(StripChar(path, '/'), '/')
  }

  /** The pattern file name `<sld>-<mod>-<id>.json` (line 63). */
  function PatternName(sld: string, mod: string, id: string): string {
    sld + "-" + mod + "-" + id + ".json"
  }

  /** `_build_filename` once the URL is parsed (lines 54-65). */
  function FilenameFromParts(netloc: string, path: string): Option<string> {
    var sld := SecondLevelDomain(netloc);
    var parts := PathParts(path);
    if |parts| >= 5 && parts[0] == "system" && parts[1] == "content" && parts[2] == "doc"
       && sld != "" && parts[3] != "" && parts[4] != "" then
      Some(PatternName(sld, parts[3], parts[4]))
    else None
  }

  /** `_build_filename` (lines 50-65); a `ValueError` from `urlparse` gives `None`. */
  function BuildFilename(url: string): Option<string> {
    match UrlParse(url)
    case None => None
    case Some(p) => FilenameFromParts(p.netloc, p.path)
  }

  lemma SecondLevelDomainFlat(netloc: string)
    requires '/' !in netloc
    ensures '/' !in SecondLevelDomain(netloc)
  {
    var host := BeforeFirst(netloc, ':');
    BeforeFirstChars(netloc, ':');
    assert '/' !in host by {
      forall k | 0 <= k < |host| ensures host[k] != '/' {
        assert host[k] == netloc[k];
      }
    }
    SplitPieceChars(host, '.');
  }

  lemma FilenameFromPartsFlat(netloc: string, path: string)
    requires '/' !in netloc
    ensures FilenameFromParts(netloc, path).Some? ==>
      '/' !in FilenameFromParts(netloc, path).value && EndsWith(FilenameFromParts(netloc, path).value, ".json")
  {
    var sld := SecondLevelDomain(netloc);
    var parts := PathParts(path);
    if |parts| >= 5 && parts[0] == "system" && parts[1] == "content" && parts[2] == "doc"
       && sld != "" && parts[3] != "" && parts[4] != "" {
      SecondLevelDomainFlat(netloc);
      SplitPieces(StripChar(path, '/'), '/');
      var name := PatternName(sld, parts[3], parts[4]);
      assert name[|name| - 5..] == ".json";
    }
  }

  /** A pattern file name is a plain `.json` name, free of `/`. */
  lemma BuildFilenameFlat(url: string)
    ensures BuildFilename(url).Some? ==> '/' !in BuildFilename(url).value && EndsWith(BuildFilename(url).value, ".json")
  {
    var p := UrlParse(url);
    if p.Some? {
      assert forall k :: 0 <= k < |p.value.netloc| ==> !IsNetlocDelim(p.value.netloc[k]);
      FilenameFromPartsFlat(p.value.netloc, p.value.path);
    }
  }

  lemma BeforeFirstChars(s: string, c: char)
    ensures forall k :: 0 <= k < |BeforeFirst(s, c)| ==> BeforeFirst(s, c)[k] == s[k]
  {
  }

  /** Every piece of a split holds only characters of the input. */
  lemma {:induction false} SplitPieceChars(s: string, d: char)
    ensures forall k, x :: 0 <= k < |Split(s, d)| && x in Split(s, d)[k] ==> x in s
  {
    if s != [] {
      SplitPieceChars(s[1..], d);
      var rest := Split(s[1..], d);
      assert forall x :: x in s[1..] ==> x in s;
      if s[0] != d {
        var r := Split(s, d);
        assert r[0] == [s[0]] + rest[0];
        forall k, x | 0 <= k < |r| && x in r[k] ensures x in s {
          if k > 0 {
            assert r[k] == rest[k];
          }
        }
      }
    }
  }

  /** The file name of a value used as a URL; `urlparse` of a non-string raises, which gives `None`. */
  function FilenameOf(url: Json): Option<string> {
    if url.JStr? then BuildFilename(url.s) else None
  }

  /** `quote(str(original_url), safe="") + ".json"` (line 82). */
  function FallbackFilename(original: Json): string {
    Quote(PyStr(original), NoneSafe) + ".json"
  }

  /** The file `process_item` saves an item under (lines 67-82), or `None` when it has no URL field
      and nothing is saved. */
  function SaveFilename(item: Item): Option<string> {
    var resolvedUrl := GetField(item, "resolved_url");
    var originalUrl := Or(Or(GetField(item, "url"), GetField(item, "original_url")), resolvedUrl);
    if !IsTruthy(originalUrl) then None
    else
      var urlForPattern := Or(resolvedUrl, originalUrl);
      var filename := FilenameOf(urlForPattern.value);
      if filename.Some? && filename.value != "" then filename else Some(FallbackFilename(originalUrl.value))
  }

  /** `ScraperPipeline.process_item` (lines 67-92): the item handed on and the file it is saved under. */
  function ProcessItem(item: Item): (r: (Item, Option<string>))
    ensures r.0 == item
  {
    (item, SaveFilename(item))
  }

  /** Nothing is saved exactly when no URL field is truthy. */
  lemma SaveFilenameNone(item: Item)
    ensures SaveFilename(item).None? <==>
      !IsTruthy(GetField(item, "url")) && !IsTruthy(GetField(item, "original_url"))
      && !IsTruthy(GetField(item, "resolved_url"))
  {
  }

  /** A saved item's file name, pattern or fallback, never contains a `/`: the file stays inside the data
      directory. */
  lemma SaveFilenameFlat(item: Item)
    requires SaveFilename(item).Some?
    ensures '/' !in SaveFilename(item).value
  {
    var resolvedUrl := GetField(item, "resolved_url");
    var originalUrl := Or(Or(GetField(item, "url"), GetField(item, "original_url")), resolvedUrl);
    var urlForPattern := Or(resolvedUrl, originalUrl);
    var filename := FilenameOf(urlForPattern.value);
    if filename.Some? && filename.value != "" {
      BuildFilenameFlat(urlForPattern.value.s);
    } else {
      var q := Quote(PyStr(originalUrl.value), NoneSafe);
      assert forall k :: 0 <= k < |q| ==> q[k] != '/';
      assert FallbackFilename(originalUrl.value) == q + ".json";
    }
  }

  /** When no pattern file name results, the name is the percent-encoded original URL with `.json`. */
  lemma SaveFilenameFallback(item: Item)
    requires SaveFilename(item).Some?
    requires var resolvedUrl := GetField(item, "resolved_url");
      var originalUrl := Or(Or(GetField(item, "url"), GetField(item, "original_url")), resolvedUrl);
      FilenameOf(Or(resolvedUrl, originalUrl).value).None?
    ensures SaveFilename(item) ==
      Some(FallbackFilename(Or(Or(GetField(item, "url"), GetField(item, "original_url")), GetField(item, "resolved_url")).value))
  {
  }

  lemma StripSlashes(mod: string, id: string)
    requires mod != "" && id != "" && '/' !in mod && '/' !in id
    ensures StripChar(ActionSpider.DirectPath(mod, id), '/') == "system/content/doc/" + mod + "/" + id
  {
    var inner := "system/content/doc/" + mod + "/" + id;
    var path := ActionSpider.DirectPath(mod, id);
    assert path == "/" + (inner + "/");
    assert LStrip(path, x => x == '/') == LStrip(inner + "/", x => x == '/') by {
      assert path[1..] == inner + "/";
    }
    assert inner + "/" != [] && (inner + "/")[0] == 's';
    assert LStrip(inner + "/", x => x == '/') == inner + "/";
    assert (inner + "/")[..|inner|] == inner;
    assert inner[|inner| - 1] == id[|id| - 1];
    assert RStrip(inner, x => x == '/') == inner;
  }

  /** The three fixed segments in front of a direct path. */
  lemma SplitDocPrefix(r: string)
    ensures Split("system/content/doc/" + r, '/') == ["system", "content", "doc"] + Split(r, '/')
  {
    SplitThree("system", "content", "doc", '/', r);
    assert "system/content/doc/" + r == "system" + ['/'] + ("content" + ['/'] + ("doc" + ['/'] + r));
  }

  lemma SplitThree(a: string, b: string, c: string, d: char, r: string)
    requires d !in a && d !in b && d !in c
    ensures Split(a + [d] + (b + [d] + (c + [d] + r)), d) == [a, b, c] + Split(r, d)
  {
    SplitCons(c, d, r);
    SplitCons(b, d, c + [d] + r);
    SplitCons(a, d, b + [d] + (c + [d] + r));
  }

  lemma SplitDirect(mod: string, id: string)
    requires '/' !in mod && '/' !in id
    ensures Split("system/content/doc/" + mod + "/" + id, '/') == ["system", "content", "doc", mod, id]
  {
    var m := mod + "/";
    var s := "system/content/doc/" + mod + "/" + id;
    assert s == "system/content/doc/" + (m + id);
    SplitDocPrefix(m + id);
    SplitNoSep(id, '/');
    SplitCons(mod, '/', id);
  }

  lemma PathPartsDirect(mod: string, id: string)
    requires mod != "" && id != "" && '/' !in mod && '/' !in id
    ensures PathParts(ActionSpider.DirectPath(mod, id)) == ["system", "content", "doc", mod, id]
  {
    StripSlashes(mod, id);
    SplitDirect(mod, id);
  }

  lemma FilenameFromDirectPath(netloc: string, mod: string, id: string)
    requires mod != "" && id != "" && '/' !in mod && '/' !in id
    requires SecondLevelDomain(netloc) != ""
    ensures FilenameFromParts(netloc, ActionSpider.DirectPath(mod, id)) == Some(PatternName(SecondLevelDomain(netloc), mod, id))
  {
    PathPartsDirect(mod, id);
  }

  lemma ParseDirect(scheme: string, netloc: string, mod: string, id: string)
    requires PlainScheme(scheme) && PlainNetloc(netloc)
    requires PlainText(mod) && PlainText(id) && '/' !in mod && '/' !in id
    requires '#' !in mod && '?' !in mod && ';' !in mod && '#' !in id && '?' !in id && ';' !in id
    ensures UrlParse(ActionSpider.DirectUrl(scheme, netloc, mod, id))
            == Some(UrlParts(scheme, netloc, ActionSpider.DirectPath(mod, id), "", "", ""))
  {
    var path := ActionSpider.DirectPath(mod, id);
    assert PlainText(path) && '#' !in path && '?' !in path && ';' !in path && path[0] == '/';
    ParsePlain(scheme, netloc, path);
  }

  /** A direct content URL that the spider derives is saved as `<sld>-<mod>-<id>.json`. */
  lemma BuildFilenameDirect(scheme: string, netloc: string, mod: string, id: string)
    requires PlainScheme(scheme) && PlainNetloc(netloc)
    requires PlainText(mod) && PlainText(id) && mod != "" && id != "" && '/' !in mod && '/' !in id
    requires '#' !in mod && '?' !in mod && ';' !in mod && '#' !in id && '?' !in id && ';' !in id
    requires SecondLevelDomain(netloc) != ""
    ensures BuildFilename(ActionSpider.DirectUrl(scheme, netloc, mod, id))
            == Some(PatternName(SecondLevelDomain(netloc), mod, id))
  {
    ParseDirect(scheme, netloc, mod, id);
    FilenameFromDirectPath(netloc, mod, id);
  }

  /** The SPA form `scheme://netloc/#/document/<mod>/<id>` carries no document path and gets no
      pattern file name. */
  lemma BuildFilenameHash(scheme: string, netloc: string, mod: string, id: string)
    requires PlainScheme(scheme) && PlainNetloc(netloc) && PlainText(mod) && PlainText(id)
    ensures BuildFilename(ActionSpider.HashUrl(scheme, netloc, mod, id)) == None
  {
    var fragment := "/" + ActionSpider.DocumentReference(mod, id);
    assert PlainText(fragment);
    ParseWithFragment(scheme, netloc, "/", fragment);
    assert StripChar("/", '/') == "" by {
      assert "/"[1..] == "";
    }
  }

  /** A truthy `resolved_url` whose pattern name exists decides the file name, whatever `url` holds. */
  lemma SaveFilenamePattern(item: Item, u: string)
    requires GetField(item, "resolved_url") == Some(JStr(u)) && u != ""
    requires BuildFilename(u).Some? && BuildFilename(u).value != ""
    ensures SaveFilename(item) == BuildFilename(u)
  {
    var resolvedUrl := GetField(item, "resolved_url");
    var originalUrl := Or(Or(GetField(item, "url"), GetField(item, "original_url")), resolvedUrl);
    assert IsTruthy(resolvedUrl) && IsTruthy(originalUrl);
    assert Or(resolvedUrl, originalUrl) == Some(JStr(u));
    assert FilenameOf(JStr(u)) == BuildFilename(u);
  }

  /** An item scraped from a direct content URL, with its SPA URL as `url`, is saved under the pattern
      name of the direct URL. */
  lemma SaveFilenameResolved(item: Item, scheme: string, netloc: string, mod: string, id: string)
    requires PlainScheme(scheme) && PlainNetloc(netloc)
    requires PlainText(mod) && PlainText(id) && mod != "" && id != "" && '/' !in mod && '/' !in id
    requires '#' !in mod && '?' !in mod && ';' !in mod && '#' !in id && '?' !in id && ';' !in id
    requires SecondLevelDomain(netloc) != ""
    requires GetField(item, "resolved_url") == Some(JStr(ActionSpider.DirectUrl(scheme, netloc, mod, id)))
    ensures SaveFilename(item) == Some(PatternName(SecondLevelDomain(netloc), mod, id))
  {
    var u := ActionSpider.DirectUrl(scheme, netloc, mod, id);
    BuildFilenameDirect(scheme, netloc, mod, id);
    assert u != "" by { assert |u| >= 3; }
    var name := PatternName(SecondLevelDomain(netloc), mod, id);
    assert name != "" by { assert |name| >= 5; }
    SaveFilenamePattern(item, u);
  }
}
