/** The URL and deduplication logic of the scraping spider (scraper/spiders/action.py). Page rendering,
    CSS selection and request scheduling are outside the model: a search page is given as the list of its
    result items, and `urljoin` is a parameter. */
module ActionSpider {
  import opened Wrappers
  import opened Text
  import opened Urls

  const DefaultSections: seq<string> := ["recommendations", "law", "forms", "handbook", "press"]

  /** The default of the `search_limit` argument (line 21). */
  const DefaultSearchLimit := 10

  /** `BLOCK_LINK_SUBSTRINGS` */
  const AnalyticsSubstrings: seq<string> := ["mc.yandex", "metrika.yandex"]

  /** `STATIC_EXTS` */
  const StaticExtensions: seq<string> := [".png", ".jpg", ".jpeg", ".svg", ".css", ".woff", ".woff2"]

  const AuthCheckLong := "/auth/check-backend/api/v2/auth_check"
  const AuthCheckShort := "/auth_check"

  // ---------------------------------------------------------------- sections

  /** The comma-separated pieces, stripped, lower-cased, without the blank ones. */
  function NormalizeSections(pieces: seq<string>): (r: seq<string>)
    ensures |r| <= |pieces|
    ensures forall k :: 0 <= k < |r| ==> r[k] != ""
  {
    if pieces == [] then []
    else
      var s := Strip(pieces[0]);
      (if s != "" then [Lower(s)] else []) + NormalizeSections(pieces[1..])
  }

  /** A section name occurs in the result exactly when some piece strips to a non-blank text whose
      lower-case form it is. */
  lemma {:induction false} NormalizeSectionsMembers(pieces: seq<string>, x: string)
    ensures x in NormalizeSections(pieces) <==>
      exists k :: 0 <= k < |pieces| && Strip(pieces[k]) != "" && x == Lower(Strip(pieces[k]))
  {
    if pieces != [] {
      var rest := pieces[1..];
      NormalizeSectionsMembers(rest, x);
      if exists k :: 0 <= k < |rest| && Strip(rest[k]) != "" && x == Lower(Strip(rest[k])) {
        var k :| 0 <= k < |rest| && Strip(rest[k]) != "" && x == Lower(Strip(rest[k]));
        assert pieces[k + 1] == rest[k];
      }
      if exists k :: 0 <= k < |pieces| && Strip(pieces[k]) != "" && x == Lower(Strip(pieces[k])) {
        var k :| 0 <= k < |pieces| && Strip(pieces[k]) != "" && x == Lower(Strip(pieces[k]));
        if k > 0 {
          assert rest[k - 1] == pieces[k];
        }
      }
    }
  }

  /** The pieces are normalised one by one and in order: normalising a concatenation concatenates the
      results. */
  lemma {:induction false} NormalizeSectionsConcat(a: seq<string>, b: seq<string>)
    ensures NormalizeSections(a + b) == NormalizeSections(a) + NormalizeSections(b)
  {
    if a == [] {
      assert a + b == b;
    } else {
      assert (a + b)[0] == a[0];
      assert (a + b)[1..] == a[1..] + b;
      NormalizeSectionsConcat(a[1..], b);
    }
  }

  /** `self.sections` (line 33): the default sections for a missing or empty argument. */
  function ParseSections(sections: Option<string>): (r: seq<string>)
    ensures sections.None? || sections.value == "" ==> r == DefaultSections
    ensures forall k :: 0 <= k < |r| ==> r[k] != ""
  {
    if sections.None? || sections.value == "" then DefaultSections
    else NormalizeSections(Split(sections.value, ','))
  }

  /** A section name as the spider stores it. */
  predicate IsSectionName(name: string) {
    name != "" && ',' !in name && Strip(name) == name && Lower(name) == name
  }

  lemma {:induction false} NormalizeNames(names: seq<string>)
    requires forall k :: 0 <= k < |names| ==> IsSectionName(names[k])
    ensures NormalizeSections(names) == names
  {
    if names != [] {
      NormalizeNames(names[1..]);
      assert [names[0]] + names[1..] == names;
    }
  }

  lemma {:induction false} JoinStartsWith(parts: seq<string>, sep: string)
    requires |parts| >= 1
    ensures StartsWith(Join(parts, sep), parts[0])
  {
  }

  /** Sections written out comma-separated are read back as they were. */
  lemma ParseSectionsRoundTrip(names: seq<string>)
    requires |names| >= 1
    requires forall k :: 0 <= k < |names| ==> IsSectionName(names[k])
    ensures ParseSections(Some(Join(names, ","))) == names
  {
    JoinNonEmpty(names);
    ParseNonEmpty(Join(names, ","));
    SplitJoin(names, ',');
    NormalizeNames(names);
  }

  lemma ParseNonEmpty(s: string)
    requires s != ""
    ensures ParseSections(Some(s)) == NormalizeSections(Split(s, ','))
  {
  }

  lemma JoinNonEmpty(names: seq<string>)
    requires |names| >= 1 && names[0] != ""
    ensures Join(names, ",") != ""
  {
    JoinStartsWith(names, ",");
  }

  // ---------------------------------------------------------------- direct content URLs

  /** The document reference a URL carries (lines 50-57): its fragment without leading slashes, or a
      path `/#/...` or `/document/...`. */
  function Candidate(p: UrlParts): string {
    var fromFragment := LStripChar(p.fragment, '/');
    if fromFragment != "" then fromFragment
    else if StartsWith(p.path, "/#/") then LStripChar(p.path[3..], '/')
    else if StartsWith(p.path, "/document/") then LStripChar(p.path, '/')
    else ""
  }

  /** The reference `document/<mod>/<id>` and the SPA fragment `/document/<mod>/<id>` that carries it. */
  function DocumentReference(mod: string, id: string): string {
    "document/" + mod + "/" + id
  }

  /** The direct content URL of document `id` in module `mod` (line 62). */
  function DirectUrl(scheme: string, netloc: string, mod: string, id: string): string {
    scheme + "://" + netloc + DirectPath(mod, id)
  }

  function DirectPath(mod: string, id: string): string {
    "/system/content/doc/" + mod + "/" + id + "/"
  }

  /** `_to_direct_content_url` (lines 43-65); a `ValueError` from `urlparse` gives the input back. */
  function ToDirectContentUrl(url: string): string {
    match UrlParse(url)
    case None => url
    case Some(p) => RewriteParsed(url, p)
  }

  /** Lines 50-63 once `urlparse` has succeeded. */
  function RewriteParsed(url: string, p: UrlParts): string {
    var candidate := Candidate(p);
    if StartsWith(candidate, "document/") then
      var parts := Split(candidate, '/');
      if |parts| >= 3 then DirectUrl(p.scheme, p.netloc, parts[1], parts[2]) else url
    else url
  }

  lemma SplitDocumentReference(mod: string, id: string, rest: string)
    requires '/' !in mod && '/' !in id && (rest == "" || rest[0] == '/')
    ensures var parts := Split(DocumentReference(mod, id) + rest, '/');
      |parts| >= 3 && parts[1] == mod && parts[2] == id
  {
    assert DocumentReference(mod, id) + rest == "document" + ['/'] + (mod + ['/'] + (id + rest));
    SplitSegments("document", mod, id, rest);
  }

  /** The first three `/`-separated segments of `head/mod/id` followed by nothing or by `/...`. */
  lemma SplitSegments(head: string, mod: string, id: string, rest: string)
    requires '/' !in head && '/' !in mod && '/' !in id && (rest == "" || rest[0] == '/')
    ensures var parts := Split(head + ['/'] + (mod + ['/'] + (id + rest)), '/');
      |parts| >= 3 && parts[0] == head && parts[1] == mod && parts[2] == id
  {
    assert Split(id + rest, '/')[0] == id by {
      if rest == "" {
        assert id + rest == id;
        SplitNoSep(id, '/');
      } else {
        assert id + rest == id + ['/'] + rest[1..];
        SplitCons(id, '/', rest[1..]);
      }
    }
    SplitCons(mod, '/', id + rest);
    SplitCons(head, '/', mod + ['/'] + (id + rest));
  }

  lemma DocumentPrefix(mod: string, id: string, rest: string)
    ensures StartsWith(DocumentReference(mod, id) + rest, "document/")
  {
    var c := DocumentReference(mod, id) + rest;
    assert c[..9] == "document/";
  }

  lemma RewriteDocument(url: string, p: UrlParts, mod: string, id: string, rest: string)
    requires Candidate(p) == DocumentReference(mod, id) + rest
    requires '/' !in mod && '/' !in id && (rest == "" || rest[0] == '/')
    ensures RewriteParsed(url, p) == DirectUrl(p.scheme, p.netloc, mod, id)
  {
    SplitDocumentReference(mod, id, rest);
    DocumentPrefix(mod, id, rest);
  }

  /** A document reference `document/<mod>/<id>[/...]` is rewritten to the direct content URL. */
  lemma ToDirectRewrites(url: string, mod: string, id: string, rest: string)
    requires UrlParse(url).Some?
    requires Candidate(UrlParse(url).value) == DocumentReference(mod, id) + rest
    requires '/' !in mod && '/' !in id && (rest == "" || rest[0] == '/')
    ensures var p := UrlParse(url).value; ToDirectContentUrl(url) == DirectUrl(p.scheme, p.netloc, mod, id)
  {
    RewriteDocument(url, UrlParse(url).value, mod, id, rest);
  }

  lemma RewriteOther(url: string, p: UrlParts)
    requires !StartsWith(Candidate(p), "document/")
    ensures RewriteParsed(url, p) == url
  {
  }

  /** Anything but a document reference, and any URL `urlparse` rejects, is returned unchanged. */
  lemma ToDirectKeeps(url: string)
    requires UrlParse(url).None? || !StartsWith(Candidate(UrlParse(url).value), "document/")
    ensures ToDirectContentUrl(url) == url
  {
    if UrlParse(url).Some? {
      RewriteOther(url, UrlParse(url).value);
    }
  }

  lemma RewriteShort(url: string, p: UrlParts, mod: string)
    requires Candidate(p) == "document/" + mod && '/' !in mod
    ensures RewriteParsed(url, p) == url
  {
    assert "document/" + mod == "document" + ['/'] + mod;
    SplitCons("document", '/', mod);
    SplitNoSep(mod, '/');
  }

  /** `document/<mod>` with no further slash is not rewritten. */
  lemma ToDirectNeedsId(url: string, mod: string)
    requires UrlParse(url).Some? && Candidate(UrlParse(url).value) == "document/" + mod && '/' !in mod
    ensures ToDirectContentUrl(url) == url
  {
    RewriteShort(url, UrlParse(url).value, mod);
  }

  lemma NoHashPrefix(path: string)
    requires '#' !in path
    ensures !StartsWith(path, "/#/")
  {
    if |path| >= 3 {
      assert path[..3][1] == path[1];
    }
  }

  /** `urlparse` never leaves a `#` in the path, so the `/#/` branch at line 54 is never taken. */
  lemma HashPathUnreachable(url: string)
    requires UrlParse(url).Some?
    ensures !StartsWith(UrlParse(url).value.path, "/#/")
  {
    NoHashPrefix(UrlParse(url).value.path);
  }

  lemma DirectPathNoReference(url: string, scheme: string, netloc: string, mod: string, id: string)
    ensures RewriteParsed(url, UrlParts(scheme, netloc, DirectPath(mod, id), "", "", "")) == url
  {
    var path := DirectPath(mod, id);
    assert path[1] == 's';
    assert !StartsWith(path, "/#/") && !StartsWith(path, "/document/");
    assert LStripChar("", '/') == "";
  }

  /** Direct content URLs are fixed points: rewriting one changes nothing. */
  lemma ToDirectIdempotent(scheme: string, netloc: string, mod: string, id: string)
    requires PlainScheme(scheme) && PlainNetloc(netloc)
    requires PlainText(mod) && PlainText(id) && '/' !in mod && '/' !in id
    requires '#' !in mod && '?' !in mod && ';' !in mod && '#' !in id && '?' !in id && ';' !in id
    ensures ToDirectContentUrl(DirectUrl(scheme, netloc, mod, id)) == DirectUrl(scheme, netloc, mod, id)
  {
    var url := DirectUrl(scheme, netloc, mod, id);
    var path := DirectPath(mod, id);
    assert PlainText(path) && '#' !in path && '?' !in path && ';' !in path && path[0] == '/';
    ParsePlain(scheme, netloc, path);
    DirectPathNoReference(url, scheme, netloc, mod, id);
  }

  function HashUrl(scheme: string, netloc: string, mod: string, id: string): string {
    scheme + "://" + netloc + "/" + "#" + ("/" + DocumentReference(mod, id))
  }

  lemma HashCandidate(scheme: string, netloc: string, mod: string, id: string)
    ensures Candidate(UrlParts(scheme, netloc, "/", "", "", "/" + DocumentReference(mod, id)))
            == DocumentReference(mod, id) + ""
  {
    var r := DocumentReference(mod, id);
    var f := "/" + r;
    assert f[1..] == r;
    assert r[0] == 'd';
    LStripNoop(r, x => x == '/');
    assert r + "" == r;
  }

  /** The SPA form of a document link is rewritten to its direct content URL, as in the example at lines
      45-46 (`https`, `1jur.ru`, module `98`, document `103491141`). */
  lemma ToDirectFromHash(scheme: string, netloc: string, mod: string, id: string)
    requires PlainScheme(scheme) && PlainNetloc(netloc)
    requires PlainText(mod) && PlainText(id) && '/' !in mod && '/' !in id
    ensures ToDirectContentUrl(HashUrl(scheme, netloc, mod, id)) == DirectUrl(scheme, netloc, mod, id)
  {
    var url := HashUrl(scheme, netloc, mod, id);
    var fragment := "/" + DocumentReference(mod, id);
    assert PlainText(fragment);
    ParseWithFragment(scheme, netloc, "/", fragment);
    HashCandidate(scheme, netloc, mod, id);
    RewriteDocument(url, UrlParts(scheme, netloc, "/", "", "", fragment), mod, id, "");
  }

  // ---------------------------------------------------------------- search URLs

  /** Every search page is the site root, a `?`, and an SPA fragment. */
  const SiteRoot := "https://1gl.ru/"
  const SearchPrefix := SiteRoot + "?#/"
  const SearchFlags := "ishiddensearch=false&isusehints=false&"

  /** The path and region filter of each known section (lines 70-74). */
  function SectionFilter(section: string): Option<string> {
    if section == "recommendations" then Some("recommendations/found/fixedregioncode=all&")
    else if section == "law" then Some("law/found/clearregions=true&")
    else if section == "forms" then Some("forms/found/fixedregioncode=all&")
    else if section == "handbook" then Some("handbook/found/fixedregioncode=all&")
    else if section == "press" then Some("press/found/clearregions=true&")
    else None
  }

  /** The last two query parameters of every search page: the phrase and the sort order. */
  function PhraseParam(encoded: string): string {
    "phrase=" + encoded + "&sort=Relevance/"
  }

  /** The search page of one section, or `None` for an unknown section (lines 69-75). */
  function SearchUrl(section: string, encoded: string): Option<string> {
    match SectionFilter(section)
    case None => None
    case Some(filter) => Some(SearchPrefix + filter + SearchFlags + PhraseParam(encoded))
  }

  /** The search pages of the known sections, in section order. */
  function SearchUrls(encoded: string, sections: seq<string>): (r: seq<string>)
    ensures |r| <= |sections|
  {
    if sections == [] then []
    else
      var last := SearchUrl(sections[|sections| - 1], encoded);
      SearchUrls(encoded, sections[..|sections| - 1]) + (if last.Some? then [last.value] else [])
  }

  /** The known sections are exactly the default ones. */
  lemma KnownSections(section: string, encoded: string)
    ensures SearchUrl(section, encoded).Some? <==> section in DefaultSections
  {
  }

  lemma EndsWithConcat(a: string, b: string)
    ensures EndsWith(a + b, b)
  {
    assert (a + b)[|a|..] == b;
  }

  /** Every search page ends with the `phrase` parameter holding the encoded phrase, and the encoded
      phrase holds no `&`, `#`, `=` or `/` that could end that parameter early. */
  lemma SearchUrlEmbedsPhrase(section: string, phrase: string)
    requires SearchUrl(section, QuotePlus(phrase)).Some?
    ensures EndsWith(SearchUrl(section, QuotePlus(phrase)).value, PhraseParam(QuotePlus(phrase)))
    ensures '&' !in QuotePlus(phrase) && '#' !in QuotePlus(phrase) && '=' !in QuotePlus(phrase) && '/' !in QuotePlus(phrase)
  {
    var encoded := QuotePlus(phrase);
    EndsWithConcat(SearchPrefix + SectionFilter(section).value + SearchFlags, PhraseParam(encoded));
    QuotePlusNoSeparators(phrase);
  }

  /** Sections that are all known give one page each, in order. */
  lemma {:induction false} SearchUrlsKnown(encoded: string, sections: seq<string>)
    requires forall k :: 0 <= k < |sections| ==> sections[k] in DefaultSections
    ensures |SearchUrls(encoded, sections)| == |sections|
    ensures forall k :: 0 <= k < |sections| ==> SearchUrls(encoded, sections)[k] == SearchUrl(sections[k], encoded).value
  {
    if sections != [] {
      var n := |sections| - 1;
      var init := sections[..n];
      SearchUrlsKnown(encoded, init);
      AllKnown(encoded, sections);
      var r := SearchUrls(encoded, sections);
      SearchUrlsSnocKnown(encoded, sections);
      forall k | 0 <= k < |sections|
        ensures r[k] == SearchUrl(sections[k], encoded).value
      {
        if k < n {
          assert sections[k] == init[k];
        }
      }
    }
  }

  lemma AllKnown(encoded: string, sections: seq<string>)
    requires forall k :: 0 <= k < |sections| ==> sections[k] in DefaultSections
    ensures forall k :: 0 <= k < |sections| ==> SearchUrl(sections[k], encoded).Some?
  {
    forall k | 0 <= k < |sections|
      ensures SearchUrl(sections[k], encoded).Some?
    {
      KnownSections(sections[k], encoded);
    }
  }

  lemma SearchUrlsSnocKnown(encoded: string, sections: seq<string>)
    requires sections != [] && SearchUrl(sections[|sections| - 1], encoded).Some?
    ensures SearchUrls(encoded, sections)
            == SearchUrls(encoded, sections[..|sections| - 1]) + [SearchUrl(sections[|sections| - 1], encoded).value]
  {
  }

  /** The default sections give all five search pages. */
  lemma DefaultSearchUrls(encoded: string)
    ensures |SearchUrls(encoded, DefaultSections)| == 5
  {
    SearchUrlsKnown(encoded, DefaultSections);
  }

  /** One search page per known section, unknown ones skipped: the pages of a concatenation are the
      concatenated pages. */
  lemma {:induction false} SearchUrlsConcat(encoded: string, a: seq<string>, b: seq<string>)
    ensures SearchUrls(encoded, a + b) == SearchUrls(encoded, a) + SearchUrls(encoded, b)
  {
    if b != [] {
      assert (a + b)[..|a + b| - 1] == a + b[..|b| - 1];
      assert (a + b)[|a + b| - 1] == b[|b| - 1];
      SearchUrlsConcat(encoded, a, b[..|b| - 1]);
    } else {
      assert a + b == a;
    }
  }

  /** `_build_search_urls` (lines 67-80). */
  method BuildSearchUrls(phrase: string, sections: seq<string>) returns (urls: seq<string>)
    ensures urls == SearchUrls(QuotePlus(phrase), sections)
  {
    var encoded := QuotePlus(phrase);
    urls := [];
    for i := 0 to |sections|
      invariant urls == SearchUrls(encoded, sections[..i])
    {
      assert sections[..i + 1][..i] == sections[..i];
      var url := SearchUrl(sections[i], encoded);
      if url.Some? {
        urls := urls + [url.value];
      }
    }
    assert sections[..|sections|] == sections;
  }

  // ---------------------------------------------------------------- request blocking

  predicate EndsWithAny(s: string, suffixes: seq<string>) {
    exists k :: 0 <= k < |suffixes| && EndsWith(s, suffixes[k])
  }

  /** `_route_blocking` as a decision (lines 82-102): true means the request is aborted. A missing URL
      reads as the empty string. */
  function RouteBlocked(url: Option<string>, resourceType: Option<string>): bool {
    var u := Lower(url.GetOr(""));
    if Contains(u, AnalyticsSubstrings[0]) || Contains(u, AnalyticsSubstrings[1]) then true
    else if Contains(u, AuthCheckLong) || Contains(u, AuthCheckShort) then true
    else if resourceType.Some? && resourceType.value in {"image", "media", "font", "stylesheet"} then true
    else EndsWithAny(BeforeFirst(u, '?'), StaticExtensions)
  }

  /** The long `auth_check` path contains the short one, so the first test at line 90 adds nothing. */
  lemma AuthCheckSubsumed(u: string)
    requires Contains(u, AuthCheckLong)
    ensures Contains(u, AuthCheckShort)
  {
    var i := ContainsIndex(u, AuthCheckLong);
    assert AuthCheckLong[26..] == AuthCheckShort;
    assert u[i + 26..i + 37] == u[i..i + 37][26..];
    ContainsAt(u, AuthCheckShort, i + 26);
  }

  /** One of the blocked substrings occurs in the lower-cased URL. */
  predicate HasBlockedSubstring(url: string) {
    var u := Lower(url);
    Contains(u, AnalyticsSubstrings[0]) || Contains(u, AnalyticsSubstrings[1]) || Contains(u, AuthCheckShort)
  }

  /** The decision does not depend on the case of the URL. */
  lemma RouteBlockedCaseInsensitive(url: string, resourceType: Option<string>)
    ensures RouteBlocked(Some(url), resourceType) == RouteBlocked(Some(Lower(url)), resourceType)
  {
    LowerIdempotent(url);
  }

  /** The extension test sees the lower-cased part before the first `?`. */
  lemma ExtensionTestPath(path: string, query: string)
    requires '?' !in path
    ensures BeforeFirst(Lower(path + "?" + query), '?') == Lower(path)
  {
    var lp, lq := Lower(path), Lower(query);
    LowerAppend(path + "?", query);
    LowerAppend(path, "?");
    assert Lower("?") == "?";
    LowerKeeps(path, '?');
    assert lp + "?" + lq == lp + ("?" + lq);
    FindAfter(lp, "?" + lq, '?');
    assert (lp + ("?" + lq))[..|lp|] == lp;
  }

  /** For a request of a type that is not blocked and without a blocked substring, the decision is
      whether the path ends with a static extension: an extension in the query string, as in
      `...?logo=a.png`, does not block it. */
  lemma QueryExtensionIgnored(path: string, query: string, resourceType: Option<string>)
    requires '?' !in path
    requires !HasBlockedSubstring(path + "?" + query)
    requires !(resourceType.Some? && resourceType.value in {"image", "media", "font", "stylesheet"})
    ensures RouteBlocked(Some(path + "?" + query), resourceType) == EndsWithAny(Lower(path), StaticExtensions)
  {
    var u := Lower(path + "?" + query);
    if Contains(u, AuthCheckLong) {
      AuthCheckSubsumed(u);
    }
    ExtensionTestPath(path, query);
  }

  /** A text ending in `/` ends in no static extension. */
  lemma SlashEndNoExtension(s: string)
    requires s != [] && s[|s| - 1] == '/'
    ensures !EndsWithAny(s, StaticExtensions)
  {
    forall k | 0 <= k < |StaticExtensions| ensures !EndsWith(s, StaticExtensions[k]) {
      var e := StaticExtensions[k];
      assert e[|e| - 1] != '/';
    }
  }

  /** A search page splits at its first `?` into the site root and the fragment. */
  lemma SearchUrlShape(section: string, encoded: string)
    requires SearchUrl(section, encoded).Some?
    ensures SearchUrl(section, encoded).value
            == SiteRoot + "?" + ("#/" + SectionFilter(section).value + SearchFlags + PhraseParam(encoded))
  {
    var f := SectionFilter(section).value;
    Regroup(SiteRoot, f, SearchFlags, PhraseParam(encoded));
  }

  lemma Regroup(root: string, f: string, flags: string, phrase: string)
    ensures root + "?#/" + f + flags + phrase == root + "?" + ("#/" + f + flags + phrase)
  {
    assert "?#/" == "?" + "#/";
  }

  /** A `document` request for a URL `root?query` whose root holds no `?` and ends in `/` is aborted only
      for a blocked substring. */
  lemma RootedDecision(root: string, query: string)
    requires '?' !in root && root != [] && root[|root| - 1] == '/'
    ensures RouteBlocked(Some(root + "?" + query), Some("document")) == HasBlockedSubstring(root + "?" + query)
  {
    var l := Lower(root);
    LowerAt(root);
    assert l[|l| - 1] == '/';
    SlashEndNoExtension(l);
    var u := Lower(root + "?" + query);
    if Contains(u, AuthCheckLong) {
      AuthCheckSubsumed(u);
    }
    ExtensionTestPath(root, query);
  }

  /** A `document` request for a search page of the spider is aborted only for a blocked substring: before
      its `?` stands only the site root, which has no static extension. */
  lemma SearchUrlDecision(section: string, encoded: string)
    requires SearchUrl(section, encoded).Some?
    ensures var u := SearchUrl(section, encoded).value;
      RouteBlocked(Some(u), Some("document")) == HasBlockedSubstring(u)
  {
    SearchUrlShape(section, encoded);
    RootedDecision(SiteRoot, "#/" + SectionFilter(section).value + SearchFlags + PhraseParam(encoded));
  }

  /** A `document` request for a direct content URL whose parts hold no `?` is aborted only for a blocked
      substring: the URL ends in `/`. */
  lemma DirectUrlDecision(scheme: string, netloc: string, mod: string, id: string)
    requires '?' !in DirectUrl(scheme, netloc, mod, id)
    ensures var u := DirectUrl(scheme, netloc, mod, id);
      RouteBlocked(Some(u), Some("document")) == HasBlockedSubstring(u)
  {
    var u := DirectUrl(scheme, netloc, mod, id);
    var l := Lower(u);
    LowerKeeps(u, '?');
    LowerAt(u);
    assert u[|u| - 1] == '/';
    assert l[|l| - 1] == '/';
    SlashEndNoExtension(l);
    if Contains(l, AuthCheckLong) {
      AuthCheckSubsumed(l);
    }
  }

  // ---------------------------------------------------------------- search result pages

  /** One result item of a search page: the title link, the fallback document link, the title text and
      the description text, each as the selector returned it. */
  datatype SearchItem = SearchItem(titleHref: Option<string>, documentHref: Option<string>,
                                   title: Option<string>, description: Option<string>)

  /** A page request scheduled by `parse_search`, with the metadata it carries. */
  datatype PageRequest = PageRequest(url: string, originalUrl: string, searchTitle: string,
                                     searchDescription: string, rank: nat)

  /** How `parse_search` resolves a link: the page's `scheme://netloc`, `urljoin`, and the rewriting to a
      direct content URL. */
  datatype Links = Links(base: string, join: (string, string) -> string, direct: string -> string)

  /** The state `parse_search` threads through its loop. */
  datatype ScanState = ScanState(requests: seq<PageRequest>, seenLocal: set<string>,
                                 seenUrls: set<string>, seenDirect: set<string>)

  /** The link an item contributes, if any (lines 192-199). */
  function ItemHref(item: SearchItem): Option<string> {
    if item.titleHref.Some? && item.titleHref.value != "" then item.titleHref
    else if item.documentHref.Some? && item.documentHref.value != "" then item.documentHref
    else None
  }

  /** The SPA URL of a link (line 201). */
  function SpaUrl(href: string, links: Links): string {
    links.join(links.base + "/", LStripChar(href, '/'))
  }

  /** The request that the item of rank `rank` (counted from 1) yields before deduplication, or `None`
      when there is no such item or it has no link (lines 191-201 and 213-221). */
  function ItemRequest(items: seq<SearchItem>, rank: nat, links: Links): Option<PageRequest> {
    if 1 <= rank <= |items| then
      var item := items[rank - 1];
      match ItemHref(item)
      case None => None
      case Some(href) =>
        var spa := SpaUrl(href, links);
        Some(PageRequest(links.direct(spa), spa, Strip(item.title.GetOr("")), Strip(item.description.GetOr("")), rank))
    else None
  }

  /** One loop iteration (lines 192-211) at index `i`: `None` when the item is skipped. */
  function Step(items: seq<SearchItem>, i: nat, links: Links, st: ScanState): Option<ScanState> {
    match ItemRequest(items, i + 1, links)
    case None => None
    case Some(req) =>
      if req.originalUrl in st.seenLocal || req.originalUrl in st.seenUrls then None
      else if req.url in st.seenDirect then None
      else Some(ScanState(st.requests + [req], st.seenLocal + {req.originalUrl},
                          st.seenUrls + {req.originalUrl}, st.seenDirect + {req.url}))
  }

  /** The loop of `parse_search` from item `i` on; it stops once `limit > 0` requests were sent. */
  function Scan(items: seq<SearchItem>, i: nat, links: Links, limit: int, st: ScanState): ScanState
    decreases |items| - i
  {
    if i >= |items| then st
    else
      match Step(items, i, links, st)
      case None => Scan(items, i + 1, links, limit, st)
      case Some(next) =>
        if limit > 0 && |next.requests| >= limit then next
        else Scan(items, i + 1, links, limit, next)
  }

  function OriginalUrls(requests: seq<PageRequest>): set<string> {
    if requests == [] then {} else OriginalUrls(requests[..|requests| - 1]) + {requests[|requests| - 1].originalUrl}
  }

  function DirectUrls(requests: seq<PageRequest>): set<string> {
    if requests == [] then {} else DirectUrls(requests[..|requests| - 1]) + {requests[|requests| - 1].url}
  }

  function LastRank(requests: seq<PageRequest>): nat {
    if requests == [] then 0 else requests[|requests| - 1].rank
  }

  lemma {:induction false} InOriginalUrls(requests: seq<PageRequest>, u: string)
    ensures u in OriginalUrls(requests) <==> exists k :: 0 <= k < |requests| && requests[k].originalUrl == u
  {
    if requests != [] {
      InOriginalUrls(requests[..|requests| - 1], u);
    }
  }

  lemma {:induction false} InDirectUrls(requests: seq<PageRequest>, u: string)
    ensures u in DirectUrls(requests) <==> exists k :: 0 <= k < |requests| && requests[k].url == u
  {
    if requests != [] {
      InDirectUrls(requests[..|requests| - 1], u);
    }
  }

  /** Each request's SPA URL and direct URL were unseen when it was made. */
  ghost predicate Unseen(requests: seq<PageRequest>, seenUrls0: set<string>, seenDirect0: set<string>) {
    requests == [] ||
    (var init := requests[..|requests| - 1];
     var last := requests[|requests| - 1];
     Unseen(init, seenUrls0, seenDirect0)
     && last.originalUrl !in seenUrls0 + OriginalUrls(init) && last.url !in seenDirect0 + DirectUrls(init))
  }

  /** Each request was made from the item at its rank, and ranks increase. */
  ghost predicate Made(requests: seq<PageRequest>, items: seq<SearchItem>, links: Links) {
    requests == [] ||
    (var init := requests[..|requests| - 1];
     var last := requests[|requests| - 1];
     Made(init, items, links) && LastRank(init) < last.rank && ItemRequest(items, last.rank, links) == Some(last))
  }

  /** The seen sets hold the initial ones plus exactly the requested URLs. */
  ghost predicate Tracked(st: ScanState, seenUrls0: set<string>, seenDirect0: set<string>) {
    st.seenLocal == OriginalUrls(st.requests) && st.seenUrls == seenUrls0 + OriginalUrls(st.requests)
    && st.seenDirect == seenDirect0 + DirectUrls(st.requests)
  }

  ghost predicate ScanInv(items: seq<SearchItem>, i: nat, links: Links, st: ScanState,
                          seenUrls0: set<string>, seenDirect0: set<string>) {
    Tracked(st, seenUrls0, seenDirect0) && Unseen(st.requests, seenUrls0, seenDirect0)
    && Made(st.requests, items, links) && LastRank(st.requests) <= i
  }

  lemma SnocUrls(requests: seq<PageRequest>, req: PageRequest)
    ensures (requests + [req])[..|requests|] == requests && (requests + [req])[|requests|] == req
    ensures OriginalUrls(requests + [req]) == OriginalUrls(requests) + {req.originalUrl}
    ensures DirectUrls(requests + [req]) == DirectUrls(requests) + {req.url}
    ensures LastRank(requests + [req]) == req.rank
  {
    assert (requests + [req])[..|requests|] == requests;
  }

  /** A request appended to requests made from earlier items, from the item at its rank. */
  lemma MadeSnoc(requests: seq<PageRequest>, items: seq<SearchItem>, links: Links, req: PageRequest)
    requires Made(requests, items, links) && LastRank(requests) < req.rank
    requires ItemRequest(items, req.rank, links) == Some(req)
    ensures Made(requests + [req], items, links)
  {
    SnocUrls(requests, req);
  }

  lemma UnseenSnoc(requests: seq<PageRequest>, req: PageRequest, seenUrls0: set<string>, seenDirect0: set<string>)
    requires Unseen(requests, seenUrls0, seenDirect0)
    requires req.originalUrl !in seenUrls0 + OriginalUrls(requests) && req.url !in seenDirect0 + DirectUrls(requests)
    ensures Unseen(requests + [req], seenUrls0, seenDirect0)
  {
    SnocUrls(requests, req);
  }

  lemma StepPreserves(items: seq<SearchItem>, i: nat, links: Links, st: ScanState,
                      seenUrls0: set<string>, seenDirect0: set<string>)
    requires i < |items| && ScanInv(items, i, links, st, seenUrls0, seenDirect0)
    requires Step(items, i, links, st).Some?
    ensures var next := Step(items, i, links, st).value;
      ScanInv(items, i + 1, links, next, seenUrls0, seenDirect0)
      && |next.requests| == |st.requests| + 1
  {
    var req := ItemRequest(items, i + 1, links).value;
    var next := Step(items, i, links, st).value;
    assert next.requests == st.requests + [req];
    SnocUrls(st.requests, req);
    MadeSnoc(st.requests, items, links, req);
    UnseenSnoc(st.requests, req, seenUrls0, seenDirect0);
  }

  /** What the loop guarantees of its final state. */
  ghost predicate ScanOut(items: seq<SearchItem>, links: Links, limit: int, r: ScanState,
                          seenUrls0: set<string>, seenDirect0: set<string>) {
    Tracked(r, seenUrls0, seenDirect0) && Unseen(r.requests, seenUrls0, seenDirect0) && Made(r.requests, items, links)
    && (limit > 0 ==> |r.requests| <= limit)
  }

  lemma {:induction false} ScanPreserves(items: seq<SearchItem>, i: nat, links: Links, limit: int, st: ScanState,
                                         seenUrls0: set<string>, seenDirect0: set<string>)
    requires ScanInv(items, i, links, st, seenUrls0, seenDirect0)
    requires limit > 0 ==> |st.requests| < limit
    ensures ScanOut(items, links, limit, Scan(items, i, links, limit, st), seenUrls0, seenDirect0)
    decreases |items| - i
  {
    if i < |items| {
      var step := Step(items, i, links, st);
      if step.None? {
        ScanSkip(items, i, links, limit, st);
        ScanPreserves(items, i + 1, links, limit, st, seenUrls0, seenDirect0);
      } else {
        var next := step.value;
        ScanTake(items, i, links, limit, st, next);
        StepPreserves(items, i, links, st, seenUrls0, seenDirect0);
        if !(limit > 0 && |next.requests| >= limit) {
          ScanPreserves(items, i + 1, links, limit, next, seenUrls0, seenDirect0);
        }
      }
    }
  }

  /** No request repeats a SPA URL or a direct URL of another, and none was seen before. */
  lemma {:induction false} UnseenMeans(requests: seq<PageRequest>, seenUrls0: set<string>, seenDirect0: set<string>)
    requires Unseen(requests, seenUrls0, seenDirect0)
    ensures forall k :: 0 <= k < |requests| ==> requests[k].originalUrl !in seenUrls0 && requests[k].url !in seenDirect0
    ensures forall k, l :: 0 <= k < l < |requests| ==>
      requests[k].originalUrl != requests[l].originalUrl && requests[k].url != requests[l].url
  {
    if requests != [] {
      var n := |requests| - 1;
      var init := requests[..n];
      UnseenMeans(init, seenUrls0, seenDirect0);
      InOriginalUrls(init, requests[n].originalUrl);
      InDirectUrls(init, requests[n].url);
      assert forall k :: 0 <= k < n ==> requests[k] == init[k];
    }
  }

  /** Every request comes from the item at its rank, and ranks strictly increase. */
  lemma {:induction false} MadeFrom(requests: seq<PageRequest>, items: seq<SearchItem>, links: Links)
    requires Made(requests, items, links)
    ensures forall k :: 0 <= k < |requests| ==> ItemRequest(items, requests[k].rank, links) == Some(requests[k])
  {
    if requests != [] {
      var n := |requests| - 1;
      var init := requests[..n];
      MadeFrom(init, items, links);
      forall k | 0 <= k < n
        ensures ItemRequest(items, requests[k].rank, links) == Some(requests[k])
      {
        assert requests[k] == init[k];
      }
    }
  }

  lemma {:induction false} MadeRanks(requests: seq<PageRequest>, items: seq<SearchItem>, links: Links)
    requires Made(requests, items, links)
    ensures forall k, l :: 0 <= k < l < |requests| ==> requests[k].rank < requests[l].rank
  {
    if requests != [] {
      var n := |requests| - 1;
      var init := requests[..n];
      MadeRanks(init, items, links);
      forall k, l | 0 <= k < l < |requests|
        ensures requests[k].rank < requests[l].rank
      {
        assert requests[k] == init[k];
        if l < n {
          assert requests[l] == init[l];
        } else if k < n - 1 {
          assert init[k].rank < init[n - 1].rank;
        }
      }
    }
  }

  lemma ScanSkip(items: seq<SearchItem>, i: nat, links: Links, limit: int, st: ScanState)
    requires i < |items| && Step(items, i, links, st).None?
    ensures Scan(items, i, links, limit, st) == Scan(items, i + 1, links, limit, st)
  {
  }

  lemma ScanTake(items: seq<SearchItem>, i: nat, links: Links, limit: int, st: ScanState, next: ScanState)
    requires i < |items| && Step(items, i, links, st) == Some(next)
    ensures Scan(items, i, links, limit, st)
            == if limit > 0 && |next.requests| >= limit then next else Scan(items, i + 1, links, limit, next)
  {
  }

  lemma StepNoLink(items: seq<SearchItem>, i: nat, links: Links, st: ScanState)
    requires i < |items| && ItemHref(items[i]).None?
    ensures Step(items, i, links, st).None?
  {
  }

  lemma StepSeen(items: seq<SearchItem>, i: nat, links: Links, st: ScanState, req: PageRequest)
    requires ItemRequest(items, i + 1, links) == Some(req)
    requires req.originalUrl in st.seenLocal || req.originalUrl in st.seenUrls || req.url in st.seenDirect
    ensures Step(items, i, links, st).None?
  {
  }

  lemma StepFresh(items: seq<SearchItem>, i: nat, links: Links, st: ScanState, req: PageRequest)
    requires ItemRequest(items, i + 1, links) == Some(req)
    requires req.originalUrl !in st.seenLocal && req.originalUrl !in st.seenUrls && req.url !in st.seenDirect
    ensures Step(items, i, links, st) == Some(ScanState(st.requests + [req], st.seenLocal + {req.originalUrl},
                                                        st.seenUrls + {req.originalUrl}, st.seenDirect + {req.url}))
  {
  }

  /** The limit of `search_limit` that `parse_search` applies: none unless positive (line 189). */
  function PageLimit(searchLimit: int): int {
    if searchLimit > 0 then searchLimit else 0
  }

  /** What one call of `parse_search` yields, starting from the spider's seen sets. */
  function ParseSearchResult(items: seq<SearchItem>, links: Links, searchLimit: int,
                             seenUrls: set<string>, seenDirect: set<string>): ScanState {
    Scan(items, 0, links, PageLimit(searchLimit), ScanState([], {}, seenUrls, seenDirect))
  }

  /** One call of `parse_search` requests no URL twice and none seen before, respects a positive limit,
      requests only URLs of items that have a link, with item ranks in increasing order, and records
      exactly what it requested in the seen sets. */
  lemma ParseSearchSpec(items: seq<SearchItem>, links: Links, searchLimit: int,
                        seenUrls: set<string>, seenDirect: set<string>)
    ensures var r := ParseSearchResult(items, links, searchLimit, seenUrls, seenDirect);
      (forall k :: 0 <= k < |r.requests| ==> r.requests[k].originalUrl !in seenUrls && r.requests[k].url !in seenDirect)
      && (forall k, l :: 0 <= k < l < |r.requests| ==>
            r.requests[k].originalUrl != r.requests[l].originalUrl && r.requests[k].url != r.requests[l].url)
      && (forall k :: 0 <= k < |r.requests| ==> ItemRequest(items, r.requests[k].rank, links) == Some(r.requests[k]))
      && (forall k, l :: 0 <= k < l < |r.requests| ==> r.requests[k].rank < r.requests[l].rank)
      && (searchLimit > 0 ==> |r.requests| <= searchLimit)
      && r.seenUrls == seenUrls + OriginalUrls(r.requests) && r.seenDirect == seenDirect + DirectUrls(r.requests)
  {
    var st := ScanState([], {}, seenUrls, seenDirect);
    ScanPreserves(items, 0, links, PageLimit(searchLimit), st, seenUrls, seenDirect);
    var r := ParseSearchResult(items, links, searchLimit, seenUrls, seenDirect);
    UnseenMeans(r.requests, seenUrls, seenDirect);
    MadeFrom(r.requests, items, links);
    MadeRanks(r.requests, items, links);
  }

  /** The loop only adds to the seen sets and sends at most one request per item. */
  lemma {:induction false} ScanGrows(items: seq<SearchItem>, i: nat, links: Links, limit: int, st: ScanState)
    requires limit > 0 ==> |st.requests| < limit
    ensures var r := Scan(items, i, links, limit, st);
      st.seenUrls <= r.seenUrls && st.seenDirect <= r.seenDirect && |st.requests| <= |r.requests|
      && (limit > 0 ==> |r.requests| <= limit)
    decreases |items| - i
  {
    if i < |items| {
      var step := Step(items, i, links, st);
      if step.None? {
        ScanSkip(items, i, links, limit, st);
        ScanGrows(items, i + 1, links, limit, st);
      } else {
        var next := step.value;
        ScanTake(items, i, links, limit, st, next);
        if !(limit > 0 && |next.requests| >= limit) {
          ScanGrows(items, i + 1, links, limit, next);
        }
      }
    }
  }

  /** A linked item at or after index `i` ends with its SPA URL or its direct URL in the seen sets,
      unless the loop stopped at the limit first. */
  lemma {:induction false} ScanCovers(items: seq<SearchItem>, i: nat, links: Links, limit: int, st: ScanState,
                                      j: nat, req: PageRequest)
    requires limit > 0 ==> |st.requests| < limit
    requires st.seenLocal <= st.seenUrls
    requires i <= j < |items| && ItemRequest(items, j + 1, links) == Some(req)
    ensures var r := Scan(items, i, links, limit, st);
      req.originalUrl in r.seenUrls || req.url in r.seenDirect || (limit > 0 && |r.requests| == limit)
    decreases |items| - i
  {
    var step := Step(items, i, links, st);
    if step.None? {
      ScanSkip(items, i, links, limit, st);
      if i == j {
        ScanGrows(items, i + 1, links, limit, st);
      } else {
        ScanCovers(items, i + 1, links, limit, st, j, req);
      }
    } else {
      var next := step.value;
      ScanTake(items, i, links, limit, st, next);
      var here := ItemRequest(items, i + 1, links).value;
      assert next.requests == st.requests + [here];
      if limit > 0 && |next.requests| >= limit {
        assert |next.requests| == limit;
      } else if i == j {
        ScanGrows(items, i + 1, links, limit, next);
      } else {
        ScanCovers(items, i + 1, links, limit, next, j, req);
      }
    }
  }

  /** One call of `parse_search` requests every linked item whose SPA URL and direct URL were not seen
      before: some request shares its SPA URL or its direct URL (an earlier item of the page may have
      claimed either), unless a positive limit was reached first. */
  lemma ParseSearchComplete(items: seq<SearchItem>, links: Links, searchLimit: int,
                            seenUrls: set<string>, seenDirect: set<string>, i: nat, req: PageRequest)
    requires i < |items| && ItemRequest(items, i + 1, links) == Some(req)
    requires req.originalUrl !in seenUrls && req.url !in seenDirect
    ensures var r := ParseSearchResult(items, links, searchLimit, seenUrls, seenDirect);
      (exists k :: 0 <= k < |r.requests| && (r.requests[k].originalUrl == req.originalUrl || r.requests[k].url == req.url))
      || (searchLimit > 0 && |r.requests| == searchLimit)
  {
    var st := ScanState([], {}, seenUrls, seenDirect);
    var r := ParseSearchResult(items, links, searchLimit, seenUrls, seenDirect);
    ScanCovers(items, 0, links, PageLimit(searchLimit), st, i, req);
    ParseSearchSpec(items, links, searchLimit, seenUrls, seenDirect);
    InOriginalUrls(r.requests, req.originalUrl);
    InDirectUrls(r.requests, req.url);
  }

  /** Two successive search pages never request the same SPA URL or the same direct URL. */
  lemma NoRepeatAcrossPages(items1: seq<SearchItem>, items2: seq<SearchItem>, links1: Links, links2: Links,
                            searchLimit: int, seenUrls: set<string>, seenDirect: set<string>)
    ensures var r1 := ParseSearchResult(items1, links1, searchLimit, seenUrls, seenDirect);
      var r2 := ParseSearchResult(items2, links2, searchLimit, r1.seenUrls, r1.seenDirect);
      forall k, l :: 0 <= k < |r1.requests| && 0 <= l < |r2.requests| ==>
        r1.requests[k].originalUrl != r2.requests[l].originalUrl && r1.requests[k].url != r2.requests[l].url
  {
    var r1 := ParseSearchResult(items1, links1, searchLimit, seenUrls, seenDirect);
    var r2 := ParseSearchResult(items2, links2, searchLimit, r1.seenUrls, r1.seenDirect);
    ParseSearchSpec(items1, links1, searchLimit, seenUrls, seenDirect);
    ParseSearchSpec(items2, links2, searchLimit, r1.seenUrls, r1.seenDirect);
    forall k, l | 0 <= k < |r1.requests| && 0 <= l < |r2.requests|
      ensures r1.requests[k].originalUrl != r2.requests[l].originalUrl && r1.requests[k].url != r2.requests[l].url
    {
      InOriginalUrls(r1.requests, r1.requests[k].originalUrl);
      InDirectUrls(r1.requests, r1.requests[k].url);
    }
  }

  // ---------------------------------------------------------------- the spider

  /** The spider's configuration and its cross-section deduplication sets. */
  class Spider {
    var username: string
    var password: string
    var pageUrl: Option<string>
    var traverseSearch: bool
    var phrase: Option<string>
    var searchLimit: int
    var sections: seq<string>
    var seenUrls: set<string>
    var seenDirectUrls: set<string>

    /** `__init__` (lines 14-41): a non-empty phrase forces search traversal, and `search_limit=None` is 0.
        A caller that omits the limit passes `Some(DefaultSearchLimit)`. */
    constructor(username: string, password: string, pageUrl: Option<string>, traverseSearch: bool,
                phrase: Option<string>, searchLimit: Option<int>, sections: Option<string>)
      ensures this.username == username && this.password == password && this.pageUrl == pageUrl
      ensures this.phrase == phrase
      ensures this.traverseSearch == (traverseSearch || (phrase.Some? && phrase.value != ""))
      ensures this.searchLimit == searchLimit.GetOr(0)
      ensures this.sections == ParseSections(sections)
      ensures seenUrls == {} && seenDirectUrls == {}
    {
      this.username := username;
      this.password := password;
      this.pageUrl := pageUrl;
      this.traverseSearch := traverseSearch;
      this.phrase := phrase;
      this.searchLimit := searchLimit.GetOr(0);
      this.sections := ParseSections(sections);
      seenUrls := {};
      seenDirectUrls := {};
      if phrase.Some? && phrase.value != "" {
        this.traverseSearch := true;
      }
    }

    /** `parse_search` (lines 180-233) over the result items of the page at `responseUrl`; `None` is the
        `ValueError` that `urlparse` raises for the response URL before anything is yielded. */
    method ParseSearch(responseUrl: string, items: seq<SearchItem>, join: (string, string) -> string)
      returns (requests: Option<seq<PageRequest>>)
      modifies this`seenUrls, this`seenDirectUrls
      ensures UrlParse(responseUrl).None? ==>
                requests.None? && seenUrls == old(seenUrls) && seenDirectUrls == old(seenDirectUrls)
      ensures UrlParse(responseUrl).Some? ==>
                var p := UrlParse(responseUrl).value;
                var links := Links(p.scheme + "://" + p.netloc, join, ToDirectContentUrl);
                var r := ParseSearchResult(items, links, searchLimit, old(seenUrls), old(seenDirectUrls));
                requests == Some(r.requests) && seenUrls == r.seenUrls && seenDirectUrls == r.seenDirect
    {
      var parsed := UrlParse(responseUrl);
      if parsed.None? {
        return None;
      }
      var base := parsed.value.scheme + "://" + parsed.value.netloc;
      ghost var links := Links(base, join, ToDirectContentUrl);
      var limit := PageLimit(searchLimit);
      ghost var spec := Scan(items, 0, links, limit, ScanState([], {}, seenUrls, seenDirectUrls));
      var seenLocal: set<string> := {};
      var sent: seq<PageRequest> := [];
      var i := 0;
      while i < |items|
        invariant 0 <= i <= |items|
        invariant spec == Scan(items, i, links, limit, ScanState(sent, seenLocal, seenUrls, seenDirectUrls))
        decreases |items| - i
      {
        ghost var st := ScanState(sent, seenLocal, seenUrls, seenDirectUrls);
        var item := items[i];
        var href := item.titleHref;
        if href.None? || href.value == "" {
          href := item.documentHref;
        }
        if href.None? || href.value == "" {
          StepNoLink(items, i, links, st);
          ScanSkip(items, i, links, limit, st);
          i := i + 1;
          continue;
        }
        var fullSpa := join(base + "/", LStripChar(href.value, '/'));
        var direct := ToDirectContentUrl(fullSpa);
        var title := Strip(item.title.GetOr(""));
        var description := Strip(item.description.GetOr(""));
        var req := PageRequest(direct, fullSpa, title, description, i + 1);
        assert ItemRequest(items, i + 1, links) == Some(req);
        if fullSpa in seenLocal || fullSpa in seenUrls || direct in seenDirectUrls {
          StepSeen(items, i, links, st, req);
          ScanSkip(items, i, links, limit, st);
          i := i + 1;
          continue;
        }
        StepFresh(items, i, links, st, req);
        ScanTake(items, i, links, limit, st, ScanState(sent + [req], seenLocal + {fullSpa}, seenUrls + {fullSpa},
                                                      seenDirectUrls + {direct}));
        seenLocal := seenLocal + {fullSpa};
        seenUrls := seenUrls + {fullSpa};
        seenDirectUrls := seenDirectUrls + {direct};
        sent := sent + [req];
        if limit > 0 && |sent| >= limit {
          return Some(sent);
        }
        i := i + 1;
      }
      return Some(sent);
    }
  }
}
