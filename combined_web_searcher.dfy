/** The result aggregator (searchers/combined_web_searcher.py): one search over several providers,
    merged in provider order with exact-URL deduplication. A provider is an oracle from the query and
    `num_results` to what its call gives. */
module CombinedWebSearcher {
  import opened Wrappers

  /** One search result, a dict of string fields (`title`, `url`, `content`, ...). */
  type SearchDoc = map<string, string>

  /** What one provider call gives: the results iterated before the call returned or raised, and whether
      it raised. A provider that raises inside `search` itself has no results. */
  datatype Outcome = Outcome(items: seq<SearchDoc>, raised: bool)

  type Provider = (string, int) -> Outcome

  /** A combined searcher over a non-empty list of providers. */
  datatype Searcher = Searcher(searchers: seq<Provider>)

  /** The `ValueError` of the constructor. */
  datatype ConfigError = NoProviders

  /** `CombinedWebSearcher.__init__` (lines 8-19): an empty provider list is refused. */
  function Create(searchers: seq<Provider>): (r: Result<Searcher, ConfigError>)
    ensures r.Failure? <==> searchers == []
    ensures r.Success? ==> r.value.searchers == searchers
  {
    if searchers == [] then Failure(NoProviders) else Success(Searcher(searchers))
  }

  /** `item.get("url")` is truthy. */
  predicate HasUrl(doc: SearchDoc) {
    "url" in doc && doc["url"] != ""
  }

  /** The URLs of the docs that have one. */
  function UrlsOf(docs: seq<SearchDoc>): set<string> {
    if docs == [] then {}
    else
      var last := docs[|docs| - 1];
      UrlsOf(docs[..|docs| - 1]) + (if HasUrl(last) then {last["url"]} else {})
  }

  /** The docs that the merge loop keeps (lines 27-38): those with a URL not kept before. */
  function Dedup(docs: seq<SearchDoc>): (r: seq<SearchDoc>)
    ensures forall k :: 0 <= k < |r| ==> HasUrl(r[k])
  {
    if docs == [] then []
    else
      var kept := Dedup(docs[..|docs| - 1]);
      var last := docs[|docs| - 1];
      if HasUrl(last) && last["url"] !in UrlsOf(kept) then kept + [last] else kept
  }

  /** Every provider's results, concatenated in provider order. */
  function AllItems(outcomes: seq<Outcome>): seq<SearchDoc> {
    if outcomes == [] then [] else AllItems(outcomes[..|outcomes| - 1]) + outcomes[|outcomes| - 1].items
  }

  /** Each provider called once with the same query and arguments. */
  function Outcomes(searchers: seq<Provider>, query: string, numResults: int): (r: seq<Outcome>)
    ensures |r| == |searchers| && forall k :: 0 <= k < |r| ==> r[k] == searchers[k](query, numResults)
  {
    seq(|searchers|, k requires 0 <= k < |searchers| => searchers[k](query, numResults))
  }

  /** What `search` returns. */
  function SearchResults(s: Searcher, query: string, numResults: int): seq<SearchDoc> {
    Dedup(AllItems(Outcomes(s.searchers, query, numResults)))
  }

  lemma UrlsOfSnoc(docs: seq<SearchDoc>, d: SearchDoc)
    ensures UrlsOf(docs + [d]) == UrlsOf(docs) + (if HasUrl(d) then {d["url"]} else {})
  {
    assert (docs + [d])[..|docs|] == docs;
  }

  lemma {:induction false} UrlsOfMeans(docs: seq<SearchDoc>, u: string)
    ensures u in UrlsOf(docs) <==> exists k :: 0 <= k < |docs| && HasUrl(docs[k]) && docs[k]["url"] == u
  {
    if docs != [] {
      var init := docs[..|docs| - 1];
      UrlsOfMeans(init, u);
      assert forall k :: 0 <= k < |init| ==> init[k] == docs[k];
    }
  }

  lemma DedupSnoc(docs: seq<SearchDoc>, d: SearchDoc)
    ensures Dedup(docs + [d]) ==
      if HasUrl(d) && d["url"] !in UrlsOf(Dedup(docs)) then Dedup(docs) + [d] else Dedup(docs)
  {
    assert (docs + [d])[..|docs|] == docs;
  }

  /** No URL is kept twice. */
  lemma {:induction false} DedupUnique(docs: seq<SearchDoc>)
    ensures forall k, l :: 0 <= k < l < |Dedup(docs)| ==> Dedup(docs)[k]["url"] != Dedup(docs)[l]["url"]
  {
    if docs != [] {
      var init := docs[..|docs| - 1];
      var kept := Dedup(init);
      var last := docs[|docs| - 1];
      DedupUnique(init);
      if HasUrl(last) && last["url"] !in UrlsOf(kept) {
        UrlsOfMeans(kept, last["url"]);
        var r := kept + [last];
        assert Dedup(docs) == r;
        forall k, l | 0 <= k < l < |r| ensures r[k]["url"] != r[l]["url"] {
          assert r[k] == kept[k];
          if l == |kept| {
            assert r[l] == last && HasUrl(kept[k]);
            assert !(HasUrl(kept[k]) && kept[k]["url"] == last["url"]);
          } else {
            assert r[l] == kept[l];
            assert kept[k]["url"] != kept[l]["url"];
          }
        }
      }
    }
  }

  /** The kept URLs are exactly the URLs of the input: nothing with a URL is lost. */
  lemma {:induction false} DedupUrls(docs: seq<SearchDoc>)
    ensures UrlsOf(Dedup(docs)) == UrlsOf(docs)
  {
    if docs != [] {
      var init := docs[..|docs| - 1];
      var last := docs[|docs| - 1];
      DedupUrls(init);
      assert docs == init + [last];
      UrlsOfSnoc(init, last);
      var kept := Dedup(init);
      if HasUrl(last) && last["url"] !in UrlsOf(kept) {
        UrlsOfSnoc(kept, last);
      }
    }
  }

  /** `a` is `b` with some elements left out. */
  predicate IsSubsequence<T(==)>(a: seq<T>, b: seq<T>) {
    if a == [] then true
    else if b == [] then false
    else if a[|a| - 1] == b[|b| - 1] then IsSubsequence(a[..|a| - 1], b[..|b| - 1])
    else IsSubsequence(a, b[..|b| - 1])
  }

  /** Appending to the longer sequence keeps a subsequence. */
  lemma {:induction false} SubsequenceWeaken<T>(a: seq<T>, b: seq<T>, x: T)
    requires IsSubsequence(a, b)
    ensures IsSubsequence(a, b + [x])
    decreases |b|, 1
  {
    assert (b + [x])[..|b|] == b;
    if a != [] && a[|a| - 1] == x {
      SubsequenceDropLast(a, b);
    }
  }

  /** Dropping the last element of the shorter sequence keeps a subsequence. */
  lemma {:induction false} SubsequenceDropLast<T>(a: seq<T>, b: seq<T>)
    requires a != [] && IsSubsequence(a, b)
    ensures IsSubsequence(a[..|a| - 1], b)
    decreases |b|, 0
  {
    var init := b[..|b| - 1];
    assert b == init + [b[|b| - 1]];
    if a[|a| - 1] == b[|b| - 1] {
      SubsequenceWeaken(a[..|a| - 1], init, b[|b| - 1]);
    } else {
      SubsequenceDropLast(a, init);
      SubsequenceWeaken(a[..|a| - 1], init, b[|b| - 1]);
    }
  }

  /** The kept docs appear in the input in the same order. */
  lemma {:induction false} DedupSubsequence(docs: seq<SearchDoc>)
    ensures IsSubsequence(Dedup(docs), docs)
  {
    if docs != [] {
      var init := docs[..|docs| - 1];
      var last := docs[|docs| - 1];
      DedupSubsequence(init);
      assert docs == init + [last];
      var kept := Dedup(init);
      if HasUrl(last) && last["url"] !in UrlsOf(kept) {
        assert (kept + [last])[..|kept|] == kept;
      } else {
        SubsequenceWeaken(kept, init, last);
      }
    }
  }

  /** The first doc carrying a URL is the one kept for that URL. */
  lemma {:induction false} DedupFirstWins(docs: seq<SearchDoc>, i: nat)
    requires i < |docs| && HasUrl(docs[i])
    requires forall j :: 0 <= j < i ==> !(HasUrl(docs[j]) && docs[j]["url"] == docs[i]["url"])
    ensures docs[i] in Dedup(docs)
  {
    var init := docs[..|docs| - 1];
    var last := docs[|docs| - 1];
    if i == |docs| - 1 {
      DedupUrls(init);
      UrlsOfMeans(init, last["url"]);
    } else {
      DedupFirstWins(init, i);
      DedupSnoc(init, last);
      assert docs == init + [last];
    }
  }

  /** Merging keeps each URL at most once, drops docs without a URL, keeps the input order, keeps the
      first doc of every URL and loses no URL. */
  lemma SearchResultsSpec(s: Searcher, query: string, numResults: int)
    ensures var all := AllItems(Outcomes(s.searchers, query, numResults));
      var r := SearchResults(s, query, numResults);
      (forall k :: 0 <= k < |r| ==> HasUrl(r[k]))
      && (forall k, l :: 0 <= k < l < |r| ==> r[k]["url"] != r[l]["url"])
      && IsSubsequence(r, all)
      && UrlsOf(r) == UrlsOf(all)
      && (forall i :: (0 <= i < |all| && HasUrl(all[i])
                       && forall j :: 0 <= j < i ==> !(HasUrl(all[j]) && all[j]["url"] == all[i]["url"]))
                      ==> all[i] in r)
  {
    var all := AllItems(Outcomes(s.searchers, query, numResults));
    DedupUnique(all);
    DedupSubsequence(all);
    DedupUrls(all);
    forall i | 0 <= i < |all| && HasUrl(all[i])
        && (forall j :: 0 <= j < i ==> !(HasUrl(all[j]) && all[j]["url"] == all[i]["url"]))
      ensures all[i] in Dedup(all)
    {
      DedupFirstWins(all, i);
    }
  }

  /** A provider's results are merged after those of the providers before it, whether or not it raised. */
  lemma AllItemsSnoc(outcomes: seq<Outcome>, o: Outcome)
    ensures AllItems(outcomes + [o]) == AllItems(outcomes) + o.items
  {
    assert (outcomes + [o])[..|outcomes|] == outcomes;
  }

  /** The outcome of a provider that returned the same items normally. */
  function Returned(o: Outcome): Outcome {
    Outcome(o.items, false)
  }

  function AllReturned(outcomes: seq<Outcome>): (r: seq<Outcome>)
    ensures |r| == |outcomes| && forall k :: 0 <= k < |r| ==> r[k] == Returned(outcomes[k])
  {
    seq(|outcomes|, k requires 0 <= k < |outcomes| => Returned(outcomes[k]))
  }

  /** A provider's exception is caught and logged (lines 39-40). The model captures this by the merge
      never reading `raised`; this lemma records that choice: the merge is the one it would be had every
      provider returned normally the items it yielded before raising, so the providers after a raising
      one are still merged. */
  lemma {:induction false} ExceptionsSwallowed(outcomes: seq<Outcome>)
    ensures AllItems(outcomes) == AllItems(AllReturned(outcomes))
  {
    if outcomes != [] {
      var init := outcomes[..|outcomes| - 1];
      var r := AllReturned(outcomes);
      assert r[..|r| - 1] == AllReturned(init);
      ExceptionsSwallowed(init);
    }
  }

  /** One more item is kept exactly when it has a URL not kept before. */
  lemma MergeStep(before: seq<SearchDoc>, items: seq<SearchDoc>, j: nat)
    requires j < |items|
    ensures var kept := Dedup(before + items[..j]);
      var item := items[j];
      Dedup(before + items[..j + 1]) == if HasUrl(item) && item["url"] !in UrlsOf(kept) then kept + [item] else kept
  {
    var prefix := before + items[..j];
    assert before + items[..j + 1] == prefix + [items[j]];
    DedupSnoc(prefix, items[j]);
  }

  /** The inner loop of `search` (lines 34-38): merges one provider's results into those kept so far. */
  method MergeItems(allResults: seq<SearchDoc>, seenUrls: set<string>, ghost before: seq<SearchDoc>,
                    items: seq<SearchDoc>)
    returns (merged: seq<SearchDoc>, seen: set<string>)
    requires allResults == Dedup(before) && seenUrls == UrlsOf(allResults)
    ensures merged == Dedup(before + items) && seen == UrlsOf(merged)
  {
    merged, seen := allResults, seenUrls;
    assert before + items[..0] == before;
    for j := 0 to |items|
      invariant merged == Dedup(before + items[..j])
      invariant seen == UrlsOf(merged)
    {
      var item := items[j];
      MergeStep(before, items, j);
      if "url" in item && item["url"] != "" && item["url"] !in seen {
        UrlsOfSnoc(merged, item);
        seen := seen + {item["url"]};
        merged := merged + [item];
      }
    }
    assert items[..|items|] == items;
  }

  /** `search` (lines 21-44). */
  method Search(s: Searcher, query: string, numResults: int) returns (allResults: seq<SearchDoc>)
    ensures allResults == SearchResults(s, query, numResults)
  {
    ghost var outcomes := Outcomes(s.searchers, query, numResults);
    allResults := [];
    var seenUrls: set<string> := {};
    for i := 0 to |s.searchers|
      invariant allResults == Dedup(AllItems(outcomes[..i]))
      invariant seenUrls == UrlsOf(allResults)
    {
      var results := s.searchers[i](query, numResults);
      assert outcomes[..i + 1] == outcomes[..i] + [results];
      AllItemsSnoc(outcomes[..i], results);
      allResults, seenUrls := MergeItems(allResults, seenUrls, AllItems(outcomes[..i]), results.items);
    }
    assert outcomes[..|s.searchers|] == outcomes;
  }
}
