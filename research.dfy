/** `exa_research`: one or two web-search queries about a contact, merged
    into a single list of evidence with each URL kept once, at its first
    occurrence in query-then-rank order. */
module ExaResearch {
  import opened Wrappers
  import opened Text

  /** One entry of the search service's `results` list; `None` is a key
      that is absent from the JSON object. */
  datatype Hit = Hit(title: Option<string>, url: Option<string>, text: Option<string>)

  /** The record kept for a hit: missing keys read as `""`. */
  datatype Evidence = Evidence(title: string, url: string, text: string)

  /** What one search request came back with: an exception anywhere in the
      request or in decoding its body, or an HTTP status and the decoded
      `results` list (an absent list reads as empty). */
  datatype SearchReply = Raised | Reply(status: int, results: seq<Hit>)

  const Suffix: string := " interview OR keynote OR article OR LinkedIn"

  function HitUrl(h: Hit): string {
    h.url.GetOr("")
  }

  function ToEvidence(h: Hit): Evidence
  {
    Evidence(h.title.GetOr(""), HitUrl(h), h.text.GetOr(""))
  }

  /** Python truthiness of the optional company name. */
  predicate Known(company: Option<string>) {
    company.Some? && company.value != ""
  }

  /** The queries issued: name and company, then the same with the
      interview/keynote/article/LinkedIn suffix, when a company is known;
      otherwise the bare name. */
  function Queries(name: string, company: Option<string>): (r: seq<string>)
    ensures |r| == (if Known(company) then 2 else 1)
    ensures forall k :: 0 <= k < |r| ==> StartsWith(r[k], name)
    ensures Known(company) ==> r[1] == r[0] + Suffix && r[0] == name + " " + company.value
    ensures !Known(company) ==> r[0] == name
  {
    if Known(company) then
      var base := name + " " + company.value;
      [base, base + Suffix]
    else [name]
  }

  predicate Succeeded(reply: SearchReply) {
    reply.Reply? && reply.status == 200
  }

  /** The hits a reply contributes: only a status-200 reply counts. */
  function Returned(reply: SearchReply): seq<Hit> {
    if Succeeded(reply) then reply.results else []
  }

  /** Every hit the queries returned, in query order then rank order. */
  function Gathered(queries: seq<string>, search: string -> SearchReply): seq<Hit>
    decreases |queries|
  {
    if queries == [] then []
    else Gathered(queries[..|queries| - 1], search) + Returned(search(queries[|queries| - 1]))
  }

  /** The URLs of the hits in `hits`. */
  function HitUrls(hits: seq<Hit>): set<string> {
    set k | 0 <= k < |hits| :: HitUrl(hits[k])
  }

  /** The URLs of a list of evidence. */
  function Urls(evs: seq<Evidence>): set<string> {
    set k | 0 <= k < |evs| :: evs[k].url
  }

  /** The hits whose URL did not occur earlier, in their original order. */
  function FirstOccurrences(hits: seq<Hit>): seq<Evidence>
    decreases |hits|
  {
    if hits == [] then []
    else
      var prefix := hits[..|hits| - 1];
      var last := hits[|hits| - 1];
      FirstOccurrences(prefix) + (if HitUrl(last) in HitUrls(prefix) then [] else [ToEvidence(last)])
  }

  /** What `exa_research` returns: nothing without a search key, otherwise
      the first occurrences among all returned hits. */
  function Research(name: string, company: Option<string>, configured: bool,
                    search: string -> SearchReply): seq<Evidence>
  {
    if !configured then [] else FirstOccurrences(Gathered(Queries(name, company), search))
  }

  lemma HitUrlsAppend(hits: seq<Hit>, h: Hit)
    ensures HitUrls(hits + [h]) == HitUrls(hits) + {HitUrl(h)}
  {
    var all := hits + [h];
    assert forall k :: 0 <= k < |hits| ==> all[k] == hits[k];
    assert all[|hits|] == h;
  }

  lemma UrlsAppend(evs: seq<Evidence>, e: Evidence)
    ensures Urls(evs + [e]) == Urls(evs) + {e.url}
  {
    var all := evs + [e];
    assert forall k :: 0 <= k < |evs| ==> all[k] == evs[k];
    assert all[|evs|] == e;
  }

  /** The evidence list names exactly the URLs of the hits. */
  lemma {:induction false} FirstOccurrencesUrls(hits: seq<Hit>)
    ensures Urls(FirstOccurrences(hits)) == HitUrls(hits)
    decreases |hits|
  {
    if hits != [] {
      var prefix, last := hits[..|hits| - 1], hits[|hits| - 1];
      FirstOccurrencesUrls(prefix);
      assert hits == prefix + [last];
      HitUrlsAppend(prefix, last);
      var before := FirstOccurrences(prefix);
      if HitUrl(last) !in HitUrls(prefix) {
        assert FirstOccurrences(hits) == before + [ToEvidence(last)];
        UrlsAppend(before, ToEvidence(last));
      } else {
        assert FirstOccurrences(hits) == before;
      }
    }
  }

  /** No two kept items share a URL. */
  lemma {:induction false} FirstOccurrencesUnique(hits: seq<Hit>)
    ensures forall i, j :: 0 <= i < j < |FirstOccurrences(hits)| ==>
      FirstOccurrences(hits)[i].url != FirstOccurrences(hits)[j].url
    decreases |hits|
  {
    if hits != [] {
      var prefix, last := hits[..|hits| - 1], hits[|hits| - 1];
      FirstOccurrencesUnique(prefix);
      FirstOccurrencesUrls(prefix);
      var before := FirstOccurrences(prefix);
      if HitUrl(last) !in HitUrls(prefix) {
        var after := before + [ToEvidence(last)];
        assert FirstOccurrences(hits) == after;
        forall i | 0 <= i < |before|
          ensures after[i].url != after[|before|].url
        {
          assert before[i].url in Urls(before);
        }
      }
    }
  }

  /** Position `j` holds the first hit with its URL. */
  predicate IsFirst(hits: seq<Hit>, j: int) {
    0 <= j < |hits| && HitUrl(hits[j]) !in HitUrls(hits[..j])
  }

  /** The positions of the first hits with each URL, in increasing order:
      every such position, and no other. */
  function FirstIndices(hits: seq<Hit>): (r: seq<nat>)
    ensures forall i :: 0 <= i < |r| ==> IsFirst(hits, r[i])
    ensures forall i, j :: 0 <= i < j < |r| ==> r[i] < r[j]
    ensures forall j :: IsFirst(hits, j) ==> j in r
    decreases |hits|
  {
    if hits == [] then []
    else
      var prefix := hits[..|hits| - 1];
      var before := FirstIndices(prefix);
      IsFirstPrefix(hits);
      before + (if IsFirst(hits, |hits| - 1) then [|hits| - 1] else [])
  }

  /** Dropping the last hit changes no earlier first occurrence. */
  lemma IsFirstPrefix(hits: seq<Hit>)
    requires hits != []
    ensures forall j :: IsFirst(hits[..|hits| - 1], j) <==> IsFirst(hits, j) && j < |hits| - 1
  {
    var prefix := hits[..|hits| - 1];
    forall j | 0 <= j < |prefix|
      ensures IsFirst(prefix, j) <==> IsFirst(hits, j)
    {
      assert hits[..j] == prefix[..j];
    }
  }

  /** The kept items are the records of the hits at the first-occurrence
      positions, in the order of those positions: the `i`-th item comes
      from the `i`-th such position. */
  lemma {:induction false} FirstOccurrencesAreFirst(hits: seq<Hit>)
    ensures |FirstOccurrences(hits)| == |FirstIndices(hits)|
    ensures forall i :: 0 <= i < |FirstIndices(hits)| ==>
      FirstIndices(hits)[i] < |hits| && FirstOccurrences(hits)[i] == ToEvidence(hits[FirstIndices(hits)[i]])
    decreases |hits|
  {
    if hits != [] {
      var prefix, last := hits[..|hits| - 1], hits[|hits| - 1];
      FirstOccurrencesAreFirst(prefix);
      assert hits[..|hits| - 1] == prefix;
      var idx := FirstIndices(prefix);
      forall i | 0 <= i < |idx|
        ensures hits[idx[i]] == prefix[idx[i]]
      {
        assert IsFirst(prefix, idx[i]);
      }
    }
  }

  /** A failed or raising query contributes nothing: two search services
      that agree on every successful reply yield the same hits. */
  lemma {:induction false} FailuresContributeNothing(queries: seq<string>,
      search: string -> SearchReply, other: string -> SearchReply)
    requires forall k :: 0 <= k < |queries| ==>
      search(queries[k]) == other(queries[k])
      || (!Succeeded(search(queries[k])) && !Succeeded(other(queries[k])))
    ensures Gathered(queries, search) == Gathered(queries, other)
    decreases |queries|
  {
    if queries != [] {
      var init := queries[..|queries| - 1];
      assert forall k :: 0 <= k < |init| ==> init[k] == queries[k];
      FailuresContributeNothing(init, search, other);
    }
  }

  /** The inner loop of `exa_research` over one successful reply's hits:
      each hit whose URL is not yet in `seen` is recorded and kept. */
  method MergeHits(results: seq<Evidence>, seen: set<string>, ghost done: seq<Hit>, hits: seq<Hit>)
      returns (results': seq<Evidence>, seen': set<string>)
    requires results == FirstOccurrences(done) && seen == HitUrls(done)
    ensures results' == FirstOccurrences(done + hits) && seen' == HitUrls(done + hits)
  {
    results', seen' := results, seen;
    assert done + hits[..0] == done;
    for j := 0 to |hits|
      invariant results' == FirstOccurrences(done + hits[..j])
      invariant seen' == HitUrls(done + hits[..j])
    {
      var h := hits[j];
      var url := h.url.GetOr("");
      ghost var before := done + hits[..j];
      assert (before + [h])[..|before|] == before;
      HitUrlsAppend(before, h);
      if url !in seen' {
        seen' := seen' + {url};
        results' := results' + [Evidence(h.title.GetOr(""), url, h.text.GetOr(""))];
      }
      assert done + hits[..j + 1] == before + [h];
    }
    assert hits[..|hits|] == hits;
  }

  /** `exa_research` as a loop: the queries in order, each successful
      reply's hits in order, a `seen` set of URLs, and an output list. */
  method RunResearch(name: string, company: Option<string>, configured: bool,
                     search: string -> SearchReply) returns (results: seq<Evidence>)
    ensures results == Research(name, company, configured, search)
  {
    if !configured {
      return [];
    }
    var queries := Queries(name, company);
    results := [];
    var seen: set<string> := {};
    for q := 0 to |queries|
      invariant results == FirstOccurrences(Gathered(queries[..q], search))
      invariant seen == HitUrls(Gathered(queries[..q], search))
    {
      assert queries[..q + 1][..q] == queries[..q];
      var reply := search(queries[q]);
      assert Gathered(queries[..q + 1], search) == Gathered(queries[..q], search) + Returned(reply);
      if Succeeded(reply) {
        results, seen := MergeHits(results, seen, Gathered(queries[..q], search), reply.results);
      } else {
        assert Gathered(queries[..q + 1], search) == Gathered(queries[..q], search);
      }
    }
    assert queries[..|queries|] == queries;
  }
}
