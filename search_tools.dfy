/**
 * The search fan-out tools of the interactive front end: one search per site
 * filter, hits flattened in filter order then hit order, any exception turning
 * the whole tool result into the empty list.
 */
module SearchTools {
  import opened Wrappers

  /** `Config.RESULTS_NUM`: the `max_results` of every search call. */
  const RESULTS_NUM: nat := 5

  /** One raw hit as the search client returns it; a key may be missing. */
  datatype RawHit = RawHit(title: Option<string>, url: Option<string>)

  /** A raw search response; its `results` key may be missing. */
  datatype SearchResponse = SearchResponse(results: Option<seq<RawHit>>)

  /**
   * The search client: query text and `max_results` to a response, or `None`
   * when the call raises.
   */
  type Search = (string, nat) -> Option<SearchResponse>

  /** `SingleSearchResult`: a title and a page URL. */
  datatype Hit = Hit(title: string, url: string)

  /**
   * A site filter: the query is rewritten to `prefix + query + suffix`, the
   * suffix carrying the `site:` operator and its domain.
   */
  datatype Filter = Filter(prefix: string, suffix: string)

  function Rewrite(query: string, f: Filter): string {
    f.prefix + query + f.suffix
  }

  /** The visual tool's filters: YouTube, then Udemy and Coursera with a "free " qualifier. */
  const VISUAL_FILTERS: seq<Filter> := [
    Filter("", " site:youtube.com"),
    Filter("free ", " site:udemy.com"),
    Filter("free ", " site:coursera.org")]

  /** The text tool's filters: Medium, arXiv, GitHub, Papers with Code. */
  const TEXT_FILTERS: seq<Filter> := [
    Filter("", " site:medium.com"),
    Filter("", " site:arxiv.org"),
    Filter("", " site:github.com"),
    Filter("", " site:paperswithcode.com")]

  /** The three queries the visual tool issues. */
  lemma VisualQueries(query: string)
    ensures Rewrite(query, VISUAL_FILTERS[0]) == query + " site:youtube.com"
    ensures Rewrite(query, VISUAL_FILTERS[1]) == "free " + query + " site:udemy.com"
    ensures Rewrite(query, VISUAL_FILTERS[2]) == "free " + query + " site:coursera.org"
  {
    assert "" + query == query;
  }

  /** The four queries the text tool issues. */
  lemma TextQueries(query: string)
    ensures Rewrite(query, TEXT_FILTERS[0]) == query + " site:medium.com"
    ensures Rewrite(query, TEXT_FILTERS[1]) == query + " site:arxiv.org"
    ensures Rewrite(query, TEXT_FILTERS[2]) == query + " site:github.com"
    ensures Rewrite(query, TEXT_FILTERS[3]) == query + " site:paperswithcode.com"
  {
    assert "" + query == query;
  }

  /** `SingleSearchResult(title=result['title'], url=result['url'])`; a missing key raises. */
  function ToHit(raw: RawHit): Option<Hit> {
    if raw.title.Some? && raw.url.Some? then Some(Hit(raw.title.value, raw.url.value)) else None
  }

  /** The hits of one response converted in order, or `None` if one of them raises. */
  function ToHits(raws: seq<RawHit>): (r: Option<seq<Hit>>)
    ensures r.Some? <==> forall i :: 0 <= i < |raws| ==> ToHit(raws[i]).Some?
    ensures r.Some? ==> |r.value| == |raws|
    ensures r.Some? ==> forall i :: 0 <= i < |raws| ==> r.value[i] == ToHit(raws[i]).value
  {
    if raws == [] then Some([])
    else
      var front := ToHits(raws[..|raws| - 1]);
      var last := ToHit(raws[|raws| - 1]);
      if front.Some? && last.Some? then Some(front.value + [last.value]) else None
  }

  /** The converted hits of one search call: `None` if the call raised or a key is missing. */
  function Converted(resp: Option<SearchResponse>): Option<seq<Hit>> {
    if resp.None? || resp.value.results.None? then None else ToHits(resp.value.results.value)
  }

  /** The number of raw hits in the responses that carry a `results` list. */
  function RawCount(rs: seq<Option<SearchResponse>>): nat {
    if rs == [] then 0
    else (if rs[0].Some? && rs[0].value.results.Some? then |rs[0].value.results.value| else 0) + RawCount(rs[1..])
  }

  /** One search per filter, in filter order, each asking for `RESULTS_NUM` hits. */
  function Responses(query: string, filters: seq<Filter>, search: Search): seq<Option<SearchResponse>> {
    seq(|filters|, i requires 0 <= i < |filters| => search(Rewrite(query, filters[i]), RESULTS_NUM))
  }

  /**
   * The hits of all responses concatenated, first response first; `None` as
   * soon as one response fails. No hit is dropped, merged or reordered.
   */
  function Collect(rs: seq<Option<SearchResponse>>): (r: Option<seq<Hit>>)
    ensures r.Some? <==> forall i :: 0 <= i < |rs| ==> Converted(rs[i]).Some?
    ensures r.Some? ==> |r.value| == RawCount(rs)
  {
    if rs == [] then Some([])
    else
      var head := Converted(rs[0]);
      var tail := Collect(rs[1..]);
      assert forall i :: 1 <= i < |rs| ==> rs[i] == rs[1..][i - 1];
      if head.Some? && tail.Some? then Some(head.value + tail.value) else None
  }

  /**
   * What a fan-out tool returns for `query`: the collected hits of its filters,
   * or the empty list when anything raised. A single failing filter empties the
   * whole result.
   */
  function SearchTool(query: string, filters: seq<Filter>, search: Search): (r: seq<Hit>)
    ensures (forall i :: 0 <= i < |filters| ==> Converted(search(Rewrite(query, filters[i]), RESULTS_NUM)).Some?)
            || r == []
  {
    var rs := Responses(query, filters, search);
    assert forall i :: 0 <= i < |filters| ==> rs[i] == search(Rewrite(query, filters[i]), RESULTS_NUM);
    Collect(rs).GetOr([])
  }

  /** The loop `for result in resp['results']: results.append(...)`. */
  method AppendHits(acc: seq<Hit>, resp: SearchResponse) returns (out: seq<Hit>, ok: bool)
    ensures ok <==> Converted(Some(resp)).Some?
    ensures ok ==> out == acc + Converted(Some(resp)).value
  {
    if resp.results.None? {
      return acc, false;
    }
    var raws := resp.results.value;
    out := acc;
    var i := 0;
    while i < |raws|
      invariant 0 <= i <= |raws|
      invariant ToHits(raws[..i]).Some?
      invariant out == acc + ToHits(raws[..i]).value
    {
      assert raws[..i + 1][..i] == raws[..i];
      var hit := ToHit(raws[i]);
      if hit.None? {
        return out, false;
      }
      out := out + [hit.value];
      i := i + 1;
    }
    assert raws[..i] == raws;
    ok := true;
  }

  /** `visual_search_tool`: YouTube, Udemy and Coursera hits in that order, or `[]` on any exception. */
  method VisualSearchTool(query: string, search: Search) returns (results: seq<Hit>)
    ensures results == SearchTool(query, VISUAL_FILTERS, search)
  {
    var rs := Responses(query, VISUAL_FILTERS, search);
    VisualQueries(query);
    var youtube := search(query + " site:youtube.com", RESULTS_NUM);
    if youtube.None? { return []; }
    var udemy := search("free " + query + " site:udemy.com", RESULTS_NUM);
    if udemy.None? { return []; }
    var coursera := search("free " + query + " site:coursera.org", RESULTS_NUM);
    if coursera.None? { return []; }
    assert rs == [youtube, udemy, coursera];
    assert rs[1..] == [udemy, coursera] && rs[1..][1..] == [coursera] && rs[1..][1..][1..] == [];
    var ok;
    results, ok := AppendHits([], youtube.value);
    if !ok { return []; }
    results, ok := AppendHits(results, udemy.value);
    if !ok { return []; }
    results, ok := AppendHits(results, coursera.value);
    if !ok { return []; }
    VisualOrder(query, search);
  }

  /** `text_search_tool`: Medium, arXiv, GitHub and Papers with Code hits in that order, or `[]`. */
  method TextSearchTool(query: string, search: Search) returns (results: seq<Hit>)
    ensures results == SearchTool(query, TEXT_FILTERS, search)
  {
    var rs := Responses(query, TEXT_FILTERS, search);
    TextQueries(query);
    var medium := search(query + " site:medium.com", RESULTS_NUM);
    if medium.None? { return []; }
    var arxiv := search(query + " site:arxiv.org", RESULTS_NUM);
    if arxiv.None? { return []; }
    var github := search(query + " site:github.com", RESULTS_NUM);
    if github.None? { return []; }
    var papers := search(query + " site:paperswithcode.com", RESULTS_NUM);
    if papers.None? { return []; }
    assert rs == [medium, arxiv, github, papers];
    assert rs[1..] == [arxiv, github, papers] && rs[1..][1..] == [github, papers];
    assert rs[1..][1..][1..] == [papers] && rs[1..][1..][1..][1..] == [];
    var ok;
    results, ok := AppendHits([], medium.value);
    if !ok { return []; }
    results, ok := AppendHits(results, arxiv.value);
    if !ok { return []; }
    results, ok := AppendHits(results, github.value);
    if !ok { return []; }
    results, ok := AppendHits(results, papers.value);
    if !ok { return []; }
    TextOrder(query, search);
  }

  /** Collecting two runs of responses is collecting each and concatenating. */
  lemma {:induction false} CollectAppend(a: seq<Option<SearchResponse>>, b: seq<Option<SearchResponse>>)
    requires Collect(a).Some? && Collect(b).Some?
    ensures Collect(a + b) == Some(Collect(a).value + Collect(b).value)
  {
    if a == [] {
      assert a + b == b && Collect(a) == Some([]);
      assert [] + Collect(b).value == Collect(b).value;
    } else {
      var ab := a + b;
      assert ab[0] == a[0] && ab[1..] == a[1..] + b;
      var h, t := Converted(a[0]).value, Collect(a[1..]).value;
      assert Collect(a).value == h + t;
      CollectAppend(a[1..], b);
      var c := Collect(b).value;
      assert Collect(ab) == Some(h + (t + c));
      AppendAssoc(h, t, c);
    }
  }

  lemma AppendAssoc<T>(x: seq<T>, y: seq<T>, z: seq<T>)
    ensures x + (y + z) == (x + y) + z
  {
  }

  /** Collecting one response gives exactly its converted hits. */
  lemma CollectSingle(r: Option<SearchResponse>)
    requires Converted(r).Some?
    ensures Collect([r]) == Converted(r)
  {
    assert [r][1..] == [];
    assert Converted(r).value + [] == Converted(r).value;
  }

  /**
   * When every filter succeeds, the visual tool returns the YouTube hits, then
   * the Udemy hits, then the Coursera hits, and nothing else.
   */
  lemma VisualOrder(query: string, search: Search)
    requires Converted(search(query + " site:youtube.com", RESULTS_NUM)).Some?
    requires Converted(search("free " + query + " site:udemy.com", RESULTS_NUM)).Some?
    requires Converted(search("free " + query + " site:coursera.org", RESULTS_NUM)).Some?
    ensures SearchTool(query, VISUAL_FILTERS, search)
         == Converted(search(query + " site:youtube.com", RESULTS_NUM)).value
          + Converted(search("free " + query + " site:udemy.com", RESULTS_NUM)).value
          + Converted(search("free " + query + " site:coursera.org", RESULTS_NUM)).value
  {
    var rs := Responses(query, VISUAL_FILTERS, search);
    VisualQueries(query);
    assert rs == [rs[0]] + [rs[1]] + [rs[2]];
    CollectSingle(rs[0]);
    CollectSingle(rs[1]);
    CollectSingle(rs[2]);
    CollectAppend([rs[0]], [rs[1]]);
    CollectAppend([rs[0]] + [rs[1]], [rs[2]]);
  }

  /**
   * When every filter succeeds, the text tool returns the Medium, arXiv,
   * GitHub and Papers with Code hits in that order.
   */
  lemma TextOrder(query: string, search: Search)
    requires Converted(search(query + " site:medium.com", RESULTS_NUM)).Some?
    requires Converted(search(query + " site:arxiv.org", RESULTS_NUM)).Some?
    requires Converted(search(query + " site:github.com", RESULTS_NUM)).Some?
    requires Converted(search(query + " site:paperswithcode.com", RESULTS_NUM)).Some?
    ensures SearchTool(query, TEXT_FILTERS, search)
         == Converted(search(query + " site:medium.com", RESULTS_NUM)).value
          + Converted(search(query + " site:arxiv.org", RESULTS_NUM)).value
          + Converted(search(query + " site:github.com", RESULTS_NUM)).value
          + Converted(search(query + " site:paperswithcode.com", RESULTS_NUM)).value
  {
    var rs := Responses(query, TEXT_FILTERS, search);
    TextQueries(query);
    assert rs == [rs[0]] + [rs[1]] + [rs[2]] + [rs[3]];
    CollectSingle(rs[0]);
    CollectSingle(rs[1]);
    CollectSingle(rs[2]);
    CollectSingle(rs[3]);
    CollectAppend([rs[0]], [rs[1]]);
    CollectAppend([rs[0]] + [rs[1]], [rs[2]]);
    CollectAppend([rs[0]] + [rs[1]] + [rs[2]], [rs[3]]);
  }

  /**
   * The same hit returned by two filters appears twice in the tool result:
   * there is no deduplication across filters.
   */
  lemma DuplicatesKept(query: string, search: Search, title: string, url: string)
    requires search(query + " site:youtube.com", RESULTS_NUM) == Some(SearchResponse(Some([RawHit(Some(title), Some(url))])))
    requires search("free " + query + " site:udemy.com", RESULTS_NUM) == Some(SearchResponse(Some([RawHit(Some(title), Some(url))])))
    requires search("free " + query + " site:coursera.org", RESULTS_NUM) == Some(SearchResponse(Some([])))
    ensures SearchTool(query, VISUAL_FILTERS, search) == [Hit(title, url), Hit(title, url)]
  {
    var one := [RawHit(Some(title), Some(url))];
    assert one[..|one| - 1] == [];
    assert ToHits(one[..|one| - 1]) == Some([]);
    assert ToHit(one[|one| - 1]) == Some(Hit(title, url));
    assert [] + [Hit(title, url)] == [Hit(title, url)];
    assert ToHits(one) == Some([Hit(title, url)]);
    VisualOrder(query, search);
  }

  /** A transport that finds nothing for any filter yields an empty result, not an error. */
  lemma EmptyTransport(query: string, filters: seq<Filter>, search: Search)
    requires forall i :: 0 <= i < |filters| ==> search(Rewrite(query, filters[i]), RESULTS_NUM) == Some(SearchResponse(Some([])))
    ensures SearchTool(query, filters, search) == []
  {
    var rs := Responses(query, filters, search);
    assert RawCount(rs) == 0 by { RawCountEmpty(rs); }
  }

  lemma {:induction false} RawCountEmpty(rs: seq<Option<SearchResponse>>)
    requires forall i :: 0 <= i < |rs| ==> rs[i] == Some(SearchResponse(Some([])))
    ensures RawCount(rs) == 0
  {
    if rs != [] {
      RawCountEmpty(rs[1..]);
    }
  }

  /**
   * Every rewritten query keeps the user's query as its own words: it follows
   * the qualifier, if any, after a space, and a space separates it from the
   * `site:` operator.
   */
  lemma SiteOperatorSeparated(query: string, f: Filter)
    requires f in VISUAL_FILTERS || f in TEXT_FILTERS
    ensures f.prefix == [] || f.prefix == "free "
    ensures var r, k := Rewrite(query, f), |f.prefix| + |query|;
      && r[|f.prefix|..k] == query
      && r[k..] == f.suffix
      && |f.suffix| > 6 && f.suffix[..6] == " site:"
  {
    var r := Rewrite(query, f);
    assert r[|f.prefix|..|f.prefix| + |query|] == query;
  }
}
