/** The story list: the URLs its search box and filter dialog fetch, and how
    a fetch's outcome changes what the page shows. */
module StoryList {
  import opened Wrappers
  import opened Story
  import opened Query

  /** The collection, fetched on first render and by an empty search. */
  const ListEndpoint: string := "http://localhost:8000/stories/"
  /** The search endpoint's path, before its `?`. */
  const SearchPath: string := "http://localhost:8000/search/stories"

  /** `handleSearch`'s URL: the collection for an empty query, otherwise the
      search endpoint, `?query=`, and the query as typed, unencoded. */
  function SearchUrl(query: string): (url: string)
    ensures query == "" ==> url == ListEndpoint
    ensures query != "" ==> SearchPath + "?query=" <= url && url[|SearchPath + "?query="|..] == query
  {
    if query != "" then
      assert SearchPath + "?" + "query=" + query == (SearchPath + "?query=") + query;
      SearchPath + "?" + "query=" + query
    else ListEndpoint
  }

  /** `handleFilter`'s URL: the search endpoint ending in `?`, followed by the
      filter query. */
  function FilterUrl(category: string, status: string): (url: string)
    ensures SearchPath + "?" <= url && url[|SearchPath| + 1..] == FilterQuery(category, status)
  {
    SearchPath + "?" + FilterQuery(category, status)
  }

  /** `category=<c>&` when a category is chosen, then `status=<s>` when a
      status is chosen; nothing else. */
  function FilterQuery(category: string, status: string): (q: string)
  {
    (if category != "" then "category=" + category + "&" else "")
      + (if status != "" then "status=" + status else "")
  }

  /** The filter query's layout: the category piece with its `&` first, the
      status piece last, and nothing for a filter left unchosen. */
  lemma FilterQueryLayout(category: string, status: string)
    ensures var q := FilterQuery(category, status);
              |q| == (if category != "" then |category| + 10 else 0) + (if status != "" then |status| + 7 else 0)
    ensures category != "" ==> "category=" + category + "&" <= FilterQuery(category, status)
    ensures status != "" ==> var q := FilterQuery(category, status);
              q[|q| - |status| - 7..] == "status=" + status
    ensures category == "" ==> FilterQuery(category, status) == (if status != "" then "status=" + status else "")
  {
    var q := FilterQuery(category, status);
    var first := if category != "" then "category=" + category + "&" else "";
    var second := if status != "" then "status=" + status else "";
    assert q == first + second;
    assert q[|first|..] == second;
  }

  /** With nothing chosen the filter fetches the bare search endpoint; with
      only a category the URL ends in a dangling `&`; and, for a status
      without `&`, that is the only way it can end in `&`. */
  lemma FilterUrlShape(category: string, status: string)
    ensures category == "" && status == "" ==> FilterUrl(category, status) == SearchPath + "?"
    ensures category != "" && status == "" ==> FilterUrl(category, status)[|FilterUrl(category, status)| - 1] == '&'
    ensures '&' !in status && FilterUrl(category, status)[|FilterUrl(category, status)| - 1] == '&' ==>
              category != "" && status == ""
    ensures SearchPath + "?" <= FilterUrl(category, status)
  {
  }

  // Facts about the literal strings the URLs are built from.

  lemma SearchPathIsPlain()
    ensures '?' !in SearchPath && '#' !in SearchPath
  {
    assert forall i :: 0 <= i < |SearchPath| ==> SearchPath[i] != '?' && SearchPath[i] != '#';
  }

  lemma KeysArePlain()
    ensures Plain("query=") && Plain("category=") && Plain("status=") && '#' !in "&"
  {
    assert forall k :: 0 <= k < |"query="| ==> "query="[k] != '&' && "query="[k] != '#';
    assert forall k :: 0 <= k < |"category="| ==> "category="[k] != '&' && "category="[k] != '#';
    assert forall k :: 0 <= k < |"status="| ==> "status="[k] != '&' && "status="[k] != '#';
  }

  /** A piece naming one filter key never names the other. */
  lemma PiecesDiffer(category: string, status: string)
    ensures !("status=" <= "category=" + category)
    ensures !("category=" <= "status=" + status)
    ensures !("status=" <= "") && !("category=" <= "")
  {
    assert ("category=" + category)[0] == 'c';
    assert ("status=" + status)[0] == 's';
  }

  // Reading the filter URL back.

  /** The filter query split into its pieces, for plain values. */
  lemma FilterPieces(category: string, status: string)
    requires Plain(category) && Plain(status)
    ensures '#' !in FilterQuery(category, status)
    ensures category != "" ==>
              Split(FilterQuery(category, status), '&') == ["category=" + category] + Split(FilterQuery("", status), '&')
    ensures status != "" ==> Split(FilterQuery("", status), '&') == ["status=" + status]
    ensures status == "" ==> Split(FilterQuery("", status), '&') == [""]
  {
    KeysArePlain();
    NoSepInConcat("category=", category, '&');
    NoSepInConcat("status=", status, '&');
    NoSepInConcat("category=", category, '#');
    NoSepInConcat("status=", status, '#');
    NoSepInConcat("category=" + category, "&", '#');
    var first := if category != "" then "category=" + category + "&" else "";
    var second := if status != "" then "status=" + status else "";
    NoSepInConcat(first, second, '#');
    if category != "" {
      assert FilterQuery(category, status) == ("category=" + category) + ['&'] + FilterQuery("", status);
      SplitAtFirst("category=" + category, FilterQuery("", status), '&');
    }
    if status != "" {
      assert FilterQuery("", status) == "status=" + status;
      SplitWithoutSep("status=" + status, '&');
    } else {
      assert FilterQuery("", status) == "";
    }
  }

  lemma FilterCategoryReadsBack(category: string, status: string)
    requires Plain(category) && Plain(status)
    ensures Param(FilterUrl(category, status), "category") == (if category != "" then Some(category) else None)
  {
    SearchPathIsPlain();
    ParamAfterPath(SearchPath, FilterQuery(category, status), "category");
    FilterPieces(category, status);
    PiecesDiffer(category, status);
    if category != "" {
      LookupFirst(category, Split(FilterQuery("", status), '&'), "category");
    } else if status != "" {
      LookupSkip("status=" + status, [], "category");
    } else {
      LookupSkip("", [], "category");
    }
  }

  lemma FilterStatusReadsBack(category: string, status: string)
    requires Plain(category) && Plain(status)
    ensures Param(FilterUrl(category, status), "status") == (if status != "" then Some(status) else None)
  {
    SearchPathIsPlain();
    ParamAfterPath(SearchPath, FilterQuery(category, status), "status");
    FilterPieces(category, status);
    PiecesDiffer(category, status);
    var later := Split(FilterQuery("", status), '&');
    if status != "" {
      LookupFirst(status, [], "status");
      assert later == ["status=" + status] + [];
    } else {
      LookupSkip("", [], "status");
      assert later == [""] + [];
    }
    if category != "" {
      LookupSkip("category=" + category, later, "status");
    }
  }

  /** Each chosen filter is read back with the value chosen, an unchosen one
      is absent -- for values holding no `&` or `#`, as the dialog's options
      do not. */
  lemma FilterUrlReadsBack(category: string, status: string)
    requires Plain(category) && Plain(status)
    ensures Param(FilterUrl(category, status), "category") == (if category != "" then Some(category) else None)
    ensures Param(FilterUrl(category, status), "status") == (if status != "" then Some(status) else None)
  {
    FilterCategoryReadsBack(category, status);
    FilterStatusReadsBack(category, status);
  }

  // Reading the search URL back.

  /** A plain query is read back whole. */
  lemma SearchQueryWhole(query: string)
    requires query != "" && Plain(query)
    ensures Param(SearchUrl(query), "query") == Some(query)
  {
    SearchPathIsPlain();
    KeysArePlain();
    var q := "query=" + query;
    SearchUrlIs(query);
    ParamAfterPath(SearchPath, q, "query");
    NoSepInConcat("query=", query, '&');
    NoSepInConcat("query=", query, '#');
    SplitWithoutSep(q, '&');
    LookupFirst(query, [], "query");
    assert [q] + [] == [q];
  }

  /** The first piece of a search URL is `query=` and a plain head. */
  lemma SearchPiece(head: string)
    requires Plain(head)
    ensures '?' !in SearchPath && '#' !in SearchPath
    ensures Plain("query=" + head)
  {
    SearchPathIsPlain();
    KeysArePlain();
    NoSepInConcat("query=", head, '&');
    NoSepInConcat("query=", head, '#');
  }

  /** A non-empty query's search URL as path, `?` and one `query=` piece. */
  lemma SearchUrlIs(query: string)
    requires query != ""
    ensures SearchUrl(query) == SearchPath + "?" + ("query=" + query)
  {
    Regroup(SearchPath + "?", "query=", query);
  }

  /** Concatenation regrouped, stated on variables so no literal is unfolded. */
  lemma Regroup(p: string, k: string, s: string)
    ensures p + k + s == p + (k + s)
  {
  }

  /** A value split around position `j`, inside a prefixed piece. */
  lemma CutAround(p: string, k: string, s: string, j: nat)
    requires j < |s|
    ensures p + (k + s) == p + (k + s[..j] + [s[j]] + s[j + 1..])
  {
    assert s == s[..j] + [s[j]] + s[j + 1..];
    assert k + s == k + s[..j] + [s[j]] + s[j + 1..];
  }

  /** The search URL cut around position `j` of its query. */
  lemma SearchUrlAround(query: string, j: nat)
    requires j < |query|
    ensures SearchUrl(query) == SearchPath + "?" + ("query=" + query[..j] + [query[j]] + query[j + 1..])
  {
    SearchUrlIs(query);
    CutAround(SearchPath + "?", "query=", query, j);
  }

  /** The characters before the first `&` or `#` form a plain value. */
  lemma PlainBefore(query: string, j: nat)
    requires j <= |query|
    requires forall k :: 0 <= k < j ==> query[k] !in {'&', '#'}
    ensures Plain(query[..j])
  {
    assert forall k :: 0 <= k < j ==> query[..j][k] == query[k];
  }

  /** A `#` after a plain head cuts the query read back to that head. */
  lemma CutAtFragment(query: string, j: nat)
    requires j < |query| && query[j] == '#' && Plain(query[..j])
    ensures Param(SearchUrl(query), "query") == Some(query[..j])
  {
    SearchUrlAround(query, j);
    assert [query[j]] == "#";
    SearchPiece(query[..j]);
    ReadBeforeFragment(SearchPath, "query=" + query[..j], "query", query[..j], query[j + 1..]);
  }

  /** An `&` after a plain head cuts the query read back to that head. */
  lemma CutAtSeparator(query: string, j: nat)
    requires j < |query| && query[j] == '&' && Plain(query[..j])
    ensures Param(SearchUrl(query), "query") == Some(query[..j])
  {
    SearchUrlAround(query, j);
    assert [query[j]] == "&";
    SearchPiece(query[..j]);
    ReadBeforeSeparator(SearchPath, "query=" + query[..j], "query", query[..j], query[j + 1..]);
  }

  /** A query holding `&` or `#` is read back only up to the first of them:
      the `&` starts another parameter, the `#` a fragment that is not sent. */
  lemma SearchQueryCutShort(query: string)
    requires !Plain(query)
    ensures Param(SearchUrl(query), "query").Some?
    ensures var v := Param(SearchUrl(query), "query").value;
              v < query && (query[|v|] == '&' || query[|v|] == '#') && Plain(v)
  {
    assert exists k :: 0 <= k < |query| && query[k] in {'&', '#'} by {
      if '&' in query {
        var k :| 0 <= k < |query| && query[k] == '&';
        assert query[k] in {'&', '#'};
      } else {
        var k :| 0 <= k < |query| && query[k] == '#';
        assert query[k] in {'&', '#'};
      }
    }
    var j := FirstIn(query, {'&', '#'});
    PlainBefore(query, j);
    if query[j] == '#' {
      CutAtFragment(query, j);
    } else {
      CutAtSeparator(query, j);
    }
  }

  /** A non-empty query is read back as the `query` parameter exactly when it
      holds neither `&` nor `#`: the query is not encoded, so an `&` in it
      starts another parameter and a `#` starts the fragment. */
  lemma SearchQueryReadsBack(query: string)
    requires query != ""
    ensures Param(SearchUrl(query), "query").Some?
    ensures Param(SearchUrl(query), "query") == Some(query) <==> Plain(query)
  {
    if Plain(query) {
      SearchQueryWhole(query);
    } else {
      SearchQueryCutShort(query);
    }
  }

  /** The list page's state. `error` is `None` until a fetch fails. */
  datatype ListState = ListState(
    stories: seq<StoryRecord>,
    loading: bool,
    error: Option<string>,
    searchQuery: string,
    showFilterModal: bool,
    category: string,
    status: string)

  /** The page as first rendered: loading, nothing listed, no error, every
      input empty and the filter dialog closed. */
  function Initial(): (st: ListState)
    ensures View(st) == LoadingNotice
    ensures st.stories == [] && st.error.None?
    ensures st.searchQuery == "" && st.category == "" && st.status == "" && !st.showFilterModal
  {
    ListState([], true, None, "", false, "", "")
  }

  /** The first render shows the loading notice; the mount-time fetch of the
      collection then shows the fetched stories, or the failure's message. */
  lemma FirstLoad(outcome: Result<seq<StoryRecord>, string>)
    ensures View(Initial()) == LoadingNotice
    ensures outcome.Success? ==> View(ApplyFetch(Initial(), outcome)) == StoryTable(outcome.value)
    ensures outcome.Failure? && outcome.error != "" ==>
              View(ApplyFetch(Initial(), outcome)) == ErrorNotice(outcome.error)
  {
  }

  /** What the page shows: the loading notice wins, then a non-empty error
      message (an empty message is falsy and shows the table), then the table. */
  datatype Screen = LoadingNotice | ErrorNotice(message: string) | StoryTable(stories: seq<StoryRecord>)

  function View(st: ListState): (r: Screen)
    ensures st.loading ==> r == LoadingNotice
    ensures !st.loading ==> (r.ErrorNotice? <==> st.error.Some? && st.error.value != "")
    ensures !st.loading && !(st.error.Some? && st.error.value != "") ==> r == StoryTable(st.stories)
    ensures r.ErrorNotice? ==> r.message == st.error.value
  {
    if st.loading then LoadingNotice
    else if st.error.Some? && st.error.value != "" then ErrorNotice(st.error.value)
    else StoryTable(st.stories)
  }

  /** The end of `fetchStories`: either way the page stops loading; a success
      replaces the stories and leaves any earlier error in place, a failure
      records its message and keeps the stories it had. */
  function ApplyFetch(st: ListState, outcome: Result<seq<StoryRecord>, string>): (r: ListState)
    ensures !r.loading
    ensures outcome.Success? ==> r.stories == outcome.value && r.error == st.error
    ensures outcome.Failure? ==> r.error == Some(outcome.error) && r.stories == st.stories
    ensures r.searchQuery == st.searchQuery && r.showFilterModal == st.showFilterModal
    ensures r.category == st.category && r.status == st.status
  {
    match outcome
    case Success(data) => st.(stories := data, loading := false)
    case Failure(message) => st.(error := Some(message), loading := false)
  }

  /** "Search": the URL fetched. Nothing in the state changes until the
      fetch completes. */
  function Search(st: ListState): (url: string)
    ensures st.searchQuery == "" ==> url == ListEndpoint
    ensures st.searchQuery != "" ==>
              SearchPath + "?query=" <= url && url[|SearchPath + "?query="|..] == st.searchQuery
    ensures st.searchQuery != "" ==> Param(url, "query").Some?
    ensures st.searchQuery != "" ==> (Param(url, "query") == Some(st.searchQuery) <==> Plain(st.searchQuery))
  {
    if st.searchQuery == "" then ListEndpoint
    else
      SearchQueryReadsBack(st.searchQuery);
      SearchUrl(st.searchQuery)
  }

  datatype FilterStep = FilterStep(state: ListState, url: string)

  /** "Apply Filter": fetch the filter URL and close the dialog. */
  function ApplyFilter(st: ListState): (r: FilterStep)
    ensures !r.state.showFilterModal
    ensures r.state == st.(showFilterModal := false)
    ensures r.url == FilterUrl(st.category, st.status)
    ensures SearchPath + "?" <= r.url
    ensures Plain(st.category) && Plain(st.status) ==>
              && Param(r.url, "category") == (if st.category != "" then Some(st.category) else None)
              && Param(r.url, "status") == (if st.status != "" then Some(st.status) else None)
  {
    var next := st.(showFilterModal := false);
    if Plain(st.category) && Plain(st.status) then
      FilterUrlReadsBack(st.category, st.status);
      FilterStep(next, FilterUrl(st.category, st.status))
    else FilterStep(next, FilterUrl(st.category, st.status))
  }

  /** Applying a run of fetch outcomes in order. */
  function ApplyAll(st: ListState, outcomes: seq<Result<seq<StoryRecord>, string>>): ListState
    decreases |outcomes|
  {
    if |outcomes| == 0 then st else ApplyAll(ApplyFetch(st, outcomes[0]), outcomes[1..])
  }

  /** No later fetch clears an error: once a non-empty message is recorded,
      every later outcome -- successes included -- leaves the page showing an
      error, as long as later failures carry a message too. */
  lemma {:induction false} ErrorIsSticky(st: ListState, outcomes: seq<Result<seq<StoryRecord>, string>>)
    requires st.error.Some? && st.error.value != ""
    requires forall k :: 0 <= k < |outcomes| && outcomes[k].Failure? ==> outcomes[k].error != ""
    requires |outcomes| > 0 || !st.loading
    ensures View(ApplyAll(st, outcomes)).ErrorNotice?
    decreases |outcomes|
  {
    if |outcomes| != 0 {
      var next := ApplyFetch(st, outcomes[0]);
      assert forall k :: 0 <= k < |outcomes[1..]| ==> outcomes[1..][k] == outcomes[k + 1];
      ErrorIsSticky(next, outcomes[1..]);
    }
  }
}
