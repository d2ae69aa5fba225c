/** The category page: the listings of one category, fetched a page at a
    time. The first fetch replaces the list, "Load more" appends the next
    page after the cursor (the last document of the most recent page), and a
    failed fetch changes nothing. Each query result is an input; its
    filtering and ordering are the database's. */
module Category {
  import opened Optional

  /** A document of a query result: its id and its data. */
  datatype Doc<D> = Doc(id: string, data: D)

  /** An entry of the page's list, `{ id, data }`. */
  datatype Listing<D> = Listing(id: string, data: D)

  /** The outcome of `getDocs`: a page of documents in query order, or an error. */
  datatype QueryResult<D> = QueryFailed | QueryPage(docs: seq<Doc<D>>)

  /** The `limit` of the first query and of each "Load more" query. */
  const FirstPageLimit: nat := 5
  const NextPageLimit: nat := 4

  function ListingOf<D>(doc: Doc<D>): Listing<D> {
    Listing(doc.id, doc.data)
  }

  /** The entries a page contributes, in query order. */
  function ListingsOf<D>(docs: seq<Doc<D>>): seq<Listing<D>> {
    seq(|docs|, i requires 0 <= i < |docs| => ListingOf(docs[i]))
  }

  /** `docs[docs.length - 1]`: undefined for an empty page. */
  function LastDoc<D>(docs: seq<Doc<D>>): (last: Option<Doc<D>>)
    ensures last.Some? <==> |docs| > 0
    ensures last.Some? ==> last.value == docs[|docs| - 1]
  {
    if |docs| == 0 then None else Some(docs[|docs| - 1])
  }

  /** The page's three pieces of state; `listings` is None before the first
      successful fetch. */
  datatype PageState<D> = PageState(listings: Option<seq<Listing<D>>>, loading: bool, cursor: Option<Doc<D>>)

  function InitialState<D>(): PageState<D> {
    PageState(None, true, None)
  }

  /** The first fetch: a page replaces the list and moves the cursor; an
      error leaves everything as it was. */
  function AfterFirstFetch<D>(s: PageState<D>, result: QueryResult<D>): PageState<D> {
    match result
    case QueryFailed => s
    case QueryPage(docs) => PageState(Some(ListingsOf(docs)), false, LastDoc(docs))
  }

  /** "Load more": a page is appended and moves the cursor; an error leaves
      everything as it was. */
  function AfterLoadMore<D>(s: PageState<D>, result: QueryResult<D>): PageState<D>
    requires s.listings.Some?
  {
    match result
    case QueryFailed => s
    case QueryPage(docs) => PageState(Some(s.listings.value + ListingsOf(docs)), false, LastDoc(docs))
  }

  /** What the page shows. */
  datatype View<D> =
    | Spinner
    | Grid(items: seq<Listing<D>>, loadMore: bool)
    | NoOffers   // "There are no current offers"

  function Render<D>(s: PageState<D>): View<D> {
    if s.loading then Spinner
    else if s.listings.Some? && |s.listings.value| > 0 then Grid(s.listings.value, s.cursor.Some?)
    else NoOffers
  }

  /** The "Load more" button is on screen. */
  predicate CanLoadMore<D>(s: PageState<D>) {
    Render(s).Grid? && Render(s).loadMore
  }

  /** The button shows exactly when the list is loaded, non-empty and the
      cursor is defined. */
  lemma CanLoadMoreExactly<D>(s: PageState<D>)
    ensures CanLoadMore(s) <==> !s.loading && s.listings.Some? && |s.listings.value| > 0 && s.cursor.Some?
  {
  }

  /** Builds a page's entries with `push`, one document at a time. */
  method CollectPage<D>(docs: seq<Doc<D>>) returns (page: seq<Listing<D>>)
    ensures |page| == |docs|
    ensures forall i :: 0 <= i < |docs| ==> page[i] == Listing(docs[i].id, docs[i].data)
    ensures page == ListingsOf(docs)
  {
    page := [];
    var i := 0;
    while i < |docs|
      invariant 0 <= i <= |docs|
      invariant |page| == i
      invariant forall j :: 0 <= j < i ==> page[j] == Listing(docs[j].id, docs[j].data)
    {
      page := page + [Listing(docs[i].id, docs[i].data)];
      i := i + 1;
    }
  }

  /** The page component: its state fields and its two fetch handlers. */
  class CategoryPage<D> {
    var listings: Option<seq<Listing<D>>>
    var loading: bool
    var lastFetchListing: Option<Doc<D>>

    function State(): PageState<D>
      reads this
    {
      PageState(listings, loading, lastFetchListing)
    }

    constructor ()
      ensures State() == InitialState()
    {
      listings := None;
      loading := true;
      lastFetchListing := None;
    }

    /** The first fetch, limited to five documents. */
    method FetchListings(result: QueryResult<D>)
      requires result.QueryPage? ==> |result.docs| <= FirstPageLimit
      modifies this
      ensures State() == AfterFirstFetch(old(State()), result)
    {
      match result {
        case QueryFailed =>
          // The error is reported and the state is left alone.
        case QueryPage(docs) =>
          lastFetchListing := LastDoc(docs);
          var page := CollectPage(docs);
          listings := Some(page);
          loading := false;
      }
    }

    /** "Load more", limited to four documents after the cursor; the button
        is its only caller. */
    method FetchMoreListings(result: QueryResult<D>)
      requires CanLoadMore(State())
      requires result.QueryPage? ==> |result.docs| <= NextPageLimit
      modifies this
      ensures State() == AfterLoadMore(old(State()), result)
    {
      match result {
        case QueryFailed =>
        case QueryPage(docs) =>
          lastFetchListing := LastDoc(docs);
          var page := CollectPage(docs);
          listings := Some(listings.value + page);
          loading := false;
      }
    }
  }

  // ---------------------------------------------------------------------
  // Properties of the state machine

  /** The first fetch lists the page's documents in query order, stops the
      spinner and makes the cursor the page's last document. */
  lemma FirstFetchReplaces<D>(s: PageState<D>, docs: seq<Doc<D>>)
    ensures var t := AfterFirstFetch(s, QueryPage(docs));
      && t.listings.Some?
      && |t.listings.value| == |docs|
      && (forall i :: 0 <= i < |docs| ==> t.listings.value[i] == Listing(docs[i].id, docs[i].data))
      && !t.loading
      && (t.cursor.Some? <==> |docs| > 0)
      && (t.cursor.Some? ==> t.cursor.value == docs[|docs| - 1])
  {
  }

  /** "Load more" keeps the earlier entries as a prefix, in their order, and
      adds the page's documents after them. */
  lemma LoadMoreAppends<D>(s: PageState<D>, docs: seq<Doc<D>>)
    requires s.listings.Some?
    ensures var t := AfterLoadMore(s, QueryPage(docs));
      && t.listings.Some?
      && |t.listings.value| == |s.listings.value| + |docs|
      && t.listings.value[..|s.listings.value|] == s.listings.value
      && (forall i :: 0 <= i < |docs| ==>
            t.listings.value[|s.listings.value| + i] == Listing(docs[i].id, docs[i].data))
      && !t.loading
      && (t.cursor.Some? <==> |docs| > 0)
      && (t.cursor.Some? ==> t.cursor.value == docs[|docs| - 1])
  {
  }

  /** A failed fetch changes nothing; before any success that means the
      spinner stays up. */
  lemma FailedFetchChangesNothing<D>(s: PageState<D>)
    ensures AfterFirstFetch(s, QueryFailed) == s
    ensures s.listings.Some? ==> AfterLoadMore(s, QueryFailed) == s
    ensures Render(AfterFirstFetch(InitialState<D>(), QueryFailed)) == Spinner
  {
  }

  /** An empty page hides the button, which ends pagination. */
  lemma EmptyPageEndsPagination<D>(s: PageState<D>)
    ensures !CanLoadMore(AfterFirstFetch(s, QueryPage([])))
    ensures s.listings.Some? ==> !CanLoadMore(AfterLoadMore(s, QueryPage([])))
  {
  }

  /** A successful fetch of a non-empty page always offers "Load more", even
      when the page was the last one. */
  lemma NonEmptyPageOffersMore<D>(s: PageState<D>, docs: seq<Doc<D>>)
    requires |docs| > 0
    ensures CanLoadMore(AfterFirstFetch(s, QueryPage(docs)))
    ensures s.listings.Some? ==> CanLoadMore(AfterLoadMore(s, QueryPage(docs)))
  {
  }

  /** A series of "Load more" results applied one after another. */
  function LoadMoreRun<D>(s: PageState<D>, results: seq<QueryResult<D>>): PageState<D>
    requires s.listings.Some?
    decreases |results|
  {
    if |results| == 0 then s
    else LoadMoreRun(AfterLoadMore(s, results[0]), results[1..])
  }

  /** The entries the successful pages of a series contribute, in order. */
  function Fetched<D>(results: seq<QueryResult<D>>): seq<Listing<D>>
    decreases |results|
  {
    if |results| == 0 then []
    else (if results[0].QueryPage? then ListingsOf(results[0].docs) else []) + Fetched(results[1..])
  }

  predicate PagesWithin<D>(results: seq<QueryResult<D>>, limit: nat) {
    forall i :: 0 <= i < |results| && results[i].QueryPage? ==> |results[i].docs| <= limit
  }

  /** After any series of "Load more" results the list is the earlier list
      followed by every successful page in order, and it grew by at most
      four entries per click. */
  lemma {:induction false} LoadMoreRunAppends<D>(s: PageState<D>, results: seq<QueryResult<D>>)
    requires s.listings.Some?
    requires PagesWithin(results, NextPageLimit)
    ensures LoadMoreRun(s, results).listings == Some(s.listings.value + Fetched(results))
    ensures |Fetched(results)| <= NextPageLimit * |results|
    decreases |results|
  {
    if |results| > 0 {
      var next := AfterLoadMore(s, results[0]);
      assert PagesWithin(results[1..], NextPageLimit) by {
        forall i | 0 <= i < |results[1..]| && results[1..][i].QueryPage?
          ensures |results[1..][i].docs| <= NextPageLimit
        {
          assert results[1..][i] == results[i + 1];
        }
      }
      LoadMoreRunAppends(next, results[1..]);
      var head := if results[0].QueryPage? then ListingsOf(results[0].docs) else [];
      assert next.listings.value == s.listings.value + head;
      assert s.listings.value + head + Fetched(results[1..]) == s.listings.value + Fetched(results);
    } else {
      assert s.listings.value + Fetched(results) == s.listings.value;
    }
  }

  /** From the opening state: a first page of at most five and any series
      of "Load more" clicks give at most 5 + 4 * clicks entries, with the
      first page first. */
  lemma PaginationBound<D>(first: seq<Doc<D>>, results: seq<QueryResult<D>>)
    requires |first| <= FirstPageLimit
    requires PagesWithin(results, NextPageLimit)
    ensures var t := LoadMoreRun(AfterFirstFetch(InitialState<D>(), QueryPage(first)), results);
      && t.listings.Some?
      && |first| <= |t.listings.value| <= FirstPageLimit + NextPageLimit * |results|
      && t.listings.value[..|first|] == ListingsOf(first)
  {
    var s := AfterFirstFetch(InitialState<D>(), QueryPage(first));
    LoadMoreRunAppends(s, results);
  }
}
