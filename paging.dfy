/**
 * The search listing that Movie-app/src/pages/SearchResults.jsx and
 * Movie-app/src/components/SearchBar.jsx both keep, and the rule both apply when one
 * search call completes. A fetch is one atomic step: the code tags no request, so there is
 * nothing that would discard a late reply, and merging removes no duplicate `imdbID`.
 */
module Paging {
  import opened Wrappers
  import opened Catalog

  const NoResultsMessage := "No results found"

  /** The state fields the two search surfaces share. */
  datatype Listing = Listing(movies: seq<Movie>, error: Option<string>, loading: bool, totalResults: nat, page: int)

  /** `useState` initial values: no movies, no error, not loading, 0 results, page 1. */
  const Initial := Listing([], None, false, 0, 1)

  /** `data.Search`: an error object has no such field; any array, even empty, is truthy. */
  function Found(data: ServiceResult): (r: Option<seq<Movie>>)
    ensures r.Some? ==> data.Data? && data.reply.search == r
    ensures data.ErrorObject? ==> r.None?
  {
    if data.Data? then data.reply.search else None
  }

  /**
   * The state after one search call for `newPage` returns `data`: loading was set and the
   * error cleared before the call, and loading is off again on every path.
   */
  function Completed(prev: Listing, newPage: int, data: ServiceResult): (next: Listing)
    ensures !next.loading
    ensures next.error.None? <==> Found(data).Some?
    ensures Found(data).Some? ==> next.page == newPage && next.totalResults == data.reply.totalResults
    ensures Found(data).Some? && newPage == 1 ==> next.movies == Found(data).value
    ensures Found(data).Some? && newPage != 1 ==>
      |next.movies| == |prev.movies| + |Found(data).value|
      && next.movies[..|prev.movies|] == prev.movies
      && next.movies[|prev.movies|..] == Found(data).value
    ensures Found(data).None? ==>
      next.movies == [] && next.error == Some(NoResultsMessage)
      && next.page == prev.page && next.totalResults == prev.totalResults
  {
    var started := prev.(loading := true, error := None);
    match Found(data)
    case Some(results) =>
      started.(movies := if newPage == 1 then results else started.movies + results,
               totalResults := data.reply.totalResults, page := newPage, loading := false)
    case None =>
      started.(movies := [], error := Some(NoResultsMessage), loading := false)
  }

  /** `totalResults > movies.length`: the "Load More" button is rendered. */
  predicate ShowsLoadMore(l: Listing) {
    l.totalResults > |l.movies|
  }

  /** One completed call: the page it asked for and what the service returned. */
  datatype Fetch = Fetch(page: int, data: ServiceResult)

  /** The listing after the calls in `fetches` complete, in that order. */
  function Run(start: Listing, fetches: seq<Fetch>): Listing
    decreases |fetches|
  {
    if fetches == [] then start
    else
      var last := fetches[|fetches| - 1];
      Completed(Run(start, fetches[..|fetches| - 1]), last.page, last.data)
  }

  /** The records of every reply in `fetches`, in order (an error object contributes none). */
  function Collected(fetches: seq<Fetch>): seq<Movie>
    decreases |fetches|
  {
    if fetches == [] then []
    else Collected(fetches[..|fetches| - 1]) + Found(fetches[|fetches| - 1].data).GetOr([])
  }

  /** Every call in `fetches` found results. */
  predicate AllFound(fetches: seq<Fetch>) {
    forall i :: 0 <= i < |fetches| ==> Found(fetches[i].data).Some?
  }

  /**
   * A page-1 search followed by successful "Load More" calls shows the concatenation of
   * every reply's records, in arrival order, duplicates included; the page is the last one asked for.
   */
  lemma {:induction false} PagesAccumulate(start: Listing, fetches: seq<Fetch>)
    requires |fetches| > 0 && fetches[0].page == 1
    requires forall i :: 0 < i < |fetches| ==> fetches[i].page != 1
    requires AllFound(fetches)
    ensures Run(start, fetches).movies == Collected(fetches)
    ensures Run(start, fetches).page == fetches[|fetches| - 1].page
    ensures Run(start, fetches).error.None?
    decreases |fetches|
  {
    var init := fetches[..|fetches| - 1];
    if init == [] {
      assert Run(start, init) == start;
      assert Collected(init) == [];
    } else {
      assert init[0] == fetches[0];
      assert AllFound(init) by {
        forall i | 0 <= i < |init| ensures Found(init[i].data).Some? { assert init[i] == fetches[i]; }
      }
      PagesAccumulate(start, init);
    }
  }

  /** A failed call empties the list but keeps the count, so "Load More" stays offered and asks for the old page + 1. */
  lemma FailureKeepsLoadMore(prev: Listing, newPage: int, data: ServiceResult)
    requires Found(data).None? && prev.totalResults > 0
    ensures ShowsLoadMore(Completed(prev, newPage, data))
    ensures Completed(prev, newPage, data).page == prev.page
  {
  }

  /** Appending does not deduplicate: a record already listed is counted again. */
  lemma AppendKeepsDuplicates(prev: Listing, newPage: int, data: ServiceResult)
    requires Found(data).Some? && newPage != 1
    ensures multiset(Completed(prev, newPage, data).movies) == multiset(prev.movies) + multiset(Found(data).value)
  {
  }

  /**
   * The worked example: "batman" page 1 returns [a, b] of 4, page 2 returns [c, d] of 4;
   * the list is [a, b, c, d] and "Load More" is no longer offered.
   */
  lemma TwoPagesOfFour(a: Movie, b: Movie, c: Movie, d: Movie, r: Movie)
    ensures
      var page1 := Data(Reply("True", None, Some([a, b]), 4, r));
      var page2 := Data(Reply("True", None, Some([c, d]), 4, r));
      var after := Run(Initial, [Fetch(1, page1), Fetch(2, page2)]);
      after.movies == [a, b, c, d] && after.page == 2 && !ShowsLoadMore(after)
  {
  }
}
