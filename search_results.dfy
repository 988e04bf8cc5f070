/**
 * The search results page, Movie-app/src/pages/SearchResults.jsx: its state hooks as the
 * fields of one object, `fetchMovies` as an atomic step, and the effect on `[query, type]`.
 */
module SearchResultsPage {
  import opened Wrappers
  import opened Catalog
  import Paging

  class SearchResults {
    var movies: seq<Movie>
    var error: Option<string>
    var loading: bool
    var totalResults: nat
    var page: int
    var typ: string
    /** The `query` URL parameter, `""` when absent. */
    var query: string

    /** The listing part of the state. */
    function View(): Paging.Listing
      reads this
    {
      Paging.Listing(movies, error, loading, totalResults, page)
    }

    /** First render, before the effect runs. */
    constructor(query: string)
      ensures View() == Paging.Initial
      ensures this.query == query && typ == ""
    {
      movies, error, loading, totalResults, page := [], None, false, 0, 1;
      typ := "";
      this.query := query;
    }

    /** `fetchMovies(newPage)`; the service never throws, so its `catch` branch is unreachable. */
    method FetchMovies(api: Api, newPage: int)
      modifies this
      ensures View() == Paging.Completed(old(View()), newPage, SearchMovies(api, query, newPage, typ))
      ensures query == old(query) && typ == old(typ)
    {
      loading := true;
      error := None;
      var data := SearchMovies(api, query, newPage, typ);
      match Paging.Found(data) {
        case Some(results) =>
          movies := if newPage == 1 then results else movies + results;
          totalResults := data.reply.totalResults;
          page := newPage;
        case None =>
          movies := [];
          error := Some(Paging.NoResultsMessage);
      }
      loading := false;
    }

    /** The effect body: a page-1 fetch, only when the query is non-empty. */
    method RunQueryEffect(api: Api)
      modifies this
      ensures query == old(query) && typ == old(typ)
      ensures query == "" ==> View() == old(View())
      ensures query != "" ==> View() == Paging.Completed(old(View()), 1, SearchMovies(api, query, 1, typ))
    {
      if query != "" {
        FetchMovies(api, 1);
      }
    }

    /** The type selector; a different value re-runs the effect, the same value does not re-render. */
    method ChangeType(api: Api, newType: string)
      modifies this
      ensures typ == newType && query == old(query)
      ensures newType == old(typ) || query == "" ==> View() == old(View())
      ensures newType != old(typ) && query != "" ==>
        View() == Paging.Completed(old(View()), 1, SearchMovies(api, query, 1, newType))
    {
      var changed := newType != typ;
      typ := newType;
      if changed {
        RunQueryEffect(api);
      }
    }

    /** A new `query` URL parameter on the same page; a different value re-runs the effect. */
    method ChangeQuery(api: Api, newQuery: string)
      modifies this
      ensures query == newQuery && typ == old(typ)
      ensures newQuery == old(query) || newQuery == "" ==> View() == old(View())
      ensures newQuery != old(query) && newQuery != "" ==>
        View() == Paging.Completed(old(View()), 1, SearchMovies(api, newQuery, 1, typ))
    {
      var changed := newQuery != query;
      query := newQuery;
      if changed {
        RunQueryEffect(api);
      }
    }

    /** "Load More" is rendered. */
    predicate ShowsLoadMore()
      reads this
    {
      Paging.ShowsLoadMore(View())
    }

    /** The "Load More" button: rendered only while more results exist, disabled while loading. */
    method LoadMore(api: Api)
      requires ShowsLoadMore() && !loading
      modifies this
      ensures query == old(query) && typ == old(typ)
      ensures View() == Paging.Completed(old(View()), old(page) + 1, SearchMovies(api, query, old(page) + 1, typ))
    {
      FetchMovies(api, page + 1);
    }
  }
}
