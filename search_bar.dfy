/**
 * The search box component, Movie-app/src/components/SearchBar.jsx: its own query input,
 * type selector and result listing; `handleSearch` is guarded by `query.trim()`.
 */
module SearchBarComponent {
  import opened Wrappers
  import opened Catalog
  import Text
  import Paging

  class SearchBar {
    var query: string
    var movies: seq<Movie>
    var error: Option<string>
    var loading: bool
    var page: int
    var totalResults: nat
    var typ: string

    /** The listing part of the state. */
    function View(): Paging.Listing
      reads this
    {
      Paging.Listing(movies, error, loading, totalResults, page)
    }

    constructor()
      ensures View() == Paging.Initial
      ensures query == "" && typ == ""
    {
      query, typ := "", "";
      movies, error, loading, page, totalResults := [], None, false, 1, 0;
    }

    /** Typing in the input. */
    method SetQuery(q: string)
      modifies this`query
      ensures query == q
    {
      query := q;
    }

    /** The clear button. */
    method ClearQuery()
      modifies this`query
      ensures query == ""
    {
      query := "";
    }

    /** The type selector: no effect depends on it, so nothing is fetched. */
    method SetType(t: string)
      modifies this`typ
      ensures typ == t
    {
      typ := t;
    }

    /**
     * `handleSearch(newPage)`: an empty or white-space-only query changes nothing; otherwise
     * the untrimmed query is searched.
     */
    method HandleSearch(api: Api, newPage: int)
      modifies this
      ensures query == old(query) && typ == old(typ)
      ensures Text.AllSpace(query) ==> View() == old(View())
      ensures !Text.AllSpace(query) ==>
        View() == Paging.Completed(old(View()), newPage, SearchMovies(api, query, newPage, typ))
    {
      Text.TrimEmptyIffAllSpace(query);
      if Text.Trim(query) == "" {
        return;
      }
      Search(api, newPage);
    }

    /** The `try` block of `handleSearch`: later pages append to the list held when the call began. */
    method Search(api: Api, newPage: int)
      modifies this
      ensures query == old(query) && typ == old(typ)
      ensures View() == Paging.Completed(old(View()), newPage, SearchMovies(api, query, newPage, typ))
    {
      loading := true;
      error := None;
      var data := SearchMovies(api, query, newPage, typ);
      match Paging.Found(data) {
        case Some(results) =>
          movies := if newPage == 1 then results else movies + results;
          totalResults := data.reply.totalResults;
          page := newPage;
        case None =>
          movies := [];
          error := Some(Paging.NoResultsMessage);
      }
      loading := false;
    }

    /** The search button always starts again at page 1. */
    method SearchButton(api: Api)
      modifies this
      ensures query == old(query) && typ == old(typ)
      ensures Text.AllSpace(query) ==> View() == old(View())
      ensures !Text.AllSpace(query) ==>
        View() == Paging.Completed(old(View()), 1, SearchMovies(api, query, 1, typ))
    {
      HandleSearch(api, 1);
    }

    /** "Load More" is rendered. */
    predicate ShowsLoadMore()
      reads this
    {
      Paging.ShowsLoadMore(View())
    }

    /**
     * The "Load More" button asks for page + 1 with whatever the input holds now, which need
     * not be the query that produced the list.
     */
    method LoadMore(api: Api)
      requires ShowsLoadMore() && !loading
      modifies this
      ensures query == old(query) && typ == old(typ)
      ensures Text.AllSpace(query) ==> View() == old(View())
      ensures !Text.AllSpace(query) ==>
        View() == Paging.Completed(old(View()), old(page) + 1, SearchMovies(api, query, old(page) + 1, typ))
    {
      HandleSearch(api, page + 1);
    }
  }
}
