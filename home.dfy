/**
 * The landing page, Movie-app/src/pages/Home.jsx: a category word is sent as a search
 * query, by the effect on `[category]` and by the category buttons.
 */
module HomePage {
  import opened Wrappers
  import opened Catalog
  import Paging

  /** `data.Search || []`: the titles of a reply, none for an error object or a reply without `Search`. */
  function Listed(data: ServiceResult): (r: seq<Movie>)
    ensures Paging.Found(data).Some? ==> r == Paging.Found(data).value
    ensures Paging.Found(data).None? ==> r == []
  {
    Paging.Found(data).GetOr([])
  }

  class Home {
    var movies: seq<Movie>
    var loading: bool
    var error: Option<string>
    var category: string

    /** First render: the "popular" category, already loading. */
    constructor()
      ensures movies == [] && loading && error == None && category == "popular"
    {
      movies, loading, error, category := [], true, None, "popular";
    }

    /**
     * The effect body: it neither sets `loading` first nor clears `error`; the service never
     * throws, so `error` is never set here and a failed call shows an empty list.
     */
    method RunCategoryEffect(api: Api)
      modifies this`movies, this`loading
      ensures movies == Listed(SearchMovies(api, category))
      ensures !loading
    {
      var data := SearchMovies(api, category);
      movies := Listed(data);
      loading := false;
    }

    /**
     * `handleCategoryChange(newCategory)`: the category is stored only after the fetch;
     * `rerun` tells whether that change makes React re-run the effect (a different value).
     */
    method HandleCategoryChange(api: Api, newCategory: string) returns (rerun: bool)
      modifies this
      ensures movies == Listed(SearchMovies(api, newCategory))
      ensures category == newCategory && !loading && error == None
      ensures rerun <==> newCategory != old(category)
    {
      loading := true;
      error := None;
      var data := SearchMovies(api, newCategory);
      movies := Listed(data);
      rerun := newCategory != category;
      category := newCategory;
      loading := false;
    }

    /**
     * A category button as React plays it out: the handler's call answered by `api`, then,
     * when the category changed, the effect's second call for the same category answered
     * by `refetch`. The list shown at the end is the answer to the last call made.
     */
    method SelectCategory(api: Api, refetch: Api, newCategory: string)
      modifies this
      ensures movies == Listed(SearchMovies(if newCategory != old(category) then refetch else api, newCategory))
      ensures category == newCategory && !loading && error == None
    {
      var rerun := HandleCategoryChange(api, newCategory);
      if rerun {
        RunCategoryEffect(refetch);
      }
    }
  }
}
