/**
 * The favourites page, Movie-app/src/pages/Favorites.jsx: a snapshot of the stored list
 * taken on mount, shown in stored order with a count badge or an empty-state message.
 */
module FavoritesPage {
  import opened Catalog
  import FavoritesStore

  /** `/movie/${movie.imdbID}`; a missing id is interpolated as the text "undefined". */
  function MovieLink(m: Movie): string {
    "/movie/" + m.imdbID.GetOr("undefined")
  }

  /** The link of every entry, in stored order. */
  function Links(list: seq<Movie>): (r: seq<string>)
    ensures |r| == |list|
    ensures forall i :: 0 <= i < |list| ==> r[i] == MovieLink(list[i])
    decreases |list|
  {
    if list == [] then [] else [MovieLink(list[0])] + Links(list[1..])
  }

  class FavoritesList {
    var favorites: seq<Movie>

    constructor()
      ensures favorites == []
    {
      favorites := [];
    }

    /** The mount effect: the stored list, or none when the key is absent; never refreshed afterwards. */
    method Mount(storage: FavoritesStore.Storage)
      modifies this
      ensures favorites == storage.favorites.GetOr([])
    {
      favorites := storage.GetFavorites();
    }

    /** The count badge is rendered. */
    predicate ShowsBadge()
      reads this
    {
      |favorites| > 0
    }

    /** "No favorite movies added yet." is rendered instead of the grid. */
    predicate ShowsEmptyMessage()
      reads this
    {
      |favorites| == 0
    }

    /** The cards' navigation targets. */
    function CardLinks(): (r: seq<string>)
      reads this
      ensures |r| == |favorites|
      ensures ShowsEmptyMessage() <==> r == []
    {
      Links(favorites)
    }
  }
}
