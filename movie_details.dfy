/**
 * The title page, Movie-app/src/pages/MovieDetails.jsx: the detail effect seeds the
 * favourite flag from storage, and the heart button writes the toggled list back.
 */
module MovieDetailsPage {
  import opened Wrappers
  import opened Catalog
  import FavoritesStore

  class MovieDetails {
    /** The `:id` route parameter. */
    const id: string
    var movie: Option<ServiceResult>
    var loading: bool
    var error: Option<string>
    var isFavorite: bool

    /**
     * The page renders the title and its buttons: neither the loading nor the error text
     * is shown, and `movie` holds a detail reply. An error object has no `imdbRating`, and
     * `renderStars` throws on it, so no button is ever offered for one.
     */
    predicate ShowsTitle()
      reads this
    {
      !loading && error == None && movie.Some? && movie.value.Data?
    }

    /** First render: loading, no movie, not a favourite. */
    constructor(id: string)
      ensures !ShowsTitle()
      ensures this.id == id && movie == None && loading && error == None && !isFavorite
    {
      this.id := id;
      movie, loading, error, isFavorite := None, true, None, false;
    }

    /**
     * The detail effect: `movie` becomes whatever the service resolved to, and the title is
     * a favourite iff some stored record has its id (an absent key reads as no record).
     * The service never throws, so `error` is left as it was.
     */
    method FetchMovieDetails(api: Api, storage: FavoritesStore.Storage)
      modifies this`movie, this`loading, this`isFavorite
      ensures movie == Some(GetMovieDetails(api, id)) && !loading
      ensures isFavorite <==> FavoritesStore.HasId(storage.favorites.GetOr([]), id)
      ensures ShowsTitle() <==> error == None && GetMovieDetails(api, id).Data?
    {
      loading := true;
      var data := GetMovieDetails(api, id);
      movie := Some(data);
      var stored := storage.GetFavorites();
      isFavorite := FavoritesStore.HasId(stored, id);
      loading := false;
    }

    /**
     * `handleFavoriteClick`: re-reads storage, writes the filtered list, or the list with
     * the shown title's record appended, under the one key, and flips the flag.
     */
    method HandleFavoriteClick(storage: FavoritesStore.Storage)
      requires ShowsTitle()
      modifies this`isFavorite, storage
      ensures ShowsTitle()
      ensures storage.favorites ==
        Some(FavoritesStore.Toggled(old(storage.favorites.GetOr([])), old(isFavorite), id, movie.value.reply.record))
      ensures isFavorite == !old(isFavorite)
    {
      var stored := storage.GetFavorites();
      var updated := FavoritesStore.Toggled(stored, isFavorite, id, movie.value.reply.record);
      storage.SetFavorites(updated);
      isFavorite := !isFavorite;
    }
  }
}
