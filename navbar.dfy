/**
 * The navigation bar, Movie-app/src/components/Navbar.jsx: a search box that navigates to
 * the results page, a favourites badge read once on mount, and the mobile menu flag.
 */
module NavbarComponent {
  import opened Wrappers
  import FavoritesStore
  import Text

  const SearchPath := "/search?query="

  /**
   * Where `handleSearch` navigates: nowhere for a blank query, otherwise to the results
   * page with the query as typed (untrimmed, not URL-encoded).
   */
  function SearchTarget(query: string): (r: Option<string>)
    ensures r.None? <==> Text.AllSpace(query)
    ensures r.Some? ==> r.value == SearchPath + query
  {
    Text.TrimEmptyIffAllSpace(query);
    if Text.Trim(query) == "" then None else Some(SearchPath + query)
  }

  class Navbar {
    var menuOpen: bool
    var query: string
    var favoritesCount: nat

    constructor()
      ensures !menuOpen && query == "" && favoritesCount == 0
    {
      menuOpen, query, favoritesCount := false, "", 0;
    }

    /** The mount effect, the only place the count is read: later storage writes do not reach it. */
    method Mount(storage: FavoritesStore.Storage)
      modifies this`favoritesCount
      ensures favoritesCount == |storage.favorites.GetOr([])|
    {
      var stored := storage.GetFavorites();
      favoritesCount := |stored|;
    }

    /** Typing in either search input. */
    method SetQuery(q: string)
      modifies this`query
      ensures query == q
    {
      query := q;
    }

    /** `handleSearch`: `target` is the navigation, if any; a search also closes the menu. */
    method HandleSearch() returns (target: Option<string>)
      modifies this`menuOpen
      ensures target == SearchTarget(query)
      ensures menuOpen == (if target.Some? then false else old(menuOpen))
    {
      target := SearchTarget(query);
      if target.Some? {
        menuOpen := false;
      }
    }

    /** The menu button. */
    method ToggleMenu()
      modifies this`menuOpen
      ensures menuOpen == !old(menuOpen)
    {
      menuOpen := !menuOpen;
    }

    /** A click on the backdrop. */
    method CloseMenu()
      modifies this`menuOpen
      ensures !menuOpen
    {
      menuOpen := false;
    }

    /** The red count badge on the heart icon is rendered. */
    predicate ShowsBadge()
      reads this
    {
      favoritesCount > 0
    }
  }
}
