# Movie app: catalog client, search paging, favourites and login rules

This project models the state rules of a small React client for the OMDb movie
catalog. Network and storage calls become inputs. What is left is the
state the pages keep and how each reply or click changes it:

- **Catalog client** (`catalog.dfy`, module `Catalog`). `searchMovies` and `getMovieDetails` are pure functions of an
  `Api` (the endpoint's answer to one `Request`). Each of the four outcomes
  (reply, HTTP error, no response, failure before sending) is mapped to the reply
  body unchanged or to `{error: message}`. The contracts tie both calls to a reference table, `Classified`.
  A falsy argument gives the generic message and the same result whatever the endpoint would answer,
  so no request is made. A reply marked `Response: "False"` loses the endpoint's own text.
- **Search listing** (`paging.dfy`). This is the state shared by the results page and the search box,
  and the rule both apply when a call completes. Page 1 replaces the list and later pages append.
  A reply without `Search` empties the list. "Load More" is offered while
  `totalResults > movies.length`. `PagesAccumulate` proves that a page-1 search followed by successful
  "Load More" calls shows every reply's records in order.
- **Results page** (`search_results.dfy`), **search box** (`search_bar.dfy`) and **landing
  page** (`home.dfy`). These are classes whose fields are the components' state hooks. Their methods are the
  handlers and effects, each proved against `Paging.Completed` or `HomePage.Listed`.
- **Favourites** (`favorites_store.dfy`). Local storage is a class holding the one
  `"favorites"` key as an optional list. `Without` is the `filter` by `imdbID` and `Toggled` is what the heart
  button writes. `ToggleTwiceRestores` proves that adding then removing a title restores the stored list.
- **Title page** (`movie_details.dfy`), **navigation bar** (`navbar.dfy`) and **favourites page**
  (`favorites_page.dfy`). These read and write that storage. The heart button is offered only once the
  page holds a detail reply: an error object has no rating, and drawing the stars throws on it.
- **Login** (`login.dfy`). This is the guard chain over email and password.

`text.dfy` holds JavaScript's `trim` (ECMAScript white space and line terminators). It proves that a trimmed
string is empty iff every character is white space. `wrappers.dfy` holds `Option`.

Some behaviour a reader might expect of such a client is absent from the code, and the model follows the code:

- The code does not deduplicate by `imdbID` when it appends a page. `Paging.AppendKeepsDuplicates` shows repeated records are kept.
- The code does not tag requests, so nothing discards a late reply. Each fetch is one atomic step here.
- A failed fetch empties the list instead of keeping the records already shown. It also keeps `totalResults`,
  so "Load More" stays offered whenever the old count is non-zero (`Paging.FailureKeepsLoadMore`).
- The favourites list is not kept free of duplicate ids. Removal goes by the page's id, so a stored record
  whose `imdbID` differs from it is not removed by that page (`FavoritesStore.ForeignRecordSurvivesRemoval`).
- The favourites count in the navbar and the list on the favourites page are read from storage once, on mount. A heart click on a title page does not refresh them (`NavbarComponent.Navbar.Mount`, `FavoritesPage.FavoritesList.Mount` are the only reads).
- The landing page sends category words such as "popular" as free-text search queries.

## Model

| member | source | states |
|---|---|---|
| Catalog.HandleApiError | Movie-app/src/context/MovieService.jsx:12-23 | the message is never empty; a plain local Error (no response, no request) always gets the generic message |
| Catalog.Classified | Movie-app/src/context/MovieService.jsx:12-42 | reference table of the outcomes: only a reply not marked "False" is returned, and then unchanged; every other outcome is an error object with a non-empty message |
| Catalog.Settle | Movie-app/src/context/MovieService.jsx:31-37 | a reply is returned unchanged iff it is not marked "False"; an HTTP error throws with the response body's Error, a missing response throws with only the request set |
| Catalog.Attempt | Movie-app/src/context/MovieService.jsx:28-39 | an empty argument throws a plain Error before any request; otherwise the outcome of the one request decides |
| Catalog.Caught | Movie-app/src/context/MovieService.jsx:40-42 | the result is data iff nothing was thrown, and then the body unchanged; a caught error becomes an object with a non-empty message |
| Catalog.SearchMovies | Movie-app/src/context/MovieService.jsx:27-43 | an empty query gives the generic error; otherwise the result is the classification of the endpoint's answer to the request carrying apikey, s=query, page (default 1) and type (default "") |
| Catalog.GetMovieDetails | Movie-app/src/context/MovieService.jsx:46-62 | an empty id gives the generic error; otherwise the result is the classification of the answer to the request carrying i=id and plot=full |
| Catalog.EmptyQueryIsIndependentOfApi | Movie-app/src/context/MovieService.jsx:29 | with an empty query the result does not depend on the endpoint (no request) and is the generic error |
| Catalog.EmptyIdIsIndependentOfApi | Movie-app/src/context/MovieService.jsx:48 | with an empty id the result does not depend on the endpoint and is the generic error |
| Catalog.FalseReplyIsGeneric | Movie-app/src/context/MovieService.jsx:35-37 | a reply with Response "False" yields the generic message, not the endpoint's Error text |
| Catalog.HttpErrorMessage | Movie-app/src/context/MovieService.jsx:13-15 | an HTTP error yields response.data.Error when it is non-empty, else "An error occurred while fetching data." |
| Catalog.NoResponseMessage | Movie-app/src/context/MovieService.jsx:16-18 | a search that gets no response yields "Network error. Please check your internet connection." |
| Text.TrimEmptyIffAllSpace | Movie-app/src/components/SearchBar.jsx:36 | `!s.trim()` holds exactly when every character of s is white space |
| Text.TrimStart | Movie-app/src/components/SearchBar.jsx:36 | a suffix of the string, not starting with white space, after a dropped part that is all white space |
| Text.TrimEnd | Movie-app/src/components/SearchBar.jsx:36 | a prefix of the string, not ending with white space, before a dropped part that is all white space |
| Text.Trim | Movie-app/src/components/Navbar.jsx:19 | a run of the string that neither starts nor ends with white space, where everything dropped before and after it is white space only |
| Text.IsJsSpace | Movie-app/src/components/SearchBar.jsx:36 | the ECMAScript WhiteSpace and LineTerminator code points that `trim` strips |
| Paging.Completed | Movie-app/src/pages/SearchResults.jsx:27-46 | after a call loading is off; on a reply with Search page 1 replaces the list and later pages leave the old list as prefix and the reply's records as suffix, page and totalResults are taken from the call; otherwise the list is empty, the error is "No results found" and page and totalResults are kept |
| Paging.Found | Movie-app/src/pages/SearchResults.jsx:32 | `data.Search` is present only on a reply body, and then it is the reply's list; an error object has none |
| Paging.ShowsLoadMore | Movie-app/src/pages/SearchResults.jsx:101 | "Load More" is rendered iff totalResults > movies.length |
| Paging.PagesAccumulate | Movie-app/src/pages/SearchResults.jsx:32-35 | a page-1 fetch followed by successful later-page fetches shows the concatenation of all replies' records in order, on the last page asked for, with no error |
| Paging.FailureKeepsLoadMore | Movie-app/src/pages/SearchResults.jsx:36-38 | a failed call with a non-zero old count leaves "Load More" offered and the page unchanged |
| Paging.AppendKeepsDuplicates | Movie-app/src/pages/SearchResults.jsx:33 | appending a page adds its records' multiplicities to the old list's: nothing is deduplicated |
| Paging.TwoPagesOfFour | Movie-app/src/pages/SearchResults.jsx:101-104 | two pages [a,b] and [c,d] of 4 give [a,b,c,d] on page 2 and no more "Load More" |
| SearchResultsPage.SearchResults.constructor | Movie-app/src/pages/SearchResults.jsx:9-18 | initial listing: no movies, no error, not loading, 0 results, page 1, type "" |
| SearchResultsPage.SearchResults.FetchMovies | Movie-app/src/pages/SearchResults.jsx:27-46 | the new listing is Paging.Completed of the old one and the service's result for (query, newPage, type) |
| SearchResultsPage.SearchResults.RunQueryEffect | Movie-app/src/pages/SearchResults.jsx:20-25 | a page-1 fetch when the query is non-empty, no change otherwise |
| SearchResultsPage.SearchResults.ChangeType | Movie-app/src/pages/SearchResults.jsx:76-79 | a different type re-runs the effect (page-1 fetch when the query is non-empty); the same type changes nothing |
| SearchResultsPage.SearchResults.ChangeQuery | Movie-app/src/pages/SearchResults.jsx:18-25 | a different non-empty query fetches page 1; an empty or unchanged query changes nothing |
| SearchResultsPage.SearchResults.LoadMore | Movie-app/src/pages/SearchResults.jsx:101-109 | offered only while totalResults > movies.length and not loading; fetches page + 1 |
| SearchResultsPage.SearchResults.ShowsLoadMore | Movie-app/src/pages/SearchResults.jsx:101 | the page's own listing offers "Load More" |
| SearchBarComponent.SearchBar.constructor | Movie-app/src/components/SearchBar.jsx:26-32 | empty query, initial listing, type "" |
| SearchBarComponent.SearchBar.SetQuery | Movie-app/src/components/SearchBar.jsx:64 | the input sets the query |
| SearchBarComponent.SearchBar.ClearQuery | Movie-app/src/components/SearchBar.jsx:70 | the clear button resets the query to "" |
| SearchBarComponent.SearchBar.SetType | Movie-app/src/components/SearchBar.jsx:88 | the selector sets the type and fetches nothing |
| SearchBarComponent.SearchBar.HandleSearch | Movie-app/src/components/SearchBar.jsx:35-55 | a white-space-only query changes no state; otherwise the listing becomes Paging.Completed for the untrimmed query, newPage and type |
| SearchBarComponent.SearchBar.Search | Movie-app/src/components/SearchBar.jsx:37-54 | the listing becomes Paging.Completed for the query as typed, newPage and type |
| SearchBarComponent.SearchBar.SearchButton | Movie-app/src/components/SearchBar.jsx:76-77 | the search button always searches page 1 |
| SearchBarComponent.SearchBar.LoadMore | Movie-app/src/components/SearchBar.jsx:120-126 | offered only while totalResults > movies.length and not loading; searches page + 1 with the query the input holds now |
| SearchBarComponent.SearchBar.ShowsLoadMore | Movie-app/src/components/SearchBar.jsx:120 | the component's own listing offers "Load More" |
| HomePage.Listed | Movie-app/src/pages/Home.jsx:18 | the shown list is the reply's Search when present, and empty when there is none (an error object or a reply without Search) |
| HomePage.Home.constructor | Movie-app/src/pages/Home.jsx:9-12 | initial state: no movies, loading, no error, category "popular" |
| HomePage.Home.RunCategoryEffect | Movie-app/src/pages/Home.jsx:14-27 | the list is what searching the category gives, loading ends; error is untouched, so a service error shows an empty list with no error |
| HomePage.Home.HandleCategoryChange | Movie-app/src/pages/Home.jsx:29-42 | loading on and error cleared, then the list from searching the new category; the category is stored after the fetch, and the effect re-runs iff it changed |
| HomePage.Home.SelectCategory | Movie-app/src/pages/Home.jsx:14-42 | the handler followed by the re-run effect ends with the new category, loading off, no error, and the list from the last call made: the effect's second call when the category changed, the handler's call otherwise |
| FavoritesStore.Without | Movie-app/src/pages/MovieDetails.jsx:37 | no record with the id is left and the list does not grow |
| FavoritesStore.WithoutKeepsOthers | Movie-app/src/pages/MovieDetails.jsx:37 | every record without the id is kept as many times as it occurred |
| FavoritesStore.WithoutAppend | Movie-app/src/pages/MovieDetails.jsx:37 | filtering distributes over concatenation, so the survivors keep their order |
| FavoritesStore.WithoutNoMatch | Movie-app/src/pages/MovieDetails.jsx:37 | filtering a list without the id changes nothing |
| FavoritesStore.Matches | Movie-app/src/pages/MovieDetails.jsx:22 | `fav.imdbID === id`; a record with no imdbID matches no id |
| FavoritesStore.HasId | Movie-app/src/pages/MovieDetails.jsx:22 | `list.some(...)`: some record of the list matches the id |
| FavoritesStore.Toggled | Movie-app/src/pages/MovieDetails.jsx:36-40 | removing leaves no record with the id and does not grow the list; adding keeps the old list as prefix and puts the record last, with no duplicate check |
| FavoritesStore.ToggleTwiceRestores | Movie-app/src/pages/MovieDetails.jsx:33-43 | if no stored record has the id and the record carries it, adding then removing restores the stored list |
| FavoritesStore.ForeignRecordSurvivesRemoval | Movie-app/src/pages/MovieDetails.jsx:36-39 | a record not carrying the page's id is appended by one click and kept by the next |
| FavoritesStore.Storage.GetFavorites | Movie-app/src/pages/MovieDetails.jsx:34 | an absent key reads as the empty list, a present one as its list |
| FavoritesStore.Storage.SetFavorites | Movie-app/src/pages/MovieDetails.jsx:41 | the whole list is written under the key |
| FavoritesStore.Storage.constructor | Movie-app/src/pages/MovieDetails.jsx:34 | storage starts as whatever the key held before, possibly absent |
| MovieDetailsPage.MovieDetails.constructor | Movie-app/src/pages/MovieDetails.jsx:9-13 | initial state: no movie, loading, no error, not a favourite; the title is not shown |
| MovieDetailsPage.MovieDetails.ShowsTitle | Movie-app/src/pages/MovieDetails.jsx:63-84 | the title and its buttons are rendered: not loading, no error, and a detail reply to draw |
| MovieDetailsPage.MovieDetails.FetchMovieDetails | Movie-app/src/pages/MovieDetails.jsx:15-31 | movie becomes the service result, loading ends, error is untouched, and isFavorite holds iff some stored record has the id; the title is shown afterwards iff the service returned a detail reply |
| MovieDetailsPage.MovieDetails.HandleFavoriteClick | Movie-app/src/pages/MovieDetails.jsx:33-43 | offered only while the title is shown; storage holds the toggled list of what it held before (the reply's record appended, or every record with the id filtered out), and isFavorite is negated |
| NavbarComponent.SearchTarget | Movie-app/src/components/Navbar.jsx:18-23 | no navigation iff the query is white space only; otherwise "/search?query=" followed by the untrimmed query |
| NavbarComponent.Navbar.constructor | Movie-app/src/components/Navbar.jsx:8-10 | menu closed, empty query, count 0 |
| NavbarComponent.Navbar.Mount | Movie-app/src/components/Navbar.jsx:13-16 | the count is the stored list's length, 0 for an absent key |
| NavbarComponent.Navbar.SetQuery | Movie-app/src/components/Navbar.jsx:42 | the input sets the query |
| NavbarComponent.Navbar.HandleSearch | Movie-app/src/components/Navbar.jsx:18-23 | navigates to SearchTarget(query) and closes the menu when it navigates |
| NavbarComponent.Navbar.ToggleMenu | Movie-app/src/components/Navbar.jsx:60 | the menu button negates menuOpen |
| NavbarComponent.Navbar.CloseMenu | Movie-app/src/components/Navbar.jsx:69 | a backdrop click closes the menu |
| NavbarComponent.Navbar.ShowsBadge | Movie-app/src/components/Navbar.jsx:52 | the count badge is rendered iff favoritesCount > 0 |
| FavoritesPage.Links | Movie-app/src/pages/Favorites.jsx:56-62 | one link per entry, in stored order, "/movie/" followed by its id ("undefined" when it has none) |
| FavoritesPage.MovieLink | Movie-app/src/pages/Favorites.jsx:62 | "/movie/" followed by the record's imdbID, or the text "undefined" when it has none |
| FavoritesPage.FavoritesList.constructor | Movie-app/src/pages/Favorites.jsx:8 | the list starts empty |
| FavoritesPage.FavoritesList.Mount | Movie-app/src/pages/Favorites.jsx:11-14 | the list is the stored one, empty for an absent key |
| FavoritesPage.FavoritesList.ShowsBadge | Movie-app/src/pages/Favorites.jsx:32-36 | the count badge is rendered iff the list is non-empty |
| FavoritesPage.FavoritesList.ShowsEmptyMessage | Movie-app/src/pages/Favorites.jsx:41-42 | the empty-state message is rendered iff the list is empty |
| FavoritesPage.FavoritesList.CardLinks | Movie-app/src/pages/Favorites.jsx:41-62 | one card per entry; there are none exactly when the empty-state message is shown |
| LoginPage.HandleLogin | Movie-app/src/pages/Login.jsx:13-25 | navigates to "/" iff the email is non-empty and the password has at least 6 characters; an empty field gives "All fields are required" before the length check; a short password gives the length message; a success leaves the error as it was, and an error once set stays set |

## Left out

- The HTTP client and the OMDb service: each call's answer is the `Api` parameter, a function of the request. The base URL is only a constant.
- `parseInt` of `totalResults`: the count is a given natural number, so a `NaN` count is not modelled.
- JSON text and `localStorage` as strings: storage is an optional list of records under the one key.
- Object fields the pages only render (plot, genre, actors, rating) are not part of `Catalog.Movie`.
- Effect scheduling and interleaving of asynchronous replies: every fetch is one atomic step. Races between overlapping fetches are therefore not described.
- The `catch` branches of the pages: the service returns on every path and the pages' remaining statements cannot throw on the modelled values. So "Failed to fetch movies. Please try again." and "Failed to fetch movie details. Please try again later." are never set.
- MovieDetailsPage.MovieDetails.ShowsTitle: `renderStars` throws while rendering on a missing, non-numeric or out-of-range rating, and nothing catches it, so the page shows no heart button then. The model captures the missing rating of an error object and does not capture an "N/A" or out-of-range rating on a detail reply, because the rating text and its floating-point parsing are not modelled.
- The ticket `alert`, animations, icons and styling: rendering with no state rule.
- URL handling: the navbar's target is built by concatenation and is not URL-encoded. The results page receives the `query` parameter as a given string.
- The route table, the card component's single navigation and the sign-up form: no logic to model.
- LoginPage.HandleLogin: the browser validates the `type="email"` input before the form's `submit` handler runs. It strips white space from both ends and refuses a non-empty malformed address such as "abc", and then `handleLogin` is never called. The model starts at `handleLogin`, so it navigates for any non-empty email, and a blank-looking email is not mapped to "".
- Password length counts characters (Unicode scalar values), not UTF-16 code units.
- Logging to the console.
