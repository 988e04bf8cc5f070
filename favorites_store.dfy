/**
 * The favourites kept in local storage under one key, and the list operations that
 * Movie-app/src/pages/MovieDetails.jsx applies to them: a filter by `imdbID` to remove,
 * a plain append to add. Nothing keeps the list free of duplicates.
 */
module FavoritesStore {
  import opened Wrappers
  import opened Catalog

  const StorageKey := "favorites"

  /** `fav.imdbID === id`; an entry with no `imdbID` matches no id. */
  predicate Matches(m: Movie, id: string) {
    m.imdbID == Some(id)
  }

  /** `list.some(fav => fav.imdbID === id)`. */
  predicate HasId(list: seq<Movie>, id: string) {
    exists i :: 0 <= i < |list| && Matches(list[i], id)
  }

  /** `list.filter(fav => fav.imdbID !== id)`. */
  function Without(list: seq<Movie>, id: string): (r: seq<Movie>)
    ensures !HasId(r, id)
    ensures |r| <= |list|
    decreases |list|
  {
    if list == [] then []
    else
      var rest := Without(list[1..], id);
      assert list == [list[0]] + list[1..];
      if Matches(list[0], id) then rest else [list[0]] + rest
  }

  /** Every record without the id is kept as many times as it occurs. */
  lemma {:induction false} WithoutKeepsOthers(list: seq<Movie>, id: string, m: Movie)
    requires !Matches(m, id)
    ensures multiset(Without(list, id))[m] == multiset(list)[m]
    decreases |list|
  {
    if list != [] {
      WithoutKeepsOthers(list[1..], id, m);
      assert list == [list[0]] + list[1..];
    }
  }

  /** Filtering distributes over concatenation: the survivors keep their order. */
  lemma {:induction false} WithoutAppend(a: seq<Movie>, b: seq<Movie>, id: string)
    ensures Without(a + b, id) == Without(a, id) + Without(b, id)
    decreases |a|
  {
    if a == [] {
      assert a + b == b;
    } else {
      assert (a + b)[0] == a[0] && (a + b)[1..] == a[1..] + b;
      WithoutAppend(a[1..], b, id);
      if Matches(a[0], id) {
        assert Without(a, id) == Without(a[1..], id);
      } else {
        assert Without(a, id) == [a[0]] + Without(a[1..], id);
      }
    }
  }

  /** Filtering a list with no match leaves it unchanged. */
  lemma {:induction false} WithoutNoMatch(list: seq<Movie>, id: string)
    requires !HasId(list, id)
    ensures Without(list, id) == list
    decreases |list|
  {
    if list != [] {
      assert !Matches(list[0], id);
      assert !HasId(list[1..], id) by {
        forall i | 0 <= i < |list[1..]| ensures !Matches(list[1..][i], id) { assert list[1..][i] == list[i + 1]; }
      }
      WithoutNoMatch(list[1..], id);
    }
  }

  /** The list `handleFavoriteClick` writes back: filtered when the title is a favourite, appended otherwise. */
  function Toggled(stored: seq<Movie>, isFavorite: bool, id: string, movie: Movie): (r: seq<Movie>)
    ensures isFavorite ==> !HasId(r, id) && |r| <= |stored|
    ensures !isFavorite ==> |r| == |stored| + 1 && r[..|stored|] == stored && r[|stored|] == movie
  {
    if isFavorite then Without(stored, id) else stored + [movie]
  }

  /**
   * Adding then removing restores the stored list, provided it held no entry for `id` and
   * the added record carries `id`.
   */
  lemma {:induction false} ToggleTwiceRestores(stored: seq<Movie>, id: string, movie: Movie)
    requires !HasId(stored, id) && Matches(movie, id)
    ensures Toggled(Toggled(stored, false, id, movie), true, id, movie) == stored
  {
    WithoutAppend(stored, [movie], id);
    WithoutNoMatch(stored, id);
    assert Without([movie], id) == [];
  }

  /**
   * Removal goes by the page's id, not by the record the page appended: a record whose
   * `imdbID` differs from the route id is added by one click and kept by the next.
   */
  lemma {:induction false} ForeignRecordSurvivesRemoval(stored: seq<Movie>, id: string, movie: Movie)
    requires !Matches(movie, id)
    ensures Toggled(Toggled(stored, false, id, movie), true, id, movie) == Without(stored, id) + [movie]
  {
    WithoutAppend(stored, [movie], id);
    assert Without([movie], id) == [movie] by {
      assert [movie][1..] == [];
    }
  }

  /** Local storage, reduced to the one key `StorageKey` the app uses; `None` is an absent key. */
  class Storage {
    var favorites: Option<seq<Movie>>

    constructor(initial: Option<seq<Movie>>)
      ensures favorites == initial
    {
      favorites := initial;
    }

    /** `JSON.parse(localStorage.getItem("favorites")) || []`. */
    method GetFavorites() returns (list: seq<Movie>)
      ensures favorites.None? ==> list == []
      ensures favorites.Some? ==> list == favorites.value
    {
      list := favorites.GetOr([]);
    }

    /** `localStorage.setItem("favorites", JSON.stringify(list))`: the whole list is replaced. */
    method SetFavorites(list: seq<Movie>)
      modifies this
      ensures favorites == Some(list)
    {
      favorites := Some(list);
    }
  }
}
