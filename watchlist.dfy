/**
 * The watched list of the app: an ordered sequence of records keyed by
 * `imdbID`, replaced wholesale on every change (append on add, filter on
 * delete), and the two lookups the detail panel makes on it.
 */
module Watchlist {
  import opened Wrappers

  /**
   * One watched movie. `runtime` is the number of minutes parsed from the
   * catalog's runtime text; `None` stands for a runtime text whose first
   * token is not a plain decimal integer, which is outside this model.
   */
  datatype WatchedMovie = WatchedMovie(
    imdbID: string,
    title: string,
    year: string,
    poster: string,
    imdbRating: real,
    userRating: int,
    runtime: Option<nat>)

  type List = seq<WatchedMovie>

  /** Some record of `list` carries the identifier `id`. */
  predicate Has(list: List, id: string)
  {
    exists i :: 0 <= i < |list| && list[i].imdbID == id
  }

  /** No two records of `list` share an identifier. */
  predicate Distinct(list: List)
  {
    forall i, j :: 0 <= i < j < |list| ==> list[i].imdbID != list[j].imdbID
  }

  /** The identifiers of `list`, in order (`watchedList.map(movie => movie.imdbID)`). */
  function Ids(list: List): (ids: seq<string>)
    ensures |ids| == |list|
    ensures forall i :: 0 <= i < |list| ==> ids[i] == list[i].imdbID
  {
    seq(|list|, i requires 0 <= i < |list| => list[i].imdbID)
  }

  /** `handleAddWatchedMovie`: the new list is the old one with `m` appended. */
  function Add(list: List, m: WatchedMovie): (r: List)
    ensures |r| == |list| + 1
    ensures r[|list|] == m
    ensures forall i :: 0 <= i < |list| ==> r[i] == list[i]
  {
    list + [m]
  }

  /**
   * `handleDeleteWatchedMovie`: keep the records whose identifier differs
   * from `id`, in their original order. Every record with that identifier
   * goes, every other record keeps its multiplicity.
   */
  function Delete(list: List, id: string): (r: List)
    ensures |r| <= |list|
    ensures forall m: WatchedMovie :: m in r <==> m in list && m.imdbID != id
    ensures forall m: WatchedMovie :: m.imdbID != id ==> multiset(r)[m] == multiset(list)[m]
  {
    if list == [] then []
    else
      assert list == [list[0]] + list[1..];
      var rest := Delete(list[1..], id);
      if list[0].imdbID == id then rest else [list[0]] + rest
  }

  /** `isWatched`: the selected identifier occurs among the list's identifiers. */
  function IsWatched(list: List, selected: string): (b: bool)
    ensures b <==> Has(list, selected)
  {
    var ids := Ids(list);
    assert forall i :: 0 <= i < |list| ==> ids[i] == list[i].imdbID;
    selected in ids
  }

  /** The position of the first record carrying `id`, if any (`Array.prototype.find`). */
  function FirstIndex(list: List, id: string): (r: Option<nat>)
    ensures r.None? <==> !Has(list, id)
    ensures r.Some? ==> r.value < |list| && list[r.value].imdbID == id
    ensures r.Some? ==> forall j :: 0 <= j < r.value ==> list[j].imdbID != id
  {
    if list == [] then None
    else if list[0].imdbID == id then Some(0)
    else
      match FirstIndex(list[1..], id)
      case None => None
      case Some(k) => Some(k + 1)
  }

  /**
   * `watchedUserRating`: the user rating of the first record carrying the
   * selected identifier, or nothing when the movie is not watched.
   */
  function WatchedUserRating(list: List, selected: string): (r: Option<int>)
    ensures r.Some? <==> IsWatched(list, selected)
    ensures r.Some? ==> exists i :: 0 <= i < |list| && list[i].imdbID == selected
                                     && r.value == list[i].userRating
                                     && forall j :: 0 <= j < i ==> list[j].imdbID != selected
  {
    match FirstIndex(list, selected)
    case None => None
    case Some(i) => Some(list[i].userRating)
  }

  /** Filtering a concatenation filters each part: deletion keeps the relative order. */
  lemma {:induction false} DeleteConcat(a: List, b: List, id: string)
    ensures Delete(a + b, id) == Delete(a, id) + Delete(b, id)
  {
    if a == [] {
      assert a + b == b;
    } else {
      assert (a + b)[1..] == a[1..] + b;
      DeleteConcat(a[1..], b, id);
    }
  }

  /** Deleting an identifier that no record carries leaves the list unchanged. */
  lemma {:induction false} DeleteAbsent(list: List, id: string)
    requires !Has(list, id)
    ensures Delete(list, id) == list
  {
    if list != [] {
      assert !Has(list[1..], id) by {
        forall i | 0 <= i < |list[1..]| ensures list[1..][i].imdbID != id {
          assert list[1..][i] == list[i + 1];
        }
      }
      DeleteAbsent(list[1..], id);
      assert list == [list[0]] + list[1..];
    }
  }

  /** Deleting the same identifier twice is deleting it once. */
  lemma DeleteIdempotent(list: List, id: string)
    ensures Delete(Delete(list, id), id) == Delete(list, id)
  {
    var r := Delete(list, id);
    assert !Has(r, id) by {
      forall i | 0 <= i < |r| ensures r[i].imdbID != id {
        assert r[i] in r;
      }
    }
    DeleteAbsent(r, id);
  }

  /** Adding a record with a fresh identifier and deleting that identifier restores the list. */
  lemma AddDeleteRoundTrip(list: List, m: WatchedMovie)
    requires !Has(list, m.imdbID)
    ensures Delete(Add(list, m), m.imdbID) == list
  {
    DeleteConcat(list, [m], m.imdbID);
    DeleteAbsent(list, m.imdbID);
    assert Delete([m], m.imdbID) == [];
  }

  /** Deleting keeps a list with distinct identifiers distinct. */
  lemma {:induction false} DeleteKeepsDistinct(list: List, id: string)
    requires Distinct(list)
    ensures Distinct(Delete(list, id))
  {
    if list != [] {
      var tail := list[1..];
      assert Distinct(tail) by {
        forall i, j | 0 <= i < j < |tail| ensures tail[i].imdbID != tail[j].imdbID {
          assert tail[i] == list[i + 1] && tail[j] == list[j + 1];
        }
      }
      DeleteKeepsDistinct(tail, id);
      var rest := Delete(tail, id);
      if list[0].imdbID != id {
        forall k | 0 <= k < |rest| ensures rest[k].imdbID != list[0].imdbID {
          assert rest[k] in tail;
          var j :| 0 <= j < |tail| && tail[j] == rest[k];
          assert tail[j] == list[j + 1];
        }
      }
    }
  }

  /** Deleting an identifier that occurs exactly once in a distinct list shortens it by one. */
  lemma {:induction false} DeletePresentShortens(list: List, id: string)
    requires Distinct(list) && Has(list, id)
    ensures |Delete(list, id)| == |list| - 1
  {
    var tail := list[1..];
    if list[0].imdbID == id {
      assert !Has(tail, id) by {
        forall i | 0 <= i < |tail| ensures tail[i].imdbID != id {
          assert tail[i] == list[i + 1];
        }
      }
      DeleteAbsent(tail, id);
    } else {
      var i :| 0 <= i < |list| && list[i].imdbID == id;
      assert tail[i - 1] == list[i];
      assert Distinct(tail) by {
        forall a, b | 0 <= a < b < |tail| ensures tail[a].imdbID != tail[b].imdbID {
          assert tail[a] == list[a + 1] && tail[b] == list[b + 1];
        }
      }
      DeletePresentShortens(tail, id);
    }
  }

  /** Adding a record whose identifier is not yet watched keeps the list distinct. */
  lemma AddFreshKeepsDistinct(list: List, m: WatchedMovie)
    requires Distinct(list) && !Has(list, m.imdbID)
    ensures Distinct(Add(list, m))
  {
    var r := Add(list, m);
    forall i, j | 0 <= i < j < |r| ensures r[i].imdbID != r[j].imdbID {
      if j == |list| {
        assert r[i] == list[i];
      }
    }
  }

  /** After adding a fresh record, the panel shows that record's own user rating. */
  lemma RatingAfterAdd(list: List, m: WatchedMovie)
    requires !Has(list, m.imdbID)
    ensures WatchedUserRating(Add(list, m), m.imdbID) == Some(m.userRating)
  {
    var r := Add(list, m);
    var i :| 0 <= i < |r| && r[i].imdbID == m.imdbID && WatchedUserRating(r, m.imdbID).value == r[i].userRating
             && forall j :: 0 <= j < i ==> r[j].imdbID != m.imdbID;
    assert i == |list|;
  }
}
