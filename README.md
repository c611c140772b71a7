# usePopcorn: watchlist and search controller in Dafny

This project models the two parts of the usePopcorn movie app that hold logic
rather than rendering.

- **The watched list** (`src/App.js`). It is an ordered list of records keyed by
  `imdbID`. Adding appends a record and deleting filters out an identifier.
  The detail panel asks whether the selected movie is watched and looks up its
  user rating. The "+ Add to list" button is shown only for an unwatched movie
  rated above 0, and using it closes the panel. Clicking a search result toggles
  the selection. The summary panel shows averages computed by `average`, which
  folds `acc + cur / length` from 0.
- **The search query controller** (`src/UseMovies.js`; the same code is inlined
  in `src/App.js:31-67` and is modelled once). A change of query runs the
  effect's cleanup, which aborts the previous request. A query shorter than
  three UTF-16 code units then clears results and error. A longer query starts a
  request, which sets loading and clears the error. The request later settles
  in one of five ways: status not ok, `Response` "False", a result list, any
  other error, or an abort. Each way runs the source's try/catch/finally.

Modules:

- `Wrappers` (wrappers.dfy) holds `Option`.
- `Watchlist` (watchlist.dfy) holds the record, add, delete, the lookups and the
  list lemmas.
- `Summary` (summary.dfy) holds `average` and the summary panel's figures.
- `Details` (details.dfy) holds the runtime conversion, the guarded add click,
  the delete click and the selection toggle.
- `Search` (search.dfy) holds the controller. Its pure transition functions
  `OnQuery` and `OnSettle` act on a `SearchState` value. Their invariants and
  race properties are proved as lemmas. The class `QueryController` has the
  hook's state cells as fields, and its methods are proved to follow those
  functions.

Behaviour of the code worth noting:

- The short-query test is on the raw, untrimmed `query.length`, which counts
  UTF-16 code units: a character outside the Basic Multilingual Plane counts
  twice (`Search.Utf16Length`).
- A "Movie not found" response leaves the previous results in place. It does
  not commit an empty list.
- The loading flag is not "true exactly while a request is outstanding".
  Every settling request runs `finally` and clears it, aborted ones included.
  `Search.AbortedSettleClearsLoading` exhibits this: after two long queries,
  the first request's abort clears the flag while the second is still live.

Request cancellation is a number per request plus a set of aborted numbers.
The network is assumed to keep the `AbortController` contract: an aborted
request settles only as an abort (`Search.Deliverable`), and each request
settles once. The model's claims rest on these assumptions.

## Model

| member | source | states |
|---|---|---|
| `Watchlist.Add` | src/App.js:19-21 | the new list is the old one with the record appended at the end: length grows by one, earlier entries unchanged |
| `Watchlist.Delete` | src/App.js:23-25 | no remaining record has the id; a record is kept exactly when it was present with another id; every other record keeps its multiplicity; the list never grows |
| `Watchlist.DeleteConcat` | src/App.js:24 | deleting from a concatenation deletes from each part, so the kept records stay in their original relative order |
| `Watchlist.DeleteAbsent` | src/App.js:24 | deleting an id no record carries leaves the list unchanged |
| `Watchlist.DeleteIdempotent` | src/App.js:23-25 | deleting the same id twice equals deleting it once |
| `Watchlist.AddDeleteRoundTrip` | src/App.js:19-25 | adding a record with a fresh id and then deleting that id returns the original list |
| `Watchlist.DeleteKeepsDistinct` | src/App.js:24 | deleting keeps a list with distinct ids distinct |
| `Watchlist.DeletePresentShortens` | src/App.js:24 | in a list with distinct ids, deleting a present id removes exactly one record |
| `Watchlist.AddFreshKeepsDistinct` | src/App.js:20 | appending a record whose id is not yet present keeps the ids distinct |
| `Watchlist.Ids` | src/App.js:242 | the id list has one entry per record, in order, each the record's id |
| `Watchlist.IsWatched` | src/App.js:241-243 | true exactly when some record's id equals the selected id |
| `Watchlist.FirstIndex` | src/App.js:245-247 | finds a position exactly when the id is present; that position carries the id and no earlier one does |
| `Watchlist.WatchedUserRating` | src/App.js:245-247 | present exactly when the movie is watched, and then the user rating of the first record with that id |
| `Watchlist.RatingAfterAdd` | src/App.js:351 | after adding a record with a fresh id, the panel's "you rated" value is that record's rating |
| `Summary.ReduceAverageIsShareOfSum` | src/App.js:4-5 | folding `acc + cur / n` over the list adds the list's sum divided by n to the accumulator |
| `Summary.Average` | src/App.js:4-5 | the average of an empty list is 0 (the reduce's initial value); otherwise it is sum / length |
| `Summary.Runtimes` | src/App.js:369 | the runtimes are undefined exactly when some record's runtime is outside the model; otherwise one value per record, in order |
| `Summary.WatchedSummary` | src/App.js:366-376 | count is the list length; an empty list gives 0 for every average; otherwise each rating average is sum / count; the runtime average is undefined exactly when a runtime is, and otherwise is the runtimes' sum / count |
| `Details.FirstToken` | src/App.js:270 | the token is a prefix of the text without a space, and ends at the first space or at the end of the text |
| `Details.ParseRuntime` | src/App.js:270 | an empty first token converts to 0; a digits-only token converts to a number, and the numeral of n converts to n; a conversion succeeds only for such tokens |
| `Details.LeadingZerosValue` | src/App.js:270 | zeros in front of a numeral do not change its value |
| `Details.ParseWithLeadingZeros` | src/App.js:270 | a first token of zeros followed by the numeral of n converts to n, so "007 min" gives 7 |
| `Details.RuntimeRoundTrip` | src/App.js:270 | a runtime text "<n> min" converts back to n minutes |
| `Details.ClickAdd` | src/App.js:262-274 | with the button shown (a selection that is truthy, i.e. present and non-empty, unwatched, rating > 0), appends a record with the selected id, the detail's title, year, poster and IMDb rating, the user rating and the converted runtime, and clears the selection; otherwise nothing changes; distinct ids stay distinct |
| `Details.ClickDelete` | src/App.js:91-106 | delete buttons exist only while no movie is selected (the selection is null or the empty id, both falsy); then the list becomes the filtered list, with no record carrying the id; otherwise nothing changes; the selection is kept and distinct ids stay distinct |
| `Details.ClickAddThenDelete` | src/App.js:341-348 | adding through the guarded button and then deleting that movie restores the watched list |
| `Details.Toggle` | src/App.js:216 | the new selection is null exactly when the clicked id was selected, and otherwise is the clicked id |
| `Search.Utf16Length` | src/UseMovies.js:10 | the length lies between the character count and twice it, and equals the character count for text without characters outside the Basic Multilingual Plane |
| `Search.Utf16LengthConcat` | src/UseMovies.js:10 | the length of a concatenation is the sum of the parts' lengths |
| `Search.Utf16LengthChar` | src/UseMovies.js:10 | one character has length 1, or 2 when it lies outside the Basic Multilingual Plane; with the concatenation lemma this fixes the length of every text |
| `Search.AstralQueryIsLongEnough` | src/App.js:32 | an emoji followed by one letter is two characters but three UTF-16 units, so it passes the length test |
| `Search.OnQuery` | src/UseMovies.js:9-19 | an unchanged query changes nothing; a changed query aborts the previous request; under 3 UTF-16 units of untrimmed text, movies becomes empty, error "", loading untouched and no request starts; otherwise a new request starts with loading true, error "" and movies kept |
| `Search.OnSettle` | src/UseMovies.js:25-40 | every settling clears loading; a result list sets movies and clears error; status not ok sets "fetch error" and "False" sets "Movie not found", both with movies unchanged; another error sets its message; an abort changes neither movies nor error |
| `Search.OnQueryConsistent` | src/UseMovies.js:42-44 | a query change keeps the invariant that the only request not aborted is the one the next cleanup aborts |
| `Search.OnSettleConsistent` | src/UseMovies.js:38-40 | a request settling keeps that invariant |
| `Search.InitialConsistent` | src/UseMovies.js:5-7 | the mounted state satisfies the invariant |
| `Search.AtMostOneLive` | src/UseMovies.js:15 | under the invariant, at most one started request is not aborted |
| `Search.OnlyLiveRequestCommits` | src/UseMovies.js:34-37 | a settling that changes movies or error comes from the one live request; superseded requests never commit |
| `Search.SupersededRace` | src/App.js:37-66 | after queries A then B, A's request can settle only as aborted; in either settling order, movies and error end as B's outcome makes them, with loading cleared |
| `Search.AbortedSettleClearsLoading` | src/UseMovies.js:38-40 | an aborted request's settling clears loading while the newer request is still live and unsettled |
| `Search.RunConsistent` | src/UseMovies.js:9-45 | every allowed run of query changes and settlings from a consistent state ends consistent |
| `Search.QueryController.constructor` | src/UseMovies.js:5-7 | the state cells start as empty movies, not loading, empty error, with no request |
| `Search.QueryController.SetQuery` | src/App.js:31-41 | the new state is `OnQuery` of the old one, and the invariant is kept |
| `Search.QueryController.Settle` | src/App.js:47-62 | the new state is `OnSettle` of the old one, and the invariant is kept; an aborted request leaves movies and error unchanged |
| `Search.QueryController.Result` | src/UseMovies.js:46 | the hook returns exactly the current movies, loading flag and error |

## Left out

- Rendering is not modelled: Navbar, Loader, ErrorMess, Logo, SearchBar, SearchCounter, Main, the `Box` open toggle, the list markup and StarRating. StarRating is not part of this model; only the rating it reports enters, as an integer.
- The HTTP requests, `res.json()` and URL building are not modelled. A search request settles as one of five abstract outcomes.
- `AbortController` is modelled only as an aborted flag per request. The event loop is assumed to let an aborted request settle only as an abort (`Search.Deliverable`).
- The unmount cleanup is not modelled. It aborts the live request the same way a query change does.
- The detail fetch (src/App.js:291-305) is not modelled. It is plain async I/O with no cancellation and no error handling. The fetched detail is a parameter of `Details.ClickAdd`.
- Local storage and JSON are not modelled: src/App.js:11-13, src/App.js:27-29 and src/UseLocalStorageState.js. This includes the `null` list that src/App.js:12 yields when the key is absent.
- The Escape-key listener (src/useKey.js, src/App.js:277-289) is a DOM side effect and is not modelled. So is the `document.title` effect (src/App.js:307-314).
- Numbers are idealised reals, so floating-point rounding is not modelled. That covers `average` and `toFixed`.
- `+imdbRating` string conversion is not modelled. The detail's IMDb rating enters as a real.
- Details.ParseRuntime: converts only an empty or digits-only first token. Other JavaScript number forms (signs, decimals, exponents, hex, "N/A") all become `None`, meaning "outside this model". `Summary.WatchedSummary` leaves the runtime average undefined when any runtime is `None`.
- Details.ClickAdd: the initial unrated value `""` is modelled as rating 0, which fails the `> 0` guard as it does in JavaScript.
