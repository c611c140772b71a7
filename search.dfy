/**
 * The search query controller (the `UseMovies` hook, whose body also
 * appears inline in `App`): a query text, the current result list, a
 * loading flag and an error message, driven by two kinds of events.
 *
 * - A query change runs the effect's cleanup, which aborts the request the
 *   previous run started, and then the effect again: a query shorter than
 *   three UTF-16 code units clears results and error; a longer one starts a new
 *   request, which at once sets loading and clears the error.
 * - A request settling runs the try/catch/finally of that request with one
 *   of five outcomes.
 *
 * Requests are numbered in the order they start; the number stands for the
 * request's `AbortController`.
 */
module Search {
  import opened Wrappers

  /** One entry of a search response's `Search` array. */
  datatype MovieSummary = MovieSummary(imdbID: string, title: string, year: string, poster: string)

  /** How a search request settles. */
  datatype Outcome =
    | NotOk                        // the response's status is not ok
    | NotFound                     // the body's `Response` is "False"
    | Found(search: seq<MovieSummary>)  // the body's `Search` list
    | Transport(message: string)   // any other thrown error, with its message
    | Aborted                      // the request's signal was aborted

  const MinQueryLength: nat := 3
  const FetchError: string := "fetch error"
  const NotFoundError: string := "Movie not found"

  /**
   * The controller's state. `current` is the request the pending cleanup
   * will abort; `started` counts the requests started so far (they are
   * numbered 0 .. started - 1); `aborted` and `settled` are the requests
   * whose signal was aborted and those that have settled.
   */
  datatype SearchState = SearchState(
    query: string,
    movies: seq<MovieSummary>,
    isLoading: bool,
    error: string,
    current: Option<nat>,
    started: nat,
    aborted: set<nat>,
    settled: set<nat>)

  /** What the hook returns. */
  datatype HookResult = HookResult(movies: seq<MovieSummary>, isLoading: bool, error: string)

  /** The state after mounting: the first effect run sees an empty query and only clears. */
  function Initial(): SearchState
  {
    SearchState("", [], false, "", None, 0, {}, {})
  }

  /** A request that has started and whose signal has not been aborted. */
  predicate IsLive(s: SearchState, t: nat)
  {
    t < s.started && t !in s.aborted
  }

  /**
   * The bookkeeping invariant: every request mentioned was started, and the
   * only request that may still be live is the one the cleanup will abort.
   */
  predicate Consistent(s: SearchState)
  {
    (s.current.Some? ==> IsLive(s, s.current.value))
    && (forall t :: t in s.aborted ==> t < s.started)
    && (forall t :: t in s.settled ==> t < s.started)
    && (forall t: nat :: t < s.started && t !in s.aborted ==> s.current == Some(t))
  }

  /**
   * JavaScript's `length` of a string: its count of UTF-16 code units. A
   * character outside the Basic Multilingual Plane takes two of them.
   */
  function Utf16Length(q: string): (n: nat)
    ensures |q| <= n <= 2 * |q|
    ensures (forall i :: 0 <= i < |q| ==> q[i] < '\U{10000}') ==> n == |q|
  {
    if q == [] then 0
    else (if q[0] < '\U{10000}' then 1 else 2) + Utf16Length(q[1..])
  }

  /** The count of a text is the sum of the counts of its parts. */
  lemma {:induction false} Utf16LengthConcat(a: string, b: string)
    ensures Utf16Length(a + b) == Utf16Length(a) + Utf16Length(b)
  {
    if a != [] {
      assert (a + b)[1..] == a[1..] + b;
      Utf16LengthConcat(a[1..], b);
    } else {
      assert a + b == b;
    }
  }

  /** One character takes one code unit, or two outside the Basic Multilingual Plane. */
  lemma Utf16LengthChar(c: char)
    ensures Utf16Length([c]) == if c < '\U{10000}' then 1 else 2
  {
    assert [c][1..] == [];
  }

  /** A two-character query made of an emoji and a letter is long enough to search. */
  lemma AstralQueryIsLongEnough()
    ensures |"\U{1F600}a"| == 2 && Utf16Length("\U{1F600}a") == MinQueryLength
  {
  }

  /** The cleanup's `controller.abort()`, on the request of the previous effect run. */
  function Abort(aborted: set<nat>, current: Option<nat>): set<nat>
  {
    if current.Some? then aborted + {current.value} else aborted
  }

  /**
   * A query change. React re-runs the effect only when the query differs;
   * the length test is on the untrimmed text, counted in UTF-16 code units.
   */
  function OnQuery(s: SearchState, q: string): (r: SearchState)
    ensures r.query == q
    ensures q == s.query ==> r == s
    ensures q != s.query && s.current.Some? ==> s.current.value in r.aborted
    ensures q != s.query && Utf16Length(q) < MinQueryLength ==>
              r.movies == [] && r.error == "" && r.isLoading == s.isLoading
              && r.started == s.started && r.current == None
    ensures q != s.query && Utf16Length(q) >= MinQueryLength ==>
              r.isLoading && r.error == "" && r.movies == s.movies
              && r.started == s.started + 1 && r.current == Some(s.started)
    ensures r.settled == s.settled
  {
    if q == s.query then s
    else
      var cleaned := s.(query := q, aborted := Abort(s.aborted, s.current), current := None);
      if Utf16Length(q) < MinQueryLength then
        cleaned.(movies := [], error := "")
      else
        cleaned.(isLoading := true, error := "", current := Some(s.started), started := s.started + 1)
  }

  /**
   * What the network may deliver: only a request that has started and not
   * yet settled can settle, and a request whose signal was aborted rejects
   * with an abort error.
   */
  predicate Deliverable(s: SearchState, t: nat, o: Outcome)
  {
    t < s.started && t !in s.settled && (t in s.aborted ==> o == Aborted)
  }

  /** Request `t` settles with outcome `o`: the try/catch/finally of the effect's request. */
  function OnSettle(s: SearchState, t: nat, o: Outcome): (r: SearchState)
    ensures !r.isLoading
    ensures r.settled == s.settled + {t}
    ensures r.query == s.query && r.current == s.current && r.started == s.started && r.aborted == s.aborted
    ensures o.Found? ==> r.movies == o.search && r.error == ""
    ensures o == NotOk ==> r.movies == s.movies && r.error == FetchError
    ensures o == NotFound ==> r.movies == s.movies && r.error == NotFoundError
    ensures o.Transport? ==> r.movies == s.movies && r.error == o.message
    ensures o == Aborted ==> r.movies == s.movies && r.error == s.error
  {
    var caught :=
      match o
      case NotOk => s.(error := FetchError)
      case NotFound => s.(error := NotFoundError)
      case Found(list) => s.(movies := list, error := "")
      case Transport(message) => s.(error := message)
      case Aborted => s;
    caught.(isLoading := false, settled := s.settled + {t})
  }

  /** Starting from the mounted state, the invariant holds. */
  lemma InitialConsistent()
    ensures Consistent(Initial())
  {
  }

  /** A query change keeps the invariant; afterwards at most one request is live. */
  lemma OnQueryConsistent(s: SearchState, q: string)
    requires Consistent(s)
    ensures Consistent(OnQuery(s, q))
  {
  }

  /** A request settling keeps the invariant. */
  lemma OnSettleConsistent(s: SearchState, t: nat, o: Outcome)
    requires Consistent(s) && Deliverable(s, t, o)
    ensures Consistent(OnSettle(s, t, o))
  {
  }

  /**
   * At most one request is live. This is a direct reading of the last
   * conjunct of `Consistent`; the work lies in showing that every event
   * keeps `Consistent` (`OnQueryConsistent`, `OnSettleConsistent`,
   * `RunConsistent`).
   */
  lemma AtMostOneLive(s: SearchState, t1: nat, t2: nat)
    requires Consistent(s) && IsLive(s, t1) && IsLive(s, t2)
    ensures t1 == t2
  {
  }

  /**
   * A superseded request never commits: results and error can change on
   * settling only when the settling request is the live one the cleanup
   * would abort next.
   */
  lemma OnlyLiveRequestCommits(s: SearchState, t: nat, o: Outcome)
    requires Consistent(s) && Deliverable(s, t, o)
    requires OnSettle(s, t, o).movies != s.movies || OnSettle(s, t, o).error != s.error
    ensures IsLive(s, t) && s.current == Some(t)
  {
  }

  /**
   * Two long queries in a row: the first request is aborted, so whichever
   * order the two settle in, the committed results and error are those of
   * the second request's outcome, and loading ends cleared.
   */
  lemma SupersededRace(s: SearchState, a: string, b: string, o: Outcome)
    requires Consistent(s)
    requires a != s.query && b != a && Utf16Length(a) >= MinQueryLength && Utf16Length(b) >= MinQueryLength
    ensures var s2 := OnQuery(OnQuery(s, a), b);
            var first, second := s.started, s.started + 1;
            var expected := OnSettle(s2, second, o);
            Deliverable(s2, first, Aborted) && Deliverable(s2, second, o)
            && !Deliverable(s2, first, o) == (o != Aborted)
            && var ab := OnSettle(OnSettle(s2, first, Aborted), second, o);
               var ba := OnSettle(OnSettle(s2, second, o), first, Aborted);
               ab.movies == ba.movies == expected.movies
               && ab.error == ba.error == expected.error
               && !ab.isLoading && !ba.isLoading
  {
  }

  /**
   * The loading flag does not track outstanding requests: after two long
   * queries, the first request's abort rejection runs its `finally` and
   * clears the flag while the second request is live and unsettled.
   */
  lemma AbortedSettleClearsLoading(s: SearchState, a: string, b: string)
    requires Consistent(s)
    requires a != s.query && b != a && Utf16Length(a) >= MinQueryLength && Utf16Length(b) >= MinQueryLength
    ensures var s2 := OnQuery(OnQuery(s, a), b);
            var r := OnSettle(s2, s.started, Aborted);
            Deliverable(s2, s.started, Aborted)
            && s2.isLoading && !r.isLoading
            && IsLive(r, s.started + 1) && s.started + 1 !in r.settled
  {
  }

  /** The events the controller reacts to. */
  datatype Event = QueryChanged(q: string) | Settled(token: nat, outcome: Outcome)

  predicate Allowed(s: SearchState, e: Event)
  {
    match e
    case QueryChanged(_) => true
    case Settled(t, o) => Deliverable(s, t, o)
  }

  function Step(s: SearchState, e: Event): SearchState
    requires Allowed(s, e)
  {
    match e
    case QueryChanged(q) => OnQuery(s, q)
    case Settled(t, o) => OnSettle(s, t, o)
  }

  /** A run of events each of which the network and the user can produce in turn. */
  predicate AllowedRun(s: SearchState, events: seq<Event>)
    decreases |events|
  {
    events == [] || (Allowed(s, events[0]) && AllowedRun(Step(s, events[0]), events[1..]))
  }

  function Run(s: SearchState, events: seq<Event>): SearchState
    requires AllowedRun(s, events)
    decreases |events|
  {
    if events == [] then s else Run(Step(s, events[0]), events[1..])
  }

  /** Every run of events from a consistent state ends in a consistent state. */
  lemma {:induction false} RunConsistent(s: SearchState, events: seq<Event>)
    requires Consistent(s) && AllowedRun(s, events)
    ensures Consistent(Run(s, events))
    decreases |events|
  {
    if events != [] {
      match events[0] {
        case QueryChanged(q) => OnQueryConsistent(s, q);
        case Settled(t, o) => OnSettleConsistent(s, t, o);
      }
      RunConsistent(Step(s, events[0]), events[1..]);
    }
  }

  /**
   * The controller as the hook holds it: three state cells, the query it
   * is called with, and the abort controllers of its requests.
   */
  class QueryController {
    var query: string
    var movies: seq<MovieSummary>
    var isLoading: bool
    var error: string
    var current: Option<nat>
    var started: nat
    var aborted: set<nat>
    var settled: set<nat>

    function Model(): SearchState
      reads this
    {
      SearchState(query, movies, isLoading, error, current, started, aborted, settled)
    }

    predicate Valid()
      reads this
    {
      Consistent(Model())
    }

    constructor ()
      ensures Valid()
      ensures Model() == Initial()
    {
      query, movies, isLoading, error := "", [], false, "";
      current, started, aborted, settled := None, 0, {}, {};
    }

    /** The query changes to `q`: cleanup of the previous effect run, then the effect. */
    method SetQuery(q: string)
      requires Valid()
      modifies this
      ensures Valid()
      ensures Model() == OnQuery(old(Model()), q)
    {
      if q != query {
        if current.Some? {
          aborted := aborted + {current.value};
        }
        current := None;
        query := q;
        if Utf16Length(q) < MinQueryLength {
          movies := [];
          error := "";
        } else {
          current := Some(started);
          started := started + 1;
          isLoading := true;
          error := "";
        }
      }
      OnQueryConsistent(old(Model()), q);
    }

    /** Request `token` settles with `outcome`. */
    method Settle(token: nat, outcome: Outcome)
      requires Valid() && Deliverable(Model(), token, outcome)
      modifies this
      ensures Valid()
      ensures Model() == OnSettle(old(Model()), token, outcome)
      ensures token in old(aborted) ==> movies == old(movies) && error == old(error)
    {
      match outcome {
        case NotOk => error := FetchError;
        case NotFound => error := NotFoundError;
        case Found(list) => movies := list; error := "";
        case Transport(message) => error := message;
        case Aborted =>
      }
      isLoading := false;
      settled := settled + {token};
      OnSettleConsistent(old(Model()), token, outcome);
    }

    /** The hook's return value. */
    method Result() returns (r: HookResult)
      ensures r.movies == movies && r.isLoading == isLoading && r.error == error
    {
      r := HookResult(movies, isLoading, error);
    }
  }
}
