/**
 * The summary panel over the watched list: its length and three averages,
 * each computed by the app's `average`, a left fold that adds
 * `cur / arr.length` to an accumulator starting at 0. Numbers are
 * idealised as reals.
 */
module Summary {
  import opened Wrappers
  import opened Watchlist

  /** The plain sum of `xs`, the reference the fold is compared with. */
  function Sum(xs: seq<real>): real
  {
    if xs == [] then 0.0 else xs[0] + Sum(xs[1..])
  }

  /** `reduce((acc, cur) => acc + cur / n, acc)` over `xs`, left to right. */
  function ReduceAverage(xs: seq<real>, n: real, acc: real): real
    requires xs != [] ==> n != 0.0
  {
    if xs == [] then acc else ReduceAverage(xs[1..], n, acc + xs[0] / n)
  }

  /** Folding the shares `cur / n` onto `acc` adds `Sum(xs) / n` to it. */
  lemma {:induction false} ReduceAverageIsShareOfSum(xs: seq<real>, n: real, acc: real)
    requires n != 0.0
    ensures ReduceAverage(xs, n, acc) == acc + Sum(xs) / n
  {
    if xs != [] {
      ReduceAverageIsShareOfSum(xs[1..], n, acc + xs[0] / n);
      assert xs[0] / n + Sum(xs[1..]) / n == (xs[0] + Sum(xs[1..])) / n;
    }
  }

  /**
   * `average`: 0 for an empty list (the fold's initial value), otherwise
   * the arithmetic mean.
   */
  function Average(xs: seq<real>): (r: real)
    ensures xs == [] ==> r == 0.0
    ensures xs != [] ==> r == Sum(xs) / (|xs| as real)
  {
    var n := |xs| as real;
    assert xs != [] ==> ReduceAverage(xs, n, 0.0) == Sum(xs) / n by {
      if xs != [] { ReduceAverageIsShareOfSum(xs, n, 0.0); }
    }
    ReduceAverage(xs, n, 0.0)
  }

  /** The three averages and the count the summary panel shows. */
  datatype Stats = Stats(count: nat, avgImdbRating: real, avgUserRating: real, avgRuntime: Option<real>)

  function ImdbRatings(list: List): (xs: seq<real>)
  {
    seq(|list|, i requires 0 <= i < |list| => list[i].imdbRating)
  }

  function UserRatings(list: List): (xs: seq<real>)
  {
    seq(|list|, i requires 0 <= i < |list| => list[i].userRating as real)
  }

  /** The runtimes as reals, or `None` once any runtime is outside the model: one such value leaves the average undefined. */
  function Runtimes(list: List): (r: Option<seq<real>>)
    ensures r.None? <==> exists i :: 0 <= i < |list| && list[i].runtime.None?
    ensures r.Some? ==> |r.value| == |list|
                        && forall i :: 0 <= i < |list| ==> r.value[i] == list[i].runtime.value as real
  {
    if list == [] then Some([])
    else
      match list[0].runtime
      case None => None
      case Some(m) =>
        match Runtimes(list[1..])
        case None =>
          assert exists i :: 0 <= i < |list[1..]| && list[1..][i].runtime.None?;
          None
        case Some(rest) => Some([m as real] + rest)
  }

  /**
   * `WatchedSummary`: the list's length, and the averages of the IMDb
   * ratings, the user ratings and the runtimes.
   */
  function WatchedSummary(list: List): (s: Stats)
    ensures s.count == |list|
    ensures list == [] ==> s == Stats(0, 0.0, 0.0, Some(0.0))
    ensures list != [] ==> s.avgImdbRating == Sum(ImdbRatings(list)) / (|list| as real)
    ensures list != [] ==> s.avgUserRating == Sum(UserRatings(list)) / (|list| as real)
    ensures s.avgRuntime.None? <==> exists i :: 0 <= i < |list| && list[i].runtime.None?
    ensures list != [] && s.avgRuntime.Some? ==>
              s.avgRuntime.value == Sum(Runtimes(list).value) / (|list| as real)
  {
    Stats(|list|,
          Average(ImdbRatings(list)),
          Average(UserRatings(list)),
          match Runtimes(list)
          case None => None
          case Some(rs) => Some(Average(rs)))
  }
}
