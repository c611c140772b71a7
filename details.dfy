/**
 * The detail panel of a selected movie and the result list's selection:
 * building a watched record from the fetched detail, the guarded
 * "+ Add to list" click, and the click that toggles the selection.
 */
module Details {
  import opened Wrappers
  import opened Watchlist

  /** The fields of a fetched catalog detail that the add path reads. */
  datatype MovieDetail = MovieDetail(
    title: string,
    year: string,
    poster: string,
    runtime: string,
    imdbRating: real)

  /** The text before the first space: `runtime.split(" ")[0]`. */
  function FirstToken(s: string): (t: string)
    ensures t <= s
    ensures ' ' !in t
    ensures |t| < |s| ==> s[|t|] == ' '
  {
    if s == [] || s[0] == ' ' then [] else [s[0]] + FirstToken(s[1..])
  }

  predicate IsDigit(c: char)
  {
    '0' <= c <= '9'
  }

  predicate AllDigits(s: string)
  {
    forall i :: 0 <= i < |s| ==> IsDigit(s[i])
  }

  /** The value of a decimal numeral, most significant digit first. */
  function DigitsValue(s: string): nat
    requires AllDigits(s)
  {
    if s == [] then 0
    else DigitsValue(s[..|s| - 1]) * 10 + (s[|s| - 1] as int - '0' as int)
  }

  /** The decimal numeral of `n`, without leading zeros. */
  function Numeral(n: nat): (s: string)
    ensures |s| > 0 && AllDigits(s)
  {
    if n < 10 then [('0' as int + n) as char]
    else Numeral(n / 10) + [('0' as int + n % 10) as char]
  }

  /**
   * `+runtime.split(" ")[0]`: an empty first token converts to 0, a token
   * of decimal digits to its value; any other token is outside this model
   * (`None`).
   */
  function ParseRuntime(runtime: string): (r: Option<nat>)
    ensures FirstToken(runtime) == [] ==> r == Some(0)
    ensures r.Some? && FirstToken(runtime) != [] ==> AllDigits(FirstToken(runtime))
    ensures AllDigits(FirstToken(runtime)) ==> r.Some?
    ensures forall n: nat :: FirstToken(runtime) == Numeral(n) ==> r == Some(n)
  {
    var token := FirstToken(runtime);
    assert forall n: nat :: token == Numeral(n) ==> DigitsValue(token) == n by {
      forall n: nat | token == Numeral(n) ensures DigitsValue(token) == n { NumeralValue(n); }
    }
    if AllDigits(token) then Some(DigitsValue(token)) else None
  }

  lemma {:induction false} NumeralValue(n: nat)
    ensures DigitsValue(Numeral(n)) == n
  {
    if n >= 10 {
      var s := Numeral(n);
      assert s[..|s| - 1] == Numeral(n / 10);
      NumeralValue(n / 10);
    }
  }

  lemma {:induction false} FirstTokenBeforeSpace(t: string, rest: string)
    requires ' ' !in t
    ensures FirstToken(t + [' '] + rest) == t
  {
    if t != [] {
      assert (t + [' '] + rest)[1..] == t[1..] + [' '] + rest;
      FirstTokenBeforeSpace(t[1..], rest);
    } else {
      assert (t + [' '] + rest)[0] == ' ';
    }
  }

  /** The catalog's "<minutes> min" runtime text parses back to its minutes. */
  lemma RuntimeRoundTrip(minutes: nat)
    ensures ParseRuntime(Numeral(minutes) + " min") == Some(minutes)
  {
    var s := Numeral(minutes);
    assert ' ' !in s by {
      forall i | 0 <= i < |s| ensures s[i] != ' ' { assert IsDigit(s[i]); }
    }
    assert s + " min" == s + [' '] + "min";
    FirstTokenBeforeSpace(s, "min");
    NumeralValue(minutes);
  }

  /** `z` zero digits. */
  function Zeros(z: nat): (s: string)
    ensures |s| == z && AllDigits(s)
  {
    seq(z, i => '0')
  }

  /** A numeral of zeros only is worth 0. */
  lemma {:induction false} ZerosValue(z: nat)
    ensures DigitsValue(Zeros(z)) == 0
  {
    if z > 0 {
      assert Zeros(z)[..z - 1] == Zeros(z - 1);
      ZerosValue(z - 1);
    }
  }

  /** Leading zeros do not change a numeral's value. */
  lemma {:induction false} LeadingZerosValue(z: nat, s: string)
    requires AllDigits(s)
    ensures AllDigits(Zeros(z) + s) && DigitsValue(Zeros(z) + s) == DigitsValue(s)
  {
    var t := Zeros(z) + s;
    assert AllDigits(t) by {
      forall i | 0 <= i < |t| ensures IsDigit(t[i]) {
        if i < z { assert t[i] == Zeros(z)[i]; } else { assert t[i] == s[i - z]; }
      }
    }
    if s == [] {
      assert t == Zeros(z);
      ZerosValue(z);
    } else {
      assert t[..|t| - 1] == Zeros(z) + s[..|s| - 1];
      assert t[|t| - 1] == s[|s| - 1];
      LeadingZerosValue(z, s[..|s| - 1]);
    }
  }

  /** A first token of zeros followed by the numeral of n converts to n ("007 min" is 7). */
  lemma ParseWithLeadingZeros(runtime: string, z: nat, n: nat)
    requires FirstToken(runtime) == Zeros(z) + Numeral(n)
    ensures ParseRuntime(runtime) == Some(n)
  {
    LeadingZerosValue(z, Numeral(n));
    NumeralValue(n);
  }

  /** The record `handleAdd` builds for the selected movie. */
  function MakeRecord(selected: string, detail: MovieDetail, userRating: int): WatchedMovie
  {
    WatchedMovie(selected, detail.title, detail.year, detail.poster,
                 detail.imdbRating, userRating, ParseRuntime(detail.runtime))
  }

  /**
   * The page shows the detail panel when the selection is truthy in
   * JavaScript: present and not the empty string.
   */
  predicate IsSelected(selected: Option<string>)
  {
    selected.Some? && selected.value != ""
  }

  /**
   * The "+ Add to list" button is rendered only while a movie is selected
   * that is not yet watched and the user has rated it above 0 (the initial
   * unrated state `""` compares like 0).
   */
  predicate AddEnabled(watched: List, selected: Option<string>, userRating: int)
  {
    IsSelected(selected) && !IsWatched(watched, selected.value) && userRating > 0
  }

  /** The watched list and the selection of the page. */
  datatype Page = Page(watched: List, selected: Option<string>)

  /**
   * A click on "+ Add to list": when the button is there, append the new
   * record and close the panel; when it is not, nothing can be clicked and
   * nothing changes.
   */
  function ClickAdd(p: Page, detail: MovieDetail, userRating: int): (r: Page)
    ensures AddEnabled(p.watched, p.selected, userRating) ==>
              r.selected == None
              && |r.watched| == |p.watched| + 1
              && r.watched[..|p.watched|] == p.watched
              && r.watched[|p.watched|].imdbID == p.selected.value
              && r.watched[|p.watched|].title == detail.title
              && r.watched[|p.watched|].year == detail.year
              && r.watched[|p.watched|].poster == detail.poster
              && r.watched[|p.watched|].imdbRating == detail.imdbRating
              && r.watched[|p.watched|].userRating == userRating
              && r.watched[|p.watched|].runtime == ParseRuntime(detail.runtime)
    ensures !AddEnabled(p.watched, p.selected, userRating) ==> r == p
    ensures Distinct(p.watched) ==> Distinct(r.watched)
  {
    if AddEnabled(p.watched, p.selected, userRating) then
      var m := MakeRecord(p.selected.value, detail, userRating);
      assert Distinct(p.watched) ==> Distinct(Add(p.watched, m)) by {
        if Distinct(p.watched) { AddFreshKeepsDistinct(p.watched, m); }
      }
      Page(Add(p.watched, m), None)
    else p
  }

  /**
   * A click on a record's delete button. The watched list, and with it the
   * delete buttons, is rendered only while no movie is selected (the
   * selection is null or the empty string); otherwise
   * nothing can be clicked and nothing changes.
   */
  function ClickDelete(p: Page, id: string): (r: Page)
    ensures !IsSelected(p.selected) ==> r.watched == Delete(p.watched, id) && !Has(r.watched, id)
    ensures IsSelected(p.selected) ==> r == p
    ensures r.selected == p.selected
    ensures Distinct(p.watched) ==> Distinct(r.watched)
  {
    if !IsSelected(p.selected) then
      var r := Delete(p.watched, id);
      assert Distinct(p.watched) ==> Distinct(r) by {
        if Distinct(p.watched) { DeleteKeepsDistinct(p.watched, id); }
      }
      assert forall i :: 0 <= i < |r| ==> r[i] in r;
      p.(watched := r)
    else p
  }

  /** A click on a search result: deselect when it is the selected one, select it otherwise. */
  function Toggle(selected: Option<string>, clicked: string): (r: Option<string>)
    ensures r == None <==> selected == Some(clicked)
    ensures r != None ==> r == Some(clicked)
  {
    if selected == Some(clicked) then None else Some(clicked)
  }

  /** Adding through the guarded button and deleting the same movie restores the list. */
  lemma ClickAddThenDelete(p: Page, detail: MovieDetail, userRating: int)
    requires AddEnabled(p.watched, p.selected, userRating)
    ensures ClickDelete(ClickAdd(p, detail, userRating), p.selected.value).watched == p.watched
  {
    var m := MakeRecord(p.selected.value, detail, userRating);
    AddDeleteRoundTrip(p.watched, m);
  }
}
