/** The hourly series and the tail-slice window of scripts/trading_kernel/verify_generic_selection_numeric_parity.py. */
module NumericWindow {
  import opened Wrappers
  import opened Ordering

  const ONE_HOUR_MS: int := 3600000

  datatype Close = Close(time: int, price: real)

  datatype ParityError = CandleTiming | InvalidOrDuplicateClose | Incomplete(cutoff: int) | Noncontiguous(cutoff: int) | NoLastRow

  // ----- the series -----

  /** One raw candle: open time, the close time field of the archive, and the closing price. */
  datatype Candle = Candle(openTime: int, closedField: int, close: real)

  predicate TimeLess(a: Close, b: Close) {
    a.time < b.time
  }

  predicate StrictlyByTime(rows: seq<Close>) {
    forall i, j | 0 <= i < j < |rows| :: rows[i].time < rows[j].time
  }

  predicate HourAligned(rows: seq<Close>) {
    forall i | 0 <= i < |rows| :: rows[i].time % ONE_HOUR_MS == 0
  }

  predicate CandleFits(c: Candle) {
    c.openTime % ONE_HOUR_MS == 0 && c.closedField == c.openTime + ONE_HOUR_MS - 1 && c.close > 0.0
  }

  function CloseOf(c: Candle): Close {
    Close(c.openTime + ONE_HOUR_MS, c.close)
  }

  /** The candle at fault, after nothing but fitting ones: not a whole hour; or without a positive close, or for an
      hour that is there already. */
  predicate FirstFault(candles: seq<Candle>, i: nat, error: ParityError) {
    && i < |candles| && (forall k | 0 <= k < i :: CandleFits(candles[k]))
    && var wholeHour := candles[i].openTime % 3_600_000 == 0 && candles[i].closedField == candles[i].openTime + 3_599_999;
       if !wholeHour then error == CandleTiming
       else
         && error == InvalidOrDuplicateClose
         && (candles[i].close <= 0.0 || exists k | 0 <= k < i :: candles[k].openTime == candles[i].openTime)
  }

  /** The loop of `load_frozen_hourly_sources` over the candles of one member, and the final sort. */
  method LoadSeries(candles: seq<Candle>) returns (r: Result<seq<Close>, ParityError>)
    // every candle is one whole hour with a positive close, and no hour comes twice
    ensures r.Ok? <==>
              && (forall c <- candles :: c.openTime % 3_600_000 == 0 && c.closedField == c.openTime + 3_599_999 && c.close > 0.0)
              && forall i, j | 0 <= i < j < |candles| :: candles[i].openTime != candles[j].openTime
    // each close stands at the end of its hour
    ensures r.Ok? ==>
              && StrictlyByTime(r.value) && HourAligned(r.value) && |r.value| == |candles|
              && (forall c <- candles :: Close(c.openTime + 3_600_000, c.close) in r.value)
    // the first candle at fault decides the error
    ensures r.Err? ==> exists i: nat :: FirstFault(candles, i, r.error)
  {
    var sources: map<int, real> := map[];
    var items: seq<Close> := [];
    for i := 0 to |candles|
      invariant |items| == i && forall k | 0 <= k < i :: items[k] == CloseOf(candles[k]) && CandleFits(candles[k])
      invariant forall t :: t in sources <==> exists k | 0 <= k < i :: items[k].time == t
      invariant forall j, k | 0 <= j < k < i :: items[j].time != items[k].time
    {
      var c := candles[i];
      if c.openTime % ONE_HOUR_MS != 0 || c.closedField != c.openTime + ONE_HOUR_MS - 1 {
        assert candles[i] in candles && FirstFault(candles, i, CandleTiming);
        return Err(CandleTiming);
      }
      var closeTime := c.openTime + ONE_HOUR_MS;
      if c.close <= 0.0 || closeTime in sources {
        if closeTime in sources {
          var k :| 0 <= k < i && items[k].time == closeTime;
          assert candles[k].openTime == candles[i].openTime;
        }
        assert candles[i] in candles && FirstFault(candles, i, InvalidOrDuplicateClose);
        return Err(InvalidOrDuplicateClose);
      }
      sources := sources[closeTime := c.close];
      items := items + [CloseOf(c)];
    }
    var series := SortValues(TimeLess, items);
    SeriesSorted(items);
    forall c | c in candles ensures CloseOf(c) in series {
      var k :| 0 <= k < |candles| && candles[k] == c;
      assert items[k] in items;
    }
    return Ok(series);
  }

  lemma SeriesSorted(items: seq<Close>)
    requires HourAligned(items)
    requires forall j, k | 0 <= j < k < |items| :: items[j].time != items[k].time
    ensures
      var series := SortValues(TimeLess, items);
      && StrictlyByTime(series) && HourAligned(series) && |series| == |items|
      && forall c :: c in series <==> c in items
  {
    var series := SortValues(TimeLess, items);
    SortValuesKeeps(TimeLess, items);
    assert |multiset(series)| == |multiset(items)|;
    forall c ensures c in series <==> c in items {
      assert c in multiset(series) <==> c in multiset(items);
    }
    TimesOnce(items, series);
  }

  /** A permutation of closes with distinct times has distinct times. */
  lemma TimesOnce(items: seq<Close>, series: seq<Close>)
    requires multiset(items) == multiset(series) && Ascending(TimeLess, series) && HourAligned(items)
    requires forall j, k | 0 <= j < k < |items| :: items[j].time != items[k].time
    ensures StrictlyByTime(series) && HourAligned(series)
  {
    forall i | 0 <= i < |series| ensures series[i].time % ONE_HOUR_MS == 0 {
      assert series[i] in multiset(items);
      var k :| 0 <= k < |items| && items[k] == series[i];
    }
    forall i, j | 0 <= i < j < |series| ensures series[i].time < series[j].time {
      assert !TimeLess(series[j], series[i]);
      if series[i].time == series[j].time {
        assert series[i] in multiset(items) && series[j] in multiset(items);
        var a :| 0 <= a < |items| && items[a] == series[i];
        var b :| 0 <= b < |items| && items[b] == series[j];
        assert a == b;
        Twice(series, i, j);
        Once(items, a);
        assert false;
      }
    }
  }

  lemma Twice(s: seq<Close>, i: nat, j: nat)
    requires i < j < |s| && s[i] == s[j]
    ensures multiset(s)[s[i]] >= 2
  {
    assert s == s[..i] + [s[i]] + s[i + 1..j] + [s[j]] + s[j + 1..];
  }

  lemma Once(s: seq<Close>, a: nat)
    requires a < |s| && forall j, k | 0 <= j < k < |s| :: s[j].time != s[k].time
    ensures multiset(s)[s[a]] == 1
  {
    assert s == s[..a] + [s[a]] + s[a + 1..];
    assert s[a] !in s[..a] && s[a] !in s[a + 1..];
  }

  // ----- the window -----

  function UpTo(rows: seq<Close>, cutoff: int): seq<Close> {
    if rows == [] then []
    else
      var last := rows[|rows| - 1];
      UpTo(rows[..|rows| - 1], cutoff) + if last.time <= cutoff then [last] else []
  }

  /** Python's `s[-count:]`; with a count of zero it is all of s. */
  function Tail(s: seq<Close>, count: nat): seq<Close> {
    if count == 0 || count >= |s| then s else s[|s| - count..]
  }

  function Prices(rows: seq<Close>): (r: seq<real>)
    ensures |r| == |rows| && forall i | 0 <= i < |r| :: r[i] == rows[i].price
  {
    seq(|rows|, i requires 0 <= i < |rows| => rows[i].price)
  }

  predicate Contiguous(rows: seq<Close>, cutoff: int) {
    forall k | 0 <= k < |rows| :: rows[k].time == cutoff - ONE_HOUR_MS * (|rows| - 1 - k)
  }

  /** `_window_at_cutoff`. */
  function WindowAtCutoff(rows: seq<Close>, cutoff: int, count: nat): Result<seq<real>, ParityError> {
    var selected := Tail(UpTo(rows, cutoff), count);
    if |selected| != count then Err(Incomplete(cutoff))
    else if selected == [] then Err(NoLastRow)
    else if selected[|selected| - 1].time != cutoff then Err(Incomplete(cutoff))
    else if !Contiguous(selected, cutoff) then Err(Noncontiguous(cutoff))
    else Ok(Prices(selected))
  }

  // ----- the window is a lookup -----

  ghost predicate HasClose(rows: seq<Close>, time: int) {
    exists i :: 0 <= i < |rows| && rows[i].time == time
  }

  lemma {:induction false} UpToIsPrefix(rows: seq<Close>, cutoff: int)
    requires StrictlyByTime(rows)
    ensures
      var s := UpTo(rows, cutoff);
      && |s| <= |rows| && s == rows[..|s|]
      && (forall i | 0 <= i < |s| :: s[i].time <= cutoff)
      && (forall i | |s| <= i < |rows| :: rows[i].time > cutoff)
  {
    if rows != [] {
      var init := rows[..|rows| - 1];
      UpToIsPrefix(init, cutoff);
      if rows[|rows| - 1].time <= cutoff {
        assert |UpTo(init, cutoff)| == |init|;
      }
    }
  }

  lemma TimeOrder(s: seq<Close>, i: nat, j: nat)
    requires StrictlyByTime(s) && i < |s| && j < |s|
    ensures s[i].time < s[j].time <==> i < j
    ensures s[i].time == s[j].time <==> i == j
  {
    if j < i {
      assert s[j].time < s[i].time;
    }
  }

  /** Counting back from the cutoff, the hours that are there stand in the last places. */
  lemma {:induction false} HoursAtTheEnd(s: seq<Close>, cutoff: int, i: nat)
    requires StrictlyByTime(s) && HourAligned(s) && forall k | 0 <= k < |s| :: s[k].time <= cutoff
    requires forall k | 0 <= k <= i :: HasClose(s, cutoff - ONE_HOUR_MS * k)
    ensures i < |s| && s[|s| - 1 - i].time == cutoff - ONE_HOUR_MS * i
  {
    assert HasClose(s, cutoff - ONE_HOUR_MS * i);
    var j :| 0 <= j < |s| && s[j].time == cutoff - ONE_HOUR_MS * i;
    if i == 0 {
      TimeOrder(s, j, |s| - 1);
    } else {
      HoursAtTheEnd(s, cutoff, i - 1);
      var next := |s| - i;
      assert s[next].time == s[j].time + ONE_HOUR_MS;
      TimeOrder(s, j, next);
      if j < next - 1 {
        assert s[j].time < s[j + 1].time < s[next].time;
        NothingBetween(s[j].time, s[j + 1].time);
      }
    }
  }

  lemma NothingBetween(a: int, b: int)
    requires a % ONE_HOUR_MS == 0 && b % ONE_HOUR_MS == 0 && a < b
    ensures b >= a + ONE_HOUR_MS
  {
  }

  lemma WindowHasHours(rows: seq<Close>, cutoff: int, count: nat)
    requires StrictlyByTime(rows) && WindowAtCutoff(rows, cutoff, count).Ok?
    ensures forall k | 0 <= k < count :: HasClose(rows, cutoff - ONE_HOUR_MS * k)
  {
    var s := UpTo(rows, cutoff);
    var selected := Tail(s, count);
    UpToIsPrefix(rows, cutoff);
    hide UpTo, StrictlyByTime;
    forall k | 0 <= k < count ensures HasClose(rows, cutoff - ONE_HOUR_MS * k) {
      assert selected[count - 1 - k].time == cutoff - ONE_HOUR_MS * k;
      assert rows[|s| - 1 - k] == selected[count - 1 - k];
    }
  }

  lemma HoursInPrefix(rows: seq<Close>, cutoff: int, k: nat)
    requires StrictlyByTime(rows) && HasClose(rows, cutoff - ONE_HOUR_MS * k)
    ensures HasClose(UpTo(rows, cutoff), cutoff - ONE_HOUR_MS * k)
  {
    UpToIsPrefix(rows, cutoff);
    var s := UpTo(rows, cutoff);
    var j :| 0 <= j < |rows| && rows[j].time == cutoff - ONE_HOUR_MS * k;
    assert s[j] == rows[j];
  }

  /** The k-th place from the end holds the k-th hour before the cutoff. */
  predicate AtHour(s: seq<Close>, cutoff: int, k: nat) {
    k < |s| && s[|s| - 1 - k].time == cutoff - ONE_HOUR_MS * k
  }

  lemma HoursMakeWindow(rows: seq<Close>, cutoff: int, count: nat)
    requires StrictlyByTime(rows) && HourAligned(rows) && count > 0
    requires forall k | 0 <= k < count :: HasClose(rows, cutoff - ONE_HOUR_MS * k)
    ensures WindowAtCutoff(rows, cutoff, count).Ok?
  {
    var s := UpTo(rows, cutoff);
    UpToIsPrefix(rows, cutoff);
    assert HourAligned(s) && StrictlyByTime(s);
    forall k: nat | k < count ensures AtHour(s, cutoff, k) {
      forall m | 0 <= m <= k ensures HasClose(s, cutoff - ONE_HOUR_MS * m) {
        HoursInPrefix(rows, cutoff, m);
      }
      HoursAtTheEnd(s, cutoff, k);
    }
    assert AtHour(s, cutoff, count - 1);
    TailHours(s, cutoff, count);
  }

  lemma TailHours(s: seq<Close>, cutoff: int, count: nat)
    requires 0 < count <= |s|
    requires forall k: nat | k < count :: AtHour(s, cutoff, k)
    ensures |Tail(s, count)| == count && Tail(s, count)[count - 1].time == cutoff && Contiguous(Tail(s, count), cutoff)
  {
    var selected := Tail(s, count);
    forall k | 0 <= k < count ensures selected[k].time == cutoff - ONE_HOUR_MS * (count - 1 - k) {
      assert AtHour(s, cutoff, count - 1 - k);
    }
    assert AtHour(s, cutoff, 0);
    assert selected[count - 1] == s[|s| - 1];
  }

  /** On a sorted, duplicate-free, hour-aligned series the window succeeds exactly when every one of the hours
      ending at the cutoff has a close. */
  lemma WindowExact(rows: seq<Close>, cutoff: int, count: nat)
    requires StrictlyByTime(rows) && HourAligned(rows) && count > 0
    ensures WindowAtCutoff(rows, cutoff, count).Ok? <==>
              forall k | 0 <= k < count :: HasClose(rows, cutoff - ONE_HOUR_MS * k)
  {
    if WindowAtCutoff(rows, cutoff, count).Ok? {
      WindowHasHours(rows, cutoff, count);
    }
    if forall k | 0 <= k < count :: HasClose(rows, cutoff - ONE_HOUR_MS * k) {
      HoursMakeWindow(rows, cutoff, count);
    }
  }

  /** At least so many closes stand at or before the cutoff. */
  predicate Enough(rows: seq<Close>, cutoff: int, count: nat) {
    0 < count <= |rows| && rows[count - 1].time <= cutoff
  }

  lemma EnoughMeans(rows: seq<Close>, cutoff: int, count: nat)
    requires StrictlyByTime(rows) && count > 0
    ensures Enough(rows, cutoff, count) <==> |UpTo(rows, cutoff)| >= count
    ensures UpTo(rows, cutoff) != [] ==>
              (UpTo(rows, cutoff)[|UpTo(rows, cutoff)| - 1].time == cutoff <==> HasClose(rows, cutoff))
  {
    UpToIsPrefix(rows, cutoff);
    var s := UpTo(rows, cutoff);
    if s != [] {
      var last := |s| - 1;
      assert s[last] == rows[last];
      if i :| 0 <= i < |rows| && rows[i].time == cutoff {
        TimeOrder(rows, i, last);
        TimeOrder(rows, last, i);
      }
    }
  }

  /** Why a window is refused: too few closes or none at the cutoff itself; or, with both there, a missing hour. */
  lemma RefusedFor(rows: seq<Close>, cutoff: int, count: nat)
    requires StrictlyByTime(rows) && HourAligned(rows) && count > 0
    ensures WindowAtCutoff(rows, cutoff, count) == Err(Incomplete(cutoff)) <==>
              !Enough(rows, cutoff, count) || !HasClose(rows, cutoff)
    ensures WindowAtCutoff(rows, cutoff, count) == Err(Noncontiguous(cutoff)) <==>
              && Enough(rows, cutoff, count) && HasClose(rows, cutoff)
              && exists k | 0 <= k < count :: !HasClose(rows, cutoff - ONE_HOUR_MS * k)
  {
    WindowExact(rows, cutoff, count);
    EnoughMeans(rows, cutoff, count);
    hide UpTo, StrictlyByTime, HourAligned, Contiguous, Enough, HasClose;
  }

  /** A window that succeeds is the direct lookup: each place holds the close of its hour. */
  lemma WindowIsLookup(rows: seq<Close>, cutoff: int, count: nat, k: nat, i: nat)
    requires StrictlyByTime(rows) && WindowAtCutoff(rows, cutoff, count).Ok? && k < count
    requires i < |rows| && rows[i].time == cutoff - ONE_HOUR_MS * k
    ensures WindowAtCutoff(rows, cutoff, count).value[count - 1 - k] == rows[i].price
  {
    UpToIsPrefix(rows, cutoff);
    var s := UpTo(rows, cutoff);
    var selected := Tail(s, count);
    var place := |s| - 1 - k;
    assert selected[count - 1 - k] == s[place] == rows[place];
    assert rows[place].time == rows[i].time;
    TimeOrder(rows, place, i);
  }

  lemma {:induction false} UpToIgnoresLater(rows: seq<Close>, later: seq<Close>, cutoff: int)
    requires forall i | 0 <= i < |later| :: later[i].time > cutoff
    ensures UpTo(rows + later, cutoff) == UpTo(rows, cutoff)
  {
    if later == [] {
      assert rows + later == rows;
    } else {
      UpToIgnoresLater(rows, later[..|later| - 1], cutoff);
      assert (rows + later)[..|rows + later| - 1] == rows + later[..|later| - 1];
    }
  }

  /** Closes after the cutoff change nothing. */
  lemma LaterClosesIgnored(rows: seq<Close>, later: seq<Close>, cutoff: int, count: nat)
    requires forall i | 0 <= i < |later| :: later[i].time > cutoff
    ensures WindowAtCutoff(rows + later, cutoff, count) == WindowAtCutoff(rows, cutoff, count)
  {
    UpToIgnoresLater(rows, later, cutoff);
  }

  /** A count of zero is refused whatever the series holds. */
  lemma EmptyWindowRefused(rows: seq<Close>, cutoff: int)
    ensures WindowAtCutoff(rows, cutoff, 0).Err?
    ensures WindowAtCutoff(rows, cutoff, 0).error == NoLastRow <==> UpTo(rows, cutoff) == []
  {
  }
}
