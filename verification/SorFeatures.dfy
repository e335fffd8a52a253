/** scripts/trading_kernel/verify_sor_dynamic_selection_golden.py, the features of one member: an exact window of
    96 quarter-hour bars, the true-range average before the opening range, and the reasons of a refusal. */
module SorFeatures {
  import opened Wrappers

  const INTERVAL_MS: int := 15 * 60 * 1000
  const HOUR_MS: int := 60 * 60 * 1000
  const WINDOW: nat := 96
  const PREVIOUS: nat := 77
  const PRE_OR: nat := 78
  const OPENING: nat := 92
  const ACTIVITY_FLOOR: real := 20000000.0

  datatype Kline = Kline(openTimeMs: int, open: real, high: real, low: real, close: real, quoteVolume: real) {
    /** What the loader accepts. */
    predicate Valid() {
      && open > 0.0 && low > 0.0 && close > 0.0 && quoteVolume >= 0.0
      && low <= open <= high && low <= close <= high
    }
  }

  type Rows = map<int, Kline>

  datatype GoldenError = MissingOpenTime(openTimeMs: int) | CutoffDrifted

  // ----- the window -----

  /** `_exact_window`: every bar of the window, or the first open time that is missing. */
  function ExactWindow(rows: Rows, startMs: int, count: nat): (r: Result<seq<Kline>, GoldenError>)
    ensures r.Ok? <==> forall i | 0 <= i < count :: startMs + i * INTERVAL_MS in rows
    ensures r.Ok? ==>
              |r.value| == count && forall i | 0 <= i < count :: r.value[i] == rows[startMs + i * INTERVAL_MS]
    ensures r.Err? ==>
              exists i | 0 <= i < count ::
                && r.error == MissingOpenTime(startMs + i * INTERVAL_MS) && startMs + i * INTERVAL_MS !in rows
                && forall k | 0 <= k < i :: startMs + k * INTERVAL_MS in rows
  {
    if count == 0 then Ok([])
    else
      var init :- ExactWindow(rows, startMs, count - 1);
      var t := startMs + (count - 1) * INTERVAL_MS;
      if t in rows then Ok(init + [rows[t]]) else Err(MissingOpenTime(t))
  }

  // ----- true ranges -----

  function Max(a: real, b: real): real { if a < b then b else a }
  function Min(a: real, b: real): real { if a < b then a else b }
  function Abs(a: real): real { if a < 0.0 then -a else a }

  function TrueRange(previousClose: real, bar: Kline): real {
    Max(bar.high - bar.low, Max(Abs(bar.high - previousClose), Abs(bar.low - previousClose)))
  }

  /** The true range of a bar is the span of its prices and the previous close. */
  lemma TrueRangeMeans(previousClose: real, bar: Kline)
    requires bar.Valid()
    ensures
      var top, bottom := if bar.high < previousClose then previousClose else bar.high,
                         if previousClose < bar.low then previousClose else bar.low;
      TrueRange(previousClose, bar) == top - bottom
  {
  }

  function TrueRanges(previousClose: real, bars: seq<Kline>): seq<real>
    decreases |bars|
  {
    if bars == [] then [] else [TrueRange(previousClose, bars[0])] + TrueRanges(bars[0].close, bars[1..])
  }

  function Sum(values: seq<real>): real {
    if values == [] then 0.0 else values[0] + Sum(values[1..])
  }

  /** One true range a bar, each against the close of the bar before. */
  lemma {:induction false} TrueRangesAt(previousClose: real, bars: seq<Kline>, k: nat)
    requires k < |bars|
    ensures |TrueRanges(previousClose, bars)| == |bars|
    ensures TrueRanges(previousClose, bars)[k] == TrueRange(if k == 0 then previousClose else bars[k - 1].close, bars[k])
    decreases |bars|
  {
    if |bars| > 1 {
      TrueRangesAt(bars[0].close, bars[1..], if k == 0 then 0 else k - 1);
    }
  }

  /** A sum is that of its parts, and of one value that value. */
  lemma {:induction false} SumSplits(left: seq<real>, right: seq<real>)
    ensures Sum(left + right) == Sum(left) + Sum(right)
    ensures Sum([]) == 0.0 && forall x :: Sum([x]) == x
  {
    if left == [] {
      assert left + right == right;
    } else {
      SumSplits(left[1..], right);
      assert (left + right)[1..] == left[1..] + right;
    }
  }

  /** The true-range loop. */
  method CollectTrueRanges(firstClose: real, bars: seq<Kline>) returns (trueRanges: seq<real>)
    ensures trueRanges == TrueRanges(firstClose, bars)
  {
    var previousClose := firstClose;
    trueRanges := [];
    for i := 0 to |bars|
      invariant trueRanges + TrueRanges(previousClose, bars[i..]) == TrueRanges(firstClose, bars)
    {
      trueRanges := trueRanges + [TrueRange(previousClose, bars[i])];
      previousClose := bars[i].close;
    }
  }

  /** The highest of a previous close and all highs, and the lowest of it and all lows. */
  function Highest(previousClose: real, bars: seq<Kline>): real
    decreases |bars|
  {
    if bars == [] then previousClose else Max(Max(previousClose, bars[0].high), Highest(bars[0].close, bars[1..]))
  }

  function Lowest(previousClose: real, bars: seq<Kline>): real
    decreases |bars|
  {
    if bars == [] then previousClose else Min(Min(previousClose, bars[0].low), Lowest(bars[0].close, bars[1..]))
  }

  /** What the two extremes mean. */
  lemma {:induction false} Extremes(previousClose: real, bars: seq<Kline>)
    requires forall bar <- bars :: bar.Valid()
    ensures Lowest(previousClose, bars) <= previousClose <= Highest(previousClose, bars)
    ensures forall bar <- bars :: Lowest(previousClose, bars) <= bar.low && bar.high <= Highest(previousClose, bars)
    ensures Highest(previousClose, bars) == previousClose || exists bar <- bars :: bar.high == Highest(previousClose, bars)
    ensures Lowest(previousClose, bars) == previousClose || exists bar <- bars :: bar.low == Lowest(previousClose, bars)
    decreases |bars|
  {
    if bars != [] {
      var rest := bars[1..];
      Extremes(bars[0].close, rest);
      assert bars[0].Valid();
      assert forall bar <- bars :: bar == bars[0] || bar in rest;
      if Highest(bars[0].close, rest) != bars[0].close {
        var bar :| bar in rest && bar.high == Highest(bars[0].close, rest);
        assert bar in bars;
      }
      if Lowest(bars[0].close, rest) != bars[0].close {
        var bar :| bar in rest && bar.low == Lowest(bars[0].close, rest);
        assert bar in bars;
      }
    }
  }

  /** The span bound: the true ranges together cover everything between the two extremes. */
  lemma {:induction false} SpanBound(previousClose: real, bars: seq<Kline>)
    requires forall bar <- bars :: bar.Valid()
    ensures Sum(TrueRanges(previousClose, bars)) >= Highest(previousClose, bars) - Lowest(previousClose, bars)
    decreases |bars|
  {
    if bars != [] {
      SpanBound(bars[0].close, bars[1..]);
      Extremes(bars[0].close, bars[1..]);
      assert bars[0].Valid();
    }
  }

  /** The average vanishes exactly when the previous close and every price of every bar coincide. */
  lemma {:induction false} ZeroIffFlat(previousClose: real, bars: seq<Kline>)
    requires forall bar <- bars :: bar.Valid()
    ensures Sum(TrueRanges(previousClose, bars)) == 0.0 <==>
              forall bar <- bars :: bar.high == bar.low == previousClose
    ensures Sum(TrueRanges(previousClose, bars)) >= 0.0
  {
    SpanBound(previousClose, bars);
    Extremes(previousClose, bars);
    if forall bar <- bars :: bar.high == bar.low == previousClose {
      FlatIsZero(previousClose, bars);
    }
  }

  lemma {:induction false} FlatIsZero(previousClose: real, bars: seq<Kline>)
    requires forall bar <- bars :: bar.Valid() && bar.high == bar.low == previousClose
    ensures Sum(TrueRanges(previousClose, bars)) == 0.0
    decreases |bars|
  {
    if bars != [] {
      assert bars[0].Valid() && bars[0].high == bars[0].low == previousClose;
      FlatIsZero(bars[0].close, bars[1..]);
    }
  }

  // ----- the member -----

  datatype Reason = InvalidOrGeometry | InvalidAtr | LowActivity | NoReason

  datatype Features = Features(
    sessionStartMs: int,
    instrumentId: string,
    window: seq<Kline>,       // stands for its digest
    orHigh: real,
    orLow: real,
    orWidth: real,
    preOrAtr14: real,
    ratio: real,
    activity: real,
    geometryValid: bool,
    atrValid: bool,
    activityValid: bool,
    primaryReason: Reason)
  {
    predicate Ready() {
      primaryReason.NoReason?
    }
  }

  function WindowStart(sessionStartMs: int): int {
    sessionStartMs - 23 * HOUR_MS
  }

  /** The sum of the fourteen true ranges of a complete window. */
  function PreOrTrueRange(window: seq<Kline>): real
    requires |window| == WINDOW
  {
    Sum(TrueRanges(window[PREVIOUS].close, window[PRE_OR..OPENING]))
  }

  function Volume(bars: seq<Kline>): real {
    if bars == [] then 0.0 else bars[0].quoteVolume + Volume(bars[1..])
  }

  /** A volume is that of its parts, and of one bar the bar's. */
  lemma {:induction false} VolumeSplits(left: seq<Kline>, right: seq<Kline>)
    ensures Volume(left + right) == Volume(left) + Volume(right)
    ensures Volume([]) == 0.0 && forall bar :: Volume([bar]) == bar.quoteVolume
  {
    if left == [] {
      assert left + right == right;
    } else {
      VolumeSplits(left[1..], right);
      assert (left + right)[1..] == left[1..] + right;
    }
  }

  method HighestAndLowest(bars: seq<Kline>) returns (high: real, low: real)
    requires bars != []
    ensures (forall bar <- bars :: bar.high <= high) && exists bar <- bars :: bar.high == high
    ensures (forall bar <- bars :: low <= bar.low) && exists bar <- bars :: bar.low == low
  {
    high, low := bars[0].high, bars[0].low;
    for i := 1 to |bars|
      invariant (forall k | 0 <= k < i :: bars[k].high <= high) && exists k | 0 <= k < i :: bars[k].high == high
      invariant (forall k | 0 <= k < i :: low <= bars[k].low) && exists k | 0 <= k < i :: bars[k].low == low
    {
      ghost var high0 :| 0 <= high0 < i && bars[high0].high == high;
      ghost var low0 :| 0 <= low0 < i && bars[low0].low == low;
      high := Max(high, bars[i].high);
      low := Min(low, bars[i].low);
      assert bars[if high == bars[i].high then i else high0].high == high;
      assert bars[if low == bars[i].low then i else low0].low == low;
    }
  }

  /** What the features of a member say about its window. */
  predicate Describes(f: Features, window: seq<Kline>)
    requires |window| == WINDOW
  {
    var opening := window[OPENING..];
    && f.window == window
    && (forall bar <- opening :: f.orLow <= bar.low && bar.high <= f.orHigh)
    && (exists bar <- opening :: bar.high == f.orHigh) && (exists bar <- opening :: bar.low == f.orLow)
    && f.orWidth == f.orHigh - f.orLow
    && f.preOrAtr14 * 14.0 == PreOrTrueRange(window)
    && f.activity == Volume(window)
    && (f.geometryValid <==> f.orHigh > f.orLow)
    && (f.atrValid <==> f.preOrAtr14 > 0.0)
    && (f.activityValid <==> f.activity >= ACTIVITY_FLOOR)
    && (f.atrValid ==> f.ratio * f.preOrAtr14 == f.orWidth) && (!f.atrValid ==> f.ratio == 0.0)
    // the first failing check is the reason
    && (f.primaryReason == InvalidOrGeometry <==> !f.geometryValid)
    && (f.primaryReason == InvalidAtr <==> f.geometryValid && !f.atrValid)
    && (f.primaryReason == LowActivity <==> f.geometryValid && f.atrValid && !f.activityValid)
  }

  /** The features of a complete window. */
  method Measure(instrumentId: string, sessionStartMs: int, window: seq<Kline>) returns (f: Features)
    requires |window| == WINDOW
    ensures Describes(f, window) && f.sessionStartMs == sessionStartMs && f.instrumentId == instrumentId
  {
    hide TrueRanges, Sum, Volume;
    var trueRanges := CollectTrueRanges(window[PREVIOUS].close, window[PRE_OR..OPENING]);
    var orHigh, orLow := HighestAndLowest(window[OPENING..]);
    var atr, activity := Sum(trueRanges) / 14.0, Volume(window);
    var geometryValid, atrValid, activityValid := orHigh > orLow, atr > 0.0, activity >= ACTIVITY_FLOOR;
    var reason :=
      if !geometryValid then InvalidOrGeometry
      else if !atrValid then InvalidAtr
      else if !activityValid then LowActivity
      else NoReason;
    var ratio := if atrValid then (orHigh - orLow) / atr else 0.0;
    f := Features(sessionStartMs, instrumentId, window, orHigh, orLow, orHigh - orLow, atr, ratio, activity,
                  geometryValid, atrValid, activityValid, reason);
  }

  /** `_member_for_session`. */
  method MemberForSession(instrumentId: string, rows: Rows, sessionStartMs: int)
    returns (r: Result<Features, GoldenError>)
    // 96 bars of a quarter of an hour, from 23 hours before the session to 45 minutes into it
    ensures r.Ok? <==>
              && (forall i | 0 <= i < 96 :: sessionStartMs - 82_800_000 + i * 900_000 in rows)
              && sessionStartMs + 2_700_000 in rows
              && rows[sessionStartMs + 2_700_000].openTimeMs == sessionStartMs + 2_700_000
    ensures r.Ok? ==>
              && r.value.sessionStartMs == sessionStartMs && r.value.instrumentId == instrumentId
              && |r.value.window| == 96 && Describes(r.value, r.value.window)
              && forall i | 0 <= i < 96 :: r.value.window[i] == rows[sessionStartMs - 82_800_000 + i * 900_000]
    ensures r.Err? ==>
              || (exists i | 0 <= i < 96 ::
                    && r.error == MissingOpenTime(sessionStartMs - 82_800_000 + i * 900_000)
                    && sessionStartMs - 82_800_000 + i * 900_000 !in rows)
              || (r.error == CutoffDrifted && forall i | 0 <= i < 96 :: sessionStartMs - 82_800_000 + i * 900_000 in rows)
  {
    hide Describes;
    var window :- ExactWindow(rows, WindowStart(sessionStartMs), WINDOW);
    if window[WINDOW - 1].openTimeMs != sessionStartMs + 45 * 60 * 1000 {
      return Err(CutoffDrifted);
    }
    var f := Measure(instrumentId, sessionStartMs, window);
    WindowOf(f, window);
    return Ok(f);
  }

  lemma WindowOf(f: Features, window: seq<Kline>)
    requires |window| == WINDOW && Describes(f, window)
    ensures f.window == window
  {
  }

  // ----- what the features promise -----

  /** The features, number by number: the opening range is of the last four bars, ... */
  lemma OpeningInFull(f: Features, window: seq<Kline>)
    requires |window| == WINDOW && Describes(f, window)
    ensures forall k | 92 <= k < 96 :: f.orLow <= window[k].low && window[k].high <= f.orHigh
    ensures (exists k :: 92 <= k < 96 && window[k].high == f.orHigh) && (exists k :: 92 <= k < 96 && window[k].low == f.orLow)
  {
    hide PreOrTrueRange, Volume;
    var opening := window[OPENING..];
    forall k | 92 <= k < 96 ensures window[k] in opening {
      assert window[k] == opening[k - 92];
    }
    var high :| high in opening && high.high == f.orHigh;
    var low :| low in opening && low.low == f.orLow;
    var i :| 0 <= i < 4 && opening[i] == high;
    var j :| 0 <= j < 4 && opening[j] == low;
    assert window[92 + i] == high && window[92 + j] == low;
  }

  /** ... the average true range is of the fourteen before them, against the close before those, the activity of all
      ninety-six; and the first of three failing conditions is the reason. */
  lemma FeaturesInFull(f: Features, window: seq<Kline>)
    requires |window| == WINDOW && Describes(f, window)
    ensures |window| == 96 && f.window == window
    ensures |window[78..92]| == 14 && f.preOrAtr14 * 14.0 == Sum(TrueRanges(window[77].close, window[78..92]))
    ensures f.activity == Volume(window) && f.orWidth == f.orHigh - f.orLow
    ensures if f.preOrAtr14 > 0.0 then f.ratio * f.preOrAtr14 == f.orHigh - f.orLow else f.ratio == 0.0
    ensures f.primaryReason ==
              if f.orHigh <= f.orLow then InvalidOrGeometry
              else if f.preOrAtr14 <= 0.0 then InvalidAtr
              else if f.activity < 20_000_000.0 then LowActivity else NoReason
    ensures f.Ready() <==> f.orHigh > f.orLow && f.preOrAtr14 > 0.0 && f.activity >= 20_000_000.0
  {
    hide Sum, TrueRanges, Volume;
  }

  /** The average true range of a described member is at least a fourteenth of the whole span before the opening
      range, and it is invalid exactly when no price moved there. */
  lemma AtrSpans(f: Features, window: seq<Kline>)
    requires |window| == WINDOW && Describes(f, window) && forall bar <- window :: bar.Valid()
    ensures
      var before := window[PRE_OR..OPENING];
      && f.preOrAtr14 * 14.0 >= Highest(window[PREVIOUS].close, before) - Lowest(window[PREVIOUS].close, before)
      && f.preOrAtr14 >= 0.0
      && (!f.atrValid <==> forall bar <- before :: bar.high == bar.low == window[PREVIOUS].close)
  {
    var before := window[PRE_OR..OPENING];
    SpanBound(window[PREVIOUS].close, before);
    ZeroIffFlat(window[PREVIOUS].close, before);
  }

  /** The average is decided by fifteen bars: the opening range and everything else may change freely. */
  lemma AtrIgnoresOtherBars(f: Features, window: seq<Kline>, f': Features, window': seq<Kline>)
    requires |window| == |window'| == WINDOW && Describes(f, window) && Describes(f', window')
    requires forall i | PREVIOUS <= i < OPENING :: window[i] == window'[i]
    ensures f.preOrAtr14 == f'.preOrAtr14 && f.atrValid == f'.atrValid
  {
    assert window[PRE_OR..OPENING] == window'[PRE_OR..OPENING];
  }

  /** A window reads nothing outside itself: bars after the cutoff, or before the start, change nothing. */
  lemma {:induction false} WindowIsLocal(rows: Rows, rows': Rows, startMs: int, count: nat)
    requires forall i | 0 <= i < count ::
               (startMs + i * INTERVAL_MS in rows <==> startMs + i * INTERVAL_MS in rows')
               && (startMs + i * INTERVAL_MS in rows ==>
                     rows[startMs + i * INTERVAL_MS] == rows'[startMs + i * INTERVAL_MS])
    ensures ExactWindow(rows, startMs, count) == ExactWindow(rows', startMs, count)
  {
    if count > 0 {
      WindowIsLocal(rows, rows', startMs, count - 1);
    }
  }

  /** Two descriptions of one window agree on everything. */
  lemma DescriptionIsUnique(f: Features, f': Features, window: seq<Kline>)
    requires |window| == WINDOW && Describes(f, window) && Describes(f', window)
    requires f.sessionStartMs == f'.sessionStartMs && f.instrumentId == f'.instrumentId
    ensures f == f'
  {
    hide PreOrTrueRange, Volume;
    assert f.preOrAtr14 == f'.preOrAtr14;
    assert f.orHigh == f'.orHigh && f.orLow == f'.orLow;
    SameQuotient(f.ratio, f'.ratio, f.preOrAtr14, f.orWidth);
  }

  lemma SameQuotient(a: real, b: real, d: real, n: real)
    requires d > 0.0 ==> a * d == n && b * d == n
    ensures d > 0.0 ==> a == b
  {
    if d > 0.0 {
      assert a == n / d && b == n / d;
    }
  }
}
