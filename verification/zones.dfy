/**
 Bars, Fair-Value-Gap zones and three-bar gap detection (`fvg_bot.py`):
 the batch scan `find_fvgs_in_data`, the fill test `is_fvg_filled` and
 the startup filter of `load_historical_fvgs`.
 */
module Zones {
  import opened Wrappers
  import Seqs

  /** Smallest gap, in points, that makes a zone. */
  const MinGap: real := 2.5

  /** One completed bar of the historical feed; `time` is an abstract timestamp. */
  datatype Bar = Bar(high: real, low: real, close: real, time: int)

  datatype Kind = Bullish | Bearish

  /**
   A detected gap. `index` is the position in the bar list of the third bar of
   the pattern, `time` that bar's timestamp; `filled` and `tradeTaken` only go
   from false to true.
   */
  datatype Zone = Zone(
    kind: Kind,
    top: real,
    bottom: real,
    gapSize: real,
    time: int,
    index: int,
    filled: bool,
    tradeTaken: bool)

  /** A bar whose close lies inside its range. */
  predicate WellFormedBar(b: Bar) {
    b.low <= b.close <= b.high
  }

  /** The shape every detected zone has: a non-empty range of at least `MinGap` points. */
  predicate WellFormedZone(z: Zone) {
    && z.bottom < z.top
    && z.gapSize == z.top - z.bottom
    && z.gapSize >= MinGap
  }

  /** Every zone in the list is well-formed. */
  predicate AllWellFormed(zones: seq<Zone>) {
    forall k :: 0 <= k < |zones| ==> WellFormedZone(zones[k])
  }

  /** The gap test of the three bars ending at `i`; the middle bar `i - 1` takes no part. */
  function Detect(bars: seq<Bar>, i: int): (r: Option<Zone>)
    requires 2 <= i < |bars|
    ensures r.Some? ==> WellFormedZone(r.value)
    ensures r.Some? ==> r.value.index == i && r.value.time == bars[i].time
    ensures r.Some? ==> !r.value.filled && !r.value.tradeTaken
    ensures (r.Some? && r.value.kind == Bullish) <==> bars[i].low - bars[i - 2].high >= MinGap
    ensures (r.Some? && r.value.kind == Bearish)
      <==> !(bars[i].low > bars[i - 2].high) && bars[i - 2].low - bars[i].high >= MinGap
    ensures r.Some? && r.value.kind == Bullish ==>
      r.value.bottom == bars[i - 2].high && r.value.top == bars[i].low
    ensures r.Some? && r.value.kind == Bearish ==>
      r.value.bottom == bars[i].high && r.value.top == bars[i - 2].low
  {
    var first := bars[i - 2];
    var third := bars[i];
    if third.low > first.high then
      var gap := third.low - first.high;
      if gap >= MinGap then Some(Zone(Bullish, third.low, first.high, gap, third.time, i, false, false))
      else None
    else if third.high < first.low then
      var gap := first.low - third.high;
      if gap >= MinGap then Some(Zone(Bearish, first.low, third.high, gap, third.time, i, false, false))
      else None
    else None
  }

  /** Detection reads bars `i - 2` and `i` only: changing any other bar changes nothing. */
  lemma DetectUsesOuterBarsOnly(bars: seq<Bar>, other: seq<Bar>, i: int)
    requires 2 <= i < |bars| && 2 <= i < |other|
    requires bars[i - 2] == other[i - 2] && bars[i] == other[i]
    ensures Detect(bars, i) == Detect(other, i)
  {
  }

  /** With well-formed bars, a gap up and a gap down cannot both hold at one index. */
  lemma GapDirectionsExclusive(bars: seq<Bar>, i: int)
    requires 2 <= i < |bars|
    requires bars[i - 2].low <= bars[i - 2].high && bars[i].low <= bars[i].high
    ensures !(bars[i].low > bars[i - 2].high && bars[i].high < bars[i - 2].low)
  {
  }

  /**
   The batch scan over indices `2 .. n - 1`: the zones of `find_fvgs_in_data`
   restricted to the first `n` bars, in increasing index order.
   */
  function ScanUpTo(bars: seq<Bar>, n: int): (r: seq<Zone>)
    requires n <= |bars|
    ensures |r| <= if n <= 2 then 0 else n - 2
    ensures forall k :: 0 <= k < |r| ==> 2 <= r[k].index < n && Detect(bars, r[k].index) == Some(r[k])
    ensures IndexOrdered(r)
    decreases n
  {
    if n <= 2 then [] else ScanUpTo(bars, n - 1) + Detect(bars, n - 1).ToSeq()
  }

  /**
   `find_fvgs_in_data(df)` with its default start index 2: exactly the zones
   detected at indices `2 .. |bars| - 1`, in increasing index order.
   */
  function FindFvgsInData(bars: seq<Bar>): (r: seq<Zone>)
    ensures forall k :: 0 <= k < |r| ==> 2 <= r[k].index < |bars| && Detect(bars, r[k].index) == Some(r[k])
    ensures forall i :: 2 <= i < |bars| && Detect(bars, i).Some? ==> Detect(bars, i).value in r
    ensures IndexOrdered(r)
  {
    assert forall i :: 2 <= i < |bars| && Detect(bars, i).Some? ==> Detect(bars, i).value in ScanUpTo(bars, |bars|) by {
      forall i | 2 <= i < |bars| && Detect(bars, i).Some?
        ensures Detect(bars, i).value in ScanUpTo(bars, |bars|)
      {
        ScanComplete(bars, |bars|, i);
      }
    }
    ScanUpTo(bars, |bars|)
  }

  /** Every gap detected at an index below `n` is in the scan. */
  lemma {:induction false} ScanComplete(bars: seq<Bar>, n: int, i: int)
    requires n <= |bars| && 2 <= i < n
    requires Detect(bars, i).Some?
    ensures Detect(bars, i).value in ScanUpTo(bars, n)
    decreases n
  {
    if i < n - 1 {
      ScanComplete(bars, n - 1, i);
    }
  }

  /** The scan of a prefix does not depend on the bars that come after it. */
  lemma {:induction false} ScanPrefixStable(bars: seq<Bar>, more: seq<Bar>, n: int)
    requires n <= |bars|
    ensures ScanUpTo(bars + more, n) == ScanUpTo(bars, n)
    decreases n
  {
    if n > 2 {
      ScanPrefixStable(bars, more, n - 1);
      DetectUsesOuterBarsOnly(bars + more, bars, n - 1);
    }
  }

  /**
   Appending one bar extends the batch scan by exactly the zone detected at the
   new bar's index, so the incremental detection of `find_new_fvgs` and the
   batch scan agree.
   */
  lemma ScanAppendBar(bars: seq<Bar>, b: Bar)
    requires |bars| >= 2
    ensures FindFvgsInData(bars + [b]) == FindFvgsInData(bars) + Detect(bars + [b], |bars|).ToSeq()
  {
    var longer := bars + [b];
    assert FindFvgsInData(longer) == ScanUpTo(longer, |bars|) + Detect(longer, |bars|).ToSeq();
    ScanPrefixStable(bars, [b], |bars|);
  }

  /** The fill condition against one closing price. */
  predicate FillsAt(z: Zone, close: real) {
    || (z.kind == Bullish && close <= z.bottom)
    || (z.kind == Bearish && close >= z.top)
  }

  /** Some bar at position `j` or later closes through the zone. */
  function FilledFrom(z: Zone, bars: seq<Bar>, j: nat): (r: bool)
    ensures r <==> exists m :: j <= m < |bars| && FillsAt(z, bars[m].close)
    decreases |bars| - j
  {
    if j >= |bars| then false
    else FillsAt(z, bars[j].close) || FilledFrom(z, bars, j + 1)
  }

  /** `is_fvg_filled(fvg, df, start_index)`: a bar strictly after `start` closes through the zone. */
  function IsFvgFilled(z: Zone, bars: seq<Bar>, start: nat): (r: bool)
    ensures r <==> exists m :: start < m < |bars| && FillsAt(z, bars[m].close)
  {
    FilledFrom(z, bars, start + 1)
  }

  /** The startup keep-test: the zone has not been filled since its own bar. */
  predicate Unfilled(bars: seq<Bar>, z: Zone) {
    z.index >= 0 && !IsFvgFilled(z, bars, z.index)
  }

  /**
   `load_historical_fvgs`: with at least three bars, appends to `active` every
   scanned zone not filled by a later close, in scan order.
   */
  function LoadHistorical(active: seq<Zone>, bars: seq<Bar>): (r: seq<Zone>)
    ensures |bars| < 3 ==> r == active
    ensures |r| >= |active|
    ensures |bars| >= 3 ==> r[..|active|] == active
    ensures forall k :: |active| <= k < |r| ==>
      r[k] in FindFvgsInData(bars) && !IsFvgFilled(r[k], bars, r[k].index)
    ensures |bars| >= 3 ==> forall z :: z in FindFvgsInData(bars) && !IsFvgFilled(z, bars, z.index) ==> z in r[|active|..]
    ensures IndexOrdered(r[|active|..])
  {
    if |bars| < 3 then active
    else
      var loaded := Seqs.Filter(FindFvgsInData(bars), z => Unfilled(bars, z));
      FilterKeepsIndexOrder(FindFvgsInData(bars), z => Unfilled(bars, z));
      active + loaded
  }

  /** Zones listed in strictly increasing index order. */
  predicate IndexOrdered(zones: seq<Zone>) {
    forall k, l :: 0 <= k < l < |zones| ==> zones[k].index < zones[l].index
  }

  /** Dropping zones from an index-ordered list leaves it index-ordered. */
  lemma {:induction false} FilterKeepsIndexOrder(zones: seq<Zone>, p: Zone -> bool)
    requires IndexOrdered(zones)
    ensures IndexOrdered(Seqs.Filter(zones, p))
    decreases |zones|
  {
    if |zones| > 0 {
      var tail := zones[1..];
      FilterKeepsIndexOrder(tail, p);
      var ft := Seqs.Filter(tail, p);
      forall k | 0 <= k < |ft|
        ensures zones[0].index < ft[k].index
      {
        var j :| 0 <= j < |tail| && tail[j] == ft[k];
        assert tail[j] == zones[j + 1];
      }
    }
  }
}
