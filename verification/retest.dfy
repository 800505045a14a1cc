/**
 The retest pass over the live price (`check_fvg_retest_signals` in
 `fvg_bot.py`) and the derivation of entry, stop and target
 (`evaluate_long_entry`, `evaluate_short_entry`). Writing the signal row is an
 effect left to the caller; the zone is marked traded whether or not that
 write succeeds, so the pass returns the signals it would write.
 */
module Retest {
  import opened Zones
  import Quarter
  import Seqs

  /** A zone is retested when the price comes within this many points of either boundary. */
  const RetestDistance: real := 2.5

  datatype Direction = Long | Short

  /** The content of one signal row, apart from the wall-clock timestamp. */
  datatype Signal = Signal(
    direction: Direction,
    entry: real,
    stop: real,
    target: real,
    zoneKind: Kind,
    gapSize: real)

  function Abs(x: real): real {
    if x < 0.0 then -x else x
  }

  function Min(a: real, b: real): real {
    if a <= b then a else b
  }

  /** Distance from the price to the nearer zone boundary. */
  function DistanceToZone(z: Zone, price: real): real {
    Min(Abs(price - z.bottom), Abs(price - z.top))
  }

  /** Proximity, not membership: either boundary within `RetestDistance` of the price. */
  predicate Near(z: Zone, price: real) {
    DistanceToZone(z, price) <= RetestDistance
  }

  /** A zone that has neither produced a signal nor been filled. */
  predicate Eligible(z: Zone) {
    !z.tradeTaken && !z.filled
  }

  /** The zone produces a signal at this price. */
  predicate Fires(z: Zone, price: real) {
    Eligible(z) && Near(z, price)
  }

  /** Stop below entry below target, each step at least `MinGap` points wide. */
  predicate LongLevelsOrdered(s: Signal) {
    s.stop + MinGap <= s.entry && s.entry + MinGap <= s.target
  }

  /** Target below entry below stop, each step at least `MinGap` points wide. */
  predicate ShortLevelsOrdered(s: Signal) {
    s.target + MinGap <= s.entry && s.entry + MinGap <= s.stop
  }

  /**
   `evaluate_long_entry` on a bearish zone: buy at the zone bottom, stop one gap
   below it, target the zone top, each rounded to a quarter tick. The live
   price plays no part in the levels.
   */
  function EvaluateLongEntry(z: Zone): (s: Signal)
    ensures s.direction == Long && s.zoneKind == z.kind && s.gapSize == z.gapSize
    ensures Quarter.RoundsTo(s.entry, z.bottom)
    ensures Quarter.RoundsTo(s.stop, z.bottom - z.gapSize)
    ensures Quarter.RoundsTo(s.target, z.top)
    ensures WellFormedZone(z) ==> LongLevelsOrdered(s)
  {
    var entry := Quarter.RoundToQuarter(z.bottom);
    var stop := Quarter.RoundToQuarter(z.bottom - z.gapSize);
    var target := Quarter.RoundToQuarter(z.top);
    assert WellFormedZone(z) ==> stop + MinGap <= entry && entry + MinGap <= target by {
      if WellFormedZone(z) {
        Quarter.RoundToQuarterKeepsSpread(z.bottom - z.gapSize, z.bottom);
        Quarter.RoundToQuarterKeepsSpread(z.bottom, z.top);
      }
    }
    Signal(Long, entry, stop, target, z.kind, z.gapSize)
  }

  /**
   `evaluate_short_entry` on a bullish zone: sell at the zone top, stop one gap
   above it, target the zone bottom, each rounded to a quarter tick.
   */
  function EvaluateShortEntry(z: Zone): (s: Signal)
    ensures s.direction == Short && s.zoneKind == z.kind && s.gapSize == z.gapSize
    ensures Quarter.RoundsTo(s.entry, z.top)
    ensures Quarter.RoundsTo(s.stop, z.top + z.gapSize)
    ensures Quarter.RoundsTo(s.target, z.bottom)
    ensures WellFormedZone(z) ==> ShortLevelsOrdered(s)
  {
    var entry := Quarter.RoundToQuarter(z.top);
    var stop := Quarter.RoundToQuarter(z.top + z.gapSize);
    var target := Quarter.RoundToQuarter(z.bottom);
    assert WellFormedZone(z) ==> target + MinGap <= entry && entry + MinGap <= stop by {
      if WellFormedZone(z) {
        Quarter.RoundToQuarterKeepsSpread(z.top, z.top + z.gapSize);
        Quarter.RoundToQuarterKeepsSpread(z.bottom, z.top);
      }
    }
    Signal(Short, entry, stop, target, z.kind, z.gapSize)
  }

  /** The contract of `EvaluateLongEntry` admits exactly one signal. */
  lemma LongEntryDetermined(z: Zone, s: Signal)
    requires s.direction == Long && s.zoneKind == z.kind && s.gapSize == z.gapSize
    requires Quarter.RoundsTo(s.entry, z.bottom)
    requires Quarter.RoundsTo(s.stop, z.bottom - z.gapSize)
    requires Quarter.RoundsTo(s.target, z.top)
    ensures s == EvaluateLongEntry(z)
  {
    Quarter.RoundToQuarterUnique(s.entry, z.bottom);
    Quarter.RoundToQuarterUnique(s.stop, z.bottom - z.gapSize);
    Quarter.RoundToQuarterUnique(s.target, z.top);
  }

  /** The contract of `EvaluateShortEntry` admits exactly one signal. */
  lemma ShortEntryDetermined(z: Zone, s: Signal)
    requires s.direction == Short && s.zoneKind == z.kind && s.gapSize == z.gapSize
    requires Quarter.RoundsTo(s.entry, z.top)
    requires Quarter.RoundsTo(s.stop, z.top + z.gapSize)
    requires Quarter.RoundsTo(s.target, z.bottom)
    ensures s == EvaluateShortEntry(z)
  {
    Quarter.RoundToQuarterUnique(s.entry, z.top);
    Quarter.RoundToQuarterUnique(s.stop, z.top + z.gapSize);
    Quarter.RoundToQuarterUnique(s.target, z.bottom);
  }

  /** Bullish zones are faded short, bearish zones bought long. */
  function EntryFor(z: Zone): (s: Signal)
    ensures s.direction == Long <==> z.kind == Bearish
    ensures s.zoneKind == z.kind && s.gapSize == z.gapSize
    ensures z.kind == Bullish ==>
      && Quarter.RoundsTo(s.entry, z.top)
      && Quarter.RoundsTo(s.stop, z.top + z.gapSize)
      && Quarter.RoundsTo(s.target, z.bottom)
    ensures z.kind == Bearish ==>
      && Quarter.RoundsTo(s.entry, z.bottom)
      && Quarter.RoundsTo(s.stop, z.bottom - z.gapSize)
      && Quarter.RoundsTo(s.target, z.top)
  {
    match z.kind
    case Bullish => EvaluateShortEntry(z)
    case Bearish => EvaluateLongEntry(z)
  }

  /**
   The dispatch of the retest loop: bullish zones get the short evaluation and
   bearish zones the long one, recovered from `EntryFor`'s contract alone.
   */
  lemma EntryForDispatch(z: Zone)
    ensures z.kind == Bullish ==> EntryFor(z) == EvaluateShortEntry(z)
    ensures z.kind == Bearish ==> EntryFor(z) == EvaluateLongEntry(z)
  {
    var s := EntryFor(z);
    if z.kind == Bullish {
      ShortEntryDetermined(z, s);
    } else {
      LongEntryDetermined(z, s);
    }
  }

  /** The levels of a signal are ordered for its direction. */
  predicate LevelsOrdered(s: Signal) {
    if s.direction == Long then LongLevelsOrdered(s) else ShortLevelsOrdered(s)
  }

  /** Every signal from a well-formed zone has correctly ordered levels. */
  lemma EntryForOrdered(z: Zone)
    requires WellFormedZone(z)
    ensures LevelsOrdered(EntryFor(z))
  {
  }

  /** The result of one retest pass: the updated zone list and the signals emitted, in list order. */
  datatype RetestOutcome = RetestOutcome(zones: seq<Zone>, signals: seq<Signal>)

  /** The zones that fire at `price`, in list order. */
  function FiringZones(zones: seq<Zone>, price: real): seq<Zone> {
    Seqs.Filter(zones, z => Fires(z, price))
  }

  /**
   The loop of `check_fvg_retest_signals`: each eligible zone within reach of
   the price emits its signal and is marked traded; the others are untouched.
   */
  function RetestPass(zones: seq<Zone>, price: real): (r: RetestOutcome)
    ensures |r.zones| == |zones|
    ensures forall k :: 0 <= k < |zones| ==>
      r.zones[k] == zones[k].(tradeTaken := zones[k].tradeTaken || Fires(zones[k], price))
    ensures r.signals == Seqs.Map(FiringZones(zones, price), EntryFor)
    decreases |zones|
  {
    if |zones| == 0 then RetestOutcome([], [])
    else
      var rest := RetestPass(zones[1..], price);
      var z := zones[0];
      if Fires(z, price) then
        RetestOutcome([z.(tradeTaken := true)] + rest.zones, [EntryFor(z)] + rest.signals)
      else
        RetestOutcome([z] + rest.zones, rest.signals)
  }

  /** `check_fvg_retest_signals`: nothing at all happens while the strategy is disabled. */
  function CheckFvgRetestSignals(enabled: bool, zones: seq<Zone>, price: real): (r: RetestOutcome)
    ensures !enabled ==> r.zones == zones && r.signals == []
    ensures enabled ==> r == RetestPass(zones, price)
  {
    if !enabled then RetestOutcome(zones, []) else RetestPass(zones, price)
  }

  /** A registry of well-formed zones only emits signals with ordered levels. */
  lemma RetestSignalsOrdered(zones: seq<Zone>, price: real)
    requires AllWellFormed(zones)
    ensures forall k :: 0 <= k < |RetestPass(zones, price).signals| ==>
      LevelsOrdered(RetestPass(zones, price).signals[k])
  {
    var firing := FiringZones(zones, price);
    forall k | 0 <= k < |firing|
      ensures LevelsOrdered(EntryFor(firing[k]))
    {
      var j :| 0 <= j < |zones| && zones[j] == firing[k];
    }
  }

  /** A zone that fired is skipped by every later pass, whatever the price. */
  lemma FiredZoneNeverFiresAgain(zones: seq<Zone>, p: real, q: real, k: int)
    requires 0 <= k < |zones|
    requires Fires(zones[k], p)
    ensures !Fires(RetestPass(zones, p).zones[k], q)
  {
  }

  /**
   Each pass trades away exactly as many eligible zones as it emits signals:
   eligible-after plus signals equals eligible-before.
   */
  lemma {:induction false} RetestPassConsumesEligible(zones: seq<Zone>, price: real)
    ensures Seqs.Count(RetestPass(zones, price).zones, Eligible) + |RetestPass(zones, price).signals|
      == Seqs.Count(zones, Eligible)
    decreases |zones|
  {
    if |zones| > 0 {
      RetestPassConsumesEligible(zones[1..], price);
      var r := RetestPass(zones, price);
      assert r.zones[1..] == RetestPass(zones[1..], price).zones;
    }
  }

  /** Retest passes over a fixed zone list at successive live prices, collecting every signal. */
  function RetestRun(zones: seq<Zone>, prices: seq<real>): (r: RetestOutcome)
    ensures |r.zones| == |zones|
    decreases |prices|
  {
    if |prices| == 0 then RetestOutcome(zones, [])
    else
      var first := RetestPass(zones, prices[0]);
      var rest := RetestRun(first.zones, prices[1..]);
      RetestOutcome(rest.zones, first.signals + rest.signals)
  }

  /** However many prices arrive, a zone list yields at most one signal per eligible zone. */
  lemma {:induction false} RetestRunAtMostOnePerZone(zones: seq<Zone>, prices: seq<real>)
    ensures |RetestRun(zones, prices).signals| + Seqs.Count(RetestRun(zones, prices).zones, Eligible)
      == Seqs.Count(zones, Eligible)
    ensures |RetestRun(zones, prices).signals| <= Seqs.Count(zones, Eligible)
    decreases |prices|
  {
    if |prices| > 0 {
      RetestPassConsumesEligible(zones, prices[0]);
      RetestRunAtMostOnePerZone(RetestPass(zones, prices[0]).zones, prices[1..]);
    }
  }

  /** Membership is not the test: the middle of a wide zone does not fire, a price just outside does. */
  lemma ProximityNotMembership()
    ensures !Near(Zone(Bearish, 110.0, 100.0, 10.0, 0, 2, false, false), 105.0)
    ensures Near(Zone(Bearish, 110.0, 100.0, 10.0, 0, 2, false, false), 97.5)
    ensures !Near(Zone(Bearish, 110.0, 100.0, 10.0, 0, 2, false, false), 97.4)
  {
  }
}
