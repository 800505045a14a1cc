/**
 The list of active zones (`active_fvgs` in `fvg_bot.py`) and what each new
 completed bar does to it: detect a zone at the newest index, evict old and
 filled zones (`clean_old_fvgs`, run at the end of `find_new_fvgs`), then mark
 zones filled by the bar's close (`check_fvg_fill_status`).
 */
module Registry {
  import opened Wrappers
  import opened Zones
  import Seqs

  /** A zone this many bars old or older is evicted. */
  const StaleBars: int := 100

  /** The keep-test of `clean_old_fvgs`. */
  predicate Keep(z: Zone, current: int) {
    !z.filled && current - z.index < StaleBars
  }

  /** `clean_old_fvgs(current)`: the unfilled zones younger than 100 bars, in list order. */
  function CleanOldFvgs(zones: seq<Zone>, current: int): (r: seq<Zone>)
    ensures |r| <= |zones|
    ensures forall k :: 0 <= k < |r| ==> r[k] in zones && !r[k].filled && current - r[k].index < StaleBars
    ensures forall k :: 0 <= k < |zones| && !zones[k].filled && current - zones[k].index < StaleBars ==> zones[k] in r
  {
    Seqs.Filter(zones, z => Keep(z, current))
  }

  /** A listed zone that passes the keep-test survives cleaning. */
  lemma CleanKeepsMember(zones: seq<Zone>, current: int, z: Zone)
    requires z in zones && Keep(z, current)
    ensures z in CleanOldFvgs(zones, current)
  {
    var j :| 0 <= j < |zones| && zones[j] == z;
  }

  /** Cleaning keeps list order: cleaning a concatenation cleans each part. */
  lemma CleanAppend(a: seq<Zone>, b: seq<Zone>, current: int)
    ensures CleanOldFvgs(a + b, current) == CleanOldFvgs(a, current) + CleanOldFvgs(b, current)
  {
    Seqs.FilterAppend(a, b, z => Keep(z, current));
  }

  /** A second clean at the same bar removes nothing more. */
  lemma CleanIdempotent(zones: seq<Zone>, current: int)
    ensures CleanOldFvgs(CleanOldFvgs(zones, current), current) == CleanOldFvgs(zones, current)
  {
    Seqs.FilterIdempotent(zones, z => Keep(z, current));
  }

  /** The age boundary: an unfilled zone 99 bars old survives, one 100 bars old is evicted. */
  lemma CleanAgeBoundary(z: Zone, current: int)
    requires !z.filled
    ensures current - z.index == 99 ==> CleanOldFvgs([z], current) == [z]
    ensures current - z.index == 100 ==> CleanOldFvgs([z], current) == []
  {
  }

  /** `check_fvg_fill_status` on one zone: set `filled` once a close goes through it. */
  function MarkFilled(z: Zone, close: real): Zone {
    if !z.filled && FillsAt(z, close) then z.(filled := true) else z
  }

  /**
   `check_fvg_fill_status(df, i)`: each zone's `filled` flag becomes true when
   bar `i` closes through it; nothing else changes and nothing is removed.
   */
  function CheckFillStatus(zones: seq<Zone>, bars: seq<Bar>, i: int): (r: seq<Zone>)
    requires 0 <= i < |bars|
    ensures |r| == |zones|
    ensures forall k :: 0 <= k < |r| ==> (r[k].filled <==> zones[k].filled || FillsAt(zones[k], bars[i].close))
    ensures forall k :: 0 <= k < |r| ==> r[k] == zones[k].(filled := r[k].filled)
  {
    var close := bars[i].close;
    Seqs.Map(zones, z => MarkFilled(z, close))
  }

  /** Marking fills twice with the same bar is the same as once. */
  lemma CheckFillStatusIdempotent(zones: seq<Zone>, bars: seq<Bar>, i: int)
    requires 0 <= i < |bars|
    ensures CheckFillStatus(CheckFillStatus(zones, bars, i), bars, i) == CheckFillStatus(zones, bars, i)
  {
  }

  /** A well-formed bar never closes through the zone it creates. */
  lemma NewZoneNotFilledByItsBar(bars: seq<Bar>, i: int)
    requires 2 <= i < |bars|
    requires WellFormedBar(bars[i])
    requires Detect(bars, i).Some?
    ensures !FillsAt(Detect(bars, i).value, bars[i].close)
  {
  }

  /**
   `find_new_fvgs(df, i)`: for `i >= 2`, append the zone detected at `i` (if any),
   then clean at `i`; for `i < 2`, return at once without cleaning.
   */
  function FindNewFvgs(zones: seq<Zone>, bars: seq<Bar>, i: int): (r: seq<Zone>)
    requires i < |bars|
    ensures i < 2 ==> r == zones
    ensures i >= 2 ==> forall k :: 0 <= k < |r| ==>
      (r[k] in zones || Detect(bars, i) == Some(r[k])) && Keep(r[k], i)
    ensures i >= 2 ==> forall k :: 0 <= k < |zones| && Keep(zones[k], i) ==> zones[k] in r
    ensures i >= 2 && Detect(bars, i).Some? ==> |r| > 0 && r[|r| - 1] == Detect(bars, i).value
    ensures i >= 2 ==> |r| <= |zones| + 1
  {
    if i < 2 then zones
    else
      var found := Detect(bars, i).ToSeq();
      CleanAppend(zones, found, i);
      CleanOldFvgs(zones + found, i)
  }

  /**
   The incremental scan agrees with the batch scan: when bar `b` arrives,
   `find_new_fvgs` adds exactly the zones the batch scan of the longer history
   has beyond those of the shorter one, and then cleans.
   */
  lemma NewFvgsMatchBatchScan(zones: seq<Zone>, prev: seq<Bar>, b: Bar)
    requires |prev| >= 2
    ensures |FindFvgsInData(prev)| <= |FindFvgsInData(prev + [b])|
    ensures FindNewFvgs(zones, prev + [b], |prev|)
      == CleanOldFvgs(zones + FindFvgsInData(prev + [b])[|FindFvgsInData(prev)|..], |prev|)
  {
    ScanAppendBar(prev, b);
    var bars := prev + [b];
    assert FindFvgsInData(bars)[|FindFvgsInData(prev)|..] == Detect(bars, |prev|).ToSeq();
  }

  /** What the zone engine keeps between bars: the zone list and the last processed bar's time. */
  datatype EngineState = EngineState(zones: seq<Zone>, lastBarTime: Option<int>)

  /**
   The state after construction (`active_fvgs = []`, `last_processed_bar_time = None`)
   followed by `load_historical_fvgs`: the unfilled scanned zones, and no bar time recorded.
   */
  function Startup(bars: seq<Bar>): (r: EngineState)
    ensures r.lastBarTime == None
    ensures forall z :: z in r.zones <==> z in FindFvgsInData(bars) && !IsFvgFilled(z, bars, z.index)
    ensures IndexOrdered(r.zones)
  {
    EngineState(LoadHistorical([], bars), None)
  }

  /**
   The new-bar step of `process_historical_bars`, given the whole bar list:
   with at least three bars and a latest timestamp different from the last one
   seen, run detection and cleaning at the last index, then mark fills by that
   bar's close, and remember the timestamp.
   */
  function ProcessHistoricalBars(st: EngineState, bars: seq<Bar>): (r: EngineState)
    ensures |bars| < 3 ==> r == st
    ensures |bars| >= 3 ==> r.lastBarTime == Some(bars[|bars| - 1].time)
    ensures |bars| >= 3 && st.lastBarTime == Some(bars[|bars| - 1].time) ==> r == st
    ensures |bars| >= 3 && st.lastBarTime != Some(bars[|bars| - 1].time) ==>
      && |r.zones| <= |st.zones| + 1
      && (forall k :: 0 <= k < |r.zones| ==> |bars| - 1 - r.zones[k].index < StaleBars)
      && (forall k :: 0 <= k < |r.zones| ==> (r.zones[k].filled <==> FillsAt(r.zones[k], bars[|bars| - 1].close)))
      && (forall z :: z in st.zones && Keep(z, |bars| - 1) ==> MarkFilled(z, bars[|bars| - 1].close) in r.zones)
      && (Detect(bars, |bars| - 1).Some? ==>
            |r.zones| > 0 && r.zones[|r.zones| - 1] == MarkFilled(Detect(bars, |bars| - 1).value, bars[|bars| - 1].close))
      && (forall k :: 0 <= k < |r.zones| ==>
            var y := r.zones[k].(filled := false);
            y in st.zones || Detect(bars, |bars| - 1) == Some(y))
  {
    if |bars| < 3 then st
    else
      var current := |bars| - 1;
      var latest := bars[current].time;
      if st.lastBarTime == Some(latest) then st
      else
        var detected := FindNewFvgs(st.zones, bars, current);
        var marked := CheckFillStatus(detected, bars, current);
        StepZonesFromSurvivors(st.zones, bars, current);
        EngineState(marked, Some(latest))
  }

  /**
   After detection, cleaning and marking, every zone is a surviving old zone or
   the new zone, marked by the current close: survivors are unfilled, so clearing
   the mark recovers the zone it came from.
   */
  lemma StepZonesFromSurvivors(zones: seq<Zone>, bars: seq<Bar>, i: int)
    requires 2 <= i < |bars|
    ensures var r := CheckFillStatus(FindNewFvgs(zones, bars, i), bars, i);
      forall k :: 0 <= k < |r| ==>
        var y := r[k].(filled := false);
        && (y in zones || Detect(bars, i) == Some(y))
        && Keep(y, i)
        && r[k] == MarkFilled(y, bars[i].close)
  {
    var detected := FindNewFvgs(zones, bars, i);
    var r := CheckFillStatus(detected, bars, i);
    forall k | 0 <= k < |r|
      ensures var y := r[k].(filled := false);
        && (y in zones || Detect(bars, i) == Some(y))
        && Keep(y, i)
        && r[k] == MarkFilled(y, bars[i].close)
    {
      assert r[k].(filled := false) == detected[k];
    }
  }

  /**
   The new-bar step in list order: the zones `find_new_fvgs` leaves, each
   marked by the latest close, and nothing else.
   */
  lemma StepZonesInOrder(st: EngineState, bars: seq<Bar>)
    requires |bars| >= 3 && st.lastBarTime != Some(bars[|bars| - 1].time)
    ensures ProcessHistoricalBars(st, bars).zones
      == Seqs.Map(FindNewFvgs(st.zones, bars, |bars| - 1), z => MarkFilled(z, bars[|bars| - 1].close))
  {
    var close := bars[|bars| - 1].close;
    var detected := FindNewFvgs(st.zones, bars, |bars| - 1);
    var r := ProcessHistoricalBars(st, bars).zones;
    var m := Seqs.Map(detected, z => MarkFilled(z, close));
    assert r == CheckFillStatus(detected, bars, |bars| - 1);
    assert forall k :: 0 <= k < |r| ==> r[k] == m[k];
  }

  /** A list drawn from a well-formed list is well-formed. */
  lemma WellFormedSublist(a: seq<Zone>, b: seq<Zone>)
    requires AllWellFormed(b)
    requires forall k :: 0 <= k < |a| ==> a[k] in b
    ensures AllWellFormed(a)
  {
    forall k | 0 <= k < |a|
      ensures WellFormedZone(a[k])
    {
      var j :| 0 <= j < |b| && b[j] == a[k];
    }
  }

  /** Fill marking changes only `filled`, so well-formedness is kept. */
  lemma FillMarkingKeepsWellFormed(zones: seq<Zone>, bars: seq<Bar>, i: int)
    requires 0 <= i < |bars| && AllWellFormed(zones)
    ensures AllWellFormed(CheckFillStatus(zones, bars, i))
  {
  }

  /** Detection and cleaning add only detected zones, which are well-formed. */
  lemma NewFvgsKeepWellFormed(zones: seq<Zone>, bars: seq<Bar>, i: int)
    requires 2 <= i < |bars| && AllWellFormed(zones)
    ensures AllWellFormed(FindNewFvgs(zones, bars, i))
  {
    var r := FindNewFvgs(zones, bars, i);
    forall k | 0 <= k < |r|
      ensures WellFormedZone(r[k])
    {
      if r[k] in zones {
        var j :| 0 <= j < |zones| && zones[j] == r[k];
      }
    }
  }

  /** Startup yields only well-formed zones. */
  lemma StartupWellFormed(bars: seq<Bar>)
    ensures AllWellFormed(Startup(bars).zones)
  {
    var scan := FindFvgsInData(bars);
    assert AllWellFormed(scan);
    var zs := LoadHistorical([], bars);
    assert Startup(bars).zones == zs;
    assert forall k :: 0 <= k < |zs| ==> zs[k] in scan;
    WellFormedSublist(zs, scan);
  }

  /** The new-bar step keeps every zone well-formed. */
  lemma StepPreservesWellFormed(st: EngineState, bars: seq<Bar>)
    requires AllWellFormed(st.zones)
    ensures AllWellFormed(ProcessHistoricalBars(st, bars).zones)
  {
    if |bars| >= 3 && st.lastBarTime != Some(bars[|bars| - 1].time) {
      var current := |bars| - 1;
      var detected := FindNewFvgs(st.zones, bars, current);
      NewFvgsKeepWellFormed(st.zones, bars, current);
      FillMarkingKeepsWellFormed(detected, bars, current);
      assert ProcessHistoricalBars(st, bars).zones == CheckFillStatus(detected, bars, current);
    }
  }

  /**
   A zone closed through by the new bar is marked filled but stays in the list:
   cleaning ran before fill marking, so only the next bar's clean removes it.
   */
  lemma FilledZoneSurvivesItsBar(st: EngineState, bars: seq<Bar>, z: Zone)
    requires |bars| >= 3 && st.lastBarTime != Some(bars[|bars| - 1].time)
    requires z in st.zones && Keep(z, |bars| - 1)
    requires FillsAt(z, bars[|bars| - 1].close)
    ensures z.(filled := true) in ProcessHistoricalBars(st, bars).zones
  {
    var current := |bars| - 1;
    var detected := FindNewFvgs(st.zones, bars, current);
    var j :| 0 <= j < |st.zones| && st.zones[j] == z;
    var k :| 0 <= k < |detected| && detected[k] == z;
    assert CheckFillStatus(detected, bars, current)[k] == z.(filled := true);
  }

  /** A filled zone is gone after the following new bar. */
  lemma FilledZoneEvictedNextBar(st: EngineState, bars: seq<Bar>, z: Zone)
    requires |bars| >= 3 && st.lastBarTime != Some(bars[|bars| - 1].time)
    requires z.filled
    ensures z !in FindNewFvgs(st.zones, bars, |bars| - 1)
  {
  }

  /**
   Startup followed by the first loop iteration lists the last bar's zone
   twice: the historical scan loads it, and since startup does not record a
   processed bar time the first step detects it again at the same index.
   */
  lemma StartupThenFirstStepDuplicatesLastZone(bars: seq<Bar>)
    requires |bars| >= 3
    requires WellFormedBar(bars[|bars| - 1])
    requires Detect(bars, |bars| - 1).Some?
    ensures var zs := ProcessHistoricalBars(Startup(bars), bars).zones;
      && |zs| >= 2
      && zs[|zs| - 1] == Detect(bars, |bars| - 1).value
      && Detect(bars, |bars| - 1).value in zs[..|zs| - 1]
  {
    var st := Startup(bars);
    assert st == EngineState(st.zones, None);
    LastZoneLoaded(bars);
    StepRedetectsLastZone(st.zones, bars);
  }

  /**
   If the last bar's zone is already listed and survives cleaning, a step with
   an unrecorded bar time appends it a second time.
   */
  lemma StepRedetectsLastZone(active: seq<Zone>, bars: seq<Bar>)
    requires |bars| >= 3
    requires WellFormedBar(bars[|bars| - 1])
    requires Detect(bars, |bars| - 1).Some?
    requires Detect(bars, |bars| - 1).value in CleanOldFvgs(active, |bars| - 1)
    ensures var zs := ProcessHistoricalBars(EngineState(active, None), bars).zones;
      && |zs| >= 2
      && zs[|zs| - 1] == Detect(bars, |bars| - 1).value
      && Detect(bars, |bars| - 1).value in zs[..|zs| - 1]
  {
    var n := |bars|;
    var z := Detect(bars, n - 1).value;
    var cleaned := CleanOldFvgs(active, n - 1);
    var k :| 0 <= k < |cleaned| && cleaned[k] == z;
    FirstStepAppendsLastZone(active, bars);
    var detected := cleaned + [z];
    var zs := CheckFillStatus(detected, bars, n - 1);
    assert ProcessHistoricalBars(EngineState(active, None), bars).zones == zs;
    assert detected[k] == z && detected[|cleaned|] == z;
    assert zs[k] == z;
    assert zs[k] in zs[..|zs| - 1];
  }

  /** The startup scan loads the zone of the last bar: no later bar can have filled it. */
  lemma LastZoneLoaded(bars: seq<Bar>)
    requires |bars| >= 3
    requires Detect(bars, |bars| - 1).Some?
    ensures Detect(bars, |bars| - 1).value in CleanOldFvgs(Startup(bars).zones, |bars| - 1)
  {
    var n := |bars|;
    var z := Detect(bars, n - 1).value;
    ScanComplete(bars, n, n - 1);
    assert !IsFvgFilled(z, bars, n - 1);
    assert z in FindFvgsInData(bars);
    CleanKeepsMember(Startup(bars).zones, n - 1, z);
  }

  lemma FirstStepAppendsLastZone(active: seq<Zone>, bars: seq<Bar>)
    requires |bars| >= 3
    requires Detect(bars, |bars| - 1).Some?
    ensures FindNewFvgs(active, bars, |bars| - 1)
      == CleanOldFvgs(active, |bars| - 1) + [Detect(bars, |bars| - 1).value]
  {
    var z := Detect(bars, |bars| - 1).value;
    CleanAppend(active, [z], |bars| - 1);
    assert Detect(bars, |bars| - 1).ToSeq() == [z];
  }
}
