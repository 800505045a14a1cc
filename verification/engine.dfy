/**
 One iteration of the polling loop of `run` in `fvg_bot.py`: when the bar file
 has changed, the new-bar step; then, when a live price was read, the retest
 pass. The file-change test and the file reads are inputs here.
 */
module Engine {
  import opened Wrappers
  import opened Zones
  import opened Registry
  import opened Retest
  import Quarter
  import Seqs

  datatype IterationOutcome = IterationOutcome(state: EngineState, signals: seq<Signal>)

  /**
   `updated` is the answer of the file-change test, `bars` the bar list read
   (empty when the read failed), `price` the live price read, if any.
   */
  function LoopIteration(st: EngineState, updated: bool, bars: seq<Bar>, price: Option<real>, enabled: bool)
    : (r: IterationOutcome)
    ensures price.None? ==> r.signals == []
    ensures !enabled ==> r.signals == [] && r.state.zones == (if updated then ProcessHistoricalBars(st, bars) else st).zones
    ensures |r.state.zones| == |(if updated then ProcessHistoricalBars(st, bars) else st).zones|
    ensures r.state.lastBarTime == (if updated then ProcessHistoricalBars(st, bars) else st).lastBarTime
    ensures price.None? ==> r.state == (if updated then ProcessHistoricalBars(st, bars) else st)
    ensures price.Some? && enabled ==>
      var after := (if updated then ProcessHistoricalBars(st, bars) else st).zones;
      && r.signals == Seqs.Map(FiringZones(after, price.value), EntryFor)
      && forall k :: 0 <= k < |after| ==>
           r.state.zones[k] == after[k].(tradeTaken := after[k].tradeTaken || Fires(after[k], price.value))
  {
    var afterBars := if updated then ProcessHistoricalBars(st, bars) else st;
    match price
    case None => IterationOutcome(afterBars, [])
    case Some(p) =>
      var pass := CheckFvgRetestSignals(enabled, afterBars.zones, p);
      IterationOutcome(afterBars.(zones := pass.zones), pass.signals)
  }

  /**
   A zone the current bar closes through is marked filled before the retest
   pass runs, so it emits nothing in that iteration, even though it is still listed.
   */
  lemma FilledThisBarDoesNotFire(st: EngineState, bars: seq<Bar>, p: real, enabled: bool, k: int)
    requires |bars| >= 3 && st.lastBarTime != Some(bars[|bars| - 1].time)
    requires 0 <= k < |ProcessHistoricalBars(st, bars).zones|
    requires FillsAt(ProcessHistoricalBars(st, bars).zones[k], bars[|bars| - 1].close)
    ensures LoopIteration(st, true, bars, Some(p), enabled).state.zones[k]
      == ProcessHistoricalBars(st, bars).zones[k]
  {
  }

  /** Three bars with a five-point gap up between the first high and the third low. */
  function ScenarioBars(): seq<Bar> {
    [Bar(10.0, 9.0, 9.5, 0), Bar(11.0, 10.5, 10.75, 1), Bar(16.0, 15.0, 15.5, 2)]
  }

  function ScenarioZone(): Zone {
    Zone(Bullish, 15.0, 10.0, 5.0, 2, 2, false, false)
  }

  /** Startup on the scenario bars loads the bullish zone 10 to 15. */
  lemma ScenarioStartup()
    ensures Startup(ScenarioBars()).zones == [ScenarioZone()]
  {
    var bars := ScenarioBars();
    assert Detect(bars, 2) == Some(ScenarioZone());
    assert ScanUpTo(bars, 2) == [];
    assert FindFvgsInData(bars) == [ScenarioZone()];
    assert !IsFvgFilled(ScenarioZone(), bars, 2);
  }

  /** The short signal of the scenario zone: sell 15, stop 20, target 10. */
  lemma ScenarioSignal()
    ensures EntryFor(ScenarioZone()) == Signal(Short, 15.0, 20.0, 10.0, Bullish, 5.0)
  {
    Quarter.RoundToQuarterFixesTicks(15.0);
    Quarter.RoundToQuarterFixesTicks(20.0);
    Quarter.RoundToQuarterFixesTicks(10.0);
  }

  /** A first step over a list holding only the last bar's zone lists it twice. */
  lemma FirstStepOnLastZoneAlone(bars: seq<Bar>, z: Zone)
    requires |bars| >= 3
    requires WellFormedBar(bars[|bars| - 1])
    requires Detect(bars, |bars| - 1) == Some(z)
    ensures ProcessHistoricalBars(EngineState([z], None), bars).zones == [z, z]
  {
    var n := |bars|;
    FirstStepAppendsLastZone([z], bars);
    assert Keep(z, n - 1);
    assert CleanOldFvgs([z], n - 1) == [z];
    var marked := CheckFillStatus([z, z], bars, n - 1);
    assert marked[0] == z && marked[1] == z;
  }

  /** The first new-bar step after startup lists the scenario zone twice. */
  lemma ScenarioFirstStep()
    ensures ProcessHistoricalBars(Startup(ScenarioBars()), ScenarioBars()).zones == [ScenarioZone(), ScenarioZone()]
  {
    ScenarioStartup();
    assert Detect(ScenarioBars(), 2) == Some(ScenarioZone());
    FirstStepOnLastZoneAlone(ScenarioBars(), ScenarioZone());
  }

  /** Two copies of a firing zone emit its signal twice. */
  lemma DuplicateZoneFiresTwice(z: Zone, p: real)
    requires Fires(z, p)
    ensures RetestPass([z, z], p).signals == [EntryFor(z), EntryFor(z)]
  {
    assert FiringZones([z, z], p) == [z, z];
  }

  /**
   The first loop iteration after startup, with the live price at 12 (two points
   above the zone bottom), emits the short signal twice: the zone was loaded at
   startup and detected again by the first new-bar step.
   */
  lemma ScenarioFirstIteration()
    ensures LoopIteration(Startup(ScenarioBars()), true, ScenarioBars(), Some(12.0), true).signals
      == [Signal(Short, 15.0, 20.0, 10.0, Bullish, 5.0), Signal(Short, 15.0, 20.0, 10.0, Bullish, 5.0)]
  {
    var st := Startup(ScenarioBars());
    var z := ScenarioZone();
    ScenarioFirstStep();
    ScenarioSignal();
    assert Fires(z, 12.0);
    DuplicateZoneFiresTwice(z, 12.0);
    assert LoopIteration(st, true, ScenarioBars(), Some(12.0), true).signals
      == RetestPass(ProcessHistoricalBars(st, ScenarioBars()).zones, 12.0).signals;
  }
}
