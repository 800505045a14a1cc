/**
 The signal consumer of `ninjascripts/fvgbot.cs` as a state machine: reading
 one signal line (`ProcessSignalLine`), the bracket and profit/loss arithmetic
 of `OnExecutionUpdate`, the flat-position resets of `ManagePosition` and
 `OnPositionUpdate`, and the clamping property setters. Platform calls
 (`EnterLong`, `ExitLongStopMarket`, ...) become returned order values; the
 account position is an input.
 */
module Strategy {
  import opened Wrappers
  import Text

  datatype MarketPosition = Flat | Long | Short

  /** A market entry of `quantity` contracts (`EnterLong` / `EnterShort`). */
  datatype EntryOrder = EnterLong(quantity: int) | EnterShort(quantity: int)

  /** The strategy's fields that the modelled members read or write. */
  datatype StrategyState = StrategyState(
    processedSignals: set<string>,
    currentSignalId: string,
    signalDirection: string,
    inPosition: bool,
    firstExitTaken: bool,
    actualEntryPrice: real,
    contractQuantity: int,
    profitTargetPoints: real,
    stopLossPoints: real)

  /** The field initialisers of the strategy class. */
  function Initial(): (st: StrategyState)
    ensures ValidConfig(st)
    ensures st.processedSignals == {} && !st.inPosition && !st.firstExitTaken
    ensures st.currentSignalId == "" && st.signalDirection == "" && st.actualEntryPrice == 0.0
    ensures st.contractQuantity == 12 && st.profitTargetPoints == 5.0 && st.stopLossPoints == 10.0
  {
    StrategyState({}, "", "", false, false, 0.0, 12, 5.0, 10.0)
  }

  /** Sizing and distances as the setters guarantee them. */
  predicate ValidConfig(st: StrategyState) {
    st.contractQuantity >= 1 && st.profitTargetPoints >= 1.0 && st.stopLossPoints >= 1.0
  }

  /** The identity a line is deduplicated by: first field, `_`, second field. */
  function SignalId(parts: seq<string>): (id: string)
    requires |parts| >= 2
    ensures |id| == |parts[0]| + 1 + |parts[1]|
    ensures id[..|parts[0]|] == parts[0] && id[|parts[0]|] == '_' && id[|parts[0]| + 1..] == parts[1]
  {
    parts[0] + "_" + parts[1]
  }

  /** The line is acted on: three or more fields, an unseen id, and a flat position. */
  predicate Accepted(st: StrategyState, line: string, position: MarketPosition) {
    var parts := Text.Split(line, ',');
    |parts| >= 3 && SignalId(parts) !in st.processedSignals && position == Flat
  }

  /** The direction field as the line carries it, trimmed. */
  function DirectionField(line: string): string
    requires |Text.Split(line, ',')| >= 2
  {
    Text.Trim(Text.Split(line, ',')[1])
  }

  /** `signalDirection.ToUpper() == "LONG"`. */
  predicate IsLongWord(direction: string) {
    Text.ToUpper(direction) == "LONG"
  }

  predicate IsShortWord(direction: string) {
    Text.ToUpper(direction) == "SHORT"
  }

  datatype LineOutcome = LineOutcome(state: StrategyState, order: Option<EntryOrder>)

  /**
   `ProcessSignalLine`: a line with fewer than three fields, an id already
   processed, or a position that is not flat changes nothing. Otherwise the id
   and direction become current, a LONG or SHORT direction (any letter case,
   surrounding white space ignored) opens a market entry of `contractQuantity`
   contracts, and the id is recorded whatever the direction was.
   */
  function ProcessSignalLine(st: StrategyState, line: string, position: MarketPosition): (r: LineOutcome)
    ensures !Accepted(st, line, position) ==> r == LineOutcome(st, None)
    ensures Accepted(st, line, position) ==>
      && r.state.processedSignals == st.processedSignals + {SignalId(Text.Split(line, ','))}
      && r.state.currentSignalId == SignalId(Text.Split(line, ','))
      && r.state.signalDirection == DirectionField(line)
      && !r.state.firstExitTaken
    ensures r.order == Some(EnterLong(st.contractQuantity))
      <==> Accepted(st, line, position) && IsLongWord(DirectionField(line))
    ensures r.order == Some(EnterShort(st.contractQuantity))
      <==> Accepted(st, line, position) && IsShortWord(DirectionField(line))
    ensures r.order.Some? ==>
      Accepted(st, line, position) && (IsLongWord(DirectionField(line)) || IsShortWord(DirectionField(line)))
    ensures r.order.Some? ==> r.state.inPosition
    ensures r.order.None? ==> r.state.inPosition == st.inPosition
    ensures r.state.contractQuantity == st.contractQuantity
    ensures r.state.profitTargetPoints == st.profitTargetPoints
    ensures r.state.stopLossPoints == st.stopLossPoints
    ensures r.state.actualEntryPrice == st.actualEntryPrice
  {
    var parts := Text.Split(line, ',');
    if |parts| < 3 then LineOutcome(st, None)
    else
      var id := SignalId(parts);
      if id in st.processedSignals then LineOutcome(st, None)
      else if position != Flat then LineOutcome(st, None)
      else
        var direction := Text.Trim(parts[1]);
        var current := st.(currentSignalId := id, signalDirection := direction, firstExitTaken := false);
        var recorded := st.processedSignals + {id};
        if Text.ToUpper(direction) == "LONG" then
          LineOutcome(current.(inPosition := true, processedSignals := recorded), Some(EnterLong(st.contractQuantity)))
        else if Text.ToUpper(direction) == "SHORT" then
          LineOutcome(current.(inPosition := true, processedSignals := recorded), Some(EnterShort(st.contractQuantity)))
        else
          LineOutcome(current.(processedSignals := recorded), None)
  }

  /** The same line read twice opens at most one position. */
  lemma SameLineEntersOnce(st: StrategyState, line: string, p1: MarketPosition, p2: MarketPosition)
    ensures var first := ProcessSignalLine(st, line, p1);
      first.order.Some? ==> ProcessSignalLine(first.state, line, p2).order.None?
  {
  }

  /**
   A line refused because the position was not flat leaves no trace, so once
   the position is flat the same line is accepted.
   */
  lemma RefusedWhileInPositionAcceptedLater(st: StrategyState, line: string, position: MarketPosition)
    requires position != Flat
    requires Accepted(st, line, Flat)
    ensures ProcessSignalLine(st, line, position).state == st
    ensures Accepted(ProcessSignalLine(st, line, position).state, line, Flat)
  {
  }

  /** A direction other than LONG or SHORT opens nothing but still uses up the id. */
  lemma UnknownDirectionConsumesId(st: StrategyState, line: string)
    requires Accepted(st, line, Flat)
    requires !IsLongWord(DirectionField(line)) && !IsShortWord(DirectionField(line))
    ensures ProcessSignalLine(st, line, Flat).order.None?
    ensures !Accepted(ProcessSignalLine(st, line, Flat).state, line, Flat)
  {
  }

  /** The id does not tell the fields apart: an underscore may move between them. */
  lemma SignalIdCanCollide()
    ensures SignalId(["a_b", "c"]) == SignalId(["a", "b_c"])
  {
  }

  lemma ExampleLineFields()
    ensures Text.Split("t1, long ,5000.25", ',') == ["t1", " long ", "5000.25"]
  {
    var parts := ["t1", " long ", "5000.25"];
    assert Text.Join(["5000.25"], ',') == "5000.25";
    assert parts[1..] == [" long ", "5000.25"];
    assert [" long ", "5000.25"][1..] == ["5000.25"];
    assert "t1, long ,5000.25" == Text.Join(parts, ',');
    Text.SplitJoin(parts, ',');
  }

  lemma ExampleTrim()
    ensures Text.Trim(" long ") == "long"
  {
    var s := " long ";
    assert Text.IsWhiteSpace(s[0]);
    assert s[1..] == "long ";
    assert !Text.IsWhiteSpace('l');
    assert Text.TrimStart("long ") == "long ";
    var t := "long ";
    assert Text.IsWhiteSpace(t[4]);
    assert t[..4] == "long";
    assert !Text.IsWhiteSpace('g');
    assert Text.TrimEnd("long") == "long";
  }

  /** Worked line: the direction is matched after trimming and upper-casing. */
  lemma ProcessSignalLineExample()
    ensures ProcessSignalLine(Initial(), "t1, long ,5000.25", Flat).order == Some(EnterLong(12))
  {
    var line := "t1, long ,5000.25";
    ExampleLineFields();
    ExampleTrim();
    Text.ToUpperExamples();
    assert DirectionField(line) == "long";
    assert IsLongWord(DirectionField(line));
    assert Accepted(Initial(), line, Flat);
  }

  /** Worked line: two fields are too few, and nothing changes. */
  lemma ShortLineExample()
    ensures ProcessSignalLine(Initial(), "t1,LONG", Flat) == LineOutcome(Initial(), None)
  {
    assert Text.Join(["LONG"], ',') == "LONG";
    assert ["t1", "LONG"][1..] == ["LONG"];
    assert "t1,LONG" == Text.Join(["t1", "LONG"], ',');
    Text.SplitJoin(["t1", "LONG"], ',');
    assert !Accepted(Initial(), "t1,LONG", Flat);
  }

  /** The protective orders placed once an entry fills. */
  datatype Bracket = Bracket(side: MarketPosition, stop: real, target: real, quantity: int)

  /** Stop-loss and profit-target prices from the actual fill price. */
  function BracketFor(side: MarketPosition, fill: real, st: StrategyState): (b: Option<Bracket>)
    ensures side == Flat <==> b.None?
    ensures b.Some? ==> b.value.side == side && b.value.quantity == st.contractQuantity
    ensures side == Long ==> b.value.target - fill == st.profitTargetPoints && fill - b.value.stop == st.stopLossPoints
    ensures side == Short ==> fill - b.value.target == st.profitTargetPoints && b.value.stop - fill == st.stopLossPoints
  {
    match side
    case Long => Some(Bracket(Long, fill - st.stopLossPoints, fill + st.profitTargetPoints, st.contractQuantity))
    case Short => Some(Bracket(Short, fill + st.stopLossPoints, fill - st.profitTargetPoints, st.contractQuantity))
    case Flat => None
  }

  /** With the setters' floors, the stop and target sit on opposite sides of the fill. */
  lemma BracketAroundFill(side: MarketPosition, fill: real, st: StrategyState)
    requires ValidConfig(st) && side != Flat
    ensures var b := BracketFor(side, fill, st).value;
      && (side == Long ==> b.stop < fill < b.target)
      && (side == Short ==> b.target < fill < b.stop)
  {
  }

  /** Profit or loss of an exit: long gains when the exit is above the entry, anything else when below. */
  function PnL(direction: string, entry: real, exit: real, quantity: int): (pnl: real)
    ensures IsLongWord(direction) ==> (pnl > 0.0 <==> (exit > entry && quantity > 0) || (exit < entry && quantity < 0))
    ensures !IsLongWord(direction) ==> (pnl > 0.0 <==> (exit < entry && quantity > 0) || (exit > entry && quantity < 0))
    ensures quantity == 0 || exit == entry ==> pnl == 0.0
  {
    if IsLongWord(direction) then (exit - entry) * quantity as real
    else (entry - exit) * quantity as real
  }

  /**
   The result is linear in the exit price: moving the exit from `y` to `x`
   changes it by `(x - y) * quantity` for LONG and by `(y - x) * quantity` otherwise.
   With the zero at `exit == entry` this fixes every value.
   */
  lemma PnLLinear(direction: string, entry: real, x: real, y: real, quantity: int)
    ensures PnL(direction, entry, x, quantity) - PnL(direction, entry, y, quantity)
      == (if IsLongWord(direction) then x - y else y - x) * quantity as real
  {
  }

  /** Swapping the direction word between LONG and SHORT negates the result. */
  lemma PnLMirror(entry: real, exit: real, quantity: int)
    ensures PnL("LONG", entry, exit, quantity) == -PnL("SHORT", entry, exit, quantity)
  {
    Text.ToUpperNoLower("LONG");
    Text.ToUpperNoLower("SHORT");
  }

  /** An execution report: the order's name, whether it is filled, price and quantity. */
  datatype Execution = Execution(orderName: string, orderFilled: bool, price: real, quantity: int)

  datatype ExecutionEvent = NoEvent | PlaceBracket(bracket: Bracket) | ExitFilled(exitName: string, pnl: real)

  datatype ExecutionOutcome = ExecutionOutcome(state: StrategyState, event: ExecutionEvent)

  predicate IsEntryName(name: string) {
    name == "FVG_Long" || name == "FVG_Short"
  }

  predicate IsExitName(name: string) {
    name == "PT" || name == "SL"
  }

  /**
   `OnExecutionUpdate`: a filled entry records the fill price and, when the
   position is long or short, places a bracket around it; a filled PT or SL
   exit reports its profit or loss; anything else does nothing.
   */
  function OnExecutionUpdate(st: StrategyState, ex: Execution, position: MarketPosition): (r: ExecutionOutcome)
    ensures !ex.orderFilled ==> r == ExecutionOutcome(st, NoEvent)
    ensures ex.orderFilled && IsEntryName(ex.orderName) ==>
      r.state == st.(actualEntryPrice := ex.price)
      && (position == Flat ==> r.event == NoEvent)
      && (position != Flat ==> r.event == PlaceBracket(BracketFor(position, ex.price, st).value))
    ensures ex.orderFilled && IsExitName(ex.orderName) ==>
      r.state == st && r.event == ExitFilled(ex.orderName, PnL(st.signalDirection, st.actualEntryPrice, ex.price, ex.quantity))
    ensures !IsEntryName(ex.orderName) && !IsExitName(ex.orderName) ==> r == ExecutionOutcome(st, NoEvent)
    ensures st.processedSignals == r.state.processedSignals
  {
    if !ex.orderFilled then ExecutionOutcome(st, NoEvent)
    else if IsEntryName(ex.orderName) then
      var recorded := st.(actualEntryPrice := ex.price);
      match BracketFor(position, ex.price, st)
      case Some(b) => ExecutionOutcome(recorded, PlaceBracket(b))
      case None => ExecutionOutcome(recorded, NoEvent)
    else if IsExitName(ex.orderName) then
      ExecutionOutcome(st, ExitFilled(ex.orderName, PnL(st.signalDirection, st.actualEntryPrice, ex.price, ex.quantity)))
    else ExecutionOutcome(st, NoEvent)
  }

  /** The profit-target and stop-loss exits are priced by the same formula. */
  lemma ExitPnLIndependentOfName(st: StrategyState, price: real, quantity: int, position: MarketPosition)
    ensures OnExecutionUpdate(st, Execution("PT", true, price, quantity), position).event.pnl
      == OnExecutionUpdate(st, Execution("SL", true, price, quantity), position).event.pnl
  {
  }

  /** `ManagePosition`: becoming flat while marked in position clears the mark and the current id. */
  function ManagePosition(st: StrategyState, position: MarketPosition): (r: StrategyState)
    ensures position == Flat ==> !r.inPosition
    ensures position == Flat && st.inPosition ==> r == st.(inPosition := false, currentSignalId := "")
    ensures !(position == Flat && st.inPosition) ==> r == st
  {
    if position == Flat && st.inPosition then st.(inPosition := false, currentSignalId := "") else st
  }

  /** `OnPositionUpdate`: a flat position clears the in-position mark and nothing else. */
  function OnPositionUpdate(st: StrategyState, position: MarketPosition): (r: StrategyState)
    ensures position == Flat ==> r == st.(inPosition := false)
    ensures position != Flat ==> r == st
  {
    if position == Flat then st.(inPosition := false) else st
  }

  /** The entry opened by a line is cleared by the next flat `ManagePosition`, and the id stays recorded. */
  lemma EntryThenFlatResets(st: StrategyState, line: string)
    requires ProcessSignalLine(st, line, Flat).order.Some?
    ensures var after := ManagePosition(ProcessSignalLine(st, line, Flat).state, Flat);
      && !after.inPosition && after.currentSignalId == ""
      && SignalId(Text.Split(line, ',')) in after.processedSignals
  {
  }

  /** The `ContractQuantity` setter, `Math.Max(1, value)`: at least one contract. */
  function SetContractQuantity(st: StrategyState, value: int): (r: StrategyState)
    ensures r.contractQuantity >= 1
    ensures value >= 1 ==> r.contractQuantity == value
    ensures value < 1 ==> r.contractQuantity == 1
    ensures r == st.(contractQuantity := r.contractQuantity)
  {
    st.(contractQuantity := if value < 1 then 1 else value)
  }

  /** The `ProfitTargetPoints` setter, `Math.Max(1.0, value)`: at least one point. */
  function SetProfitTargetPoints(st: StrategyState, value: real): (r: StrategyState)
    ensures r.profitTargetPoints >= 1.0
    ensures value >= 1.0 ==> r.profitTargetPoints == value
    ensures value < 1.0 ==> r.profitTargetPoints == 1.0
    ensures r == st.(profitTargetPoints := r.profitTargetPoints)
  {
    st.(profitTargetPoints := if value < 1.0 then 1.0 else value)
  }

  /** The `StopLossPoints` setter, `Math.Max(1.0, value)`: at least one point. */
  function SetStopLossPoints(st: StrategyState, value: real): (r: StrategyState)
    ensures r.stopLossPoints >= 1.0
    ensures value >= 1.0 ==> r.stopLossPoints == value
    ensures value < 1.0 ==> r.stopLossPoints == 1.0
    ensures r == st.(stopLossPoints := r.stopLossPoints)
  {
    st.(stopLossPoints := if value < 1.0 then 1.0 else value)
  }

  /** Setting all three parameters yields a valid configuration, and the defaults are valid. */
  lemma SettersEstablishValidConfig(st: StrategyState, qty: int, pt: real, sl: real)
    ensures ValidConfig(SetStopLossPoints(SetProfitTargetPoints(SetContractQuantity(st, qty), pt), sl))
    ensures ValidConfig(Initial())
  {
  }

  /** Every event handler keeps the configuration valid and never forgets a processed id. */
  lemma HandlersPreserveConfig(st: StrategyState, line: string, ex: Execution, position: MarketPosition)
    requires ValidConfig(st)
    ensures ValidConfig(ProcessSignalLine(st, line, position).state)
    ensures ValidConfig(OnExecutionUpdate(st, ex, position).state)
    ensures ValidConfig(ManagePosition(st, position)) && ValidConfig(OnPositionUpdate(st, position))
    ensures st.processedSignals <= ProcessSignalLine(st, line, position).state.processedSignals
  {
  }
}
