/**
 The file interface between the two programs: the signal row `fvg_bot.py`
 writes (`initialize_signals_file` header, `generate_signal` row) read as a
 line by the consumer in `ninjascripts/fvgbot.cs`. The Python writer puts the
 constant `FVG_RETEST` in the second column, where the consumer looks for the
 direction, so its rows never open a position.
 */
module Bridge {
  import Zones
  import Retest
  import Text
  import Strategy

  /** The header row of the signals file. */
  const SignalsHeader: seq<string> :=
    ["DateTime", "Signal", "Direction", "Entry_Price", "Stop_Loss", "Profit_Target", "Zone_Type", "ATR"]

  const SignalType: string := "FVG_RETEST"

  function DirectionName(d: Retest.Direction): string {
    match d
    case Long => "LONG"
    case Short => "SHORT"
  }

  function KindName(k: Zones.Kind): string {
    match k
    case Bullish => "bullish"
    case Bearish => "bearish"
  }

  /**
   The row `generate_signal` writes for a signal: the formatted timestamp, the
   signal type, the direction, the three prices, the zone kind and the gap.
   `stamp` and `fmt` stand for the wall-clock format and the two-decimal price format.
   */
  function SignalRow(s: Retest.Signal, stamp: string, fmt: real -> string): (row: seq<string>)
    ensures |row| == |SignalsHeader|
    ensures row[0] == stamp && row[1] == SignalType && row[2] == DirectionName(s.direction)
  {
    [stamp, SignalType, DirectionName(s.direction), fmt(s.entry), fmt(s.stop), fmt(s.target), KindName(s.zoneKind), fmt(s.gapSize)]
  }

  /** A field the CSV writer emits verbatim (no quoting): no comma, quote or line break. */
  predicate PlainField(f: string) {
    ',' !in f && '"' !in f && '\r' !in f && '\n' !in f
  }

  /** The line a row is written as: the fields joined by commas; a row of plain fields splits back into itself. */
  function CsvLine(row: seq<string>): (line: string)
    requires |row| >= 1
    ensures (forall k :: 0 <= k < |row| ==> PlainField(row[k])) ==> Text.Split(line, ',') == row
  {
    assert (forall k :: 0 <= k < |row| ==> PlainField(row[k])) ==> Text.Split(Text.Join(row, ','), ',') == row by {
      if forall k :: 0 <= k < |row| ==> PlainField(row[k]) {
        forall k | 0 <= k < |row|
          ensures ',' !in row[k]
        {
          assert PlainField(row[k]);
        }
        Text.SplitJoin(row, ',');
      }
    }
    Text.Join(row, ',')
  }

  /** A word of upper-case letters and underscores is its own trim and its own upper case. */
  lemma UpperWord(w: string)
    requires forall k :: 0 <= k < |w| ==> 'A' <= w[k] <= 'Z' || w[k] == '_'
    ensures Text.Trim(w) == w && Text.ToUpper(w) == w
  {
    Text.TrimUntouched(w);
    Text.ToUpperNoLower(w);
  }

  lemma SignalTypeWord()
    ensures Text.Trim(SignalType) == SignalType && Text.ToUpper(SignalType) == SignalType
  {
    var w := SignalType;
    assert w[0] == 'F' && w[1] == 'V' && w[2] == 'G' && w[3] == '_' && w[4] == 'R';
    assert w[5] == 'E' && w[6] == 'T' && w[7] == 'E' && w[8] == 'S' && w[9] == 'T';
    UpperWord(w);
  }

  lemma DirectionWord(d: Retest.Direction)
    ensures Text.Trim(DirectionName(d)) == DirectionName(d) && Text.ToUpper(DirectionName(d)) == DirectionName(d)
  {
    var w := DirectionName(d);
    if d == Retest.Long {
      assert w[0] == 'L' && w[1] == 'O' && w[2] == 'N' && w[3] == 'G';
    } else {
      assert w[0] == 'S' && w[1] == 'H' && w[2] == 'O' && w[3] == 'R' && w[4] == 'T';
    }
    UpperWord(w);
  }

  /** A word of letters and underscores is a plain field. */
  lemma LetterWordPlain(w: string)
    requires forall k :: 0 <= k < |w| ==> 'A' <= w[k] <= 'Z' || 'a' <= w[k] <= 'z' || w[k] == '_'
    ensures PlainField(w)
  {
  }

  lemma SignalTypePlain()
    ensures PlainField(SignalType)
  {
    var w := SignalType;
    assert w[0] == 'F' && w[1] == 'V' && w[2] == 'G' && w[3] == '_' && w[4] == 'R';
    assert w[5] == 'E' && w[6] == 'T' && w[7] == 'E' && w[8] == 'S' && w[9] == 'T';
    LetterWordPlain(w);
  }

  lemma DirectionPlain(d: Retest.Direction)
    ensures PlainField(DirectionName(d))
  {
    var w := DirectionName(d);
    if d == Retest.Long {
      assert w[0] == 'L' && w[1] == 'O' && w[2] == 'N' && w[3] == 'G';
    } else {
      assert w[0] == 'S' && w[1] == 'H' && w[2] == 'O' && w[3] == 'R' && w[4] == 'T';
    }
    LetterWordPlain(w);
  }

  lemma KindPlain(k: Zones.Kind)
    ensures PlainField(KindName(k))
  {
    var w := KindName(k);
    if k == Zones.Bullish {
      assert w[0] == 'b' && w[1] == 'u' && w[2] == 'l' && w[3] == 'l' && w[4] == 'i' && w[5] == 's' && w[6] == 'h';
    } else {
      assert w[0] == 'b' && w[1] == 'e' && w[2] == 'a' && w[3] == 'r' && w[4] == 'i' && w[5] == 's' && w[6] == 'h';
    }
    LetterWordPlain(w);
  }

  /** Every field of a signal row is plain when the timestamp and the formatted prices are. */
  lemma SignalRowPlain(s: Retest.Signal, stamp: string, fmt: real -> string)
    requires PlainField(stamp)
    requires PlainField(fmt(s.entry)) && PlainField(fmt(s.stop)) && PlainField(fmt(s.target)) && PlainField(fmt(s.gapSize))
    ensures forall k :: 0 <= k < |SignalRow(s, stamp, fmt)| ==> PlainField(SignalRow(s, stamp, fmt)[k])
  {
    SignalTypePlain();
    DirectionPlain(s.direction);
    KindPlain(s.zoneKind);
    var row := SignalRow(s, stamp, fmt);
    assert row == [stamp, SignalType, DirectionName(s.direction), fmt(s.entry), fmt(s.stop), fmt(s.target),
                   KindName(s.zoneKind), fmt(s.gapSize)];
    forall k | 0 <= k < |row|
      ensures PlainField(row[k])
    {
    }
  }

  /** The consumer reads `FVG_RETEST` as the direction of a line carrying it in the second field. */
  lemma SignalTypeIsDirectionField(line: string)
    requires |Text.Split(line, ',')| >= 3 && Text.Split(line, ',')[1] == SignalType
    ensures Strategy.DirectionField(line) == SignalType
  {
    SignalTypeWord();
  }

  /** `FVG_RETEST` is neither direction word, in any letter case. */
  lemma SignalTypeIsNoDirection()
    ensures !Strategy.IsLongWord(SignalType) && !Strategy.IsShortWord(SignalType)
  {
    SignalTypeWord();
  }

  /** A line whose second field is `FVG_RETEST` opens no position, and uses up its id when accepted. */
  lemma SignalTypeLineOpensNoPosition(
    st: Strategy.StrategyState, line: string, position: Strategy.MarketPosition)
    requires |Text.Split(line, ',')| >= 3 && Text.Split(line, ',')[1] == SignalType
    ensures Strategy.ProcessSignalLine(st, line, position).order.None?
    ensures Strategy.Accepted(st, line, position) ==>
      Text.Split(line, ',')[0] + "_" + SignalType in Strategy.ProcessSignalLine(st, line, position).state.processedSignals
  {
    SignalTypeIsDirectionField(line);
    SignalTypeIsNoDirection();
  }

  /**
   A row written by the Python bot never opens a position: the consumer reads
   `FVG_RETEST` as the direction. When the line is accepted its id is still
   recorded, so the signal is used up.
   */
  lemma PythonRowOpensNoPosition(
    st: Strategy.StrategyState, s: Retest.Signal, stamp: string, fmt: real -> string,
    position: Strategy.MarketPosition)
    requires PlainField(stamp)
    requires PlainField(fmt(s.entry)) && PlainField(fmt(s.stop)) && PlainField(fmt(s.target)) && PlainField(fmt(s.gapSize))
    ensures var line := CsvLine(SignalRow(s, stamp, fmt));
      && Strategy.ProcessSignalLine(st, line, position).order.None?
      && (Strategy.Accepted(st, line, position) ==>
            stamp + "_" + SignalType in Strategy.ProcessSignalLine(st, line, position).state.processedSignals)
  {
    var row := SignalRow(s, stamp, fmt);
    SignalRowPlain(s, stamp, fmt);
    var line := CsvLine(row);
    assert Text.Split(line, ',') == row;
    SignalTypeLineOpensNoPosition(st, line, position);
  }

  /** The three columns the consumer parses: timestamp, direction, entry price. */
  function ConsumerRow(s: Retest.Signal, stamp: string, fmt: real -> string): (row: seq<string>)
    ensures |row| == 3 && row[1] == DirectionName(s.direction)
  {
    [stamp, DirectionName(s.direction), fmt(s.entry)]
  }

  /** A consumer row with a plain timestamp and entry price splits back into its three fields. */
  lemma ConsumerRowSplits(s: Retest.Signal, stamp: string, fmt: real -> string)
    requires PlainField(stamp) && PlainField(fmt(s.entry))
    ensures Text.Split(CsvLine(ConsumerRow(s, stamp, fmt)), ',') == ConsumerRow(s, stamp, fmt)
  {
    DirectionPlain(s.direction);
    var row := ConsumerRow(s, stamp, fmt);
    forall k | 0 <= k < |row|
      ensures PlainField(row[k])
    {
    }
  }

  /** A line carrying a direction word in its second field is read as that direction. */
  lemma DirectionLineRead(line: string, d: Retest.Direction)
    requires |Text.Split(line, ',')| >= 3 && Text.Split(line, ',')[1] == DirectionName(d)
    ensures Strategy.DirectionField(line) == DirectionName(d)
    ensures Strategy.IsLongWord(Strategy.DirectionField(line)) <==> d == Retest.Long
    ensures Strategy.IsShortWord(Strategy.DirectionField(line)) <==> d == Retest.Short
  {
    DirectionWord(d);
    assert "LONG" != "SHORT";
  }

  /**
   A row laid out as the consumer expects, read while flat with an unseen id,
   opens an entry in the signal's direction.
   */
  lemma ConsumerRowOpensPosition(st: Strategy.StrategyState, s: Retest.Signal, stamp: string, fmt: real -> string)
    requires PlainField(stamp) && PlainField(fmt(s.entry))
    requires stamp + "_" + DirectionName(s.direction) !in st.processedSignals
    ensures var order := Strategy.ProcessSignalLine(st, CsvLine(ConsumerRow(s, stamp, fmt)), Strategy.Flat).order;
      && order.Some?
      && (s.direction == Retest.Long ==> order.value == Strategy.EnterLong(st.contractQuantity))
      && (s.direction == Retest.Short ==> order.value == Strategy.EnterShort(st.contractQuantity))
  {
    var row := ConsumerRow(s, stamp, fmt);
    var line := CsvLine(row);
    ConsumerRowSplits(s, stamp, fmt);
    DirectionLineRead(line, s.direction);
    assert Strategy.SignalId(Text.Split(line, ',')) == stamp + "_" + DirectionName(s.direction);
    assert Strategy.Accepted(st, line, Strategy.Flat);
  }
}
