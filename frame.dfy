/** One ticker's frame: attaching the indicator columns to the downloaded
    prices (main.py lines 49-61) and the steps that follow the download
    (lines 45-46 and 63-83). */
module Frame {
  import opened Options
  import opened Rule

  /** The series the indicator library returns for the close series of one
      download, each meant to hold one value per bar. */
  datatype Indicators = Indicators(
    macd: seq<Float>, macdSignal: seq<Float>, rsi: seq<Float>, bbHigh: seq<Float>, bbLow: seq<Float>)

  /** What processing one ticker's frame comes to. */
  datatype Outcome =
    | Raised                          // an exception, caught and reported by the loop
    | NoData                          // the download was empty: skipped without a report
    | Checked(decision: Option<Signal>)

  predicate Fires(o: Outcome) { o.Checked? && o.decision.Some? }

  /** The value at position `i` of a column, NaN past its end. */
  function At(column: seq<Float>, i: int): Float {
    if 0 <= i < |column| then column[i] else NaN
  }

  /** The frame with its indicator columns attached row by row: row `i` holds
      the indicator values computed at position `i`. */
  function AttachByPosition(close: seq<Float>, ind: Indicators): (bars: seq<Bar>)
    ensures |bars| == |close|
    ensures forall i :: 0 <= i < |bars| ==>
              bars[i].close == close[i] && bars[i].macd == At(ind.macd, i) &&
              bars[i].macdSignal == At(ind.macdSignal, i) && bars[i].rsi == At(ind.rsi, i) &&
              bars[i].bbHigh == At(ind.bbHigh, i) && bars[i].bbLow == At(ind.bbLow, i)
  {
    seq(|close|, i requires 0 <= i < |close| =>
      Bar(close[i], At(ind.macd, i), At(ind.macdSignal, i), At(ind.rsi, i), At(ind.bbHigh, i), At(ind.bbLow, i)))
  }

  /** The steps after the download: an empty frame is skipped, a frame of one
      row raises at `iloc[-2]`, otherwise the rule decides on the last two rows. */
  function EvaluateFrame(bars: seq<Bar>): (r: Outcome)
    ensures r == NoData <==> |bars| == 0
    ensures r == Raised <==> |bars| == 1
    ensures r.Checked? ==> |bars| >= 2 && r.decision == Decide(bars[|bars| - 2], bars[|bars| - 1])
    ensures Fires(r) <==> |bars| >= 2 && (BuyRule(bars[|bars| - 2], bars[|bars| - 1]) || SellRule(bars[|bars| - 2], bars[|bars| - 1]))
  {
    if |bars| == 0 then NoData
    else if |bars| < 2 then Raised
    else Checked(Decide(bars[|bars| - 2], bars[|bars| - 1]))
  }

  /** Only the last two rows matter: any history before them can be
      dropped or replaced without changing the outcome. */
  lemma {:induction false} EvaluateFrameReadsLastTwo(older: seq<Bar>, older': seq<Bar>, recent: seq<Bar>)
    requires |recent| >= 2
    ensures EvaluateFrame(older + recent) == EvaluateFrame(older' + recent)
  {
    var all, all' := older + recent, older' + recent;
    assert all[|all| - 1] == recent[|recent| - 1] == all'[|all'| - 1];
    assert all[|all| - 2] == recent[|recent| - 2] == all'[|all'| - 2];
  }

  // How pandas attaches a Series to a frame: by index label, not by position.

  /** An index label: the download is indexed by trading day, a Series built
      from a bare array by its position 0, 1, 2, ... */
  datatype Label = Day(ordinal: int) | Position(index: int)

  /** A pandas Series: values with their index labels. */
  datatype Series = Series(index: seq<Label>, values: seq<Float>)

  function RangeIndex(n: nat): (index: seq<Label>)
    ensures |index| == n
  {
    seq(n, i => Position(i))
  }

  function DayIndex(days: seq<int>): (index: seq<Label>)
    ensures |index| == |days|
  {
    seq(|days|, i requires 0 <= i < |days| => Day(days[i]))
  }

  /** `pd.Series(array)`: the values labelled by position. */
  function FromArray(values: seq<Float>): Series {
    Series(RangeIndex(|values|), values)
  }

  /** The first position at or after `start` that carries `key`, or the end
      of the index when there is none. */
  function Find(index: seq<Label>, key: Label, start: nat): (j: nat)
    requires start <= |index|
    ensures start <= j <= |index|
    ensures j < |index| ==> index[j] == key
    ensures forall k :: start <= k < j ==> index[k] != key
    decreases |index| - start
  {
    if start == |index| then |index|
    else if index[start] == key then start
    else Find(index, key, start + 1)
  }

  /** The value a Series holds under `key`, NaN when it has none. */
  function ValueAt(s: Series, key: Label): Float {
    At(s.values, Find(s.index, key, 0))
  }

  /** `series.reindex(target)`: what `frame[column] = series` stores, one
      cell per row label of the frame. */
  function Reindex(s: Series, target: seq<Label>): (column: seq<Float>)
    ensures |column| == |target|
  {
    seq(|target|, i requires 0 <= i < |target| => ValueAt(s, target[i]))
  }

  function ReindexAll(ind: Indicators, target: seq<Label>): Indicators {
    Indicators(
      Reindex(FromArray(ind.macd), target), Reindex(FromArray(ind.macdSignal), target),
      Reindex(FromArray(ind.rsi), target), Reindex(FromArray(ind.bbHigh), target),
      Reindex(FromArray(ind.bbLow), target))
  }

  /** The frame as the source builds it: the indicators are computed on
      `pd.Series(close_data)`, labelled by position, and assigned into the
      download, labelled by trading day. */
  function AttachAsWritten(days: seq<int>, close: seq<Float>, ind: Indicators): (bars: seq<Bar>)
    requires |days| == |close|
    ensures |bars| == |close|
    ensures forall i :: 0 <= i < |bars| ==>
              bars[i].close == close[i] && bars[i].macd == NaN && bars[i].macdSignal == NaN &&
              bars[i].rsi == NaN && bars[i].bbHigh == NaN && bars[i].bbLow == NaN
  {
    ReindexByDayIsAllNaN(ind.macd, days);
    ReindexByDayIsAllNaN(ind.macdSignal, days);
    ReindexByDayIsAllNaN(ind.rsi, days);
    ReindexByDayIsAllNaN(ind.bbHigh, days);
    ReindexByDayIsAllNaN(ind.bbLow, days);
    AttachByPosition(close, ReindexAll(ind, DayIndex(days)))
  }

  /** A day label is never a position label, so every reindexed cell is NaN. */
  lemma ReindexByDayIsAllNaN(values: seq<Float>, days: seq<int>)
    ensures forall i :: 0 <= i < |days| ==> Reindex(FromArray(values), DayIndex(days))[i] == NaN
  {
    forall i | 0 <= i < |days|
      ensures Reindex(FromArray(values), DayIndex(days))[i] == NaN
    {
      var j := Find(RangeIndex(|values|), Day(days[i]), 0);
      assert j == |values|;
    }
  }

  /** As written, no ticker can ever fire: each indicator cell is NaN. */
  lemma AsWrittenNeverFires(days: seq<int>, close: seq<Float>, ind: Indicators)
    requires |days| == |close|
    ensures !Fires(EvaluateFrame(AttachAsWritten(days, close, ind)))
  {
    var bars := AttachAsWritten(days, close, ind);
    if |bars| >= 2 {
      var n := |bars|;
      UndefinedValueGivesNoSignal(bars[n - 2], bars[n - 1]);
    }
  }

  /** Labelled by position on both sides, attaching a column is positional:
      row `i` gets the value computed at position `i`. This is the behaviour
      the rest of the model uses. */
  lemma {:induction false} PositionLabelsAttachByPosition(close: seq<Float>, ind: Indicators)
    ensures AttachByPosition(close, ReindexAll(ind, RangeIndex(|close|))) == AttachByPosition(close, ind)
  {
    var n := |close|;
    forall column: seq<Float>, i | 0 <= i < n
      ensures Reindex(FromArray(column), RangeIndex(n))[i] == At(column, i)
    {
      FindPosition(column, i);
    }
  }

  lemma {:induction false} FindPosition(column: seq<Float>, i: nat)
    ensures ValueAt(FromArray(column), Position(i)) == At(column, i)
  {
    var index := RangeIndex(|column|);
    var j := Find(index, Position(i), 0);
    if i < |column| {
      assert index[i] == Position(i);
      assert j == i;
    } else {
      assert j == |column|;
    }
  }

  /** With the rows attached by position the rule can fire: a two-bar frame
      whose MACD crosses up, RSI 30 and close under the lower band is a Buy. */
  lemma PositionalFrameCanFire()
    ensures EvaluateFrame(AttachByPosition(
              [Num(100.0), Num(90.0)],
              Indicators([Num(-1.0), Num(1.0)], [Num(0.0), Num(0.0)], [Num(40.0), Num(30.0)],
                         [Num(120.0), Num(110.0)], [Num(95.0), Num(92.0)])))
            == Checked(Some(Buy(90.0, 30.0)))
  {
  }
}
