/** The Buy/Sell rule of the scanner: a decision over the last two bars of one
    ticker's frame (main.py lines 63-83). */
module Rule {
  import opened Options

  /** One float64 cell of a pandas frame: a number, or the NaN an indicator
      yields while its warm-up window is not yet filled. Numbers are exact
      reals here. */
  datatype Float = NaN | Num(value: real)

  // Python's comparison operators on floats: every comparison that involves
  // a NaN is false.
  predicate Less(a: Float, b: Float) { a.Num? && b.Num? && a.value < b.value }
  predicate LessOrEqual(a: Float, b: Float) { a.Num? && b.Num? && a.value <= b.value }
  predicate Greater(a: Float, b: Float) { a.Num? && b.Num? && a.value > b.value }
  predicate GreaterOrEqual(a: Float, b: Float) { a.Num? && b.Num? && a.value >= b.value }

  /** RSI must be strictly below this for a Buy (the header comment says 30). */
  const BuyRsiBelow: real := 35.0
  /** RSI must be strictly above this for a Sell (the header comment says 70). */
  const SellRsiAbove: real := 65.0

  /** One row of the frame once the indicator columns are attached. */
  datatype Bar = Bar(close: Float, macd: Float, macdSignal: Float, rsi: Float, bbHigh: Float, bbLow: Float)

  /** A triggered signal with the close and RSI its message reports. */
  datatype Signal = Buy(close: real, rsi: real) | Sell(close: real, rsi: real)

  // The rule's conditions, stated over defined values only.

  ghost predicate BullishCrossover(prev: Bar, last: Bar) {
    prev.macd.Num? && prev.macdSignal.Num? && last.macd.Num? && last.macdSignal.Num? &&
    prev.macd.value <= prev.macdSignal.value && last.macd.value > last.macdSignal.value
  }

  ghost predicate BearishCrossover(prev: Bar, last: Bar) {
    prev.macd.Num? && prev.macdSignal.Num? && last.macd.Num? && last.macdSignal.Num? &&
    prev.macd.value >= prev.macdSignal.value && last.macd.value < last.macdSignal.value
  }

  ghost predicate BuyRule(prev: Bar, last: Bar) {
    BullishCrossover(prev, last) &&
    last.rsi.Num? && last.rsi.value < BuyRsiBelow &&
    last.close.Num? && last.bbLow.Num? && last.close.value < last.bbLow.value
  }

  ghost predicate SellRule(prev: Bar, last: Bar) {
    BearishCrossover(prev, last) &&
    last.rsi.Num? && last.rsi.value > SellRsiAbove &&
    last.close.Num? && last.bbHigh.Num? && last.close.value > last.bbHigh.value
  }

  /** True when some value the rule consults is NaN. */
  ghost predicate SomeConsultedValueUndefined(prev: Bar, last: Bar) {
    prev.macd.NaN? || prev.macdSignal.NaN? || last.macd.NaN? || last.macdSignal.NaN? ||
    last.rsi.NaN? || last.close.NaN? || (last.bbLow.NaN? && last.bbHigh.NaN?)
  }

  /** The if/elif of the source: Buy is tried first, Sell only when Buy fails. */
  function Decide(prev: Bar, last: Bar): (r: Option<Signal>)
    ensures (r.Some? && r.value.Buy?) <==> BuyRule(prev, last)
    ensures (r.Some? && r.value.Sell?) <==> SellRule(prev, last) && !BuyRule(prev, last)
    ensures r.Some? ==> last.close == Num(r.value.close) && last.rsi == Num(r.value.rsi)
  {
    if (LessOrEqual(prev.macd, prev.macdSignal) && Greater(last.macd, last.macdSignal))
       && Less(last.rsi, Num(BuyRsiBelow)) && Less(last.close, last.bbLow)
    then Some(Buy(last.close.value, last.rsi.value))
    else if (GreaterOrEqual(prev.macd, prev.macdSignal) && Less(last.macd, last.macdSignal))
       && Greater(last.rsi, Num(SellRsiAbove)) && Greater(last.close, last.bbHigh)
    then Some(Sell(last.close.value, last.rsi.value))
    else None
  }

  /** The two rules can never both hold: their crossovers point opposite ways
      at the latest bar, so the `elif` changes nothing. */
  lemma BuyAndSellExclusive(prev: Bar, last: Bar)
    ensures !(BuyRule(prev, last) && SellRule(prev, last))
    ensures (Decide(prev, last).Some? && Decide(prev, last).value.Sell?) <==> SellRule(prev, last)
  {
  }

  /** A warm-up NaN in a consulted value silences the ticker. */
  lemma UndefinedValueGivesNoSignal(prev: Bar, last: Bar)
    requires SomeConsultedValueUndefined(prev, last)
    ensures Decide(prev, last) == None
  {
  }

  /** Each band guards only its own side: without a lower band there is no
      Buy, without an upper band there is no Sell. */
  lemma UndefinedBandBlocksItsSide(prev: Bar, last: Bar)
    ensures last.bbLow.NaN? ==> !(Decide(prev, last).Some? && Decide(prev, last).value.Buy?)
    ensures last.bbHigh.NaN? ==> !(Decide(prev, last).Some? && Decide(prev, last).value.Sell?)
  {
  }

  /** The decision reads only the MACD and signal-line values of both bars and
      the RSI, bands and close of the latest one; the previous close, RSI and
      bands play no part. */
  lemma DecideReadsOnlyConsulted(prev: Bar, last: Bar, prev': Bar, last': Bar)
    requires prev.macd == prev'.macd && prev.macdSignal == prev'.macdSignal
    requires last == last'
    ensures Decide(prev, last) == Decide(prev', last')
  {
  }
}
