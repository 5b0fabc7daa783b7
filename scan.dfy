/** `get_signals` (main.py lines 39-88): walk the tickers in order, process
    each one's download in isolation, and record the tickers the rule fires
    for in an insertion-ordered dict. */
module Scan {
  import opened Options
  import opened Rule
  import opened Frame
  import opened Dicts

  /** What one ticker's download and indicator computation come to: an
      exception, or the close column with the indicator series. An empty
      download is a `Fetched` with no rows. */
  datatype Fetch =
    | Raises
    | Fetched(close: seq<Float>, ind: Indicators)

  /** The body of the `try` for one ticker: an exception is caught, an empty
      download skipped, a single row raises at `iloc[-2]`; otherwise the rule
      decides on the last two rows of the frame with the indicator columns
      attached by position (the corrected attachment, see `AttachByPosition`). */
  function Evaluate(f: Fetch): (r: Outcome)
    ensures f.Raises? ==> r == Raised
    ensures f.Fetched? && |f.close| == 0 ==> r == NoData
    ensures f.Fetched? && |f.close| == 1 ==> r == Raised
    ensures f.Fetched? && |f.close| >= 2 ==>
              var bars := AttachByPosition(f.close, f.ind);
              r == Checked(Decide(bars[|bars| - 2], bars[|bars| - 1]))
    ensures Fires(r) <==>
              (f.Fetched? && |f.close| >= 2 &&
               var bars := AttachByPosition(f.close, f.ind);
               BuyRule(bars[|bars| - 2], bars[|bars| - 1]) || SellRule(bars[|bars| - 2], bars[|bars| - 1]))
  {
    match f
    case Raises => Raised
    case Fetched(close, ind) => EvaluateFrame(AttachByPosition(close, ind))
  }

  /** Row `i` of one download and row `j` of another carry the same close
      and the same value of every indicator. */
  ghost predicate SameRow(close: seq<Float>, ind: Indicators, i: nat, close': seq<Float>, ind': Indicators, j: nat)
    requires i < |close| && j < |close'|
  {
    close[i] == close'[j] && At(ind.macd, i) == At(ind'.macd, j) &&
    At(ind.macdSignal, i) == At(ind'.macdSignal, j) && At(ind.rsi, i) == At(ind'.rsi, j) &&
    At(ind.bbHigh, i) == At(ind'.bbHigh, j) && At(ind.bbLow, i) == At(ind'.bbLow, j)
  }

  /** Once a download has two rows, only its last two positions matter: two
      downloads of any lengths that agree there, in the close and in every
      indicator series, give the same outcome. */
  lemma EvaluateReadsLastTwoPositions(close: seq<Float>, ind: Indicators, close': seq<Float>, ind': Indicators)
    requires |close| >= 2 && |close'| >= 2
    requires SameRow(close, ind, |close| - 2, close', ind', |close'| - 2)
    requires SameRow(close, ind, |close| - 1, close', ind', |close'| - 1)
    ensures Evaluate(Fetched(close, ind)) == Evaluate(Fetched(close', ind'))
  {
    var bars, bars' := AttachByPosition(close, ind), AttachByPosition(close', ind');
    assert bars[|bars| - 2] == bars'[|bars'| - 2];
    assert bars[|bars| - 1] == bars'[|bars'| - 1];
  }

  /** Every ticker's outcome, in list order. */
  function Outcomes(fetches: seq<Fetch>): seq<Outcome> {
    seq(|fetches|, i requires 0 <= i < |fetches| => Evaluate(fetches[i]))
  }

  lemma NoOutcomeFiredIffNoFetchFired(fetches: seq<Fetch>)
    ensures (forall i :: 0 <= i < |fetches| ==> !Fires(Outcomes(fetches)[i])) <==>
            (forall i :: 0 <= i < |fetches| ==> !Fires(Evaluate(fetches[i])))
  {
    var outcomes := Outcomes(fetches);
    assert forall i :: 0 <= i < |fetches| ==> outcomes[i] == Evaluate(fetches[i]);
  }

  /** One turn of the loop: an entry for the ticker only when the rule fires. */
  function Record(signals: OrderedDict<string, Signal>, ticker: string, o: Outcome): (r: OrderedDict<string, Signal>)
    requires signals.Valid()
    ensures r.Valid()
    ensures Fires(o) ==> r == signals.Put(ticker, o.decision.value)
    ensures !Fires(o) ==> r == signals
  {
    match o
    case Checked(Some(s)) => signals.Put(ticker, s)
    case _ => signals
  }

  /** The dict `get_signals` returns, given each ticker's outcome. */
  function Collect(tickers: seq<string>, outcomes: seq<Outcome>): (signals: OrderedDict<string, Signal>)
    requires |outcomes| == |tickers|
    ensures signals.Valid()
    decreases |tickers|
  {
    if |tickers| == 0 then Empty()
    else
      var n := |tickers| - 1;
      Record(Collect(tickers[..n], outcomes[..n]), tickers[n], outcomes[n])
  }

  /** `get_signals`: the per-ticker loop. */
  method GetSignals(tickers: seq<string>, fetches: seq<Fetch>) returns (signals: OrderedDict<string, Signal>)
    requires |fetches| == |tickers|
    ensures signals == Collect(tickers, Outcomes(fetches))
    ensures signals.Valid()
    ensures IsSubsequence(signals.keys, tickers)
    ensures forall k :: k in signals.values <==> TriggeredSomewhere(tickers, Outcomes(fetches), k)
  {
    ghost var outcomes := Outcomes(fetches);
    signals := Empty();
    for i := 0 to |tickers|
      invariant signals == Collect(tickers[..i], outcomes[..i])
    {
      assert tickers[..i + 1][..i] == tickers[..i] && outcomes[..i + 1][..i] == outcomes[..i];
      match Evaluate(fetches[i]) {
        case Raised =>              // reported and skipped
        case NoData =>              // skipped silently
        case Checked(None) =>       // the rule did not fire
        case Checked(Some(s)) =>
          signals := signals.Put(tickers[i], s);
      }
    }
    assert tickers[..|tickers|] == tickers && outcomes[..|outcomes|] == outcomes;
    CollectKeepsInputOrder(tickers, outcomes);
    forall k
      ensures k in signals.values <==> TriggeredSomewhere(tickers, outcomes, k)
    {
      CollectHasTriggeredTickers(tickers, outcomes, k);
    }
  }

  // Properties of the collected dict.

  /** `positions` picks, in increasing order, a place in `ys` for each of `xs`. */
  ghost predicate Embeds<T>(positions: seq<nat>, xs: seq<T>, ys: seq<T>) {
    |positions| == |xs| &&
    (forall i :: 0 <= i < |xs| ==> positions[i] < |ys| && xs[i] == ys[positions[i]]) &&
    (forall i, j :: 0 <= i < j < |xs| ==> positions[i] < positions[j])
  }

  ghost predicate IsSubsequence<T>(xs: seq<T>, ys: seq<T>) {
    exists positions :: Embeds(positions, xs, ys)
  }

  ghost predicate TriggeredSomewhere(tickers: seq<string>, outcomes: seq<Outcome>, k: string)
    requires |outcomes| == |tickers|
  {
    exists i :: 0 <= i < |tickers| && tickers[i] == k && Fires(outcomes[i])
  }

  lemma {:induction false} CollectUnfold(tickers: seq<string>, outcomes: seq<Outcome>, ticker: string, o: Outcome)
    requires |outcomes| == |tickers|
    ensures Collect(tickers + [ticker], outcomes + [o]) == Record(Collect(tickers, outcomes), ticker, o)
  {
    assert (tickers + [ticker])[..|tickers|] == tickers;
    assert (outcomes + [o])[..|outcomes|] == outcomes;
  }

  lemma EmbedsExtend<T>(positions: seq<nat>, xs: seq<T>, ys: seq<T>, y: T)
    requires Embeds(positions, xs, ys)
    ensures Embeds(positions, xs, ys + [y])
    ensures Embeds(positions + [|ys|], xs + [y], ys + [y])
  {
  }

  /** The tickers whose outcome fired, in list order (a ticker that fired at
      several positions appears once per position). */
  function FiringTickers(tickers: seq<string>, outcomes: seq<Outcome>): seq<string>
    requires |outcomes| == |tickers|
    decreases |tickers|
  {
    if |tickers| == 0 then []
    else
      var n := |tickers| - 1;
      FiringTickers(tickers[..n], outcomes[..n]) + (if Fires(outcomes[n]) then [tickers[n]] else [])
  }

  /** For a list without repeats, such as the one `main` scans, the keys are
      exactly the tickers that fired, in list order. */
  lemma {:induction false} CollectKeysAreFiringTickers(tickers: seq<string>, outcomes: seq<Outcome>)
    requires |outcomes| == |tickers|
    requires forall i, j :: 0 <= i < j < |tickers| ==> tickers[i] != tickers[j]
    ensures Collect(tickers, outcomes).keys == FiringTickers(tickers, outcomes)
    decreases |tickers|
  {
    if |tickers| > 0 {
      var n := |tickers| - 1;
      var prefix, prefixOutcomes := tickers[..n], outcomes[..n];
      var before := Collect(prefix, outcomes[..n]);
      assert forall i :: 0 <= i < n ==> prefix[i] == tickers[i];
      CollectKeysAreFiringTickers(prefix, prefixOutcomes);
      assert Collect(tickers, outcomes) == Record(before, tickers[n], outcomes[n]);
      if Fires(outcomes[n]) {
        CollectHasTriggeredTickers(prefix, prefixOutcomes, tickers[n]);
        assert !TriggeredSomewhere(prefix, prefixOutcomes, tickers[n]);
      }
    }
  }

  /** The keys come out in the order of the ticker list: they form a
      subsequence of it (and, `Collect` being `Valid`, none appears twice). */
  lemma {:induction false} CollectKeepsInputOrder(tickers: seq<string>, outcomes: seq<Outcome>)
    requires |outcomes| == |tickers|
    ensures IsSubsequence(Collect(tickers, outcomes).keys, tickers)
    decreases |tickers|
  {
    if |tickers| == 0 {
      assert Embeds([], Collect(tickers, outcomes).keys, tickers);
    } else {
      var n := |tickers| - 1;
      var before := Collect(tickers[..n], outcomes[..n]);
      CollectKeepsInputOrder(tickers[..n], outcomes[..n]);
      var positions :| Embeds(positions, before.keys, tickers[..n]);
      assert tickers == tickers[..n] + [tickers[n]];
      EmbedsExtend(positions, before.keys, tickers[..n], tickers[n]);
      var after := Collect(tickers, outcomes);
      assert after == Record(before, tickers[n], outcomes[n]);
      if Fires(outcomes[n]) && tickers[n] !in before.values {
        assert after.keys == before.keys + [tickers[n]];
        assert Embeds(positions + [n], after.keys, tickers);
      } else {
        assert after.keys == before.keys;
        assert Embeds(positions, after.keys, tickers);
      }
    }
  }

  lemma TriggeredSomewhereSplit(tickers: seq<string>, outcomes: seq<Outcome>, k: string)
    requires |outcomes| == |tickers| > 0
    ensures var n := |tickers| - 1;
      TriggeredSomewhere(tickers, outcomes, k) <==>
        TriggeredSomewhere(tickers[..n], outcomes[..n], k) || (tickers[n] == k && Fires(outcomes[n]))
  {
    var n := |tickers| - 1;
    if TriggeredSomewhere(tickers[..n], outcomes[..n], k) {
      var i :| 0 <= i < n && tickers[..n][i] == k && Fires(outcomes[..n][i]);
      assert tickers[i] == k && Fires(outcomes[i]);
    }
    if TriggeredSomewhere(tickers, outcomes, k) {
      var i :| 0 <= i < |tickers| && tickers[i] == k && Fires(outcomes[i]);
      if i < n {
        assert tickers[..n][i] == k && outcomes[..n][i] == outcomes[i];
      }
    }
  }

  /** A ticker has an entry exactly when the rule fired for at least one of
      its downloads. */
  lemma {:induction false} CollectHasTriggeredTickers(tickers: seq<string>, outcomes: seq<Outcome>, k: string)
    requires |outcomes| == |tickers|
    ensures k in Collect(tickers, outcomes).values <==> TriggeredSomewhere(tickers, outcomes, k)
    decreases |tickers|
  {
    if |tickers| > 0 {
      var n := |tickers| - 1;
      CollectHasTriggeredTickers(tickers[..n], outcomes[..n], k);
      TriggeredSomewhereSplit(tickers, outcomes, k);
    }
  }

  /** The dict stays empty exactly when no ticker fired. */
  lemma CollectEmptyIffNothingFired(tickers: seq<string>, outcomes: seq<Outcome>)
    requires |outcomes| == |tickers|
    ensures Collect(tickers, outcomes).keys == [] <==>
              forall i :: 0 <= i < |tickers| ==> !Fires(outcomes[i])
  {
    var signals := Collect(tickers, outcomes);
    NoKeysIffEmptyMap(signals);
    if signals.keys != [] {
      CollectHasTriggeredTickers(tickers, outcomes, signals.keys[0]);
    }
    forall i | 0 <= i < |tickers| && Fires(outcomes[i])
      ensures signals.keys != []
    {
      CollectHasTriggeredTickers(tickers, outcomes, tickers[i]);
    }
  }

  /** A ticker's entry holds the signal of its last download that fired. */
  lemma {:induction false} CollectKeepsLatestSignal(tickers: seq<string>, outcomes: seq<Outcome>, i: nat)
    requires |outcomes| == |tickers| && i < |tickers|
    requires Fires(outcomes[i])
    requires forall j :: i < j < |tickers| && tickers[j] == tickers[i] ==> !Fires(outcomes[j])
    ensures tickers[i] in Collect(tickers, outcomes).values
    ensures Collect(tickers, outcomes).values[tickers[i]] == outcomes[i].decision.value
    decreases |tickers|
  {
    var n := |tickers| - 1;
    var before := Collect(tickers[..n], outcomes[..n]);
    assert Collect(tickers, outcomes) == Record(before, tickers[n], outcomes[n]);
    if i < n {
      assert tickers[..n][i] == tickers[i] && outcomes[..n][i] == outcomes[i];
      CollectKeepsLatestSignal(tickers[..n], outcomes[..n], i);
      assert tickers[n] == tickers[i] ==> !Fires(outcomes[n]);
    }
  }

  /** Two ticker lists that give the same dict still do after one more
      ticker with the same outcome. */
  lemma {:induction false} CollectExtendsEqually(
    tickers: seq<string>, outcomes: seq<Outcome>, tickers': seq<string>, outcomes': seq<Outcome>, ticker: string, o: Outcome)
    requires |outcomes| == |tickers| && |outcomes'| == |tickers'|
    requires Collect(tickers, outcomes) == Collect(tickers', outcomes')
    ensures Collect(tickers + [ticker], outcomes + [o]) == Collect(tickers' + [ticker], outcomes' + [o])
  {
    CollectUnfold(tickers, outcomes, ticker, o);
    CollectUnfold(tickers', outcomes', ticker, o);
  }

  lemma ConcatSnoc<T>(front: seq<T>, rest: seq<T>)
    requires |rest| > 0
    ensures front + rest == (front + rest[..|rest| - 1]) + [rest[|rest| - 1]]
  {
    assert rest == rest[..|rest| - 1] + [rest[|rest| - 1]];
  }

  /** A ticker whose download raised, came back empty, or did not fire leaves
      the dict as the other tickers make it: the loop goes on unaffected. */
  lemma {:induction false} CollectSkipsQuietTicker(
    tickers: seq<string>, outcomes: seq<Outcome>, ticker: string, o: Outcome, rest: seq<string>, restOutcomes: seq<Outcome>)
    requires |outcomes| == |tickers| && |restOutcomes| == |rest|
    requires !Fires(o)
    ensures Collect(tickers + [ticker] + rest, outcomes + [o] + restOutcomes) == Collect(tickers + rest, outcomes + restOutcomes)
    decreases |rest|
  {
    if |rest| == 0 {
      assert tickers + [ticker] + rest == tickers + [ticker] && tickers + rest == tickers;
      assert outcomes + [o] + restOutcomes == outcomes + [o] && outcomes + restOutcomes == outcomes;
      CollectUnfold(tickers, outcomes, ticker, o);
    } else {
      var m := |rest| - 1;
      CollectSkipsQuietTicker(tickers, outcomes, ticker, o, rest[..m], restOutcomes[..m]);
      var last, lastOutcome := rest[m], restOutcomes[m];
      ConcatSnoc(tickers + [ticker], rest);
      ConcatSnoc(outcomes + [o], restOutcomes);
      ConcatSnoc(tickers, rest);
      ConcatSnoc(outcomes, restOutcomes);
      CollectExtendsEqually(
        tickers + [ticker] + rest[..m], outcomes + [o] + restOutcomes[..m],
        tickers + rest[..m], outcomes + restOutcomes[..m], last, lastOutcome);
    }
  }
}
