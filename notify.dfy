/** The notification side: `send_telegram_message` (main.py lines 18-36)
    and `main` (lines 91-103), which scans the fixed ticker list, builds one
    digest and sends it only when some ticker fired. */
module Notify {
  import opened Options
  import opened Rule
  import opened Frame
  import opened Dicts
  import opened Scan

  /** The tickers `main` scans, in order. */
  const Tickers: seq<string> := [
    "BTC-USD", "ETH-USD", "SOL-USD", "ADA-USD", "XRP-USD",
    "DOGE-USD", "BNB-USD", "AVAX-USD", "LINK-USD", "DOT-USD"]

  /** An HTTP GET to the Bot API with its two query parameters. */
  datatype Request = Request(url: string, chatId: string, text: string)

  function Endpoint(token: string): string {
    "https://api.telegram.org/bot" + token + "/sendMessage"
  }

  /** Python truthiness of an environment lookup: unset or empty is false. */
  predicate Present(v: Option<string>) {
    v.Some? && v.value != ""
  }

  /** The notifier with the two environment variables it reads; `calls`
      records each message handed to it, `requests` each request it issues. */
  class Telegram {
    const token: Option<string>
    const chatId: Option<string>
    ghost var calls: seq<string>
    var requests: seq<Request>

    constructor (token: Option<string>, chatId: Option<string>)
      ensures this.token == token && this.chatId == chatId
      ensures calls == [] && requests == []
    {
      this.token := token;
      this.chatId := chatId;
      calls := [];
      requests := [];
    }

    predicate Configured() {
      Present(token) && Present(chatId)
    }

    /** `send_telegram_message`: without both credentials it returns before
        any request; otherwise it issues exactly one. */
    method Send(message: string)
      modifies this
      ensures calls == old(calls) + [message]
      ensures requests == old(requests) +
                (if Configured() then [Request(Endpoint(token.value), chatId.value, message)] else [])
    {
      calls := calls + [message];
      if !Present(token) || !Present(chatId) {
        return;
      }
      requests := requests + [Request(Endpoint(token.value), chatId.value, message)];
    }
  }

  // The digest text. `fixed2` stands for the `%.2f` rendering of a float.

  const HeaderOpen: string := "Teknik Analiz Sinyalleri ("
  const HeaderClose: string := "):"
  const BuyPrefix: string := "Alış Sinyali - Fiyat: $"
  const SellPrefix: string := "Satış Sinyali - Fiyat: $"
  const RsiSeparator: string := ", RSI: "
  const TickerSeparator: string := ": "

  function Header(now: string): string {
    HeaderOpen + now + HeaderClose + "\n"
  }

  function SignalText(s: Signal, fixed2: real -> string): string {
    match s
    case Buy(close, rsi) => BuyPrefix + fixed2(close) + RsiSeparator + fixed2(rsi)
    case Sell(close, rsi) => SellPrefix + fixed2(close) + RsiSeparator + fixed2(rsi)
  }

  function Line(ticker: string, s: Signal, fixed2: real -> string): string {
    ticker + TickerSeparator + SignalText(s, fixed2) + "\n"
  }

  /** `signals.items()`: the entries in insertion order. */
  function Items(signals: OrderedDict<string, Signal>): seq<(string, Signal)>
    requires signals.Valid()
  {
    seq(|signals.keys|, i requires 0 <= i < |signals.keys| => (signals.keys[i], signals.values[signals.keys[i]]))
  }

  function Lines(items: seq<(string, Signal)>, fixed2: real -> string): string {
    if items == [] then ""
    else Line(items[0].0, items[0].1, fixed2) + Lines(items[1..], fixed2)
  }

  /** The message `main` sends: the header, then one line per entry in
      insertion order. */
  function Digest(now: string, signals: OrderedDict<string, Signal>, fixed2: real -> string): string
    requires signals.Valid()
  {
    Header(now) + Lines(Items(signals), fixed2)
  }

  lemma {:induction false} LinesConcat(a: seq<(string, Signal)>, b: seq<(string, Signal)>, fixed2: real -> string)
    ensures Lines(a + b, fixed2) == Lines(a, fixed2) + Lines(b, fixed2)
    decreases |a|
  {
    if a != [] {
      assert (a + b)[1..] == a[1..] + b;
      LinesConcat(a[1..], b, fixed2);
    } else {
      assert a + b == b;
    }
  }

  lemma {:induction false} LinesSnoc(items: seq<(string, Signal)>, item: (string, Signal), fixed2: real -> string)
    ensures Lines(items + [item], fixed2) == Lines(items, fixed2) + Line(item.0, item.1, fixed2)
  {
    var line := Line(item.0, item.1, fixed2);
    LinesConcat(items, [item], fixed2);
    assert [item][1..] == [];
    assert Lines([item], fixed2) == line + "";
    assert line + "" == line;
  }

  /** One turn of the digest loop appends the line of the next entry. */
  lemma DigestGrows(header: string, items: seq<(string, Signal)>, i: nat, fixed2: real -> string)
    requires i < |items|
    ensures header + Lines(items[..i + 1], fixed2) == header + Lines(items[..i], fixed2) + Line(items[i].0, items[i].1, fixed2)
  {
    assert items[..i + 1] == items[..i] + [items[i]];
    LinesSnoc(items[..i], items[i], fixed2);
  }

  lemma SplitAround<T>(xs: seq<T>, i: nat)
    requires i < |xs|
    ensures xs[..i + 1] + xs[i + 1..] == xs
    ensures xs[..i + 1] == xs[..i] + [xs[i]]
  {
  }

  /** The entry at position `i` is the `i + 1`-th line: the lines before it
      come from the earlier entries, the lines after it from the later ones. */
  lemma LinesAt(items: seq<(string, Signal)>, fixed2: real -> string, i: nat)
    requires i < |items|
    ensures Lines(items, fixed2) == Lines(items[..i], fixed2) + Line(items[i].0, items[i].1, fixed2) + Lines(items[i + 1..], fixed2)
  {
    SplitAround(items, i);
    LinesConcat(items[..i + 1], items[i + 1..], fixed2);
    LinesSnoc(items[..i], items[i], fixed2);
  }

  ghost predicate NoNewline(s: string) {
    forall i :: 0 <= i < |s| ==> s[i] != '\n'
  }

  /** The number of line breaks in a text. */
  function LineBreaks(s: string): nat {
    if s == [] then 0 else (if s[0] == '\n' then 1 else 0) + LineBreaks(s[1..])
  }

  lemma {:induction false} LineBreaksConcat(a: string, b: string)
    ensures LineBreaks(a + b) == LineBreaks(a) + LineBreaks(b)
    decreases |a|
  {
    if a == [] {
      assert a + b == b;
    } else {
      assert (a + b)[1..] == a[1..] + b;
      LineBreaksConcat(a[1..], b);
    }
  }

  lemma {:induction false} NoNewlineHasNoLineBreaks(s: string)
    requires NoNewline(s)
    ensures LineBreaks(s) == 0
    decreases |s|
  {
    if s != [] {
      NoNewlineHasNoLineBreaks(s[1..]);
    }
  }

  lemma {:induction false} NoNewlineConcat(a: string, b: string)
    requires NoNewline(a) && NoNewline(b)
    ensures NoNewline(a + b)
  {
    forall i | 0 <= i < |a + b|
      ensures (a + b)[i] != '\n'
    {
      if i < |a| {
        assert (a + b)[i] == a[i];
      } else {
        assert (a + b)[i] == b[i - |a|];
      }
    }
  }

  lemma {:induction false} SignalTextHasNoLineBreak(s: Signal, fixed2: real -> string)
    requires forall x :: NoNewline(fixed2(x))
    ensures LineBreaks(SignalText(s, fixed2)) == 0
  {
    var prefix := if s.Buy? then BuyPrefix else SellPrefix;
    var middle := RsiSeparator;
    assert NoNewline(prefix) && NoNewline(middle);
    assert NoNewline(fixed2(s.close)) && NoNewline(fixed2(s.rsi));
    NoNewlineConcat(prefix, fixed2(s.close));
    NoNewlineConcat(prefix + fixed2(s.close), middle);
    NoNewlineConcat(prefix + fixed2(s.close) + middle, fixed2(s.rsi));
    NoNewlineHasNoLineBreaks(SignalText(s, fixed2));
  }

  lemma {:induction false} LineHasOneLineBreak(ticker: string, s: Signal, fixed2: real -> string)
    requires NoNewline(ticker)
    requires forall x :: NoNewline(fixed2(x))
    ensures LineBreaks(Line(ticker, s, fixed2)) == 1
  {
    var text := SignalText(s, fixed2);
    SignalTextHasNoLineBreak(s, fixed2);
    assert NoNewline(TickerSeparator);
    NoNewlineHasNoLineBreaks(ticker);
    NoNewlineHasNoLineBreaks(TickerSeparator);
    assert LineBreaks("\n") == 1;
    LineBreaksConcat(ticker, TickerSeparator);
    LineBreaksConcat(ticker + TickerSeparator, text);
    LineBreaksConcat(ticker + TickerSeparator + text, "\n");
  }

  lemma {:induction false} LinesLineBreaks(items: seq<(string, Signal)>, fixed2: real -> string)
    requires forall i :: 0 <= i < |items| ==> NoNewline(items[i].0)
    requires forall x :: NoNewline(fixed2(x))
    ensures LineBreaks(Lines(items, fixed2)) == |items|
    decreases |items|
  {
    if items != [] {
      LineHasOneLineBreak(items[0].0, items[0].1, fixed2);
      LinesLineBreaks(items[1..], fixed2);
      LineBreaksConcat(Line(items[0].0, items[0].1, fixed2), Lines(items[1..], fixed2));
    }
  }

  lemma {:induction false} HeaderHasOneLineBreak(now: string)
    requires NoNewline(now)
    ensures LineBreaks(Header(now)) == 1
  {
    var open, close := HeaderOpen, HeaderClose;
    assert NoNewline(open) && NoNewline(close);
    NoNewlineConcat(open, now);
    NoNewlineConcat(open + now, close);
    NoNewlineHasNoLineBreaks(open + now + close);
    assert LineBreaks("\n") == 1;
    LineBreaksConcat(open + now + close, "\n");
  }

  /** With no line break inside the time, the tickers or the rendered
      numbers, the digest has one line for the header and one per entry. */
  lemma {:induction false} DigestLineCount(now: string, signals: OrderedDict<string, Signal>, fixed2: real -> string)
    requires signals.Valid()
    requires NoNewline(now)
    requires forall i :: 0 <= i < |signals.keys| ==> NoNewline(signals.keys[i])
    requires forall x :: NoNewline(fixed2(x))
    ensures LineBreaks(Digest(now, signals, fixed2)) == |signals.keys| + 1
  {
    var items := Items(signals);
    HeaderHasOneLineBreak(now);
    LinesLineBreaks(items, fixed2);
    LineBreaksConcat(Header(now), Lines(items, fixed2));
  }

  /** The loop of `main` that appends one line per entry to the header. */
  method BuildDigest(now: string, signals: OrderedDict<string, Signal>, fixed2: real -> string) returns (message: string)
    requires signals.Valid()
    ensures message == Digest(now, signals, fixed2)
  {
    var items := Items(signals);
    message := Header(now);
    for i := 0 to |items|
      invariant message == Header(now) + Lines(items[..i], fixed2)
    {
      var (ticker, signal) := items[i];
      DigestGrows(Header(now), items, i, fixed2);
      message := message + Line(ticker, signal, fixed2);
    }
    assert items[..|items|] == items;
  }

  /** One run of `main`: scan the tickers, then send the digest once if any
      ticker fired and stay silent otherwise. */
  method Run(fetches: seq<Fetch>, now: string, fixed2: real -> string, telegram: Telegram)
    requires |fetches| == |Tickers|
    modifies telegram
    ensures var signals := Collect(Tickers, Outcomes(fetches));
      telegram.calls == old(telegram.calls) + (if signals.keys == [] then [] else [Digest(now, signals, fixed2)])
    ensures |telegram.calls| == |old(telegram.calls)| <==>
              forall i :: 0 <= i < |Tickers| ==> !Fires(Evaluate(fetches[i]))
    ensures var signals := Collect(Tickers, Outcomes(fetches));
      telegram.requests == old(telegram.requests) +
        (if signals.keys == [] || !telegram.Configured() then []
         else [Request(Endpoint(telegram.token.value), telegram.chatId.value, Digest(now, signals, fixed2))])
  {
    var signals := GetSignals(Tickers, fetches);
    NoKeysIffEmptyMap(signals);
    CollectEmptyIffNothingFired(Tickers, Outcomes(fetches));
    NoOutcomeFiredIffNoFetchFired(fetches);
    if signals.values != map[] {
      var message := BuildDigest(now, signals, fixed2);
      telegram.Send(message);
    }
  }
}
