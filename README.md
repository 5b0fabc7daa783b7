# Cryptosignal scanner — a Dafny model

`main.py` is a one-shot scanner. It downloads about 300 days of daily prices
for ten cryptocurrency tickers and attaches MACD, RSI and Bollinger-band
columns to each. On the last two rows it applies a Buy/Sell rule, and it
collects the tickers that fire in a dict. When that dict is not empty, it
sends one digest message to a Telegram chat.

The model has six modules:

- `Options` (options.dfy): a value that may be missing, Python's `None` or a value.
- `Rule` (rule.dfy):
  - a float64 cell, either a number or NaN, where every comparison involving NaN is false, as in Python;
  - one row of the frame;
  - the Buy/Sell rule of lines 63-83 as `Decide`, with its thresholds RSI < 35 and RSI > 65.
- `Frame` (frame.dfy):
  - how the indicator columns are attached to the download;
  - what one ticker's frame comes to: skipped when empty, an exception at `iloc[-2]` when it has a single row, otherwise the rule's decision on the last two rows;
  - pandas' label alignment, which is the subject of the finding below.
- `Dicts` (ordered_dict.dfy): Python's insertion-ordered dict. Assigning to a key that is already present keeps that key's place.
- `Scan` (scan.dfy): `get_signals`. It is a loop, `GetSignals`, proved against a specification function, `Collect`, and the lemmas about `Collect` state what the dict holds.
- `Notify` (notify.dfy):
  - `send_telegram_message`, as a class that records the messages handed to it and the HTTP requests it issues;
  - the digest loop of `main`;
  - `main` itself, as `Run`.

Where the code and its comments disagree, the model follows the code:

- **Thresholds.** The header comments (lines 2-3) give 30 and 70. The code compares against 35 and 65 (lines 78 and 82).
- **"Only if there is a signal (a change)".** The comments at lines 4 and 99 say a message goes out only on a signal ("değişim", a change). Read as "a change since the last run", this disagrees with the code: it keeps no state between runs. `Notify.Run` sends whenever the collected dict is non-empty, even if the same signals were sent last time.

An empty download is skipped with `continue` (lines 45-46). Nothing is printed for it, unlike an exception, which is printed (line 86) and then skipped.

## Model

| member | source | states |
|---|---|---|
| `Rule.Decide` | main.py:63-83 | The result is a Buy exactly when the bullish MACD crossover holds with RSI below 35 and the close below the lower band. It is a Sell exactly when the bearish rule holds and the Buy rule does not. A signal carries the latest close and RSI. |
| `Rule.BuyAndSellExclusive` | main.py:77-83 | The Buy and Sell rules never hold together, so the `elif` gives a Sell exactly when the Sell rule holds. |
| `Rule.UndefinedValueGivesNoSignal` | main.py:64-83 | Any of these being NaN yields no signal: a MACD or signal-line value of either bar, the latest RSI, the latest close, or both bands. |
| `Rule.UndefinedBandBlocksItsSide` | main.py:74-83 | A NaN lower band rules out a Buy; a NaN upper band rules out a Sell. |
| `Rule.DecideReadsOnlyConsulted` | main.py:64-75 | The decision depends only on the MACD and signal line of both bars and on the latest bar. The previous close (line 65) is read but never used. |
| `Frame.AttachAsWritten` | main.py:52-61 | The attachment as written: the indicator series are aligned by label onto the day-labelled download, so every row keeps its close and has NaN in every indicator column. |
| `Frame.EvaluateFrame` | main.py:45-83 | An empty frame is skipped. A one-row frame raises at `iloc[-2]`. Otherwise the decision is `Decide` on the last two rows, and the ticker fires exactly when the Buy or the Sell rule holds there. |
| `Frame.EvaluateFrameReadsLastTwo` | main.py:63-75 | The rows before the last two can be dropped or replaced without changing the outcome. |
| `Frame.AsWrittenNeverFires` | main.py:49-61 | With the columns attached by label, as the code does, no frame ever fires. |
| `Frame.PositionLabelsAttachByPosition` | main.py:49-61 | When the frame is labelled by position like the indicator series, attaching by label is attaching by position (`Frame.AttachByPosition`). That is the corrected attachment, used by the rest of the model. |
| `Frame.PositionalFrameCanFire` | main.py:63-79 | Attached by position, a two-row frame with a bullish crossover, RSI 30 and the close below the lower band gives a Buy at that close and RSI. |
| `Dicts.OrderedDict.Put` | main.py:79-83 | `signals[ticker] = ...` keeps the dict well formed. A new key goes to the end; an existing key keeps its place and takes the new value. |
| `Dicts.NoKeysIffEmptyMap` | main.py:99 | A dict has no keys exactly when it holds no entries: the truthiness test of line 99. |
| `Scan.Evaluate` | main.py:42-86 | A ticker whose download or indicators raise is caught. An empty download is skipped. A single row raises. Two or more rows give `Decide` on the last two rows of the frame with the indicator columns attached by position (the corrected attachment of the finding below), so the ticker fires exactly when the Buy or the Sell rule holds there. |
| `Scan.EvaluateReadsLastTwoPositions` | main.py:63-75 | Two downloads of two or more rows, of any lengths, that agree in the close and every indicator at their last two positions give the same outcome. |
| `Scan.Record` | main.py:77-83 | One loop turn adds or overwrites the ticker's entry exactly when the rule fires, and otherwise leaves the dict unchanged. |
| `Scan.GetSignals` | main.py:39-88 | The loop returns `Collect` of the outcomes. Its keys are a subsequence of the ticker list, and a ticker is a key exactly when one of its downloads fired. |
| `Scan.CollectKeepsInputOrder` | main.py:40-83 | The dict's keys appear in ticker-list order. |
| `Scan.CollectKeysAreFiringTickers` | main.py:40-83 | For a ticker list without repeats, such as the one of line 92, the keys are exactly the tickers that fired, in list order. |
| `Scan.CollectHasTriggeredTickers` | main.py:41-88 | A ticker has an entry exactly when the rule fired for at least one of its positions in the list. |
| `Scan.CollectEmptyIffNothingFired` | main.py:39-88 | The dict is empty exactly when no ticker fired. |
| `Scan.CollectKeepsLatestSignal` | main.py:79-83 | A ticker's entry holds the signal of its last position in the list that fired. |
| `Scan.CollectSkipsQuietTicker` | main.py:42-86 | A ticker that raised, came back empty or did not fire leaves the result exactly as the other tickers make it. |
| `Notify.Telegram.Send` | main.py:18-36 | Without both credentials (unset or empty), no request is issued. Otherwise exactly one GET is issued to `https://api.telegram.org/bot<token>/sendMessage`, carrying the chat id and the message. |
| `Notify.BuildDigest` | main.py:100-102 | The loop builds the header followed by one line per entry, in dict order. |
| `Notify.LinesAt` | main.py:101-102 | The entry at position `i` is the line after those of the earlier entries and before those of the later ones. |
| `Notify.DigestLineCount` | main.py:100-102 | If no newline occurs in the time, the tickers or the rendered numbers, the digest has one line per entry plus the header line. |
| `Notify.Run` | main.py:91-103 | `main` hands the notifier one digest if some ticker fired and nothing otherwise. It issues the request only when both credentials are present. |

## Left out

- **Downloads.** `yf.download` is network I/O. Each ticker's download arrives as an input, a `Scan.Fetch`: either an exception, or the close column with its indicator series.
- **Indicator arithmetic.** The `ta` library's MACD, RSI and Bollinger computations (EMAs, rolling means, standard deviation) are not modelled. The indicator series are inputs, so no statement is made about which price histories make a ticker fire.
- **Number format.** Floats are exact reals; float64 rounding is not modelled.
- **Multi-column downloads.** If the download carries multi-level columns, the close read at `iloc[-1]` could be a one-element Series rather than a number. The model treats the close as a single value.
- **The `%.2f` rendering.** It is a parameter, `fixed2`, of the digest functions.
- **The clock.** The Istanbul wall clock and its `strftime` (lines 96-97) become the input string `now`.
- **HTTP and prints.** The HTTP response, its status check and the printed diagnostics (lines 23, 31-36, 86) are not modelled; only the request issued is recorded.
- **Process entry.** The `__main__` guard (lines 107-108) is not modelled.
- Scan.CollectKeepsInputOrder: for a ticker list that repeats a ticker, it states only that the keys embed in the list in order, not that each key sits at the position where it first fired; the exact order is proved for lists without repeats, such as the one `main` scans (`Scan.CollectKeysAreFiringTickers`).
- **Dict values.** The dict in `get_signals` stores the rendered text of each signal. The model stores the `Signal` and renders it when the digest is built; the text of each line is the same.

## Findings

| source | as written | input that shows it | evidently intended | confidence | as-written member | corrected member |
|---|---|---|---|---|---|---|
| main.py:52-61 | The indicators are computed on `pd.Series(close_data)`, which is labelled 0, 1, 2, … They are then assigned into the download, which is labelled by trading day. pandas aligns by label, so every indicator cell is NaN. | A download whose indicators, attached by position, meet the Buy or the Sell rule on its last two rows: in practice a long one such as the 300 days requested at line 44, since a short one leaves the indicators in their NaN warm-up. Attached by label, as written, no download fires (`Frame.AsWrittenNeverFires`). `Frame.PositionalFrameCanFire` exhibits the positional side with the indicator values given directly, as the model takes them as inputs. | Row `i` of each indicator column holds the value computed at position `i`: the series assigned by position, e.g. through `.values`. | not executed | `Frame.AttachAsWritten`, `Frame.AsWrittenNeverFires` | `Frame.AttachByPosition`, `Frame.PositionLabelsAttachByPosition` |
