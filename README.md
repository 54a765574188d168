# Trading-bot core in Dafny

A model of the decision and bookkeeping core of a single-symbol crypto futures
trading bot. Each cycle the bot:

- fetches candlesticks ("klines") and computes technical indicators;
- reads the account and the current position from the exchange;
- asks a language model for a Buy / Sell / Hold decision;
- executes that decision with market orders in hedge (dual-position) mode;
- keeps a running performance summary of the trades it made.

A multi-agent variant of the prompt pipeline derives fixed rule tables before
the model is asked: risk metrics, warnings, consistency scores, suggested
confidence, decision paths and position sizing. Those rule tables are modelled
here; the prompt text around them is not.

All arithmetic is over `real`. The two tolerances of the code are named
constants:

- `Numbers.FloatEpsilon` is `f64::EPSILON`.
- `Executor.FlatThreshold` is the 0.0001 "no position" bound.

Every exchange, model and clock interaction is a parameter:

- the exchange's answers to orders are a scripted sequence consumed by `Executor.Exchange`;
- the exchange-info, position and account replies are decoded records;
- the JSON decoder is a function parameter;
- the current time is an `int`.

Modules, one per source file plus shared helpers:

| module | file | models |
|---|---|---|
| `Wrappers` | wrappers.dfy | `Option` / `Result` |
| `Text` | text.dfy | `str::find`, `str::rfind`, `contains`, `join`, the first-`{`-to-last-`}` JSON slice |
| `Numbers` | numbers.dfy | `parse::<f64>().unwrap_or(0.0)` over plain decimals, sums and means |
| `Types` | types.dfy | `src/types.rs` |
| `Executor` | executor.dfy | `src/executor.rs` |
| `Performance` | performance.dfy | `src/performance.rs` |
| `Market` | market.dfy | `calculate_indicators` in `src/market.rs` |
| `Llm` | llm.dfy | the classifiers and the JSON slice of `src/llm.rs` |
| `MultiAgent` | multi_agent.dfy | the rule parts of `src/multi_agent.rs` |
| `Bot` | bot.dfy | the interval mapping, the trading cycle and the tick loop of `src/main.rs` |

Where the code does work step by step, the model is imperative:

- `Executor.Exchange` appends accepted orders to its `log`.
- `Performance.PerformanceTracker.Update` builds the new snapshot in a local copy, field by field, and assigns it once.
- The ATR loop, the filter fold, the position search, the warnings list, the
  portfolio summary and the tick loop are `while`/`for` loops.

Each method is proved against a pure specification function, and the
properties the code promises are lemmas about those functions.

Where files disagree, each function is modelled as written in its own file:

- `TechnicalIndicators` has 5 fields in `src/types.rs:16-22`, but `src/market.rs:149-161` builds 11. The model uses the 11.
- `src/main.rs:105-113` passes 7 arguments to `execute_decision`, which takes 8 (`src/executor.rs:416-425`). `Bot.RunTradingCycle` takes the missing `max_position` as a parameter.
- `src/main.rs:95` passes 5 arguments to `llm::analyze`, which takes 7. The cycle takes the decision as an input.
- An executed trade is stamped in milliseconds (`get_timestamp`, `src/executor.rs:57-62`, used at `src/executor.rs:426`), but the record of a failed execution is stamped in seconds (`src/main.rs:137`), so the trade journal mixes two units. The cycle's clock is in milliseconds; `Bot.FailedTrade` keeps its whole seconds.
- The enums of the multi-agent pipeline (trend, strength, phase, strategy action, approval) are referenced as `crate::types::…` but are absent from `src/types.rs`. They are declared in `MultiAgent`.

## Model

| member | source | states |
|---|---|---|
| Executor.QuantizeDown | src/executor.rs:169-175 | identity when step ≤ 0; otherwise a non-negative whole multiple of step; for value ≥ 0 at most value and less than one step below it; 0 for a negative value |
| Executor.QuantizeUp | src/executor.rs:177-183 | identity when step ≤ 0; otherwise a non-negative whole multiple of step that is at least value, less than one step above a non-negative value, 0 for a non-positive value |
| Executor.QuantizeDownAtMostUp | src/executor.rs:169-183 | rounding down never exceeds rounding up, for every step |
| Executor.QuantizeDownIsGreatest | src/executor.rs:169-175 | every whole multiple of step not above value is at most the rounded-down result (it is the greatest such multiple) |
| Executor.QuantizeUpIsLeast | src/executor.rs:177-183 | every non-negative whole multiple of step not below value is at least the rounded-up result |
| Executor.QuantizeIdempotent | src/executor.rs:169-183 | rounding an already rounded-down quantity, down or up, leaves it unchanged |
| Executor.BuildConstraints | src/executor.rs:127-161 | the filter fold computes exactly the constraints the filters define (`ConstraintsOf`) |
| Executor.LastLotSizeWins | src/executor.rs:133-142 | min qty, step and max qty come from the last LOT_SIZE filter; a max qty ≤ 0 gives no maximum |
| Executor.NoLotSizeDefaults | src/executor.rs:155-158 | without a LOT_SIZE filter, step and min qty are 0 and there is no maximum |
| Executor.LastPriceFilterWins | src/executor.rs:143-145 | the tick size comes from the last PRICE_FILTER |
| Executor.NoPriceFilterDefault | src/executor.rs:160 | without a PRICE_FILTER the tick size is 0 |
| Executor.LastMinNotionalWins | src/executor.rs:146-148 | the minimum notional comes from the last MIN_NOTIONAL filter |
| Executor.NoMinNotionalDefault | src/executor.rs:159 | without a MIN_NOTIONAL filter the minimum notional is 0 |
| Executor.MaxQtyPositive | src/executor.rs:139-140 | a maximum quantity, when present, is positive |
| Executor.FindSymbol | src/executor.rs:121-125 | finds the first listed entry with the requested symbol (no earlier entry has it), or reports that no entry has it |
| Executor.RulesFor | src/executor.rs:113-125 | a symbol's rules fail exactly when the request fails or the symbol is not listed |
| Executor.FetchSymbolConstraints | src/executor.rs:106-166 | succeeds exactly when every symbol's rules are available; the map's keys are exactly the symbols, each with its own rules; a failure is the first failing symbol's error |
| Numbers.ParseFloatOfNat | src/executor.rs:102-104 | the decimal text of a whole number, with or without a sign, reads back as that number |
| Numbers.UnparsableReadsAsZero | src/executor.rs:102-104 | an empty text, a lone sign or a lone point reads as 0 |
| Executor.PositionFromRecord | src/executor.rs:218-233 | flat iff the amount is below 0.0001 in magnitude; otherwise long iff the amount is positive, with the magnitude as size and the record's entry price and P&L |
| Executor.GetPosition | src/executor.rs:217-237 | the search loop returns what the first record for the symbol gives; no record for the symbol means flat |
| Executor.DualModeOutcome | src/executor.rs:286-300 | success iff the request succeeded or the error body contains "-4059"; any other failure carries the status and the body, or "未知错误" when the body is unreadable |
| Executor.Leg | src/executor.rs:399-413 | open/close long/short map to BUY/LONG, SELL/LONG, SELL/SHORT, BUY/SHORT: LONG iff a long leg, BUY iff opening long or closing short |
| Executor.LegsDistinct | src/executor.rs:399-413 | the four legs are pairwise distinct, and opening and closing the same side use opposite order sides |
| Executor.Exchange.PlaceOrder | src/executor.rs:342-397 | consumes one scripted answer; an accepted order is appended to the log and returns its details; a rejection or a missing answer leaves the log alone and returns the error |
| Executor.ExecuteDecision | src/executor.rs:416-581 | the result, the orders appended to the exchange log and the answers consumed are those of the decision table `Execute` |
| Executor.ExecuteTowardOn | src/executor.rs:441-581 | the Buy and Sell arms against the exchange match the table `ExecuteToward` |
| Executor.HoldSendsNothing | src/executor.rs:429-440 | Hold sends no order, consumes no answer and reports Hold, amount 0, no P&L, the current price |
| Executor.PlacedFollowsPlan | src/executor.rs:441-581 | the accepted orders are a prefix of the planned ones, in order, and execution succeeds iff all planned orders were accepted |
| Executor.TowardFollowsPlan | src/executor.rs:441-581 | the same for one direction of the table |
| Executor.AddingRespectsMaxPosition | src/executor.rs:473-506 | adding to the held side is refused (Hold, amount 0, no order) iff the new total exceeds max position; otherwise exactly one opening order of the trade amount is planned |
| Executor.ReversalClosesThenOpens | src/executor.rs:457-472 | a signal against the held side plans closing the whole position and then opening the trade amount, independent of max position |
| Executor.ReversalOutcome | src/executor.rs:457-472 | a completed reversal reports P&L (entry − price)·amount for a short and (price − entry)·amount for a long; if the opening order fails, the close stays logged and its error is returned |
| Executor.ClosePnlSign | src/executor.rs:457-541 | closing gains iff the price moved in the position's favour |
| Performance.PerformanceTracker.constructor | src/performance.rs:28-30 | the new tracker holds the all-zero snapshot and summarizes no history |
| Performance.PerformanceTracker.Update | src/performance.rs:36-75 | returns true iff the trade is not Hold; the new snapshot is `Recorded(old snapshot, trade, now)`; the history grows by the trade's P&L; the summary stays faithful to the history |
| Performance.RecordedChanges | src/performance.rs:36-75 | Hold changes nothing; otherwise exactly one more trade and the time stamp; without P&L nothing else changes; with P&L the total moves by it, wins+losses grow by one unless it is 0, best ≥ pnl ≥ worst; peak and drawdown never decrease |
| Performance.RecordedKeepsSummary | src/performance.rs:36-75 | a snapshot that summarizes a history still summarizes it after one update extended by the trade's P&L |
| Performance.SummaryInvariants | src/performance.rs:41-70 | wins + losses ≤ trades; best and worst are set together and best ≥ worst; peak ≥ 0 and ≥ realized P&L; drawdown ≥ 0 and ≥ peak − realized P&L |
| Performance.WinsAndLossesBounded | src/performance.rs:56-60 | the winning and losing counts of a history add up to at most its length |
| Performance.BestAndWorstBound | src/performance.rs:46-54 | best and worst exist iff a P&L was recorded, and bound every recorded P&L |
| Performance.AppendStep | src/performance.rs:44-70 | how the sum, the counts, best, worst, peak and drawdown of a history extend by one P&L |
| Performance.PeakIsHighestEquity | src/performance.rs:62-64 | the peak is the highest cumulative P&L reached (starting from 0), and is reached |
| Performance.DrawdownIsLargestFall | src/performance.rs:65-69 | the maximum drawdown is the largest fall of cumulative P&L from an earlier point, and is attained |
| Performance.PeakAndDrawdownBounds | src/performance.rs:62-70 | peak ≥ 0 and ≥ realized P&L; drawdown ≥ 0 and ≥ peak − realized P&L |
| Market.Closes | src/market.rs:77 | the close of every bar, in order |
| Market.Volumes | src/market.rs:78 | the volume of every bar, in order |
| Market.AvgLastBounds | src/market.rs:80-83 | the mean of the last min(window, len) values lies between bounds of all the values |
| Market.PctChange | src/market.rs:85-97 | 0 when there are at most `periods` values or the earlier close is ≈ 0; otherwise the percentage r with prev + prev·r/100 = last |
| Market.PctChangeSign | src/market.rs:85-97 | with a positive earlier close, the change is positive iff the price rose and negative iff it fell |
| Market.VolumeRatio | src/market.rs:109-115 | 0 when the mean of the last min(20, len) volumes is ≈ 0; otherwise ratio · mean = last volume |
| Market.VolumeRatioBounded | src/market.rs:109-115 | for non-negative volumes the ratio lies between 0 and the window length |
| Market.TrueRange | src/market.rs:128-130 | the largest of high − low, \|high − prev close\| and \|low − prev close\| |
| Market.AtrPeriod | src/market.rs:117 | min(14, len − 1): with at least 2 bars between 1 and len − 1, so the window is non-empty and never starts at bar 0 |
| Market.TrueRangeAt | src/market.rs:120-130 | entry k of the window's true ranges is bar (start + k)'s true range against the previous close |
| Market.AverageTrueRange | src/market.rs:117-140 | the loop's result is the mean true range over the window, 0 for an empty window |
| Market.AtrAtLeastRange | src/market.rs:117-140 | the ATR is non-negative and at least any lower bound of all bars' high − low |
| Market.AtrPercent | src/market.rs:142-147 | 0 when the latest close is ≈ 0; otherwise r · close = ATR · 100 |
| Market.CalculateIndicators | src/market.rs:71-162 | fails iff fewer than 5 bars; otherwise every field is its windowed mean, percent change, volume ratio, ATR or ATR percent |
| Market.SmasWithinCloses | src/market.rs:99-102 | every moving average lies between bounds of all closes |
| Llm.RecentKlines | src/llm.rs:47 | the last min(5, len) bars, oldest first |
| Llm.LastKline | src/llm.rs:50 | the newest bar (non-empty input required, as `unwrap` demands) |
| Llm.BodyRatio | src/llm.rs:51-54 | 0 when the range ≤ 0; otherwise ratio · range = \|close − open\| |
| Llm.BodyRatioIsFraction | src/llm.rs:51-54 | for a well-formed bar the body ratio lies in [0, 1] |
| Llm.MaTrendOf | src/llm.rs:64-68 | bullish alignment iff SMA5 > SMA20 |
| Llm.MomentumOf | src/llm.rs:74-80 | up iff change > 0.5, down iff change < −0.5, consolidating iff in between; exactly one applies |
| Llm.MomentumMonotone | src/llm.rs:74-80 | a larger one-bar change never gives a lower momentum label |
| Llm.VolumeStatusOf | src/llm.rs:82-88 | high iff ratio > 1.5, low iff ratio < 0.7, normal otherwise |
| Llm.PositionRiskOf | src/llm.rs:91-106 | flat iff no position; profit iff P&L > 0; large loss iff P&L < −10; small loss otherwise |
| Llm.DecisionFromReply | src/llm.rs:197-208 | a missing reply, a missing `{` and a missing `}` are distinct errors; success iff the slice from the first `{` through the last `}` decodes, and the decision is the decoded one |
| Llm.DecoderSeesOuterObject | src/llm.rs:204-206 | text around an object that holds no `{` before and no `}` after is cut away exactly |
| Text.IndexOf | src/llm.rs:204 | the first index holding the character, or none iff it does not occur |
| Text.LastIndexOf | src/llm.rs:205 | the last index holding the character, or none iff it does not occur |
| Text.Contains | src/executor.rs:293 | true iff the pattern occurs somewhere in the text |
| Text.JsonObjectSpan | src/multi_agent.rs:1540-1542 | no `{` and no `}` are distinct errors; otherwise the span runs from the first `{` through the last `}`, and it is an error instead of a panic exactly when the last `}` lies more than one place before the first `{` |
| Text.ExtractJsonObject | src/multi_agent.rs:1540-1542 | the slice is no longer than the text, starts with `{` and ends with `}`, and fails iff the span does |
| Text.JoinLength | src/multi_agent.rs:755-759 | a joined text is as long as its parts plus one separator between neighbours |
| Text.JoinKeepsParts | src/multi_agent.rs:755-759 | every part occurs in the joined text at its own offset |
| MultiAgent.ParseJsonResponse | src/multi_agent.rs:1538-1545 | a missing `{` and a missing `}` are errors; success iff the slice decodes, with the decoded value |
| MultiAgent.HoldingRiskOf | src/multi_agent.rs:406-415 | none without a position; sizeable profit iff P&L > 10, small profit iff in (0, 10], small loss iff in (−10, 0], large loss iff ≤ −10 |
| MultiAgent.TrendPositionAlignment | src/multi_agent.rs:429-445 | as written: aligned iff long in a Bullish trend or short in any non-Bullish trend; long in a non-Bullish trend is reported as against a bearish trend |
| MultiAgent.NeutralTrendNeverReported | src/multi_agent.rs:441-443 | the neutral-trend branch is unreachable; a long position in a Neutral trend is labelled as against a bearish trend |
| MultiAgent.IntendedAlignment | src/multi_agent.rs:429-445 | a Neutral trend gets the neutral label for either side; otherwise the as-written labels |
| MultiAgent.IntendedAlignmentIsSymmetric | src/multi_agent.rs:429-445 | mirroring side and trend keeps the intended verdict |
| MultiAgent.Utilization | src/multi_agent.rs:688-692 | 0 when max position ≤ 0; otherwise u · max = amount · 100 |
| MultiAgent.TradeToBalance | src/multi_agent.rs:694-698 | 999.9 when available balance ≤ 0; otherwise r · available = max trade value · 100 |
| MultiAgent.ComputeRiskMetrics | src/multi_agent.rs:672-698 | balances are read with unparsable text as 0; used margin = total − available; zero position figures when flat; max trade value = max amount · max(support, resistance) |
| MultiAgent.UtilizationAgainstLimit | src/multi_agent.rs:688-692 | with a positive limit, utilization ≤ 100 % iff the position is within the limit |
| MultiAgent.ActionRiskOf | src/multi_agent.rs:701-714 | new position for open long/short, adds exposure for add, reduces risk for close, none for hold |
| MultiAgent.TrendRiskOf | src/multi_agent.rs:717-720 | low risk iff the trend is strong, moderate iff medium, high iff weak |
| MultiAgent.TimingRiskOf | src/multi_agent.rs:723-729 | ripe iff score ≥ 8, fair iff 6 ≤ score < 8, poor iff score < 6 |
| MultiAgent.AutoWarnings | src/multi_agent.rs:733-753 | the list holds exactly the triggered warnings (balance < 100, utilization > 80, ratio > 10, timing < 5, weak trend), in the order of the checks, each once |
| MultiAgent.WarningTexts | src/multi_agent.rs:733-753 | one text per warning, in the same order |
| MultiAgent.WarningsHintShowsEach | src/multi_agent.rs:755-759 | every warning's text occurs in the hint at its own offset |
| MultiAgent.WarningsHintLength | src/multi_agent.rs:755-759 | a non-empty hint is as long as the texts plus "; " between neighbours |
| MultiAgent.ChecklistOf | src/multi_agent.rs:891-900 | each checklist mark is ✓ iff its condition holds (balance ≥ 100, utilization < 80, ratio < 10, timing ≥ 6, Strong or Medium trend) |
| MultiAgent.WarningMeansFailedMark | src/multi_agent.rs:891-900 | each warning of `AutoWarnings` implies the failed mark of its check; a timing score of 5 fails the mark without a warning |
| MultiAgent.SuggestedBase | src/multi_agent.rs:762-768 | 0.8 · max when timing ≥ 8 and Strong; else the midpoint of min and max when timing ≥ 6; else min |
| MultiAgent.SuggestedBaseWithinLimits | src/multi_agent.rs:762-768 | for min ≤ max the midpoint and minimum cases lie in [min, max]; the strong case lies in [0, max] for a non-negative max |
| MultiAgent.ConsistencyOf | src/multi_agent.rs:1083-1103 | the score label for each combination of trend match, approval, strength and timing ≥ 7 |
| MultiAgent.ConsistencyNeverOverstates | src/multi_agent.rs:1083-1103 | "4/4" iff all four conditions hold; "3/4" always has exactly three; "2/4" has two or three; the label is wrong exactly when "2/4" is given with three met (a wrong-way trend otherwise favourable) or "≤1/4" with two or more; Rejected always gives "≤1/4", and a matching approved trend never does |
| MultiAgent.ConsistencyUnderReports | src/multi_agent.rs:1097-1101 | a rejected, strong, well-timed long in a bullish trend reads "≤1/4" with three conditions met; an approved strong, well-timed long in a bearish trend reads "2/4" with three met |
| MultiAgent.IntendedConsistency | src/multi_agent.rs:1097-1101 | the corrected label names exactly the number of conditions met |
| MultiAgent.IntendedConsistencyAgrees | src/multi_agent.rs:1097-1101 | the corrected label equals the code's wherever the code's count is right, and otherwise names more conditions than the code's |
| MultiAgent.SuggestedConfidence | src/multi_agent.rs:1106-1119 | LOW iff rejected; HIGH iff Strong, timing ≥ 8 and Approved; MEDIUM iff not rejected, not HIGH and timing ≥ 6; LOW otherwise |
| MultiAgent.HintLevel | src/multi_agent.rs:1106-1119 | the confidence level each hint names |
| MultiAgent.ConfidenceFollowsApproval | src/multi_agent.rs:1106-1119 | HIGH only with Approved, Strong and timing ≥ 8; a rejection always gives LOW |
| MultiAgent.DecisionPathOf | src/multi_agent.rs:1122-1147 | forced HOLD iff rejected; lean BUY / SELL iff the strategy's direction matches the trend; cautious otherwise; lean HOLD for close and hold |
| MultiAgent.LeaningPathsAgreeWithConsistency | src/multi_agent.rs:1083-1147 | a leaning path coincides with a trend match under a non-rejected approval, the first two consistency conditions |
| MultiAgent.QualityOf | src/multi_agent.rs:1402-1407 | premium iff Strong in markup, good iff Strong otherwise, fair iff Medium, poor iff Weak |
| MultiAgent.ReportsSummary | src/multi_agent.rs:1399-1428 | one section per report, in order, with its 1-based index, symbol, report and quality |
| Bot.IntervalSeconds | src/main.rs:36-45 | "1m", "15m", "30m", "1h" give 60, 900, 1800, 3600; anything else gives 60 |
| Bot.IntervalFromEnv | src/main.rs:36-45 | an unset interval reads as "1m", that is 60 seconds |
| Bot.IntervalName | src/main.rs:244-250 | 60, 900, 1800, 3600 give "1m", "15m", "30m", "1h"; anything else gives "1m" |
| Bot.NameRoundTrip | src/main.rs:244-250 | read after the mapping of lines 36-45, a known interval name survives seconds-and-back; any other comes back as "1m" |
| Bot.SecondsRoundTrip | src/main.rs:36-45 | read after the mapping of lines 244-250, a known number of seconds survives name-and-back; any other comes back as 60 |
| Bot.KnownIntervalsCorrespond | src/main.rs:244-250 | between known names and known seconds, this mapping and the one of lines 36-45 are inverse |
| Bot.Journal.LogDecision | src/main.rs:100 | appends the decision entry and leaves the trade journal alone |
| Bot.Journal.LogTrade | src/main.rs:127-142 | appends the trade and leaves the decision journal alone |
| Bot.CycleOutcome | src/main.rs:55-150 | the cycle succeeds iff every fetch it needs succeeds; otherwise the first failing step, in the order bars, indicators (fewer than 5 bars), account, position, analysis, price (asked only for Buy or Sell), ends it with that step's error |
| Bot.FailedTrade | src/main.rs:132-141 | a failed execution is recorded as Hold, amount 0, no P&L, the fetched price, the error as reason and as order details, stamped with the whole seconds of the millisecond clock |
| Bot.RunTradingCycle | src/main.rs:55-150 | the outcome is `CycleOutcome`; the decision is journaled iff the cycle reaches it; Hold fetches no price and sends nothing; an execution journals its result, or the failed-trade record |
| Bot.HoldIgnoresPrice | src/main.rs:103-147 | with a Hold decision the price feed is never consulted and the cycle succeeds |
| Bot.RunTicks | src/main.rs:255-262 | every tick runs, whatever earlier ticks returned; each outcome is that tick's own cycle outcome |

## Left out

- HTTP requests, URL building, HMAC-SHA256 signing, environment variables, timestamps and sleeps are not modelled. The exchange's and the model's replies are inputs, and time is an `int` parameter.
- The kline fetch and its retry loop, the current-price fetch and the account query are not modelled. Each is a `Result` input of the cycle.
- `set_leverage` is not modelled; it is an HTTP call with no logic of its own.
- Order placement is not modelled beyond its outcome. `Executor.Exchange.PlaceOrder` consumes one scripted answer and does not build the query text or the error messages.
- The calls to the language models and all prompt text (system prompts, `format!` bodies, the market analyst's prompt, the `consecutive_up`/`consecutive_down` loops) are not modelled. Only the rules the prompts are built from are.
- JSON decoding with `serde_json` is a function parameter, so the model does not check what a decoder accepts.
- `TradeResult.reason` and `order_details` are structured values (`TradeReason`, `OrderDetails`) instead of formatted strings. The strings' wording is not modelled.
- `Numbers.ParseFloat` reads only plain decimals with an optional sign. Exponents, "inf" and "nan", which Rust's `f64` parser also accepts, read as unparsable (0).
- IEEE-754 rounding, overflow to infinity and NaN are not modelled; all arithmetic is exact over reals.
- `price_vs_ma5` and `price_vs_ma20` (src/llm.rs:70-71) are not modelled. They are display-only, and the code divides by the SMA without a guard.
- `pnl_pct` in the strategy researcher (src/multi_agent.rs:406) and the margin ratio in the risk manager (src/multi_agent.rs:876) are not modelled. They are display-only, unguarded divisions.
- Writing the decision and trade journals to disk (`src/state.rs`, `src/logging.rs`) and `PerformanceTracker::persist` are not modelled. `Bot.Journal` keeps the entries in memory and the `?` on a failed write is not modelled.
- The startup checks and the exchange setup in `main` (src/main.rs:154-242) are not modelled, nor the other `Config` fields.
- Bot.RunTicks: the tokio interval timer and the endless loop are not modelled. The loop runs over a finite sequence of ticks.
- The performance tracker is not wired into the cycle; the code does not call it from `run_trading_cycle`.
- Performance.PerformanceTracker.Update: the `u64` counters are unbounded naturals, without overflow.
- Performance.PerformanceTracker.Update: the new snapshot is built in a local copy and assigned once. The code changes the fields in place through `&mut self`; nothing can observe the intermediate state, so the final state is the same.
- Performance.RecordedChanges: best and worst are stated as bounds on the P&L (best ≥ pnl ≥ worst). That they are exactly max(old, pnl) and min(old, pnl) is stated by `Performance.AppendStep` over the history and holds by `Performance.RecordedKeepsSummary`.
- Executor.FetchSymbolConstraints: a failed request and an undecodable reply are one error (`RulesRequestFailed`). The code gives them two different messages.

## Findings

| source | as written | input that shows it | evidently intended | confidence | as-written member | corrected member |
|---|---|---|---|---|---|---|
| src/multi_agent.rs:429-445 | the alignment tests only whether the trend is Bullish, so the "trend is neutral" branch can never be reached | a Long position with trend Neutral is labelled "long position but the trend is bearish"; a Short position with trend Neutral is labelled "aligned" | a Neutral trend gets the neutral label for either side | not executed | MultiAgent.TrendPositionAlignment, MultiAgent.NeutralTrendNeverReported | MultiAgent.IntendedAlignment, MultiAgent.IntendedAlignmentIsSymmetric |
| src/multi_agent.rs:1097-1101 | the consistency label counts conditions only along the fixed match arms, so any case outside them reads "≤1/4" and the wrong-way-trend arm reads "2/4" | a Bullish, Strong trend, OpenLong with timing 7 and a Rejected risk reads "≤1/4" with three of four conditions met; a Bearish, Strong trend, OpenLong with timing 7 and approval reads "2/4" with three met | the label names the number of the four conditions that hold | not executed | MultiAgent.ConsistencyOf, MultiAgent.ConsistencyUnderReports | MultiAgent.IntendedConsistency, MultiAgent.IntendedConsistencyAgrees |
