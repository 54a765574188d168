/** The bot's driver: the trading interval setting, one trading cycle
    (fetch bars, compute indicators, read the account and position, ask for
    a decision, record it, and act on it unless it is Hold), and the
    endless loop of cycles. Every outside call the cycle makes arrives as
    an already-fetched outcome; orders go to an `Executor.Exchange`, and
    the decision and trade logs are a `Journal`. */
module Bot {
  import opened Wrappers
  import opened Types
  import Market
  import Executor

  // ---------------------------------------------------------------- the trading interval

  const DefaultInterval: string := "1m"

  /** The interval names the setting understands, and their lengths in seconds. */
  predicate KnownInterval(name: string) { name in {"1m", "15m", "30m", "1h"} }
  predicate KnownSeconds(secs: nat) { secs in {60, 900, 1800, 3600} }

  /** Interval name to seconds; an unknown name falls back to a minute. */
  function IntervalSeconds(name: string): (secs: nat)
    ensures name == "1m" ==> secs == 60
    ensures name == "15m" ==> secs == 900
    ensures name == "30m" ==> secs == 1800
    ensures name == "1h" ==> secs == 3600
    ensures !KnownInterval(name) ==> secs == 60
    ensures KnownSeconds(secs)
  {
    match name
    case "1m" => 60
    case "15m" => 15 * 60
    case "30m" => 30 * 60
    case "1h" => 60 * 60
    case _ => 60
  }

  /** The interval setting: the environment's value, "1m" when it is unset. */
  function IntervalFromEnv(value: Option<string>): (secs: nat)
    ensures value.None? ==> secs == 60
  {
    IntervalSeconds(value.GetOr(DefaultInterval))
  }

  /** Seconds back to the interval name the bar request uses; any other
      length falls back to "1m". */
  function IntervalName(secs: nat): (name: string)
    ensures secs == 60 ==> name == "1m"
    ensures secs == 900 ==> name == "15m"
    ensures secs == 1800 ==> name == "30m"
    ensures secs == 3600 ==> name == "1h"
    ensures KnownInterval(name)
    ensures !KnownSeconds(secs) ==> name == DefaultInterval
  {
    match secs
    case 60 => "1m"
    case 900 => "15m"
    case 1800 => "30m"
    case 3600 => "1h"
    case _ => "1m"
  }

  /** A known name survives the trip to seconds and back; any other name
      comes back as "1m". */
  lemma NameRoundTrip(name: string)
    ensures IntervalName(IntervalSeconds(name)) == if KnownInterval(name) then name else DefaultInterval
  {
  }

  /** A known length survives the trip to a name and back; any other
      length comes back as 60. */
  lemma SecondsRoundTrip(secs: nat)
    ensures IntervalSeconds(IntervalName(secs)) == if KnownSeconds(secs) then secs else 60
  {
  }

  /** The two mappings are inverse bijections between the known names
      and the known lengths. */
  lemma KnownIntervalsCorrespond(name: string, secs: nat)
    requires KnownInterval(name) && KnownSeconds(secs)
    ensures IntervalSeconds(name) == secs <==> IntervalName(secs) == name
  {
  }

  // ---------------------------------------------------------------- the journal

  datatype DecisionEntry = DecisionEntry(symbol: string, decision: TradingDecision, position: Option<Position>)

  /** The decision and trade logs, in order of writing. */
  class Journal {
    var decisions: seq<DecisionEntry>
    var trades: seq<TradeResult>

    constructor ()
      ensures decisions == [] && trades == []
    {
      decisions := [];
      trades := [];
    }

    method LogDecision(symbol: string, decision: TradingDecision, position: Option<Position>)
      modifies this
      ensures decisions == old(decisions) + [DecisionEntry(symbol, decision, position)]
      ensures trades == old(trades)
    {
      decisions := decisions + [DecisionEntry(symbol, decision, position)];
    }

    method LogTrade(trade: TradeResult)
      modifies this
      ensures trades == old(trades) + [trade]
      ensures decisions == old(decisions)
    {
      trades := trades + [trade];
    }
  }

  // ---------------------------------------------------------------- one cycle

  /** What the outside world answered during one cycle, in the order the
      cycle asks: the bars, the account, the position records, the
      decision, and (asked only for a Buy or Sell) the current price. */
  datatype CycleInputs = CycleInputs(
    klines: Result<seq<Kline>, string>,
    account: Result<Executor.AccountInfo, string>,
    positions: Result<seq<Executor.PositionRisk>, string>,
    decision: Result<TradingDecision, string>,
    price: Result<real, string>)

  datatype CycleError =
    | KlinesFailed(error: string)
    | IndicatorsFailed(cause: Market.IndicatorError)
    | AccountFailed(error: string)
    | PositionFailed(error: string)
    | AnalysisFailed(error: string)
    | PriceFailed(error: string)

  /** How a cycle ends: the first failing step in order ends it with that
      step's error. A failed execution does not fail the cycle. */
  function CycleOutcome(inputs: CycleInputs): (r: Result<(), CycleError>)
    ensures r.Success? <==>
      && inputs.klines.Success? && |inputs.klines.value| >= Market.MinKlines
      && inputs.account.Success? && inputs.positions.Success? && inputs.decision.Success?
      && (inputs.decision.value.signal != Signal.Hold ==> inputs.price.Success?)
    ensures inputs.klines.Failure? ==> r == Failure(KlinesFailed(inputs.klines.error))
    ensures inputs.klines.Success? && |inputs.klines.value| < Market.MinKlines ==>
      r == Failure(IndicatorsFailed(Market.NotEnoughKlines(|inputs.klines.value|)))
    ensures inputs.klines.Success? && |inputs.klines.value| >= Market.MinKlines && inputs.account.Failure? ==>
      r == Failure(AccountFailed(inputs.account.error))
    ensures inputs.klines.Success? && |inputs.klines.value| >= Market.MinKlines && inputs.account.Success? &&
            inputs.positions.Failure? ==>
      r == Failure(PositionFailed(inputs.positions.error))
    ensures inputs.klines.Success? && |inputs.klines.value| >= Market.MinKlines && inputs.account.Success? &&
            inputs.positions.Success? && inputs.decision.Failure? ==>
      r == Failure(AnalysisFailed(inputs.decision.error))
    ensures ReachesDecision(inputs) && inputs.decision.value.signal != Signal.Hold && inputs.price.Failure? ==>
      r == Failure(PriceFailed(inputs.price.error))
  {
    if inputs.klines.Failure? then Failure(KlinesFailed(inputs.klines.error))
    else if |inputs.klines.value| < Market.MinKlines then
      Failure(IndicatorsFailed(Market.NotEnoughKlines(|inputs.klines.value|)))
    else if inputs.account.Failure? then Failure(AccountFailed(inputs.account.error))
    else if inputs.positions.Failure? then Failure(PositionFailed(inputs.positions.error))
    else if inputs.decision.Failure? then Failure(AnalysisFailed(inputs.decision.error))
    else if inputs.decision.value.signal == Signal.Hold then Success(())
    else if inputs.price.Failure? then Failure(PriceFailed(inputs.price.error))
    else Success(())
  }

  /** The record kept for an execution that failed: a Hold of amount 0 at
      the price fetched, with the error as reason and order details. Its
      timestamp is in whole seconds, while an executed trade's is in
      milliseconds: the cycle's clock reads milliseconds and this record
      keeps only the seconds. */
  function FailedTrade(symbol: string, price: real, nowMillis: nat, error: string): (t: TradeResult)
    ensures t.action == TradeAction.Hold && t.amount == 0.0 && t.pnl.None?
    ensures t.price == price && t.symbol == symbol
    ensures t.timestamp * 1000 <= nowMillis < t.timestamp * 1000 + 1000
    ensures t.reason == ExecutionFailed(error) && t.orderDetails == ErrorDetails(error)
  {
    TradeResult(symbol, TradeAction.Hold, price, 0.0, nowMillis / 1000, ExecutionFailed(error), None, ErrorDetails(error))
  }

  /** The trade record a cycle writes for an execution: its result, or the
      failure record. */
  function TradeRecord(symbol: string, price: real, nowMillis: nat, result: Result<TradeResult, string>): TradeResult
  {
    if result.Success? then result.value else FailedTrade(symbol, price, nowMillis, result.error)
  }

  /** Whether the cycle gets as far as recording a decision. */
  predicate ReachesDecision(inputs: CycleInputs)
  {
    && inputs.klines.Success? && |inputs.klines.value| >= Market.MinKlines
    && inputs.account.Success? && inputs.positions.Success? && inputs.decision.Success?
  }

  /** Whether the cycle executes the decision. */
  predicate Executes(inputs: CycleInputs)
  {
    ReachesDecision(inputs) && inputs.decision.value.signal != Signal.Hold && inputs.price.Success?
  }

  /** `run_trading_cycle`. A decision is recorded once everything before it
      succeeded; a Hold then ends the cycle without asking for a price or
      sending an order; otherwise, with a price, the decision is executed
      and its result -- or, when execution failed, the failure record -- is
      logged. The position limit is a parameter, and `nowMillis` is the
      clock in milliseconds. */
  method RunTradingCycle(journal: Journal, ex: Executor.Exchange, symbol: string, inputs: CycleInputs,
                         tradeAmount: real, maxPosition: real, nowMillis: nat)
    returns (r: Result<(), CycleError>)
    modifies journal, ex
    ensures r == CycleOutcome(inputs)
    ensures !ReachesDecision(inputs) ==>
      journal.decisions == old(journal.decisions) && journal.trades == old(journal.trades) &&
      ex.log == old(ex.log) && ex.replies == old(ex.replies)
    ensures ReachesDecision(inputs) ==>
      var position := Executor.PositionOf(symbol, inputs.positions.value);
      journal.decisions == old(journal.decisions) + [DecisionEntry(symbol, inputs.decision.value, position)]
    ensures !Executes(inputs) ==>
      journal.trades == old(journal.trades) && ex.log == old(ex.log) && ex.replies == old(ex.replies)
    ensures Executes(inputs) ==>
      var position := Executor.PositionOf(symbol, inputs.positions.value);
      var price := inputs.price.value;
      var x := Executor.Execute(symbol, inputs.decision.value, position, price, tradeAmount, maxPosition, nowMillis,
                                old(ex.replies));
      && ex.log == old(ex.log) + x.placed && ex.replies == x.rest
      && journal.trades == old(journal.trades) + [TradeRecord(symbol, price, nowMillis, x.result)]
  {
    if inputs.klines.Failure? {
      return Failure(KlinesFailed(inputs.klines.error));
    }
    var indicators := Market.CalculateIndicators(inputs.klines.value);
    if indicators.Failure? {
      return Failure(IndicatorsFailed(indicators.error));
    }
    if inputs.account.Failure? {
      return Failure(AccountFailed(inputs.account.error));
    }
    if inputs.positions.Failure? {
      return Failure(PositionFailed(inputs.positions.error));
    }
    var position := Executor.GetPosition(symbol, inputs.positions.value);
    if inputs.decision.Failure? {
      return Failure(AnalysisFailed(inputs.decision.error));
    }
    var decision := inputs.decision.value;
    journal.LogDecision(symbol, decision, position);
    if decision.signal != Signal.Hold {
      if inputs.price.Failure? {
        return Failure(PriceFailed(inputs.price.error));
      }
      var price := inputs.price.value;
      var result := Executor.ExecuteDecision(ex, symbol, decision, position, price, tradeAmount, maxPosition, nowMillis);
      match result {
        case Success(trade) => journal.LogTrade(trade);
        case Failure(e) => journal.LogTrade(FailedTrade(symbol, price, nowMillis, e));
      }
    }
    return Success(());
  }

  /** A Hold decision never needs the price: whatever the price request
      would answer, the cycle's outcome is the same. */
  lemma HoldIgnoresPrice(inputs: CycleInputs, otherPrice: Result<real, string>)
    requires ReachesDecision(inputs) && inputs.decision.value.signal == Signal.Hold
    ensures CycleOutcome(inputs) == CycleOutcome(inputs.(price := otherPrice)) == Success(())
  {
  }

  // ---------------------------------------------------------------- the loop

  /** The main loop over a run of ticks: every tick runs a cycle, whatever
      the earlier cycles' outcomes, and each outcome is that tick's own. */
  method RunTicks(journal: Journal, ex: Executor.Exchange, symbol: string, ticks: seq<CycleInputs>,
                  tradeAmount: real, maxPosition: real, times: seq<nat>)
    returns (outcomes: seq<Result<(), CycleError>>)
    requires |times| == |ticks|
    modifies journal, ex
    ensures |outcomes| == |ticks|
    ensures forall i :: 0 <= i < |ticks| ==> outcomes[i] == CycleOutcome(ticks[i])
    ensures |journal.decisions| == |old(journal.decisions)| + CountReaching(ticks)
  {
    outcomes := [];
    for i := 0 to |ticks|
      invariant |outcomes| == i
      invariant forall k :: 0 <= k < i ==> outcomes[k] == CycleOutcome(ticks[k])
      invariant |journal.decisions| == |old(journal.decisions)| + CountReaching(ticks[..i])
    {
      var r := RunTradingCycle(journal, ex, symbol, ticks[i], tradeAmount, maxPosition, times[i]);
      assert ticks[..i + 1][..i] == ticks[..i];
      outcomes := outcomes + [r];
    }
    assert ticks[..|ticks|] == ticks;
  }

  /** How many ticks get as far as recording a decision. */
  function CountReaching(ticks: seq<CycleInputs>): nat
  {
    if |ticks| == 0 then 0
    else CountReaching(ticks[..|ticks| - 1]) + (if ReachesDecision(ticks[|ticks| - 1]) then 1 else 0)
  }
}
