/** The rule tables of the multi-agent pipeline. Each agent is a language
    model prompted with a report built from the previous agents' outputs;
    the model calls and the prose of the prompts are outside this model,
    but the classifications, guards, warning list and sizing formula the
    prompts are assembled from are modelled here, together with the JSON
    extraction every agent's reply goes through. The JSON decoder is a
    parameter. */
module MultiAgent {
  import opened Wrappers
  import opened Numbers
  import Types
  import Text
  import Executor

  // ---------------------------------------------------------------- agent outputs

  datatype TrendDirection = Bullish | Bearish | Neutral
  datatype TrendStrength = Strong | Medium | Weak
  datatype MarketPhase = Accumulation | Markup | Distribution | Markdown
  datatype StrategyAction = OpenLong | OpenShort | AddPosition | ClosePosition | Hold
  datatype ApprovalStatus = Approved | Adjusted | Rejected
  datatype RiskLevel = LowRisk | MediumRisk | HighRisk

  /** The market analyst's report. */
  datatype MarketReport = MarketReport(
    trend: TrendDirection, strength: TrendStrength, marketPhase: MarketPhase,
    support: real, resistance: real, analysis: string)

  /** The strategy researcher's advice; the timing score is nominally 1 to 10. */
  datatype StrategyAdvice = StrategyAdvice(
    action: StrategyAction, reasoning: string, timingScore: int, targetSide: Option<Types.PositionSide>)

  /** The risk manager's assessment. */
  datatype RiskAssessment = RiskAssessment(
    riskLevel: RiskLevel, suggestedAmount: real, approval: ApprovalStatus,
    warnings: seq<string>, reason: string)

  // ================================================================ strategy researcher

  datatype HoldingRisk = NoHoldingRisk | SizeableProfit | SmallProfit | SmallLoss | LargeLoss

  /** The holding's risk level: a profit above 10 is sizeable, any other
      profit small, a loss down to (not including) -10 small, and anything
      at or below -10 large. */
  function HoldingRiskOf(position: Option<Types.Position>): (r: HoldingRisk)
    ensures r == NoHoldingRisk <==> position.None?
    ensures r == SizeableProfit <==> position.Some? && position.value.unrealizedPnl > 10.0
    ensures r == SmallProfit <==> position.Some? && 0.0 < position.value.unrealizedPnl <= 10.0
    ensures r == SmallLoss <==> position.Some? && -10.0 < position.value.unrealizedPnl <= 0.0
    ensures r == LargeLoss <==> position.Some? && position.value.unrealizedPnl <= -10.0
  {
    match position
    case None => NoHoldingRisk
    case Some(pos) =>
      if pos.unrealizedPnl > 10.0 then SizeableProfit
      else if pos.unrealizedPnl > 0.0 then SmallProfit
      else if pos.unrealizedPnl > -10.0 then SmallLoss
      else LargeLoss
  }

  datatype Alignment = NoPositionHeld | Aligned | ShortAgainstBullish | LongAgainstBearish | TrendIsNeutral

  /** Whether the held position agrees with the trend, as the code decides
      it: only a Bullish trend counts as bullish, so a short position in a
      Neutral trend is "aligned" and a long one in a Neutral trend is
      reported as held against a bearish trend. */
  function TrendPositionAlignment(position: Option<Types.Position>, trend: TrendDirection): (r: Alignment)
    ensures r == NoPositionHeld <==> position.None?
    ensures position.Some? ==>
      var isLong := position.value.side == Types.Long;
      && (r == Aligned <==> (isLong && trend == Bullish) || (!isLong && trend != Bullish))
      && (r == ShortAgainstBullish <==> !isLong && trend == Bullish)
      && (r == LongAgainstBearish <==> isLong && trend != Bullish)
  {
    match position
    case None => NoPositionHeld
    case Some(pos) =>
      var isLong := pos.side == Types.Long;
      var isBullish := trend == Bullish;
      if (isLong && isBullish) || (!isLong && !isBullish) then Aligned
      else if isBullish && !isLong then ShortAgainstBullish
      else if !isBullish && isLong then LongAgainstBearish
      else TrendIsNeutral
  }

  /** The neutral-trend label is never produced: the first three tests
      already cover every combination of side and trend, and a Neutral
      trend with a long position is reported as bearish. */
  lemma NeutralTrendNeverReported(position: Option<Types.Position>, trend: TrendDirection)
    ensures TrendPositionAlignment(position, trend) != TrendIsNeutral
    ensures position.Some? && position.value.side == Types.Long && trend == Neutral ==>
      TrendPositionAlignment(position, trend) == LongAgainstBearish
  {
  }

  /** The alignment the labels describe: a Neutral trend gets its own
      label, whatever the side. */
  function IntendedAlignment(position: Option<Types.Position>, trend: TrendDirection): (r: Alignment)
    ensures r == NoPositionHeld <==> position.None?
    ensures r == TrendIsNeutral <==> position.Some? && trend == Neutral
    ensures position.Some? && trend != Neutral ==> r == TrendPositionAlignment(position, trend)
  {
    match position
    case None => NoPositionHeld
    case Some(pos) =>
      var isLong := pos.side == Types.Long;
      if trend == Neutral then TrendIsNeutral
      else if (isLong && trend == Bullish) || (!isLong && trend == Bearish) then Aligned
      else if !isLong then ShortAgainstBullish
      else LongAgainstBearish
  }

  /** Under the intended labelling the two sides are treated alike:
      swapping the side of the position and the direction of the trend
      keeps the verdict. */
  lemma IntendedAlignmentIsSymmetric(pos: Types.Position, trend: TrendDirection)
    ensures
      var flipped := pos.(side := if pos.side == Types.Long then Types.Short else Types.Long);
      var mirrored := match trend case Bullish => Bearish case Bearish => Bullish case Neutral => Neutral;
      var r := IntendedAlignment(Some(pos), trend);
      var r' := IntendedAlignment(Some(flipped), mirrored);
      (r == Aligned <==> r' == Aligned) && (r == TrendIsNeutral <==> r' == TrendIsNeutral)
  {
  }

  // ================================================================ risk manager

  /** The figures the risk manager's report is built from. */
  datatype RiskMetrics = RiskMetrics(
    availableBalance: real, totalBalance: real, usedMargin: real,
    positionAmount: real, positionValue: real, positionPnl: real,
    maxTradeValue: real, positionUtilization: real, tradeToBalanceRatio: real)

  /** The ratio reported when no balance is available. */
  const NoBalanceRatio: real := 999.9

  /** The held amount as a percentage of the position limit, 0 without a
      positive limit. */
  function Utilization(amount: real, maxPosition: real): (u: real)
    ensures maxPosition <= 0.0 ==> u == 0.0
    ensures maxPosition > 0.0 ==> u * maxPosition == amount * 100.0
  {
    if maxPosition > 0.0 then amount / maxPosition * 100.0 else 0.0
  }

  /** The largest trade's value as a percentage of the available balance,
      999.9 without a positive balance. */
  function TradeToBalance(maxTradeValue: real, available: real): (r: real)
    ensures available <= 0.0 ==> r == NoBalanceRatio
    ensures available > 0.0 ==> r * available == maxTradeValue * 100.0
  {
    if available > 0.0 then maxTradeValue / available * 100.0 else NoBalanceRatio
  }

  /** Balances are read from text, unparsable as 0. The largest trade is
      valued at the higher of support and resistance. */
  function ComputeRiskMetrics(report: MarketReport, account: Executor.AccountInfo,
                              position: Option<Types.Position>, maxAmount: real, maxPosition: real)
    : (m: RiskMetrics)
    ensures m.availableBalance == ParseFloat(account.availableBalance)
    ensures m.totalBalance == ParseFloat(account.totalWalletBalance)
    ensures m.usedMargin + m.availableBalance == m.totalBalance
    ensures position.None? ==> m.positionAmount == 0.0 && m.positionValue == 0.0 && m.positionPnl == 0.0
    ensures position.Some? ==>
      && m.positionAmount == position.value.amount
      && m.positionValue == position.value.amount * position.value.entryPrice
      && m.positionPnl == position.value.unrealizedPnl
    ensures m.maxTradeValue == maxAmount * Max(report.support, report.resistance)
    ensures m.positionUtilization == Utilization(m.positionAmount, maxPosition)
    ensures m.tradeToBalanceRatio == TradeToBalance(m.maxTradeValue, m.availableBalance)
  {
    var available := ParseFloat(account.availableBalance);
    var total := ParseFloat(account.totalWalletBalance);
    var amount := if position.Some? then position.value.amount else 0.0;
    var value := if position.Some? then position.value.amount * position.value.entryPrice else 0.0;
    var pnl := if position.Some? then position.value.unrealizedPnl else 0.0;
    var maxTradeValue := maxAmount * Max(report.support, report.resistance);
    RiskMetrics(available, total, total - available, amount, value, pnl, maxTradeValue,
                Utilization(amount, maxPosition), TradeToBalance(maxTradeValue, available))
  }

  /** With a positive limit, a position at or below the limit uses at most
      100% of it, and one beyond the limit more than 100%. */
  lemma UtilizationAgainstLimit(amount: real, maxPosition: real)
    requires maxPosition > 0.0
    ensures Utilization(amount, maxPosition) <= 100.0 <==> amount <= maxPosition
  {
    var u := Utilization(amount, maxPosition);
    assert u * maxPosition == amount * 100.0;
    if u <= 100.0 {
      assert u * maxPosition <= 100.0 * maxPosition;
    } else {
      assert u * maxPosition > 100.0 * maxPosition;
    }
  }

  datatype ActionRisk = NewPositionRisk | AddsExposure | ReducesRisk | NoNewRisk

  /** Opening either way is a new position, adding increases exposure,
      closing reduces risk, holding adds none. */
  function ActionRiskOf(action: StrategyAction): (r: ActionRisk)
    ensures r == NewPositionRisk <==> action == OpenLong || action == OpenShort
    ensures r == AddsExposure <==> action == AddPosition
    ensures r == ReducesRisk <==> action == ClosePosition
    ensures r == NoNewRisk <==> action == Hold
  {
    match action
    case OpenLong => NewPositionRisk
    case OpenShort => NewPositionRisk
    case AddPosition => AddsExposure
    case ClosePosition => ReducesRisk
    case Hold => NoNewRisk
  }

  datatype TrendRisk = TrendRiskLow | TrendRiskModerate | TrendRiskHigh

  /** A strong trend carries low risk, a medium one moderate risk (keep the
      size in check), a weak one high risk (trade smaller or stand aside). */
  function TrendRiskOf(strength: TrendStrength): (r: TrendRisk)
    ensures r == TrendRiskLow <==> strength == Strong
    ensures r == TrendRiskModerate <==> strength == Medium
    ensures r == TrendRiskHigh <==> strength == Weak
  {
    match strength
    case Strong => TrendRiskLow
    case Medium => TrendRiskModerate
    case Weak => TrendRiskHigh
  }

  datatype TimingRisk = TimingRipe | TimingFair | TimingPoor

  /** A score of 8 or more is ripe, 6 or 7 fair, anything lower poor. */
  function TimingRiskOf(timingScore: int): (r: TimingRisk)
    ensures r == TimingRipe <==> timingScore >= 8
    ensures r == TimingFair <==> 6 <= timingScore < 8
    ensures r == TimingPoor <==> timingScore < 6
  {
    if timingScore >= 8 then TimingRipe
    else if timingScore >= 6 then TimingFair
    else TimingPoor
  }

  // ---------------------------------------------------------------- automatic warnings

  datatype Warning = LowBalance | NearPositionLimit | OversizedTrade | PoorTiming | WeakTrend

  /** Position of each warning in the fixed order the checks run in. */
  function WarningRank(w: Warning): nat
  {
    match w
    case LowBalance => 0
    case NearPositionLimit => 1
    case OversizedTrade => 2
    case PoorTiming => 3
    case WeakTrend => 4
  }

  function WarningText(w: Warning): string
  {
    match w
    case LowBalance => "可用余额不足100 USDT，建议谨慎交易"
    case NearPositionLimit => "持仓已接近上限，建议拒绝加仓"
    case OversizedTrade => "单次交易占比过大，建议调整数量"
    case PoorTiming => "时机评分过低，建议拒绝交易"
    case WeakTrend => "趋势较弱，信号不明确"
  }

  const MinSafeBalance: real := 100.0
  const UtilizationWarnPercent: real := 80.0
  const RatioWarnPercent: real := 10.0
  const PoorTimingBelow: int := 5

  /** The condition that triggers each warning. */
  predicate Triggered(w: Warning, m: RiskMetrics, strategy: StrategyAdvice, report: MarketReport)
  {
    match w
    case LowBalance => m.availableBalance < MinSafeBalance
    case NearPositionLimit => m.positionUtilization > UtilizationWarnPercent
    case OversizedTrade => m.tradeToBalanceRatio > RatioWarnPercent
    case PoorTiming => strategy.timingScore < PoorTimingBelow
    case WeakTrend => report.strength == Weak
  }

  /** The warnings list is grown check by check: it holds exactly the
      warnings whose condition holds, each once, in the order of the checks. */
  method AutoWarnings(m: RiskMetrics, strategy: StrategyAdvice, report: MarketReport) returns (warnings: seq<Warning>)
    ensures forall w :: w in warnings <==> Triggered(w, m, strategy, report)
    ensures forall i, j :: 0 <= i < j < |warnings| ==> WarningRank(warnings[i]) < WarningRank(warnings[j])
  {
    warnings := [];
    if m.availableBalance < MinSafeBalance {
      warnings := warnings + [LowBalance];
    }
    if m.positionUtilization > UtilizationWarnPercent {
      warnings := warnings + [NearPositionLimit];
    }
    if m.tradeToBalanceRatio > RatioWarnPercent {
      warnings := warnings + [OversizedTrade];
    }
    if strategy.timingScore < PoorTimingBelow {
      warnings := warnings + [PoorTiming];
    }
    if report.strength == Weak {
      warnings := warnings + [WeakTrend];
    }
  }

  /** Shown instead of the list when no warning fired. */
  const NoWarningsText: string := "暂无明显风险点"
  const WarningSeparator: string := "; "

  function WarningTexts(warnings: seq<Warning>): (r: seq<string>)
    ensures |r| == |warnings| && forall k :: 0 <= k < |warnings| ==> r[k] == WarningText(warnings[k])
  {
    seq(|warnings|, k requires 0 <= k < |warnings| => WarningText(warnings[k]))
  }

  /** The warnings line of the report: the placeholder when there is no
      warning, otherwise the warning texts joined with "; ". */
  function WarningsHint(warnings: seq<Warning>): string
  {
    if |warnings| == 0 then NoWarningsText else Text.Join(WarningTexts(warnings), WarningSeparator)
  }

  /** Every warning's text appears in the hint, at the place its turn in
      the list gives it; an empty list shows just the placeholder. */
  lemma WarningsHintShowsEach(warnings: seq<Warning>, k: nat)
    requires k < |warnings|
    ensures Text.OccursAt(WarningsHint(warnings), WarningText(warnings[k]),
                          Text.PartOffset(WarningTexts(warnings), WarningSeparator, k))
  {
    Text.JoinKeepsParts(WarningTexts(warnings), WarningSeparator, k);
  }

  /** The length of the hint: every text plus one separator between
      consecutive texts. */
  lemma WarningsHintLength(warnings: seq<Warning>)
    requires |warnings| > 0
    ensures |WarningsHint(warnings)| ==
      Text.TotalLength(WarningTexts(warnings)) + (|warnings| - 1) * |WarningSeparator|
  {
    Text.JoinLength(WarningTexts(warnings), WarningSeparator);
  }

  // ---------------------------------------------------------------- the checklist beside the warnings

  /** The five pass marks of the key-indicator list. */
  datatype Checklist = Checklist(
    balanceOk: bool, utilizationOk: bool, ratioOk: bool, timingOk: bool, trendOk: bool)

  function ChecklistOf(m: RiskMetrics, strategy: StrategyAdvice, report: MarketReport): (c: Checklist)
    ensures c.balanceOk <==> m.availableBalance >= MinSafeBalance
    ensures c.utilizationOk <==> m.positionUtilization < UtilizationWarnPercent
    ensures c.ratioOk <==> m.tradeToBalanceRatio < RatioWarnPercent
    ensures c.timingOk <==> strategy.timingScore >= 6
    ensures c.trendOk <==> report.strength == Strong || report.strength == Medium
  {
    Checklist(
      m.availableBalance >= MinSafeBalance,
      m.positionUtilization < UtilizationWarnPercent,
      m.tradeToBalanceRatio < RatioWarnPercent,
      strategy.timingScore >= 6,
      report.strength == Strong || report.strength == Medium)
  }

  /** A fired warning always shows up as a failed mark too. The converse
      does not hold: a timing score of 5 fails its mark without a warning,
      and so does a utilization or ratio exactly at its threshold. */
  lemma WarningMeansFailedMark(m: RiskMetrics, strategy: StrategyAdvice, report: MarketReport)
    ensures var c := ChecklistOf(m, strategy, report);
      && (Triggered(LowBalance, m, strategy, report) <==> !c.balanceOk)
      && (Triggered(NearPositionLimit, m, strategy, report) ==> !c.utilizationOk)
      && (Triggered(OversizedTrade, m, strategy, report) ==> !c.ratioOk)
      && (Triggered(PoorTiming, m, strategy, report) ==> !c.timingOk)
      && (Triggered(WeakTrend, m, strategy, report) <==> !c.trendOk)
    ensures strategy.timingScore == 5 ==>
      !ChecklistOf(m, strategy, report).timingOk && !Triggered(PoorTiming, m, strategy, report)
  {
  }

  // ---------------------------------------------------------------- suggested size

  const StrongShareOfMax: real := 0.8

  /** The suggested base amount: 80% of the maximum for a strong trend
      with a timing score of 8 or more, otherwise the midpoint of the limits
      for a score of 6 or more, otherwise the minimum. */
  function SuggestedBase(timingScore: int, strength: TrendStrength, minAmount: real, maxAmount: real): (r: real)
    ensures timingScore >= 8 && strength == Strong ==> r == StrongShareOfMax * maxAmount
    ensures !(timingScore >= 8 && strength == Strong) && timingScore >= 6 ==> r + r == minAmount + maxAmount
    ensures timingScore < 6 ==> r == minAmount
  {
    if timingScore >= 8 && strength == Strong then maxAmount * StrongShareOfMax
    else if timingScore >= 6 then (minAmount + maxAmount) / 2.0
    else minAmount
  }

  /** Outside the strong case the suggestion lies within the limits. In the
      strong case it stays within them exactly when 80% of the maximum
      reaches the minimum (for a non-negative maximum). */
  lemma SuggestedBaseWithinLimits(timingScore: int, strength: TrendStrength, minAmount: real, maxAmount: real)
    requires minAmount <= maxAmount
    ensures !(timingScore >= 8 && strength == Strong) ==>
      minAmount <= SuggestedBase(timingScore, strength, minAmount, maxAmount) <= maxAmount
    ensures timingScore >= 8 && strength == Strong && maxAmount >= 0.0 ==>
      (minAmount <= SuggestedBase(timingScore, strength, minAmount, maxAmount) <= maxAmount
       <==> minAmount <= StrongShareOfMax * maxAmount)
  {
  }

  // ================================================================ trade executor

  /** The strategy's action goes the trend's way: opening or adding long in
      a bullish trend, or opening short in a bearish one. */
  predicate TrendMatches(trend: TrendDirection, action: StrategyAction)
  {
    (trend == Bullish && (action == OpenLong || action == AddPosition)) || (trend == Bearish && action == OpenShort)
  }

  datatype Consistency = FullyConsistent | HighlyConsistent | PartlyConsistent | Conflicting

  /** The consistency score over four conditions: trend matches action,
      risk did not reject, strong trend, timing of 7 or more. */
  function ConsistencyOf(report: MarketReport, strategy: StrategyAdvice, risk: RiskAssessment): (c: Consistency)
    ensures
      var t := TrendMatches(report.trend, strategy.action);
      var a := risk.approval != Rejected;
      var s := report.strength == Strong;
      var g := strategy.timingScore >= 7;
      && (c == FullyConsistent <==> t && a && s && g)
      && (c == HighlyConsistent <==> t && a && (s != g))
      && (c == PartlyConsistent <==> (t && a && !s && !g) || (!t && a && s && g))
      && (c == Conflicting <==> !a || (!t && !(s && g)))
  {
    var trendMatches := TrendMatches(report.trend, strategy.action);
    var riskApproved := risk.approval != Rejected;
    var strongSignal := report.strength == Strong;
    var goodTiming := strategy.timingScore >= 7;
    match (trendMatches, riskApproved, strongSignal, goodTiming)
    case (true, true, true, true) => FullyConsistent
    case (true, true, true, false) => HighlyConsistent
    case (true, true, false, true) => HighlyConsistent
    case (true, true, false, false) => PartlyConsistent
    case (false, true, true, true) => PartlyConsistent
    case _ => Conflicting
  }

  function ConditionsMet(report: MarketReport, strategy: StrategyAdvice, risk: RiskAssessment): nat
  {
    (if TrendMatches(report.trend, strategy.action) then 1 else 0)
    + (if risk.approval != Rejected then 1 else 0)
    + (if report.strength == Strong then 1 else 0)
    + (if strategy.timingScore >= 7 then 1 else 0)
  }

  /** Whether a label's stated count is right: "4/4", "3/4" and "2/4" name
      that many conditions met, "≤1/4" at most one. */
  predicate LabelIsExact(c: Consistency, met: nat)
  {
    match c
    case FullyConsistent => met == 4
    case HighlyConsistent => met == 3
    case PartlyConsistent => met == 2
    case Conflicting => met <= 1
  }

  /** The label is right about four conditions, and "3/4" is always right.
      It is wrong in exactly two ways, both reporting fewer conditions than
      hold: a wrong-way trend with approval, a strong trend and good timing
      reads "2/4" with three met; and any other case outside the top labels
      with two or three met reads "≤1/4" (every rejection included). A
      rejection always reads as a conflict, and a matching trend with
      approval never does. */
  lemma ConsistencyNeverOverstates(report: MarketReport, strategy: StrategyAdvice, risk: RiskAssessment)
    ensures var c := ConsistencyOf(report, strategy, risk);
      var met := ConditionsMet(report, strategy, risk);
      && (c == FullyConsistent <==> met == 4)
      && (c == HighlyConsistent ==> met == 3)
      && (c == PartlyConsistent ==> 2 <= met <= 3)
      && (!LabelIsExact(c, met) <==>
            (c == PartlyConsistent && met == 3) || (c == Conflicting && met >= 2))
      && (c == PartlyConsistent && met == 3 <==>
            !TrendMatches(report.trend, strategy.action) && risk.approval != Rejected &&
            report.strength == Strong && strategy.timingScore >= 7)
    ensures risk.approval == Rejected ==> ConsistencyOf(report, strategy, risk) == Conflicting
    ensures TrendMatches(report.trend, strategy.action) && risk.approval != Rejected ==>
      ConsistencyOf(report, strategy, risk) != Conflicting
  {
  }

  /** Two inputs on which the label under-reports: a rejected but otherwise
      well-matched long reads "≤1/4" with three conditions met, and an
      approved long against a bearish trend with a strong signal and good
      timing reads "2/4" with three met. */
  lemma ConsistencyUnderReports(support: real, resistance: real)
    ensures var report := MarketReport(Bullish, Strong, Markup, support, resistance, "");
      var strategy := StrategyAdvice(OpenLong, "", 7, None);
      var risk := RiskAssessment(LowRisk, 0.0, Rejected, [], "");
      ConsistencyOf(report, strategy, risk) == Conflicting && ConditionsMet(report, strategy, risk) == 3
    ensures var report := MarketReport(Bearish, Strong, Markdown, support, resistance, "");
      var strategy := StrategyAdvice(OpenLong, "", 7, None);
      var risk := RiskAssessment(LowRisk, 0.0, Approved, [], "");
      ConsistencyOf(report, strategy, risk) == PartlyConsistent && ConditionsMet(report, strategy, risk) == 3
  {
  }

  /** The labelling the stated counts call for: the label names how many
      of the four conditions hold. */
  function IntendedConsistency(report: MarketReport, strategy: StrategyAdvice, risk: RiskAssessment): (c: Consistency)
    ensures LabelIsExact(c, ConditionsMet(report, strategy, risk))
  {
    var met := ConditionsMet(report, strategy, risk);
    if met == 4 then FullyConsistent
    else if met == 3 then HighlyConsistent
    else if met == 2 then PartlyConsistent
    else Conflicting
  }

  /** The intended labelling agrees with the code wherever the code's label
      is exact, and differs from it only by naming more conditions met. */
  lemma IntendedConsistencyAgrees(report: MarketReport, strategy: StrategyAdvice, risk: RiskAssessment)
    ensures var c := ConsistencyOf(report, strategy, risk);
      LabelIsExact(c, ConditionsMet(report, strategy, risk)) <==> IntendedConsistency(report, strategy, risk) == c
    ensures ConsistencyOf(report, strategy, risk) != IntendedConsistency(report, strategy, risk) ==>
      LabelFloor(ConsistencyOf(report, strategy, risk)) < LabelFloor(IntendedConsistency(report, strategy, risk))
  {
  }

  /** The fewest conditions a label names. */
  function LabelFloor(c: Consistency): nat
  {
    match c
    case FullyConsistent => 4
    case HighlyConsistent => 3
    case PartlyConsistent => 2
    case Conflicting => 0
  }

  datatype ConfidenceHint = LowRiskRejected | HighStrongSignal | MediumFairSignal | LowWeakSignal

  /** The confidence the executor is steered to: LOW after a rejection;
      HIGH for a strong trend with timing of 8 or more and full approval;
      otherwise MEDIUM with timing of 6 or more and LOW below. */
  function SuggestedConfidence(report: MarketReport, strategy: StrategyAdvice, risk: RiskAssessment): (h: ConfidenceHint)
    ensures h == LowRiskRejected <==> risk.approval == Rejected
    ensures h == HighStrongSignal <==>
      report.strength == Strong && strategy.timingScore >= 8 && risk.approval == Approved
    ensures h == MediumFairSignal <==>
      risk.approval != Rejected && strategy.timingScore >= 6 &&
      !(report.strength == Strong && strategy.timingScore >= 8 && risk.approval == Approved)
    ensures h == LowWeakSignal <==> risk.approval != Rejected && strategy.timingScore < 6
  {
    if risk.approval == Rejected then LowRiskRejected
    else if report.strength == Strong && strategy.timingScore >= 8 && risk.approval == Approved then HighStrongSignal
    else if strategy.timingScore >= 6 then MediumFairSignal
    else LowWeakSignal
  }

  /** The confidence level a hint stands for. */
  function HintLevel(h: ConfidenceHint): (c: Types.Confidence)
    ensures c == Types.High <==> h == HighStrongSignal
    ensures c == Types.Medium <==> h == MediumFairSignal
  {
    match h
    case HighStrongSignal => Types.High
    case MediumFairSignal => Types.Medium
    case _ => Types.Low
  }

  /** HIGH confidence is suggested only for a strong, well-timed, approved
      trade, and a rejection always suggests LOW. */
  lemma ConfidenceFollowsApproval(report: MarketReport, strategy: StrategyAdvice, risk: RiskAssessment)
    ensures HintLevel(SuggestedConfidence(report, strategy, risk)) == Types.High ==>
      report.strength == Strong && strategy.timingScore >= 8 && risk.approval == Approved
    ensures risk.approval == Rejected ==> HintLevel(SuggestedConfidence(report, strategy, risk)) == Types.Low
  {
  }

  datatype DecisionPath = ForcedHold | LeanBuy | CautiousBuy | LeanSell | CautiousSell | LeanHold

  /** The path the executor is steered along: a rejection forces HOLD;
      otherwise a long-side action leans BUY in a bullish trend and is
      cautious otherwise, a short opening leans SELL in a bearish trend and
      is cautious otherwise, and closing or holding leans HOLD. */
  function DecisionPathOf(report: MarketReport, strategy: StrategyAdvice, risk: RiskAssessment): (p: DecisionPath)
    ensures p == ForcedHold <==> risk.approval == Rejected
    ensures p == LeanBuy <==>
      risk.approval != Rejected && (strategy.action == OpenLong || strategy.action == AddPosition) && report.trend == Bullish
    ensures p == CautiousBuy <==>
      risk.approval != Rejected && (strategy.action == OpenLong || strategy.action == AddPosition) && report.trend != Bullish
    ensures p == LeanSell <==>
      risk.approval != Rejected && strategy.action == OpenShort && report.trend == Bearish
    ensures p == CautiousSell <==>
      risk.approval != Rejected && strategy.action == OpenShort && report.trend != Bearish
    ensures p == LeanHold <==>
      risk.approval != Rejected && (strategy.action == ClosePosition || strategy.action == Hold)
  {
    if risk.approval == Rejected then ForcedHold
    else match strategy.action
      case OpenLong => if report.trend == Bullish then LeanBuy else CautiousBuy
      case AddPosition => if report.trend == Bullish then LeanBuy else CautiousBuy
      case OpenShort => if report.trend == Bearish then LeanSell else CautiousSell
      case ClosePosition => LeanHold
      case Hold => LeanHold
  }

  /** A path leaning to trade only arises when the trend matches the
      action, and then the consistency score is at least partial. */
  lemma LeaningPathsAgreeWithConsistency(report: MarketReport, strategy: StrategyAdvice, risk: RiskAssessment)
    ensures DecisionPathOf(report, strategy, risk) in {LeanBuy, LeanSell} <==>
      risk.approval != Rejected && TrendMatches(report.trend, strategy.action)
    ensures DecisionPathOf(report, strategy, risk) in {LeanBuy, LeanSell} ==>
      ConsistencyOf(report, strategy, risk) != Conflicting
  {
  }

  // ================================================================ portfolio coordinator

  datatype SignalQuality = Premium | Good | Fair | Poor

  /** A strong trend in its markup phase is premium, any other strong
      trend good, a medium trend fair, a weak one poor. */
  function QualityOf(report: MarketReport): (q: SignalQuality)
    ensures q == Premium <==> report.strength == Strong && report.marketPhase == Markup
    ensures q == Good <==> report.strength == Strong && report.marketPhase != Markup
    ensures q == Fair <==> report.strength == Medium
    ensures q == Poor <==> report.strength == Weak
  {
    match (report.strength, report.marketPhase)
    case (Strong, Markup) => Premium
    case (Strong, _) => Good
    case (Medium, _) => Fair
    case _ => Poor
  }

  /** One section of the coordinator's summary: its 1-based number, the
      symbol, and the figures and quality it shows. */
  datatype SummarySection = SummarySection(number: nat, symbol: string, report: MarketReport, quality: SignalQuality)

  /** The summary loop: one section per symbol, in input order, numbered
      from 1, each with the quality of its report. */
  method ReportsSummary(reports: seq<(string, MarketReport)>) returns (summary: seq<SummarySection>)
    ensures |summary| == |reports|
    ensures forall i :: 0 <= i < |reports| ==>
      summary[i] == SummarySection(i + 1, reports[i].0, reports[i].1, QualityOf(reports[i].1))
  {
    summary := [];
    for i := 0 to |reports|
      invariant |summary| == i
      invariant forall k :: 0 <= k < i ==>
        summary[k] == SummarySection(k + 1, reports[k].0, reports[k].1, QualityOf(reports[k].1))
    {
      var (symbol, report) := reports[i];
      summary := summary + [SummarySection(i + 1, symbol, report, QualityOf(report))];
    }
  }

  // ================================================================ reading a reply

  datatype ParseError = NoJsonStart | NoJsonEnd | JsonEndBeforeStart | Undecodable(json: string)

  /** Every agent's reply is cut from its first `{` through its last `}`
      and handed to the decoder; a missing brace is an error, and so is a
      last `}` before the first `{` (where the source's slice would panic). */
  function ParseJsonResponse<T>(response: string, decode: string -> Option<T>): (r: Result<T, ParseError>)
    ensures r == Failure(NoJsonStart) <==> '{' !in response
    ensures r == Failure(NoJsonEnd) <==> '{' in response && '}' !in response
    ensures r.Success? <==>
      Text.ExtractJsonObject(response).Success? && decode(Text.ExtractJsonObject(response).value).Some?
    ensures r.Success? ==> r.value == decode(Text.ExtractJsonObject(response).value).value
  {
    match Text.ExtractJsonObject(response)
    case Failure(err) =>
      if err.NoObjectStart? then Failure(NoJsonStart)
      else if err.NoObjectEnd? then Failure(NoJsonEnd)
      else Failure(JsonEndBeforeStart)
    case Success(json) =>
      match decode(json)
      case Some(v) => Success(v)
      case None => Failure(Undecodable(json))
  }
}
