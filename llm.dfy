/** The rule-based parts of the single-agent analysis: the classifications
    the prompt is built from (candle shape, moving-average alignment,
    momentum, volume, position risk), the choice of recent bars, and the
    extraction of the decision object from the model's reply. The model
    call itself, the prompt wording and the JSON decoder are outside the
    model; the decoder is a parameter. */
module Llm {
  import opened Wrappers
  import opened Types
  import opened Numbers
  import Text

  // ---------------------------------------------------------------- recent bars

  function Reverse<T>(s: seq<T>): (r: seq<T>)
    ensures |r| == |s| && forall i :: 0 <= i < |s| ==> r[i] == s[|s| - 1 - i]
  {
    if |s| == 0 then [] else [s[|s| - 1]] + Reverse(s[..|s| - 1])
  }

  /** `iter().take(n)`. */
  function Take<T>(s: seq<T>, n: nat): seq<T>
  {
    if n <= |s| then s[..n] else s
  }

  /** How many recent bars the prompt shows. */
  const RecentCount: nat := 5

  /** `klines.iter().rev().take(5).rev()`: the newest bars, at most five,
      oldest first -- exactly the final min(5, len) bars in their original
      order. */
  function RecentKlines(klines: seq<Kline>): (r: seq<Kline>)
    ensures |r| == if |klines| < RecentCount then |klines| else RecentCount
    ensures r == klines[|klines| - |r|..]
  {
    var r := Reverse(Take(Reverse(klines), RecentCount));
    assert forall i :: 0 <= i < |r| ==> r[i] == klines[|klines| - |r| + i];
    r
  }

  /** `recent_klines.last().unwrap()`: the newest bar. The source unwraps,
      so an empty history is not allowed. */
  function LastKline(klines: seq<Kline>): (k: Kline)
    requires |klines| > 0
    ensures k == klines[|klines| - 1]
  {
    var recent := RecentKlines(klines);
    recent[|recent| - 1]
  }

  // ---------------------------------------------------------------- candle shape

  predicate IsBullish(k: Kline) { k.close > k.open }

  /** The candle body as a fraction of the bar's range, 0 for a bar with no
      positive range. */
  function BodyRatio(k: Kline): (r: real)
    ensures k.high - k.low <= 0.0 ==> r == 0.0
    ensures k.high - k.low > 0.0 ==> r * (k.high - k.low) == Abs(k.close - k.open)
  {
    var bodySize := Abs(k.close - k.open);
    var range := k.high - k.low;
    if range > 0.0 then bodySize / range else 0.0
  }

  /** For a well-formed bar (open and close within [low, high]) the body
      ratio is a fraction between 0 and 1. */
  lemma BodyRatioIsFraction(k: Kline)
    requires k.low <= k.open <= k.high && k.low <= k.close <= k.high
    ensures 0.0 <= BodyRatio(k) <= 1.0
  {
    var range := k.high - k.low;
    if range > 0.0 {
      var body := Abs(k.close - k.open);
      assert BodyRatio(k) == body / range;
      FractionInUnit(body, range);
    }
  }

  // ---------------------------------------------------------------- indicator labels

  datatype MaTrend = BullishAlignment | BearishAlignment

  /** Short-term average above the longer one is a bullish alignment;
      anything else, ties included, bearish. */
  function MaTrendOf(ind: TechnicalIndicators): (t: MaTrend)
    ensures t == BullishAlignment <==> ind.sma5 > ind.sma20
  {
    if ind.sma5 > ind.sma20 then BullishAlignment else BearishAlignment
  }

  datatype Momentum = AcceleratingUp | AcceleratingDown | Consolidating

  const MomentumThreshold: real := 0.5

  /** The one-bar percent change beyond +0.5 is upward acceleration, below
      -0.5 downward acceleration, and anything between consolidation. */
  function MomentumOf(ind: TechnicalIndicators): (m: Momentum)
    ensures m == AcceleratingUp <==> ind.priceChange1 > MomentumThreshold
    ensures m == AcceleratingDown <==> ind.priceChange1 < -MomentumThreshold
    ensures m == Consolidating <==> -MomentumThreshold <= ind.priceChange1 <= MomentumThreshold
  {
    if ind.priceChange1 > MomentumThreshold then AcceleratingUp
    else if ind.priceChange1 < -MomentumThreshold then AcceleratingDown
    else Consolidating
  }

  function MomentumRank(m: Momentum): int
  {
    match m
    case AcceleratingDown => -1
    case Consolidating => 0
    case AcceleratingUp => 1
  }

  /** A larger one-bar change never gives a more bearish momentum label. */
  lemma MomentumMonotone(a: TechnicalIndicators, b: TechnicalIndicators)
    requires a.priceChange1 <= b.priceChange1
    ensures MomentumRank(MomentumOf(a)) <= MomentumRank(MomentumOf(b))
  {
  }

  datatype VolumeStatus = HighVolume | LowVolume | NormalVolume

  const HighVolumeRatio: real := 1.5
  const LowVolumeRatio: real := 0.7

  function VolumeStatusOf(ind: TechnicalIndicators): (v: VolumeStatus)
    ensures v == HighVolume <==> ind.volumeRatio > HighVolumeRatio
    ensures v == LowVolume <==> ind.volumeRatio < LowVolumeRatio
    ensures v == NormalVolume <==> LowVolumeRatio <= ind.volumeRatio <= HighVolumeRatio
  {
    if ind.volumeRatio > HighVolumeRatio then HighVolume
    else if ind.volumeRatio < LowVolumeRatio then LowVolume
    else NormalVolume
  }

  datatype PositionRisk = Flat | InProfit | LargeLoss | SmallLoss

  /** Loss beyond which the prompt suggests a stop (in quote currency). */
  const LargeLossThreshold: real := -10.0

  /** No position is flat; a positive unrealized P&L is a profit; a loss
      below -10 is large; everything else (a break-even included) is a
      small loss. */
  function PositionRiskOf(position: Option<Position>): (r: PositionRisk)
    ensures r == Flat <==> position.None?
    ensures r == InProfit <==> position.Some? && position.value.unrealizedPnl > 0.0
    ensures r == LargeLoss <==> position.Some? && position.value.unrealizedPnl < LargeLossThreshold
    ensures r == SmallLoss <==>
      position.Some? && LargeLossThreshold <= position.value.unrealizedPnl <= 0.0
  {
    match position
    case None => Flat
    case Some(pos) =>
      if pos.unrealizedPnl > 0.0 then InProfit
      else if pos.unrealizedPnl < LargeLossThreshold then LargeLoss
      else SmallLoss
  }

  // ---------------------------------------------------------------- the decision reply

  datatype AnalyzeError =
    | EmptyReply
    | NoJsonStart
    | NoJsonEnd
    | JsonEndBeforeStart
    | DecisionUnreadable(json: string)

  /** Reading the decision from the model's reply: the reply must have
      content, the text from its first `{` through its last `}` is cut out
      and handed to the decoder. A reply whose last `}` comes before its
      first `{` cannot be cut (the source's slice would panic) and is an
      error here. */
  function DecisionFromReply(content: Option<string>, decode: string -> Option<TradingDecision>)
    : (r: Result<TradingDecision, AnalyzeError>)
    ensures content.None? <==> r == Failure(EmptyReply)
    ensures r == Failure(NoJsonStart) <==> content.Some? && '{' !in content.value
    ensures r == Failure(NoJsonEnd) <==> content.Some? && '{' in content.value && '}' !in content.value
    ensures r.Success? <==>
      content.Some? && Text.ExtractJsonObject(content.value).Success? &&
      decode(Text.ExtractJsonObject(content.value).value).Some?
    ensures r.Success? ==> r.value == decode(Text.ExtractJsonObject(content.value).value).value
  {
    match content
    case None => Failure(EmptyReply)
    case Some(text) =>
      match Text.ExtractJsonObject(text)
      case Failure(err) =>
        if err.NoObjectStart? then Failure(NoJsonStart)
        else if err.NoObjectEnd? then Failure(NoJsonEnd)
        else Failure(JsonEndBeforeStart)
      case Success(json) =>
        match decode(json)
        case Some(decision) => Success(decision)
        case None => Failure(DecisionUnreadable(json))
  }

  /** The decoder sees the reply's object exactly: it starts at the first
      `{` and ends at the last `}`, so any prose or code fence around it is
      dropped. */
  lemma DecoderSeesOuterObject(prefix: string, obj: string, suffix: string)
    requires |obj| >= 2 && obj[0] == '{' && obj[|obj| - 1] == '}'
    requires '{' !in prefix && '}' !in suffix
    ensures Text.ExtractJsonObject(prefix + obj + suffix) == Success(obj)
  {
    var text := prefix + obj + suffix;
    var s := |prefix|;
    var e := |prefix| + |obj|;
    assert text[s] == '{' && text[..s] == prefix;
    assert text[e - 1] == '}' && text[e..] == suffix;
    assert text[s..e] == obj;
    var span := Text.JsonObjectSpan(text);
    assert span.Success?;
    var (s', e') := span.value;
    assert '{' !in text[..s'];
    assert s' == s && e' == e;
  }
}
