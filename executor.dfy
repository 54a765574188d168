/** The order executor: exchange quantity rules, the position read from the
    exchange's position-risk records, the hedge-mode switch, and the table
    that turns a trading signal and the current position into market orders.
    HTTP requests, request signing and clocks are outside the model: their
    replies and the current time (`now`, in milliseconds since the epoch)
    are parameters, and the exchange that receives orders is an object
    holding the log of accepted orders. */
module Executor {
  import opened Wrappers
  import opened Types
  import opened Numbers
  import Text

  // ================================================================ step quantization

  /** `x` is a whole number of steps. */
  predicate IsWholeMultiple(x: real, step: real)
    requires step > 0.0
  {
    (x / step).Floor as real == x / step
  }

  /** An integer number of steps is a whole multiple of the step. */
  lemma IntStepsAreWhole(k: int, step: real)
    requires step > 0.0
    ensures IsWholeMultiple(k as real * step, step)
  {
    var m := k as real * step;
    assert m / step == k as real;
    assert (k as real).Floor == k;
  }

  /** floor(value/step)·step brackets `value` from below within one step. */
  lemma FloorStep(value: real, step: real)
    requires step > 0.0
    ensures (value / step).Floor as real * step <= value
    ensures value < (value / step).Floor as real * step + step
    ensures IsWholeMultiple((value / step).Floor as real * step, step)
  {
    FloorBelow(value, step);
    FloorWithinStep(value, step);
    var k := (value / step).Floor;
    var m := k as real * step;
    IntStepsAreWhole(k, step);
    assert IsWholeMultiple(m, step);
    assert m == (value / step).Floor as real * step;
  }

  lemma FloorBelow(value: real, step: real)
    requires step > 0.0
    ensures (value / step).Floor as real * step <= value
  {
    var q := value / step;
    var f := q.Floor as real;
    assert q * step == value;
    assert f * step <= q * step;
  }

  lemma FloorWithinStep(value: real, step: real)
    requires step > 0.0
    ensures value < (value / step).Floor as real * step + step
  {
    var q := value / step;
    var f := q.Floor as real;
    var g := f + 1.0;
    assert q * step == value;
    assert q < g;
    assert q * step < g * step;
    assert g * step == f * step + step;
    var m := f * step;
    assert value < m + step;
    assert m == (value / step).Floor as real * step;
  }

  /** ceil(value/step)·step brackets `value` from above within one step. */
  lemma CeilStep(value: real, step: real)
    requires step > 0.0
    ensures value <= Ceil(value / step) as real * step
    ensures Ceil(value / step) as real * step < value + step
    ensures IsWholeMultiple(Ceil(value / step) as real * step, step)
  {
    CeilAbove(value, step);
    CeilWithinStep(value, step);
    var k := Ceil(value / step);
    var m := k as real * step;
    IntStepsAreWhole(k, step);
    assert IsWholeMultiple(m, step);
    assert m == Ceil(value / step) as real * step;
  }

  lemma CeilAbove(value: real, step: real)
    requires step > 0.0
    ensures value <= Ceil(value / step) as real * step
  {
    var q := value / step;
    var c := Ceil(q) as real;
    assert q * step == value;
    assert q <= c;
    assert q * step <= c * step;
  }

  lemma CeilWithinStep(value: real, step: real)
    requires step > 0.0
    ensures Ceil(value / step) as real * step < value + step
  {
    var q := value / step;
    var c := Ceil(q) as real;
    var g := c - 1.0;
    assert q * step == value;
    assert g < q;
    assert g * step < q * step;
    assert g * step == c * step - step;
    var m := c * step;
    assert m < value + step;
    assert m == Ceil(value / step) as real * step;
  }

  /** The least integer at or above `x`. */
  function Ceil(x: real): int
  {
    -((-x).Floor)
  }

  /** `quantize_down`: round `value` down to a whole number of steps, never
      below zero; a step of zero or less leaves the value as it is. */
  function QuantizeDown(value: real, step: real): (r: real)
    ensures step <= 0.0 ==> r == value
    ensures step > 0.0 ==> r >= 0.0 && IsWholeMultiple(r, step)
    ensures step > 0.0 && value >= 0.0 ==> r <= value && value - r < step
    ensures step > 0.0 && value < 0.0 ==> r == 0.0
  {
    if step <= 0.0 then value
    else
      FloorStep(value, step);
      assert IsWholeMultiple(0.0, step);
      Max((value / step).Floor as real * step, 0.0)
  }

  /** `quantize_up`: round `value` up to a whole number of steps, never below
      zero; a step of zero or less leaves the value as it is. */
  function QuantizeUp(value: real, step: real): (r: real)
    ensures step <= 0.0 ==> r == value
    ensures step > 0.0 ==> r >= 0.0 && r >= value && IsWholeMultiple(r, step)
    ensures step > 0.0 && value >= 0.0 ==> r - value < step
    ensures step > 0.0 && value <= 0.0 ==> r == 0.0
  {
    if step <= 0.0 then value
    else
      CeilStep(value, step);
      assert IsWholeMultiple(0.0, step);
      Max(Ceil(value / step) as real * step, 0.0)
  }

  /** Rounding down never exceeds rounding up. */
  lemma QuantizeDownAtMostUp(value: real, step: real)
    ensures QuantizeDown(value, step) <= QuantizeUp(value, step)
  {
    if step > 0.0 {
      FloorStep(value, step);
      CeilStep(value, step);
    }
  }

  /** `QuantizeDown` gives the largest non-negative whole multiple of the
      step that does not exceed the value: no multiple `k·step` lies strictly
      between the result and the value. */
  lemma QuantizeDownIsGreatest(value: real, step: real, k: int)
    requires step > 0.0
    requires k as real * step <= value
    ensures k as real * step <= QuantizeDown(value, step)
  {
    var q := value / step;
    assert q * step == value;
    assert (k as real) * step <= q * step;
    assert k as real <= q;
    assert k <= q.Floor;
    assert k as real * step <= q.Floor as real * step;
  }

  /** `QuantizeUp` gives the least whole multiple of the step at or above
      the value, among the non-negative ones. */
  lemma QuantizeUpIsLeast(value: real, step: real, k: int)
    requires step > 0.0
    requires value <= k as real * step && k >= 0
    ensures QuantizeUp(value, step) <= k as real * step
  {
    var q := value / step;
    assert q * step == value;
    assert q * step <= (k as real) * step;
    assert q <= k as real;
    assert -k <= (-q).Floor;
    assert Ceil(q) as real * step <= k as real * step;
  }

  /** Quantizing an already quantized value changes nothing, in either direction. */
  lemma QuantizeIdempotent(value: real, step: real)
    ensures QuantizeDown(QuantizeDown(value, step), step) == QuantizeDown(value, step)
    ensures QuantizeUp(QuantizeDown(value, step), step) == QuantizeDown(value, step)
  {
    if step > 0.0 {
      var r := QuantizeDown(value, step);
      var k := (r / step).Floor;
      assert k as real == r / step;
      assert k as real * step == r;
      QuantizeDownIsGreatest(r, step, k);
      assert r >= 0.0;
      assert k >= 0;
      QuantizeUpIsLeast(r, step, k);
    }
  }

  // ================================================================ symbol constraints

  /** Exchange quantity and price rules of one symbol. */
  datatype SymbolConstraints = SymbolConstraints(
    stepSize: real, minQty: real, maxQty: Option<real>, minNotional: real, tickSize: real)

  /** A filter record of the exchange-information reply, with its numbers
      still as text. Filter types the bot does not read are `OtherFilter`. */
  datatype ExchangeFilter =
    | LotSize(minQty: string, maxQty: string, stepSize: string)
    | PriceFilter(tickSize: string)
    | MinNotional(notional: string)
    | OtherFilter

  /** One symbol's entry in the exchange-information reply. */
  datatype ExchangeInfoSymbol = ExchangeInfoSymbol(symbol: string, filters: seq<ExchangeFilter>)

  /** The five fields gathered while scanning the filters; `None` means "not
      seen yet" (for `maxQty`, also "seen with a bound of zero or less"). */
  datatype FilterScan = FilterScan(
    stepSize: Option<real>, minQty: Option<real>, maxQty: Option<real>,
    minNotional: Option<real>, tickSize: Option<real>)

  const EmptyScan := FilterScan(None, None, None, None, None)

  /** The effect of one filter on the scan: a filter overwrites the fields it carries. */
  function ScanFilter(st: FilterScan, f: ExchangeFilter): FilterScan
  {
    match f
    case LotSize(min, max, step) =>
      var mq := ParseFloat(max);
      st.(minQty := Some(ParseFloat(min)),
          maxQty := if mq > 0.0 then Some(mq) else None,
          stepSize := Some(ParseFloat(step)))
    case PriceFilter(tick) => st.(tickSize := Some(ParseFloat(tick)))
    case MinNotional(notional) => st.(minNotional := Some(ParseFloat(notional)))
    case OtherFilter => st
  }

  /** The scan after all of `filters`, in order. */
  function ScanAll(filters: seq<ExchangeFilter>): FilterScan
  {
    if |filters| == 0 then EmptyScan else ScanFilter(ScanAll(filters[..|filters| - 1]), filters[|filters| - 1])
  }

  /** The constraints a filter list describes: missing fields default to 0. */
  function ConstraintsOf(filters: seq<ExchangeFilter>): SymbolConstraints
  {
    var st := ScanAll(filters);
    SymbolConstraints(st.stepSize.GetOr(0.0), st.minQty.GetOr(0.0), st.maxQty,
                      st.minNotional.GetOr(0.0), st.tickSize.GetOr(0.0))
  }

  /** The filter loop of `fetch_symbol_constraints` for one symbol. */
  method BuildConstraints(filters: seq<ExchangeFilter>) returns (c: SymbolConstraints)
    ensures c == ConstraintsOf(filters)
  {
    var stepSize: Option<real> := None;
    var minQty: Option<real> := None;
    var maxQty: Option<real> := None;
    var minNotional: Option<real> := None;
    var tickSize: Option<real> := None;
    for i := 0 to |filters|
      invariant FilterScan(stepSize, minQty, maxQty, minNotional, tickSize) == ScanAll(filters[..i])
    {
      assert filters[..i + 1][..i] == filters[..i];
      match filters[i] {
        case LotSize(min, max, step) =>
          minQty := Some(ParseFloat(min));
          var mq := ParseFloat(max);
          maxQty := if mq > 0.0 then Some(mq) else None;
          stepSize := Some(ParseFloat(step));
        case PriceFilter(tick) =>
          tickSize := Some(ParseFloat(tick));
        case MinNotional(notional) =>
          minNotional := Some(ParseFloat(notional));
        case OtherFilter =>
      }
    }
    assert filters[..|filters|] == filters;
    c := SymbolConstraints(stepSize.GetOr(0.0), minQty.GetOr(0.0), maxQty,
                           minNotional.GetOr(0.0), tickSize.GetOr(0.0));
  }

  /** The lot-size fields come from the LAST lot-size filter: its minimum and
      step, and its maximum when positive (otherwise no maximum). */
  lemma {:induction false} LastLotSizeWins(filters: seq<ExchangeFilter>, j: nat)
    requires j < |filters| && filters[j].LotSize?
    requires forall k :: j < k < |filters| ==> !filters[k].LotSize?
    ensures var c := ConstraintsOf(filters); var mq := ParseFloat(filters[j].maxQty);
      c.minQty == ParseFloat(filters[j].minQty) &&
      c.stepSize == ParseFloat(filters[j].stepSize) &&
      c.maxQty == (if mq > 0.0 then Some(mq) else None)
  {
    LotSizeFieldsAfter(filters, j);
  }

  lemma {:induction false} LotSizeFieldsAfter(filters: seq<ExchangeFilter>, j: nat)
    requires j < |filters| && filters[j].LotSize?
    requires forall k :: j < k < |filters| ==> !filters[k].LotSize?
    ensures var st := ScanAll(filters); var mq := ParseFloat(filters[j].maxQty);
      st.minQty == Some(ParseFloat(filters[j].minQty)) &&
      st.stepSize == Some(ParseFloat(filters[j].stepSize)) &&
      st.maxQty == (if mq > 0.0 then Some(mq) else None)
  {
    if j < |filters| - 1 {
      LotSizeFieldsAfter(filters[..|filters| - 1], j);
    }
  }

  /** Without any lot-size filter, step and minimum are 0 and there is no maximum. */
  lemma {:induction false} NoLotSizeDefaults(filters: seq<ExchangeFilter>)
    requires forall k :: 0 <= k < |filters| ==> !filters[k].LotSize?
    ensures ConstraintsOf(filters).stepSize == 0.0
    ensures ConstraintsOf(filters).minQty == 0.0
    ensures ConstraintsOf(filters).maxQty == None
  {
    NoLotSizeScan(filters);
  }

  lemma {:induction false} NoLotSizeScan(filters: seq<ExchangeFilter>)
    requires forall k :: 0 <= k < |filters| ==> !filters[k].LotSize?
    ensures ScanAll(filters).stepSize == None
    ensures ScanAll(filters).minQty == None
    ensures ScanAll(filters).maxQty == None
  {
    if |filters| > 0 { NoLotSizeScan(filters[..|filters| - 1]); }
  }

  /** The tick size comes from the last price filter. */
  lemma {:induction false} LastPriceFilterWins(filters: seq<ExchangeFilter>, j: nat)
    requires j < |filters| && filters[j].PriceFilter?
    requires forall k :: j < k < |filters| ==> !filters[k].PriceFilter?
    ensures ConstraintsOf(filters).tickSize == ParseFloat(filters[j].tickSize)
  {
    if j < |filters| - 1 {
      LastPriceFilterWins(filters[..|filters| - 1], j);
    }
  }

  /** Without a price filter the tick size is 0. */
  lemma {:induction false} NoPriceFilterDefault(filters: seq<ExchangeFilter>)
    requires forall k :: 0 <= k < |filters| ==> !filters[k].PriceFilter?
    ensures ConstraintsOf(filters).tickSize == 0.0
  {
    if |filters| > 0 { NoPriceFilterDefault(filters[..|filters| - 1]); }
  }

  /** The minimum notional comes from the last min-notional filter. */
  lemma {:induction false} LastMinNotionalWins(filters: seq<ExchangeFilter>, j: nat)
    requires j < |filters| && filters[j].MinNotional?
    requires forall k :: j < k < |filters| ==> !filters[k].MinNotional?
    ensures ConstraintsOf(filters).minNotional == ParseFloat(filters[j].notional)
  {
    if j < |filters| - 1 {
      LastMinNotionalWins(filters[..|filters| - 1], j);
    }
  }

  /** Without a min-notional filter the minimum notional is 0. */
  lemma {:induction false} NoMinNotionalDefault(filters: seq<ExchangeFilter>)
    requires forall k :: 0 <= k < |filters| ==> !filters[k].MinNotional?
    ensures ConstraintsOf(filters).minNotional == 0.0
  {
    if |filters| > 0 { NoMinNotionalDefault(filters[..|filters| - 1]); }
  }

  /** A maximum quantity, when present, is positive. */
  lemma {:induction false} MaxQtyPositive(filters: seq<ExchangeFilter>)
    ensures ConstraintsOf(filters).maxQty.Some? ==> ConstraintsOf(filters).maxQty.value > 0.0
  {
    if |filters| > 0 { MaxQtyPositive(filters[..|filters| - 1]); }
  }

  /** Why the rules of a symbol could not be obtained. */
  datatype RulesError =
    | RulesRequestFailed(symbol: string)   // the request or its JSON decoding failed
    | SymbolNotListed(symbol: string)      // the reply has no entry for the symbol

  /** `Iterator::find`: the first entry for `symbol`. */
  function FindSymbol(infos: seq<ExchangeInfoSymbol>, symbol: string): (r: Option<ExchangeInfoSymbol>)
    ensures r.Some? ==> r.value.symbol == symbol && r.value in infos
    ensures r.Some? ==> exists i :: 0 <= i < |infos| && infos[i] == r.value &&
                                    forall j :: 0 <= j < i ==> infos[j].symbol != symbol
    ensures r.None? ==> forall i :: 0 <= i < |infos| ==> infos[i].symbol != symbol
  {
    if |infos| == 0 then None
    else if infos[0].symbol == symbol then Some(infos[0])
    else
      var rest := FindSymbol(infos[1..], symbol);
      if rest.Some? then
        var i :| 0 <= i < |infos[1..]| && infos[1..][i] == rest.value &&
                 forall j :: 0 <= j < i ==> infos[1..][j].symbol != symbol;
        assert infos[i + 1] == rest.value;
        assert forall j :: 0 <= j < i + 1 ==> infos[j].symbol != symbol by {
          forall j | 0 <= j < i + 1 ensures infos[j].symbol != symbol {
            if j > 0 { assert infos[j] == infos[1..][j - 1]; }
          }
        }
        rest
      else rest
  }

  /** The rules of one symbol given the exchange's reply to its request
      (`None` when the request or decoding failed). */
  function RulesFor(reply: Option<seq<ExchangeInfoSymbol>>, symbol: string): (r: Result<SymbolConstraints, RulesError>)
    ensures r.Failure? <==> reply.None? || FindSymbol(reply.value, symbol).None?
  {
    match reply
    case None => Failure(RulesRequestFailed(symbol))
    case Some(infos) =>
      match FindSymbol(infos, symbol)
      case None => Failure(SymbolNotListed(symbol))
      case Some(info) => Success(ConstraintsOf(info.filters))
  }

  /** `fetch_symbol_constraints`: the rules of every configured symbol, keyed
      by symbol; the first symbol whose rules cannot be obtained ends the
      whole fetch with its error. `exchangeInfo` is the exchange's reply to
      the per-symbol request. */
  method FetchSymbolConstraints(symbols: seq<string>, exchangeInfo: string -> Option<seq<ExchangeInfoSymbol>>)
    returns (r: Result<map<string, SymbolConstraints>, RulesError>)
    ensures r.Success? <==> forall i :: 0 <= i < |symbols| ==> RulesFor(exchangeInfo(symbols[i]), symbols[i]).Success?
    ensures r.Success? ==> forall s :: s in r.value <==> s in symbols
    ensures r.Success? ==> forall s :: s in r.value ==> Success(r.value[s]) == RulesFor(exchangeInfo(s), s)
    ensures r.Failure? ==>
      exists i :: (0 <= i < |symbols| &&
                   RulesFor(exchangeInfo(symbols[i]), symbols[i]) == Failure(r.error) &&
                   forall k :: 0 <= k < i ==> RulesFor(exchangeInfo(symbols[k]), symbols[k]).Success?)
  {
    var m: map<string, SymbolConstraints> := map[];
    for i := 0 to |symbols|
      invariant forall k :: 0 <= k < i ==> RulesFor(exchangeInfo(symbols[k]), symbols[k]).Success?
      invariant forall s :: s in m <==> s in symbols[..i]
      invariant forall s :: s in m ==> Success(m[s]) == RulesFor(exchangeInfo(s), s)
    {
      var symbol := symbols[i];
      match exchangeInfo(symbol) {
        case None =>
          return Failure(RulesRequestFailed(symbol));
        case Some(infos) =>
          var info := FindSymbol(infos, symbol);
          if info.None? {
            return Failure(SymbolNotListed(symbol));
          }
          var c := BuildConstraints(info.value.filters);
          m := m[symbol := c];
      }
    }
    assert symbols[..|symbols|] == symbols;
    return Success(m);
  }

  // ================================================================ current position

  /** The account reply: wallet and available balances, as text. */
  datatype AccountInfo = AccountInfo(totalWalletBalance: string, availableBalance: string)

  /** A record of the exchange's position-risk reply, numbers as text. */
  datatype PositionRisk = PositionRisk(symbol: string, positionAmt: string, entryPrice: string, unRealizedProfit: string)

  /** A position amount below this in magnitude counts as flat. */
  const FlatThreshold: real := 0.0001

  /** The position one record describes: flat when the signed amount is
      below the threshold in magnitude, otherwise long for a positive and
      short for a negative amount, with the magnitude as its size. */
  function PositionFromRecord(rec: PositionRisk): (p: Option<Position>)
    ensures var amt := ParseFloat(rec.positionAmt);
      && (p.None? <==> Abs(amt) < FlatThreshold)
      && (p.Some? ==> p.value.amount == Abs(amt) >= FlatThreshold)
      && (p.Some? ==> (p.value.side == Long <==> amt > 0.0))
      && (p.Some? ==> p.value.entryPrice == ParseFloat(rec.entryPrice))
      && (p.Some? ==> p.value.unrealizedPnl == ParseFloat(rec.unRealizedProfit))
  {
    var amount := ParseFloat(rec.positionAmt);
    if Abs(amount) < FlatThreshold then None
    else
      var side := if amount > 0.0 then Long else Short;
      Some(Position(side, Abs(amount), ParseFloat(rec.entryPrice), ParseFloat(rec.unRealizedProfit)))
  }

  /** The position the records give for `symbol`, read front to back. */
  function PositionOf(symbol: string, records: seq<PositionRisk>): Option<Position>
  {
    if |records| == 0 then None
    else if records[0].symbol == symbol then PositionFromRecord(records[0])
    else PositionOf(symbol, records[1..])
  }

  /** The search loop of `get_position`: the FIRST record for the symbol
      decides (later records for it are ignored, whatever their size); no
      record for it means flat. */
  method GetPosition(symbol: string, records: seq<PositionRisk>) returns (p: Option<Position>)
    ensures p == PositionOf(symbol, records)
    ensures (forall k :: 0 <= k < |records| ==> records[k].symbol != symbol) ==> p == None
    ensures forall j :: (0 <= j < |records| && records[j].symbol == symbol &&
                         (forall k :: 0 <= k < j ==> records[k].symbol != symbol)) ==>
                        p == PositionFromRecord(records[j])
  {
    for i := 0 to |records|
      invariant forall k :: 0 <= k < i ==> records[k].symbol != symbol
      invariant PositionOf(symbol, records) == PositionOf(symbol, records[i..])
    {
      assert records[i..][1..] == records[i + 1..];
      var pos := records[i];
      if pos.symbol == symbol {
        var amount := ParseFloat(pos.positionAmt);
        if Abs(amount) < FlatThreshold {
          return None;
        }
        var side := if amount > 0.0 then Long else Short;
        return Some(Position(side, Abs(amount), ParseFloat(pos.entryPrice), ParseFloat(pos.unRealizedProfit)));
      }
    }
    return None;
  }

  // ================================================================ hedge mode

  /** The exchange's error code for "the account is already in this position mode". */
  const AlreadyInModeCode: string := "-4059"

  /** Body text used when the error body cannot be read. */
  const UnknownErrorText: string := "未知错误"

  /** Why switching to hedge mode failed: the HTTP status and the error body. */
  datatype ModeError = ModeError(status: int, body: string)

  /** The reply handling of `set_dual_position_mode`: success, or a failure
      whose body mentions the already-in-mode code, both count as done;
      any other failure is an error carrying the body (or the fallback text
      when the body could not be read). */
  function DualModeOutcome(status: int, success: bool, body: Option<string>): (r: Result<(), ModeError>)
    ensures r.Success? <==> success || (body.Some? && exists i :: Text.OccursAt(body.value, AlreadyInModeCode, i))
    ensures r.Failure? ==> r.error.status == status && r.error.body == body.GetOr(UnknownErrorText)
  {
    if success then Success(())
    else
      var text := body.GetOr(UnknownErrorText);
      if Text.Contains(text, AlreadyInModeCode) then Success(())
      else
        assert body.None? ==> !Text.OccursAt(text, AlreadyInModeCode, 0);
        Failure(ModeError(status, text))
  }

  // ================================================================ orders

  /** The `side` parameter of an order. */
  datatype OrderSide = BuySide | SellSide

  /** A market order as sent: symbol, side, position side and quantity. */
  datatype Order = Order(symbol: string, side: OrderSide, positionSide: PositionSide, quantity: real)

  /** The four order helpers. */
  datatype OrderKind = OpenLongOrder | CloseLongOrder | OpenShortOrder | CloseShortOrder

  /** `open_long`, `close_long`, `open_short`, `close_short`: the side and
      position side each helper sends. */
  function Leg(kind: OrderKind): (r: (OrderSide, PositionSide))
    ensures r.1 == Long <==> kind == OpenLongOrder || kind == CloseLongOrder
    ensures r.0 == BuySide <==> kind == OpenLongOrder || kind == CloseShortOrder
  {
    match kind
    case OpenLongOrder => (BuySide, Long)
    case CloseLongOrder => (SellSide, Long)
    case OpenShortOrder => (SellSide, Short)
    case CloseShortOrder => (BuySide, Short)
  }

  /** Distinct helpers send distinct (side, position side) pairs, and opening
      and closing one position side trade in opposite directions. */
  lemma LegsDistinct(a: OrderKind, b: OrderKind)
    ensures a != b ==> Leg(a) != Leg(b)
    ensures Leg(OpenLongOrder).0 != Leg(CloseLongOrder).0
    ensures Leg(OpenShortOrder).0 != Leg(CloseShortOrder).0
  {
  }

  function MakeOrder(symbol: string, kind: OrderKind, quantity: real): Order
  {
    Order(symbol, Leg(kind).0, Leg(kind).1, quantity)
  }

  /** The exchange's answer to one order request. */
  datatype OrderReply = Accepted(info: string) | Rejected(error: string)

  /** Error reported for an order attempted when the exchange gives no reply. */
  const NoReplyError: string := "order request failed"

  /** The outcome of an order request given the exchange's pending answers:
      the first answer, or a transport failure when none is left. */
  function ReplyOutcome(replies: seq<OrderReply>): Result<string, string>
  {
    if |replies| == 0 then Failure(NoReplyError)
    else match replies[0]
      case Accepted(info) => Success(info)
      case Rejected(e) => Failure(e)
  }

  /** The exchange's answers left after one order request. */
  function AfterReply(replies: seq<OrderReply>): seq<OrderReply>
  {
    if |replies| == 0 then [] else replies[1..]
  }

  /** The exchange as the executor sees it: the orders it has accepted, oldest
      first, and its answers to the order requests still to come. */
  class Exchange {
    var log: seq<Order>
    var replies: seq<OrderReply>

    constructor (replies: seq<OrderReply>)
      ensures log == [] && this.replies == replies
    {
      log := [];
      this.replies := replies;
    }

    /** `place_order`: send one market order; an accepted order joins the
        log, a rejected or failed one does not. */
    method PlaceOrder(symbol: string, kind: OrderKind, quantity: real) returns (r: Result<string, string>)
      modifies this
      ensures r == ReplyOutcome(old(replies))
      ensures replies == AfterReply(old(replies))
      ensures log == if r.Success? then old(log) + [MakeOrder(symbol, kind, quantity)] else old(log)
    {
      r := ReplyOutcome(replies);
      replies := AfterReply(replies);
      if r.Success? {
        log := log + [MakeOrder(symbol, kind, quantity)];
      }
    }
  }

  // ================================================================ executing a decision

  /** What executing a decision did: the result or error, the orders the
      exchange accepted, and the answers left. */
  datatype Execution = Execution(result: Result<TradeResult, string>, placed: seq<Order>, rest: seq<OrderReply>)

  /** The orders the decision table calls for, in the order they are sent. */
  function PlannedOrders(symbol: string, signal: Signal, pos: Option<Position>, tradeAmount: real, maxPosition: real): seq<Order>
  {
    match signal
    case Hold => []
    case Buy =>
      if pos.None? then [MakeOrder(symbol, OpenLongOrder, tradeAmount)]
      else if pos.value.side == Short then
        [MakeOrder(symbol, CloseShortOrder, pos.value.amount), MakeOrder(symbol, OpenLongOrder, tradeAmount)]
      else if pos.value.amount + tradeAmount > maxPosition then []
      else [MakeOrder(symbol, OpenLongOrder, tradeAmount)]
    case Sell =>
      if pos.None? then [MakeOrder(symbol, OpenShortOrder, tradeAmount)]
      else if pos.value.side == Long then
        [MakeOrder(symbol, CloseLongOrder, pos.value.amount), MakeOrder(symbol, OpenShortOrder, tradeAmount)]
      else if pos.value.amount + tradeAmount > maxPosition then []
      else [MakeOrder(symbol, OpenShortOrder, tradeAmount)]
  }

  /** The realized P&L of closing `pos` at `price`. */
  function ClosePnl(pos: Position, price: real): real
  {
    match pos.side
    case Short => (pos.entryPrice - price) * pos.amount
    case Long => (price - pos.entryPrice) * pos.amount
  }

  /** `execute_decision` in one direction: `dir` is the side the signal opens
      (Long for Buy, Short for Sell). */
  function ExecuteToward(dir: PositionSide, symbol: string, reason: string, pos: Option<Position>,
                         price: real, tradeAmount: real, maxPosition: real, now: int,
                         replies: seq<OrderReply>): Execution
  {
    var open := if dir == Long then OpenLongOrder else OpenShortOrder;
    var close := if dir == Long then CloseShortOrder else CloseLongOrder;
    var action := if dir == Long then TradeAction.OpenLong else TradeAction.OpenShort;
    if pos.None? then
      match ReplyOutcome(replies)
      case Failure(e) => Execution(Failure(e), [], AfterReply(replies))
      case Success(info) =>
        Execution(Success(TradeResult(symbol, action, price, tradeAmount, now, AsDecided(reason), None, Placed(info))),
                  [MakeOrder(symbol, open, tradeAmount)], AfterReply(replies))
    else if pos.value.side != dir then
      var p := pos.value;
      match ReplyOutcome(replies)
      case Failure(e) => Execution(Failure(e), [], AfterReply(replies))
      case Success(closeInfo) =>
        var pnl := ClosePnl(p, price);
        var more := AfterReply(replies);
        var closed := [MakeOrder(symbol, close, p.amount)];
        match ReplyOutcome(more)
        case Failure(e) => Execution(Failure(e), closed, AfterReply(more))
        case Success(openInfo) =>
          Execution(Success(TradeResult(symbol, action, price, tradeAmount, now, AfterClosing(reason, pnl),
                                        Some(pnl), ClosedThenOpened(closeInfo, openInfo))),
                    closed + [MakeOrder(symbol, open, tradeAmount)], AfterReply(more))
    else
      var p := pos.value;
      var newTotal := p.amount + tradeAmount;
      if newTotal > maxPosition then
        Execution(Success(TradeResult(symbol, TradeAction.Hold, price, 0.0, now, AtMaxPosition(p.amount, maxPosition),
                                      None, NoDetails)), [], replies)
      else
        match ReplyOutcome(replies)
        case Failure(e) => Execution(Failure(e), [], AfterReply(replies))
        case Success(info) =>
          Execution(Success(TradeResult(symbol, action, price, tradeAmount, now, AddedTo(reason, p.amount, newTotal),
                                        None, Placed(info))),
                    [MakeOrder(symbol, open, tradeAmount)], AfterReply(replies))
  }

  /** `execute_decision` given the exchange's answers to the orders it sends. */
  function Execute(symbol: string, decision: TradingDecision, pos: Option<Position>, price: real,
                   tradeAmount: real, maxPosition: real, now: int, replies: seq<OrderReply>): Execution
  {
    match decision.signal
    case Hold =>
      Execution(Success(TradeResult(symbol, TradeAction.Hold, price, 0.0, now, AsDecided(decision.reason), None, NoDetails)),
                [], replies)
    case Buy => ExecuteToward(Long, symbol, decision.reason, pos, price, tradeAmount, maxPosition, now, replies)
    case Sell => ExecuteToward(Short, symbol, decision.reason, pos, price, tradeAmount, maxPosition, now, replies)
  }

  /** One direction of `execute_decision`, sending its orders to `ex`. */
  method ExecuteTowardOn(ex: Exchange, dir: PositionSide, symbol: string, reason: string, pos: Option<Position>,
                         price: real, tradeAmount: real, maxPosition: real, now: int)
    returns (r: Result<TradeResult, string>)
    modifies ex
    ensures var x := ExecuteToward(dir, symbol, reason, pos, price, tradeAmount, maxPosition, now, old(ex.replies));
      r == x.result && ex.log == old(ex.log) + x.placed && ex.replies == x.rest
  {
    var open := if dir == Long then OpenLongOrder else OpenShortOrder;
    var close := if dir == Long then CloseShortOrder else CloseLongOrder;
    var action := if dir == Long then TradeAction.OpenLong else TradeAction.OpenShort;
    match pos {
      case None =>
        var sent := ex.PlaceOrder(symbol, open, tradeAmount);
        if sent.Failure? { return Failure(sent.error); }
        return Success(TradeResult(symbol, action, price, tradeAmount, now, AsDecided(reason), None, Placed(sent.value)));
      case Some(p) =>
        if p.side != dir {
          var closeSent := ex.PlaceOrder(symbol, close, p.amount);
          if closeSent.Failure? { return Failure(closeSent.error); }
          var pnl := ClosePnl(p, price);
          var openSent := ex.PlaceOrder(symbol, open, tradeAmount);
          if openSent.Failure? { return Failure(openSent.error); }
          return Success(TradeResult(symbol, action, price, tradeAmount, now, AfterClosing(reason, pnl), Some(pnl),
                                     ClosedThenOpened(closeSent.value, openSent.value)));
        }
        var newTotal := p.amount + tradeAmount;
        if newTotal > maxPosition {
          return Success(TradeResult(symbol, TradeAction.Hold, price, 0.0, now, AtMaxPosition(p.amount, maxPosition),
                                     None, NoDetails));
        }
        var sent := ex.PlaceOrder(symbol, open, tradeAmount);
        if sent.Failure? { return Failure(sent.error); }
        return Success(TradeResult(symbol, action, price, tradeAmount, now, AddedTo(reason, p.amount, newTotal),
                                   None, Placed(sent.value)));
    }
  }

  /** `execute_decision`: carry out a decision against the exchange. */
  method ExecuteDecision(ex: Exchange, symbol: string, decision: TradingDecision, pos: Option<Position>,
                         price: real, tradeAmount: real, maxPosition: real, now: int)
    returns (r: Result<TradeResult, string>)
    modifies ex
    ensures var x := Execute(symbol, decision, pos, price, tradeAmount, maxPosition, now, old(ex.replies));
      r == x.result && ex.log == old(ex.log) + x.placed && ex.replies == x.rest
  {
    match decision.signal {
      case Hold =>
        return Success(TradeResult(symbol, TradeAction.Hold, price, 0.0, now, AsDecided(decision.reason), None, NoDetails));
      case Buy =>
        r := ExecuteTowardOn(ex, Long, symbol, decision.reason, pos, price, tradeAmount, maxPosition, now);
      case Sell =>
        r := ExecuteTowardOn(ex, Short, symbol, decision.reason, pos, price, tradeAmount, maxPosition, now);
    }
  }

  // ================================================================ properties of the decision table

  /** `xs` is a prefix of `ys`. */
  predicate IsPrefix<T(==)>(xs: seq<T>, ys: seq<T>) { |xs| <= |ys| && ys[..|xs|] == xs }

  /** A Hold signal sends no order, consumes no exchange answer and reports
      Hold with amount 0, no P&L and the current price. */
  lemma HoldSendsNothing(symbol: string, decision: TradingDecision, pos: Option<Position>, price: real,
                         tradeAmount: real, maxPosition: real, now: int, replies: seq<OrderReply>)
    requires decision.signal == Signal.Hold
    ensures var x := Execute(symbol, decision, pos, price, tradeAmount, maxPosition, now, replies);
      x.placed == [] && x.rest == replies && x.result.Success? &&
      x.result.value.action == TradeAction.Hold && x.result.value.amount == 0.0 &&
      x.result.value.pnl == None && x.result.value.price == price
  {
  }

  /** Whatever the exchange answers, the accepted orders are the leading
      part of the planned ones, in plan order, and the execution succeeds
      exactly when every planned order was accepted. A failure therefore
      leaves any earlier accepted order in the log. */
  lemma {:induction false} PlacedFollowsPlan(symbol: string, decision: TradingDecision, pos: Option<Position>,
                                             price: real, tradeAmount: real, maxPosition: real, now: int,
                                             replies: seq<OrderReply>)
    ensures var x := Execute(symbol, decision, pos, price, tradeAmount, maxPosition, now, replies);
      var plan := PlannedOrders(symbol, decision.signal, pos, tradeAmount, maxPosition);
      IsPrefix(x.placed, plan) && (x.result.Success? <==> x.placed == plan)
  {
    var x := Execute(symbol, decision, pos, price, tradeAmount, maxPosition, now, replies);
    var plan := PlannedOrders(symbol, decision.signal, pos, tradeAmount, maxPosition);
    match decision.signal
    case Hold =>
    case Buy =>
      TowardFollowsPlan(Long, symbol, decision.reason, pos, price, tradeAmount, maxPosition, now, replies);
    case Sell =>
      TowardFollowsPlan(Short, symbol, decision.reason, pos, price, tradeAmount, maxPosition, now, replies);
  }

  lemma TowardFollowsPlan(dir: PositionSide, symbol: string, reason: string, pos: Option<Position>,
                          price: real, tradeAmount: real, maxPosition: real, now: int, replies: seq<OrderReply>)
    ensures var x := ExecuteToward(dir, symbol, reason, pos, price, tradeAmount, maxPosition, now, replies);
      var plan := PlannedOrders(symbol, if dir == Long then Buy else Sell, pos, tradeAmount, maxPosition);
      IsPrefix(x.placed, plan) && (x.result.Success? <==> x.placed == plan)
  {
    var x := ExecuteToward(dir, symbol, reason, pos, price, tradeAmount, maxPosition, now, replies);
    var plan := PlannedOrders(symbol, if dir == Long then Buy else Sell, pos, tradeAmount, maxPosition);
    if pos.Some? && pos.value.side != dir && ReplyOutcome(replies).Success? {
      assert |plan| == 2;
      assert plan[..1] == [plan[0]];
    }
  }

  /** Adding to a position on the signal's own side is refused (Hold, amount
      0, no order, no answer consumed) exactly when the new total would
      exceed `maxPosition`; otherwise exactly one opening order of
      `tradeAmount` is planned. */
  lemma AddingRespectsMaxPosition(symbol: string, decision: TradingDecision, p: Position, price: real,
                                  tradeAmount: real, maxPosition: real, now: int, replies: seq<OrderReply>)
    requires (decision.signal == Buy && p.side == Long) || (decision.signal == Sell && p.side == Short)
    ensures var plan := PlannedOrders(symbol, decision.signal, Some(p), tradeAmount, maxPosition);
      var open := if p.side == Long then OpenLongOrder else OpenShortOrder;
      (plan == [] <==> p.amount + tradeAmount > maxPosition) &&
      (plan != [] ==> plan == [MakeOrder(symbol, open, tradeAmount)])
    ensures var x := Execute(symbol, decision, Some(p), price, tradeAmount, maxPosition, now, replies);
      p.amount + tradeAmount > maxPosition ==>
        x.placed == [] && x.rest == replies && x.result.Success? &&
        x.result.value.action == TradeAction.Hold && x.result.value.amount == 0.0 && x.result.value.pnl == None
  {
  }

  /** A signal against the held side first closes the WHOLE position, then
      opens `tradeAmount` on the signal's side; `maxPosition` plays no part. */
  lemma ReversalClosesThenOpens(symbol: string, decision: TradingDecision, p: Position,
                                tradeAmount: real, maxPosition: real, otherMax: real)
    requires (decision.signal == Buy && p.side == Short) || (decision.signal == Sell && p.side == Long)
    ensures var plan := PlannedOrders(symbol, decision.signal, Some(p), tradeAmount, maxPosition);
      var close := if p.side == Short then CloseShortOrder else CloseLongOrder;
      var open := if p.side == Short then OpenLongOrder else OpenShortOrder;
      plan == [MakeOrder(symbol, close, p.amount), MakeOrder(symbol, open, tradeAmount)] &&
      plan == PlannedOrders(symbol, decision.signal, Some(p), tradeAmount, otherMax)
  {
  }

  /** A completed reversal reports the realized P&L of the closed leg:
      (entry − price)·amount for a short, (price − entry)·amount for a long;
      if the opening order then fails, the close stays in the log and the
      error is the opening order's. */
  lemma ReversalOutcome(symbol: string, decision: TradingDecision, p: Position, price: real,
                        tradeAmount: real, maxPosition: real, now: int, closeInfo: string, second: OrderReply,
                        later: seq<OrderReply>)
    requires (decision.signal == Buy && p.side == Short) || (decision.signal == Sell && p.side == Long)
    ensures var x := Execute(symbol, decision, Some(p), price, tradeAmount, maxPosition, now,
                             [Accepted(closeInfo), second] + later);
      var close := if p.side == Short then CloseShortOrder else CloseLongOrder;
      var pnl := if p.side == Short then (p.entryPrice - price) * p.amount else (price - p.entryPrice) * p.amount;
      (second.Accepted? ==> x.result.Success? && x.result.value.pnl == Some(pnl) &&
                            x.result.value.amount == tradeAmount && x.rest == later) &&
      (second.Rejected? ==> x.result == Failure(second.error) &&
                            x.placed == [MakeOrder(symbol, close, p.amount)])
  {
    var rs := [Accepted(closeInfo), second] + later;
    assert ReplyOutcome(rs) == Success(closeInfo);
    assert AfterReply(rs) == [second] + later;
    assert AfterReply([second] + later) == later;
    var dir := if decision.signal == Buy then Long else Short;
    var x := ExecuteToward(dir, symbol, decision.reason, Some(p), price, tradeAmount, maxPosition, now, rs);
    if second.Accepted? {
      assert ReplyOutcome([second] + later) == Success(second.info);
      assert x.result.value.pnl == Some(ClosePnl(p, price));
      assert x == Execute(symbol, decision, Some(p), price, tradeAmount, maxPosition, now, rs);
      assert x.result.Success?;
      assert x.result.value.amount == tradeAmount;
      assert x.rest == later;
      assert ClosePnl(p, price) == if p.side == Short then (p.entryPrice - price) * p.amount else (price - p.entryPrice) * p.amount;
    }
  }

  /** Closing a position gains exactly when the price moved in its favour. */
  lemma ClosePnlSign(p: Position, price: real)
    requires p.amount > 0.0
    ensures ClosePnl(p, price) > 0.0 <==>
      (p.side == Long && price > p.entryPrice) || (p.side == Short && price < p.entryPrice)
  {
    var d := if p.side == Long then price - p.entryPrice else p.entryPrice - price;
    assert ClosePnl(p, price) == d * p.amount;
    if d > 0.0 { assert d * p.amount > 0.0; }
    if d <= 0.0 { assert d * p.amount <= 0.0; }
  }
}
