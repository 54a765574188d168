/** The bot's value types: candles, the model's trading decision, an open
    position and the record of one trade. Every `f64` is a `real` and every
    `i64` timestamp an `int`. */
module Types {
  import opened Wrappers

  /** One candle of the exchange's price history. */
  datatype Kline = Kline(timestamp: int, open: real, high: real, low: real, close: real, volume: real)

  /** The indicators computed from the candles (the eleven fields that the
      indicator computation fills in). */
  datatype TechnicalIndicators = TechnicalIndicators(
    sma5: real, sma20: real, sma50: real, sma100: real,
    priceChange1: real, priceChange3: real, priceChange6: real, priceChange12: real,
    atr14: real, atrPercent: real, volumeRatio: real)

  datatype Signal = Buy | Sell | Hold

  datatype Confidence = High | Medium | Low

  /** What the decision provider asks for. */
  datatype TradingDecision = TradingDecision(signal: Signal, reason: string, confidence: Confidence)

  datatype PositionSide = Long | Short

  /** An open position; a flat book is `None`. */
  datatype Position = Position(side: PositionSide, amount: real, entryPrice: real, unrealizedPnl: real)

  datatype TradeAction = OpenLong | CloseLong | OpenShort | CloseShort | Hold

  /** The `reason` text of a trade record, kept as the values it is formatted from. */
  datatype TradeReason =
    | AsDecided(reason: string)                                   // the decision's own reason
    | AfterClosing(reason: string, closedPnl: real)              // reversal: reason plus the closed leg's P&L
    | AddedTo(reason: string, before: real, after: real)         // adding: reason plus old and new total
    | AtMaxPosition(held: real, maxPosition: real)               // adding refused
    | ExecutionFailed(error: string)                             // the order step failed

  /** The `order_details` of a trade record. */
  datatype OrderDetails =
    | NoDetails
    | Placed(info: string)                                       // one order's confirmation
    | ClosedThenOpened(closeInfo: string, openInfo: string)      // the two confirmations of a reversal
    | ErrorDetails(error: string)                                // "ERROR: ..." of a failed execution

  datatype TradeResult = TradeResult(
    symbol: string, action: TradeAction, price: real, amount: real, timestamp: int,
    reason: TradeReason, pnl: Option<real>, orderDetails: OrderDetails)
}
