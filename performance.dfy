/** The performance tracker: a running summary of trade outcomes (trade
    counts, realized P&L, best and worst trade, equity peak and maximum
    drawdown) updated in place by every executed trade. Persisting the
    summary to a file is outside the model. */
module Performance {
  import opened Wrappers
  import opened Types
  import opened Numbers

  datatype PerformanceSnapshot = PerformanceSnapshot(
    totalRealizedPnl: real,
    totalTrades: nat,
    winningTrades: nat,
    losingTrades: nat,
    bestTrade: Option<real>,
    worstTrade: Option<real>,
    equityPeak: real,
    maxDrawdown: real,
    lastUpdate: Option<int>)

  /** `PerformanceSnapshot::default()`. */
  const EmptySnapshot := PerformanceSnapshot(0.0, 0, 0, 0, None, None, 0.0, 0.0, None)

  // ---------------------------------------------------------------- reference definitions over realized P&Ls

  function CountWins(s: seq<real>): nat
  {
    if |s| == 0 then 0 else CountWins(s[..|s| - 1]) + (if s[|s| - 1] > 0.0 then 1 else 0)
  }

  function CountLosses(s: seq<real>): nat
  {
    if |s| == 0 then 0 else CountLosses(s[..|s| - 1]) + (if s[|s| - 1] < 0.0 then 1 else 0)
  }

  /** The largest P&L, if any. */
  function Best(s: seq<real>): Option<real>
  {
    if |s| == 0 then None
    else match Best(s[..|s| - 1])
      case None => Some(s[|s| - 1])
      case Some(b) => Some(Max(b, s[|s| - 1]))
  }

  /** The smallest P&L, if any. */
  function Worst(s: seq<real>): Option<real>
  {
    if |s| == 0 then None
    else match Worst(s[..|s| - 1])
      case None => Some(s[|s| - 1])
      case Some(w) => Some(Min(w, s[|s| - 1]))
  }

  /** Cumulative realized P&L after the first `i` trades. */
  function Equity(s: seq<real>, i: nat): real
    requires i <= |s|
  {
    Sum(s[..i])
  }

  /** The equity peak as the tracker maintains it: raised whenever equity
      exceeds it, starting from 0. */
  function Peak(s: seq<real>): real
  {
    if |s| == 0 then 0.0
    else
      var before := Peak(s[..|s| - 1]);
      if Sum(s) > before then Sum(s) else before
  }

  /** The maximum drawdown as the tracker maintains it: after each trade that
      does not set a new peak, the fall from the peak if it is the largest yet. */
  function Drawdown(s: seq<real>): real
  {
    if |s| == 0 then 0.0
    else
      var peak := Peak(s[..|s| - 1]);
      var dd := Drawdown(s[..|s| - 1]);
      if Sum(s) > peak then dd
      else if peak - Sum(s) > dd then peak - Sum(s) else dd
  }

  // ---------------------------------------------------------------- facts about them

  lemma {:induction false} WinsAndLossesBounded(s: seq<real>)
    ensures CountWins(s) + CountLosses(s) <= |s|
  {
    if |s| > 0 { WinsAndLossesBounded(s[..|s| - 1]); }
  }

  /** Best and worst are both present exactly when a P&L was recorded; the
      best is an upper and the worst a lower bound of every recorded P&L, so
      the best is never below the worst. */
  lemma {:induction false} BestAndWorstBound(s: seq<real>)
    ensures Best(s).Some? <==> |s| > 0
    ensures Worst(s).Some? <==> |s| > 0
    ensures |s| > 0 ==> forall i :: 0 <= i < |s| ==> Worst(s).value <= s[i] <= Best(s).value
    ensures |s| > 0 ==> Worst(s).value <= Best(s).value
  {
    if |s| > 0 {
      var init := s[..|s| - 1];
      BestAndWorstBound(init);
      assert forall i :: 0 <= i < |init| ==> s[i] == init[i];
    }
  }

  /** How each summary figure of a history extends by one more P&L. */
  lemma AppendStep(s: seq<real>, pnl: real)
    ensures var t := s + [pnl];
      && Sum(t) == Sum(s) + pnl
      && CountWins(t) == CountWins(s) + (if pnl > 0.0 then 1 else 0)
      && CountLosses(t) == CountLosses(s) + (if pnl < 0.0 then 1 else 0)
      && Best(t) == Some(if Best(s).Some? then Max(Best(s).value, pnl) else pnl)
      && Worst(t) == Some(if Worst(s).Some? then Min(Worst(s).value, pnl) else pnl)
      && Peak(t) == (if Sum(t) > Peak(s) then Sum(t) else Peak(s))
      && Drawdown(t) == (if Sum(t) > Peak(s) then Drawdown(s)
                         else if Peak(s) - Sum(t) > Drawdown(s) then Peak(s) - Sum(t) else Drawdown(s))
  {
    assert (s + [pnl])[..|s|] == s;
  }

  lemma EquityStep(s: seq<real>)
    requires |s| > 0
    ensures forall i :: 0 <= i < |s| ==> Equity(s, i) == Equity(s[..|s| - 1], i)
    ensures Equity(s, |s|) == Sum(s)
  {
    assert s[..|s|] == s;
    forall i | 0 <= i < |s| ensures Equity(s, i) == Equity(s[..|s| - 1], i) {
      assert s[..|s| - 1][..i] == s[..i];
    }
  }

  /** The peak is the largest equity ever reached, counting the starting
      equity 0: it bounds every equity and one equity attains it. */
  lemma {:induction false} PeakIsHighestEquity(s: seq<real>) returns (at: nat)
    ensures forall i :: 0 <= i <= |s| ==> Equity(s, i) <= Peak(s)
    ensures at <= |s| && Equity(s, at) == Peak(s)
  {
    if |s| == 0 {
      assert s[..0] == [];
      return 0;
    }
    var init := s[..|s| - 1];
    var atInit := PeakIsHighestEquity(init);
    EquityStep(s);
    if Sum(s) > Peak(init) {
      at := |s|;
    } else {
      at := atInit;
    }
  }

  /** The maximum drawdown is the largest fall of equity from an earlier (or
      the same) point: it bounds every such fall and one fall attains it. */
  lemma {:induction false} DrawdownIsLargestFall(s: seq<real>) returns (from: nat, to: nat)
    ensures forall i, j :: 0 <= i <= j <= |s| ==> Equity(s, i) - Equity(s, j) <= Drawdown(s)
    ensures from <= to <= |s| && Equity(s, from) - Equity(s, to) == Drawdown(s)
  {
    if |s| == 0 {
      assert s[..0] == [];
      return 0, 0;
    }
    var init := s[..|s| - 1];
    var n := |s|;
    var f0, t0 := DrawdownIsLargestFall(init);
    var peakAt := PeakIsHighestEquity(init);
    EquityStep(s);
    forall i, j | 0 <= i <= j <= n ensures Equity(s, i) - Equity(s, j) <= Drawdown(s) {
      if j < n {
        assert Equity(init, i) - Equity(init, j) <= Drawdown(init);
      } else if i < n {
        assert Equity(init, i) <= Peak(init);
      }
    }
    var peak := Peak(init);
    if Sum(s) > peak || peak - Sum(s) <= Drawdown(init) {
      from, to := f0, t0;
    } else {
      from, to := peakAt, n;
    }
  }

  /** The maximum drawdown is never negative and never below the current
      fall from the peak; the peak is never below 0 nor below current equity. */
  lemma PeakAndDrawdownBounds(s: seq<real>)
    ensures Peak(s) >= 0.0 && Peak(s) >= Sum(s)
    ensures Drawdown(s) >= 0.0 && Drawdown(s) >= Peak(s) - Sum(s)
  {
    var _ := PeakIsHighestEquity(s);
    var _, _ := DrawdownIsLargestFall(s);
    assert s[..|s|] == s && s[..0] == [];
    var peakAt := PeakIsHighestEquity(s);
    assert Equity(s, peakAt) - Equity(s, |s|) <= Drawdown(s);
    assert Equity(s, |s|) - Equity(s, |s|) <= Drawdown(s);
  }

  // ---------------------------------------------------------------- one update

  /** `snap` is the summary of the realized P&Ls `realized` (the trade
      count also includes trades that reported no P&L). */
  predicate Summarizes(snap: PerformanceSnapshot, realized: seq<real>)
  {
    && snap.totalRealizedPnl == Sum(realized)
    && snap.winningTrades == CountWins(realized)
    && snap.losingTrades == CountLosses(realized)
    && |realized| <= snap.totalTrades
    && snap.bestTrade == Best(realized)
    && snap.worstTrade == Worst(realized)
    && snap.equityPeak == Peak(realized)
    && snap.maxDrawdown == Drawdown(realized)
  }

  /** The realized P&L a trade result contributes: none for a Hold or for a
      trade that reported none. */
  function RealizedBy(trade: TradeResult): seq<real>
  {
    if trade.action == TradeAction.Hold || trade.pnl.None? then [] else [trade.pnl.value]
  }

  /** The summary after folding in one trade result at time `now`. */
  function Recorded(snap: PerformanceSnapshot, trade: TradeResult, now: int): PerformanceSnapshot
  {
    if trade.action == TradeAction.Hold then snap
    else
      var counted := snap.(totalTrades := snap.totalTrades + 1, lastUpdate := Some(now));
      match trade.pnl
      case None => counted
      case Some(pnl) =>
        var equity := snap.totalRealizedPnl + pnl;
        counted.(
          totalRealizedPnl := equity,
          bestTrade := Some(if snap.bestTrade.Some? then Max(snap.bestTrade.value, pnl) else pnl),
          worstTrade := Some(if snap.worstTrade.Some? then Min(snap.worstTrade.value, pnl) else pnl),
          winningTrades := snap.winningTrades + (if pnl > 0.0 then 1 else 0),
          losingTrades := snap.losingTrades + (if pnl < 0.0 then 1 else 0),
          equityPeak := if equity > snap.equityPeak then equity else snap.equityPeak,
          maxDrawdown :=
            if equity > snap.equityPeak then snap.maxDrawdown
            else if snap.equityPeak - equity > snap.maxDrawdown then snap.equityPeak - equity
            else snap.maxDrawdown)
  }

  /** What one update changes: a Hold changes nothing; any other result
      adds exactly one trade and stamps the time; without a P&L nothing else
      changes; with one, the P&L moves the total and the counters; and
      neither the peak nor the maximum drawdown ever goes down. */
  lemma RecordedChanges(snap: PerformanceSnapshot, trade: TradeResult, now: int)
    ensures trade.action == TradeAction.Hold ==> Recorded(snap, trade, now) == snap
    ensures trade.action != TradeAction.Hold ==>
      Recorded(snap, trade, now).totalTrades == snap.totalTrades + 1 &&
      Recorded(snap, trade, now).lastUpdate == Some(now)
    ensures trade.action != TradeAction.Hold && trade.pnl.None? ==>
      Recorded(snap, trade, now) == snap.(totalTrades := snap.totalTrades + 1, lastUpdate := Some(now))
    ensures trade.action != TradeAction.Hold && trade.pnl.Some? ==>
      var r := Recorded(snap, trade, now);
      var pnl := trade.pnl.value;
      && r.totalRealizedPnl == snap.totalRealizedPnl + pnl
      && r.winningTrades + r.losingTrades + (if pnl == 0.0 then 1 else 0) == snap.winningTrades + snap.losingTrades + 1
      && r.bestTrade.Some? && r.bestTrade.value >= pnl && r.worstTrade.Some? && r.worstTrade.value <= pnl
    ensures Recorded(snap, trade, now).equityPeak >= snap.equityPeak
    ensures Recorded(snap, trade, now).maxDrawdown >= snap.maxDrawdown
  {
  }

  /** One update keeps the summary faithful to the history: the new summary
      is the summary of the old history extended by the trade's P&L. */
  lemma RecordedKeepsSummary(snap: PerformanceSnapshot, realized: seq<real>, trade: TradeResult, now: int)
    requires Summarizes(snap, realized)
    ensures Summarizes(Recorded(snap, trade, now), realized + RealizedBy(trade))
  {
    if trade.action == TradeAction.Hold || trade.pnl.None? {
      assert realized + RealizedBy(trade) == realized;
    } else {
      AppendStep(realized, trade.pnl.value);
    }
  }

  /** What any faithful summary guarantees: wins and losses together never
      exceed the trade count, the best trade is never below the worst, the
      peak is never below 0 nor below current equity, and the maximum
      drawdown is never negative nor below the current fall from the peak. */
  lemma SummaryInvariants(snap: PerformanceSnapshot, realized: seq<real>)
    requires Summarizes(snap, realized)
    ensures snap.winningTrades + snap.losingTrades <= snap.totalTrades
    ensures snap.bestTrade.Some? <==> snap.worstTrade.Some?
    ensures snap.bestTrade.Some? ==> snap.bestTrade.value >= snap.worstTrade.value
    ensures snap.equityPeak >= 0.0 && snap.equityPeak >= snap.totalRealizedPnl
    ensures snap.maxDrawdown >= 0.0
    ensures snap.maxDrawdown >= snap.equityPeak - snap.totalRealizedPnl
  {
    WinsAndLossesBounded(realized);
    BestAndWorstBound(realized);
    PeakAndDrawdownBounds(realized);
  }

  // ---------------------------------------------------------------- the tracker

  class PerformanceTracker {
    var snapshot: PerformanceSnapshot
    /** P&L of every trade that reported one, oldest first. */
    ghost var realized: seq<real>

    ghost predicate Valid()
      reads this
    {
      Summarizes(snapshot, realized)
    }

    /** `PerformanceTracker::new`: the all-zero summary. */
    constructor ()
      ensures Valid() && snapshot == EmptySnapshot && realized == []
    {
      snapshot := EmptySnapshot;
      realized := [];
    }

    /** `update`: fold one trade result into the summary, field by field. A
        Hold result changes nothing and returns false; any other counts as a
        trade, and a reported P&L also moves the P&L figures. */
    method Update(trade: TradeResult, now: int) returns (counted: bool)
      requires Valid()
      modifies this
      ensures Valid()
      ensures counted <==> trade.action != TradeAction.Hold
      ensures snapshot == Recorded(old(snapshot), trade, now)
      ensures realized == old(realized) + RealizedBy(trade)
    {
      RecordedKeepsSummary(snapshot, realized, trade, now);
      if trade.action == TradeAction.Hold {
        assert realized + RealizedBy(trade) == realized;
        return false;
      }
      // The new snapshot is built in `s` and assigned once at the end.
      var s := snapshot;
      s := s.(totalTrades := s.totalTrades + 1);
      if trade.pnl.Some? {
        var pnl := trade.pnl.value;
        s := s.(totalRealizedPnl := s.totalRealizedPnl + pnl);
        s := s.(bestTrade := match s.bestTrade
                             case Some(best) => Some(Max(best, pnl))
                             case None => Some(pnl));
        s := s.(worstTrade := match s.worstTrade
                              case Some(worst) => Some(Min(worst, pnl))
                              case None => Some(pnl));
        if pnl > 0.0 {
          s := s.(winningTrades := s.winningTrades + 1);
        } else if pnl < 0.0 {
          s := s.(losingTrades := s.losingTrades + 1);
        }
        var equity := s.totalRealizedPnl;
        if equity > s.equityPeak {
          s := s.(equityPeak := equity);
        } else {
          var drawdown := s.equityPeak - equity;
          if drawdown > s.maxDrawdown {
            s := s.(maxDrawdown := drawdown);
          }
        }
        realized := realized + [pnl];
      } else {
        assert realized + RealizedBy(trade) == realized;
      }
      s := s.(lastUpdate := Some(now));
      snapshot := s;
      return true;
    }
  }
}
