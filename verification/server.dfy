/** The two endpoints that carry logic: the webhook that ingests a signal and
    answers with running totals, and the statistics report. */
module Server {
  import opened Wrappers
  import opened Domain
  import opened Normalise
  import opened Tracker
  import opened Stats

  /** The body of a successful webhook answer. */
  datatype Reply = Reply(
    signal: string,
    price: real,
    closedTrade: Option<Trade>,
    totalSignals: nat,
    totalTrades: nat,
    totalPnl: real)

  /** The store after a request, and what the request answered. */
  datatype Response = Response(store: Store, reply: Result<Reply, Error>)

  /** Handles one webhook request arriving at `now`. A body that is not an
      object, or a price that does not read as a number, fails the request
      before anything is written; otherwise the signal is logged exactly once,
      the position rule runs, and the answer reports the signal, the trade it
      closed and the totals after it, or the zero-entry failure of the close. */
  function Webhook(s: Store, body: Body, now: Instant): (r: Response)
    ensures NormaliseSignal(body, now).Failure? ==>
      r.store == s && r.reply == Failure(NormaliseSignal(body, now).error)
    ensures body.NotAnObject? ==> r.store == s && r.reply == Failure(NotObjectBody)
    ensures NormaliseSignal(body, now).Success? ==>
      var rec := NormaliseSignal(body, now).value;
      && r.store.signals == s.signals + [rec]
      && r.store == Ingest(s, rec).store
      && (r.reply.Failure? <==> Ingest(s, rec).result.Failure?)
      && (r.reply.Failure? ==> r.reply.error == Ingest(s, rec).result.error == ZeroEntryPrice)
    ensures r.reply.Success? ==>
      && r.reply.value.totalSignals == |s.signals| + 1 == |r.store.signals|
      && r.reply.value.totalTrades == |r.store.trades|
      && r.reply.value.totalPnl == TotalPnl(r.store.trades)
      && r.reply.value.signal == r.store.signals[|s.signals|].signal
      && r.reply.value.price == r.store.signals[|s.signals|].price
      && (r.reply.value.closedTrade.Some? ==> r.store.trades == s.trades + [r.reply.value.closedTrade.value])
      && (r.reply.value.closedTrade.None? ==> r.store.trades == s.trades)
      && (r.reply.value.closedTrade.Some? ==>
            r.reply.value.totalPnl == TotalPnl(s.trades) + r.reply.value.closedTrade.value.pnlPoints)
      && (r.reply.value.closedTrade.None? ==> r.reply.value.totalPnl == TotalPnl(s.trades))
  {
    match NormaliseSignal(body, now)
    case Failure(e) => Response(s, Failure(e))
    case Success(rec) =>
      var h := Ingest(s, rec);
      match h.result
      case Failure(e) => Response(h.store, Failure(e))
      case Success(closed) =>
        TotalPnlAppend(s.trades, if closed.Some? then [closed.value] else []);
        Response(h.store, Success(Reply(rec.signal, rec.price, closed,
          |h.store.signals|, |h.store.trades|, TotalPnl(h.store.trades))))
  }

  /** The statistics report, before display rounding. */
  datatype Report = Report(
    totalSignals: nat,
    longs: nat,
    shorts: nat,
    totalTrades: nat,
    winners: nat,
    winRate: real,
    totalPnl: real,
    averagePnl: real,
    bestTrade: real,
    worstTrade: real,
    openPosition: Option<Position>)

  /** Aggregates the store. Every figure over an empty ledger is zero. */
  function StatsReport(s: Store): (r: Report)
    ensures r.longs + r.shorts <= r.totalSignals == |s.signals|
    ensures r.winners <= r.totalTrades == |s.trades|
    ensures r.totalTrades == 0 ==>
      && r.winners == 0 && r.winRate == 0.0 && r.totalPnl == 0.0
      && r.averagePnl == 0.0 && r.bestTrade == 0.0 && r.worstTrade == 0.0
    ensures 0.0 <= r.winRate <= 100.0
    ensures r.winRate == 100.0 <==> r.totalTrades > 0 && r.winners == r.totalTrades
    ensures forall i :: 0 <= i < |s.trades| ==> r.worstTrade <= s.trades[i].pnlPoints <= r.bestTrade
    ensures r.openPosition == s.position
    ensures r.longs == CountSignal(s.signals, "LONG") && r.shorts == CountSignal(s.signals, "SHORT")
    ensures r.winners == Winners(s.trades) && r.winRate == WinRate(s.trades)
    ensures r.totalPnl == TotalPnl(s.trades) && r.averagePnl == AveragePnl(s.trades)
    ensures r.bestTrade == BestTrade(s.trades).GetOr(0.0) && r.worstTrade == WorstTrade(s.trades).GetOr(0.0)
  {
    LongsAndShortsWithinTotal(s.signals);
    WinRateBounds(s.trades);
    Report(
      |s.signals|,
      CountSignal(s.signals, "LONG"),
      CountSignal(s.signals, "SHORT"),
      |s.trades|,
      Winners(s.trades),
      WinRate(s.trades),
      TotalPnl(s.trades),
      AveragePnl(s.trades),
      BestTrade(s.trades).GetOr(0.0),
      WorstTrade(s.trades).GetOr(0.0),
      GetOpenPosition(s))
  }
}
