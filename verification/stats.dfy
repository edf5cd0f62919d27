/** The aggregate figures reported over the signal log and the trade ledger. */
module Stats {
  import opened Wrappers
  import opened Domain

  /** Number of logged signals whose token is exactly `token`. */
  function CountSignal(signals: seq<SignalRecord>, token: string): (n: nat)
    ensures n <= |signals|
    ensures n == 0 <==> forall i :: 0 <= i < |signals| ==> signals[i].signal != token
    ensures n == |signals| <==> forall i :: 0 <= i < |signals| ==> signals[i].signal == token
  {
    if |signals| == 0 then 0
    else
      var prefix := signals[..|signals| - 1];
      assert forall i :: 0 <= i < |prefix| ==> prefix[i] == signals[i];
      CountSignal(prefix, token) + (if signals[|signals| - 1].signal == token then 1 else 0)
  }

  /** Long and short signals are counted apart, so together they never exceed
      the total. */
  lemma {:induction false} LongsAndShortsWithinTotal(signals: seq<SignalRecord>)
    ensures CountSignal(signals, "LONG") + CountSignal(signals, "SHORT") <= |signals|
  {
    if |signals| > 0 {
      LongsAndShortsWithinTotal(signals[..|signals| - 1]);
    }
  }

  /** A trade is a winner when its gross points are positive. */
  predicate Winner(t: Trade) {
    t.pnlPoints > 0.0
  }

  /** Number of winning trades. */
  function Winners(trades: seq<Trade>): (n: nat)
    ensures n <= |trades|
    ensures n == 0 <==> forall i :: 0 <= i < |trades| ==> !Winner(trades[i])
    ensures n == |trades| <==> forall i :: 0 <= i < |trades| ==> Winner(trades[i])
  {
    if |trades| == 0 then 0
    else
      var prefix := trades[..|trades| - 1];
      assert forall i :: 0 <= i < |prefix| ==> prefix[i] == trades[i];
      Winners(prefix) + (if Winner(trades[|trades| - 1]) then 1 else 0)
  }

  /** Sum of gross points over the ledger; zero for an empty ledger. A ledger
      of winners only sums to a gain, one without winners never does. */
  function TotalPnl(trades: seq<Trade>): (r: real)
    ensures |trades| == 0 ==> r == 0.0
    ensures |trades| > 0 && (forall i :: 0 <= i < |trades| ==> Winner(trades[i])) ==> r > 0.0
    ensures (forall i :: 0 <= i < |trades| ==> !Winner(trades[i])) ==> r <= 0.0
  {
    if |trades| == 0 then 0.0
    else TotalPnl(trades[..|trades| - 1]) + trades[|trades| - 1].pnlPoints
  }

  /** The ledger total over two stretches of the ledger is the sum of their
      totals; in particular appending a trade adds exactly its points. */
  lemma {:induction false} TotalPnlAppend(a: seq<Trade>, b: seq<Trade>)
    ensures TotalPnl(a + b) == TotalPnl(a) + TotalPnl(b)
  {
    if |b| == 0 {
      assert a + b == a;
    } else {
      assert (a + b)[..|a + b| - 1] == a + b[..|b| - 1];
      TotalPnlAppend(a, b[..|b| - 1]);
    }
  }

  /** For `0 <= w <= n` and `n > 0`, the ratio `w / n * 100` lies in
      [0, 100], hitting the ends exactly when `w` is 0 or `n`. */
  lemma PercentageBounds(w: real, n: real)
    requires 0.0 <= w <= n && n > 0.0
    ensures 0.0 <= w / n * 100.0 <= 100.0
    ensures w / n * 100.0 == 0.0 <==> w == 0.0
    ensures w / n * 100.0 == 100.0 <==> w == n
  {
  }

  /** Percentage of trades that won; zero, not an error, with no trades. */
  function WinRate(trades: seq<Trade>): (r: real)
    ensures |trades| == 0 ==> r == 0.0
    ensures |trades| > 0 ==> r * (|trades| as real) == (Winners(trades) as real) * 100.0
  {
    var total := |trades|;
    var winners := Winners(trades);
    if total > 0 then (winners as real) / (total as real) * 100.0 else 0.0
  }

  /** The win rate is a percentage: 0 exactly when no trade won (including an
      empty ledger), 100 exactly when every trade of a non-empty ledger won. */
  lemma WinRateBounds(trades: seq<Trade>)
    ensures 0.0 <= WinRate(trades) <= 100.0
    ensures WinRate(trades) == 0.0 <==> forall i :: 0 <= i < |trades| ==> !Winner(trades[i])
    ensures WinRate(trades) == 100.0 <==> |trades| > 0 && forall i :: 0 <= i < |trades| ==> Winner(trades[i])
  {
    if |trades| > 0 {
      PercentageBounds(Winners(trades) as real, |trades| as real);
    }
  }

  /** Average gross points per trade; zero with no trades. */
  function AveragePnl(trades: seq<Trade>): (r: real)
    ensures |trades| == 0 ==> r == 0.0
    ensures |trades| > 0 ==> r * (|trades| as real) == TotalPnl(trades)
  {
    if |trades| == 0 then 0.0 else TotalPnl(trades) / (|trades| as real)
  }

  /** The largest gross points of any trade; none with no trades. */
  function BestTrade(trades: seq<Trade>): (r: Option<real>)
    ensures r.None? <==> |trades| == 0
    ensures r.Some? ==> forall i :: 0 <= i < |trades| ==> trades[i].pnlPoints <= r.value
    ensures r.Some? ==> exists i :: 0 <= i < |trades| && trades[i].pnlPoints == r.value
  {
    if |trades| == 0 then None
    else
      var prefix := trades[..|trades| - 1];
      var last := trades[|trades| - 1].pnlPoints;
      assert forall i :: 0 <= i < |prefix| ==> prefix[i] == trades[i];
      match BestTrade(prefix)
      case None => Some(last)
      case Some(m) => Some(if m >= last then m else last)
  }

  /** The smallest gross points of any trade; none with no trades. */
  function WorstTrade(trades: seq<Trade>): (r: Option<real>)
    ensures r.None? <==> |trades| == 0
    ensures r.Some? ==> forall i :: 0 <= i < |trades| ==> r.value <= trades[i].pnlPoints
    ensures r.Some? ==> exists i :: 0 <= i < |trades| && trades[i].pnlPoints == r.value
  {
    if |trades| == 0 then None
    else
      var prefix := trades[..|trades| - 1];
      var last := trades[|trades| - 1].pnlPoints;
      assert forall i :: 0 <= i < |prefix| ==> prefix[i] == trades[i];
      match WorstTrade(prefix)
      case None => Some(last)
      case Some(m) => Some(if m <= last then m else last)
  }
}
