/** Profit-and-loss arithmetic: turning an open position and an exit
    observation into a closed-trade record. */
module PnL {
  import opened Wrappers
  import opened Domain

  const MicrosPerSecond: int := 1_000_000

  /** The price moved in the position's favour: up for a long, down for a short. */
  predicate Favourable(d: Direction, entry: real, exit: real) {
    (d == Long && exit > entry) || (d == Short && exit < entry)
  }

  /** Gross points won (positive) or lost (negative) between entry and exit. */
  function GrossPoints(d: Direction, entry: real, exit: real): (r: real)
    ensures r > 0.0 <==> Favourable(d, entry, exit)
    ensures r < 0.0 <==> Favourable(d.Opposite(), entry, exit)
    ensures r == 0.0 <==> exit == entry
    ensures r == exit - entry || r == entry - exit
  {
    match d
    case Long => exit - entry
    case Short => entry - exit
  }

  /** The two directions win exactly what the other loses. */
  lemma GrossPointsAntisymmetric(entry: real, exit: real)
    ensures GrossPoints(Long, entry, exit) == -GrossPoints(Short, entry, exit)
  {
  }

  /** Points as a percentage of the entry price. */
  function Percent(points: real, entry: real): (r: real)
    requires entry != 0.0
    ensures r * entry == points * 100.0
    ensures entry > 0.0 ==> (r > 0.0 <==> points > 0.0) && (r < 0.0 <==> points < 0.0)
  {
    points / entry * 100.0
  }

  /** Whole seconds elapsed between two instants, truncated toward zero as
      Python's `int()` truncates (Dafny's own `/` on `int` rounds toward
      negative infinity for a positive divisor, so a negative span is divided
      by its magnitude and negated). */
  function DurationSeconds(entry: Instant, exit: Instant): (r: int)
    ensures exit >= entry ==> r >= 0 && r * MicrosPerSecond <= exit - entry < (r + 1) * MicrosPerSecond
    ensures exit < entry ==> r <= 0 && (r - 1) * MicrosPerSecond < exit - entry <= r * MicrosPerSecond
  {
    var elapsed := exit - entry;
    if elapsed >= 0 then elapsed / MicrosPerSecond else -((-elapsed) / MicrosPerSecond)
  }

  /** A duration is zero exactly when less than one whole second elapsed, in
      either direction. */
  lemma DurationZeroUnderOneSecond(entry: Instant, exit: Instant)
    ensures DurationSeconds(entry, exit) == 0 <==> -MicrosPerSecond < exit - entry < MicrosPerSecond
  {
  }

  /** The figures of a trade are the ones its entry and exit determine. */
  predicate Realised(t: Trade) {
    && t.entryPrice != 0.0
    && t.pnlPoints == GrossPoints(t.direction, t.entryPrice, t.exitPrice)
    && t.pnlPercent == Percent(t.pnlPoints, t.entryPrice)
    && t.durationSeconds == DurationSeconds(t.entryTime, t.exitTime)
  }

  /** Closes position `p` at `exitPrice` and `exitTime`: the trade record, or
      the division error an entry price of zero raises. */
  function CloseTrade(p: Position, exitTime: Instant, exitPrice: real): (r: Result<Trade, Error>)
    ensures r.Failure? <==> p.entryPrice == 0.0
    ensures r.Failure? ==> r.error == ZeroEntryPrice
    ensures r.Success? ==>
      && r.value.symbol == p.symbol
      && r.value.direction == p.direction
      && r.value.entryTime == p.entryTime
      && r.value.entryPrice == p.entryPrice
      && r.value.exitTime == exitTime
      && r.value.exitPrice == exitPrice
      && Realised(r.value)
  {
    var points := GrossPoints(p.direction, p.entryPrice, exitPrice);
    if p.entryPrice == 0.0 then Failure(ZeroEntryPrice)
    else
      var percent := Percent(points, p.entryPrice);
      var duration := DurationSeconds(p.entryTime, exitTime);
      Success(Trade(p.symbol, p.direction, p.entryTime, p.entryPrice,
                    exitTime, exitPrice, points, percent, duration))
  }

  /** A realised trade made points exactly when the price moved its way, lost
      points exactly when it moved against it, and for a positive entry price
      its percent has the same sign as its points. */
  lemma RealisedSign(t: Trade)
    requires Realised(t)
    ensures t.pnlPoints > 0.0 <==> Favourable(t.direction, t.entryPrice, t.exitPrice)
    ensures t.pnlPoints < 0.0 <==> Favourable(t.direction.Opposite(), t.entryPrice, t.exitPrice)
    ensures t.entryPrice > 0.0 ==> (t.pnlPercent > 0.0 <==> t.pnlPoints > 0.0)
  {
  }
}
