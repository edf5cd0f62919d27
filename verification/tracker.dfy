/** The position tracker: the store of signals, trades and the singleton
    open position, and the rule a logged signal applies to it. */
module Tracker {
  import opened Wrappers
  import opened Domain
  import opened PnL

  /** The three tables: the signal log, the trade ledger and the open
      position. An `Option` holds at most one position by construction, as the
      `id = 1` key of the position table does. */
  datatype Store = Store(
    signals: seq<SignalRecord>,
    trades: seq<Trade>,
    position: Option<Position>)

  const EmptyStore: Store := Store([], [], None)

  /** The open position, if a row exists. */
  function GetOpenPosition(s: Store): Option<Position> {
    s.position
  }

  /** Writes the open position with insert-or-replace semantics: whatever row
      existed is overwritten and the other tables are untouched. */
  function SetOpenPosition(s: Store, d: Direction, entryTime: Instant, entryPrice: real, symbol: string): (r: Store)
    ensures GetOpenPosition(r) == Some(Position(d, entryTime, entryPrice, symbol))
    ensures r.signals == s.signals && r.trades == s.trades
  {
    s.(position := Some(Position(d, entryTime, entryPrice, symbol)))
  }

  /** Reading the position row gives back exactly what was last written, and
      nothing on a fresh store or after a close. */
  lemma GetOpenPositionReadsBack(s: Store, p: Position, exitTime: Instant, exitPrice: real)
    ensures GetOpenPosition(EmptyStore).None?
    ensures GetOpenPosition(SetOpenPosition(s, p.direction, p.entryTime, p.entryPrice, p.symbol)) == Some(p)
    ensures ClosePosition(s, exitTime, exitPrice).Success? ==>
      GetOpenPosition(ClosePosition(s, exitTime, exitPrice).value.store).None?
  {
  }

  /** The store after a close, and the trade it produced (none when no
      position was open). */
  datatype Closed = Closed(store: Store, trade: Option<Trade>)

  /** Closes the open position at `exitPrice` and `exitTime`: appends the trade
      and deletes the position. Without a position nothing is written; an entry
      price of zero raises before anything is written. */
  function ClosePosition(s: Store, exitTime: Instant, exitPrice: real): (r: Result<Closed, Error>)
    ensures s.position.None? ==> r == Success(Closed(s, None))
    ensures r.Failure? <==> s.position.Some? && s.position.value.entryPrice == 0.0
    ensures r.Failure? ==> r.error == ZeroEntryPrice
    ensures r.Success? && s.position.Some? ==>
      && r.value.trade.Some?
      && CloseTrade(s.position.value, exitTime, exitPrice) == Success(r.value.trade.value)
      && r.value.store == Store(s.signals, s.trades + [r.value.trade.value], None)
  {
    match GetOpenPosition(s)
    case None => Success(Closed(s, None))
    case Some(pos) =>
      match CloseTrade(pos, exitTime, exitPrice)
      case Failure(e) => Failure(e)
      case Success(t) => Success(Closed(Store(s.signals, s.trades + [t], None), Some(t)))
  }

  /** The store after a webhook signal, and what the request answered: the
      trade the signal closed (if any), or the error it raised. */
  datatype Handled = Handled(store: Store, result: Result<Option<Trade>, Error>)

  /** Logs a signal, then applies it to the open position: a non-tradable
      token or a repeat of the open direction changes nothing; with no position
      it opens one; an opposite direction closes the position at the signal's
      price and time and opens one the other way there. */
  function Ingest(s: Store, rec: SignalRecord): (h: Handled)
    ensures h.store.signals == s.signals + [rec]
    ensures ParseDirection(rec.signal).None? ==>
      h.store.trades == s.trades && h.store.position == s.position && h.result == Success(None)
    ensures ParseDirection(rec.signal).Some? && s.position.None? ==>
      && h.store.position == Some(Position(ParseDirection(rec.signal).value, rec.timestamp, rec.price, rec.symbol))
      && h.store.trades == s.trades
      && h.result == Success(None)
    ensures ParseDirection(rec.signal).Some? && s.position.Some?
            && s.position.value.direction == ParseDirection(rec.signal).value ==>
      h.store.trades == s.trades && h.store.position == s.position && h.result == Success(None)
    ensures ParseDirection(rec.signal).Some? && s.position.Some?
            && s.position.value.direction != ParseDirection(rec.signal).value
            && s.position.value.entryPrice == 0.0 ==>
      h.store.trades == s.trades && h.store.position == s.position && h.result == Failure(ZeroEntryPrice)
    ensures ParseDirection(rec.signal).Some? && s.position.Some?
            && s.position.value.direction != ParseDirection(rec.signal).value
            && s.position.value.entryPrice != 0.0 ==>
      && h.result.Success? && h.result.value.Some?
      && CloseTrade(s.position.value, rec.timestamp, rec.price) == Success(h.result.value.value)
      && h.store.trades == s.trades + [h.result.value.value]
      && h.store.position == Some(Position(ParseDirection(rec.signal).value, rec.timestamp, rec.price, rec.symbol))
  {
    var logged := s.(signals := s.signals + [rec]);
    match ParseDirection(rec.signal)
    case None => Handled(logged, Success(None))
    case Some(d) =>
      var pos := GetOpenPosition(logged);
      var closing :=
        if pos.Some? && pos.value.direction != d then ClosePosition(logged, rec.timestamp, rec.price)
        else Success(Closed(logged, None));
      match closing
      case Failure(e) => Handled(logged, Failure(e))
      case Success(c) =>
        if pos.None? || c.trade.Some? then
          Handled(SetOpenPosition(c.store, d, rec.timestamp, rec.price, rec.symbol), Success(c.trade))
        else
          Handled(c.store, Success(None))
  }

  /** Trade `b` was opened where and when trade `a` was closed, the other way. */
  predicate Follows(a: Trade, b: Trade) {
    a.exitTime == b.entryTime && a.exitPrice == b.entryPrice && a.direction != b.direction
  }

  /** The open position was opened where and when the last trade closed, the
      other way. */
  predicate Continues(t: Trade, p: Position) {
    t.exitTime == p.entryTime && t.exitPrice == p.entryPrice && t.direction != p.direction
  }

  /** What the tracker keeps true of the store: trades exist only while a
      position is open (a close always reopens), every trade's figures are
      those of its entry and exit, and the ledger together with the open
      position is one unbroken chain of alternating directions. */
  predicate Consistent(s: Store) {
    && (s.position.None? ==> |s.trades| == 0)
    && (forall i :: 0 <= i < |s.trades| ==> Realised(s.trades[i]))
    && (forall i :: 0 < i < |s.trades| ==> Follows(s.trades[i - 1], s.trades[i]))
    && (s.position.Some? && |s.trades| > 0 ==> Continues(s.trades[|s.trades| - 1], s.position.value))
  }

  /** A fresh store, with no signals, trades or position, is consistent. */
  lemma EmptyStoreConsistent()
    ensures Consistent(EmptyStore)
  {
  }

  /** Every signal, whatever it does, keeps the store consistent. */
  lemma IngestPreservesConsistent(s: Store, rec: SignalRecord)
    requires Consistent(s)
    ensures Consistent(Ingest(s, rec).store)
  {
  }
}
