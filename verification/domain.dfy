/** The entities of the tracker: directions, signals as logged, the open
    position and the closed-trade record. */
module Domain {
  import opened Wrappers

  /** An instant in time, in whole microseconds (the resolution of the
      timestamps the server writes). */
  type Instant = int

  /** The two tradable directions. Any other signal token is informational. */
  datatype Direction = Long | Short {
    /** The other direction. */
    function Opposite(): Direction {
      match this
      case Long => Short
      case Short => Long
    }
  }

  /** The token a direction is written as, in the signal log and in the
      position and trade rows. */
  function DirectionName(d: Direction): string {
    match d
    case Long => "LONG"
    case Short => "SHORT"
  }

  /** Reads a (normalised) signal token as a direction: only the exact tokens
      "LONG" and "SHORT" are tradable. */
  function ParseDirection(s: string): (r: Option<Direction>)
    ensures r.Some? ==> DirectionName(r.value) == s
    ensures r.None? ==> s != DirectionName(Long) && s != DirectionName(Short)
  {
    if s == "LONG" then Some(Long)
    else if s == "SHORT" then Some(Short)
    else None
  }

  /** Reading back the name of a direction gives that direction. */
  lemma ParseDirectionName(d: Direction)
    ensures ParseDirection(DirectionName(d)) == Some(d)
  {
  }

  /** The value the price key of a payload carried: a number (or text that
      reads as one), or something that does not read as a number (a word, a
      null). */
  datatype PriceField = Number(amount: real) | NotNumeric

  /** The decoded body of an inbound webhook request; an absent key is `None`.
      A body that was not JSON is stored as a payload with none of these keys. */
  datatype Payload = Payload(
    signal: Option<string>,
    price: Option<PriceField>,
    symbol: Option<string>,
    timeframe: Option<string>)

  /** A decoded request body. Only a JSON object has keys to read; any other
      JSON value (a list, a string, a number, null) and a body declared as JSON
      that does not parse are `NotAnObject`. */
  datatype Body = Object(payload: Payload) | NotAnObject

  /** One row of the append-only signal log. */
  datatype SignalRecord = SignalRecord(
    timestamp: Instant,
    signal: string,
    price: real,
    symbol: string,
    timeframe: string,
    payload: Payload)

  /** The single open position. */
  datatype Position = Position(
    direction: Direction,
    entryTime: Instant,
    entryPrice: real,
    symbol: string)

  /** One row of the append-only ledger of closed trades. */
  datatype Trade = Trade(
    symbol: string,
    direction: Direction,
    entryTime: Instant,
    entryPrice: real,
    exitTime: Instant,
    exitPrice: real,
    pnlPoints: real,
    pnlPercent: real,
    durationSeconds: int)

  /** Why a webhook request failed. */
  datatype Error =
    | NotObjectBody     // the body had no keys to read: nothing was logged
    | NotNumericPrice   // the price did not read as a number: nothing was logged
    | ZeroEntryPrice    // the percent division raised: the signal was already logged
}
