/** Turning a decoded webhook payload into the signal record that is logged:
    upper-casing the token and filling in the defaults. */
module Normalise {
  import opened Wrappers
  import opened Domain

  const DefaultSignal: string := "UNKNOWN"
  const DefaultSymbol: string := "USTEC"
  const DefaultTimeframe: string := "1m"

  /** Upper-cases one ASCII letter; every other character is kept. */
  function UpperChar(c: char): (u: char)
    ensures 'a' <= c <= 'z' ==> 'A' <= u <= 'Z' && u as int - c as int == 'A' as int - 'a' as int
    ensures !('a' <= c <= 'z') ==> u == c
  {
    if 'a' <= c <= 'z' then (c as int - 'a' as int + 'A' as int) as char else c
  }

  /** Upper-cases a token character by character. */
  function Upper(s: string): (r: string)
    ensures |r| == |s|
    ensures forall i :: 0 <= i < |s| ==> r[i] == UpperChar(s[i])
  {
    if |s| == 0 then [] else [UpperChar(s[0])] + Upper(s[1..])
  }

  /** The signal is tradable exactly when its token is "long" or "short" in
      any mix of letter case. */
  lemma TradableIgnoresCase(s: string, d: Direction)
    ensures ParseDirection(Upper(s)) == Some(d) <==>
      (|s| == |DirectionName(d)| && forall i :: 0 <= i < |s| ==> UpperChar(s[i]) == DirectionName(d)[i])
  {
  }

  /** A payload without a signal key is never tradable. */
  lemma DefaultSignalNotTradable()
    ensures ParseDirection(Upper(DefaultSignal)).None?
  {
  }

  /** The price the payload carries, 0 when absent, or the error a
      non-numeric value raises. */
  function ReadPrice(field: Option<PriceField>): (r: Result<real, Error>)
    ensures field.None? ==> r == Success(0.0)
    ensures r.Failure? <==> field == Some(NotNumeric)
    ensures r.Failure? ==> r.error == NotNumericPrice
    ensures field.Some? && field.value.Number? ==> r == Success(field.value.amount)
  {
    match field
    case None => Success(0.0)
    case Some(Number(x)) => Success(x)
    case Some(NotNumeric) => Failure(NotNumericPrice)
  }

  /** The signal record for the request `body`, stamped with the arrival
      instant `now`, or the error that aborts the request before anything is
      logged: a body that is not an object has no keys to read, and a price
      must read as a number. */
  function NormaliseSignal(body: Body, now: Instant): (r: Result<SignalRecord, Error>)
    ensures r.Failure? <==> body.NotAnObject? || body.payload.price == Some(NotNumeric)
    ensures body.NotAnObject? ==> r == Failure(NotObjectBody)
    ensures body.Object? && r.Failure? ==> r.error == NotNumericPrice
    ensures r.Success? ==>
      var payload := body.payload;
      && r.value.timestamp == now
      && r.value.signal == Upper(payload.signal.GetOr(DefaultSignal))
      && (payload.signal.None? ==> r.value.signal == DefaultSignal)
      && (payload.price.None? ==> r.value.price == 0.0)
      && (payload.price.Some? ==> r.value.price == payload.price.value.amount)
      && r.value.symbol == payload.symbol.GetOr(DefaultSymbol)
      && (payload.symbol.None? ==> r.value.symbol == DefaultSymbol)
      && r.value.timeframe == payload.timeframe.GetOr(DefaultTimeframe)
      && r.value.payload == payload
  {
    match body
    case NotAnObject => Failure(NotObjectBody)
    case Object(payload) =>
      var signal := Upper(payload.signal.GetOr(DefaultSignal));
      assert payload.signal.None? ==> signal == DefaultSignal;
      match ReadPrice(payload.price)
      case Failure(e) => Failure(e)
      case Success(price) =>
        Success(SignalRecord(now, signal, price,
          payload.symbol.GetOr(DefaultSymbol), payload.timeframe.GetOr(DefaultTimeframe), payload))
  }
}
