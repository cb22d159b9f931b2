/** Opaque leaf values of the payload types: times, dates, country codes and decimals.

    The client never looks inside these values; it only moves them between JSON and its
    structs. The model keeps each one as the JSON literal it was read from and checks only the
    JSON kind that the field's deserializer accepts. Calendar arithmetic, range checks and the
    parsing of the text forms are not modelled.
 */
module Leaves {
  import opened Wrappers
  import opened Json

  /** `time::serde::timestamp`: a count of seconds since the Unix epoch, written as a number. */
  datatype UnixTime = UnixTime(seconds: int)

  /** `time::serde::rfc3339`: an RFC 3339 date-time, written as a string. */
  datatype Rfc3339Time = Rfc3339Time(text: string)

  /** A calendar date (`time::Date`), written as a string. */
  datatype Date = Date(text: string)

  /** An ISO 3166 country code (`CountryCode`), written as a string. */
  datatype CountryCode = CountryCode(code: string)

  /** `Decimal` accepts a string or a number; the model keeps the literal it was given. */
  datatype Decimal = DecimalText(text: string) | DecimalInt(i: int) | DecimalFrac(digits: string)

  function AsUnixTime(v: Json): (r: Option<UnixTime>)
    ensures r.Some? <==> v.Int?
    ensures r.Some? ==> r.value.seconds == v.i
  {
    if v.Int? then Some(UnixTime(v.i)) else None
  }

  function FromUnixTime(t: UnixTime): Json {
    Int(t.seconds)
  }

  function AsRfc3339Time(v: Json): (r: Option<Rfc3339Time>)
    ensures r.Some? <==> v.Str?
    ensures r.Some? ==> r.value.text == v.s
  {
    if v.Str? then Some(Rfc3339Time(v.s)) else None
  }

  function FromRfc3339Time(t: Rfc3339Time): Json {
    Str(t.text)
  }

  function AsDate(v: Json): (r: Option<Date>)
    ensures r.Some? <==> v.Str?
    ensures r.Some? ==> r.value.text == v.s
  {
    if v.Str? then Some(Date(v.s)) else None
  }

  function FromDate(d: Date): Json {
    Str(d.text)
  }

  function AsCountryCode(v: Json): (r: Option<CountryCode>)
    ensures r.Some? <==> v.Str?
    ensures r.Some? ==> r.value.code == v.s
  {
    if v.Str? then Some(CountryCode(v.s)) else None
  }

  function FromCountryCode(c: CountryCode): Json {
    Str(c.code)
  }

  function AsDecimal(v: Json): (r: Option<Decimal>)
    ensures r.Some? <==> v.Str? || v.Int? || v.Frac?
  {
    match v
    case Str(s) => Some(DecimalText(s))
    case Int(i) => Some(DecimalInt(i))
    case Frac(digits) => Some(DecimalFrac(digits))
    case _ => None
  }

  function FromDecimal(d: Decimal): Json {
    match d
    case DecimalText(s) => Str(s)
    case DecimalInt(i) => Int(i)
    case DecimalFrac(digits) => Frac(digits)
  }

  /** Every leaf reads back what was written for it, and nothing is written as `null`. */
  lemma LeavesRoundTrip(t: UnixTime, u: Rfc3339Time, d: Date, c: CountryCode, x: Decimal)
    ensures AsUnixTime(FromUnixTime(t)) == Some(t) && FromUnixTime(t) != Null
    ensures AsRfc3339Time(FromRfc3339Time(u)) == Some(u) && FromRfc3339Time(u) != Null
    ensures AsDate(FromDate(d)) == Some(d) && FromDate(d) != Null
    ensures AsCountryCode(FromCountryCode(c)) == Some(c) && FromCountryCode(c) != Null
    ensures AsDecimal(FromDecimal(x)) == Some(x) && FromDecimal(x) != Null
  {
  }
}
