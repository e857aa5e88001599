/**
 * The dynamically typed values a stored document holds, and the three
 * coercions the civil-registry normalizer applies to them.  Each coercion
 * handles a fixed set of dynamic types and falls back to a constant
 * ("-" or 0) for every other type and for text that does not parse.
 */
module Coercions {
  import opened GoLib

  /**
   * A value read from a document: text, a 32-bit or 64-bit integer, Go's
   * native int (64 bits), any other type (floats, booleans, dates, nested
   * documents), or nil for a missing key or a stored null.
   */
  datatype Value = Str(s: string) | I32(i32: int32) | I64(i64: int64) | Int(n: int64) | Other | Nil

  /** Text stays as it is, a 32-bit integer is written in decimal, anything else is "-". */
  function ConvertToString(v: Value): (s: string)
    ensures v.Str? ==> s == v.s
    ensures v.I32? ==> s == FormatInt(v.i32 as int) && ParseInt(s, 32) == Some(v.i32 as int)
    ensures !v.Str? && !v.I32? ==> s == "-"
  {
    match v
    case Str(t) => t
    case I32(n) =>
      ParseFormat(n as int);
      FormatInt(n as int)
    case _ => "-"
  }

  /**
   * A 32-bit integer as it is, a native int truncated to its low 32 bits,
   * text that parses as a 32-bit decimal as its value; 0 otherwise,
   * including for a 64-bit integer.
   */
  function ConvertToInt32(v: Value): (n: int32)
    ensures v.I32? ==> n == v.i32
    ensures v.Int? ==> (n as int - v.n as int) % 0x1_0000_0000 == 0
    ensures v.Int? && MinInt32 <= v.n as int <= MaxInt32 ==> n as int == v.n as int
    ensures v.Str? && ParseInt(v.s, 32).Some? ==> n as int == ParseInt(v.s, 32).value
    ensures (v.Str? && ParseInt(v.s, 32).None?) || v.I64? || v.Other? || v.Nil? ==> n == 0
  {
    match v
    case I32(x) => x
    case Int(x) => WrapInt32(x)
    case Str(t) =>
      var parsed := ParseInt(t, 32);
      if parsed.Some? then parsed.value as int32 else 0
    case _ => 0
  }

  /**
   * Any of the three integer types widened to 64 bits, text that parses as
   * a 64-bit decimal as its value; 0 otherwise.
   */
  function ConvertToInt64(v: Value): (n: int64)
    ensures v.I64? ==> n == v.i64
    ensures v.Int? ==> n == v.n
    ensures v.I32? ==> n as int == v.i32 as int
    ensures v.Str? && ParseInt(v.s, 64).Some? ==> n as int == ParseInt(v.s, 64).value
    ensures (v.Str? && ParseInt(v.s, 64).None?) || v.Other? || v.Nil? ==> n == 0
  {
    match v
    case I64(x) => x
    case Int(x) => x
    case I32(x) => x as int as int64
    case Str(t) =>
      var parsed := ParseInt(t, 64);
      if parsed.Some? then parsed.value as int64 else 0
    case _ => 0
  }

  /**
   * A 32-bit integer written out by ConvertToString reads back as the same
   * number through either integer coercion.
   */
  lemma DecimalTextRoundTrip(n: int32)
    ensures ConvertToInt32(Str(ConvertToString(I32(n)))) == n
    ensures ConvertToInt64(Str(ConvertToString(I32(n)))) as int == n as int
  {
    ParseFormat(n as int);
  }

  /** Text that is not a signed decimal, such as the empty string, coerces to 0. */
  lemma NonNumericTextIsZero(t: string)
    requires t == [] || !(IsDigit(t[0]) || t[0] == '+' || t[0] == '-')
    ensures ConvertToInt32(Str(t)) == 0 && ConvertToInt64(Str(t)) == 0
  {
  }

  /**
   * The decimal text of a 64-bit number outside the 32-bit range, such as
   * a 16-digit national ID, coerces to 0 at 32 bits but keeps its value at
   * 64 bits.
   */
  lemma WideDecimalText(n: int64)
    requires !(MinInt32 <= n as int <= MaxInt32)
    ensures ConvertToInt32(Str(FormatInt(n as int))) == 0
    ensures ConvertToInt64(Str(FormatInt(n as int))) == n
  {
    ParseFormat(n as int);
  }
}
