/**
 * The small part of Go's runtime and standard library that the handlers
 * lean on: fixed-width integers and their conversions, decimal formatting
 * and parsing (package strconv) and upper-casing (strings.ToUpper),
 * restricted to ASCII text.
 */
module GoLib {

  const MinInt32: int := -0x8000_0000
  const MaxInt32: int := 0x7fff_ffff
  const MinInt64: int := -0x8000_0000_0000_0000
  const MaxInt64: int := 0x7fff_ffff_ffff_ffff

  newtype int32 = x: int | -0x8000_0000 <= x < 0x8000_0000
  newtype int64 = x: int | -0x8000_0000_0000_0000 <= x < 0x8000_0000_0000_0000

  datatype Option<+T> = None | Some(value: T)

  /** Go's conversion `int32(v)` from a 64-bit integer: keeps the low 32 bits, two's complement. */
  function WrapInt32(v: int64): (r: int32)
    ensures (r as int - v as int) % 0x1_0000_0000 == 0
    ensures MinInt32 <= v as int <= MaxInt32 ==> r as int == v as int
  {
    var low := (v as int) % 0x1_0000_0000;
    if low <= MaxInt32 then low as int32 else (low - 0x1_0000_0000) as int32
  }

  // ---------------------------------------------------------------------
  // Decimal digits

  predicate IsDigit(c: char) { '0' <= c <= '9' }

  predicate AllDigits(s: string) { forall i :: 0 <= i < |s| ==> IsDigit(s[i]) }

  function DigitValue(c: char): nat
    requires IsDigit(c)
  {
    c as int - '0' as int
  }

  function DigitChar(d: nat): (c: char)
    requires d < 10
    ensures IsDigit(c) && DigitValue(c) == d
  {
    ('0' as int + d) as char
  }

  /** The number a run of decimal digits denotes, most significant digit first. */
  function DigitsValue(s: string): nat
    requires AllDigits(s)
  {
    if s == [] then 0 else DigitsValue(s[..|s| - 1]) * 10 + DigitValue(s[|s| - 1])
  }

  /** The shortest decimal spelling of a natural number. */
  function Digits(n: nat): (s: string)
    ensures s != [] && AllDigits(s)
    ensures DigitsValue(s) == n
    ensures s[0] == '0' ==> n == 0 && s == "0"
  {
    if n < 10 then [DigitChar(n)]
    else
      var front := Digits(n / 10);
      var s := front + [DigitChar(n % 10)];
      assert s[..|s| - 1] == front;
      s
  }

  /** The text after an optional leading sign. */
  function Magnitude(s: string): string
    requires s != []
  {
    if s[0] == '+' || s[0] == '-' then s[1..] else s
  }

  /**
   * strconv.FormatInt(n, 10): a minus sign exactly for negatives, never a
   * plus sign, then the shortest decimal spelling of the absolute value.
   */
  function FormatInt(n: int): (s: string)
    ensures s != []
    ensures n < 0 <==> s[0] == '-'
    ensures n >= 0 ==> AllDigits(s)
    ensures Magnitude(s) != [] && AllDigits(Magnitude(s))
    ensures DigitsValue(Magnitude(s)) == if n < 0 then -n else n
    ensures Magnitude(s)[0] == '0' ==> n == 0 && s == "0"
  {
    if n < 0 then "-" + Digits(-n) else Digits(n)
  }

  /** Whether a value fits a signed integer of the given width (32 or 64). */
  predicate FitsBits(v: int, bitSize: nat)
  {
    if bitSize == 32 then MinInt32 <= v <= MaxInt32 else MinInt64 <= v <= MaxInt64
  }

  /**
   * Scans a run of decimal digits, most significant first: its value, or
   * None as soon as some character is not a digit.
   */
  function ScanDigits(s: string): (r: Option<nat>)
    ensures r.Some? <==> AllDigits(s)
    ensures r.Some? ==> r.value == DigitsValue(s)
  {
    if s == [] then Some(0)
    else
      var front := ScanDigits(s[..|s| - 1]);
      if front.None? || !IsDigit(s[|s| - 1]) then
        assert !AllDigits(s) by {
          if front.None? {
            var i :| 0 <= i < |s| - 1 && !IsDigit(s[..|s| - 1][i]);
            assert !IsDigit(s[i]);
          }
        }
        None
      else Some(front.value * 10 + DigitValue(s[|s| - 1]))
  }

  /**
   * The syntax strconv.ParseInt accepts in base 10: an optional sign, then
   * at least one decimal digit and nothing else (no spaces, no underscores).
   */
  predicate IsDecimal(s: string)
  {
    s != [] && Magnitude(s) != [] && AllDigits(Magnitude(s))
  }

  /** The value of a signed decimal: its digits' value, negated after a minus sign. */
  function DecimalValue(s: string): int
    requires IsDecimal(s)
  {
    if s[0] == '-' then -(DigitsValue(Magnitude(s)) as int) else DigitsValue(Magnitude(s))
  }

  /** Parses a signed decimal of any size, scanning its digits once. */
  function ParseDecimal(s: string): (r: Option<int>)
    ensures r.Some? <==> IsDecimal(s)
    ensures r.Some? ==> r.value == DecimalValue(s)
  {
    if s == [] then None
    else
      var body := if s[0] == '+' || s[0] == '-' then s[1..] else s;
      var digits := ScanDigits(body);
      if body == [] || digits.None? then None
      else if s[0] == '-' then Some(-(digits.value as int))
      else Some(digits.value)
  }

  /**
   * strconv.ParseInt(s, 10, bitSize) with its error folded into None: a
   * syntax error, or a value outside the signed range of the width.
   */
  function ParseInt(s: string, bitSize: nat): (r: Option<int>)
    requires bitSize == 32 || bitSize == 64
    ensures r.Some? <==> IsDecimal(s) && FitsBits(DecimalValue(s), bitSize)
    ensures r.Some? ==> r.value == DecimalValue(s)
  {
    var d := ParseDecimal(s);
    if d.Some? && FitsBits(d.value, bitSize) then d else None
  }

  /** Parsing undoes formatting, for every integer. */
  lemma ParseFormat(n: int)
    ensures ParseDecimal(FormatInt(n)) == Some(n)
  {
    var s := FormatInt(n);
    if n < 0 {
      assert s[1..] == Digits(-n);
    } else {
      assert s == Digits(n);
    }
  }

  /**
   * strconv.Atoi on a non-empty run of ASCII digits, with the error
   * discarded: Go's int is 64 bits wide and an out-of-range value comes
   * back clamped to the largest int.
   */
  function AtoiDigits(s: string): (n: int)
    requires s != [] && AllDigits(s)
    ensures 0 <= n <= MaxInt64
  {
    if DigitsValue(s) <= MaxInt64 then DigitsValue(s) else MaxInt64
  }

  /** Below the clamp, Atoi and ParseInt(s, 10, 64) agree, and Atoi undoes FormatInt. */
  lemma AtoiAgreesWithParse(s: string)
    requires s != [] && AllDigits(s)
    ensures ParseInt(s, 64).Some? ==> AtoiDigits(s) == ParseInt(s, 64).value
    ensures ParseInt(s, 64).None? ==> AtoiDigits(s) == MaxInt64 < DigitsValue(s)
  {
  }

  lemma AtoiFormat(n: nat)
    requires n <= MaxInt64
    ensures AtoiDigits(FormatInt(n)) == n
  {
    ParseFormat(n);
  }

  // ---------------------------------------------------------------------
  // Upper-casing

  /** strings.ToUpper on one character, for ASCII letters. */
  function UpperChar(c: char): (u: char)
    ensures !('a' <= u <= 'z')
    ensures 'a' <= c <= 'z' || u == c
    ensures 'a' <= c <= 'z' ==> 'A' <= u <= 'Z' && u as int - 'A' as int == c as int - 'a' as int
  {
    if 'a' <= c <= 'z' then (c as int - 32) as char else c
  }

  /** No lower-case ASCII letter occurs in the text. */
  predicate IsUpper(s: string) { forall i :: 0 <= i < |s| ==> !('a' <= s[i] <= 'z') }

  /** strings.ToUpper: every character upper-cased, the length kept. */
  function Upper(s: string): (r: string)
    ensures |r| == |s| && IsUpper(r)
    ensures forall i :: 0 <= i < |s| ==> r[i] == UpperChar(s[i])
  {
    if s == [] then [] else [UpperChar(s[0])] + Upper(s[1..])
  }

  /** Upper-case text is a fixed point of Upper; so Upper is idempotent. */
  lemma UpperOfUpper(s: string)
    requires IsUpper(s)
    ensures Upper(s) == s
  {
    assert forall i :: 0 <= i < |s| ==> Upper(s)[i] == s[i];
  }

  lemma UpperIdempotent(s: string)
    ensures Upper(Upper(s)) == Upper(s)
  {
    UpperOfUpper(Upper(s));
  }

  /** Upper-casing neither empties text nor changes whether it is all digits. */
  lemma UpperKeepsDigits(s: string)
    ensures Upper(s) == [] <==> s == []
    ensures AllDigits(Upper(s)) <==> AllDigits(s)
    ensures AllDigits(s) ==> Upper(s) == s
  {
    if AllDigits(Upper(s)) {
      forall i | 0 <= i < |s| ensures IsDigit(s[i]) {
        assert IsDigit(Upper(s)[i]);
      }
    }
    if AllDigits(s) {
      assert forall i :: 0 <= i < |s| ==> Upper(s)[i] == s[i];
    }
  }
}
