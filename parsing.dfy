/**
 * The .NET text parsers the decoders call: long.Parse, int.Parse and
 * bool.Parse, reduced to the formats JSON payloads use.
 */
module Parsing {
  import opened Wrappers
  import opened Decimal

  const MIN_INT64: int := -0x8000_0000_0000_0000
  const MAX_INT64: int := 0x7FFF_FFFF_FFFF_FFFF
  const MIN_INT32: int := -0x8000_0000
  const MAX_INT32: int := 0x7FFF_FFFF

  /** C# long. */
  newtype int64 = x: int | -0x8000_0000_0000_0000 <= x <= 0x7FFF_FFFF_FFFF_FFFF

  /** C# int. */
  newtype int32 = x: int | -0x8000_0000 <= x <= 0x7FFF_FFFF

  /** Why a number parse threw: FormatException or OverflowException. */
  datatype NumberError = BadFormat | Overflow

  /** Integer text within [lo, hi]: BadFormat unless the text is a signed run
      of digits, Overflow when its value lies outside the bounds. */
  function ParseBounded(s: string, lo: int, hi: int): (r: Result<int, NumberError>)
    ensures r == Err(BadFormat) <==> !IsIntegerText(s)
    ensures r == Err(Overflow) <==> IsIntegerText(s) && !(lo <= IntegerValue(s).value <= hi)
    ensures r.Ok? ==> IntegerValue(s) == Some(r.value) && lo <= r.value <= hi
  {
    match IntegerValue(s)
    case None => Err(BadFormat)
    case Some(n) => if lo <= n <= hi then Ok(n) else Err(Overflow)
  }

  /** long.Parse. */
  function ParseLong(s: string): (r: Result<int64, NumberError>)
    ensures r.Ok? <==> IsIntegerText(s) && MIN_INT64 <= IntegerValue(s).value <= MAX_INT64
    ensures r.Err? ==> (r.error == BadFormat <==> !IsIntegerText(s))
    ensures r.Ok? ==> IntegerValue(s) == Some(r.value as int)
  {
    var n :- ParseBounded(s, MIN_INT64, MAX_INT64);
    Ok(n as int64)
  }

  /** int.Parse. */
  function ParseInt(s: string): (r: Result<int32, NumberError>)
    ensures r.Ok? <==> IsIntegerText(s) && MIN_INT32 <= IntegerValue(s).value <= MAX_INT32
    ensures r.Err? ==> (r.error == BadFormat <==> !IsIntegerText(s))
    ensures r.Ok? ==> IntegerValue(s) == Some(r.value as int)
  {
    var n :- ParseBounded(s, MIN_INT32, MAX_INT32);
    Ok(n as int32)
  }

  function LowerChar(c: char): char {
    if 'A' <= c <= 'Z' then c - 'A' + 'a' else c
  }

  /** The text with its ASCII capitals lowered. */
  function LowerText(s: string): (r: string)
    ensures |r| == |s|
  {
    seq(|s|, i requires 0 <= i < |s| => LowerChar(s[i]))
  }

  /** bool.Parse: "true" or "false" in any mix of letter case; anything else
      throws (None). */
  function ParseBool(s: string): (r: Option<bool>)
    ensures r == Some(true) <==> LowerText(s) == "true"
    ensures r == Some(false) <==> LowerText(s) == "false"
    ensures r.Some? ==> |s| == (if r.value then 4 else 5)
  {
    var t := LowerText(s);
    if t == "true" then Some(true) else if t == "false" then Some(false) else None
  }

  /** Every long reads back from its decimal text. */
  lemma LongRoundTrip(n: int64)
    ensures ParseLong(DecimalText(n as int)) == Ok(n)
  {
    DecimalRoundTrip(n as int);
  }

  /** Every int reads back from its decimal text. */
  lemma IntRoundTrip(n: int32)
    ensures ParseInt(DecimalText(n as int)) == Ok(n)
  {
    DecimalRoundTrip(n as int);
  }

  /** .NET renders a boolean as "True" or "False", and bool.Parse reads that back. */
  lemma BoolRoundTrip(b: bool)
    ensures ParseBool(if b then "True" else "False") == Some(b)
  {
    if b {
      assert LowerText("True") == "true";
    } else {
      assert LowerText("False") == "false";
    }
  }
}
