/**
 * Dynamically typed values as the wrapper sees them: the payloads handed
 * over by the receiver (Qt's QVariant / QVariantMap), together with the three
 * conversions the store relies on -- toString(), toMap() and toInt().
 */
module Variant {

  datatype Option<T> = None | Some(value: T)

  /** A QVariant. Numbers are integers; floating point is not modelled. */
  datatype Value =
    | Null                          // an invalid QVariant, e.g. the result of a missing key
    | Bool(b: bool)
    | Int(i: int)
    | Str(s: string)
    | List(items: seq<Value>)       // QVariantList
    | Rec(fields: map<string, Value>)  // QVariantMap

  /** QVariantMap::value(key): a missing key reads as an invalid QVariant. */
  function Lookup(m: map<string, Value>, key: string): (v: Value)
    ensures key !in m ==> v == Null
    ensures key in m ==> v == m[key]
  {
    if key in m then m[key] else Null
  }

  /** QVariant::toMap(): anything that is not a map converts to the empty map. */
  function ToMap(v: Value): (m: map<string, Value>)
    ensures v.Rec? ==> m == v.fields
    ensures m != map[] ==> v == Rec(m)
  {
    match v
    case Rec(fields) => fields
    case _ => map[]
  }

  /** QVariant::toString(): integers print in decimal, booleans as "true"/"false",
      an invalid value, a list or a map converts to the empty string. */
  function ToString(v: Value): (s: string)
    ensures v.Int? ==> ParseDecimal(s) == Some(v.i)
    ensures v.Int? ==> CanonicalDecimal(s) && (s[0] == '-' <==> v.i < 0)
    ensures v.Bool? ==> s == (if v.b then "true" else "false")
    ensures v.Str? ==> s == v.s
    ensures v.Null? || v.List? || v.Rec? ==> s == ""
    ensures s == "" ==> !v.Int? && !v.Bool?
  {
    match v
    case Null => ""
    case Bool(b) => if b then "true" else "false"
    case Int(n) => ParseIntToString(n); IntToString(n)
    case Str(s) => s
    case List(_) => ""
    case Rec(_) => ""
  }

  /** QVariant::toInt(): an integer is narrowed to 32 bits as a C++ cast does;
      a string is read as a 64-bit number (0 when it is not a number or does
      not fit in 64 bits) and then narrowed the same way; true is 1,
      everything else 0. */
  function ToInt(v: Value): (n: int)
    ensures MinInt32 <= n <= MaxInt32
    ensures v.Int? ==> n == Wrap32(v.i)
    ensures v.Int? && MinInt32 <= v.i <= MaxInt32 ==> n == v.i
    ensures v.Str? && ParseDecimal(v.s).Some? && MinInt64 <= ParseDecimal(v.s).value <= MaxInt64
            ==> n == Wrap32(ParseDecimal(v.s).value)
    ensures v.Str? && ParseDecimal(v.s).Some? && !(MinInt64 <= ParseDecimal(v.s).value <= MaxInt64) ==> n == 0
    ensures v.Str? && ParseDecimal(v.s).None? ==> n == 0
    ensures v.Bool? ==> n == (if v.b then 1 else 0)
    ensures v.Null? || v.List? || v.Rec? ==> n == 0
  {
    match v
    case Null => 0
    case Bool(b) => if b then 1 else 0
    case Int(i) => Wrap32(i)
    case Str(s) =>
      (match ParseDecimal(s)
       case Some(k) => if MinInt64 <= k <= MaxInt64 then Wrap32(k) else 0
       case None => 0)
    case List(_) => 0
    case Rec(_) => 0
  }

  const MinInt32: int := -0x8000_0000
  const MaxInt32: int := 0x7FFF_FFFF
  const MinInt64: int := -0x8000_0000_0000_0000
  const MaxInt64: int := 0x7FFF_FFFF_FFFF_FFFF

  /** Two's-complement truncation of an integer to 32 bits. */
  function Wrap32(n: int): (r: int)
    ensures MinInt32 <= r <= MaxInt32
    ensures (r - n) % 0x1_0000_0000 == 0
    ensures MinInt32 <= n <= MaxInt32 ==> r == n
  {
    (n - MinInt32) % 0x1_0000_0000 + MinInt32
  }

  // ---------------------------------------------------------------------
  // Decimal printing and parsing of integers

  predicate IsDigit(c: char) {
    '0' <= c <= '9'
  }

  predicate AllDigits(s: string) {
    forall k :: 0 <= k < |s| ==> IsDigit(s[k])
  }

  function DigitChar(d: nat): (c: char)
    requires d < 10
    ensures IsDigit(c)
  {
    ('0' as int + d) as char
  }

  function DigitValue(c: char): (d: nat)
    requires IsDigit(c)
    ensures d < 10 && DigitChar(d) == c
  {
    c as int - '0' as int
  }

  /** The canonical text of an integer: digits without a leading zero (a lone
      "0" aside), after a '-' for a negative number. */
  predicate CanonicalDecimal(s: string) {
    || (|s| >= 1 && AllDigits(s) && (s[0] == '0' ==> s == "0"))
    || (|s| >= 2 && s[0] == '-' && AllDigits(s[1..]) && s[1] != '0')
  }

  /** The decimal digits of n, most significant first, without leading zeros. */
  function NatToDecimal(n: nat): (s: string)
    ensures |s| >= 1 && AllDigits(s)
    ensures s[0] == '0' ==> n == 0
    decreases n
  {
    if n < 10 then [DigitChar(n)] else NatToDecimal(n / 10) + [DigitChar(n % 10)]
  }

  /** The text of an integer: a '-' for negative numbers, then its decimal digits. */
  function IntToString(n: int): (s: string)
    ensures |s| >= 1
  {
    if n < 0 then "-" + NatToDecimal(-n) else NatToDecimal(n)
  }

  /** The number a string of decimal digits denotes. */
  function DecimalValue(s: string): nat
    requires AllDigits(s)
  {
    if s == [] then 0 else DecimalValue(s[..|s| - 1]) * 10 + DigitValue(s[|s| - 1])
  }

  /** An optional sign followed by one or more decimal digits. */
  function ParseDecimal(s: string): (r: Option<int>)
  {
    if |s| > 0 && (s[0] == '-' || s[0] == '+') then
      match ParseUnsigned(s[1..])
      case Some(k) =>
        var magnitude: int := k;
        Some(if s[0] == '-' then -magnitude else magnitude)
      case None => None
    else
      ParseUnsigned(s)
  }

  function ParseUnsigned(s: string): (r: Option<nat>)
    ensures r.Some? <==> |s| > 0 && AllDigits(s)
  {
    if |s| > 0 && AllDigits(s) then Some(DecimalValue(s)) else None
  }

  lemma {:induction false} NatToDecimalValue(n: nat)
    ensures DecimalValue(NatToDecimal(n)) == n
    decreases n
  {
    var s := NatToDecimal(n);
    if n < 10 {
      assert s[..|s| - 1] == [];
    } else {
      NatToDecimalValue(n / 10);
      assert s[..|s| - 1] == NatToDecimal(n / 10);
    }
  }

  /** Parsing the text of an integer gives the integer back. */
  lemma {:induction false} ParseIntToString(n: int)
    ensures ParseDecimal(IntToString(n)) == Some(n)
  {
    if n < 0 {
      var t := NatToDecimal(-n);
      NatToDecimalValue(-n);
      assert ("-" + t)[1..] == t;
    } else {
      NatToDecimalValue(n);
    }
  }

  /** A canonical digit string is the printing of the number it denotes. */
  lemma {:induction false} CanonicalDigitsArePrinted(s: string)
    requires |s| >= 1 && AllDigits(s) && (s[0] == '0' ==> s == "0")
    ensures s == NatToDecimal(DecimalValue(s))
    ensures s[0] != '0' ==> DecimalValue(s) > 0
    decreases |s|
  {
    if |s| > 1 {
      var p := s[..|s| - 1];
      CanonicalDigitsArePrinted(p);
      assert DecimalValue(s) == DecimalValue(p) * 10 + DigitValue(s[|s| - 1]);
      assert s == p + [s[|s| - 1]];
    }
  }

  /** The text of an integer is the only canonical text that parses to it. */
  lemma CanonicalDecimalUnique(s: string, n: int)
    requires CanonicalDecimal(s) && ParseDecimal(s) == Some(n)
    ensures s == IntToString(n)
  {
    if s[0] == '-' {
      var t := s[1..];
      assert s == "-" + t;
      CanonicalDigitsArePrinted(t);
    } else {
      CanonicalDigitsArePrinted(s);
    }
  }

  /** Two integers print alike exactly when they are equal. */
  lemma IntToStringInjective(a: int, b: int)
    ensures IntToString(a) == IntToString(b) <==> a == b
  {
    ParseIntToString(a);
    ParseIntToString(b);
  }
}
