/** Java's 64-bit `long` as the timer screen uses it: `Long.parseLong` on the text of an
    input field, `String.valueOf(long)` for the remaining-seconds readout, and the silent
    wrap-around of `long` multiplication. */
module JavaLong {

  datatype Option<T> = None | Some(value: T)

  const MinLong: int := -0x8000_0000_0000_0000
  const MaxLong: int := 0x7FFF_FFFF_FFFF_FFFF
  /** 2^64: two longs that differ by a multiple of this are the same bit pattern. */
  const LongModulus: int := 0x1_0000_0000_0000_0000

  predicate IsLong(x: int) {
    MinLong <= x <= MaxLong
  }

  /** The long that Java keeps of an exact integer result: two's-complement reduction to 64 bits. */
  function WrapLong(x: int): (r: int)
    ensures IsLong(r)
    ensures (x - r) % LongModulus == 0
    ensures IsLong(x) ==> r == x
  {
    var q := (x - MinLong) / LongModulus;
    assert x - ((x - MinLong) % LongModulus + MinLong) == q * LongModulus;
    (x - MinLong) % LongModulus + MinLong
  }

  predicate IsDigit(c: char) {
    '0' <= c <= '9'
  }

  function DigitValue(c: char): (d: nat)
    requires IsDigit(c)
    ensures d < 10
  {
    c as int - '0' as int
  }

  function DigitChar(d: nat): (c: char)
    requires d < 10
    ensures IsDigit(c) && DigitValue(c) == d
  {
    ('0' as int + d) as char
  }

  predicate AllDigits(s: string) {
    forall i :: 0 <= i < |s| ==> IsDigit(s[i])
  }

  /** The number a run of decimal digits denotes, most significant digit first; leading zeros are allowed. */
  function DigitsValue(s: string): nat
    requires AllDigits(s)
  {
    if s == [] then 0 else DigitsValue(s[..|s| - 1]) * 10 + DigitValue(s[|s| - 1])
  }

  /** `Long.parseLong(s)` in radix 10: an optional '-' or '+', then at least one digit, and a value
      that fits in a long. `None` stands for the `NumberFormatException` thrown otherwise. */
  function ParseLong(s: string): (r: Option<int>)
    ensures r.Some? ==> IsLong(r.value)
    ensures r.Some? ==> s != [] && (s[0] == '-' ==> r.value <= 0) && (s[0] != '-' ==> r.value >= 0)
  {
    if s == [] then None
    else
      var body := if s[0] == '-' || s[0] == '+' then s[1..] else s;
      if body == [] || !AllDigits(body) then None
      else
        var v := if s[0] == '-' then 0 - DigitsValue(body) as int else DigitsValue(body) as int;
        if IsLong(v) then Some(v) else None
  }

  /** The canonical decimal digits of a natural number: no leading zero except for 0 itself. */
  function NatDigits(n: nat): (s: string)
    ensures s != [] && AllDigits(s)
    ensures DigitsValue(s) == n
    ensures s[0] == '0' <==> n == 0
  {
    if n < 10 then [DigitChar(n)]
    else
      var s := NatDigits(n / 10) + [DigitChar(n % 10)];
      assert s[..|s| - 1] == NatDigits(n / 10);
      s
  }

  /** `String.valueOf(long)`: a '-' for negative numbers, then the canonical digits of the magnitude. */
  function FormatLong(n: int): (s: string)
    ensures s != []
    ensures s[0] == '-' <==> n < 0
  {
    if n < 0 then "-" + NatDigits(-n) else NatDigits(n)
  }

  /** Formatting a number and parsing the text back returns the number exactly when it is a long;
      a number outside the long range is formatted to text that `Long.parseLong` rejects. */
  lemma ParseFormat(n: int)
    ensures ParseLong(FormatLong(n)) == if IsLong(n) then Some(n) else None
  {
  }

  /** A character that is neither a digit nor a leading sign makes `Long.parseLong` fail. */
  lemma ParseRejectsStrayCharacter(s: string, i: nat)
    requires i < |s| && !IsDigit(s[i])
    requires i == 0 ==> s[0] != '-' && s[0] != '+'
    ensures ParseLong(s) == None
  {
  }

  /** An empty field, or a field holding only a sign, makes `Long.parseLong` fail. */
  lemma ParseRejectsEmpty(s: string)
    requires s == [] || s == "-" || s == "+"
    ensures ParseLong(s) == None
  {
  }
}
