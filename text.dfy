/** The few string operations the services rely on: JavaScript's printing of
    integers in template literals, `toLowerCase` restricted to ASCII letters,
    and `includes` on strings. */
module Text {
  import opened Seqs

  predicate IsDigit(c: char)
  {
    '0' <= c <= '9'
  }

  predicate AllDigits(s: string)
  {
    forall i :: 0 <= i < |s| ==> IsDigit(s[i])
  }

  function DigitChar(d: nat): (c: char)
    requires d < 10
    ensures IsDigit(c) && c as int - '0' as int == d
  {
    ('0' as int + d) as char
  }

  /** The decimal digits of `n` without leading zeros, as `${n}` prints a
      non-negative integer. */
  function NatToString(n: nat): (s: string)
    ensures |s| >= 1 && AllDigits(s)
    ensures s[0] == '0' ==> n == 0
    decreases n
  {
    if n < 10 then [DigitChar(n)] else NatToString(n / 10) + [DigitChar(n % 10)]
  }

  /** The value of a string of decimal digits. */
  function ParseNat(s: string): nat
    requires AllDigits(s)
    decreases |s|
  {
    if s == [] then 0 else 10 * ParseNat(s[..|s| - 1]) + (s[|s| - 1] as int - '0' as int)
  }

  lemma {:induction false} ParseNatToString(n: nat)
    ensures ParseNat(NatToString(n)) == n
  {
    if n >= 10 {
      var s := NatToString(n);
      assert s[..|s| - 1] == NatToString(n / 10);
      ParseNatToString(n / 10);
    }
  }

  /** `${i}` for an integer `i` below 10^21 in magnitude: a minus sign before
      the digits of `-i` when negative. JavaScript prints larger numbers in
      exponent form, which this does not follow. */
  function IntToString(i: int): (s: string)
  {
    if i < 0 then "-" + NatToString(-i) else NatToString(i)
  }

  /** Reads back what `IntToString` prints. */
  function ParseInt(s: string): Option<int>
  {
    if |s| > 1 && s[0] == '-' && AllDigits(s[1..]) then (var n: int := ParseNat(s[1..]); Some(-n))
    else if |s| > 0 && AllDigits(s) then Some(ParseNat(s))
    else None
  }

  /** Printing an integer loses nothing: distinct integers print differently. */
  lemma IntToStringRoundTrip(i: int)
    ensures ParseInt(IntToString(i)) == Some(i)
  {
    if i < 0 {
      var d := NatToString(-i);
      var s := "-" + d;
      assert s[1..] == d;
      ParseNatToString(-i);
      assert ParseInt(s) == Some(i);
    } else {
      var s := NatToString(i);
      assert s[0] != '-';
      ParseNatToString(i);
      assert ParseInt(s) == Some(i);
    }
  }

  /** `toLowerCase` on one character, for the ASCII letters only. */
  function LowerChar(c: char): char
  {
    if 'A' <= c <= 'Z' then (c as int - 'A' as int + 'a' as int) as char else c
  }

  function LowerAscii(s: string): string
  {
    seq(|s|, i requires 0 <= i < |s| => LowerChar(s[i]))
  }

  /** Lower-casing twice is lower-casing once. */
  lemma LowerAsciiIdempotent(s: string)
    ensures LowerAscii(LowerAscii(s)) == LowerAscii(s)
  {
  }

  /** `needle` appears in `hay` starting at position `i`. */
  predicate OccursAt(hay: string, needle: string, i: int)
  {
    0 <= i <= |hay| - |needle| && hay[i..i + |needle|] == needle
  }

  /** `hay.includes(needle)`: the empty string occurs everywhere. */
  function Contains(hay: string, needle: string): (b: bool)
    ensures b <==> exists i :: OccursAt(hay, needle, i)
    decreases |hay|
  {
    if OccursAt(hay, needle, 0) then true
    else if hay == [] then false
    else
      var b := Contains(hay[1..], needle);
      assert forall i :: OccursAt(hay[1..], needle, i) <==> 0 <= i && OccursAt(hay, needle, i + 1);
      assert forall i :: 1 <= i && OccursAt(hay, needle, i) ==> OccursAt(hay[1..], needle, i - 1);
      b
  }

  /** How JavaScript prints a temperature that is a whole number of tenths
      `t`: 37.5 °C prints as "37.5", 37.0 °C as "37". */
  function TenthsToString(t: int): string
  {
    if t < 0 then "-" + NatTenthsToString(-t) else NatTenthsToString(t)
  }

  function NatTenthsToString(n: nat): string
  {
    NatToString(n / 10) + (if n % 10 == 0 then "" else "." + [DigitChar(n % 10)])
  }
}
