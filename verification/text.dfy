/** String primitives used by the pages: `toLowerCase`, `includes`,
    `Number.prototype.toString` on non-negative integers and
    `padStart(2, '0')`. */
module Text {

  /** `toLowerCase` on one character, restricted to ASCII letters. */
  function LowerChar(c: char): char {
    if 'A' <= c <= 'Z' then (c as int + 32) as char else c
  }

  function Lower(s: string): string {
    seq(|s|, i requires 0 <= i < |s| => LowerChar(s[i]))
  }

  /** Lowering twice is lowering once. */
  lemma LowerIdempotent(s: string)
    ensures Lower(Lower(s)) == Lower(s)
  {
  }

  predicate IsPrefix(p: string, s: string) {
    |p| <= |s| && s[..|p|] == p
  }

  /** `hay.includes(needle)`, as a left-to-right scan. */
  predicate Contains(hay: string, needle: string)
    decreases |hay|
  {
    IsPrefix(needle, hay) || (|hay| > 0 && Contains(hay[1..], needle))
  }

  /** `needle` occurs in `hay` starting at position `k`. */
  ghost predicate OccursAt(hay: string, needle: string, k: int) {
    0 <= k && k + |needle| <= |hay| && hay[k..k + |needle|] == needle
  }

  /** The scan finds `needle` exactly when it occurs at some position. */
  lemma {:induction false} ContainsIffOccurs(hay: string, needle: string)
    ensures Contains(hay, needle) <==> exists k :: OccursAt(hay, needle, k)
    decreases |hay|
  {
    if IsPrefix(needle, hay) {
      assert OccursAt(hay, needle, 0);
    }
    if |hay| > 0 {
      ContainsIffOccurs(hay[1..], needle);
      if exists k :: OccursAt(hay[1..], needle, k) {
        var k :| OccursAt(hay[1..], needle, k);
        assert hay[1..][k..k + |needle|] == hay[k + 1..k + 1 + |needle|];
        assert OccursAt(hay, needle, k + 1);
      }
      if exists k :: OccursAt(hay, needle, k) {
        var k :| OccursAt(hay, needle, k);
        if k > 0 {
          assert hay[1..][k - 1..k - 1 + |needle|] == hay[k..k + |needle|];
          assert OccursAt(hay[1..], needle, k - 1);
        }
      }
    } else if exists k :: OccursAt(hay, needle, k) {
      var k :| OccursAt(hay, needle, k);
      assert IsPrefix(needle, hay);
    }
  }

  /** The empty string is contained in every string (`s.includes("")` is
      true). */
  lemma ContainsEmpty(hay: string)
    ensures Contains(hay, "")
  {
    assert IsPrefix("", hay);
  }

  predicate IsDigit(c: char) {
    '0' <= c <= '9'
  }

  predicate AllDigits(s: string) {
    forall i :: 0 <= i < |s| ==> IsDigit(s[i])
  }

  function DigitChar(d: nat): char
    requires d < 10
  {
    ('0' as int + d) as char
  }

  function DigitValue(c: char): nat
    requires IsDigit(c)
  {
    c as int - '0' as int
  }

  /** `n.toString()` for a non-negative integer: decimal digits, no leading
      zero. */
  function Decimal(n: nat): (r: string)
    ensures 1 <= |r|
    ensures AllDigits(r)
    ensures |r| == 1 <==> n < 10
    ensures |r| == 2 <==> 10 <= n < 100
    decreases n
  {
    if n < 10 then [DigitChar(n)] else Decimal(n / 10) + [DigitChar(n % 10)]
  }

  /** A JavaScript integer in a template literal: a minus sign for
      negative values, then the decimal digits. */
  function IntText(n: int): string {
    if n < 0 then "-" + Decimal(-n) else Decimal(n)
  }

  /** Reads a string of decimal digits; leading zeros are allowed. */
  function ParseDecimal(s: string): nat
    requires AllDigits(s)
    decreases |s|
  {
    if s == [] then 0 else ParseDecimal(s[..|s| - 1]) * 10 + DigitValue(s[|s| - 1])
  }

  /** Reading back a rendered number gives the number. */
  lemma {:induction false} ParseDecimalOfDecimal(n: nat)
    ensures ParseDecimal(Decimal(n)) == n
    decreases n
  {
    if n >= 10 {
      ParseDecimalOfDecimal(n / 10);
      var s := Decimal(n);
      assert s[..|s| - 1] == Decimal(n / 10);
    }
  }

  /** A leading zero does not change the value read. */
  lemma {:induction false} ParseDecimalLeadingZero(s: string)
    requires AllDigits(s)
    ensures AllDigits("0" + s)
    ensures ParseDecimal("0" + s) == ParseDecimal(s)
    decreases |s|
  {
    var z := "0" + s;
    if s != [] {
      assert z[..|z| - 1] == "0" + s[..|s| - 1];
      ParseDecimalLeadingZero(s[..|s| - 1]);
    }
  }

  /** `s.padStart(2, '0')`. */
  function PadStart2(s: string): string {
    if |s| >= 2 then s else seq(2 - |s|, _ => '0') + s
  }
}
