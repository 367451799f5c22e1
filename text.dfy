/** String helpers: ASCII lower-casing, substring search, decimal rendering and the
    JavaScript `a || b` fallback on strings. */
module Text {

  /** `String.prototype.toLowerCase`, restricted to ASCII letters. */
  function LowerChar(c: char): (r: char)
  {
    if 'A' <= c <= 'Z' then (c as int + 32) as char else c
  }

  function LowerCase(s: string): (r: string)
    ensures |r| == |s|
    ensures forall i :: 0 <= i < |s| ==> r[i] == LowerChar(s[i])
  {
    seq(|s|, i requires 0 <= i < |s| => LowerChar(s[i]))
  }

  /** Lower-casing an already lower-cased string changes nothing. */
  lemma LowerCaseIdempotent(s: string)
    ensures LowerCase(LowerCase(s)) == LowerCase(s)
  {
    var t := LowerCase(s);
    forall i | 0 <= i < |t|
      ensures LowerCase(t)[i] == t[i]
    {
      assert t[i] == LowerChar(s[i]);
    }
  }

  /** `hay.includes(needle)`: some suffix of `hay` starts with `needle`. A string
      includes the empty string, and nothing longer than itself. */
  function Contains(hay: string, needle: string): (b: bool)
    ensures needle == [] ==> b
    ensures b ==> |needle| <= |hay|
    decreases |hay|
  {
    needle <= hay || (hay != [] && Contains(hay[1..], needle))
  }

  /** `needle` occurs in `hay` starting at offset `k`. */
  predicate OccursAt(hay: string, needle: string, k: int)
  {
    0 <= k <= |hay| - |needle| && hay[k..k + |needle|] == needle
  }

  /** Occurrences in the tail of a string are occurrences one place further on. */
  lemma OccursInTail(hay: string, needle: string, k: int)
    requires hay != [] && k >= 0
    ensures OccursAt(hay[1..], needle, k) <==> OccursAt(hay, needle, k + 1)
  {
    if 0 <= k <= |hay| - 1 - |needle| {
      assert hay[1..][k..k + |needle|] == hay[k + 1..k + 1 + |needle|];
    }
  }

  /** `Contains` is the usual "occurs at some offset" relation. */
  lemma {:induction false} ContainsAt(hay: string, needle: string)
    ensures Contains(hay, needle) <==> exists k :: OccursAt(hay, needle, k)
    decreases |hay|
  {
    if needle <= hay {
      assert OccursAt(hay, needle, 0);
    } else if hay != [] {
      ContainsAt(hay[1..], needle);
      if Contains(hay[1..], needle) {
        var k :| OccursAt(hay[1..], needle, k);
        OccursInTail(hay, needle, k);
      }
      if exists k :: OccursAt(hay, needle, k) {
        var k :| OccursAt(hay, needle, k);
        assert k != 0;
        OccursInTail(hay, needle, k - 1);
      }
    }
  }

  function DigitChar(d: nat): (c: char)
    requires d < 10
    ensures '0' <= c <= '9' && c as int - '0' as int == d
  {
    ('0' as int + d) as char
  }

  /** The number a string of decimal digits denotes, most significant digit first. */
  function DigitsValue(s: string): nat
  {
    if s == [] then 0
    else
      var d := s[|s| - 1] as int - '0' as int;
      DigitsValue(s[..|s| - 1]) * 10 + (if 0 <= d < 10 then d else 0)
  }

  /** Decimal rendering of a natural number (template literals over `Date.now()`):
      the digits of `n` without leading zeros, so that different numbers render
      differently. */
  function Decimal(n: nat): (r: string)
    ensures |r| >= 1
    ensures forall i :: 0 <= i < |r| ==> '0' <= r[i] <= '9'
    ensures DigitsValue(r) == n
    ensures r[0] == '0' <==> n == 0
    ensures n == 0 ==> r == "0"
  {
    if n < 10 then [DigitChar(n)]
    else
      var r := Decimal(n / 10) + [DigitChar(n % 10)];
      assert r[..|r| - 1] == Decimal(n / 10);
      r
  }

  /** Different numbers have different renderings. */
  lemma DecimalInjective(a: nat, b: nat)
    requires Decimal(a) == Decimal(b)
    ensures a == b
  {
    assert DigitsValue(Decimal(a)) == a;
  }

  /** JavaScript `s || fallback` for strings: the empty string is falsy. */
  function OrElse(s: string, fallback: string): (r: string)
    ensures s != "" ==> r == s
    ensures s == "" ==> r == fallback
    ensures r == "" ==> fallback == ""
  {
    if s == "" then fallback else s
  }
}
