/** The string operations the console uses: decimal rendering of integers
    (template literals and `toString()`), fixed-width zero-padded digits
    (the ISO date format), `toLowerCase` restricted to ASCII, and
    `String.prototype.includes`. */
module Text {

  predicate IsDigit(c: char)
  {
    '0' <= c <= '9'
  }

  predicate AllDigits(s: string)
  {
    forall i :: 0 <= i < |s| ==> IsDigit(s[i])
  }

  function DigitChar(d: nat): (c: char)
    requires d < 10
    ensures IsDigit(c)
  {
    ('0' as int + d) as char
  }

  function DigitValue(c: char): (d: nat)
    requires IsDigit(c)
    ensures d < 10 && DigitChar(d) == c
  {
    c as int - '0' as int
  }

  function Pow10(k: nat): (p: nat)
    ensures p >= 1
  {
    if k == 0 then 1 else 10 * Pow10(k - 1)
  }

  /** The last `w` decimal digits of `n`, most significant first, padded with zeros. */
  function Digits(n: nat, w: nat): (r: string)
    ensures |r| == w && AllDigits(r)
  {
    if w == 0 then "" else Digits(n / 10, w - 1) + [DigitChar(n % 10)]
  }

  /** The value of a string of decimal digits. */
  function ParseDigits(s: string): (n: nat)
    requires AllDigits(s)
    ensures n < Pow10(|s|)
  {
    if s == [] then 0 else 10 * ParseDigits(s[..|s| - 1]) + DigitValue(s[|s| - 1])
  }

  /** Reading back `w` padded digits gives the number, when it fits in `w` digits. */
  lemma {:induction false} DigitsRoundTrip(n: nat, w: nat)
    requires n < Pow10(w)
    ensures ParseDigits(Digits(n, w)) == n
  {
    if w > 0 {
      DigitsRoundTrip(n / 10, w - 1);
      var d := Digits(n, w);
      assert d[..|d| - 1] == Digits(n / 10, w - 1);
    }
  }

  /** Writing back the value of a digit string, at its own width, gives the string. */
  lemma {:induction false} ParseDigitsRoundTrip(s: string)
    requires AllDigits(s)
    ensures Digits(ParseDigits(s), |s|) == s
  {
    if s != [] {
      var init := s[..|s| - 1];
      ParseDigitsRoundTrip(init);
      var n := ParseDigits(s);
      assert n / 10 == ParseDigits(init) && n % 10 == DigitValue(s[|s| - 1]);
      assert s == init + [s[|s| - 1]];
    }
  }

  /** The number of decimal digits of `n` (1 for 0). */
  function NumDigits(n: nat): (k: nat)
    ensures 1 <= k && n < Pow10(k)
    ensures k > 1 ==> Pow10(k - 1) <= n
  {
    if n < 10 then 1 else 1 + NumDigits(n / 10)
  }

  lemma {:induction false} NumDigitsExact(n: nat, k: nat)
    requires 1 <= k && Pow10(k - 1) <= n < Pow10(k)
    ensures NumDigits(n) == k
  {
    if k > 1 {
      NumDigitsExact(n / 10, k - 1);
    }
  }

  /** `String(n)` for a non-negative integer: its decimal digits, no padding. */
  function Decimal(n: nat): (r: string)
    ensures AllDigits(r) && |r| == NumDigits(n)
  {
    Digits(n, NumDigits(n))
  }

  /** The decimal text of a number reads back as the number. */
  lemma DecimalRoundTrip(n: nat)
    ensures ParseDigits(Decimal(n)) == n
  {
    DigitsRoundTrip(n, NumDigits(n));
  }

  /** Different numbers have different decimal texts. */
  lemma DecimalInjective(m: nat, n: nat)
    ensures Decimal(m) == Decimal(n) <==> m == n
  {
    DecimalRoundTrip(m);
    DecimalRoundTrip(n);
  }

  /** A four-digit number is written with exactly four digits. */
  lemma DecimalFourDigits(n: nat)
    requires 1000 <= n < 10000
    ensures Decimal(n) == Digits(n, 4)
  {
    assert Pow10(3) == 1000 && Pow10(4) == 10000;
    NumDigitsExact(n, 4);
  }

  /** A two-digit number is written with exactly two digits. */
  lemma DecimalTwoDigits(n: nat)
    requires 10 <= n < 100
    ensures Decimal(n) == Digits(n, 2)
  {
    assert Pow10(1) == 10 && Pow10(2) == 100;
    NumDigitsExact(n, 2);
  }

  /** A fixed prefix followed by the decimal form of a number determines the number. */
  lemma PrefixedDecimalInjective(prefix: string, m: nat, n: nat)
    requires prefix + Decimal(m) == prefix + Decimal(n)
    ensures m == n
  {
    assert Decimal(m) == (prefix + Decimal(m))[|prefix|..];
    assert Decimal(n) == (prefix + Decimal(n))[|prefix|..];
    DecimalInjective(m, n);
  }

  function LowerChar(c: char): (r: char)
  {
    if 'A' <= c <= 'Z' then (c as int + 32) as char else c
  }

  /** `toLowerCase()` on the ASCII letters; every other character is kept. */
  function Lower(s: string): (r: string)
    ensures |r| == |s|
    ensures forall i :: 0 <= i < |s| ==> r[i] == LowerChar(s[i])
  {
    if s == [] then "" else [LowerChar(s[0])] + Lower(s[1..])
  }

  /** `hay.includes(needle)`. */
  predicate Contains(hay: string, needle: string)
    decreases |hay|
  {
    needle <= hay || (hay != [] && Contains(hay[1..], needle))
  }

  /** `needle` occurs in `hay` starting at offset `i`. */
  predicate OccursAt(hay: string, needle: string, i: int)
  {
    0 <= i && i + |needle| <= |hay| && hay[i..i + |needle|] == needle
  }

  /** `includes` holds exactly when the needle occurs at some offset. */
  lemma {:induction false} ContainsAt(hay: string, needle: string)
    ensures Contains(hay, needle) <==> exists i :: OccursAt(hay, needle, i)
    decreases |hay|
  {
    if needle <= hay {
      assert OccursAt(hay, needle, 0);
    }
    if hay != [] {
      ContainsAt(hay[1..], needle);
      if Contains(hay[1..], needle) {
        var i :| OccursAt(hay[1..], needle, i);
        assert OccursAt(hay, needle, i + 1) by {
          assert hay[i + 1..i + 1 + |needle|] == hay[1..][i..i + |needle|];
        }
      }
      if exists i :: OccursAt(hay, needle, i) {
        var i :| OccursAt(hay, needle, i);
        if i > 0 {
          assert OccursAt(hay[1..], needle, i - 1) by {
            assert hay[1..][i - 1..i - 1 + |needle|] == hay[i..i + |needle|];
          }
        } else {
          assert needle <= hay;
        }
      }
    } else {
      if exists i :: OccursAt(hay, needle, i) {
        var i :| OccursAt(hay, needle, i);
        assert needle == [];
      }
    }
  }
}
