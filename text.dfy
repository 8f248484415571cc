/**
 * Byte strings, ASCII case folding and `%d` rendering, as the tester uses them.
 * Go strings are byte strings; the model writes them as sequences of characters,
 * and payload bytes as characters below 256.
 */
module Text {
  import opened Wrappers

  /** A Go `byte`. */
  type byte = c: char | c as int < 256 witness 'A'

  const Newline: byte := '\n'

  /** `unicode.ToLower` restricted to ASCII. */
  function Lower(c: char): char
  {
    if 'A' <= c <= 'Z' then (c as int + 32) as char else c
  }

  function Upper(c: char): char
  {
    if 'a' <= c <= 'z' then (c as int - 32) as char else c
  }

  /** `strings.ToLower`: every character lowered, nothing added or dropped. */
  function ToLower(s: string): (r: string)
    ensures |r| == |s|
    ensures forall i :: 0 <= i < |s| ==> r[i] == Lower(s[i])
  {
    if s == [] then [] else [Lower(s[0])] + ToLower(s[1..])
  }

  predicate IsLowerWord(w: string)
  {
    forall i :: 0 <= i < |w| ==> 'a' <= w[i] <= 'z'
  }

  /** `p` spells the lower-case word `w` with any mix of upper- and lower-case letters. */
  predicate IsCaseVariant(p: string, w: string)
  {
    |p| == |w| && forall i :: 0 <= i < |p| ==> p[i] == w[i] || p[i] == Upper(w[i])
  }

  /** Lower-casing yields a lower-case word exactly for the letter-case variants of it. */
  lemma ToLowerMatchesCaseVariants(p: string, w: string)
    requires IsLowerWord(w)
    ensures ToLower(p) == w <==> IsCaseVariant(p, w)
  {
    if ToLower(p) == w {
      forall i | 0 <= i < |p|
        ensures p[i] == w[i] || p[i] == Upper(w[i])
      {
        assert Lower(p[i]) == w[i];
      }
    }
    if IsCaseVariant(p, w) {
      forall i | 0 <= i < |p|
        ensures ToLower(p)[i] == w[i]
      {
        assert Lower(p[i]) == w[i];
      }
    }
  }

  predicate IsDigit(c: char)
  {
    '0' <= c <= '9'
  }

  predicate AllDigits(s: string)
  {
    forall i :: 0 <= i < |s| ==> IsDigit(s[i])
  }

  function DigitChar(d: nat): char
    requires d < 10
  {
    ('0' as int + d) as char
  }

  /** The decimal digits of `n`, most significant first, without leading zeros. */
  function Digits(n: nat): (s: string)
    ensures s != [] && AllDigits(s)
  {
    if n < 10 then [DigitChar(n)] else Digits(n / 10) + [DigitChar(n % 10)]
  }

  /** `fmt`'s `%d` of an `int`: a minus sign for negative values, then the digits. */
  function Decimal(n: int): (s: string)
    ensures s != []
    ensures n >= 0 ==> AllDigits(s)
  {
    if n < 0 then "-" + Digits(-n) else Digits(n)
  }

  function DigitsValue(s: string): nat
    requires AllDigits(s)
  {
    if s == [] then 0 else DigitsValue(s[..|s| - 1]) * 10 + (s[|s| - 1] as int - '0' as int)
  }

  /** Reads back what `Decimal` writes (the inverse used to state its correctness). */
  function ParseDecimal(s: string): Option<int>
  {
    if |s| > 1 && s[0] == '-' && AllDigits(s[1..]) then
      var v: int := 0 - DigitsValue(s[1..]) as int;
      Some(v)
    else if s != [] && AllDigits(s) then Some(DigitsValue(s))
    else None
  }

  lemma {:induction false} DigitsValueOfDigits(n: nat)
    ensures DigitsValue(Digits(n)) == n
  {
    if n >= 10 {
      DigitsValueOfDigits(n / 10);
      var s := Digits(n);
      assert s[..|s| - 1] == Digits(n / 10);
    }
  }

  /** Rendering an integer with `%d` loses nothing: it parses back to the same value. */
  lemma DecimalRoundTrip(n: int)
    ensures ParseDecimal(Decimal(n)) == Some(n)
  {
    if n < 0 {
      DigitsValueOfDigits(-n);
      assert Decimal(n)[1..] == Digits(-n);
    } else {
      DigitsValueOfDigits(n);
      assert !IsDigit('-');
    }
  }
}
