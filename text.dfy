/** The few Python string operations the components rely on: the `in`
    substring test, `s.split(sep)[0]`, `str(n)` for an int and `int(s)`.
    `int(s)` is modelled on an optionally signed run of ASCII decimal digits;
    Python also accepts surrounding whitespace and `_` separators, which this
    model treats as unparsable. */
module Text {
  import opened Types

  /** `sub in s`. */
  predicate Contains(s: string, sub: string)
    decreases |s|
  {
    (|sub| <= |s| && s[..|sub|] == sub) || (|s| > 0 && Contains(s[1..], sub))
  }

  /** `s.split(sep)[0]` for a one-character separator: the text before the
      first separator, or all of `s` when it has none. */
  function BeforeFirst(s: string, sep: char): (r: string)
    ensures |r| <= |s| && r == s[..|r|]
    ensures sep !in r
    ensures |r| < |s| ==> s[|r|] == sep
  {
    if s == [] || s[0] == sep then [] else [s[0]] + BeforeFirst(s[1..], sep)
  }

  /** Every string contains itself. */
  lemma ContainsSelf(s: string)
    ensures Contains(s, s)
  {
    assert s[..|s|] == s;
  }

  /** A string containing `sub` contains its first character. */
  lemma {:induction false} ContainsFirstChar(s: string, sub: string)
    requires Contains(s, sub) && |sub| > 0
    ensures sub[0] in s
    decreases |s|
  {
    if |sub| <= |s| && s[..|sub|] == sub {
      assert s[0] == sub[0];
    } else {
      ContainsFirstChar(s[1..], sub);
      assert sub[0] in s[1..];
    }
  }

  /** The text before the first separator of `p + rest` is `p` when `p` has
      no separator and `rest` starts with one. */
  lemma {:induction false} BeforeFirstStops(p: string, rest: string, sep: char)
    requires sep !in p && |rest| > 0 && rest[0] == sep
    ensures BeforeFirst(p + rest, sep) == p
    decreases |p|
  {
    if p != [] {
      BeforeFirstStops(p[1..], rest, sep);
      assert (p + rest)[1..] == p[1..] + rest;
    }
  }

  predicate IsDigit(c: char) { '0' <= c <= '9' }

  predicate AllDigits(s: string) { forall i | 0 <= i < |s| :: IsDigit(s[i]) }

  function DigitChar(d: nat): (c: char)
    requires d < 10
    ensures IsDigit(c)
  {
    ('0' as int + d) as char
  }

  function DigitValue(c: char): nat
    requires IsDigit(c)
  {
    c as int - '0' as int
  }

  /** The number a non-empty run of decimal digits denotes. */
  function DigitsValue(s: string): nat
    requires AllDigits(s)
    decreases |s|
  {
    if s == [] then 0 else DigitsValue(s[..|s| - 1]) * 10 + DigitValue(s[|s| - 1])
  }

  /** `str(n)` for a natural number. */
  function NatText(n: nat): (r: string)
    ensures |r| > 0 && AllDigits(r)
    decreases n
  {
    if n < 10 then [DigitChar(n)] else NatText(n / 10) + [DigitChar(n % 10)]
  }

  /** `str(n)` for an int. */
  function DecimalText(n: int): string
  {
    if n < 0 then "-" + NatText(-n) else NatText(n)
  }

  /** `int(s)`, or None where Python raises ValueError. */
  function ParseInt(s: string): Option<int>
  {
    if |s| > 1 && s[0] == '-' && AllDigits(s[1..]) then Some(0 - DigitsValue(s[1..]) as int)
    else if |s| > 1 && s[0] == '+' && AllDigits(s[1..]) then Some(DigitsValue(s[1..]))
    else if |s| > 0 && AllDigits(s) then Some(DigitsValue(s))
    else None
  }

  lemma {:induction false} NatTextValue(n: nat)
    ensures DigitsValue(NatText(n)) == n
    ensures NatText(n)[0] != '0' || n == 0
    decreases n
  {
    if n >= 10 {
      var t := NatText(n / 10);
      NatTextValue(n / 10);
      assert NatText(n) == t + [DigitChar(n % 10)];
      assert (t + [DigitChar(n % 10)])[..|t|] == t;
    }
  }

  /** `int(str(n)) == n` for every int. */
  lemma ParseDecimal(n: int)
    ensures ParseInt(DecimalText(n)) == Some(n)
  {
    if n < 0 {
      NatTextValue(-n);
      assert DecimalText(n)[1..] == NatText(-n);
    } else {
      NatTextValue(n);
    }
  }

  /** A digit run without a leading zero is the text of the number it denotes. */
  lemma {:induction false} DigitsText(s: string)
    requires AllDigits(s) && |s| > 0 && (s[0] != '0' || |s| == 1)
    ensures NatText(DigitsValue(s)) == s
    decreases |s|
  {
    var v := DigitsValue(s);
    var last := DigitValue(s[|s| - 1]);
    if |s| == 1 {
      assert s[..0] == [];
      assert DigitsValue(s) == DigitsValue(s[..0]) * 10 + last;
    } else {
      var p := s[..|s| - 1];
      DigitsPositive(p);
      DigitsText(p);
      assert v == DigitsValue(p) * 10 + last;
      assert v / 10 == DigitsValue(p) && v % 10 == last;
      assert s == p + [s[|s| - 1]];
    }
  }

  lemma {:induction false} DigitsPositive(s: string)
    requires AllDigits(s) && |s| > 0 && s[0] != '0'
    ensures DigitsValue(s) > 0
    decreases |s|
  {
    if |s| > 1 {
      DigitsPositive(s[..|s| - 1]);
    }
  }

  /** `int` is injective on canonical decimal texts: a text that parses and is
      written the way `str` writes numbers is `str` of its value. */
  lemma ParseCanonical(s: string, n: int)
    requires ParseInt(s) == Some(n)
    requires |s| > 0 && s[0] != '+'
    requires s[0] == '-' ==> s[1] != '0'
    requires s[0] != '-' ==> s[0] != '0' || |s| == 1
    ensures DecimalText(n) == s
  {
    if s[0] == '-' {
      var t := s[1..];
      DigitsPositive(t);
      DigitsText(t);
      assert s == "-" + t;
    } else {
      DigitsText(s);
    }
  }
}
