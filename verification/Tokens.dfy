/** Tokens minted from the shared id counter (util.go). */
module Tokens {
  function DigitChar(d: nat): char
    requires d < 10
  {
    ['0', '1', '2', '3', '4', '5', '6', '7', '8', '9'][d]
  }

  function DigitValue(c: char): nat {
    if '0' <= c <= '9' then (c - '0') as nat else 0
  }

  /** Decimal digits of `n`, most significant first, no leading zero except for 0 itself. */
  function Digits(n: nat): string {
    if n < 10 then [DigitChar(n)] else Digits(n / 10) + [DigitChar(n % 10)]
  }

  /** Fills with zeros on the left up to `width`; longer strings are kept whole. */
  function ZeroPad(s: string, width: nat): (padded: string)
    ensures |padded| == if |s| < width then width else |s|
    ensures padded[|padded| - |s|..] == s
    decreases if |s| < width then width - |s| else 0
  {
    if |s| < width then ZeroPad(['0'] + s, width) else s
  }

  /** The token of util.go: prefix, dash, id padded to eight digits. */
  function NewToken(prefix: string, id: nat): string {
    prefix + "-" + ZeroPad(Digits(id), 8)
  }

  /** Reads a decimal numeral back. */
  function Value(s: string): nat {
    if s == [] then 0 else Value(s[..|s| - 1]) * 10 + DigitValue(s[|s| - 1])
  }

  lemma {:induction false} ValueOfDigits(n: nat)
    ensures Value(Digits(n)) == n
  {
    if n < 10 {
      assert Digits(n)[..0] == [];
    } else {
      ValueOfDigits(n / 10);
      var s := Digits(n);
      assert s[..|s| - 1] == Digits(n / 10);
    }
  }

  lemma {:induction false} LeadingZero(s: string)
    ensures Value(['0'] + s) == Value(s)
  {
    if s == [] {
      assert (['0'] + s)[..0] == [];
    } else {
      var z := ['0'] + s;
      assert z[..|z| - 1] == ['0'] + s[..|s| - 1];
      LeadingZero(s[..|s| - 1]);
    }
  }

  lemma {:induction false} ValueOfZeroPad(s: string, width: nat)
    ensures Value(ZeroPad(s, width)) == Value(s)
    decreases if |s| < width then width - |s| else 0
  {
    if |s| < width {
      ValueOfZeroPad(['0'] + s, width);
      LeadingZero(s);
    }
  }

  ghost predicate Decimal(s: string) {
    forall c :: c in s ==> '0' <= c <= '9'
  }

  lemma {:induction false} DigitsAreDecimal(n: nat)
    ensures Digits(n) != [] && Decimal(Digits(n)) && (|Digits(n)| > 1 ==> Digits(n)[0] != '0')
  {
    if n >= 10 {
      DigitsAreDecimal(n / 10);
    }
  }

  lemma {:induction false} PaddedIsDecimal(s: string, width: nat)
    requires Decimal(s)
    ensures Decimal(ZeroPad(s, width))
    decreases if |s| < width then width - |s| else 0
  {
    if |s| < width {
      PaddedIsDecimal(['0'] + s, width);
    }
  }

  /** The prefix, a dash, and the id in decimal: eight digits, or as many as it needs. */
  lemma TokenShape(prefix: string, id: nat)
    ensures var t, k := NewToken(prefix, id), |prefix| + 1;
            && |t| >= k + 8 && t[..|prefix|] == prefix && t[|prefix|] == '-'
            && Decimal(t[k..]) && Value(t[k..]) == id
            && (|t| > k + 8 ==> t[k] != '0')
  {
    hide Digits, Value, Decimal;
    var t, k := NewToken(prefix, id), |prefix| + 1;
    var p := ZeroPad(Digits(id), 8);
    assert t[k..] == p && t[..|prefix|] == prefix;
    DigitsAreDecimal(id);
    PaddedIsDecimal(Digits(id), 8);
    ValueOfZeroPad(Digits(id), 8);
    ValueOfDigits(id);
    assert |p| > 8 ==> p == Digits(id) && t[k] == p[0];
  }

  /** Padding to a fixed width never merges two ids, however large they grow. */
  lemma NewTokenInjective(prefix: string, a: nat, b: nat)
    requires NewToken(prefix, a) == NewToken(prefix, b)
    ensures a == b
  {
    var pa, pb := ZeroPad(Digits(a), 8), ZeroPad(Digits(b), 8);
    assert NewToken(prefix, a)[|prefix + "-"|..] == pa;
    assert NewToken(prefix, b)[|prefix + "-"|..] == pb;
    ValueOfZeroPad(Digits(a), 8);
    ValueOfZeroPad(Digits(b), 8);
    ValueOfDigits(a);
    ValueOfDigits(b);
  }
}
