/** Decimal numerals and the string order, as Go's `strconv.Itoa` and `<` on strings have them. */
module Text {

  const DIGITS := "0123456789"

  function Numeral(n: nat): (s: string)
    ensures s != "" && forall i :: 0 <= i < |s| ==> s[i] in DIGITS
  {
    if n < 10 then [DIGITS[n]] else Numeral(n / 10) + [DIGITS[n % 10]]
  }

  function Itoa(n: int): string {
    if n < 0 then ['-'] + Numeral(-n) else Numeral(n)
  }

  lemma DigitsDiffer(a: nat, b: nat)
    requires a < 10 && b < 10 && a != b
    ensures DIGITS[a] != DIGITS[b]
  {
    assert forall k: nat | k < 10 :: DIGITS[k] as int == '0' as int + k;
  }

  lemma {:induction false} NumeralInjective(m: nat, n: nat)
    requires Numeral(m) == Numeral(n)
    ensures m == n
  {
    var s, t := Numeral(m), Numeral(n);
    if m < 10 || n < 10 {
      if m < 10 && n < 10 && m != n {
        DigitsDiffer(m, n);
      }
    } else {
      assert s[..|s| - 1] == Numeral(m / 10) && t[..|t| - 1] == Numeral(n / 10);
      assert s[|s| - 1] == DIGITS[m % 10] && t[|t| - 1] == DIGITS[n % 10];
      NumeralInjective(m / 10, n / 10);
      if m % 10 != n % 10 {
        DigitsDiffer(m % 10, n % 10);
      }
    }
  }

  /** Distinct positions have distinct names. */
  lemma {:induction false} ItoaInjective(m: int, n: int)
    requires Itoa(m) == Itoa(n)
    ensures m == n
  {
    SignShows(m);
    SignShows(n);
    hide Numeral;
    if m < 0 {
      SameTail(Numeral(-m), Numeral(-n));
      NumeralInjective(-m, -n);
    } else {
      NumeralInjective(m, n);
    }
  }

  lemma SameTail(s: string, t: string)
    requires ['-'] + s == ['-'] + t
    ensures s == t
  {
    assert (['-'] + s)[1..] == s && (['-'] + t)[1..] == t;
  }

  lemma {:induction false} SignShows(n: int)
    ensures Itoa(n) != "" && (Itoa(n)[0] == '-' <==> n < 0)
  {
    assert '-' !in DIGITS;
  }

  /** The lexicographic order on strings. */
  predicate Below(a: string, b: string) {
    b != "" && (a == "" || a[0] < b[0] || (a[0] == b[0] && Below(a[1..], b[1..])))
  }

  lemma {:induction false} BelowTotal(a: string, b: string)
    ensures Below(a, b) || a == b || Below(b, a)
  {
    if a != "" && b != "" && a[0] == b[0] {
      BelowTotal(a[1..], b[1..]);
      assert a[1..] == b[1..] ==> a == [a[0]] + a[1..] == [b[0]] + b[1..] == b;
    }
  }

  lemma {:induction false} BelowAsymmetric(a: string, b: string)
    requires Below(a, b)
    ensures !Below(b, a) && a != b
  {
    if a != "" && a[0] == b[0] {
      BelowAsymmetric(a[1..], b[1..]);
    }
  }

  lemma {:induction false} BelowTransitive(a: string, b: string, c: string)
    requires Below(a, b) && Below(b, c)
    ensures Below(a, c)
  {
    if a != "" && a[0] == b[0] == c[0] {
      BelowTransitive(a[1..], b[1..], c[1..]);
    }
  }
}
