/**
 * The internal names of generated classes: the composer's package, a slash,
 * the interface's simple name, `Impl`, and the decimal value of the counter.
 * Because `Impl` ends in a letter, the counter can be read back from the
 * trailing digits, so different counter values never give the same name.
 */
module Naming {
  /** The package of the composer, in internal (slash-separated) form. */
  const Package := "com/mylaesoftware"

  predicate IsDigit(c: char) { '0' <= c <= '9' }

  predicate AllDigits(s: string) {
    forall k :: 0 <= k < |s| ==> IsDigit(s[k])
  }

  function DigitChar(d: nat): (c: char)
    requires d < 10
    ensures IsDigit(c)
  {
    "0123456789"[d]
  }

  function DigitValue(c: char): (d: nat)
    requires IsDigit(c)
    ensures d < 10
  {
    (c as int - '0' as int) as nat
  }

  /** `Integer.toString` of a non-negative value: no sign, no leading zero. */
  function Decimal(n: nat): (s: string)
    ensures s != [] && AllDigits(s)
    ensures |s| > 1 ==> s[0] != '0'
  {
    if n < 10 then [DigitChar(n)] else Decimal(n / 10) + [DigitChar(n % 10)]
  }

  /** The value of a run of decimal digits. */
  function ParseDecimal(s: string): nat
    requires AllDigits(s)
  {
    if s == [] then 0 else ParseDecimal(s[..|s| - 1]) * 10 + DigitValue(s[|s| - 1])
  }

  /** The longest suffix of `s` made of digits. */
  function TrailingDigits(s: string): (t: string)
    ensures AllDigits(t) && |t| <= |s| && t == s[|s| - |t|..]
  {
    if s == [] || !IsDigit(s[|s| - 1]) then []
    else TrailingDigits(s[..|s| - 1]) + [s[|s| - 1]]
  }

  /** The counter value a generated name carries in its trailing digits. */
  function CounterOf(name: string): nat {
    ParseDecimal(TrailingDigits(name))
  }

  /** `PACKAGE + "/" + simpleName + "Impl" + n`. */
  function GeneratedName(simpleName: string, n: nat): string {
    Package + "/" + simpleName + "Impl" + Decimal(n)
  }

  /** The name's prefix, which ends in the letter `l`. */
  function NamePrefix(simpleName: string): (p: string)
    ensures p != [] && !IsDigit(p[|p| - 1])
  {
    Package + "/" + simpleName + "Impl"
  }

  /** Parsing reads back the value a decimal rendering was made from. */
  lemma {:induction false} ParseDecimalOfDecimal(n: nat)
    ensures ParseDecimal(Decimal(n)) == n
    decreases n
  {
    if n >= 10 {
      var s := Decimal(n);
      assert s[..|s| - 1] == Decimal(n / 10);
      ParseDecimalOfDecimal(n / 10);
      assert DigitValue(DigitChar(n % 10)) == n % 10;
    } else {
      assert DigitValue(DigitChar(n)) == n;
    }
  }

  /** After a non-digit, the trailing digits are exactly the digits appended. */
  lemma {:induction false} TrailingDigitsAfterNonDigit(p: string, d: string)
    requires p != [] && !IsDigit(p[|p| - 1]) && AllDigits(d)
    ensures TrailingDigits(p + d) == d
    decreases |d|
  {
    if d == [] {
      assert p + d == p;
    } else {
      var s := p + d;
      assert s[..|s| - 1] == p + d[..|d| - 1];
      TrailingDigitsAfterNonDigit(p, d[..|d| - 1]);
      assert d == d[..|d| - 1] + [d[|d| - 1]];
    }
  }

  /** A generated name carries the counter value it was made with. */
  lemma CounterOfGeneratedName(simpleName: string, n: nat)
    ensures CounterOf(GeneratedName(simpleName, n)) == n
  {
    assert GeneratedName(simpleName, n) == NamePrefix(simpleName) + Decimal(n);
    TrailingDigitsAfterNonDigit(NamePrefix(simpleName), Decimal(n));
    ParseDecimalOfDecimal(n);
  }

  /**
   * Names made from different counter values differ, whatever the simple
   * names; and equal names come from the same simple name and counter.
   */
  lemma GeneratedNameInjective(s1: string, n1: nat, s2: string, n2: nat)
    ensures GeneratedName(s1, n1) == GeneratedName(s2, n2) <==> s1 == s2 && n1 == n2
  {
    if GeneratedName(s1, n1) == GeneratedName(s2, n2) {
      CounterOfGeneratedName(s1, n1);
      CounterOfGeneratedName(s2, n2);
      var name, p1, p2 := GeneratedName(s1, n1), NamePrefix(s1), NamePrefix(s2);
      assert name == p1 + Decimal(n1) && name == p2 + Decimal(n2);
      assert p1 == name[..|p1|] == p2;
      var k := |Package| + 1;
      assert s1 == p1[k..|p1| - 4] && s2 == p2[k..|p2| - 4];
    }
  }
}
