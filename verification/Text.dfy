/** Decimal numerals and the order of strings, as Swift's `String(n)` and `<` have them. */
module Text {

  function Digit(d: nat): char
    requires d < 10
  {
    "0123456789"[d]
  }

  function Decimal(n: nat): string {
    if n < 10 then [Digit(n)] else Decimal(n / 10) + [Digit(n % 10)]
  }

  function Signed(n: int): string {
    if n < 0 then "-" + Decimal(-n) else Decimal(n)
  }

  predicate AllDigits(s: string) {
    forall i :: 0 <= i < |s| ==> '0' <= s[i] <= '9'
  }

  lemma {:induction false} DecimalIsDigits(n: nat)
    ensures Decimal(n) != "" && AllDigits(Decimal(n))
  {
    if n >= 10 {
      DecimalIsDigits(n / 10);
    }
  }

  lemma LastSplits(s: string, c: char, t: string, d: char)
    requires s + [c] == t + [d]
    ensures s == t && c == d
  {
    assert |s + [c]| == |t + [d]|;
    assert (s + [c])[|s|] == (t + [d])[|s|];
    assert s == (s + [c])[..|s|] == (t + [d])[..|s|] == t;
  }

  lemma {:induction false} DecimalInjective(m: nat, n: nat)
    requires Decimal(m) == Decimal(n)
    ensures m == n
  {
    var s, t := if m < 10 then "" else Decimal(m / 10), if n < 10 then "" else Decimal(n / 10);
    LastSplits(s, Digit(m % 10), t, Digit(n % 10));
    DecimalIsDigits(m / 10);
    DecimalIsDigits(n / 10);
    if m >= 10 {
      DecimalInjective(m / 10, n / 10);
    }
  }

  lemma SignedInjective(m: int, n: int)
    requires Signed(m) == Signed(n)
    ensures m == n
  {
    var i, j := if m < 0 then -m else m, if n < 0 then -n else n;
    DecimalIsDigits(i);
    DecimalIsDigits(j);
    assert (Signed(m)[0] == '-') == (m < 0);
    assert (Signed(n)[0] == '-') == (n < 0);
    assert Decimal(i) == Signed(m)[if m < 0 then 1 else 0..];
    assert Decimal(j) == Signed(n)[if n < 0 then 1 else 0..];
    DecimalInjective(i, j);
  }

  /** Strict lexicographic order. */
  predicate Before(a: string, b: string) {
    b != "" && (a == "" || a[0] < b[0] || (a[0] == b[0] && Before(a[1..], b[1..])))
  }

  lemma {:induction false} BeforeTransitive(a: string, b: string, c: string)
    requires Before(a, b) && Before(b, c)
    ensures Before(a, c)
  {
    if a != "" && a[0] == b[0] == c[0] {
      BeforeTransitive(a[1..], b[1..], c[1..]);
    }
  }

  lemma {:induction false} BeforeTotal(a: string, b: string)
    ensures Before(a, b) || Before(b, a) || a == b
    ensures !(Before(a, b) && Before(b, a))
    ensures Before(a, b) ==> a != b
  {
    if a != "" && b != "" && a[0] == b[0] {
      BeforeTotal(a[1..], b[1..]);
      if a[1..] == b[1..] {
        assert a == [a[0]] + a[1..] && b == [b[0]] + b[1..];
      }
    }
  }

  lemma {:induction false} BeforeAfterPrefix(p: string, a: string, b: string)
    requires Before(a, b)
    ensures Before(p + a, p + b)
  {
    if p == "" {
      assert p + a == a && p + b == b;
    } else {
      BeforeAfterPrefix(p[1..], a, b);
      assert (p + a)[1..] == p[1..] + a && (p + b)[1..] == p[1..] + b;
    }
  }

  lemma {:induction false} BeforeSuffix(a: string, b: string, x: string, y: string)
    requires Before(a, b) && |a| == |b|
    ensures Before(a + x, b + y)
  {
    assert (a + x)[1..] == a[1..] + x && (b + y)[1..] == b[1..] + y;
    if a[0] == b[0] {
      BeforeSuffix(a[1..], b[1..], x, y);
    }
  }

  // ── Numerals sorted as strings ────────────────────────────────────────────

  function Pow10(k: nat): nat {
    if k == 0 then 1 else 10 * Pow10(k - 1)
  }

  /** Numerals of one length sort as their numbers do. */
  lemma {:induction false} SameLengthSorts(m: nat, n: nat)
    requires |Decimal(m)| == |Decimal(n)| && m < n
    ensures Before(Decimal(m), Decimal(n))
  {
    if n >= 10 {
      DecimalIsDigits(n / 10);
      DecimalIsDigits(m / 10);
      if m / 10 == n / 10 {
        BeforeAfterPrefix(Decimal(n / 10), [Digit(m % 10)], [Digit(n % 10)]);
      } else {
        SameLengthSorts(m / 10, n / 10);
        BeforeSuffix(Decimal(m / 10), Decimal(n / 10), [Digit(m % 10)], [Digit(n % 10)]);
      }
    }
  }

  lemma {:induction false} LengthBounds(n: nat)
    ensures |Decimal(n)| >= 1 && n < Pow10(|Decimal(n)|)
    ensures |Decimal(n)| >= 2 ==> Pow10(|Decimal(n)| - 1) <= n
  {
    if n >= 10 {
      LengthBounds(n / 10);
    } else {
      assert Pow10(1) == 10 * Pow10(0);
    }
  }

  lemma {:induction false} Pow10Grows(j: nat, k: nat)
    requires j <= k
    ensures Pow10(j) <= Pow10(k)
  {
    if j < k {
      Pow10Grows(j, k - 1);
    }
  }

  /** A power of ten starts with a one, and what comes just before it with a nine. */
  lemma {:induction false} PowerStarts(k: nat)
    requires k >= 1
    ensures Decimal(Pow10(k))[0] == '1' && Decimal(Pow10(k) - 1)[0] == '9'
  {
    if k == 1 {
      assert Pow10(1) == 10 * Pow10(0) == 10;
      assert Decimal(1) == "1";
    } else {
      PowerStarts(k - 1);
      assert Pow10(k) / 10 == Pow10(k - 1) && (Pow10(k) - 1) / 10 == Pow10(k - 1) - 1;
      Pow10Grows(1, k);
      assert Pow10(1) == 10 * Pow10(0) == 10;
      if k == 2 {
        assert Pow10(k) - 1 == 99;
        assert Decimal(99) == Decimal(9) + [Digit(9)];
      }
    }
  }

  /** Among these numbers are a power of ten and the number before it. */
  ghost predicate HoldsPower(from: nat, count: nat) {
    exists k: nat :: k >= 1 && from <= Pow10(k) - 1 && Pow10(k) < from + count
  }

  ghost predicate NumeralsInOrder(from: nat, count: nat) {
    forall i: nat, j: nat :: from <= i < j < from + count ==> Before(Decimal(i), Decimal(j))
  }

  /** Numerals sort by number over a range if and only if they do not grow a digit within it. */
  lemma NumeralsSort(from: nat, count: nat)
    ensures NumeralsInOrder(from, count) <==> !HoldsPower(from, count)
  {
    if HoldsPower(from, count) {
      var k: nat :| k >= 1 && from <= Pow10(k) - 1 && Pow10(k) < from + count;
      PowerStarts(k);
      assert !Before(Decimal(Pow10(k) - 1), Decimal(Pow10(k)));
    } else {
      forall i: nat, j: nat | from <= i < j < from + count
        ensures Before(Decimal(i), Decimal(j))
      {
        NoPowerNoGrowth(from, count, i, j);
        SameLengthSorts(i, j);
      }
    }
  }

  lemma NoPowerNoGrowth(from: nat, count: nat, i: nat, j: nat)
    requires !HoldsPower(from, count) && from <= i < j < from + count
    ensures |Decimal(i)| == |Decimal(j)|
  {
    var a, b := |Decimal(i)|, |Decimal(j)|;
    LengthBounds(i);
    LengthBounds(j);
    if a < b {
      Pow10Grows(a, b - 1);
    } else if b < a {
      Pow10Grows(b, a - 1);
    }
  }

  // ── Fields joined by a separator ──────────────────────────────────────────

  function Join(fields: seq<string>, sep: char): string
    requires fields != []
  {
    if |fields| == 1 then fields[0] else fields[0] + [sep] + Join(fields[1..], sep)
  }

  lemma SplitsAtSeparator(a: string, x: string, b: string, y: string, sep: char)
    requires sep !in a && sep !in b && a + [sep] + x == b + [sep] + y
    ensures a == b && x == y
  {
    var s, t := a + [sep] + x, b + [sep] + y;
    assert s[|a|] == sep && t[|b|] == sep;
    assert forall i :: 0 <= i < |a| ==> s[i] == a[i];
    assert forall i :: 0 <= i < |b| ==> t[i] == b[i];
    assert |a| == |b|;
    assert a == s[..|a|] == b;
    assert x == s[|a| + 1..] == y;
  }

  function Count(s: string, c: char): nat {
    if s == "" then 0 else (if s[0] == c then 1 else 0) + Count(s[1..], c)
  }

  lemma {:induction false} CountAdds(s: string, t: string, c: char)
    ensures Count(s + t, c) == Count(s, c) + Count(t, c)
  {
    if s == "" {
      assert s + t == t;
    } else {
      assert (s + t)[1..] == s[1..] + t;
      CountAdds(s[1..], t, c);
    }
  }

  lemma {:induction false} CountIsZero(s: string, c: char)
    ensures Count(s, c) == 0 <==> c !in s
  {
    if s != "" {
      assert s == [s[0]] + s[1..];
      CountIsZero(s[1..], c);
    }
  }

  /** A join holds as many separators as it was given, and no more only when no field holds one. */
  lemma {:induction false} JoinCounts(fields: seq<string>, sep: char)
    requires fields != []
    ensures Count(Join(fields, sep), sep) >= |fields| - 1
    ensures Count(Join(fields, sep), sep) == |fields| - 1 <==> forall f :: f in fields ==> sep !in f
  {
    CountIsZero(fields[0], sep);
    if |fields| > 1 {
      CountAdds(fields[0] + [sep], Join(fields[1..], sep), sep);
      CountAdds(fields[0], [sep], sep);
      assert Count([sep], sep) == 1 + Count("", sep);
      JoinCounts(fields[1..], sep);
      assert fields == [fields[0]] + fields[1..];
    }
  }

  /** As many fields, none holding the separator, read back one way. */
  lemma {:induction false} JoinInjective(a: seq<string>, b: seq<string>, sep: char)
    requires |a| == |b| > 0 && Join(a, sep) == Join(b, sep)
    requires forall f :: f in a ==> sep !in f
    requires forall f :: f in b ==> sep !in f
    ensures a == b
  {
    if |a| > 1 {
      SplitsAtSeparator(a[0], Join(a[1..], sep), b[0], Join(b[1..], sep), sep);
      JoinInjective(a[1..], b[1..], sep);
      assert a == [a[0]] + a[1..] && b == [b[0]] + b[1..];
    }
  }
}
