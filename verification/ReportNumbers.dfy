/**
 Report numbers: the per-(organization, year) counter under concurrent creations, and the
 printed form reports are listed by.
 */
module ReportNumbers {

  // ----- Printing -----

  function DigitChar(d: nat): char
    requires d < 10
  {
    ('0' as int + d) as char
  }

  /** Decimal digits without leading zeros. */
  function Digits(n: nat): (s: string)
    ensures s != ""
  {
    if n < 10 then [DigitChar(n)] else Digits(n / 10) + [DigitChar(n % 10)]
  }

  function Zeros(k: nat): string {
    if k == 0 then "" else Zeros(k - 1) + ['0']
  }

  /** The number padded with zeros to at least four digits. */
  function Padded(n: nat): string {
    Zeros(if |Digits(n)| < 4 then 4 - |Digits(n)| else 0) + Digits(n)
  }

  function HumanId(year: nat, n: nat): string {
    "JA-" + Digits(year) + "-" + Padded(n)
  }

  predicate Numeral(s: string) {
    forall i :: 0 <= i < |s| ==> '0' <= s[i] <= '9'
  }

  /** The number a string of digits denotes. */
  function Val(s: string): nat
    requires Numeral(s)
  {
    if s == "" then 0 else 10 * Val(s[..|s| - 1]) + (s[|s| - 1] as int - '0' as int)
  }

  lemma {:induction false} DigitsDenote(n: nat)
    ensures Numeral(Digits(n)) && Val(Digits(n)) == n
  {
    if n < 10 {
      assert Digits(n)[..0] == "";
    } else {
      DigitsDenote(n / 10);
      assert Digits(n)[..|Digits(n)| - 1] == Digits(n / 10);
    }
  }

  lemma {:induction false} ZerosAreZero(k: nat)
    ensures |Zeros(k)| == k && Numeral(Zeros(k)) && Val(Zeros(k)) == 0
  {
    if k > 0 {
      ZerosAreZero(k - 1);
      assert Zeros(k)[..k - 1] == Zeros(k - 1);
    }
  }

  lemma {:induction false} ZerosDenote(k: nat, s: string)
    requires Numeral(s)
    ensures |Zeros(k)| == k && Numeral(Zeros(k) + s) && Val(Zeros(k) + s) == Val(s)
    decreases |s|
  {
    ZerosAreZero(k);
    hide Zeros;
    if s == "" {
      assert Zeros(k) + s == Zeros(k);
    } else {
      var n := |s| - 1;
      ZerosDenote(k, s[..n]);
      assert (Zeros(k) + s)[..k + n] == Zeros(k) + s[..n];
    }
  }

  /** Reading a printed number gives it back, and four digits are always there. */
  lemma PaddedDenotes(n: nat)
    ensures Numeral(Padded(n)) && Val(Padded(n)) == n && |Padded(n)| >= 4
    ensures |Padded(n)| == if |Digits(n)| < 4 then 4 else |Digits(n)|
  {
    DigitsDenote(n);
    ZerosDenote(if |Digits(n)| < 4 then 4 - |Digits(n)| else 0, Digits(n));
  }

  lemma FirstDash(y: string, s: string)
    requires Numeral(y)
    ensures var t := y + "-" + s;
            && t[|y|] == '-' && (forall i :: 0 <= i < |y| ==> t[i] != '-')
            && t[..|y|] == y && t[|y| + 1..] == s
  {
  }

  /** The dash after the year is the first one, so the parts can be told apart. */
  lemma SplitAtDash(y1: string, s1: string, y2: string, s2: string)
    requires Numeral(y1) && Numeral(y2) && y1 + "-" + s1 == y2 + "-" + s2
    ensures y1 == y2 && s1 == s2
  {
    FirstDash(y1, s1);
    FirstDash(y2, s2);
    assert |y1| == |y2|;
  }

  lemma AfterPrefix(year: nat, n: nat)
    ensures |HumanId(year, n)| >= 3 && HumanId(year, n)[..3] == "JA-"
    ensures HumanId(year, n)[3..] == Digits(year) + "-" + Padded(n)
  {
    hide Digits, Padded;
  }

  /** No two (year, number) pairs print alike, however large. */
  lemma HumanIdInjective(y1: nat, a: nat, y2: nat, b: nat)
    ensures HumanId(y1, a) == HumanId(y2, b) <==> y1 == y2 && a == b
  {
    hide Digits, Padded, Val, Numeral, HumanId;
    AfterPrefix(y1, a);
    AfterPrefix(y2, b);
    if HumanId(y1, a) == HumanId(y2, b) {
      DigitsDenote(y1);
      DigitsDenote(y2);
      SplitAtDash(Digits(y1), Padded(a), Digits(y2), Padded(b));
      PaddedDenotes(a);
      PaddedDenotes(b);
    }
  }

  // ----- Listing order -----

  /** Lexicographic order, as a text column is sorted. */
  predicate Before(s: string, t: string) {
    if t == "" then false
    else if s == "" then true
    else s[0] < t[0] || (s[0] == t[0] && Before(s[1..], t[1..]))
  }

  /** Equally long heads decide unless they are equal. */
  lemma {:induction false} BeforeByHead(s: string, u: string, t: string, v: string)
    requires |s| == |t|
    ensures Before(s + u, t + v) <==> Before(s, t) || (s == t && Before(u, v))
    ensures !(Before(s, t) && s == t)
  {
    if s == "" {
      assert s + u == u && t + v == v;
    } else {
      BeforeByHead(s[1..], u, t[1..], v);
      assert (s + u)[1..] == s[1..] + u && (t + v)[1..] == t[1..] + v;
      assert s == [s[0]] + s[1..] && t == [t[0]] + t[1..];
    }
  }

  function Pow10(k: nat): nat {
    if k == 0 then 1 else 10 * Pow10(k - 1)
  }

  lemma LastDecides(s: string, c: char, t: string, d: char)
    requires |s| == |t|
    ensures Before(s + [c], t + [d]) <==> Before(s, t) || (s == t && c < d)
    ensures !(Before(s, t) && s == t)
    ensures s + [c] == t + [d] <==> s == t && c == d
  {
    BeforeByHead(s, [c], t, [d]);
    assert Before([c], [d]) <==> c < d;
    assert (s + [c])[..|s|] == s && (t + [d])[..|t|] == t;
    assert (s + [c])[|s|] == c && (t + [d])[|t|] == d;
  }

  lemma {:induction false} EqualWidth(s: string, t: string)
    requires Numeral(s) && Numeral(t) && |s| == |t|
    ensures Before(s, t) <==> Val(s) < Val(t)
    ensures s == t <==> Val(s) == Val(t)
  {
    if s != "" {
      var n := |s| - 1;
      EqualWidth(s[..n], t[..n]);
      LastDecides(s[..n], s[n], t[..n], t[n]);
      hide Before;
      assert s == s[..n] + [s[n]] && t == t[..n] + [t[n]];
    }
  }

  lemma {:induction false} PowPositive(k: nat)
    ensures Pow10(k) > 0
  {
    if k > 0 {
      PowPositive(k - 1);
    }
  }

  lemma MulGrows(x: int, p: int)
    requires p > 0
    ensures x >= 1 ==> x * p >= p
    ensures x <= -1 ==> x * p <= -p
  {
  }

  lemma DivUnique(n: nat, p: nat, q: nat, r: nat)
    requires p > 0 && n == q * p + r && r < p
    ensures n / p == q
  {
    assert (q - n / p) * p == n % p - r;
    MulGrows(q - n / p, p);
  }

  lemma DivStep(n: nat, d: nat, p: nat)
    requires d < 10 && p > 0
    ensures (10 * n + d) / (10 * p) == n / p
  {
    var m, r := (n / p) * p, n % p;
    assert n == m + r;
    assert (n / p) * (10 * p) == 10 * m;
    DivUnique(10 * n + d, 10 * p, n / p, 10 * r + d);
  }

  /** Dropping trailing digits divides by a power of ten. */
  lemma {:induction false} HeadValue(s: string, k: nat)
    requires Numeral(s) && k <= |s|
    ensures Numeral(s[..k]) && Pow10(|s| - k) > 0 && Val(s[..k]) == Val(s) / Pow10(|s| - k)
    decreases |s|
  {
    if k == |s| {
      assert s[..k] == s;
    } else {
      var n := |s| - 1;
      HeadValue(s[..n], k);
      assert s[..n][..k] == s[..k];
      DivStep(Val(s[..n]), s[n] as int - '0' as int, Pow10(n - k));
    }
  }

  function Width(n: nat): nat {
    |Padded(n)|
  }

  /** The listing order of two numbers of one year: numeric while they are printed equally wide. */
  predicate ListedBefore(a: nat, b: nat)
    ensures Width(a) < Width(b) ==> Pow10(Width(b) - Width(a)) > 0
    ensures Width(b) < Width(a) ==> Pow10(Width(a) - Width(b)) > 0
  {
    if Width(a) < Width(b) then
      PowPositive(Width(b) - Width(a));
      a <= b / Pow10(Width(b) - Width(a))
    else if Width(b) < Width(a) then
      PowPositive(Width(a) - Width(b));
      a / Pow10(Width(a) - Width(b)) < b
    else a < b
  }

  lemma ShorterFirst(s: string, t: string)
    requires Numeral(s) && Numeral(t) && |s| < |t|
    ensures Pow10(|t| - |s|) > 0
    ensures Before(s, t) <==> Val(s) <= Val(t) / Pow10(|t| - |s|)
    ensures Before(t, s) <==> Val(t) / Pow10(|t| - |s|) < Val(s)
  {
    hide Val, Numeral;
    var k := |s|;
    HeadValue(t, k);
    EqualWidth(s, t[..k]);
    EqualWidth(t[..k], s);
    BeforeByHead(s, "", t[..k], t[k..]);
    BeforeByHead(t[..k], t[k..], s, "");
    assert s + "" == s && t[..k] + t[k..] == t;
  }

  lemma PaddedOrder(a: nat, b: nat)
    ensures Before(Padded(a), Padded(b)) <==> ListedBefore(a, b)
  {
    hide Padded, Before, Val, Pow10;
    PaddedDenotes(a);
    PaddedDenotes(b);
    if Width(a) < Width(b) {
      ShorterFirst(Padded(a), Padded(b));
    } else if Width(b) < Width(a) {
      ShorterFirst(Padded(b), Padded(a));
    } else {
      EqualWidth(Padded(a), Padded(b));
    }
  }

  /**
   Sorted by their printed form, the reports of four-digit years come in order of year, and
   within a year in the listing order of their numbers.
   */
  lemma ListingOrder(y1: nat, a: nat, y2: nat, b: nat)
    requires 1000 <= y1 <= 9999 && 1000 <= y2 <= 9999
    ensures Before(HumanId(y1, a), HumanId(y2, b)) <==> y1 < y2 || (y1 == y2 && ListedBefore(a, b))
  {
    FourDigits(y1);
    FourDigits(y2);
    DigitsDenote(y1);
    DigitsDenote(y2);
    EqualWidth(Digits(y1), Digits(y2));
    var u, v := "-" + Padded(a), "-" + Padded(b);
    assert HumanId(y1, a) == "JA-" + (Digits(y1) + u) && HumanId(y2, b) == "JA-" + (Digits(y2) + v);
    BeforeByHead("JA-", Digits(y1) + u, "JA-", Digits(y2) + v);
    BeforeByHead(Digits(y1), u, Digits(y2), v);
    BeforeByHead("-", Padded(a), "-", Padded(b));
    PaddedOrder(a, b);
  }

  lemma FourDigits(n: nat)
    requires 1000 <= n <= 9999
    ensures |Digits(n)| == 4
  {
    assert |Digits(n / 1000)| == 1;
    assert |Digits(n / 100)| == 2;
    assert |Digits(n / 10)| == 3;
  }

  lemma NarrowNumbers(a: nat, b: nat)
    requires a <= 9999 && b <= 9999
    ensures ListedBefore(a, b) <==> a < b
  {
    FewDigits(a);
    FewDigits(b);
    PaddedDenotes(a);
    PaddedDenotes(b);
  }

  lemma FiveDigitsTooEarly()
    ensures !ListedBefore(9_999, 10_000)
  {
    FewDigits(9_999);
    PaddedDenotes(9_999);
    PaddedDenotes(10_000);
    FourDigits(1_000);
    assert |Digits(10_000)| == 5;
    assert Pow10(1) == 10;
  }

  /** The listing order is the numeric order on all numbers up to `n` exactly when `n` has at most four digits. */
  lemma NumericExactlyUpTo9999(n: nat)
    ensures (forall a: nat, b: nat :: a <= n && b <= n ==> (ListedBefore(a, b) <==> a < b)) <==> n <= 9999
  {
    hide ListedBefore;
    if n <= 9999 {
      forall a: nat, b: nat | a <= n && b <= n
        ensures ListedBefore(a, b) <==> a < b
      {
        NarrowNumbers(a, b);
      }
    } else {
      FiveDigitsTooEarly();
    }
  }

  lemma FewDigits(n: nat)
    ensures n <= 9999 ==> |Digits(n)| <= 4
  {
    if n <= 9999 {
      assert |Digits(n / 1000)| == 1;
      assert |Digits(n / 100)| <= 2;
      assert |Digits(n / 10)| <= 3;
    }
  }
}
