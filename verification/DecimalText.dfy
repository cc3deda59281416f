/** Integers as decimal text, and what comparing the texts says about the numbers. */
module DecimalText {

  /** Go's order of strings. */
  predicate StrLess(a: string, b: string) {
    if b == "" then false
    else if a == "" then true
    else a[0] < b[0] || (a[0] == b[0] && StrLess(a[1..], b[1..]))
  }

  lemma {:induction false} StrLessTrichotomy(a: string, b: string)
    ensures !StrLess(a, b) && !StrLess(b, a) <==> a == b
    ensures !(StrLess(a, b) && StrLess(b, a))
  {
    if a != "" && b != "" {
      StrLessTrichotomy(a[1..], b[1..]);
      assert a == [a[0]] + a[1..] && b == [b[0]] + b[1..];
    }
  }

  lemma {:induction false} StrLessTransitive(a: string, b: string, c: string)
    requires !StrLess(b, a) && StrLess(b, c)
    ensures StrLess(a, c)
  {
    if a != "" && b != "" && a[0] == b[0] && b[0] == c[0] {
      StrLessTransitive(a[1..], b[1..], c[1..]);
    }
  }

  function Digit(d: nat): char
    requires d < 10
  {
    '0' + d as char
  }

  function Digits(n: nat): (s: string)
    ensures s != "" && '0' <= s[0] <= '9'
  {
    if n < 10 then [Digit(n)] else Digits(n / 10) + [Digit(n % 10)]
  }

  function Text(i: int): string {
    if i < 0 then "-" + Digits(-i) else Digits(i)
  }

  /** The number made of the first `length` digits of `n`, or `n` itself if it has no more. */
  function Leading(n: nat, length: nat): (r: nat)
    requires length > 0
    ensures r <= n && (|Digits(n)| <= length ==> r == n)
  {
    if |Digits(n)| <= length then n else Leading(n / 10, length)
  }

  /** The order of the texts of two naturals: by their common number of leading digits, then by length. */
  predicate TextuallyLess(a: nat, b: nat) {
    var x, y := Leading(a, |Digits(b)|), Leading(b, |Digits(a)|);
    x < y || (x == y && |Digits(a)| < |Digits(b)|)
  }

  /** Whether the texts of two integers are ordered as the integers are. */
  predicate TextOrdered(i: int, j: int) {
    i == j || (i < 0) != (j < 0) || if i < 0 then TextuallyLess(-i, -j) == (i < j) else TextuallyLess(i, j) == (i < j)
  }

  // ---------- comparing texts ----------

  lemma {:induction false} StrLessAppend(a: string, b: string, x: string, y: string)
    requires |a| == |b|
    ensures StrLess(a + x, b + y) <==> StrLess(a, b) || (a == b && StrLess(x, y))
  {
    if a == "" {
      assert a + x == x && b + y == y;
    } else {
      assert (a + x)[1..] == a[1..] + x && (b + y)[1..] == b[1..] + y;
      assert a == [a[0]] + a[1..] && b == [b[0]] + b[1..];
      StrLessAppend(a[1..], b[1..], x, y);
    }
  }

  lemma {:induction false} SameLengthDigits(a: nat, b: nat)
    requires |Digits(a)| == |Digits(b)|
    ensures StrLess(Digits(a), Digits(b)) <==> a < b
    ensures Digits(a) == Digits(b) <==> a == b
  {
    if a < 10 && b < 10 {
      assert StrLess([Digit(a)], [Digit(b)]) <==> Digit(a) < Digit(b);
    } else if a >= 10 && b >= 10 {
      SameLengthDigits(a / 10, b / 10);
      StrLessAppend(Digits(a / 10), Digits(b / 10), [Digit(a % 10)], [Digit(b % 10)]);
      assert StrLess([Digit(a % 10)], [Digit(b % 10)]) <==> a % 10 < b % 10;
      assert Digits(a)[..|Digits(a)| - 1] == Digits(a / 10) && Digits(b)[..|Digits(b)| - 1] == Digits(b / 10);
      assert Digits(a)[|Digits(a)| - 1] == Digit(a % 10) && Digits(b)[|Digits(b)| - 1] == Digit(b % 10);
    }
  }

  /** The leading digits of a number are the start of its text. */
  lemma {:induction false} LeadingDigits(n: nat, length: nat)
    requires 0 < length <= |Digits(n)|
    ensures Digits(Leading(n, length)) == Digits(n)[..length]
  {
    if |Digits(n)| == length {
      assert Digits(n)[..length] == Digits(n);
    } else {
      assert n >= 10 && |Digits(n / 10)| >= length;
      LeadingDigits(n / 10, length);
      assert Digits(n)[..length] == Digits(n / 10)[..length];
    }
  }

  lemma EmptyText(s: string)
    ensures StrLess("", s) <==> s != ""
    ensures !StrLess(s, "")
  {
  }

  lemma DigitsOrder(a: nat, b: nat)
    ensures StrLess(Digits(a), Digits(b)) <==> TextuallyLess(a, b)
  {
    hide Digits, Leading, StrLess;
    var s, t := Digits(a), Digits(b);
    EmptyText(t[if |s| <= |t| then |s| else 0..]);
    EmptyText(s[if |t| <= |s| then |t| else 0..]);
    if |s| <= |t| {
      LeadingDigits(b, |s|);
      SameLengthDigits(a, Leading(b, |s|));
      assert s + "" == s && t == t[..|s|] + t[|s|..];
      StrLessAppend(s, t[..|s|], "", t[|s|..]);
    } else {
      LeadingDigits(a, |t|);
      SameLengthDigits(Leading(a, |t|), b);
      assert t + "" == t && s == s[..|t|] + s[|t|..];
      StrLessAppend(s[..|t|], t, s[|t|..], "");
    }
  }

  lemma DigitsInjective(a: nat, b: nat)
    ensures Digits(a) == Digits(b) <==> a == b
  {
    if Digits(a) == Digits(b) {
      SameLengthDigits(a, b);
    }
  }

  /** Texts are equal exactly for equal integers. */
  lemma TextInjective(i: int, j: int)
    ensures Text(i) == Text(j) <==> i == j
  {
    if i < 0 && j < 0 {
      DigitsInjective(-i, -j);
      assert Text(i)[1..] == Digits(-i) && Text(j)[1..] == Digits(-j);
    } else if i >= 0 && j >= 0 {
      DigitsInjective(i, j);
    }
  }

  /** The order of the texts of two integers, in terms of the integers. */
  lemma TextOrder(i: int, j: int)
    ensures StrLess(Text(i), Text(j)) <==>
            if (i < 0) != (j < 0) then i < j
            else if i < 0 then TextuallyLess(-i, -j) else TextuallyLess(i, j)
  {
    if i < 0 && j < 0 {
      DigitsOrder(-i, -j);
      StrLessAppend("-", "-", Digits(-i), Digits(-j));
    } else if i >= 0 && j >= 0 {
      DigitsOrder(i, j);
    }
  }

  /** Comparing the texts gives the order of the integers exactly when their leading digits do. */
  lemma TextOrderIsRight(i: int, j: int)
    ensures (StrLess(Text(i), Text(j)) <==> i < j) && (StrLess(Text(j), Text(i)) <==> j < i) <==> TextOrdered(i, j)
  {
    TextOrder(i, j);
    TextInjective(i, j);
    StrLessTrichotomy(Text(i), Text(j));
  }

  // ---------- integers at the ends of the textual order ----------

  lemma {:induction false} LeadingPositive(n: nat, length: nat)
    requires n > 0 && length > 0
    ensures Leading(n, length) > 0
  {
    if |Digits(n)| > length {
      LeadingPositive(n / 10, length);
    }
  }

  /** No integer's text comes before that of -1. */
  lemma NothingBeforeMinusOne(n: int)
    ensures !StrLess(Text(n), Text(-1))
  {
    TextOrder(n, -1);
    if n < 0 {
      LeadingPositive(-n, 1);
    }
  }

  /** The text of -1 comes before that of every other integer. */
  lemma MinusOneBefore(n: int)
    requires n != -1
    ensures StrLess(Text(-1), Text(n)) && !StrLess(Text(n), Text(-1))
  {
    TextOrder(-1, n);
    NothingBeforeMinusOne(n);
    if n < 0 {
      LeadingPositive(-n, 1);
    }
  }

  /** The number written with `k` nines. */
  function Nines(k: nat): nat {
    if k == 0 then 0 else 10 * Nines(k - 1) + 9
  }

  lemma {:induction false} NinesText(k: nat)
    requires k > 0
    ensures |Digits(Nines(k))| == k && forall i :: 0 <= i < k ==> Digits(Nines(k))[i] == '9'
  {
    if k > 1 {
      NinesText(k - 1);
      assert Nines(k) / 10 == Nines(k - 1) && Nines(k) % 10 == 9;
      assert Nines(k) >= 10;
    } else {
      assert Nines(1) == 10 * Nines(0) + 9;
    }
  }

  lemma {:induction false} OnlyDigits(n: nat)
    ensures forall i :: 0 <= i < |Digits(n)| ==> '0' <= Digits(n)[i] <= '9'
  {
    if n >= 10 {
      OnlyDigits(n / 10);
    }
  }

  /** Only a text that starts with nines comes after a text of nines. */
  lemma {:induction false} AfterNines(t: string, s: string)
    requires forall i :: 0 <= i < |t| ==> t[i] == '9'
    requires forall i :: 0 <= i < |s| ==> '0' <= s[i] <= '9'
    requires StrLess(t, s)
    ensures |s| > |t| && s[..|t|] == t
  {
    if t != "" {
      AfterNines(t[1..], s[1..]);
      assert s[..|t|] == [s[0]] + s[1..][..|t| - 1];
    }
  }

  lemma LeadingShrinks(n: nat, length: nat)
    requires 0 < length < |Digits(n)|
    ensures Leading(n, length) <= n / 10
  {
  }

  /** Among the integers below `k` nines and a zero, none has a text after that of `k` nines. */
  lemma NothingAfterNines(n: int, k: nat)
    requires k > 0 && n < 10 * Nines(k)
    ensures !StrLess(Text(Nines(k)), Text(n))
  {
    if n >= 0 && StrLess(Digits(Nines(k)), Digits(n)) {
      NinesText(k);
      OnlyDigits(n);
      AfterNines(Digits(Nines(k)), Digits(n));
      LeadingDigits(n, k);
      DigitsInjective(Leading(n, k), Nines(k));
      LeadingShrinks(n, k);
    }
  }
}
