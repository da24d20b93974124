/**
 * Dates are strings meant to be ISO 8601 calendar dates in extended format
 * (YYYY-MM-DD). The list is ordered by comparing these strings character by
 * character. For strings of the YYYY-MM-DD shape (digits and dashes in
 * place; month and day ranges are not checked) that order is the order by
 * (year, month, day), which is the chronological one for valid dates.
 */
module IsoDate {

  /** Character-by-character order on strings (a proper prefix comes first). */
  predicate LexLe(a: string, b: string)
  {
    if a == [] then true
    else if b == [] then false
    else if a[0] != b[0] then a[0] < b[0]
    else LexLe(a[1..], b[1..])
  }

  lemma {:induction false} LexLeTotal(a: string, b: string)
    ensures LexLe(a, b) || LexLe(b, a)
  {
    if a != [] && b != [] && a[0] == b[0] {
      LexLeTotal(a[1..], b[1..]);
    }
  }

  lemma {:induction false} LexLeTransitive(a: string, b: string, c: string)
    requires LexLe(a, b) && LexLe(b, c)
    ensures LexLe(a, c)
  {
    if a != [] && b != [] && c != [] && a[0] == b[0] && b[0] == c[0] {
      LexLeTransitive(a[1..], b[1..], c[1..]);
    }
  }

  lemma {:induction false} LexLeAntisymmetric(a: string, b: string)
    requires LexLe(a, b) && LexLe(b, a)
    ensures a == b
  {
    if a != [] && b != [] {
      LexLeAntisymmetric(a[1..], b[1..]);
      assert a == [a[0]] + a[1..] && b == [b[0]] + b[1..];
    }
  }

  predicate IsDigit(c: char)
  {
    '0' <= c <= '9'
  }

  /** Four digits, '-', two digits, '-', two digits. */
  predicate IsIsoDate(s: string)
  {
    && |s| == 10
    && s[4] == '-' && s[7] == '-'
    && forall i :: 0 <= i < 10 && i != 4 && i != 7 ==> IsDigit(s[i])
  }

  function Pow10(n: nat): (r: nat)
    ensures r >= 1
  {
    if n == 0 then 1 else 10 * Pow10(n - 1)
  }

  function DigitOf(c: char): (d: nat)
    requires IsDigit(c)
    ensures d <= 9
  {
    c as int - '0' as int
  }

  /** The number a string of decimal digits denotes. */
  function DigitsValue(s: string): (v: nat)
    requires forall i :: 0 <= i < |s| ==> IsDigit(s[i])
  {
    if s == [] then 0 else DigitOf(s[0]) * Pow10(|s| - 1) + DigitsValue(s[1..])
  }

  lemma {:induction false} DigitsValueBound(s: string)
    requires forall i :: 0 <= i < |s| ==> IsDigit(s[i])
    ensures DigitsValue(s) < Pow10(|s|)
  {
    if s != [] {
      DigitsValueBound(s[1..]);
      var d, p := DigitOf(s[0]), Pow10(|s| - 1);
      MulLe(d, 9, p);
      assert DigitsValue(s) == d * p + DigitsValue(s[1..]);
    }
  }

  lemma MulLe(x: int, y: int, p: nat)
    requires x <= y
    ensures x * p <= y * p
  {
  }

  /** For digit strings of one length, character order is numeric order. */
  lemma {:induction false} LexLeDigits(a: string, b: string)
    requires |a| == |b|
    requires forall i :: 0 <= i < |a| ==> IsDigit(a[i])
    requires forall i :: 0 <= i < |b| ==> IsDigit(b[i])
    ensures LexLe(a, b) <==> DigitsValue(a) <= DigitsValue(b)
  {
    if a != [] {
      var p := Pow10(|a| - 1);
      var da, db := DigitOf(a[0]), DigitOf(b[0]);
      var ra, rb := DigitsValue(a[1..]), DigitsValue(b[1..]);
      assert DigitsValue(a) == da * p + ra;
      assert DigitsValue(b) == db * p + rb;
      DigitsValueBound(a[1..]);
      DigitsValueBound(b[1..]);
      if a[0] == b[0] {
        LexLeDigits(a[1..], b[1..]);
      } else if a[0] < b[0] {
        LeadingDigitDecides(da, ra, db, rb, p);
      } else {
        LeadingDigitDecides(db, rb, da, ra, p);
      }
    }
  }

  /** A smaller leading digit wins whatever follows, when what follows is below the place value. */
  lemma LeadingDigitDecides(dx: nat, rx: nat, dy: nat, ry: nat, p: nat)
    requires dx < dy && rx < p
    ensures dx * p + rx < dy * p + ry
  {
    MulLe(dx + 1, dy, p);
    assert (dx + 1) * p == dx * p + p;
  }

  /** Dropping a position where both strings agree does not change their order. */
  lemma {:induction false} LexLeDropCommon(a: string, b: string, k: nat)
    requires |a| == |b| && k < |a| && a[k] == b[k]
    ensures LexLe(a, b) <==> LexLe(a[..k] + a[k + 1..], b[..k] + b[k + 1..])
  {
    if k == 0 {
      assert a[..k] + a[k + 1..] == a[1..];
      assert b[..k] + b[k + 1..] == b[1..];
    } else {
      LexLeDropCommon(a[1..], b[1..], k - 1);
      assert a[..k] + a[k + 1..] == [a[0]] + (a[1..][..k - 1] + a[1..][k..]);
      assert b[..k] + b[k + 1..] == [b[0]] + (b[1..][..k - 1] + b[1..][k..]);
    }
  }

  /** The eight digits of a date, year first. */
  function DateDigits(s: string): (d: string)
    requires IsIsoDate(s)
    ensures |d| == 8 && forall i :: 0 <= i < 8 ==> IsDigit(d[i])
  {
    s[..4] + s[5..7] + s[8..]
  }

  function Year(s: string): nat
    requires IsIsoDate(s)
  {
    DigitsValue(s[..4])
  }

  function Month(s: string): nat
    requires IsIsoDate(s)
  {
    DigitsValue(s[5..7])
  }

  function Day(s: string): nat
    requires IsIsoDate(s)
  {
    DigitsValue(s[8..])
  }

  /** Chronological order of calendar dates: by year, then month, then day. */
  predicate Chronological(a: string, b: string)
    requires IsIsoDate(a) && IsIsoDate(b)
  {
    Year(a) < Year(b) || (Year(a) == Year(b) && (Month(a) < Month(b) || (Month(a) == Month(b) && Day(a) <= Day(b))))
  }

  lemma {:induction false} DigitsValueAppend(x: string, y: string)
    requires forall i :: 0 <= i < |x| ==> IsDigit(x[i])
    requires forall i :: 0 <= i < |y| ==> IsDigit(y[i])
    ensures DigitsValue(x + y) == DigitsValue(x) * Pow10(|y|) + DigitsValue(y)
  {
    if x != [] {
      var xy := x + y;
      assert xy[0] == x[0];
      assert xy[1..] == x[1..] + y;
      DigitsValueAppend(x[1..], y);
      var d, p, q := DigitOf(x[0]), Pow10(|x| - 1), Pow10(|y|);
      var r := DigitsValue(x[1..]);
      PowAdd(|x| - 1, |y|);
      assert |xy| - 1 == (|x| - 1) + |y|;
      assert DigitsValue(xy) == d * Pow10(|xy| - 1) + (r * q + DigitsValue(y));
      assert Pow10(|xy| - 1) == p * q;
      MulAssoc(d, p, q);
      Distribute(d * p, r, q);
    } else {
      assert x + y == y;
    }
  }

  lemma Distribute(a: int, b: int, c: int)
    ensures (a + b) * c == a * c + b * c
  {
  }

  lemma MulAssoc(a: int, b: int, c: int)
    ensures a * (b * c) == (a * b) * c
  {
  }

  lemma {:induction false} PowAdd(m: nat, n: nat)
    ensures Pow10(m + n) == Pow10(m) * Pow10(n)
  {
    if m > 0 {
      PowAdd(m - 1, n);
      MulAssoc(10, Pow10(m - 1), Pow10(n));
    }
  }

  /** The eight digits read as one number give year * 10000 + month * 100 + day. */
  lemma DateDigitsValue(s: string)
    requires IsIsoDate(s)
    ensures DigitsValue(DateDigits(s)) == Year(s) * 10000 + Month(s) * 100 + Day(s)
  {
    var y, m, d := s[..4], s[5..7], s[8..];
    DigitsValueAppend(y + m, d);
    DigitsValueAppend(y, m);
    assert Pow10(2) == 100;
    DigitsValueBound(m);
    DigitsValueBound(d);
  }

  /** A numeric key whose order is the chronological order. */
  lemma ChronologicalByKey(a: string, b: string)
    requires IsIsoDate(a) && IsIsoDate(b)
    requires DigitsValue(DateDigits(a)) == Year(a) * 10000 + Month(a) * 100 + Day(a)
    requires DigitsValue(DateDigits(b)) == Year(b) * 10000 + Month(b) * 100 + Day(b)
    ensures Chronological(a, b) <==> DigitsValue(DateDigits(a)) <= DigitsValue(DateDigits(b))
  {
    DigitsValueBound(a[5..7]);
    DigitsValueBound(a[8..]);
    DigitsValueBound(b[5..7]);
    DigitsValueBound(b[8..]);
    assert Pow10(2) == 100;
  }

  /** For YYYY-MM-DD-shaped strings, comparing the strings compares (year, month, day). */
  lemma IsoDateOrder(a: string, b: string)
    requires IsIsoDate(a) && IsIsoDate(b)
    ensures LexLe(a, b) <==> Chronological(a, b)
  {
    LexLeDropCommon(a, b, 7);
    var a', b' := a[..7] + a[8..], b[..7] + b[8..];
    LexLeDropCommon(a', b', 4);
    assert a'[..4] + a'[5..] == DateDigits(a);
    assert b'[..4] + b'[5..] == DateDigits(b);
    LexLeDigits(DateDigits(a), DateDigits(b));
    DateDigitsValue(a);
    DateDigitsValue(b);
    ChronologicalByKey(a, b);
  }
}
