/**
 The two orders on property keys, said independently: `<` on strings as ECMAScript
 defines it, and own-property enumeration, which lists array indices by their
 numeric value before all other keys.
 */
module TextOrder {
  import opened Text

  /** `a` and `b` first differ at `k`, where `a` ends or has the smaller unit. */
  predicate SmallerAt(a: Text, b: Text, k: nat) {
    && k <= |a| && k <= |b| && a[..k] == b[..k]
    && k < |b| && (k == |a| || (k < |a| && a[k] < b[k]))
  }

  lemma {:induction false} LessIff(a: Text, b: Text)
    ensures Less(a, b) <==> exists k: nat :: SmallerAt(a, b, k)
    decreases |a|
  {
    if a == [] {
      assert b != [] ==> SmallerAt(a, b, 0);
    } else if b != [] {
      LessIff(a[1..], b[1..]);
      if a[0] < b[0] { assert SmallerAt(a, b, 0); }
      if a[0] == b[0] && Less(a[1..], b[1..]) {
        var k: nat :| SmallerAt(a[1..], b[1..], k);
        assert a[..k + 1] == [a[0]] + a[1..][..k] && b[..k + 1] == [b[0]] + b[1..][..k];
        assert SmallerAt(a, b, k + 1);
      }
      if k: nat :| SmallerAt(a, b, k) { SmallerTail(a, b, k); }
    }
  }

  lemma SmallerTail(a: Text, b: Text, k: nat)
    requires SmallerAt(a, b, k) && a != [] && b != []
    ensures a[0] < b[0] || (a[0] == b[0] && k > 0 && SmallerAt(a[1..], b[1..], k - 1))
  {
    if k > 0 {
      assert a[..k][0] == a[0] && b[..k][0] == b[0];
      assert a[1..][..k - 1] == a[..k][1..] && b[1..][..k - 1] == b[..k][1..];
    }
  }

  /* ----------------------------------------------------------------------- decimals -- */

  /** The text of a number, as `String(n)` gives it. */
  function DecimalText(n: nat): Text {
    if n < 10 then [48 + n] else DecimalText(n / 10) + [48 + n % 10]
  }

  predicate Digits(s: Text) { forall i :: 0 <= i < |s| ==> 48 <= s[i] <= 57 }

  /** A decimal without leading zeros. */
  predicate Canonical(s: Text) { s != [] && Digits(s) && (s[0] == 48 ==> |s| == 1) }

  function Pow(n: nat): (p: nat)
    ensures p > 0
  {
    if n == 0 then 1 else 10 * Pow(n - 1)
  }

  function Times(d: nat, p: nat): nat { if d == 0 then 0 else p + Times(d - 1, p) }

  lemma {:induction false} TimesGrows(x: nat, y: nat, p: nat)
    requires x < y
    ensures Times(x, p) + p <= Times(y, p)
  {
    if x + 1 < y { TimesGrows(x, y - 1, p); }
  }

  lemma {:induction false} TimesTen(d: nat, p: nat)
    ensures Times(d, 10 * p) == 10 * Times(d, p)
  {
    if d > 0 { TimesTen(d - 1, p); }
  }

  lemma TenTimes(p: nat)
    ensures Times(10, p) == 10 * p
  {
    assert Times(1, p) == p + Times(0, p);
    assert Times(2, p) == p + Times(1, p);
    assert Times(3, p) == p + Times(2, p);
    assert Times(4, p) == p + Times(3, p);
    assert Times(5, p) == p + Times(4, p);
    assert Times(6, p) == p + Times(5, p);
    assert Times(7, p) == p + Times(6, p);
    assert Times(8, p) == p + Times(7, p);
    assert Times(9, p) == p + Times(8, p);
    assert Times(10, p) == p + Times(9, p);
  }

  lemma {:induction false} TimesOne(d: nat)
    ensures Times(d, 1) == d
  {
    if d > 0 { TimesOne(d - 1); }
  }

  /** The number that digits stand for. */
  function Number(s: Text): (n: nat)
    requires Digits(s)
    ensures n < Pow(|s|)
  {
    if s == [] then 0
    else
      var rest := s[1..];
      TimesGrows(s[0] - 48, 10, Pow(|rest|));
      TenTimes(Pow(|rest|));
      Times(s[0] - 48, Pow(|rest|)) + Number(rest)
  }

  lemma {:induction false} NumberSnoc(s: Text, d: Unit)
    requires Digits(s) && 48 <= d <= 57
    ensures Digits(s + [d]) && Number(s + [d]) == 10 * Number(s) + (d - 48)
    decreases |s|
  {
    if s == [] {
      assert s + [d] == [d] && [d][1..] == [];
      TimesOne(d - 48);
    } else {
      NumberSnoc(s[1..], d);
      assert (s + [d])[1..] == s[1..] + [d];
      TimesTen(s[0] - 48, Pow(|s| - 1));
    }
  }

  lemma {:induction false} DecimalIsCanonical(n: nat)
    ensures Canonical(DecimalText(n)) && Number(DecimalText(n)) == n
    ensures n > 0 ==> DecimalText(n)[0] != 48
  {
    if n >= 10 {
      DecimalIsCanonical(n / 10);
      NumberSnoc(DecimalText(n / 10), 48 + n % 10);
    } else {
      assert [48 + n][1..] == [];
      TimesOne(n);
    }
  }

  /** Digits of one length compare as their numbers do. */
  lemma {:induction false} SameLength(a: Text, b: Text)
    requires Digits(a) && Digits(b) && |a| == |b|
    ensures Less(a, b) <==> Number(a) < Number(b)
    decreases |a|
  {
    if a != [] {
      SameLength(a[1..], b[1..]);
      HeadDecides(a[0] - 48, b[0] - 48, Number(a[1..]), Number(b[1..]), Pow(|a| - 1));
    }
  }

  lemma HeadDecides(x: nat, y: nat, m: nat, n: nat, p: nat)
    requires m < p && n < p
    ensures x < y ==> Times(x, p) + m < Times(y, p) + n
    ensures x > y ==> Times(x, p) + m > Times(y, p) + n
  {
    if x < y { TimesGrows(x, y, p); }
    if x > y { TimesGrows(y, x, p); }
  }

  lemma {:induction false} PowGrows(m: nat, n: nat)
    requires m <= n
    ensures Pow(m) <= Pow(n)
  {
    if m < n { PowGrows(m, n - 1); }
  }

  /** Canonical decimals compare by length first, and then as their numbers do. */
  lemma NumericOrder(a: Text, b: Text)
    requires Canonical(a) && Canonical(b)
    ensures ShortLess(a, b) <==> Number(a) < Number(b)
  {
    if |a| == |b| {
      SameLength(a, b);
    } else if |a| < |b| {
      LongerIsMore(a, b);
    } else {
      LongerIsMore(b, a);
    }
  }

  lemma LongerIsMore(a: Text, b: Text)
    requires Canonical(a) && Canonical(b) && |a| < |b|
    ensures Number(a) < Number(b)
  {
    PowGrows(|a|, |b| - 1);
    TimesGrows(0, b[0] - 48, Pow(|b| - 1));
  }

  /** A canonical decimal is the text of its number. */
  lemma CanonicalIsDecimal(s: Text)
    requires Canonical(s)
    ensures s == DecimalText(Number(s))
  {
    var t := DecimalText(Number(s));
    DecimalIsCanonical(Number(s));
    NumericOrder(s, t);
    NumericOrder(t, s);
    LessTrichotomy(s, t);
  }

  /* ------------------------------------------------------------------ enumeration order -- */

  const MAX_INDEX: nat := 4294967295

  lemma BoundIsIts()
    ensures Canonical(Ascii("4294967295")) && Number(Ascii("4294967295")) == MAX_INDEX
  {
    BoundText();
    BoundNumber();
  }

  lemma BoundText()
    ensures Ascii("4294967295") == BOUND
  {
    var a := Ascii("4294967295");
    assert |a| == 10 && a[0] == 52 && a[1] == 50 && a[2] == 57 && a[3] == 52 && a[4] == 57;
    assert a[5] == 54 && a[6] == 55 && a[7] == 50 && a[8] == 57 && a[9] == 53;
  }

  const BOUND: Text := [52, 50, 57, 52, 57, 54, 55, 50, 57, 53]

  lemma BoundNumber()
    ensures Canonical(BOUND) && Number(BOUND) == MAX_INDEX
  {
    var s5 := BoundHead();
    var s6 := Appended(s5, 54, 42949);
    var s7 := Appended(s6, 55, 429496);
    var s8 := Appended(s7, 50, 4294967);
    var s9 := Appended(s8, 57, 42949672);
    var s10 := Appended(s9, 53, 429496729);
    assert s10 == BOUND;
  }

  lemma BoundHead() returns (s: Text)
    ensures s == [52, 50, 57, 52, 57] && Digits(s) && Number(s) == 42949
  {
    s := Appended([], 52, 0);
    s := Appended(s, 50, 4);
    s := Appended(s, 57, 42);
    s := Appended(s, 52, 429);
    s := Appended(s, 57, 4294);
  }

  lemma Appended(s: Text, d: Unit, n: nat) returns (t: Text)
    requires Digits(s) && Number(s) == n && 48 <= d <= 57
    ensures t == s + [d] && Digits(t) && Number(t) == 10 * n + (d - 48)
  {
    t := s + [d];
    NumberSnoc(s, d);
  }

  /** An index key is the text of a number below 2^32 - 1. */
  lemma IndexIff(k: Text)
    ensures IsIndex(k) <==> exists n: nat :: n < MAX_INDEX && k == DecimalText(n)
  {
    BoundIsIts();
    var bound := Ascii("4294967295");
    if Canonical(k) {
      CanonicalIsDecimal(k);
      NumericOrder(k, bound);
    }
    if n: nat :| n < MAX_INDEX && k == DecimalText(n) {
      DecimalIsCanonical(n);
      NumericOrder(k, bound);
    }
  }

  /** Indices come first, by number; all other keys come after them, by `<`. */
  lemma EnumerationOrder(m: nat, n: nat, a: Text, b: Text)
    requires m < MAX_INDEX && n < MAX_INDEX && !IsIndex(a) && !IsIndex(b)
    ensures Before(DecimalText(m), DecimalText(n)) <==> m < n
    ensures Before(DecimalText(m), a) && !Before(a, DecimalText(m))
    ensures Before(a, b) <==> exists k: nat :: SmallerAt(a, b, k)
  {
    IndexIff(DecimalText(m));
    IndexIff(DecimalText(n));
    DecimalIsCanonical(m);
    DecimalIsCanonical(n);
    NumericOrder(DecimalText(m), DecimalText(n));
    LessIff(a, b);
  }
}
