/** JavaScript strings as UTF-16 code units, the two orders on property keys, and sorting by them. */
module Text {
  type Unit = u: int | 0 <= u < 0x10000

  /** A JavaScript string. */
  type Text = seq<Unit>

  /** The code units of an ASCII literal. */
  function Ascii(s: string): Text {
    seq(|s|, i requires 0 <= i < |s| => s[i] as int % 0x10000)
  }

  /** `<` on strings, as `Array.prototype.sort` compares them: lexicographic by code unit. */
  predicate Less(a: Text, b: Text) {
    b != [] && (a == [] || a[0] < b[0] || (a[0] == b[0] && Less(a[1..], b[1..])))
  }

  /**
   An integer-index key: a decimal without leading zeros, below 2^32 - 1. A
   JavaScript object enumerates these first, in numeric order, which for such
   decimals is shorter-first, then lexicographic.
   */
  predicate IsIndex(k: Text) {
    && 0 < |k| <= 10 && (forall i :: 0 <= i < |k| ==> 48 <= k[i] <= 57) && (k[0] == 48 ==> |k| == 1)
    && (|k| == 10 ==> Less(k, Ascii("4294967295")))
  }

  predicate ShortLess(a: Text, b: Text) {
    |a| < |b| || (|a| == |b| && Less(a, b))
  }

  /** The order in which an object whose string keys were created in sorted order enumerates its keys. */
  predicate Before(a: Text, b: Text) {
    if IsIndex(a) then !IsIndex(b) || ShortLess(a, b) else !IsIndex(b) && Less(a, b)
  }

  /** Which of the two orders a listing of properties follows. */
  datatype Order = BySort | ByEnumeration

  predicate Lt(o: Order, a: Text, b: Text) {
    match o case BySort => Less(a, b) case ByEnumeration => Before(a, b)
  }

  /* ------------------------------------------------------- strict total orders -- */

  lemma {:induction false} LessTrichotomy(a: Text, b: Text)
    ensures a == b || Less(a, b) || Less(b, a)
    ensures !(Less(a, b) && Less(b, a)) && !Less(a, a)
    decreases |a|
  {
    if a != [] && b != [] && a[0] == b[0] {
      LessTrichotomy(a[1..], b[1..]);
      assert a == [a[0]] + a[1..] && b == [b[0]] + b[1..];
    }
    if a != [] { LessTrichotomy(a[1..], a[1..]); }
  }

  lemma {:induction false} LessTrans(a: Text, b: Text, c: Text)
    requires Less(a, b) && Less(b, c)
    ensures Less(a, c)
    decreases |a|
  {
    if a != [] && a[0] == b[0] && b[0] == c[0] { LessTrans(a[1..], b[1..], c[1..]); }
  }

  /** Both orders are strict and total: exactly one of a < b, a = b, b < a. */
  lemma LtTrichotomy(o: Order, a: Text, b: Text)
    ensures a == b || Lt(o, a, b) || Lt(o, b, a)
    ensures !(Lt(o, a, b) && Lt(o, b, a)) && !Lt(o, a, a)
  {
    LessTrichotomy(a, b);
  }

  lemma LtTrans(o: Order, a: Text, b: Text, c: Text)
    requires Lt(o, a, b) && Lt(o, b, c)
    ensures Lt(o, a, c)
  {
    if Less(a, b) && Less(b, c) { LessTrans(a, b, c); }
  }

  /* ---------------------------------------------------------- keyed properties -- */

  datatype Prop<V> = Prop(key: Text, value: V)

  ghost predicate DistinctKeys<V>(ps: seq<Prop<V>>) {
    forall i, j :: 0 <= i < j < |ps| ==> ps[i].key != ps[j].key
  }

  ghost predicate Ordered<V>(ps: seq<Prop<V>>, o: Order) {
    forall i, j :: 0 <= i < j < |ps| ==> Lt(o, ps[i].key, ps[j].key)
  }

  ghost predicate SameElements<V(!new)>(xs: seq<Prop<V>>, ys: seq<Prop<V>>) {
    forall p :: p in xs <==> p in ys
  }

  function Insert<V>(p: Prop<V>, ps: seq<Prop<V>>, o: Order): seq<Prop<V>> {
    if ps == [] || Lt(o, p.key, ps[0].key) then [p] + ps else [ps[0]] + Insert(p, ps[1..], o)
  }

  function Sort<V>(ps: seq<Prop<V>>, o: Order): seq<Prop<V>> {
    if ps == [] then [] else Insert(ps[0], Sort(ps[1..], o), o)
  }

  lemma {:induction false} InsertElements<V(!new)>(p: Prop<V>, ps: seq<Prop<V>>, o: Order)
    ensures forall q :: q in Insert(p, ps, o) <==> q == p || q in ps
  {
    if ps != [] {
      assert ps == [ps[0]] + ps[1..];
      InsertElements(p, ps[1..], o);
    }
  }

  /** Prefixing an element below all others keeps a listing ordered. */
  lemma ConsOrdered<V>(p: Prop<V>, ps: seq<Prop<V>>, o: Order)
    requires Ordered(ps, o) && forall q :: q in ps ==> Lt(o, p.key, q.key)
    ensures Ordered([p] + ps, o)
  {
    var all := [p] + ps;
    forall i, j | 0 <= i < j < |all| ensures Lt(o, all[i].key, all[j].key) {
      assert all[j] == ps[j - 1] && ps[j - 1] in ps;
      if i > 0 { assert all[i] == ps[i - 1]; }
    }
  }

  lemma TailOrdered<V>(ps: seq<Prop<V>>, o: Order)
    requires Ordered(ps, o) && ps != []
    ensures Ordered(ps[1..], o) && forall q :: q in ps[1..] ==> Lt(o, ps[0].key, q.key)
  {
    var rest := ps[1..];
    forall i, j | 0 <= i < j < |rest| ensures Lt(o, rest[i].key, rest[j].key) { assert Lt(o, ps[i + 1].key, ps[j + 1].key); }
    forall q | q in rest ensures Lt(o, ps[0].key, q.key) {
      var k :| 0 <= k < |rest| && rest[k] == q;
      assert ps[k + 1] == q;
    }
  }

  lemma {:induction false} InsertOrdered<V(!new)>(p: Prop<V>, ps: seq<Prop<V>>, o: Order)
    requires Ordered(ps, o) && forall q :: q in ps ==> q.key != p.key
    ensures Ordered(Insert(p, ps, o), o)
  {
    if ps == [] {
    } else if Lt(o, p.key, ps[0].key) {
      TailOrdered(ps, o);
      forall q | q in ps ensures Lt(o, p.key, q.key) {
        if q != ps[0] {
          assert q in ps[1..] by { assert ps == [ps[0]] + ps[1..]; }
          LtTrans(o, p.key, ps[0].key, q.key);
        }
      }
      ConsOrdered(p, ps, o);
    } else {
      TailOrdered(ps, o);
      InsertOrdered(p, ps[1..], o);
      InsertElements(p, ps[1..], o);
      LtTrichotomy(o, p.key, ps[0].key);
      assert ps[0] in ps;
      ConsOrdered(ps[0], Insert(p, ps[1..], o), o);
    }
  }

  /** Sorting properties with distinct keys lists the same properties in order. */
  lemma {:induction false} SortSorts<V(!new)>(ps: seq<Prop<V>>, o: Order)
    requires DistinctKeys(ps)
    ensures Ordered(Sort(ps, o), o)
    ensures SameElements(Sort(ps, o), ps)
  {
    if ps != [] {
      assert ps == [ps[0]] + ps[1..];
      SortSorts(ps[1..], o);
      forall q | q in ps[1..] ensures q.key != ps[0].key {
        var k :| 0 <= k < |ps[1..]| && ps[1..][k] == q;
        assert ps[k + 1] == q;
      }
      InsertOrdered(ps[0], Sort(ps[1..], o), o);
      InsertElements(ps[0], Sort(ps[1..], o), o);
    }
  }

  lemma SameHead<V(!new)>(xs: seq<Prop<V>>, ys: seq<Prop<V>>, o: Order)
    requires Ordered(xs, o) && Ordered(ys, o) && SameElements(xs, ys) && xs != [] && ys != []
    ensures xs[0] == ys[0]
  {
    TailOrdered(xs, o);
    TailOrdered(ys, o);
    assert xs == [xs[0]] + xs[1..] && ys == [ys[0]] + ys[1..];
    assert xs[0] in ys && ys[0] in xs;
    LtTrichotomy(o, xs[0].key, ys[0].key);
  }

  lemma SameEmpty<V(!new)>(xs: seq<Prop<V>>, ys: seq<Prop<V>>)
    requires SameElements(xs, ys)
    ensures xs == [] <==> ys == []
  {
    if xs != [] { assert xs[0] in ys; }
    if ys != [] { assert ys[0] in xs; }
  }

  /** A set of properties has only one strictly ordered listing. */
  lemma {:induction false} OrderedUnique<V(!new)>(xs: seq<Prop<V>>, ys: seq<Prop<V>>, o: Order)
    requires Ordered(xs, o) && Ordered(ys, o) && SameElements(xs, ys)
    ensures xs == ys
  {
    if xs != [] && ys != [] {
      SameHead(xs, ys, o);
      TailOrdered(xs, o);
      TailOrdered(ys, o);
      assert xs == [xs[0]] + xs[1..] && ys == [ys[0]] + ys[1..];
      LtTrichotomy(o, xs[0].key, xs[0].key);
      forall p ensures p in xs[1..] <==> p in ys[1..] {
        assert p in xs <==> p == xs[0] || p in xs[1..];
        assert p in ys <==> p == ys[0] || p in ys[1..];
      }
      OrderedUnique(xs[1..], ys[1..], o);
    } else {
      SameEmpty(xs, ys);
    }
  }

  lemma OrderedDistinct<V>(ps: seq<Prop<V>>, o: Order)
    requires Ordered(ps, o)
    ensures DistinctKeys(ps)
  {
    forall i, j | 0 <= i < j < |ps| ensures ps[i].key != ps[j].key {
      assert Lt(o, ps[i].key, ps[j].key);
      LtTrichotomy(o, ps[i].key, ps[j].key);
    }
  }
}
