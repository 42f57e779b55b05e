/** `canonical` as it runs: it walks the graph keeping the current path, and fills an object key by key. */
module EffectCanonical {
  import opened EffectKey
  import opened JsonText
  import opened JsValues
  import opened Text
  import opened Wrappers

  /** `out[key] = value` for a new key: index keys stay first and in numeric order, others go last. */
  function Put<V>(out: seq<Prop<V>>, p: Prop<V>): seq<Prop<V>> {
    if IsIndex(p.key) then Insert(p, out, ByEnumeration) else out + [p]
  }

  /** Putting keys in ascending order enumerates them in enumeration order. */
  lemma PutOrdered<V(!new)>(out: seq<Prop<V>>, p: Prop<V>)
    requires Ordered(out, ByEnumeration) && forall q :: q in out ==> Less(q.key, p.key)
    ensures Ordered(Put(out, p), ByEnumeration)
    ensures forall q :: q in Put(out, p) <==> q == p || q in out
  {
    forall q | q in out ensures q.key != p.key { LessTrichotomy(q.key, p.key); }
    InsertElements(p, out, ByEnumeration);
    if IsIndex(p.key) {
      InsertOrdered(p, out, ByEnumeration);
    } else {
      var all := out + [p];
      forall i, j | 0 <= i < j < |all| ensures Lt(ByEnumeration, all[i].key, all[j].key) { assert all[i] in out; }
    }
  }

  lemma PutSorts<V(!new)>(xs: seq<Prop<V>>, p: Prop<V>)
    requires DistinctKeys(xs) && forall q :: q in xs ==> Less(q.key, p.key)
    ensures DistinctKeys(xs + [p])
    ensures Put(Sort(xs, ByEnumeration), p) == Sort(xs + [p], ByEnumeration)
  {
    forall q | q in xs ensures q.key != p.key { LessTrichotomy(q.key, p.key); }
    forall i | 0 <= i < |xs| ensures xs[i].key != p.key { assert xs[i] in xs; }
    SortSorts(xs, ByEnumeration);
    SortSorts(xs + [p], ByEnumeration);
    PutOrdered(Sort(xs, ByEnumeration), p);
    OrderedUnique(Put(Sort(xs, ByEnumeration), p), Sort(xs + [p], ByEnumeration), ByEnumeration);
  }

  lemma NormalSnoc(nfc: Nfc, js: seq<Prop<Json>>, q: Prop<Json>)
    ensures NormalProps(nfc, js + [q]) == NormalProps(nfc, js) + [Prop(q.key, Normal(nfc, q.value))]
  {
  }

  lemma NormalSame(nfc: Nfc, xs: seq<Prop<Json>>, ys: seq<Prop<Json>>, q: Prop<Json>)
    requires forall p :: p in xs ==> p in ys
    ensures q in NormalProps(nfc, xs) ==> q in NormalProps(nfc, ys)
  {
    var a, b := NormalProps(nfc, xs), NormalProps(nfc, ys);
    if q in a {
      var k :| 0 <= k < |a| && a[k] == q;
      assert xs[k] in xs;
      var m :| 0 <= m < |ys| && ys[m] == xs[k];
      assert b[m] == q;
    }
  }

  /** The properties an object with these properties becomes. */
  function NormalObject(nfc: Nfc, h: Heap, props: seq<Prop<Val>>, path: set<Id>): Attempt<seq<Prop<Json>>> {
    var js := UnfoldProps(h, props, path);
    if js.Ok? then Ok(Sort(NormalProps(nfc, js.value), ByEnumeration)) else Refused
  }

  /** The order in which the keys are visited does not matter. */
  lemma VisitOrder(nfc: Nfc, h: Heap, props: seq<Prop<Val>>, path: set<Id>)
    requires Real(h) && DistinctKeys(props)
    ensures NormalObject(nfc, h, Sort(props, BySort), path) == NormalObject(nfc, h, props, path)
  {
    var sorted := Sort(props, BySort);
    SortSorts(props, BySort);
    OrderedDistinct(sorted, BySort);
    PropsUnfold(h, props, path);
    PropsUnfold(h, sorted, path);
    if UnfoldProps(h, props, path).Ok? {
      var xs, ys := UnfoldProps(h, sorted, path).value, UnfoldProps(h, props, path).value;
      forall q ensures q in xs <==> q in ys {
        PropsElements(h, sorted, path, q);
        PropsElements(h, props, path, q);
      }
      SameSort(nfc, h, xs, ys) by {
        PropsTidy(h, sorted, path);
        PropsTidy(h, props, path);
      }
    }
  }

  lemma SameSort(nfc: Nfc, h: Heap, xs: seq<Prop<Json>>, ys: seq<Prop<Json>>)
    requires DistinctKeys(xs) && DistinctKeys(ys) && SameElements(xs, ys)
    ensures Sort(NormalProps(nfc, xs), ByEnumeration) == Sort(NormalProps(nfc, ys), ByEnumeration)
  {
    var a, b := NormalProps(nfc, xs), NormalProps(nfc, ys);
    NormalDistinct(nfc, xs);
    NormalDistinct(nfc, ys);
    SortSorts(a, ByEnumeration);
    SortSorts(b, ByEnumeration);
    forall q ensures q in a <==> q in b {
      NormalSame(nfc, xs, ys, q);
      NormalSame(nfc, ys, xs, q);
    }
    OrderedUnique(Sort(a, ByEnumeration), Sort(b, ByEnumeration), ByEnumeration);
  }

  function NormalValue(nfc: Nfc, j: Attempt<Json>): Attempt<Json> {
    if j.Ok? then Ok(Normal(nfc, j.value)) else Refused
  }

  function NormalArray(nfc: Nfc, js: Attempt<seq<Json>>): Attempt<seq<Json>> {
    if js.Ok? then Ok(NormalItems(nfc, js.value)) else Refused
  }

  /** The canonical tree of a value: what it stands for, with string values normalised and properties in enumeration order. */
  ghost predicate IsCanonical(nfc: Nfc, h: Heap, v: Val, n: Json) {
    exists j :: Denotes(h, v, j) && IsNormal(nfc, j, n)
  }

  lemma NormalMeans(nfc: Nfc, h: Heap, v: Val, path: set<Id>)
    requires Real(h)
    ensures Unfold(h, v, path).Ok? ==> IsCanonical(nfc, h, v, Normal(nfc, Unfold(h, v, path).value))
  {
    if Unfold(h, v, path).Ok? {
      UnfoldDenotes(h, v, path);
      UnfoldTidy(h, v, path);
      NormalIsNormal(nfc, Unfold(h, v, path).value);
    }
  }

  class Canonicalizer {
    const heap: Heap
    const nfc: Nfc
    var path: set<Id>

    constructor (heap: Heap, nfc: Nfc)
      ensures this.heap == heap && this.nfc == nfc && path == {}
    {
      this.heap := heap;
      this.nfc := nfc;
      path := {};
    }

    /** Ends on every graph, cyclic or not, and leaves the path as it found it even when it refuses. */
    method Canonical(v: Val) returns (r: Attempt<Json>)
      requires Real(heap)
      modifies this`path
      ensures path == old(path)
      ensures r == NormalValue(nfc, Unfold(heap, v, path))
      ensures r.Ok? ==> IsCanonical(nfc, heap, v, r.value)
      decreases heap.Keys - path, 1
    {
      NormalMeans(nfc, heap, v, path);
      match v
      case Null => return Ok(JNull);
      case Str(s) => return Ok(JStr(nfc(s)));
      case Bool(b) => return Ok(JBool(b));
      case Num(n) => return if n.Finite? then Ok(JNum(n.text)) else Refused;
      case BigInt => return Refused;
      case Undefined => return Refused;
      case Function => return Refused;
      case Symbol => return Refused;
      case Ref(id) =>
        if id in path || id !in heap { return Refused; }
        path := path + {id};
        match heap[id] {
          case Arr(items) =>
            var js := CanonicalItems(items);
            r := if js.Ok? then Ok(JArr(js.value)) else Refused;
          case Plain(props) =>
            var out := CanonicalProps(props);
            r := if out.Ok? then Ok(JObj(out.value)) else Refused;
          case Exotic =>
            r := Refused;
        }
        path := path - {id};
    }

    method CanonicalItems(items: seq<Val>) returns (r: Attempt<seq<Json>>)
      requires Real(heap)
      modifies this`path
      ensures path == old(path)
      ensures r == NormalArray(nfc, UnfoldItems(heap, items, path))
      decreases heap.Keys - path, 2
    {
      ItemsUnfold(heap, items, path);
      var out := [];
      for i := 0 to |items|
        invariant path == old(path) && |out| == i
        invariant forall k :: 0 <= k < i ==> Ok(out[k]) == NormalValue(nfc, Unfold(heap, items[k], path))
      {
        var j := Canonical(items[i]);
        if j.Refused? { return Refused; }
        out := out + [j.value];
      }
      assert out == NormalItems(nfc, UnfoldItems(heap, items, path).value);
      return Ok(out);
    }

    method CanonicalProps(props: seq<Prop<Val>>) returns (r: Attempt<seq<Prop<Json>>>)
      requires Real(heap) && DistinctKeys(props)
      modifies this`path
      ensures path == old(path)
      ensures r == NormalObject(nfc, heap, props, path)
      decreases heap.Keys - path, 2
    {
      var sorted := Sort(props, BySort);
      assert Ordered(sorted, BySort) by { SortSorts(props, BySort); }
      VisitOrder(nfc, heap, props, path);
      var out: seq<Prop<Json>> := [];
      ghost var js: seq<Prop<Json>> := [];
      for i := 0 to |sorted|
        invariant path == old(path)
        invariant Filled(nfc, heap, sorted, i, path, js, out)
      {
        if !Kept(sorted[i].key) {
          SkipOne(nfc, heap, sorted, i, path, js, out);
        } else {
          var j := Canonical(sorted[i].value);
          if j.Refused? {
            OneRefused(heap, sorted, i, path);
            return Refused;
          }
          FillOne(nfc, heap, sorted, i, path, js, out);
          js := js + [Prop(sorted[i].key, Unfold(heap, sorted[i].value, path).value)];
          out := Put(out, Prop(sorted[i].key, j.value));
        }
      }
      assert sorted[..|sorted|] == sorted;
      return Ok(out);
    }
  }

  /** After `i` keys: `js` is what they unfold to, and `out` the object filled with it. */
  ghost predicate Filled(nfc: Nfc, h: Heap, sorted: seq<Prop<Val>>, i: nat, path: set<Id>, js: seq<Prop<Json>>, out: seq<Prop<Json>>)
    requires i <= |sorted|
  {
    && UnfoldProps(h, sorted[..i], path) == Ok(js)
    && DistinctKeys(js) && (forall q, k :: q in js && i <= k < |sorted| ==> Less(q.key, sorted[k].key))
    && out == Sort(NormalProps(nfc, js), ByEnumeration)
  }

  lemma SkipOne(nfc: Nfc, h: Heap, sorted: seq<Prop<Val>>, i: nat, path: set<Id>, js: seq<Prop<Json>>, out: seq<Prop<Json>>)
    requires i < |sorted| && Filled(nfc, h, sorted, i, path, js, out) && !Kept(sorted[i].key)
    ensures Filled(nfc, h, sorted, i + 1, path, js, out)
  {
    PropsStep(h, sorted, i, path);
  }

  lemma OneRefused(h: Heap, props: seq<Prop<Val>>, i: nat, path: set<Id>)
    requires i < |props| && Kept(props[i].key) && Unfold(h, props[i].value, path).Refused?
    ensures UnfoldProps(h, props, path).Refused?
  {
    assert props[i] in props;
    PropsUnfold(h, props, path);
  }

  lemma FillOne(nfc: Nfc, h: Heap, sorted: seq<Prop<Val>>, i: nat, path: set<Id>, js: seq<Prop<Json>>, out: seq<Prop<Json>>)
    requires i < |sorted| && Ordered(sorted, BySort) && Filled(nfc, h, sorted, i, path, js, out)
    requires Kept(sorted[i].key) && Unfold(h, sorted[i].value, path).Ok?
    ensures var q := Prop(sorted[i].key, Unfold(h, sorted[i].value, path).value);
      Filled(nfc, h, sorted, i + 1, path, js + [q], Put(out, Prop(q.key, Normal(nfc, q.value))))
  {
    var q := Prop(sorted[i].key, Unfold(h, sorted[i].value, path).value);
    PropsStep(h, sorted, i, path);
    ExtendObject(nfc, js, q);
    forall p, k | p in js + [q] && i + 1 <= k < |sorted| ensures Less(p.key, sorted[k].key) {
      assert Lt(BySort, sorted[i].key, sorted[k].key);
    }
  }

  lemma ExtendObject(nfc: Nfc, js: seq<Prop<Json>>, q: Prop<Json>)
    requires DistinctKeys(js) && forall p :: p in js ==> Less(p.key, q.key)
    ensures DistinctKeys(js + [q])
    ensures Put(Sort(NormalProps(nfc, js), ByEnumeration), Prop(q.key, Normal(nfc, q.value)))
         == Sort(NormalProps(nfc, js + [q]), ByEnumeration)
  {
    NormalSnoc(nfc, js, q);
    NormalDistinct(nfc, js);
    forall p | p in NormalProps(nfc, js) ensures Less(p.key, q.key) {
      var k :| 0 <= k < |js| && NormalProps(nfc, js)[k] == p;
      assert js[k] in js;
    }
    PutSorts(NormalProps(nfc, js), Prop(q.key, Normal(nfc, q.value)));
    PutSorts(js, q);
  }

  /** `canonicalJson`. */
  method CanonicalJson(nfc: Nfc, heap: Heap, v: Val) returns (r: Attempt<Text>)
    requires Real(heap)
    ensures r == CanonicalText(nfc, heap, v)
    ensures r.Ok? ==> exists n :: IsCanonical(nfc, heap, v, n) && Decode(r.value) == Some(n)
    ensures r.Refused? <==> exists w :: IsWalk(heap, v, w) && EndsBadly(heap, w, {})
  {
    RefusedIff(heap, v);
    var c := new Canonicalizer(heap, nfc);
    var j := c.Canonical(v);
    if j.Ok? { RoundTrip(j.value); }
    r := if j.Ok? then Ok(Encode(j.value)) else Refused;
  }

  /** `effectKey`: builds the envelope beside the arguments and hashes its canonical text. */
  method BuildKey<Digest>(hash: Text -> Digest, nfc: Nfc, heap: Heap, e: Id, scope: Scope, namespace: Text, operation: Text, args: Val)
      returns (r: Attempt<Digest>)
    requires Real(heap) && e !in heap
    ensures r == KeyOf(hash, nfc, heap[e := Envelope(scope, namespace, operation, args)], e)
  {
    var h := heap[e := Envelope(scope, namespace, operation, args)];
    EnvelopeReal(heap, e, scope, namespace, operation, args);
    var t := CanonicalJson(nfc, h, Ref(e));
    r := if t.Ok? then Ok(hash(t.value)) else Refused;
  }

  lemma EnvelopeReal(heap: Heap, e: Id, scope: Scope, namespace: Text, operation: Text, args: Val)
    requires Real(heap)
    ensures Real(heap[e := Envelope(scope, namespace, operation, args)])
  {
    var fs := Fields(scope, namespace, operation, JNull);
    FieldKeys(scope, namespace, operation, JNull);
    var ps := Envelope(scope, namespace, operation, args).props;
    forall i | 0 <= i < 6 ensures ps[i].key == fs[i].key { }
  }
}
