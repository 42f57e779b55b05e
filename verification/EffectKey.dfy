/** The identity of an effect: canonical JSON over an object graph, and the versioned envelope that is hashed. */
module EffectKey {
  import opened JsonText
  import opened JsValues
  import opened Text
  import opened Wrappers

  /** NFC normalisation is a parameter of everything below: any function on strings. */
  type Nfc = Text -> Text

  /* ---------------------------------------------------------------- the canonical tree -- */

  /** String values normalised (keys are not), properties in the order the canonical object enumerates them. */
  function Normal(nfc: Nfc, j: Json): Json {
    match j
    case JStr(s) => JStr(nfc(s))
    case JArr(items) => JArr(NormalItems(nfc, items))
    case JObj(props) => JObj(Sort(NormalProps(nfc, props), ByEnumeration))
    case _ => j
  }

  function NormalItems(nfc: Nfc, items: seq<Json>): (r: seq<Json>)
    ensures |r| == |items| && forall i :: 0 <= i < |items| ==> r[i] == Normal(nfc, items[i])
  {
    if items == [] then [] else [Normal(nfc, items[0])] + NormalItems(nfc, items[1..])
  }

  function NormalProps(nfc: Nfc, props: seq<Prop<Json>>): (r: seq<Prop<Json>>)
    ensures |r| == |props|
    ensures forall i :: 0 <= i < |props| ==> r[i] == Prop(props[i].key, Normal(nfc, props[i].value))
  {
    if props == [] then []
    else [Prop(props[0].key, Normal(nfc, props[0].value))] + NormalProps(nfc, props[1..])
  }

  /** The JSON text that identifies the graph below `v`, or `invalid_input`. */
  function CanonicalText(nfc: Nfc, h: Heap, v: Val): Attempt<Text> {
    var j := Unfold(h, v, {});
    if j.Ok? then Ok(Encode(Normal(nfc, j.value))) else Refused
  }

  /* --------------------------------------------------------------- the same meaning -- */

  /** The index of the property with this key, or the length when there is none. */
  function Find(ps: seq<Prop<Json>>, key: Text): (k: nat)
    ensures k <= |ps| && (k < |ps| ==> ps[k].key == key)
    ensures forall i :: 0 <= i < k ==> ps[i].key != key
  {
    if ps == [] || ps[0].key == key then 0 else 1 + Find(ps[1..], key)
  }

  /** Equal up to the order of object keys and the normal form of string values. */
  ghost predicate Similar(nfc: Nfc, a: Json, b: Json)
    decreases a
  {
    match a
    case JStr(s) => b.JStr? && nfc(s) == nfc(b.s)
    case JArr(items) =>
      && b.JArr? && |items| == |b.items|
      && forall i :: 0 <= i < |items| ==> Similar(nfc, items[i], b.items[i])
    case JObj(props) =>
      && b.JObj?
      && (forall k :: 0 <= k < |b.props| ==> Find(props, b.props[k].key) < |props|)
      && forall i :: 0 <= i < |props| ==>
        var k := Find(b.props, props[i].key);
        k < |b.props| && Similar(nfc, props[i].value, b.props[k].value)
    case _ => a == b
  }

  lemma SameItems(nfc: Nfc, xs: seq<Json>, ys: seq<Json>)
    requires |xs| == |ys|
    ensures NormalItems(nfc, xs) == NormalItems(nfc, ys) <==> forall i :: 0 <= i < |xs| ==> Normal(nfc, xs[i]) == Normal(nfc, ys[i])
  {
    var a, b := NormalItems(nfc, xs), NormalItems(nfc, ys);
    if a == b {
      forall i | 0 <= i < |xs| ensures Normal(nfc, xs[i]) == Normal(nfc, ys[i]) { assert a[i] == b[i]; }
    }
  }

  /** Some property of `ps` has this key, and a value with this normal form. */
  ghost predicate Has(nfc: Nfc, ps: seq<Prop<Json>>, key: Text, n: Json) {
    var k := Find(ps, key);
    k < |ps| && Normal(nfc, ps[k].value) == n
  }

  ghost predicate AllHeld(nfc: Nfc, xs: seq<Prop<Json>>, ys: seq<Prop<Json>>) {
    forall i :: 0 <= i < |xs| ==> Has(nfc, ys, xs[i].key, Normal(nfc, xs[i].value))
  }

  lemma HasElement(nfc: Nfc, ps: seq<Prop<Json>>, q: Prop<Json>)
    requires DistinctKeys(ps)
    ensures q in NormalProps(nfc, ps) <==> Has(nfc, ps, q.key, q.value)
  {
    var ns := NormalProps(nfc, ps);
    if q in ns {
      var k :| 0 <= k < |ns| && ns[k] == q;
      assert ps[k].key == q.key;
    }
    if Has(nfc, ps, q.key, q.value) { assert ns[Find(ps, q.key)] == q; }
  }

  lemma NormalDistinct(nfc: Nfc, ps: seq<Prop<Json>>)
    requires DistinctKeys(ps)
    ensures DistinctKeys(NormalProps(nfc, ps))
  {
  }

  lemma SameProps(nfc: Nfc, xs: seq<Prop<Json>>, ys: seq<Prop<Json>>)
    requires DistinctKeys(xs) && DistinctKeys(ys)
    ensures Sort(NormalProps(nfc, xs), ByEnumeration) == Sort(NormalProps(nfc, ys), ByEnumeration)
       <==> AllHeld(nfc, xs, ys) && AllHeld(nfc, ys, xs)
  {
    var a, b := NormalProps(nfc, xs), NormalProps(nfc, ys);
    NormalDistinct(nfc, xs);
    NormalDistinct(nfc, ys);
    SortSorts(a, ByEnumeration);
    SortSorts(b, ByEnumeration);
    forall q ensures (q in a <==> Has(nfc, xs, q.key, q.value)) && (q in b <==> Has(nfc, ys, q.key, q.value)) {
      HasElement(nfc, xs, q);
      HasElement(nfc, ys, q);
    }
    if Sort(a, ByEnumeration) == Sort(b, ByEnumeration) {
      forall i | 0 <= i < |xs| ensures Has(nfc, ys, xs[i].key, Normal(nfc, xs[i].value)) { assert a[i] in a; }
      forall k | 0 <= k < |ys| ensures Has(nfc, xs, ys[k].key, Normal(nfc, ys[k].value)) { assert b[k] in b; }
    }
    if AllHeld(nfc, xs, ys) && AllHeld(nfc, ys, xs) {
      OrderedUnique(Sort(a, ByEnumeration), Sort(b, ByEnumeration), ByEnumeration);
    }
  }

  /**
   What a canonical tree is, of a tree: the same values, string values in normal
   form, and the same keys in the order in which the canonical object enumerates them.
   */
  ghost predicate IsNormal(nfc: Nfc, j: Json, n: Json)
    decreases j
  {
    match j
    case JStr(s) => n == JStr(nfc(s))
    case JArr(items) => n.JArr? && |n.items| == |items| && forall i :: 0 <= i < |items| ==> IsNormal(nfc, items[i], n.items[i])
    case JObj(props) =>
      && n.JObj? && Ordered(n.props, ByEnumeration)
      && (forall k :: 0 <= k < |n.props| ==> Find(props, n.props[k].key) < |props|)
      && forall i :: 0 <= i < |props| ==>
        var k := Find(n.props, props[i].key);
        k < |n.props| && IsNormal(nfc, props[i].value, n.props[k].value)
    case _ => n == j
  }

  lemma {:induction false} NormalIsNormal(nfc: Nfc, j: Json)
    requires Tidy(j)
    ensures IsNormal(nfc, j, Normal(nfc, j))
    decreases j
  {
    match j
    case JArr(items) =>
      forall i | 0 <= i < |items| ensures IsNormal(nfc, items[i], NormalItems(nfc, items)[i]) { NormalIsNormal(nfc, items[i]); }
    case JObj(props) =>
      var sorted := Sort(NormalProps(nfc, props), ByEnumeration);
      forall i | 0 <= i < |props| ensures var k := Find(sorted, props[i].key); k < |sorted| && IsNormal(nfc, props[i].value, sorted[k].value) {
        NormalIsNormal(nfc, props[i].value);
        SortedHas(nfc, props, i);
      }
      SortedKeys(nfc, props);
    case _ =>
  }

  lemma SortedHas(nfc: Nfc, props: seq<Prop<Json>>, i: nat)
    requires DistinctKeys(props) && i < |props|
    ensures var sorted := Sort(NormalProps(nfc, props), ByEnumeration); var k := Find(sorted, props[i].key);
      k < |sorted| && sorted[k].value == Normal(nfc, props[i].value)
  {
    var ns := NormalProps(nfc, props);
    var sorted := Sort(ns, ByEnumeration);
    NormalDistinct(nfc, props);
    SortSorts(ns, ByEnumeration);
    OrderedDistinct(sorted, ByEnumeration);
    assert ns[i] in ns;
    var k :| 0 <= k < |sorted| && sorted[k] == ns[i];
    assert Find(sorted, props[i].key) == k;
  }

  lemma SortedKeys(nfc: Nfc, props: seq<Prop<Json>>)
    requires DistinctKeys(props)
    ensures var sorted := Sort(NormalProps(nfc, props), ByEnumeration);
      Ordered(sorted, ByEnumeration) && forall k :: 0 <= k < |sorted| ==> Find(props, sorted[k].key) < |props|
  {
    var ns := NormalProps(nfc, props);
    var sorted := Sort(ns, ByEnumeration);
    NormalDistinct(nfc, props);
    SortSorts(ns, ByEnumeration);
    forall k | 0 <= k < |sorted| ensures Find(props, sorted[k].key) < |props| {
      assert sorted[k] in ns;
      var i :| 0 <= i < |ns| && ns[i] == sorted[k];
      assert props[i].key == sorted[k].key;
    }
  }

  /** Whether the canonical tree loses exactly the differences between `a` and `b` that carry no meaning. */
  ghost predicate Exact(nfc: Nfc, a: Json, b: Json) {
    Normal(nfc, a) == Normal(nfc, b) <==> Similar(nfc, a, b)
  }

  lemma ExactItems(nfc: Nfc, xs: seq<Json>, ys: seq<Json>)
    requires |xs| == |ys| && forall i :: 0 <= i < |xs| ==> Exact(nfc, xs[i], ys[i])
    ensures Exact(nfc, JArr(xs), JArr(ys))
  {
    SameItems(nfc, xs, ys);
  }

  lemma HeldIfSimilar(nfc: Nfc, xs: seq<Prop<Json>>, ys: seq<Prop<Json>>)
    requires DistinctKeys(xs) && DistinctKeys(ys)
    requires forall i, k :: 0 <= i < |xs| && 0 <= k < |ys| ==> Exact(nfc, xs[i].value, ys[k].value)
    requires Similar(nfc, JObj(xs), JObj(ys))
    ensures AllHeld(nfc, xs, ys) && AllHeld(nfc, ys, xs)
  {
    forall i | 0 <= i < |xs| ensures Has(nfc, ys, xs[i].key, Normal(nfc, xs[i].value)) {
      assert Exact(nfc, xs[i].value, ys[Find(ys, xs[i].key)].value);
    }
    forall k | 0 <= k < |ys| ensures Has(nfc, xs, ys[k].key, Normal(nfc, ys[k].value)) {
      var f := Find(xs, ys[k].key);
      assert Find(ys, xs[f].key) == k;
      assert Exact(nfc, xs[f].value, ys[k].value);
    }
  }

  lemma SimilarIfHeld(nfc: Nfc, xs: seq<Prop<Json>>, ys: seq<Prop<Json>>)
    requires forall i, k :: 0 <= i < |xs| && 0 <= k < |ys| ==> Exact(nfc, xs[i].value, ys[k].value)
    requires AllHeld(nfc, xs, ys) && AllHeld(nfc, ys, xs)
    ensures Similar(nfc, JObj(xs), JObj(ys))
  {
    forall i | 0 <= i < |xs| ensures var k := Find(ys, xs[i].key); k < |ys| && Similar(nfc, xs[i].value, ys[k].value) {
      assert Has(nfc, ys, xs[i].key, Normal(nfc, xs[i].value));
      assert Exact(nfc, xs[i].value, ys[Find(ys, xs[i].key)].value);
    }
    forall k | 0 <= k < |ys| ensures Find(xs, ys[k].key) < |xs| { assert Has(nfc, xs, ys[k].key, Normal(nfc, ys[k].value)); }
  }

  lemma ExactProps(nfc: Nfc, xs: seq<Prop<Json>>, ys: seq<Prop<Json>>)
    requires DistinctKeys(xs) && DistinctKeys(ys)
    requires forall i, k :: 0 <= i < |xs| && 0 <= k < |ys| ==> Exact(nfc, xs[i].value, ys[k].value)
    ensures Exact(nfc, JObj(xs), JObj(ys))
  {
    SameProps(nfc, xs, ys);
    if Similar(nfc, JObj(xs), JObj(ys)) { HeldIfSimilar(nfc, xs, ys); }
    if AllHeld(nfc, xs, ys) && AllHeld(nfc, ys, xs) { SimilarIfHeld(nfc, xs, ys); }
  }

  lemma {:induction false} AllExact(nfc: Nfc, a: Json, b: Json)
    requires Tidy(a) && Tidy(b)
    ensures Exact(nfc, a, b)
    decreases a
  {
    if a.JArr? && b.JArr? && |a.items| == |b.items| {
      forall i | 0 <= i < |a.items| ensures Exact(nfc, a.items[i], b.items[i]) { AllExact(nfc, a.items[i], b.items[i]); }
      ExactItems(nfc, a.items, b.items);
    }
    if a.JObj? && b.JObj? {
      forall i, k | 0 <= i < |a.props| && 0 <= k < |b.props| ensures Exact(nfc, a.props[i].value, b.props[k].value) {
        AllExact(nfc, a.props[i].value, b.props[k].value);
      }
      ExactProps(nfc, a.props, b.props);
    }
  }

  lemma TextExact(nfc: Nfc, a: Json, b: Json)
    requires Tidy(a) && Tidy(b)
    ensures Encode(Normal(nfc, a)) == Encode(Normal(nfc, b)) <==> Similar(nfc, a, b)
  {
    AllExact(nfc, a, b);
    if Encode(Normal(nfc, a)) == Encode(Normal(nfc, b)) { EncodeInjective(Normal(nfc, a), Normal(nfc, b)); }
  }

  /**
   The canonical text is exact: two graphs that both have one have the same one
   exactly when they mean the same, and a graph has none exactly when it is not
   plain acyclic data.
   */
  lemma {:induction false} CanonicalExact(nfc: Nfc, h: Heap, v: Val, g: Heap, w: Val)
    requires Real(h) && Real(g) && Unfold(h, v, {}).Ok? && Unfold(g, w, {}).Ok?
    ensures CanonicalText(nfc, h, v) == CanonicalText(nfc, g, w)
       <==> Similar(nfc, Unfold(h, v, {}).value, Unfold(g, w, {}).value)
  {
    UnfoldTidy(h, v, {});
    UnfoldTidy(g, w, {});
    TextExact(nfc, Unfold(h, v, {}).value, Unfold(g, w, {}).value);
  }

  /* --------------------------------------------------------------------- the envelope -- */

  const EFFECT_KEY_VERSION: NumText := [49]

  datatype Scope = Scope(runId: Text, turnId: Text)

  /** The object literal that is hashed. */
  function Envelope(scope: Scope, namespace: Text, operation: Text, args: Val): Obj {
    Plain([
      Prop(Ascii("version"), Num(Finite(EFFECT_KEY_VERSION))),
      Prop(Ascii("runId"), Str(scope.runId)),
      Prop(Ascii("turnId"), Str(scope.turnId)),
      Prop(Ascii("namespace"), Str(namespace)),
      Prop(Ascii("method"), Str(operation)),
      Prop(Ascii("args"), args)])
  }

  /** The tree the envelope unfolds to, around the unfolded arguments. */
  function Fields(scope: Scope, namespace: Text, operation: Text, args: Json): seq<Prop<Json>> {
    [ Prop(Ascii("version"), JNum(EFFECT_KEY_VERSION)),
      Prop(Ascii("runId"), JStr(scope.runId)),
      Prop(Ascii("turnId"), JStr(scope.turnId)),
      Prop(Ascii("namespace"), JStr(namespace)),
      Prop(Ascii("method"), JStr(operation)),
      Prop(Ascii("args"), args)]
  }

  lemma FieldKeys(scope: Scope, namespace: Text, operation: Text, args: Json)
    ensures var fs := Fields(scope, namespace, operation, args);
      DistinctKeys(fs) && forall i :: 0 <= i < |fs| ==> Kept(fs[i].key)
  {
    var fs := Fields(scope, namespace, operation, args);
    assert fs[0].key[0] == 118 && fs[1].key[0] == 114 && fs[2].key[0] == 116;
    assert fs[3].key[0] == 110 && fs[4].key[0] == 109 && fs[5].key[0] == 97;
    assert Ascii("__proto__")[0] == 95 && Ascii("constructor")[0] == 99 && Ascii("prototype")[0] == 112;
  }

  /** `effectKey`: the digest of the canonical envelope, held at `e`. */
  function KeyOf<Digest>(hash: Text -> Digest, nfc: Nfc, h: Heap, e: Id): Attempt<Digest> {
    var t := CanonicalText(nfc, h, Ref(e));
    if t.Ok? then Ok(hash(t.value)) else Refused
  }

  lemma {:induction false} EnvelopeProps(h: Heap, path: set<Id>, props: seq<Prop<Val>>, js: seq<Prop<Json>>)
    requires |props| == |js|
    requires forall i :: 0 <= i < |js| ==> js[i].key == props[i].key && Kept(js[i].key) && Unfold(h, props[i].value, path) == Ok(js[i].value)
    ensures UnfoldProps(h, props, path) == Ok(js)
  {
    if props != [] {
      forall i | 0 <= i < |js[1..]|
        ensures js[1..][i].key == props[1..][i].key && Kept(js[1..][i].key) && Unfold(h, props[1..][i].value, path) == Ok(js[1..][i].value)
      {
        assert js[1..][i] == js[i + 1] && props[1..][i] == props[i + 1];
      }
      EnvelopeProps(h, path, props[1..], js[1..]);
      assert js == [js[0]] + js[1..];
    }
  }

  lemma EnvelopeUnfolds(h: Heap, e: Id, scope: Scope, namespace: Text, operation: Text, args: Val)
    requires e in h && h[e] == Envelope(scope, namespace, operation, args)
    requires Unfold(h, args, {e}).Ok?
    ensures Unfold(h, Ref(e), {}) == Ok(JObj(Fields(scope, namespace, operation, Unfold(h, args, {e}).value)))
  {
    var js := Fields(scope, namespace, operation, Unfold(h, args, {e}).value);
    FieldKeys(scope, namespace, operation, Unfold(h, args, {e}).value);
    assert {} + {e} == {e};
    EnvelopeProps(h, {e}, h[e].props, js);
  }

  /** Equal to the same scope, namespace, method and arguments, up to normal form. */
  ghost predicate SameCall(nfc: Nfc, s: Scope, ns: Text, op: Text, a: Json, s': Scope, ns': Text, op': Text, a': Json) {
    && nfc(s.runId) == nfc(s'.runId) && nfc(s.turnId) == nfc(s'.turnId)
    && nfc(ns) == nfc(ns') && nfc(op) == nfc(op') && Similar(nfc, a, a')
  }

  lemma AlignedSimilar(nfc: Nfc, xs: seq<Prop<Json>>, ys: seq<Prop<Json>>)
    requires |xs| == |ys| && DistinctKeys(xs) && forall i :: 0 <= i < |xs| ==> xs[i].key == ys[i].key
    ensures Similar(nfc, JObj(xs), JObj(ys)) <==> forall i :: 0 <= i < |xs| ==> Similar(nfc, xs[i].value, ys[i].value)
  {
    forall i | 0 <= i < |xs| ensures Find(ys, xs[i].key) == i && Find(xs, ys[i].key) == i { }
    if Similar(nfc, JObj(xs), JObj(ys)) {
      forall i | 0 <= i < |xs| ensures Similar(nfc, xs[i].value, ys[i].value) { assert Find(ys, xs[i].key) == i; }
    }
  }

  lemma ValuesSimilar(nfc: Nfc, s: Scope, ns: Text, op: Text, a: Json, s': Scope, ns': Text, op': Text, a': Json)
    ensures var xs, ys := Fields(s, ns, op, a), Fields(s', ns', op', a');
      (forall i :: 0 <= i < |xs| ==> Similar(nfc, xs[i].value, ys[i].value)) <==> SameCall(nfc, s, ns, op, a, s', ns', op', a')
  {
    var xs, ys := Fields(s, ns, op, a), Fields(s', ns', op', a');
    if forall i :: 0 <= i < |xs| ==> Similar(nfc, xs[i].value, ys[i].value) {
      assert Similar(nfc, xs[1].value, ys[1].value) && Similar(nfc, xs[2].value, ys[2].value) && Similar(nfc, xs[3].value, ys[3].value);
      assert Similar(nfc, xs[4].value, ys[4].value) && Similar(nfc, xs[5].value, ys[5].value);
    }
  }

  lemma FieldsSimilar(nfc: Nfc, s: Scope, ns: Text, op: Text, a: Json, s': Scope, ns': Text, op': Text, a': Json)
    ensures Similar(nfc, JObj(Fields(s, ns, op, a)), JObj(Fields(s', ns', op', a'))) <==> SameCall(nfc, s, ns, op, a, s', ns', op', a')
  {
    var xs, ys := Fields(s, ns, op, a), Fields(s', ns', op', a');
    FieldKeys(s, ns, op, a);
    FieldKeys(s', ns', op', a');
    AlignedSimilar(nfc, xs, ys);
    ValuesSimilar(nfc, s, ns, op, a, s', ns', op', a');
  }

  /**
   Two effect keys are equal exactly when they name the same run, turn,
   namespace, method and arguments, provided the hash does not collide on
   well-formed text.
   */
  lemma {:induction false} EffectKeyExact<Digest>(hash: Text -> Digest, nfc: Nfc,
      h: Heap, e: Id, s: Scope, ns: Text, op: Text, args: Val,
      g: Heap, f: Id, s': Scope, ns': Text, op': Text, args': Val)
    requires forall x, y :: WellFormed(x) && WellFormed(y) && hash(x) == hash(y) ==> x == y
    requires Real(h) && e in h && h[e] == Envelope(s, ns, op, args) && Unfold(h, args, {e}).Ok?
    requires Real(g) && f in g && g[f] == Envelope(s', ns', op', args') && Unfold(g, args', {f}).Ok?
    ensures KeyOf(hash, nfc, h, e).Ok? && KeyOf(hash, nfc, g, f).Ok?
    ensures KeyOf(hash, nfc, h, e) == KeyOf(hash, nfc, g, f)
       <==> SameCall(nfc, s, ns, op, Unfold(h, args, {e}).value, s', ns', op', Unfold(g, args', {f}).value)
  {
    EnvelopeUnfolds(h, e, s, ns, op, args);
    EnvelopeUnfolds(g, f, s', ns', op', args');
    FieldsSimilar(nfc, s, ns, op, Unfold(h, args, {e}).value, s', ns', op', Unfold(g, args', {f}).value);
    CanonicalExact(nfc, h, Ref(e), g, Ref(f));
    WriteWellFormed(Normal(nfc, Unfold(h, Ref(e), {}).value), []);
    WriteWellFormed(Normal(nfc, Unfold(g, Ref(f), {}).value), []);
    var x, y := CanonicalText(nfc, h, Ref(e)).value, CanonicalText(nfc, g, Ref(f)).value;
    assert hash(x) == hash(y) <==> x == y;
  }

  /** The canonical envelope, property by property, in the order in which it is written. */
  function CanonicalFields(nfc: Nfc, scope: Scope, namespace: Text, operation: Text, args: Json): seq<Prop<Json>> {
    [ Prop(Ascii("args"), args),
      Prop(Ascii("method"), JStr(nfc(operation))),
      Prop(Ascii("namespace"), JStr(nfc(namespace))),
      Prop(Ascii("runId"), JStr(nfc(scope.runId))),
      Prop(Ascii("turnId"), JStr(nfc(scope.turnId))),
      Prop(Ascii("version"), JNum([49]))]
  }

  lemma CanonicalFieldsOrdered(nfc: Nfc, scope: Scope, namespace: Text, operation: Text, args: Json)
    ensures Ordered(CanonicalFields(nfc, scope, namespace, operation, args), ByEnumeration)
  {
    var fs := CanonicalFields(nfc, scope, namespace, operation, args);
    assert fs[0].key[0] == 97 && fs[1].key[0] == 109 && fs[2].key[0] == 110;
    assert fs[3].key[0] == 114 && fs[4].key[0] == 116 && fs[5].key[0] == 118;
    forall i, j | 0 <= i < j < 6 ensures Lt(ByEnumeration, fs[i].key, fs[j].key) {
      FirstLetter(fs[i].key, fs[j].key);
    }
  }

  lemma FirstLetter(a: Text, b: Text)
    requires a != [] && b != [] && 97 <= a[0] < b[0]
    ensures Before(a, b)
  {
  }

  /** What is hashed: the version, the scope, the names and the arguments, normalised, and nothing else. */
  lemma EnvelopeText(nfc: Nfc, h: Heap, e: Id, scope: Scope, namespace: Text, operation: Text, args: Val, j: Json)
    requires Real(h) && e in h && h[e] == Envelope(scope, namespace, operation, args) && Unfold(h, args, {e}) == Ok(j)
    ensures Denotes(h, args, j) && IsNormal(nfc, j, Normal(nfc, j))
    ensures CanonicalText(nfc, h, Ref(e)) == Ok(Encode(JObj(CanonicalFields(nfc, scope, namespace, operation, Normal(nfc, j)))))
  {
    EnvelopeUnfolds(h, e, scope, namespace, operation, args);
    UnfoldDenotes(h, args, {e});
    UnfoldTidy(h, args, {e});
    NormalIsNormal(nfc, j);
    FieldsSorted(nfc, scope, namespace, operation, j);
  }

  lemma FieldsSorted(nfc: Nfc, scope: Scope, namespace: Text, operation: Text, j: Json)
    ensures Sort(NormalProps(nfc, Fields(scope, namespace, operation, j)), ByEnumeration)
         == CanonicalFields(nfc, scope, namespace, operation, Normal(nfc, j))
  {
    var fs := Fields(scope, namespace, operation, j);
    var ns, cs := NormalProps(nfc, fs), CanonicalFields(nfc, scope, namespace, operation, Normal(nfc, j));
    FieldKeys(scope, namespace, operation, j);
    NormalDistinct(nfc, fs);
    SortSorts(ns, ByEnumeration);
    CanonicalFieldsOrdered(nfc, scope, namespace, operation, Normal(nfc, j));
    SameFields(nfc, scope, namespace, operation, j);
    OrderedUnique(Sort(ns, ByEnumeration), cs, ByEnumeration);
  }

  lemma SameFields(nfc: Nfc, scope: Scope, namespace: Text, operation: Text, j: Json)
    ensures SameElements(NormalProps(nfc, Fields(scope, namespace, operation, j)), CanonicalFields(nfc, scope, namespace, operation, Normal(nfc, j)))
  {
    var ns, cs := NormalProps(nfc, Fields(scope, namespace, operation, j)), CanonicalFields(nfc, scope, namespace, operation, Normal(nfc, j));
    assert ns == [cs[5], cs[3], cs[4], cs[2], cs[1], cs[0]];
    assert cs == [cs[0], cs[1], cs[2], cs[3], cs[4], cs[5]];
    forall q ensures q in ns <==> q in cs { }
  }
}
