/** The conversion every capability result passes through: plain JSON data, at most three containers deep, within a size. */
module SafeResult {
  import opened JsonText
  import opened JsValues
  import opened Text
  import opened Wrappers

  const MAX_JSON_DEPTH := 3

  datatype Outcome = Safe(value: Json) | InvalidInput | OutputTooLarge

  function Max(a: nat, b: nat): nat { if a < b then b else a }

  /** How many containers enclose the deepest value. */
  function Depth(j: Json): nat {
    match j
    case JArr(items) => 1 + DepthItems(items)
    case JObj(props) => 1 + DepthProps(props)
    case _ => 0
  }

  function DepthItems(items: seq<Json>): (d: nat)
    ensures forall i :: 0 <= i < |items| ==> Depth(items[i]) <= d
    ensures d > 0 ==> exists i :: 0 <= i < |items| && Depth(items[i]) == d
  {
    if items == [] then 0
    else
      var rest := DepthItems(items[1..]);
      assert rest > 0 ==> exists i :: 0 <= i < |items[1..]| && Depth(items[1..][i]) == rest && items[i + 1] == items[1..][i];
      Max(Depth(items[0]), rest)
  }

  function DepthProps(props: seq<Prop<Json>>): (d: nat)
    ensures forall i :: 0 <= i < |props| ==> Depth(props[i].value) <= d
    ensures d > 0 ==> exists i :: 0 <= i < |props| && Depth(props[i].value) == d
  {
    if props == [] then 0
    else
      var rest := DepthProps(props[1..]);
      assert rest > 0 ==> exists i :: 0 <= i < |props[1..]| && Depth(props[1..][i].value) == rest && props[i + 1] == props[1..][i];
      Max(Depth(props[0].value), rest)
  }

  predicate Fits(j: Attempt<Json>, depth: nat) { j.Ok? && depth + Depth(j.value) <= MAX_JSON_DEPTH }

  function Bounded(j: Attempt<Json>, depth: nat): Attempt<Json> {
    if Fits(j, depth) then j else Refused
  }

  /** `toSafeJson`: what the reduction of the graph below `v` comes to. */
  function SafeJson(h: Heap, v: Val, maxResultChars: int): Outcome {
    var j := Bounded(Unfold(h, v, {}), 0);
    if j.Refused? then InvalidInput else if |Encode(j.value)| > maxResultChars then OutputTooLarge else Safe(j.value)
  }

  /* ----------------------------------------------------------------- the reduction runs -- */

  class Reducer {
    const heap: Heap
    var path: set<Id>

    constructor (heap: Heap)
      ensures this.heap == heap && path == {}
    {
      this.heap := heap;
      path := {};
    }

    /** Depth is checked before the path is, and the path is left as it was even on refusal. */
    method Coerce(v: Val, depth: nat) returns (r: Attempt<Json>)
      requires depth <= MAX_JSON_DEPTH
      modifies this`path
      ensures path == old(path)
      ensures r == Bounded(Unfold(heap, v, path), depth)
      ensures r.Ok? ==> Denotes(heap, v, r.value) && depth + Depth(r.value) <= MAX_JSON_DEPTH
      decreases MAX_JSON_DEPTH - depth, 0
    {
      if Unfold(heap, v, path).Ok? { UnfoldDenotes(heap, v, path); }
      match v
      case Null => return Ok(JNull);
      case Str(s) => return Ok(JStr(s));
      case Bool(b) => return Ok(JBool(b));
      case Num(n) => return if n.Finite? then Ok(JNum(n.text)) else Refused;
      case BigInt => return Refused;
      case Undefined => return Refused;
      case Function => return Refused;
      case Symbol => return Refused;
      case Ref(id) =>
        if depth >= MAX_JSON_DEPTH { return Refused; }
        if id in path || id !in heap { return Refused; }
        path := path + {id};
        match heap[id] {
          case Arr(items) => r := CoerceItems(items, depth);
          case Plain(props) => r := CoerceProps(props, depth);
          case Exotic => r := Refused;
        }
        path := path - {id};
    }

    method CoerceItems(items: seq<Val>, depth: nat) returns (r: Attempt<Json>)
      requires depth < MAX_JSON_DEPTH
      modifies this`path
      ensures path == old(path)
      ensures var js := UnfoldItems(heap, items, path);
        r == Bounded(if js.Ok? then Ok(JArr(js.value)) else Refused, depth)
      decreases MAX_JSON_DEPTH - depth - 1, 1
    {
      ItemsUnfold(heap, items, path);
      var out := [];
      for i := 0 to |items|
        invariant path == old(path) && |out| == i
        invariant forall k :: 0 <= k < i ==> Unfold(heap, items[k], path) == Ok(out[k]) && depth + 1 + Depth(out[k]) <= MAX_JSON_DEPTH
      {
        var j := Coerce(items[i], depth + 1);
        if j.Refused? { return Refused; }
        out := out + [j.value];
      }
      assert out == UnfoldItems(heap, items, path).value;
      return Ok(JArr(out));
    }

    /** Entries arrive in enumeration order, so the object they fill enumerates them in the same order. */
    method CoerceProps(props: seq<Prop<Val>>, depth: nat) returns (r: Attempt<Json>)
      requires depth < MAX_JSON_DEPTH
      modifies this`path
      ensures path == old(path)
      ensures var ps := UnfoldProps(heap, props, path);
        r == Bounded(if ps.Ok? then Ok(JObj(ps.value)) else Refused, depth)
      decreases MAX_JSON_DEPTH - depth - 1, 1
    {
      var out: seq<Prop<Json>> := [];
      for i := 0 to |props|
        invariant path == old(path)
        invariant UnfoldProps(heap, props[..i], path) == Ok(out)
        invariant depth + 1 + DepthProps(out) <= MAX_JSON_DEPTH
      {
        PropsStep(heap, props, i, path);
        if Kept(props[i].key) {
          var j := Coerce(props[i].value, depth + 1);
          if j.Refused? {
            NoFit(heap, props, i, path, depth);
            return Refused;
          }
          DepthSnoc(out, Prop(props[i].key, j.value));
          out := out + [Prop(props[i].key, j.value)];
        }
      }
      assert props[..|props|] == props;
      return Ok(JObj(out));
    }
  }

  lemma {:induction false} DepthSnoc(ps: seq<Prop<Json>>, p: Prop<Json>)
    ensures DepthProps(ps + [p]) == Max(DepthProps(ps), Depth(p.value))
  {
    if ps != [] {
      DepthSnoc(ps[1..], p);
      assert (ps + [p])[1..] == ps[1..] + [p];
    }
  }

  /** A kept property that does not fit keeps the whole object from fitting. */
  lemma NoFit(h: Heap, props: seq<Prop<Val>>, i: nat, path: set<Id>, depth: nat)
    requires i < |props| && Kept(props[i].key) && !Fits(Unfold(h, props[i].value, path), depth + 1)
    ensures var ps := UnfoldProps(h, props, path); ps.Ok? ==> depth + 1 + DepthProps(ps.value) > MAX_JSON_DEPTH
  {
    assert props[i] in props;
    PropsUnfold(h, props, path);
    var ps := UnfoldProps(h, props, path);
    if ps.Ok? {
      var q := Prop(props[i].key, Unfold(h, props[i].value, path).value);
      assert Prop(q.key, props[i].value) in props;
      PropsElements(h, props, path, q);
    }
  }

  /* ------------------------------------------------------------------ what is accepted */

  lemma {:induction false} WalkConcat(h: Heap, v: Val, w: seq<Val>, u: seq<Val>)
    requires IsWalk(h, v, w) && IsWalk(h, Last(w), u)
    ensures IsWalk(h, v, w + u[1..])
    decreases |w|
  {
    if |w| == 1 {
      assert w + u[1..] == u;
    } else {
      WalkConcat(h, w[1], w[1..], u);
      assert (w + u[1..])[1..] == w[1..] + u[1..];
    }
  }

  lemma {:induction false} WalkSuffix(h: Heap, v: Val, w: seq<Val>, i: nat)
    requires IsWalk(h, v, w) && i < |w|
    ensures IsWalk(h, w[i], w[i..])
    decreases i
  {
    if i > 0 {
      WalkSuffix(h, w[1], w[1..], i - 1);
      assert w[1..][i - 1..] == w[i..];
    } else {
      assert w[0..] == w;
    }
  }

  /** A walk that comes back to an object can go round twice more, past any depth the protocol stores. */
  lemma CycleIsDeep(h: Heap, v: Val, w: seq<Val>) returns (long: seq<Val>)
    requires IsWalk(h, v, w) && Last(w) in w[..|w| - 1]
    ensures IsWalk(h, v, long) && |long| > MAX_JSON_DEPTH && Last(long) == Last(w)
  {
    var i :| 0 <= i < |w| - 1 && w[i] == Last(w);
    var u := w[i..];
    WalkSuffix(h, v, w, i);
    WalkConcat(h, v, w, u);
    WalkConcat(h, v, w + u[1..], u);
    long := w + u[1..] + u[1..];
  }

  lemma DeepChild(h: Heap, v: Val, path: set<Id>) returns (c: Val)
    requires Unfold(h, v, path).Ok? && Depth(Unfold(h, v, path).value) > 1
    ensures Child(h, v, c) && Unfold(h, c, path + {v.id}).Ok?
    ensures Depth(Unfold(h, c, path + {v.id}).value) == Depth(Unfold(h, v, path).value) - 1
  {
    match h[v.id]
    case Arr(items) =>
      ItemsUnfold(h, items, path + {v.id});
      var js := UnfoldItems(h, items, path + {v.id}).value;
      var i :| 0 <= i < |js| && Depth(js[i]) == DepthItems(js);
      c := items[i];
    case Plain(props) =>
      var ps := UnfoldProps(h, props, path + {v.id}).value;
      var i :| 0 <= i < |ps| && Depth(ps[i].value) == DepthProps(ps);
      assert ps[i] in ps;
      PropsElements(h, props, path + {v.id}, ps[i]);
      c :| Prop(ps[i].key, c) in props && Unfold(h, c, path + {v.id}) == Ok(ps[i].value);
  }

  /** A tree of some depth has a walk through that many containers. */
  lemma {:induction false} DepthHasWalk(h: Heap, v: Val, path: set<Id>) returns (w: seq<Val>)
    requires Unfold(h, v, path).Ok? && Depth(Unfold(h, v, path).value) > 0
    ensures IsWalk(h, v, w) && Last(w).Ref? && |w| == Depth(Unfold(h, v, path).value)
    decreases h.Keys - path
  {
    if Depth(Unfold(h, v, path).value) == 1 { return [v]; }
    var c := DeepChild(h, v, path);
    var rest := DepthHasWalk(h, c, path + {v.id});
    w := [v] + rest;
    assert w[1..] == rest && Last(w) == Last(rest);
  }

  lemma ChildDepth(h: Heap, v: Val, c: Val, path: set<Id>)
    requires Child(h, v, c) && Unfold(h, v, path).Ok?
    ensures Unfold(h, c, path + {v.id}).Ok?
    ensures Depth(Unfold(h, c, path + {v.id}).value) < Depth(Unfold(h, v, path).value)
  {
    ChildUnfolds(h, v, c, path);
    match h[v.id]
    case Arr(items) => ItemsUnfold(h, items, path + {v.id});
    case Plain(props) =>
      var k :| Kept(k) && Prop(k, c) in props;
      PropsElements(h, props, path + {v.id}, Prop(k, Unfold(h, c, path + {v.id}).value));
  }

  lemma {:induction false} WalkHasDepth(h: Heap, v: Val, path: set<Id>, w: seq<Val>)
    requires Unfold(h, v, path).Ok? && IsWalk(h, v, w) && Last(w).Ref?
    ensures |w| <= Depth(Unfold(h, v, path).value)
    decreases |w|
  {
    if |w| > 1 {
      ChildDepth(h, v, w[1], path);
      WalkHasDepth(h, w[1], path + {v.id}, w[1..]);
      assert Last(w) == Last(w[1..]);
    }
  }

  /** A walk the protocol cannot store: it reaches something that is not data, or a fourth container. */
  ghost predicate Unstorable(h: Heap, w: seq<Val>)
    requires w != []
  {
    !IsData(h, Last(w)) || (Last(w).Ref? && |w| > MAX_JSON_DEPTH)
  }

  /**
   A value is accepted exactly when everything reachable through kept keys is
   plain finite data at most three containers deep. Cycles need no clause of
   their own: the depth bound already refuses them.
   */
  lemma CoerceIff(h: Heap, v: Val)
    ensures Fits(Unfold(h, v, {}), 0) <==> forall w :: IsWalk(h, v, w) ==> !Unstorable(h, w)
  {
    var j := Unfold(h, v, {});
    if j.Refused? {
      var w := RefusedHasReason(h, v, {});
      if IsData(h, Last(w)) {
        var long := CycleIsDeep(h, v, w);
        assert Unstorable(h, long);
      } else {
        assert Unstorable(h, w);
      }
    } else if Depth(j.value) > MAX_JSON_DEPTH {
      var w := DepthHasWalk(h, v, {});
      assert Unstorable(h, w);
    } else {
      forall w | IsWalk(h, v, w) ensures !Unstorable(h, w) {
        AcceptedHasNone(h, v, {}, w);
        if Last(w).Ref? { WalkHasDepth(h, v, {}, w); }
      }
    }
  }

  /** What leaves the Worker: within the size and the depth, with no forbidden key anywhere, and equal to the input without them. */
  lemma SafeJsonIsSafe(h: Heap, v: Val, maxResultChars: int)
    requires Real(h) && SafeJson(h, v, maxResultChars).Safe?
    ensures var j := SafeJson(h, v, maxResultChars).value;
      Unfold(h, v, {}) == Ok(j) && Denotes(h, v, j) && Tidy(j) && Depth(j) <= MAX_JSON_DEPTH && |Encode(j)| <= maxResultChars
  {
    UnfoldDenotes(h, v, {});
    UnfoldTidy(h, v, {});
  }

  /**
   `toSafeJson`. What it answers is the value itself without its forbidden keys; it
   calls an input invalid exactly when the protocol cannot store it, and an output
   too large exactly when it could but for its length.
   */
  method ToSafeJson(heap: Heap, v: Val, maxResultChars: int) returns (r: Outcome)
    ensures r == SafeJson(heap, v, maxResultChars)
    ensures r.Safe? ==> Denotes(heap, v, r.value) && Depth(r.value) <= MAX_JSON_DEPTH && |Encode(r.value)| <= maxResultChars
    ensures r.InvalidInput? <==> exists w :: IsWalk(heap, v, w) && Unstorable(heap, w)
    ensures r.OutputTooLarge? ==> exists j :: Denotes(heap, v, j) && |Encode(j)| > maxResultChars
  {
    CoerceIff(heap, v);
    var reducer := new Reducer(heap);
    var j := reducer.Coerce(v, 0);
    if j.Refused? { return InvalidInput; }
    if |Encode(j.value)| > maxResultChars { return OutputTooLarge; }
    return Safe(j.value);
  }

  /* ------------------------------------------------------------- the possible results -- */

  ghost predicate Extends(h: Heap, g: Heap) { forall id :: id in g ==> id in h && h[id] == g[id] }

  ghost predicate Clear(path: set<Id>, n: nat, m: nat) { forall id :: id in path ==> id < n || m <= id }

  /** `g` is the objects of a tree, at the identities from `n` up to `m`; it may be part of any larger heap. */
  ghost predicate Block(g: Heap, n: nat, m: nat) { n <= m && Real(g) && forall id :: id in g <==> n <= id < m }

  ghost predicate Holds(g: Heap, w: Val, j: Json, n: nat, m: nat) {
    Block(g, n, m) && forall h, path :: Extends(h, g) && Clear(path, n, m) ==> Unfold(h, w, path) == Ok(j)
  }

  ghost predicate HoldsItems(g: Heap, ws: seq<Val>, js: seq<Json>, n: nat, m: nat) {
    Block(g, n, m) && forall h, path :: Extends(h, g) && Clear(path, n, m) ==> UnfoldItems(h, ws, path) == Ok(js)
  }

  ghost predicate HoldsProps(g: Heap, ws: seq<Prop<Val>>, ps: seq<Prop<Json>>, n: nat, m: nat) {
    Block(g, n, m) && forall h, path :: Extends(h, g) && Clear(path, n, m) ==> UnfoldProps(h, ws, path) == Ok(ps)
  }

  lemma HoldArr(g: Heap, ws: seq<Val>, js: seq<Json>, n: nat, m: nat)
    requires HoldsItems(g, ws, js, n, m)
    ensures Holds(g[m := Arr(ws)], Ref(m), JArr(js), n, m + 1)
  {
    forall h, path | Extends(h, g[m := Arr(ws)]) && Clear(path, n, m + 1) ensures Unfold(h, Ref(m), path) == Ok(JArr(js)) {
      assert Extends(h, g) && Clear(path + {m}, n, m) && h[m] == Arr(ws);
    }
  }

  lemma HoldObj(g: Heap, ws: seq<Prop<Val>>, ps: seq<Prop<Json>>, n: nat, m: nat)
    requires HoldsProps(g, ws, ps, n, m) && DistinctKeys(ws)
    ensures Holds(g[m := Plain(ws)], Ref(m), JObj(ps), n, m + 1)
  {
    forall h, path | Extends(h, g[m := Plain(ws)]) && Clear(path, n, m + 1) ensures Unfold(h, Ref(m), path) == Ok(JObj(ps)) {
      assert Extends(h, g) && Clear(path + {m}, n, m) && h[m] == Plain(ws);
    }
  }

  lemma HoldItem(g: Heap, w: Val, j: Json, n: nat, k: nat, g': Heap, ws: seq<Val>, js: seq<Json>, m: nat)
    requires Holds(g, w, j, n, k) && HoldsItems(g', ws, js, k, m)
    ensures HoldsItems(g + g', [w] + ws, [j] + js, n, m)
  {
    forall h, path | Extends(h, g + g') && Clear(path, n, m) ensures UnfoldItems(h, [w] + ws, path) == Ok([j] + js) {
      assert Extends(h, g) && Extends(h, g') && Clear(path, n, k) && Clear(path, k, m);
      assert ([w] + ws)[1..] == ws;
    }
  }

  lemma HoldProp(g: Heap, w: Val, q: Prop<Json>, n: nat, k: nat, g': Heap, ws: seq<Prop<Val>>, ps: seq<Prop<Json>>, m: nat)
    requires Holds(g, w, q.value, n, k) && HoldsProps(g', ws, ps, k, m) && Kept(q.key)
    ensures HoldsProps(g + g', [Prop(q.key, w)] + ws, [q] + ps, n, m)
  {
    forall h, path | Extends(h, g + g') && Clear(path, n, m) ensures UnfoldProps(h, [Prop(q.key, w)] + ws, path) == Ok([q] + ps) {
      assert Extends(h, g) && Extends(h, g') && Clear(path, n, k) && Clear(path, k, m);
      assert ([Prop(q.key, w)] + ws)[1..] == ws;
    }
  }

  /** Every tidy tree is held by some heap. */
  lemma {:induction false} Build(j: Json, n: nat) returns (g: Heap, w: Val, m: nat)
    requires Tidy(j)
    ensures Holds(g, w, j, n, m)
    decreases j, 0
  {
    match j
    case JNull => g, w, m := map[], Null, n;
    case JBool(b) => g, w, m := map[], Bool(b), n;
    case JNum(t) => g, w, m := map[], Num(Finite(t)), n;
    case JStr(s) => g, w, m := map[], Str(s), n;
    case JArr(items) =>
      var f, ws, k := BuildItems(items, n);
      HoldArr(f, ws, items, n, k);
      g, w, m := f[k := Arr(ws)], Ref(k), k + 1;
    case JObj(props) =>
      var f, ws, k := BuildProps(props, n);
      HoldObj(f, ws, props, n, k);
      g, w, m := f[k := Plain(ws)], Ref(k), k + 1;
  }

  lemma {:induction false} BuildItems(js: seq<Json>, n: nat) returns (g: Heap, ws: seq<Val>, m: nat)
    requires forall i :: 0 <= i < |js| ==> Tidy(js[i])
    ensures HoldsItems(g, ws, js, n, m)
    decreases js
  {
    if js == [] { return map[], [], n; }
    var f, w, k := Build(js[0], n);
    var f', rest, l := BuildItems(js[1..], k);
    HoldItem(f, w, js[0], n, k, f', rest, js[1..], l);
    assert js == [js[0]] + js[1..];
    return f + f', [w] + rest, l;
  }

  lemma {:induction false} BuildProps(ps: seq<Prop<Json>>, n: nat) returns (g: Heap, ws: seq<Prop<Val>>, m: nat)
    requires DistinctKeys(ps) && forall i :: 0 <= i < |ps| ==> Kept(ps[i].key) && Tidy(ps[i].value)
    ensures HoldsProps(g, ws, ps, n, m) && |ws| == |ps| && forall i :: 0 <= i < |ps| ==> ws[i].key == ps[i].key
    decreases ps
  {
    if ps == [] { return map[], [], n; }
    var f, w, k := Build(ps[0].value, n);
    var f', rest, l := BuildProps(ps[1..], k);
    HoldProp(f, w, ps[0], n, k, f', rest, ps[1..], l);
    assert ps == [ps[0]] + ps[1..];
    return f + f', [Prop(ps[0].key, w)] + rest, l;
  }

  /** A tree within the bounds: tidy, shallow enough, short enough. */
  ghost predicate Storable(j: Json, maxResultChars: int) {
    Tidy(j) && Depth(j) <= MAX_JSON_DEPTH && |Encode(j)| <= maxResultChars
  }

  /**
   The possible results are exactly the trees within the bounds, and each is a
   fixed point: whatever objects hold it are reduced to it again.
   */
  lemma ResultsExactly(j: Json, maxResultChars: int)
    ensures (exists h, v :: Real(h) && SafeJson(h, v, maxResultChars) == Safe(j)) <==> Storable(j, maxResultChars)
    ensures Storable(j, maxResultChars) ==>
      forall g, w :: Unfold(g, w, {}) == Ok(j) ==> SafeJson(g, w, maxResultChars) == Safe(j)
  {
    if h, v :| Real(h) && SafeJson(h, v, maxResultChars) == Safe(j) { SafeJsonIsSafe(h, v, maxResultChars); }
    if Storable(j, maxResultChars) {
      var g, w, m := Build(j, 0);
      assert Extends(g, g) && Clear({}, 0, m);
      assert SafeJson(g, w, maxResultChars) == Safe(j);
    }
  }
}
