/** Host values as an object graph, and the JSON tree a graph unfolds to when it is plain, finite, acyclic data. */
module JsValues {
  import opened JsonText
  import opened Text
  import opened Wrappers

  type Id = nat

  datatype Number = Finite(text: NumText) | NotFinite

  /** What `typeof` tells apart, with objects as references into a heap. */
  datatype Val =
    | Null
    | Bool(b: bool)
    | Num(n: Number)
    | Str(s: Text)
    | BigInt
    | Undefined
    | Function
    | Symbol
    | Ref(id: Id)

  /** `Exotic` has a prototype of its own: a class instance, a Date, an RPC stub. */
  datatype Obj = Arr(items: seq<Val>) | Plain(props: seq<Prop<Val>>) | Exotic

  type Heap = map<Id, Obj>

  /** An object has one property per key. */
  ghost predicate Real(h: Heap) {
    forall id :: id in h && h[id].Plain? ==> DistinctKeys(h[id].props)
  }

  predicate Kept(key: Text) {
    key != Ascii("__proto__") && key != Ascii("constructor") && key != Ascii("prototype")
  }

  /* ------------------------------------------------------------------ unfolding -- */

  /**
   The tree below `v`, where `path` holds the objects above it: forbidden keys
   are erased, shared objects are copied, and anything that is not data refuses.
   */
  function Unfold(h: Heap, v: Val, path: set<Id>): Attempt<Json>
    decreases h.Keys - path, 1, 0
  {
    match v
    case Null => Ok(JNull)
    case Bool(b) => Ok(JBool(b))
    case Num(Finite(t)) => Ok(JNum(t))
    case Str(s) => Ok(JStr(s))
    case Ref(id) =>
      if id in path || id !in h || h[id].Exotic? then Refused
      else if h[id].Arr? then
        var js := UnfoldItems(h, h[id].items, path + {id});
        if js.Ok? then Ok(JArr(js.value)) else Refused
      else
        var ps := UnfoldProps(h, h[id].props, path + {id});
        if ps.Ok? then Ok(JObj(ps.value)) else Refused
    case _ => Refused
  }

  function UnfoldItems(h: Heap, items: seq<Val>, path: set<Id>): Attempt<seq<Json>>
    decreases h.Keys - path, 2, |items|
  {
    if items == [] then Ok([])
    else
      var j := Unfold(h, items[0], path);
      var rest := UnfoldItems(h, items[1..], path);
      if j.Ok? && rest.Ok? then Ok([j.value] + rest.value) else Refused
  }

  function UnfoldProps(h: Heap, props: seq<Prop<Val>>, path: set<Id>): Attempt<seq<Prop<Json>>>
    decreases h.Keys - path, 2, |props|
  {
    if props == [] then Ok([])
    else
      var rest := UnfoldProps(h, props[1..], path);
      if !Kept(props[0].key) then rest
      else
        var j := Unfold(h, props[0].value, path);
        if j.Ok? && rest.Ok? then Ok([Prop(props[0].key, j.value)] + rest.value) else Refused
  }

  /** `q` is what some kept property of `props` unfolds to. */
  ghost predicate Unfolded(h: Heap, props: seq<Prop<Val>>, path: set<Id>, q: Prop<Json>) {
    Kept(q.key) && exists v :: Prop(q.key, v) in props && Unfold(h, v, path) == Ok(q.value)
  }

  lemma {:induction false} ItemsUnfold(h: Heap, items: seq<Val>, path: set<Id>)
    ensures UnfoldItems(h, items, path).Ok? <==> forall i :: 0 <= i < |items| ==> Unfold(h, items[i], path).Ok?
    ensures var js := UnfoldItems(h, items, path);
      js.Ok? ==> |js.value| == |items| && forall i :: 0 <= i < |items| ==> Unfold(h, items[i], path) == Ok(js.value[i])
    decreases |items|
  {
    if items != [] {
      ItemsUnfold(h, items[1..], path);
      assert items == [items[0]] + items[1..];
    }
  }

  lemma {:induction false} PropsUnfold(h: Heap, props: seq<Prop<Val>>, path: set<Id>)
    ensures UnfoldProps(h, props, path).Ok? <==> forall p :: p in props && Kept(p.key) ==> Unfold(h, p.value, path).Ok?
    decreases |props|
  {
    if props != [] {
      PropsUnfold(h, props[1..], path);
      assert props == [props[0]] + props[1..];
    }
  }

  lemma {:induction false} PropsElements(h: Heap, props: seq<Prop<Val>>, path: set<Id>, q: Prop<Json>)
    requires UnfoldProps(h, props, path).Ok?
    ensures q in UnfoldProps(h, props, path).value <==> Unfolded(h, props, path, q)
    decreases |props|
  {
    if props != [] {
      PropsElements(h, props[1..], path, q);
      assert props == [props[0]] + props[1..];
      if q in UnfoldProps(h, props, path).value && !Unfolded(h, props[1..], path, q) {
        assert Prop(q.key, props[0].value) in props;
      }
      if Unfolded(h, props[1..], path, q) {
        var v :| Prop(q.key, v) in props[1..] && Unfold(h, v, path) == Ok(q.value);
        assert Prop(q.key, v) in props;
      }
    }
  }

  function Extend(front: Attempt<seq<Prop<Json>>>, key: Text, j: Attempt<Json>): Attempt<seq<Prop<Json>>> {
    if !Kept(key) then front else if front.Ok? && j.Ok? then Ok(front.value + [Prop(key, j.value)]) else Refused
  }

  lemma {:induction false} PropsSnoc(h: Heap, ps: seq<Prop<Val>>, p: Prop<Val>, path: set<Id>)
    ensures UnfoldProps(h, ps + [p], path) == Extend(UnfoldProps(h, ps, path), p.key, Unfold(h, p.value, path))
  {
    if ps == [] {
      assert ps + [p] == [p] && [p][1..] == [];
      assert UnfoldProps(h, [], path) == Ok([]);
      var j := Unfold(h, p.value, path);
      if j.Ok? {
        var q := Prop(p.key, j.value);
        assert [q] + [] == [] + [q];
      }
    } else {
      PropsSnoc(h, ps[1..], p, path);
      assert (ps + [p])[1..] == ps[1..] + [p] && (ps + [p])[0] == ps[0];
      var rest, j := UnfoldProps(h, ps[1..], path), Unfold(h, p.value, path);
      if Kept(ps[0].key) && Kept(p.key) && rest.Ok? && j.Ok? && Unfold(h, ps[0].value, path).Ok? {
        var head, last := Prop(ps[0].key, Unfold(h, ps[0].value, path).value), Prop(p.key, j.value);
        assert [head] + (rest.value + [last]) == ([head] + rest.value) + [last];
      }
    }
  }

  lemma PropsStep(h: Heap, sorted: seq<Prop<Val>>, i: nat, path: set<Id>)
    requires i < |sorted|
    ensures UnfoldProps(h, sorted[..i + 1], path) == Extend(UnfoldProps(h, sorted[..i], path), sorted[i].key, Unfold(h, sorted[i].value, path))
  {
    assert sorted[..i + 1] == sorted[..i] + [sorted[i]];
    PropsSnoc(h, sorted[..i], sorted[i], path);
  }

  /* ------------------------------------------------------------- what a tree stands for -- */

  predicate IsForbidden(key: Text) { key == Ascii("__proto__") || key == Ascii("constructor") || key == Ascii("prototype") }

  /**
   The tree is the value: the same null, boolean, number or string; the items of
   the array one by one; the properties of the plain object in their order, without
   those of the three forbidden names.
   */
  ghost predicate Denotes(h: Heap, v: Val, j: Json)
    decreases j, 0
  {
    match j
    case JNull => v == Null
    case JBool(b) => v == Bool(b)
    case JNum(t) => v == Num(Finite(t))
    case JStr(s) => v == Str(s)
    case JArr(items) =>
      && v.Ref? && v.id in h && h[v.id].Arr? && |h[v.id].items| == |items|
      && forall i :: 0 <= i < |items| ==> Denotes(h, h[v.id].items[i], items[i])
    case JObj(props) => v.Ref? && v.id in h && h[v.id].Plain? && DenotesProps(h, h[v.id].props, props)
  }

  ghost predicate DenotesProps(h: Heap, ws: seq<Prop<Val>>, ps: seq<Prop<Json>>)
    decreases ps, |ws|
  {
    if ws == [] then ps == []
    else if IsForbidden(ws[0].key) then DenotesProps(h, ws[1..], ps)
    else ps != [] && ps[0].key == ws[0].key && Denotes(h, ws[0].value, ps[0].value) && DenotesProps(h, ws[1..], ps[1..])
  }

  /** What a graph unfolds to is what it stands for. */
  lemma {:induction false} UnfoldDenotes(h: Heap, v: Val, path: set<Id>)
    requires Unfold(h, v, path).Ok?
    ensures Denotes(h, v, Unfold(h, v, path).value)
    decreases h.Keys - path, 1, 0
  {
    if v.Ref? {
      if h[v.id].Arr? { ItemsDenote(h, h[v.id].items, path + {v.id}); } else { PropsDenote(h, h[v.id].props, path + {v.id}); }
    }
  }

  lemma {:induction false} ItemsDenote(h: Heap, items: seq<Val>, path: set<Id>)
    requires UnfoldItems(h, items, path).Ok?
    ensures var js := UnfoldItems(h, items, path).value; |js| == |items| && forall i :: 0 <= i < |items| ==> Denotes(h, items[i], js[i])
    decreases h.Keys - path, 2, |items|
  {
    if items != [] {
      UnfoldDenotes(h, items[0], path);
      ItemsDenote(h, items[1..], path);
      assert items == [items[0]] + items[1..];
    }
  }

  lemma {:induction false} PropsDenote(h: Heap, props: seq<Prop<Val>>, path: set<Id>)
    requires UnfoldProps(h, props, path).Ok?
    ensures DenotesProps(h, props, UnfoldProps(h, props, path).value)
    decreases h.Keys - path, 2, |props|
  {
    if props != [] {
      PropsDenote(h, props[1..], path);
      if !IsForbidden(props[0].key) {
        UnfoldDenotes(h, props[0].value, path);
        var rest := UnfoldProps(h, props[1..], path).value;
        assert UnfoldProps(h, props, path).value[1..] == rest;
      }
    }
  }

  /** A value stands for one tree only. */
  lemma {:induction false} DenotesOne(h: Heap, v: Val, j: Json, k: Json)
    requires Denotes(h, v, j) && Denotes(h, v, k)
    ensures j == k
    decreases j, 0
  {
    match j
    case JArr(items) =>
      forall i | 0 <= i < |items| ensures items[i] == k.items[i] { DenotesOne(h, h[v.id].items[i], items[i], k.items[i]); }
    case JObj(props) => DenotesOneObject(h, h[v.id].props, props, k.props);
    case _ =>
  }

  lemma {:induction false} DenotesOneObject(h: Heap, ws: seq<Prop<Val>>, ps: seq<Prop<Json>>, qs: seq<Prop<Json>>)
    requires DenotesProps(h, ws, ps) && DenotesProps(h, ws, qs)
    ensures ps == qs
    decreases ps, |ws|
  {
    if ws != [] {
      if IsForbidden(ws[0].key) {
        DenotesOneObject(h, ws[1..], ps, qs);
      } else {
        DenotesOne(h, ws[0].value, ps[0].value, qs[0].value);
        DenotesOneObject(h, ws[1..], ps[1..], qs[1..]);
        assert ps == [ps[0]] + ps[1..] && qs == [qs[0]] + qs[1..];
      }
    }
  }

  /* ------------------------------------------------------- what is refused, exactly -- */

  /** `c` is an item of `v`, or the value of one of its kept properties. */
  ghost predicate Child(h: Heap, v: Val, c: Val) {
    && v.Ref? && v.id in h
    && match h[v.id]
      case Arr(items) => c in items
      case Plain(props) => exists k :: Kept(k) && Prop(k, c) in props
      case Exotic => false
  }

  ghost predicate IsWalk(h: Heap, v: Val, w: seq<Val>)
    decreases |w|
  {
    w != [] && w[0] == v && (|w| > 1 ==> Child(h, v, w[1]) && IsWalk(h, w[1], w[1..]))
  }

  /** Null, a boolean, a finite number, a string, an array or a plain object. */
  predicate IsData(h: Heap, v: Val) {
    match v
    case Null => true
    case Bool(_) => true
    case Str(_) => true
    case Num(n) => n.Finite?
    case Ref(id) => id in h && !h[id].Exotic?
    case _ => false
  }

  function Last(w: seq<Val>): Val
    requires w != []
  {
    w[|w| - 1]
  }

  /** A walk that ends badly: at something that is not data, or at an object already passed on the way. */
  ghost predicate EndsBadly(h: Heap, w: seq<Val>, path: set<Id>)
    requires w != []
  {
    !IsData(h, Last(w)) || (Last(w).Ref? && (Last(w).id in path || Last(w) in w[..|w| - 1]))
  }

  lemma ChildUnfolds(h: Heap, v: Val, c: Val, path: set<Id>)
    requires Child(h, v, c) && Unfold(h, v, path).Ok?
    ensures Unfold(h, c, path + {v.id}).Ok?
  {
    match h[v.id]
    case Arr(items) => ItemsUnfold(h, items, path + {v.id});
    case Plain(props) => PropsUnfold(h, props, path + {v.id});
  }

  lemma RefusedChild(h: Heap, v: Val, path: set<Id>) returns (c: Val)
    requires Unfold(h, v, path).Refused? && IsData(h, v) && !(v.Ref? && v.id in path)
    ensures v.Ref? && Child(h, v, c) && Unfold(h, c, path + {v.id}).Refused?
  {
    match h[v.id]
    case Arr(items) =>
      ItemsUnfold(h, items, path + {v.id});
      var i :| 0 <= i < |items| && Unfold(h, items[i], path + {v.id}).Refused?;
      c := items[i];
    case Plain(props) =>
      PropsUnfold(h, props, path + {v.id});
      var p :| p in props && Kept(p.key) && Unfold(h, p.value, path + {v.id}).Refused?;
      c := p.value;
      assert Prop(p.key, c) in props;
  }

  /** What is refused has a walk that shows why. */
  lemma {:induction false} RefusedHasReason(h: Heap, v: Val, path: set<Id>) returns (w: seq<Val>)
    requires Unfold(h, v, path).Refused?
    ensures IsWalk(h, v, w) && EndsBadly(h, w, path)
    decreases h.Keys - path
  {
    if !IsData(h, v) || (v.Ref? && v.id in path) { return [v]; }
    var c := RefusedChild(h, v, path);
    var rest := RefusedHasReason(h, c, path + {v.id});
    w := [v] + rest;
    assert w[1..] == rest && Last(w) == Last(rest) && w[..|w| - 1] == [v] + rest[..|rest| - 1];
  }

  /** What is accepted has none. */
  lemma {:induction false} AcceptedHasNone(h: Heap, v: Val, path: set<Id>, w: seq<Val>)
    requires Unfold(h, v, path).Ok? && IsWalk(h, v, w)
    ensures !EndsBadly(h, w, path)
    decreases |w|
  {
    if |w| > 1 {
      ChildUnfolds(h, v, w[1], path);
      AcceptedHasNone(h, w[1], path + {v.id}, w[1..]);
      assert Last(w) == Last(w[1..]) && w[..|w| - 1] == [v] + w[1..][..|w| - 2];
    }
  }

  /**
   A graph is refused exactly when some walk through kept keys reaches a value
   that is not data or comes back to an object it passed; sharing without a
   cycle is accepted.
   */
  lemma RefusedIff(h: Heap, v: Val)
    ensures Unfold(h, v, {}).Refused? <==> exists w :: IsWalk(h, v, w) && EndsBadly(h, w, {})
  {
    if Unfold(h, v, {}).Refused? {
      var w := RefusedHasReason(h, v, {});
    } else {
      forall w | IsWalk(h, v, w) ensures !EndsBadly(h, w, {}) { AcceptedHasNone(h, v, {}, w); }
    }
  }

  /* --------------------------------------------------------------- well-formed trees -- */

  /** One property per key, and no forbidden key, at any level. */
  ghost predicate Tidy(j: Json) {
    match j
    case JArr(items) => forall i :: 0 <= i < |items| ==> Tidy(items[i])
    case JObj(props) => DistinctKeys(props) && forall i :: 0 <= i < |props| ==> Kept(props[i].key) && Tidy(props[i].value)
    case _ => true
  }

  lemma {:induction false} UnfoldTidy(h: Heap, v: Val, path: set<Id>)
    requires Real(h) && Unfold(h, v, path).Ok?
    ensures Tidy(Unfold(h, v, path).value)
    decreases h.Keys - path, 1, 0
  {
    if v.Ref? {
      if h[v.id].Arr? { ItemsTidy(h, h[v.id].items, path + {v.id}); } else { PropsTidy(h, h[v.id].props, path + {v.id}); }
    }
  }

  lemma {:induction false} ItemsTidy(h: Heap, items: seq<Val>, path: set<Id>)
    requires Real(h) && UnfoldItems(h, items, path).Ok?
    ensures forall i :: 0 <= i < |UnfoldItems(h, items, path).value| ==> Tidy(UnfoldItems(h, items, path).value[i])
    decreases h.Keys - path, 2, |items|
  {
    if items != [] {
      UnfoldTidy(h, items[0], path);
      ItemsTidy(h, items[1..], path);
    }
  }

  lemma {:induction false} PropsTidy(h: Heap, props: seq<Prop<Val>>, path: set<Id>)
    requires Real(h) && DistinctKeys(props) && UnfoldProps(h, props, path).Ok?
    ensures Tidy(JObj(UnfoldProps(h, props, path).value))
    decreases h.Keys - path, 2, |props|
  {
    if props != [] {
      var rest := UnfoldProps(h, props[1..], path).value;
      PropsTidy(h, props[1..], path);
      if Kept(props[0].key) {
        UnfoldTidy(h, props[0].value, path);
        forall j | 0 <= j < |rest| ensures rest[j].key != props[0].key { FreshKey(h, props, path, rest[j]); }
      }
    }
  }

  lemma FreshKey(h: Heap, props: seq<Prop<Val>>, path: set<Id>, q: Prop<Json>)
    requires props != [] && DistinctKeys(props) && UnfoldProps(h, props[1..], path).Ok?
    requires q in UnfoldProps(h, props[1..], path).value
    ensures q.key != props[0].key
  {
    PropsElements(h, props[1..], path, q);
    var v :| Prop(q.key, v) in props[1..];
    var k :| 0 <= k < |props| - 1 && props[1..][k] == Prop(q.key, v);
    assert props[k + 1].key == q.key;
  }
}
