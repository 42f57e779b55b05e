/**
 The signing-key cache of access/jwt.ts as a transition system: one positive
 cache with an age floor, one load in flight at a time shared by everyone who
 waits for it, and a bounded negative cache. Any number of lookups overlap.
 */
module JwksCache {
  import opened Wrappers

  const JWKS_CACHE_FLOOR_MS: nat := 60 * 60 * 1000
  const UNKNOWN_KID_NEGATIVE_TTL_MS: nat := 60 * 1000
  const MAX_UNKNOWN_KIDS: nat := 1000

  type Kid = string
  type Key = nat
  type Id = nat

  /** The usable keys of one fetched document. */
  datatype Doc = Doc(keys: map<Kid, Key>, fetchedAt: int)

  datatype Fetch = Pending | Fetched(doc: Doc) | Broken

  datatype Load = Load(begunAt: int, fetch: Fetch)

  /** An entry of `unknownKids`. */
  datatype Negative = Negative(kid: Kid, until: int)

  datatype Result = Found(doc: Doc) | KnownUnknown | Missing | Unreachable

  /** `second` is the load after which a miss is real; `awaited` counts the loads this lookup waited for. */
  datatype Pc =
    | Waiting(kid: Kid, startedAt: int, load: nat, second: bool, awaited: nat)
    | Done(kid: Kid, startedAt: int, result: Result, awaited: nat)

  /** Loads are kept in the order they began; only the last can be in flight. */
  datatype Sys = Sys(clock: int, cache: Option<Doc>, loads: seq<Load>, unknown: seq<Negative>, lookups: map<Id, Pc>) {
    predicate InFlight() { loads != [] && loads[|loads| - 1].fetch.Pending? }

    function Put(id: Id, pc: Pc): Sys { this.(lookups := lookups[id := pc]) }
  }

  const INIT := Sys(0, None, [], [], map[])

  datatype Move = Tick(ms: nat) | Start(id: Id, kid: Kid) | Settle(keys: Option<map<Kid, Key>>) | Resume(id: Id)

  /* ----------------------------------------------------------------- the negative cache -- */

  /** The position of a kid's entry, or the size when it has none. */
  function Find(u: seq<Negative>, kid: Kid): (i: nat)
    ensures i <= |u| && (i < |u| ==> u[i].kid == kid)
    ensures forall k :: 0 <= k < i ==> u[k].kid != kid
  {
    if u == [] || u[0].kid == kid then 0 else 1 + Find(u[1..], kid)
  }

  predicate Has(u: seq<Negative>, kid: Kid) { Find(u, kid) < |u| }

  function Forget(u: seq<Negative>, kid: Kid): seq<Negative> {
    var i := Find(u, kid);
    if i < |u| then u[..i] + u[i + 1..] else u
  }

  function Evict(u: seq<Negative>): seq<Negative> {
    if |u| >= MAX_UNKNOWN_KIDS then u[1..] else u
  }

  /** `Map.set`: a known key keeps its place, a new one goes last. */
  function Set(u: seq<Negative>, kid: Kid, until: int): seq<Negative> {
    var i := Find(u, kid);
    if i < |u| then u[i := Negative(kid, until)] else u + [Negative(kid, until)]
  }

  function Remember(u: seq<Negative>, kid: Kid, nowMs: int): seq<Negative> {
    Set(Evict(u), kid, nowMs + UNKNOWN_KID_NEGATIVE_TTL_MS)
  }

  ghost predicate DistinctKids(u: seq<Negative>) {
    forall i, j :: 0 <= i < j < |u| ==> u[i].kid != u[j].kid
  }

  /* ----------------------------------------------------------------------------- the steps -- */

  /** `loadJwks`: join the load in flight, or begin one. */
  function Join(s: Sys, id: Id, kid: Kid, startedAt: int, second: bool, awaited: nat): Sys {
    if s.InFlight() then s.Put(id, Waiting(kid, startedAt, |s.loads| - 1, second, awaited + 1))
    else s.(loads := s.loads + [Load(s.clock, Pending)]).Put(id, Waiting(kid, startedAt, |s.loads|, second, awaited + 1))
  }

  predicate Refuses(s: Sys, kid: Kid) {
    var i := Find(s.unknown, kid);
    i < |s.unknown| && s.clock < s.unknown[i].until
  }

  predicate Fresh(s: Sys) { s.cache.Some? && s.clock - s.cache.value.fetchedAt < JWKS_CACHE_FLOOR_MS }

  /** The first synchronous stretch of `resolveKey`. */
  function StartStep(s: Sys, id: Id, kid: Kid): Sys {
    if Refuses(s, kid) then s.Put(id, Done(kid, s.clock, KnownUnknown, 0))
    else
      var t := s.(unknown := Forget(s.unknown, kid));
      if !Fresh(t) then Join(t, id, kid, t.clock, false, 0)
      else if kid in t.cache.value.keys then t.Put(id, Done(kid, t.clock, Found(t.cache.value), 0))
      else Join(t, id, kid, t.clock, true, 0)
  }

  /** The load in flight succeeds or fails. */
  function SettleStep(s: Sys, keys: Option<map<Kid, Key>>): Sys
    requires s.InFlight()
  {
    var last := |s.loads| - 1;
    match keys
    case None => s.(loads := s.loads[last := s.loads[last].(fetch := Broken)])
    case Some(ks) =>
      var doc := Doc(ks, s.clock);
      s.(loads := s.loads[last := s.loads[last].(fetch := Fetched(doc))], cache := Some(doc))
  }

  predicate Ready(s: Sys, id: Id) {
    id in s.lookups && s.lookups[id].Waiting? && s.lookups[id].load < |s.loads| && !s.loads[s.lookups[id].load].fetch.Pending?
  }

  /** What a lookup does once the load it waits for has settled. */
  function ResumeStep(s: Sys, id: Id): Sys
    requires Ready(s, id)
  {
    var pc := s.lookups[id];
    match s.loads[pc.load].fetch
    case Fetched(doc) =>
      if pc.kid in doc.keys then s.Put(id, Done(pc.kid, pc.startedAt, Found(doc), pc.awaited))
      else if !pc.second then Join(s, id, pc.kid, pc.startedAt, true, pc.awaited)
      else s.(unknown := Remember(s.unknown, pc.kid, pc.startedAt)).Put(id, Done(pc.kid, pc.startedAt, Missing, pc.awaited))
    case _ => s.Put(id, Done(pc.kid, pc.startedAt, Unreachable, pc.awaited))
  }

  function Step(s: Sys, m: Move): Sys {
    match m
    case Tick(ms) => s.(clock := s.clock + ms)
    case Start(id, kid) => if id in s.lookups then s else StartStep(s, id, kid)
    case Settle(keys) => if s.InFlight() then SettleStep(s, keys) else s
    case Resume(id) => if Ready(s, id) then ResumeStep(s, id) else s
  }

  function Run(s: Sys, moves: seq<Move>): Sys
    decreases |moves|
  {
    if moves == [] then s else Run(Step(s, moves[0]), moves[1..])
  }

  /* ------------------------------------------------------------------------ the invariant -- */

  ghost predicate LoadsOk(s: Sys) {
    && (forall i :: 0 <= i < |s.loads| - 1 ==> !s.loads[i].fetch.Pending?)
    && (forall i :: 0 <= i < |s.loads| ==> s.loads[i].begunAt <= s.clock)
    && (forall i, j :: 0 <= i < j < |s.loads| ==> s.loads[i].begunAt <= s.loads[j].begunAt)
    && (s.cache.Some? ==> Listed(s, s.cache.value))
  }

  /** A document some load fetched. */
  ghost predicate Listed(s: Sys, doc: Doc) {
    exists i :: 0 <= i < |s.loads| && s.loads[i].fetch == Fetched(doc)
  }

  ghost predicate SomeBroken(s: Sys) {
    exists i :: 0 <= i < |s.loads| && s.loads[i].fetch.Broken?
  }

  ghost predicate PcOk(s: Sys, pc: Pc) {
    && pc.awaited <= 2 && pc.startedAt <= s.clock
    && match pc
      case Waiting(kid, startedAt, load, second, awaited) =>
        && load < |s.loads| && 1 <= awaited && (!second ==> awaited == 1)
        && (s.loads[load].fetch.Fetched? ==> startedAt <= s.loads[load].fetch.doc.fetchedAt)
      case Done(kid, startedAt, result, awaited) =>
        && (result.Found? ==> Listed(s, result.doc) && kid in result.doc.keys && startedAt - result.doc.fetchedAt < JWKS_CACHE_FLOOR_MS)
        && (result.KnownUnknown? ==> awaited == 0)
        && (result.Unreachable? ==> SomeBroken(s))
  }

  ghost predicate Inv(s: Sys) {
    && DistinctKids(s.unknown) && |s.unknown| <= MAX_UNKNOWN_KIDS
    && LoadsOk(s)
    && forall id :: id in s.lookups ==> PcOk(s, s.lookups[id])
  }

  lemma RememberOk(u: seq<Negative>, kid: Kid, nowMs: int)
    requires DistinctKids(u) && |u| <= MAX_UNKNOWN_KIDS
    ensures DistinctKids(Remember(u, kid, nowMs)) && |Remember(u, kid, nowMs)| <= MAX_UNKNOWN_KIDS
  {
  }

  /** What remembering a kid means: it has its entry, and of the others only the oldest of a full map is lost. */
  ghost predicate Remembered(u: seq<Negative>, v: seq<Negative>, kid: Kid, until: int) {
    && Has(v, kid) && v[Find(v, kid)].until == until
    && (DistinctKids(u) ==> DistinctKids(v))
    && (|u| <= MAX_UNKNOWN_KIDS ==> |v| <= MAX_UNKNOWN_KIDS)
    && (forall e :: e in v && e.kid != kid ==> e in u)
    && (forall i :: 0 <= i < |u| && u[i].kid != kid && (i > 0 || |u| < MAX_UNKNOWN_KIDS) ==> u[i] in v)
  }

  lemma RememberMeans(u: seq<Negative>, kid: Kid, nowMs: int)
    ensures Remembered(u, Remember(u, kid, nowMs), kid, nowMs + UNKNOWN_KID_NEGATIVE_TTL_MS)
  {
    var e, until := Evict(u), nowMs + UNKNOWN_KID_NEGATIVE_TTL_MS;
    var v, i := Set(e, kid, until), Find(e, kid);
    assert v[i] == Negative(kid, until) && forall k :: 0 <= k < i ==> v[k] == e[k];
    assert Find(v, kid) == i;
    SetKeeps(e, kid, until);
    forall k | 0 <= k < |u| && u[k].kid != kid && (k > 0 || |u| < MAX_UNKNOWN_KIDS) ensures u[k] in v {
      assert u[k] in e by { if |u| >= MAX_UNKNOWN_KIDS { assert e[k - 1] == u[k]; } }
    }
  }

  lemma SetKeeps(u: seq<Negative>, kid: Kid, until: int)
    ensures forall e: Negative :: e.kid != kid ==> (e in Set(u, kid, until) <==> e in u)
  {
    var v, i := Set(u, kid, until), Find(u, kid);
    forall e: Negative | e.kid != kid ensures e in v <==> e in u {
      if e in u {
        var k :| 0 <= k < |u| && u[k] == e;
        assert v[k] == e;
      }
      if e in v {
        var k :| 0 <= k < |v| && v[k] == e;
        assert k != i && u[k] == e;
      }
    }
  }

  lemma ForgetOk(u: seq<Negative>, kid: Kid)
    requires DistinctKids(u)
    ensures DistinctKids(Forget(u, kid)) && |Forget(u, kid)| <= |u|
  {
  }

  lemma ForgetKeeps(s: Sys, kid: Kid)
    requires Inv(s)
    ensures Inv(s.(unknown := Forget(s.unknown, kid)))
  {
    ForgetOk(s.unknown, kid);
    assert forall k :: k in s.lookups ==> PcOk(s, s.lookups[k]);
  }

  /** `t` has the loads of `s`, some perhaps settled since, and perhaps more. */
  ghost predicate Grown(s: Sys, t: Sys) {
    |s.loads| <= |t.loads| && forall i :: 0 <= i < |s.loads| && !s.loads[i].fetch.Pending? ==> t.loads[i] == s.loads[i]
  }

  lemma GrownKeeps(s: Sys, t: Sys)
    requires Grown(s, t)
    ensures forall doc :: Listed(s, doc) ==> Listed(t, doc)
    ensures SomeBroken(s) ==> SomeBroken(t)
  {
    forall doc | Listed(s, doc) ensures Listed(t, doc) {
      var i :| 0 <= i < |s.loads| && s.loads[i].fetch == Fetched(doc);
      assert t.loads[i].fetch == Fetched(doc);
    }
    if SomeBroken(s) {
      var i :| 0 <= i < |s.loads| && s.loads[i].fetch.Broken?;
      assert t.loads[i].fetch.Broken?;
    }
  }

  lemma JoinKeeps(s: Sys, id: Id, kid: Kid, startedAt: int, second: bool, awaited: nat)
    requires Inv(s) && startedAt <= s.clock && awaited <= 1 && (!second ==> awaited == 0)
    ensures Inv(Join(s, id, kid, startedAt, second, awaited))
  {
    var t := Join(s, id, kid, startedAt, second, awaited);
    assert s.loads <= t.loads;
    GrownKeeps(s, t);
    forall k | k in t.lookups ensures PcOk(t, t.lookups[k]) {
      if k != id { assert PcOk(s, s.lookups[k]); }
    }
  }

  lemma PutKeeps(s: Sys, id: Id, pc: Pc)
    requires Inv(s) && PcOk(s, pc)
    ensures Inv(s.Put(id, pc))
  {
    var t := s.Put(id, pc);
    GrownKeeps(s, t);
    forall k | k in t.lookups ensures PcOk(t, t.lookups[k]) {
      if k != id { assert PcOk(s, s.lookups[k]); }
    }
  }

  lemma StartKeeps(s: Sys, id: Id, kid: Kid)
    requires Inv(s) && id !in s.lookups
    ensures Inv(StartStep(s, id, kid))
  {
    ForgetKeeps(s, kid);
    var t := s.(unknown := Forget(s.unknown, kid));
    if Refuses(s, kid) {
      PutKeeps(s, id, Done(kid, s.clock, KnownUnknown, 0));
    } else if !Fresh(t) {
      JoinKeeps(t, id, kid, t.clock, false, 0);
    } else if kid in t.cache.value.keys {
      PutKeeps(t, id, Done(kid, t.clock, Found(t.cache.value), 0));
    } else {
      JoinKeeps(t, id, kid, t.clock, true, 0);
    }
  }

  lemma SettleKeeps(s: Sys, keys: Option<map<Kid, Key>>)
    requires Inv(s) && s.InFlight()
    ensures Inv(SettleStep(s, keys))
  {
    var t := SettleStep(s, keys);
    var last := |s.loads| - 1;
    GrownKeeps(s, t);
    if keys.Some? { assert t.loads[last].fetch == Fetched(Doc(keys.value, s.clock)); }
    forall k | k in t.lookups ensures PcOk(t, t.lookups[k]) { assert PcOk(s, s.lookups[k]); }
  }

  lemma ResumeKeeps(s: Sys, id: Id)
    requires Inv(s) && Ready(s, id)
    ensures Inv(ResumeStep(s, id))
  {
    var pc := s.lookups[id];
    assert PcOk(s, pc);
    RememberOk(s.unknown, pc.kid, pc.startedAt);
    var t := ResumeStep(s, id);
    if s.loads[pc.load].fetch.Fetched? && pc.kid !in s.loads[pc.load].fetch.doc.keys && !pc.second {
      JoinKeeps(s, id, pc.kid, pc.startedAt, true, pc.awaited);
    } else {
      if s.loads[pc.load].fetch.Fetched? { assert Listed(s, s.loads[pc.load].fetch.doc); }
      GrownKeeps(s, t);
      forall k | k in t.lookups ensures PcOk(t, t.lookups[k]) {
        if k != id { assert PcOk(s, s.lookups[k]); }
      }
    }
  }

  lemma StepKeeps(s: Sys, m: Move)
    requires Inv(s)
    ensures Inv(Step(s, m))
  {
    match m
    case Tick(ms) => assert forall k :: k in s.lookups ==> PcOk(s, s.lookups[k]);
    case Start(id, kid) => if id !in s.lookups { StartKeeps(s, id, kid); }
    case Settle(keys) => if s.InFlight() { SettleKeeps(s, keys); }
    case Resume(id) => if Ready(s, id) { ResumeKeeps(s, id); }
  }

  lemma {:induction false} RunKeeps(s: Sys, moves: seq<Move>)
    requires Inv(s)
    ensures Inv(Run(s, moves))
    decreases |moves|
  {
    if moves != [] {
      StepKeeps(s, moves[0]);
      RunKeeps(Step(s, moves[0]), moves[1..]);
    }
  }
}
