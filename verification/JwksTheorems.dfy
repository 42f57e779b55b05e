/** What every run of the key cache guarantees, however lookups overlap. */
module JwksTheorems {
  import opened JwksCache
  import opened Wrappers

  /* ------------------------------------------------------------------ bounds and freshness -- */

  /** In every run the negative cache stays bounded, and no lookup waits for more than two loads. */
  lemma CacheBounds(moves: seq<Move>)
    ensures var s := Run(INIT, moves);
      |s.unknown| <= MAX_UNKNOWN_KIDS && DistinctKids(s.unknown) && forall id :: id in s.lookups ==> s.lookups[id].awaited <= 2
  {
    RunKeeps(INIT, moves);
    var s := Run(INIT, moves);
    forall id | id in s.lookups ensures s.lookups[id].awaited <= 2 { assert PcOk(s, s.lookups[id]); }
  }

  /** A key that is returned was listed in a fetched document less than the floor older than the lookup. */
  lemma KeyIsFresh(moves: seq<Move>, id: Id)
    requires var s := Run(INIT, moves); id in s.lookups && s.lookups[id].Done? && s.lookups[id].result.Found?
    ensures var s := Run(INIT, moves); var pc := s.lookups[id];
      && Listed(s, pc.result.doc) && pc.kid in pc.result.doc.keys
      && pc.startedAt - pc.result.doc.fetchedAt < JWKS_CACHE_FLOOR_MS
  {
    RunKeeps(INIT, moves);
    assert PcOk(Run(INIT, moves), Run(INIT, moves).lookups[id]);
  }

  /* ------------------------------------------------------------------ what a lookup answers -- */

  /** An unexpired negative entry. */
  predicate Standing(s: Sys, kid: Kid) {
    exists i :: 0 <= i < |s.unknown| && s.unknown[i].kid == kid && s.clock < s.unknown[i].until
  }

  /** A cached document younger than the floor. */
  predicate Young(s: Sys) { s.cache.Some? && s.clock - s.cache.value.fetchedAt < JWKS_CACHE_FLOOR_MS }

  /** What a settled load tells a lookup that will not load again. */
  predicate FromFetch(fetch: Fetch, kid: Kid, r: Result) {
    match fetch
    case Fetched(doc) => if kid in doc.keys then r == Found(doc) else r == Missing
    case Broken => r == Unreachable
    case Pending => false
  }

  lemma StandingIff(s: Sys, kid: Kid)
    requires DistinctKids(s.unknown)
    ensures Standing(s, kid) <==> Refuses(s, kid)
  {
    if i :| 0 <= i < |s.unknown| && s.unknown[i].kid == kid && s.clock < s.unknown[i].until {
      assert Find(s.unknown, kid) == i;
    }
  }

  /** How a lookup begins: refused, answered from the cache, or waiting for its first load. */
  lemma BeginsBy(s: Sys, id: Id, kid: Kid)
    requires DistinctKids(s.unknown)
    ensures var t := StartStep(s, id, kid);
      && (Standing(s, kid) ==> t.lookups[id] == Done(kid, s.clock, KnownUnknown, 0) && t.loads == s.loads)
      && (!Standing(s, kid) && Young(s) && kid in s.cache.value.keys ==>
            t.lookups[id] == Done(kid, s.clock, Found(s.cache.value), 0) && t.loads == s.loads)
      && (!Standing(s, kid) && !(Young(s) && kid in s.cache.value.keys) ==>
            && t.lookups[id].Waiting? && t.lookups[id].kid == kid && t.lookups[id].startedAt == s.clock
            && t.lookups[id].awaited == 1 && (t.lookups[id].second <==> Young(s)) && t.InFlight() && t.lookups[id].load == |t.loads| - 1)
      && t.clock == s.clock && t.cache == s.cache
  {
    StandingIff(s, kid);
  }

  /** How it goes on when its load has settled. */
  lemma GoesOnBy(s: Sys, id: Id)
    requires Ready(s, id)
    ensures var pc, t := s.lookups[id], ResumeStep(s, id); var fetch := s.loads[pc.load].fetch; var next := t.lookups[id];
      && next.kid == pc.kid && next.startedAt == pc.startedAt && s.loads <= t.loads && t.clock == s.clock
      && (!pc.second && fetch.Fetched? && pc.kid !in fetch.doc.keys ==>
            next.Waiting? && next.second && next.awaited == pc.awaited + 1 && t.InFlight() && next.load == |t.loads| - 1)
      && (pc.second || fetch.Broken? || (fetch.Fetched? && pc.kid in fetch.doc.keys) ==>
            next.Done? && next.awaited == pc.awaited && FromFetch(fetch, pc.kid, next.result))
  {
  }

  /** Whoever has waited was told what some settled load brought. */
  ghost predicate Answered(s: Sys, pc: Pc) {
    pc.Done? ==>
      if pc.awaited == 0 then pc.result.KnownUnknown? || pc.result.Found?
      else exists l :: 0 <= l < |s.loads| && FromFetch(s.loads[l].fetch, pc.kid, pc.result)
  }

  lemma AnsweredStays(s: Sys, t: Sys, pc: Pc)
    requires Answered(s, pc) && Grown(s, t)
    ensures Answered(t, pc)
  {
    if pc.Done? && pc.awaited > 0 {
      var l :| 0 <= l < |s.loads| && FromFetch(s.loads[l].fetch, pc.kid, pc.result);
      assert t.loads[l] == s.loads[l];
    }
  }

  lemma StepGrows(s: Sys, m: Move)
    ensures Grown(s, Step(s, m))
  {
  }

  lemma StepAnswers(s: Sys, m: Move, id: Id)
    requires Inv(s) && id in Step(s, m).lookups && (id in s.lookups ==> Answered(s, s.lookups[id]))
    ensures Answered(Step(s, m), Step(s, m).lookups[id])
  {
    var t := Step(s, m);
    StepGrows(s, m);
    if m.Start? && m.id !in s.lookups {
      StartEffect(s, m.id, m.kid);
      if m.id == id { BeginsBy(s, id, m.kid); } else { AnsweredStays(s, t, s.lookups[id]); }
    } else if m.Resume? && Ready(s, m.id) {
      ResumeEffect(s, m.id);
      if m.id == id { ResumeAnswers(s, id); } else { AnsweredStays(s, t, s.lookups[id]); }
    } else {
      AnsweredStays(s, t, s.lookups[id]);
    }
  }

  lemma ResumeAnswers(s: Sys, id: Id)
    requires Inv(s) && Ready(s, id)
    ensures Answered(ResumeStep(s, id), ResumeStep(s, id).lookups[id])
  {
    var t, l := ResumeStep(s, id), s.lookups[id].load;
    assert PcOk(s, s.lookups[id]);
    GoesOnBy(s, id);
    assert t.loads[l] == s.loads[l];
  }

  lemma {:induction false} RunAnswers(s: Sys, moves: seq<Move>)
    requires Inv(s) && forall id :: id in s.lookups ==> Answered(s, s.lookups[id])
    ensures forall id :: id in Run(s, moves).lookups ==> Answered(Run(s, moves), Run(s, moves).lookups[id])
    decreases |moves|
  {
    if moves != [] {
      var t := Step(s, moves[0]);
      StepKeeps(s, moves[0]);
      forall id | id in t.lookups ensures Answered(t, t.lookups[id]) { StepAnswers(s, moves[0], id); }
      RunAnswers(t, moves[1..]);
    }
  }

  /** In every run a lookup that waited and ended was told what a settled load brought: its key, that it has none, or that it failed. */
  lemma AnswerIsFetched(moves: seq<Move>, id: Id)
    requires var s := Run(INIT, moves); id in s.lookups && s.lookups[id].Done? && s.lookups[id].awaited > 0
    ensures var s := Run(INIT, moves);
      exists l :: 0 <= l < |s.loads| && FromFetch(s.loads[l].fetch, s.lookups[id].kid, s.lookups[id].result)
  {
    RunAnswers(INIT, moves);
    assert Answered(Run(INIT, moves), Run(INIT, moves).lookups[id]);
  }

  /** The document of the latest load that brought one. */
  function LatestFetched(loads: seq<Load>): Option<Doc>
    decreases |loads|
  {
    if loads == [] then None
    else
      var last := loads[|loads| - 1].fetch;
      if last.Fetched? then Some(last.doc) else LatestFetched(loads[..|loads| - 1])
  }

  lemma LatestOfJoin(loads: seq<Load>, begunAt: int)
    ensures LatestFetched(loads + [Load(begunAt, Pending)]) == LatestFetched(loads)
  {
    assert (loads + [Load(begunAt, Pending)])[..|loads|] == loads;
  }

  lemma StepLatest(s: Sys, m: Move)
    requires s.cache == LatestFetched(s.loads)
    ensures Step(s, m).cache == LatestFetched(Step(s, m).loads)
  {
    LatestOfJoin(s.loads, s.clock);
    if m.Settle? && s.InFlight() {
      assert SettleStep(s, m.keys).loads[..|s.loads| - 1] == s.loads[..|s.loads| - 1];
    }
  }

  lemma {:induction false} RunLatest(s: Sys, moves: seq<Move>)
    requires s.cache == LatestFetched(s.loads)
    ensures Run(s, moves).cache == LatestFetched(Run(s, moves).loads)
    decreases |moves|
  {
    if moves != [] {
      StepLatest(s, moves[0]);
      RunLatest(Step(s, moves[0]), moves[1..]);
    }
  }

  /** In every run the cache is the document of the latest load that brought one; a failed load leaves it alone. */
  lemma CacheIsLatest(moves: seq<Move>)
    ensures Run(INIT, moves).cache == LatestFetched(Run(INIT, moves).loads)
  {
    RunLatest(INIT, moves);
  }

  /* -------------------------------------------------------------------------- key rotation -- */

  /** No entry outlives the lookup that made it by more than the TTL. */
  predicate Timely(s: Sys) {
    forall i :: 0 <= i < |s.unknown| ==> s.unknown[i].until <= s.clock + UNKNOWN_KID_NEGATIVE_TTL_MS
  }

  lemma RememberTimely(s: Sys, kid: Kid, nowMs: int)
    requires Timely(s) && nowMs <= s.clock
    ensures Timely(s.(unknown := Remember(s.unknown, kid, nowMs)))
  {
  }

  lemma StepTimely(s: Sys, m: Move)
    requires Inv(s) && Timely(s)
    ensures Timely(Step(s, m))
  {
    if m.Resume? && Ready(s, m.id) {
      assert PcOk(s, s.lookups[m.id]);
      ResumeEffect(s, m.id);
      RememberTimely(s, s.lookups[m.id].kid, s.lookups[m.id].startedAt);
    } else if m.Start? && m.id !in s.lookups {
      StartEffect(s, m.id, m.kid);
    }
  }

  lemma {:induction false} RunTimely(s: Sys, moves: seq<Move>)
    requires Inv(s) && Timely(s)
    ensures Timely(Run(s, moves))
    decreases |moves|
  {
    if moves != [] {
      StepKeeps(s, moves[0]);
      StepTimely(s, moves[0]);
      RunTimely(Step(s, moves[0]), moves[1..]);
    }
  }

  /** No fetch fails, and every load after the first `n` brings a document that lists the kid. */
  ghost predicate Rotates(s: Sys, moves: seq<Move>, kid: Kid, n: nat)
    decreases |moves|
  {
    moves != [] ==>
      && (moves[0].Settle? && s.InFlight() ==> moves[0].keys.Some? && (|s.loads| > n ==> kid in moves[0].keys.value))
      && Rotates(Step(s, moves[0]), moves[1..], kid, n)
  }

  /** A lookup of the kid that starts now has one load left, and joins one of the first `n`. */
  predicate Stale(s: Sys, kid: Kid, n: nat) {
    s.InFlight() && |s.loads| <= n && Fresh(s) && kid !in s.cache.value.keys
  }

  ghost predicate NoStaleStart(s: Sys, moves: seq<Move>, kid: Kid, n: nat, t0: int)
    decreases |moves|
  {
    moves != [] ==>
      && (moves[0].Start? && moves[0].kid == kid && s.clock > t0 ==> !Stale(s, kid, n))
      && NoStaleStart(Step(s, moves[0]), moves[1..], kid, n, t0)
  }

  ghost predicate RotatedPc(s: Sys, pc: Pc, kid: Kid, n: nat, t0: int) {
    pc.kid == kid && pc.startedAt > t0 ==>
      match pc
      case Waiting(_, _, load, second, _) =>
        load < |s.loads| && (load >= n || (load == n - 1 && !second)) && !s.loads[load].fetch.Broken?
      case Done(_, startedAt, result, _) =>
        !result.Missing? && !result.Unreachable? && (result.KnownUnknown? ==> startedAt < t0 + UNKNOWN_KID_NEGATIVE_TTL_MS)
  }

  /** Once the kid is published, only lookups that started by then can have left it a negative entry. */
  ghost predicate Rotated(s: Sys, kid: Kid, n: nat, t0: int) {
    && |s.loads| >= n
    && (forall i :: n <= i < |s.loads| ==> !s.loads[i].fetch.Broken? && (s.loads[i].fetch.Fetched? ==> kid in s.loads[i].fetch.doc.keys))
    && (forall id :: id in s.lookups ==> RotatedPc(s, s.lookups[id], kid, n, t0))
    && (forall i :: 0 <= i < |s.unknown| && s.unknown[i].kid == kid ==> s.unknown[i].until <= t0 + UNKNOWN_KID_NEGATIVE_TTL_MS)
  }

  lemma RotatedPut(s: Sys, id: Id, pc: Pc, kid: Kid, n: nat, t0: int)
    requires Rotated(s, kid, n, t0) && RotatedPc(s, pc, kid, n, t0)
    ensures Rotated(s.Put(id, pc), kid, n, t0)
  {
    var t := s.Put(id, pc);
    forall i | i in t.lookups ensures RotatedPc(t, t.lookups[i], kid, n, t0) {
      if i != id { assert RotatedPc(s, s.lookups[i], kid, n, t0); }
    }
  }

  lemma RotatedJoin(s: Sys, id: Id, k: Kid, startedAt: int, second: bool, awaited: nat, kid: Kid, n: nat, t0: int)
    requires Rotated(s, kid, n, t0)
    requires k == kid && startedAt > t0 && second && s.InFlight() ==> |s.loads| > n
    ensures Rotated(Join(s, id, k, startedAt, second, awaited), kid, n, t0)
  {
    var t := Join(s, id, k, startedAt, second, awaited);
    forall i | i in t.lookups ensures RotatedPc(t, t.lookups[i], kid, n, t0) {
      if i != id { assert RotatedPc(s, s.lookups[i], kid, n, t0); }
    }
  }

  lemma RotatedUnknown(s: Sys, u: seq<Negative>, kid: Kid, n: nat, t0: int)
    requires Rotated(s, kid, n, t0)
    requires forall i :: 0 <= i < |u| && u[i].kid == kid ==> u[i].until <= t0 + UNKNOWN_KID_NEGATIVE_TTL_MS
    ensures Rotated(s.(unknown := u), kid, n, t0)
  {
    var t := s.(unknown := u);
    forall i | i in t.lookups ensures RotatedPc(t, t.lookups[i], kid, n, t0) { assert RotatedPc(s, s.lookups[i], kid, n, t0); }
  }

  lemma RotatedStart(s: Sys, id: Id, k: Kid, kid: Kid, n: nat, t0: int)
    requires Rotated(s, kid, n, t0) && (k == kid && s.clock > t0 ==> !Stale(s, kid, n))
    ensures Rotated(StartStep(s, id, k), kid, n, t0)
  {
    if Refuses(s, k) {
      RotatedPut(s, id, Done(k, s.clock, KnownUnknown, 0), kid, n, t0);
    } else {
      RotatedUnknown(s, Forget(s.unknown, k), kid, n, t0);
      var t := s.(unknown := Forget(s.unknown, k));
      if !Fresh(t) {
        RotatedJoin(t, id, k, t.clock, false, 0, kid, n, t0);
      } else if k in t.cache.value.keys {
        RotatedPut(t, id, Done(k, t.clock, Found(t.cache.value), 0), kid, n, t0);
      } else {
        RotatedJoin(t, id, k, t.clock, true, 0, kid, n, t0);
      }
    }
  }

  lemma RotatedResume(s: Sys, id: Id, kid: Kid, n: nat, t0: int)
    requires Rotated(s, kid, n, t0) && Ready(s, id)
    ensures Rotated(ResumeStep(s, id), kid, n, t0)
  {
    var pc := s.lookups[id];
    assert RotatedPc(s, pc, kid, n, t0);
    match s.loads[pc.load].fetch
    case Fetched(doc) =>
      if pc.kid in doc.keys {
        RotatedPut(s, id, Done(pc.kid, pc.startedAt, Found(doc), pc.awaited), kid, n, t0);
      } else if !pc.second {
        // A load in flight is not the settled one, so it is a later one.
        RotatedJoin(s, id, pc.kid, pc.startedAt, true, pc.awaited, kid, n, t0);
      } else {
        var u := Remember(s.unknown, pc.kid, pc.startedAt);
        RotatedUnknown(s, u, kid, n, t0);
        RotatedPut(s.(unknown := u), id, Done(pc.kid, pc.startedAt, Missing, pc.awaited), kid, n, t0);
      }
    case _ => RotatedPut(s, id, Done(pc.kid, pc.startedAt, Unreachable, pc.awaited), kid, n, t0);
  }

  lemma RotatedSettle(s: Sys, keys: Option<map<Kid, Key>>, kid: Kid, n: nat, t0: int)
    requires Rotated(s, kid, n, t0) && s.InFlight()
    requires keys.Some? && (|s.loads| > n ==> kid in keys.value)
    ensures Rotated(SettleStep(s, keys), kid, n, t0)
  {
    var t := SettleStep(s, keys);
    forall i | i in t.lookups ensures RotatedPc(t, t.lookups[i], kid, n, t0) { assert RotatedPc(s, s.lookups[i], kid, n, t0); }
  }

  lemma {:induction false} RunRotated(s: Sys, moves: seq<Move>, kid: Kid, n: nat, t0: int)
    requires Rotated(s, kid, n, t0) && Rotates(s, moves, kid, n) && NoStaleStart(s, moves, kid, n, t0)
    ensures Rotated(Run(s, moves), kid, n, t0)
    decreases |moves|
  {
    if moves != [] {
      var m := moves[0];
      match m {
        case Tick(ms) => assert forall i :: i in s.lookups ==> RotatedPc(s, s.lookups[i], kid, n, t0);
        case Start(id, k) => if id !in s.lookups { RotatedStart(s, id, k, kid, n, t0); }
        case Settle(keys) => if s.InFlight() { RotatedSettle(s, keys, kid, n, t0); }
        case Resume(id) => if Ready(s, id) { RotatedResume(s, id, kid, n, t0); }
      }
      RunRotated(Step(s, m), moves[1..], kid, n, t0);
    }
  }

  /** A lookup of the kid that started a TTL after `s` or later, and has ended. */
  predicate Late(s: Sys, t: Sys, kid: Kid, id: Id) {
    && id in t.lookups && t.lookups[id].Done? && t.lookups[id].kid == kid
    && t.lookups[id].startedAt >= s.clock + UNKNOWN_KID_NEGATIVE_TTL_MS
  }

  lemma LateFinds(before: seq<Move>, later: seq<Move>, kid: Kid, id: Id)
    requires var s := Run(INIT, before);
      && Rotates(s, later, kid, |s.loads|) && NoStaleStart(s, later, kid, |s.loads|, s.clock) && Late(s, Run(s, later), kid, id)
    ensures Run(Run(INIT, before), later).lookups[id].result.Found?
  {
    var s := Run(INIT, before);
    RunKeeps(INIT, before);
    RunTimely(INIT, before);
    forall i | i in s.lookups ensures RotatedPc(s, s.lookups[i], kid, |s.loads|, s.clock) { assert PcOk(s, s.lookups[i]); }
    RunRotated(s, later, kid, |s.loads|, s.clock);
    assert RotatedPc(Run(s, later), Run(s, later).lookups[id], kid, |s.loads|, s.clock);
  }

  /* ------------------------------------------------------------ the exact blind spot -- */

  /** A load that may lack the kid is in flight, and the cache that lacks it is young enough not to be reloaded first. */
  predicate JoinsStale(s: Sys, kid: Kid) {
    s.InFlight() && s.cache.Some? && kid !in s.cache.value.keys && s.clock + 1 - s.cache.value.fetchedAt < JWKS_CACHE_FLOOR_MS
  }

  /** While the first `n` loads are not all settled, the cache is the one that was not stale at `t0`. */
  predicate Guarded(s: Sys, kid: Kid, n: nat, t0: int) {
    && |s.loads| >= n
    && (s.InFlight() && |s.loads| <= n && s.cache.Some? ==>
          kid in s.cache.value.keys || t0 + 1 - s.cache.value.fetchedAt >= JWKS_CACHE_FLOOR_MS)
  }

  lemma StepGuarded(s: Sys, m: Move, kid: Kid, n: nat, t0: int)
    requires Guarded(s, kid, n, t0)
    ensures Guarded(Step(s, m), kid, n, t0)
  {
  }

  lemma {:induction false} GuardHolds(s: Sys, moves: seq<Move>, kid: Kid, n: nat, t0: int)
    requires Guarded(s, kid, n, t0)
    ensures NoStaleStart(s, moves, kid, n, t0)
    decreases |moves|
  {
    if moves != [] {
      StepGuarded(s, moves[0], kid, n, t0);
      GuardHolds(Step(s, moves[0]), moves[1..], kid, n, t0);
    }
  }

  /** The kid has been published since `s` and no fetch failed, and still a lookup a TTL later did not find it. */
  ghost predicate Blind(s: Sys, later: seq<Move>, kid: Kid, id: Id) {
    Rotates(s, later, kid, |s.loads|) && Late(s, Run(s, later), kid, id) && !Run(s, later).lookups[id].result.Found?
  }

  lemma {:induction false} FreshId(used: set<Id>) returns (id: Id)
    ensures forall d :: d in used ==> d < id
  {
    if used == {} {
      id := 0;
    } else {
      var x :| x in used;
      var rest := FreshId(used - {x});
      id := if rest > x then rest else x + 1;
      forall d | d in used ensures d < id { assert d == x || d in used - {x}; }
    }
  }

  lemma RunCons(s: Sys, m: Move, rest: seq<Move>, kid: Kid, n: nat)
    ensures Run(s, [m] + rest) == Run(Step(s, m), rest)
    ensures Rotates(s, [m] + rest, kid, n) <==>
      (m.Settle? && s.InFlight() ==> m.keys.Some? && (|s.loads| > n ==> kid in m.keys.value)) && Rotates(Step(s, m), rest, kid, n)
  {
    assert ([m] + rest)[1..] == rest;
  }

  /** A lookup that starts one millisecond later joins the stale load and misses. */
  lemma StaleMisses(s: Sys, kid: Kid, id: Id)
    requires JoinsStale(s, kid) && !Has(s.unknown, kid) && id !in s.lookups
    ensures var t := Step(Step(s, Tick(1)), Start(id, kid)); var u := Step(t, Settle(Some(map[])));
      && t.InFlight() && |t.loads| == |s.loads|
      && Step(u, Resume(id)) == u.(unknown := Remember(s.unknown, kid, s.clock + 1)).Put(id, Done(kid, s.clock + 1, Missing, 1))
      && u.clock == s.clock + 1 && u.lookups.Keys == s.lookups.Keys + {id}
  {
  }

  /** And leaves an entry that outlives the TTL by that millisecond. */
  lemma EntryRefuses(s: Sys, u: seq<Negative>, kid: Kid, nowMs: int, id: Id)
    requires s.unknown == Remember(u, kid, nowMs) && s.clock < nowMs + UNKNOWN_KID_NEGATIVE_TTL_MS && id !in s.lookups
    ensures Step(s, Start(id, kid)) == s.Put(id, Done(kid, s.clock, KnownUnknown, 0))
  {
    FindAfterSet(Evict(u), kid, nowMs + UNKNOWN_KID_NEGATIVE_TTL_MS);
  }

  lemma FindAfterSet(u: seq<Negative>, kid: Kid, until: int)
    ensures Find(Set(u, kid, until), kid) == Find(u, kid)
  {
    var e, i := Set(u, kid, until), Find(u, kid);
    assert e[i].kid == kid && forall k :: 0 <= k < i ==> e[k].kid != kid;
  }

  /** From such an entry on: a lookup after these milliseconds is refused. */
  lemma EntryBlinds(s: Sys, u: seq<Negative>, kid: Kid, nowMs: int, ttl: nat, id: Id, n: nat)
    requires s.unknown == Remember(u, kid, nowMs) && s.clock + ttl < nowMs + UNKNOWN_KID_NEGATIVE_TTL_MS && id !in s.lookups
    ensures var later := [Tick(ttl)] + ([Start(id, kid)] + []);
      && Rotates(s, later, kid, n) && id in Run(s, later).lookups
      && Run(s, later).lookups[id] == Done(kid, s.clock + ttl, KnownUnknown, 0)
  {
    var t := Step(s, Tick(ttl));
    EntryRefuses(t, u, kid, nowMs, id);
    RunCons(s, Tick(ttl), [Start(id, kid)] + [], kid, n);
    RunCons(t, Start(id, kid), [], kid, n);
  }

  /** What follows the miss, from where it leads. */
  lemma MissFirst(s: Sys, kid: Kid, id: Id, rest: seq<Move>)
    requires JoinsStale(s, kid) && !Has(s.unknown, kid) && id !in s.lookups
    ensures var u := Step(Step(Step(Step(s, Tick(1)), Start(id, kid)), Settle(Some(map[]))), Resume(id));
      var later := [Tick(1)] + ([Start(id, kid)] + ([Settle(Some(map[]))] + ([Resume(id)] + rest)));
      Run(s, later) == Run(u, rest) && (Rotates(u, rest, kid, |s.loads|) ==> Rotates(s, later, kid, |s.loads|))
  {
    StaleMisses(s, kid, id);
    var s1, n := Step(s, Tick(1)), |s.loads|;
    var s2 := Step(s1, Start(id, kid));
    var s3 := Step(s2, Settle(Some(map[])));
    var m3 := [Resume(id)] + rest;
    var m2 := [Settle(Some(map[]))] + m3;
    RunCons(s3, Resume(id), rest, kid, n);
    RunCons(s2, Settle(Some(map[])), m3, kid, n);
    RunCons(s1, Start(id, kid), m2, kid, n);
    RunCons(s, Tick(1), [Start(id, kid)] + m2, kid, n);
  }

  lemma StaleIsBlind(s: Sys, kid: Kid)
    requires JoinsStale(s, kid) && !Has(s.unknown, kid)
    ensures exists later, id :: Blind(s, later, kid, id)
  {
    var a := FreshId(s.lookups.Keys);
    var ttl: nat := UNKNOWN_KID_NEGATIVE_TTL_MS - 1;
    var rest := [Tick(ttl)] + ([Start(a + 1, kid)] + []);
    var u := Step(Step(Step(Step(s, Tick(1)), Start(a, kid)), Settle(Some(map[]))), Resume(a));
    StaleMisses(s, kid, a);
    EntryBlinds(u, s.unknown, kid, s.clock + 1, ttl, a + 1, |s.loads|);
    MissFirst(s, kid, a, rest);
    assert Blind(s, [Tick(1)] + ([Start(a, kid)] + ([Settle(Some(map[]))] + ([Resume(a)] + rest))), kid, a + 1);
  }

  /**
   The blind spot of a key rotation, exactly. Let a kid without an entry be
   published at some moment of any run, so that every load begun from then on
   lists it, and let no fetch fail. Then every lookup that starts a TTL later
   finds it, however lookups overlap, if and only if at that moment no older load
   is in flight beside a cache that lacks the kid and is still young.
   */
  lemma RotationIff(before: seq<Move>, kid: Kid)
    requires !Has(Run(INIT, before).unknown, kid)
    ensures (exists later, id :: Blind(Run(INIT, before), later, kid, id)) <==> JoinsStale(Run(INIT, before), kid)
  {
    var s := Run(INIT, before);
    if JoinsStale(s, kid) {
      StaleIsBlind(s, kid);
    } else {
      forall later, id ensures !Blind(s, later, kid, id) { NeverBlind(before, later, kid, id); }
    }
  }

  /** The guard is enough even for a kid that has an entry. */
  lemma NeverBlind(before: seq<Move>, later: seq<Move>, kid: Kid, id: Id)
    requires !JoinsStale(Run(INIT, before), kid)
    ensures !Blind(Run(INIT, before), later, kid, id)
  {
    var s := Run(INIT, before);
    GuardHolds(s, later, kid, |s.loads|, s.clock);
    if Blind(s, later, kid, id) { LateFinds(before, later, kid, id); }
  }

  /** Two lookups are enough to bring the cache there. */
  lemma StaleReached()
    ensures exists before :: JoinsStale(Run(INIT, before), "k") && !Has(Run(INIT, before).unknown, "k")
  {
    var m3 := [Start(1, "b")] + [];
    var m2 := [Resume(0)] + m3;
    var m1 := [Settle(Some(map["a" := 1]))] + m2;
    var s1 := Step(INIT, Start(0, "a"));
    var s2 := Step(s1, Settle(Some(map["a" := 1])));
    var s3 := Step(s2, Resume(0));
    RunCons(INIT, Start(0, "a"), m1, "k", 0);
    RunCons(s1, Settle(Some(map["a" := 1])), m2, "k", 0);
    RunCons(s2, Resume(0), m3, "k", 0);
    RunCons(s3, Start(1, "b"), [], "k", 0);
    assert Run(INIT, [Start(0, "a")] + m1) == Step(s3, Start(1, "b"));
    StaleNow();
  }

  lemma FirstFound()
    ensures var doc := Doc(map["a" := 1], 0);
      Step(Step(Step(INIT, Start(0, "a")), Settle(Some(map["a" := 1]))), Resume(0))
        == Sys(0, Some(doc), [Load(0, Fetched(doc))], [], map[0 := Done("a", 0, Found(doc), 1)])
  {
    var s1 := Step(INIT, Start(0, "a"));
    assert s1 == Sys(0, None, [Load(0, Pending)], [], map[0 := Waiting("a", 0, 0, false, 1)]);
  }

  lemma StaleNow()
    ensures var s := Step(Step(Step(Step(INIT, Start(0, "a")), Settle(Some(map["a" := 1]))), Resume(0)), Start(1, "b"));
      JoinsStale(s, "k") && !Has(s.unknown, "k")
  {
    FirstFound();
  }

  /** So the guard can fail, and overlap makes the blind spot longer than the TTL. */
  lemma OverlapBlindSpot()
    ensures exists before, later, id :: !Has(Run(INIT, before).unknown, "k") && Blind(Run(INIT, before), later, "k", id)
  {
    StaleReached();
    var before :| JoinsStale(Run(INIT, before), "k") && !Has(Run(INIT, before).unknown, "k");
    RotationIff(before, "k");
  }

  /** Whoever waits for the load in flight. */
  ghost predicate Attended(s: Sys) {
    s.InFlight() ==> exists id :: id in s.lookups && Attends(s, id)
  }

  ghost predicate Attends(s: Sys, id: Id)
    requires id in s.lookups
  {
    s.lookups[id].Waiting? && s.lookups[id].load == |s.loads| - 1
  }

  predicate Idle(s: Sys) { forall id :: id in s.lookups ==> s.lookups[id].Done? }

  /** No lookup starts while another is waiting. */
  ghost predicate NonOverlapping(s: Sys, moves: seq<Move>)
    decreases |moves|
  {
    moves != [] ==> (moves[0].Start? ==> Idle(s)) && NonOverlapping(Step(s, moves[0]), moves[1..])
  }

  lemma JoinAttended(s: Sys, id: Id, kid: Kid, startedAt: int, second: bool, awaited: nat)
    ensures Attended(Join(s, id, kid, startedAt, second, awaited))
  {
    assert Attends(Join(s, id, kid, startedAt, second, awaited), id);
  }

  lemma PutAttended(s: Sys, id: Id, pc: Pc)
    requires Attended(s) && (id in s.lookups ==> !s.InFlight() || !Attends(s, id))
    ensures Attended(s.Put(id, pc))
  {
    var t := s.Put(id, pc);
    if s.InFlight() {
      var k :| k in s.lookups && Attends(s, k);
      assert k in t.lookups && Attends(t, k);
    }
  }

  lemma UnknownAttended(s: Sys, u: seq<Negative>)
    requires Attended(s)
    ensures Attended(s.(unknown := u))
  {
    if s.InFlight() {
      var k :| k in s.lookups && Attends(s, k);
      assert Attends(s.(unknown := u), k);
    }
  }

  lemma StepAttended(s: Sys, m: Move)
    requires Attended(s)
    ensures Attended(Step(s, m))
  {
    match m
    case Tick(ms) =>
      if s.InFlight() {
        var k :| k in s.lookups && Attends(s, k);
        assert Attends(Step(s, m), k);
      }
    case Settle(keys) =>
    case Start(id, kid) =>
      if id !in s.lookups {
        var t := s.(unknown := Forget(s.unknown, kid));
        UnknownAttended(s, Forget(s.unknown, kid));
        if Refuses(s, kid) {
          PutAttended(s, id, Done(kid, s.clock, KnownUnknown, 0));
        } else if !Fresh(t) {
          JoinAttended(t, id, kid, t.clock, false, 0);
        } else if kid in t.cache.value.keys {
          PutAttended(t, id, Done(kid, t.clock, Found(t.cache.value), 0));
        } else {
          JoinAttended(t, id, kid, t.clock, true, 0);
        }
      }
    case Resume(id) => if Ready(s, id) { ResumeAttended(s, id); }
  }

  lemma ResumeAttended(s: Sys, id: Id)
    requires Attended(s) && Ready(s, id)
    ensures Attended(ResumeStep(s, id))
  {
    var pc := s.lookups[id];
    match s.loads[pc.load].fetch
    case Fetched(doc) =>
      if pc.kid in doc.keys {
        PutAttended(s, id, Done(pc.kid, pc.startedAt, Found(doc), pc.awaited));
      } else if !pc.second {
        JoinAttended(s, id, pc.kid, pc.startedAt, true, pc.awaited);
      } else {
        var u := Remember(s.unknown, pc.kid, pc.startedAt);
        UnknownAttended(s, u);
        PutAttended(s.(unknown := u), id, Done(pc.kid, pc.startedAt, Missing, pc.awaited));
      }
    case _ => PutAttended(s, id, Done(pc.kid, pc.startedAt, Unreachable, pc.awaited));
  }

  lemma {:induction false} OverlapFree(s: Sys, moves: seq<Move>, kid: Kid, n: nat, t0: int)
    requires Attended(s) && NonOverlapping(s, moves)
    ensures NoStaleStart(s, moves, kid, n, t0)
    decreases |moves|
  {
    if moves != [] {
      StepAttended(s, moves[0]);
      OverlapFree(Step(s, moves[0]), moves[1..], kid, n, t0);
    }
  }

  lemma {:induction false} RunAttended(s: Sys, moves: seq<Move>)
    requires Attended(s)
    ensures Attended(Run(s, moves))
    decreases |moves|
  {
    if moves != [] {
      StepAttended(s, moves[0]);
      RunAttended(Step(s, moves[0]), moves[1..]);
    }
  }

  /** When no lookup starts while another is waiting, the blind spot is one TTL whatever the state it begins in. */
  lemma RotationWithoutOverlap(before: seq<Move>, later: seq<Move>, kid: Kid, id: Id)
    requires NonOverlapping(Run(INIT, before), later)
    ensures !Blind(Run(INIT, before), later, kid, id)
  {
    var s := Run(INIT, before);
    RunAttended(INIT, before);
    OverlapFree(s, later, kid, |s.loads|, s.clock);
    if Blind(s, later, kid, id) { LateFinds(before, later, kid, id); }
  }

  /* ------------------------------------------------------------------- throttling of misses -- */

  /** Whether a move makes an entry in the negative cache. */
  predicate Inserts(s: Sys, m: Move) {
    && m.Resume? && Ready(s, m.id) && s.lookups[m.id].second
    && s.loads[s.lookups[m.id].load].fetch.Fetched? && s.lookups[m.id].kid !in s.loads[s.lookups[m.id].load].fetch.doc.keys
  }

  function Insertions(s: Sys, moves: seq<Move>): nat
    decreases |moves|
  {
    if moves == [] then 0 else (if Inserts(s, moves[0]) then 1 else 0) + Insertions(Step(s, moves[0]), moves[1..])
  }

  /** The kid has an entry until `until`, with at most `k` entries made after it. */
  ghost predicate Held(u: seq<Negative>, kid: Kid, until: int, k: nat) {
    var i := Find(u, kid);
    i < |u| && u[i].until == until && |u| - 1 - i <= k
  }

  lemma FindAt(u: seq<Negative>, kid: Kid, i: nat)
    requires i < |u| && u[i].kid == kid && forall k :: 0 <= k < i ==> u[k].kid != kid
    ensures Find(u, kid) == i
  {
  }

  lemma HeldForget(u: seq<Negative>, kid: Kid, until: int, k: nat, other: Kid)
    requires Held(u, kid, until, k) && other != kid
    ensures Held(Forget(u, other), kid, until, k)
  {
    var i, j := Find(u, kid), Find(u, other);
    if j < |u| { FindAt(Forget(u, other), kid, if j < i then i - 1 else i); }
  }

  /** Remembering another kid evicts this one only when it is the last of a full cache's worth. */
  lemma HeldRemember(u: seq<Negative>, kid: Kid, until: int, k: nat, other: Kid, nowMs: int)
    requires Held(u, kid, until, k) && other != kid && k + 1 < MAX_UNKNOWN_KIDS
    ensures Held(Remember(u, other, nowMs), kid, until, k + 1)
  {
    var i, e := Find(u, kid), Evict(u);
    if |u| >= MAX_UNKNOWN_KIDS { FindAt(e, kid, i - 1); }
    FindAt(Remember(u, other, nowMs), kid, Find(e, kid));
  }

  /** A lookup of the kid that was refused on sight, or started after the entry expired. */
  predicate Throttled(pc: Pc, kid: Kid, until: int) {
    pc.kid == kid ==> pc.startedAt >= until || (pc.Done? && pc.result.KnownUnknown? && pc.awaited == 0)
  }

  ghost predicate Throttling(s: Sys, before: set<Id>, kid: Kid, until: int, k: nat) {
    && (s.clock < until ==> Held(s.unknown, kid, until, k))
    && (forall id :: id in s.lookups && s.lookups[id].Waiting? ==> Throttled(s.lookups[id], kid, until))
    && (forall id :: id in s.lookups && id !in before ==> Throttled(s.lookups[id], kid, until))
  }

  /** The only lookup a start or a resumption touches is its own. */
  lemma StartEffect(s: Sys, id: Id, k: Kid)
    ensures var t := StartStep(s, id, k);
      && t.clock == s.clock && id in t.lookups && t.lookups == s.lookups[id := t.lookups[id]]
      && t.lookups[id].kid == k && t.lookups[id].startedAt == s.clock
      && (Refuses(s, k) ==> t.lookups[id] == Done(k, s.clock, KnownUnknown, 0) && t.unknown == s.unknown)
      && (!Refuses(s, k) ==> t.unknown == Forget(s.unknown, k))
  {
  }

  lemma ResumeEffect(s: Sys, id: Id)
    requires Ready(s, id)
    ensures var t, pc := ResumeStep(s, id), s.lookups[id];
      && t.clock == s.clock && id in t.lookups && t.lookups == s.lookups[id := t.lookups[id]]
      && t.lookups[id].kid == pc.kid && t.lookups[id].startedAt == pc.startedAt
      && t.unknown == if Inserts(s, Resume(id)) then Remember(s.unknown, pc.kid, pc.startedAt) else s.unknown
  {
  }

  lemma ThrottlingStart(s: Sys, id: Id, k: Kid, before: set<Id>, kid: Kid, until: int, n: nat)
    requires Throttling(s, before, kid, until, n) && id !in s.lookups
    ensures Throttling(StartStep(s, id, k), before, kid, until, n)
  {
    StartEffect(s, id, k);
    if s.clock < until && k != kid { HeldForget(s.unknown, kid, until, n, k); }
  }

  lemma ThrottlingResume(s: Sys, id: Id, before: set<Id>, kid: Kid, until: int, n: nat)
    requires Throttling(s, before, kid, until, n) && Ready(s, id) && s.lookups[id].startedAt <= s.clock
    requires Inserts(s, Resume(id)) ==> n + 1 < MAX_UNKNOWN_KIDS
    ensures Throttling(ResumeStep(s, id), before, kid, until, if Inserts(s, Resume(id)) then n + 1 else n)
  {
    ResumeEffect(s, id);
    assert Throttled(s.lookups[id], kid, until);
    if s.clock < until && Inserts(s, Resume(id)) {
      HeldRemember(s.unknown, kid, until, n, s.lookups[id].kid, s.lookups[id].startedAt);
    }
  }

  lemma ThrottlingStep(s: Sys, m: Move, before: set<Id>, kid: Kid, until: int, n: nat)
    requires Inv(s) && Throttling(s, before, kid, until, n) && (Inserts(s, m) ==> n + 1 < MAX_UNKNOWN_KIDS)
    ensures Throttling(Step(s, m), before, kid, until, if Inserts(s, m) then n + 1 else n)
  {
    match m
    case Tick(ms) =>
    case Settle(keys) =>
    case Start(id, k) => if id !in s.lookups { ThrottlingStart(s, id, k, before, kid, until, n); }
    case Resume(id) =>
      if Ready(s, id) {
        assert PcOk(s, s.lookups[id]);
        ThrottlingResume(s, id, before, kid, until, n);
      }
  }

  lemma {:induction false} RunThrottling(s: Sys, moves: seq<Move>, before: set<Id>, kid: Kid, until: int, n: nat)
    requires Inv(s) && Throttling(s, before, kid, until, n) && n + Insertions(s, moves) < MAX_UNKNOWN_KIDS
    ensures Throttling(Run(s, moves), before, kid, until, n + Insertions(s, moves))
    decreases |moves|
  {
    if moves != [] {
      StepKeeps(s, moves[0]);
      ThrottlingStep(s, moves[0], before, kid, until, n);
      RunThrottling(Step(s, moves[0]), moves[1..], before, kid, until, if Inserts(s, moves[0]) then n + 1 else n);
    }
  }

  /** A lookup is about to miss, its kid has no entry, and no other lookup waits for that kid. */
  predicate MissesAlone(s: Sys, id: Id) {
    && Inserts(s, Resume(id)) && !Has(s.unknown, s.lookups[id].kid)
    && forall i :: i in s.lookups && s.lookups[i].Waiting? && i != id ==> s.lookups[i].kid != s.lookups[id].kid
  }

  /** Just after a lookup of the kid has missed: the state the miss leaves, with the kid's entry last. */
  lemma MissThrottles(first: seq<Move>, id: Id)
    requires MissesAlone(Run(INIT, first), id)
    ensures var s := Run(INIT, first); var t := Step(s, Resume(id));
      Inv(t) && Throttling(t, s.lookups.Keys, s.lookups[id].kid, s.lookups[id].startedAt + UNKNOWN_KID_NEGATIVE_TTL_MS, 0)
  {
    RunKeeps(INIT, first);
    var s := Run(INIT, first);
    var pc := s.lookups[id];
    var t := Step(s, Resume(id));
    StepKeeps(s, Resume(id));
    var e := Evict(s.unknown);
    assert Find(e, pc.kid) == |e|;
    FindAt(t.unknown, pc.kid, |e|);
    assert Held(t.unknown, pc.kid, pc.startedAt + UNKNOWN_KID_NEGATIVE_TTL_MS, 0);
  }

  /** The state after a miss of `id` and what follows. */
  function AfterMiss(first: seq<Move>, id: Id, between: seq<Move>): Sys { Run(Step(Run(INIT, first), Resume(id)), between) }

  /**
   After a lookup has missed, and while fewer than MAX_UNKNOWN_KIDS other
   entries are made, a lookup of the same kid that starts either does so at
   least a TTL after the first one did or is refused without touching the network.
   */
  lemma MissesAreApart(first: seq<Move>, id: Id, between: seq<Move>, other: Id)
    requires MissesAlone(Run(INIT, first), id) && Insertions(Step(Run(INIT, first), Resume(id)), between) < MAX_UNKNOWN_KIDS
    requires other !in Run(INIT, first).lookups && other !in AfterMiss(first, id, between).lookups
    ensures var pc := Run(INIT, first).lookups[id];
      var v := Step(AfterMiss(first, id, between), Start(other, pc.kid));
      && other in v.lookups && v.lookups[other].kid == pc.kid
      && Throttled(v.lookups[other], pc.kid, pc.startedAt + UNKNOWN_KID_NEGATIVE_TTL_MS)
  {
    var s := Run(INIT, first);
    var t, pc := Step(s, Resume(id)), s.lookups[id];
    var until := pc.startedAt + UNKNOWN_KID_NEGATIVE_TTL_MS;
    MissThrottles(first, id);
    RunThrottling(t, between, s.lookups.Keys, pc.kid, until, 0);
    var u := Run(t, between);
    StartEffect(u, other, pc.kid);
    ThrottlingStart(u, other, pc.kid, s.lookups.Keys, pc.kid, until, Insertions(t, between));
  }

  /** Without overlap, whoever waits waits alone, and no entry for its kid stands. */
  ghost predicate Solo(s: Sys) {
    && DistinctKids(s.unknown)
    && forall id, i :: id in s.lookups && i in s.lookups && s.lookups[id].Waiting? ==>
      !Has(s.unknown, s.lookups[id].kid) && (s.lookups[i].Waiting? ==> i == id)
  }

  lemma ForgetGone(u: seq<Negative>, kid: Kid)
    requires DistinctKids(u)
    ensures !Has(Forget(u, kid), kid)
  {
    var i, f := Find(u, kid), Forget(u, kid);
    forall k | 0 <= k < |f| ensures f[k].kid != kid {
      if i < |u| { assert f[k] == u[if k < i then k else k + 1]; }
    }
  }

  lemma SoloStep(s: Sys, m: Move)
    requires Inv(s) && Solo(s) && (m.Start? ==> Idle(s))
    ensures Solo(Step(s, m))
  {
    StepKeeps(s, m);
    if m.Start? && m.id !in s.lookups {
      StartEffect(s, m.id, m.kid);
      ForgetGone(s.unknown, m.kid);
    }
    if m.Resume? && Ready(s, m.id) { ResumeEffect(s, m.id); }
  }

  lemma {:induction false} RunSolo(s: Sys, moves: seq<Move>)
    requires Inv(s) && Solo(s) && NonOverlapping(s, moves)
    ensures Solo(Run(s, moves))
    decreases |moves|
  {
    if moves != [] {
      SoloStep(s, moves[0]);
      StepKeeps(s, moves[0]);
      RunSolo(Step(s, moves[0]), moves[1..]);
    }
  }

  /** A lookup keeps its kid and its start, and once it has ended it stays as it is. */
  lemma {:induction false} LookupStays(s: Sys, moves: seq<Move>, id: Id)
    requires id in s.lookups
    ensures id in Run(s, moves).lookups
    ensures Run(s, moves).lookups[id].kid == s.lookups[id].kid && Run(s, moves).lookups[id].startedAt == s.lookups[id].startedAt
    ensures s.lookups[id].Done? ==> Run(s, moves).lookups[id] == s.lookups[id]
    decreases |moves|
  {
    if moves != [] {
      var m := moves[0];
      if m.Start? && m.id !in s.lookups { StartEffect(s, m.id, m.kid); }
      if m.Resume? && Ready(s, m.id) { ResumeEffect(s, m.id); }
      LookupStays(Step(s, m), moves[1..], id);
    }
  }

  lemma MissIsLate(v: Sys, after: seq<Move>, other: Id, kid: Kid, until: int)
    requires other in v.lookups && v.lookups[other].kid == kid && Throttled(v.lookups[other], kid, until)
    ensures other in Run(v, after).lookups
    ensures var pc := Run(v, after).lookups[other]; pc.Done? && pc.result.Missing? ==> pc.startedAt >= until
  {
    LookupStays(v, after, other);
  }

  /**
   Two misses of one kid, in a run without overlap, start a TTL apart unless a
   full cache's worth of entries was made between the first and the second's start.
   */
  lemma MissesAreApartWithoutOverlap(first: seq<Move>, id: Id, between: seq<Move>, other: Id, after: seq<Move>)
    requires NonOverlapping(INIT, first) && Inserts(Run(INIT, first), Resume(id))
    requires Insertions(Step(Run(INIT, first), Resume(id)), between) < MAX_UNKNOWN_KIDS
    requires other !in Run(INIT, first).lookups && other !in AfterMiss(first, id, between).lookups
    ensures var pc := Run(INIT, first).lookups[id];
      var w := Run(Step(AfterMiss(first, id, between), Start(other, pc.kid)), after);
      && other in w.lookups
      && (w.lookups[other].Done? && w.lookups[other].result.Missing? ==>
            w.lookups[other].startedAt >= pc.startedAt + UNKNOWN_KID_NEGATIVE_TTL_MS)
  {
    var pc := Run(INIT, first).lookups[id];
    MissIsAlone(first, id);
    MissesAreApart(first, id, between, other);
    MissIsLate(Step(AfterMiss(first, id, between), Start(other, pc.kid)), after, other, pc.kid, pc.startedAt + UNKNOWN_KID_NEGATIVE_TTL_MS);
  }

  lemma MissIsAlone(first: seq<Move>, id: Id)
    requires NonOverlapping(INIT, first) && Inserts(Run(INIT, first), Resume(id))
    ensures MissesAlone(Run(INIT, first), id)
  {
    RunSolo(INIT, first);
    assert Run(INIT, first).lookups[id].Waiting?;
  }
}
