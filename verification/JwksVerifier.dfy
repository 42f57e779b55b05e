/**
 `resolveKey`, `loadJwks` and `rememberUnknownKid` as they run, over the closure
 variables they share, with other lookups running at every await. Each
 synchronous stretch is proved to be one move of JwksCache.
 */
module JwksVerifier {
  import opened JwksCache
  import opened JwksTheorems
  import opened Wrappers

  /** What a lookup cannot control: the moves of others during its n-th await, and what the load it awaits brings. */
  datatype World = World(others: nat -> seq<Move>, fetch: nat -> Option<map<Kid, Key>>)

  predicate MoveOf(m: Move, me: Id) {
    (m.Start? && m.id == me) || (m.Resume? && m.id == me)
  }

  ghost predicate Fair(w: World, me: Id) {
    forall n: nat, i :: 0 <= i < |w.others(n)| ==> !MoveOf(w.others(n)[i], me)
  }

  lemma {:induction false} RunConcat(s: Sys, a: seq<Move>, b: seq<Move>)
    ensures Run(s, a + b) == Run(Run(s, a), b)
    decreases |a|
  {
    if a == [] {
      assert a + b == b;
    } else {
      RunConcat(Step(s, a[0]), a[1..], b);
      assert (a + b)[1..] == a[1..] + b;
    }
  }

  lemma Extend(history: seq<Move>, m: Move)
    ensures Run(INIT, history + [m]) == Step(Run(INIT, history), m)
  {
    RunConcat(INIT, history, [m]);
    var s := Run(INIT, history);
    assert Run(s, [m]) == Run(Step(s, m), []);
  }

  lemma {:induction false} OthersLeaveMe(s: Sys, moves: seq<Move>, me: Id)
    requires me in s.lookups && forall i :: 0 <= i < |moves| ==> !MoveOf(moves[i], me)
    ensures me in Run(s, moves).lookups && Run(s, moves).lookups[me] == s.lookups[me]
    ensures |s.loads| <= |Run(s, moves).loads|
    decreases |moves|
  {
    if moves != [] { OthersLeaveMe(Step(s, moves[0]), moves[1..], me); }
  }

  /** A lookup waits for a load that began, and only the last can still be in flight. */
  lemma WaitsForLast(history: seq<Move>, s: Sys, me: Id)
    requires s == Run(INIT, history) && me in s.lookups && s.lookups[me].Waiting?
    ensures var load := s.lookups[me].load;
      load < |s.loads| && (s.loads[load].fetch.Pending? ==> s.InFlight() && load == |s.loads| - 1)
  {
    RunKeeps(INIT, history);
    assert PcOk(s, s.lookups[me]);
  }

  ghost predicate Alone(w: World) { forall n: nat :: w.others(n) == [] }

  /** A load as it settles. */
  function Brought(keys: Option<map<Kid, Key>>, clock: int): Fetch {
    if keys.Some? then Fetched(Doc(keys.value, clock)) else Broken
  }

  predicate HasUntil(u: seq<Negative>, kid: Kid, until: int) { exists i :: 0 <= i < |u| && u[i] == Negative(kid, until) }

  /** A lookup that misses leaves its kid an entry for a TTL from its start. */
  lemma MissRemembers(s: Sys, me: Id)
    requires Ready(s, me)
    ensures var t := ResumeStep(s, me); var pc := t.lookups[me];
      pc.Done? && pc.result.Missing? ==> s.lookups[me].second && HasUntil(t.unknown, pc.kid, pc.startedAt + UNKNOWN_KID_NEGATIVE_TTL_MS)
  {
    var kid, until := s.lookups[me].kid, s.lookups[me].startedAt + UNKNOWN_KID_NEGATIVE_TTL_MS;
    var e := Evict(s.unknown);
    assert Set(e, kid, until)[Find(e, kid)] == Negative(kid, until);
  }

  /** One use of a load that nobody else interferes with. */
  predicate UsedAlone(fetch: Fetch, was: Pc, now: Pc)
    requires was.Waiting?
  {
    if !was.second && fetch.Fetched? && was.kid !in fetch.doc.keys then now.Waiting?
    else now.Done? && FromFetch(fetch, was.kid, now.result)
  }

  /** The whole lookup, likewise, by the state it starts in and what its loads would bring. */
  ghost predicate AnswersAlone(s: Sys, kid: Kid, first: Option<map<Kid, Key>>, second: Option<map<Kid, Key>>, r: Result, awaited: nat) {
    if Standing(s, kid) then r == KnownUnknown && awaited == 0
    else if Young(s) && kid in s.cache.value.keys then r == Found(s.cache.value) && awaited == 0
    else if !Young(s) && first.Some? && kid !in first.value then FromFetch(Brought(second, s.clock), kid, r) && awaited == 2
    else FromFetch(Brought(first, s.clock), kid, r) && awaited == 1
  }

  class Verifier {
    var clock: int
    var cache: Option<Doc>
    var loads: seq<Load>
    var unknown: seq<Negative>
    var lookups: map<Id, Pc>
    ghost var history: seq<Move>

    function Now(): Sys
      reads this
    {
      Sys(clock, cache, loads, unknown, lookups)
    }

    ghost predicate Valid()
      reads this
    {
      Now() == Run(INIT, history)
    }

    constructor ()
      ensures Valid() && history == []
    {
      clock, cache, loads, unknown, lookups, history := 0, None, [], [], map[], [];
    }

    /** The kid is refused for a TTL, and the map stays within its size at the cost of its oldest entry at most. */
    method RememberUnknownKid(kid: Kid, nowMs: int)
      modifies this`unknown
      ensures Remembered(old(unknown), unknown, kid, nowMs + UNKNOWN_KID_NEGATIVE_TTL_MS)
      ensures unknown == Remember(old(unknown), kid, nowMs)
    {
      RememberMeans(unknown, kid, nowMs);
      if |unknown| >= MAX_UNKNOWN_KIDS { unknown := unknown[1..]; }
      var entry, i := Negative(kid, nowMs + UNKNOWN_KID_NEGATIVE_TTL_MS), Find(unknown, kid);
      if i < |unknown| {
        unknown := unknown[i := entry];
      } else {
        unknown := unknown + [entry];
      }
    }

    /**
     `loadJwks` up to its await: a load is begun exactly when none is in flight, so
     there is one in flight afterwards, and it is what the caller waits for.
     */
    method LoadJwks(me: Id, kid: Kid, startedAt: int, second: bool, awaited: nat)
      modifies this`loads, this`lookups
      ensures Now().InFlight() && old(loads) <= loads
      ensures |loads| == |old(loads)| + if old(Now().InFlight()) then 0 else 1
      ensures !old(Now().InFlight()) ==> loads[|loads| - 1].begunAt == clock
      ensures lookups == old(lookups)[me := Waiting(kid, startedAt, |loads| - 1, second, awaited + 1)]
      ensures Now() == Join(old(Now()), me, kid, startedAt, second, awaited)
    {
      if loads == [] || !loads[|loads| - 1].fetch.Pending? { loads := loads + [Load(clock, Pending)]; }
      lookups := lookups[me := Waiting(kid, startedAt, |loads| - 1, second, awaited + 1)];
    }

    /** Waiting for a load: others run, and when this resumes the load has settled. */
    method Await(me: Id, w: World, n: nat)
      requires Valid() && Fair(w, me) && me in lookups && lookups[me].Waiting?
      modifies this
      ensures Valid() && old(history) <= history
      ensures me in lookups && lookups[me] == old(lookups[me]) && Ready(Now(), me)
      ensures w.others(n) == [] && !old(Ready(Now(), me)) ==> clock == old(clock) && loads[lookups[me].load].fetch == Brought(w.fetch(n), clock)
    {
      OthersLeaveMe(Now(), w.others(n), me);
      RunConcat(INIT, history, w.others(n));
      history := history + w.others(n);
      var s := Run(Now(), w.others(n));
      WaitsForLast(history, s, me);
      if s.loads[s.lookups[me].load].fetch.Pending? {
        Extend(history, Settle(w.fetch(n)));
        history := history + [Settle(w.fetch(n))];
        s := Step(s, Settle(w.fetch(n)));
      }
      clock, cache, loads, unknown, lookups := s.clock, s.cache, s.loads, s.unknown, s.lookups;
    }

    /** The stretch before the first await. */
    method Begin(me: Id, kid: Kid)
      requires Valid() && me !in lookups
      modifies this
      ensures Valid() && history == old(history) + [Start(me, kid)]
      ensures Now() == StartStep(old(Now()), me, kid)
    {
      Extend(history, Start(me, kid));
      history := history + [Start(me, kid)];
      var nowMs, i := clock, Find(unknown, kid);
      if i < |unknown| {
        if nowMs < unknown[i].until {
          lookups := lookups[me := Done(kid, nowMs, KnownUnknown, 0)];
          return;
        }
        unknown := unknown[..i] + unknown[i + 1..];
      }
      var isFresh := cache.Some? && nowMs - cache.value.fetchedAt < JWKS_CACHE_FLOOR_MS;
      if !isFresh {
        LoadJwks(me, kid, nowMs, false, 0);
      } else if kid in cache.value.keys {
        lookups := lookups[me := Done(kid, nowMs, Found(cache.value), 0)];
      } else {
        LoadJwks(me, kid, nowMs, true, 0);
      }
    }

    /** The stretch after an await. */
    method Continue(me: Id)
      requires Valid() && Ready(Now(), me)
      modifies this
      ensures Valid() && history == old(history) + [Resume(me)]
      ensures Now() == ResumeStep(old(Now()), me)
    {
      Extend(history, Resume(me));
      history := history + [Resume(me)];
      var pc := lookups[me];
      match loads[pc.load].fetch {
        case Fetched(doc) =>
          if pc.kid in doc.keys {
            lookups := lookups[me := Done(pc.kid, pc.startedAt, Found(doc), pc.awaited)];
          } else if !pc.second {
            LoadJwks(me, pc.kid, pc.startedAt, true, pc.awaited);
          } else {
            RememberUnknownKid(pc.kid, pc.startedAt);
            lookups := lookups[me := Done(pc.kid, pc.startedAt, Missing, pc.awaited)];
          }
        case Broken =>
          lookups := lookups[me := Done(pc.kid, pc.startedAt, Unreachable, pc.awaited)];
      }
    }

    /** Wait for a load and use it. Only the first may leave the lookup waiting again, for another. */
    method UseLoad(me: Id, w: World, n: nat)
      requires Valid() && Fair(w, me) && me in lookups && lookups[me].Waiting?
      modifies this
      ensures Valid() && old(history) <= history
      ensures me in lookups && lookups[me].kid == old(lookups[me].kid) && lookups[me].startedAt == old(lookups[me].startedAt)
      ensures lookups[me].Waiting? ==> !old(lookups[me].second) && lookups[me].second && lookups[me].awaited == old(lookups[me].awaited) + 1
      ensures lookups[me].Done? ==> lookups[me].awaited == old(lookups[me].awaited)
      ensures lookups[me].Done? ==> exists l :: 0 <= l < |loads| && FromFetch(loads[l].fetch, lookups[me].kid, lookups[me].result)
      ensures lookups[me].Done? && lookups[me].result.Missing? ==>
        old(lookups[me].second) && HasUntil(unknown, lookups[me].kid, lookups[me].startedAt + UNKNOWN_KID_NEGATIVE_TTL_MS)
      ensures Alone(w) && !old(Ready(Now(), me)) ==>
        && clock == old(clock) && UsedAlone(Brought(w.fetch(n), clock), old(lookups[me]), lookups[me])
        && (lookups[me].Waiting? ==> !Ready(Now(), me))
    {
      Await(me, w, n);
      GoesOnBy(Now(), me);
      MissRemembers(Now(), me);
      ghost var l := lookups[me].load;
      Continue(me);
      assert history[..|old(history)|] == old(history);
    }

    /** What the invariant says of a lookup that has ended. */
    lemma DoneFacts(me: Id)
      requires Valid() && me in lookups && lookups[me].Done?
      ensures lookups[me].awaited <= 2
      ensures lookups[me].result.Found? ==>
        lookups[me].kid in lookups[me].result.doc.keys && lookups[me].startedAt - lookups[me].result.doc.fetchedAt < JWKS_CACHE_FLOOR_MS
    {
      RunKeeps(INIT, history);
      assert PcOk(Now(), lookups[me]);
    }

    /**
     The whole lookup, under any interference. It is refused on sight exactly when
     an unexpired entry stands as it starts, and answered from the cache, without
     touching the network, exactly when the cache is young and lists the kid.
     Otherwise it waits for one load, or for a second if the cache was old and the
     first lacks the kid, and answers what the last of them brought; a miss is
     remembered for a TTL from its start. Alone, its answer is settled by the two
     fetches.
     */
    method ResolveKey(me: Id, kid: Kid, w: World) returns (r: Result, awaited: nat)
      requires Valid() && me !in lookups && Fair(w, me)
      modifies this
      ensures Valid() && old(history) <= history
      ensures me in lookups && lookups[me] == Done(kid, old(clock), r, awaited) && awaited <= 2
      ensures r.KnownUnknown? <==> Standing(old(Now()), kid)
      ensures !Standing(old(Now()), kid) && Young(old(Now())) && kid in old(cache).value.keys ==>
        r == Found(old(cache).value) && awaited == 0 && loads == old(loads)
      ensures awaited == 0 ==> Standing(old(Now()), kid) || (Young(old(Now())) && kid in old(cache).value.keys)
      ensures awaited > 0 ==> exists l :: 0 <= l < |loads| && FromFetch(loads[l].fetch, kid, r)
      ensures awaited > 0 && Young(old(Now())) ==> awaited == 1
      ensures r.Missing? && !Young(old(Now())) ==> awaited == 2
      ensures r.Missing? ==> HasUntil(unknown, kid, old(clock) + UNKNOWN_KID_NEGATIVE_TTL_MS)
      ensures r.Found? ==> kid in r.doc.keys && old(clock) - r.doc.fetchedAt < JWKS_CACHE_FLOOR_MS
      ensures Alone(w) && !old(Now().InFlight()) ==> AnswersAlone(old(Now()), kid, w.fetch(0), w.fetch(1), r, awaited)
    {
      EntriesDistinct();
      BeginsBy(Now(), me, kid);
      Begin(me, kid);
      if lookups[me].Waiting? {
        UseLoad(me, w, 0);
        if lookups[me].Waiting? { UseLoad(me, w, 1); }
      }
      DoneFacts(me);
      r, awaited := lookups[me].result, lookups[me].awaited;
    }

    lemma EntriesDistinct()
      requires Valid()
      ensures DistinctKids(unknown)
    {
      RunKeeps(INIT, history);
    }
  }
}
