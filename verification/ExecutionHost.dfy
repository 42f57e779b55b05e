/**
 The chokepoint as it runs: the call counter, the reference resolver, the shared
 contexts and `withCapabilityAudit`, with calls of any execution running at every
 await. Each synchronous stretch is proved to be one move of Execution.
 */
module ExecutionHost {
  import opened Execution
  import opened Wrappers

  /** What a call cannot control: the others, the freshness check, and what its body mints and how it ends. */
  datatype World = World(others: nat -> seq<Move>, current: bool, mints: seq<(Ref, Slug)>, ok: bool)

  datatype Outcome = Returned | ThrewBudget | ThrewStale | ThrewBody

  predicate MoveOf(m: Move, me: Call) { !m.Dispose? && m.c == me }

  ghost predicate Apart(w: World, me: Call) {
    forall n: nat, i :: 0 <= i < |w.others(n)| ==> !MoveOf(w.others(n)[i], me)
  }

  lemma OtherLeavesMe(s: Sys, m: Move, me: Call)
    requires HasCtx(s, me) && !MoveOf(m, me)
    ensures HasCtx(Step(s, m), me) && Step(s, m).calls[me] == s.calls[me] && Step(s, m).limit == s.limit
  {
  }

  lemma {:induction false} OthersLeaveMe(s: Sys, moves: seq<Move>, me: Call)
    requires HasCtx(s, me) && forall i :: 0 <= i < |moves| ==> !MoveOf(moves[i], me)
    ensures HasCtx(Run(s, moves), me) && Run(s, moves).calls[me] == s.calls[me] && Run(s, moves).limit == s.limit
    decreases |moves|
  {
    if moves != [] {
      OtherLeavesMe(s, moves[0], me);
      OthersLeaveMe(Step(s, moves[0]), moves[1..], me);
    }
  }

  lemma Extend(limit: int, history: seq<Move>, m: Move)
    ensures Run(Init(limit), history + [m]) == Step(Run(Init(limit), history), m)
  {
    RunConcat(Init(limit), history, [m]);
    var s := Run(Init(limit), history);
    assert Run(s, [m]) == Run(Step(s, m), []);
  }

  /** A call belongs to one execution for as long as it lives. */
  lemma SameExecution(limit: int, earlier: seq<Move>, later: seq<Move>, me: Call)
    requires earlier <= later && HasCtx(Run(Init(limit), earlier), me)
    ensures HasCtx(Run(Init(limit), later), me) && ExecOf(Run(Init(limit), later), me) == ExecOf(Run(Init(limit), earlier), me)
  {
    var rest := later[|earlier|..];
    assert later == earlier + rest;
    RunConcat(Init(limit), earlier, rest);
    RunSameExecution(Run(Init(limit), earlier), rest, me);
  }

  lemma {:induction false} RunSameExecution(s: Sys, moves: seq<Move>, me: Call)
    requires HasCtx(s, me)
    ensures HasCtx(Run(s, moves), me) && ExecOf(Run(s, moves), me) == ExecOf(s, me)
    decreases |moves|
  {
    if moves != [] { RunSameExecution(Step(s, moves[0]), moves[1..], me); }
  }

  class Host {
    const limit: int
    var contexts: map<Exec, nat>
    var ctxs: seq<Ctx>
    var calls: map<Call, Pc>
    var events: seq<Event>
    var minted: seq<Mint>
    ghost var history: seq<Move>

    function Now(): Sys
      reads this
    {
      Sys(limit, contexts, ctxs, calls, events, minted)
    }

    ghost predicate Valid()
      reads this
    {
      Now() == Run(Init(limit), history)
    }

    ghost predicate At(me: Call, stage: Stage)
      reads this
    {
      Valid() && HasCtx(Now(), me) && calls[me].stage == stage
    }

    constructor (limit: int)
      ensures Valid() && this.limit == limit && history == []
    {
      this.limit := limit;
      contexts, ctxs, calls, events, minted, history := map[], [], map[], [], [], [];
    }

    /** An await: the others run. */
    method Await(me: Call, w: World, n: nat)
      requires Valid() && HasCtx(Now(), me) && Apart(w, me)
      modifies this
      ensures Valid() && history == old(history) + w.others(n)
      ensures HasCtx(Now(), me) && calls[me] == old(calls[me])
    {
      OthersLeaveMe(Now(), w.others(n), me);
      RunConcat(Init(limit), history, w.others(n));
      var s := Run(Now(), w.others(n));
      contexts, ctxs, calls, events, minted := s.contexts, s.ctxs, s.calls, s.events, s.minted;
      history := history + w.others(n);
    }

    /** The memo: built on first use, then shared until it is disposed of. */
    method ContextFor(e: Exec, builds: bool) returns (g: nat)
      modifies this`contexts, this`ctxs
      ensures Now() == Execution.ContextFor(old(Now()), e, builds)
      ensures e in contexts && g == contexts[e]
    {
      if e !in contexts {
        contexts := contexts[e := |ctxs|];
        ctxs := ctxs + [Ctx(e, 0, map[], builds)];
      }
      g := contexts[e];
    }

    method Dispose(e: Exec)
      requires Valid()
      modifies this
      ensures Valid() && history == old(history) + [Move.Dispose(e)]
      ensures e !in contexts && ctxs == old(ctxs)
    {
      Extend(limit, history, Move.Dispose(e));
      contexts, history := contexts - {e}, history + [Move.Dispose(e)];
    }

    /** `counter.next()`: synchronous, so no two calls of a context get one number. */
    method Next(me: Call) returns (number: nat)
      requires At(me, Bound)
      modifies this
      ensures At(me, Charged) && history == old(history) + [Charge(me)]
      ensures number == calls[me].number == old(ctxs[calls[me].ctx].used) + 1 && !calls[me].ran
    {
      NotRun(me);
      Extend(limit, history, Charge(me));
      var g := calls[me].ctx;
      number := ctxs[g].used + 1;
      ctxs := ctxs[g := ctxs[g].(used := number)];
      calls, history := calls[me := calls[me].(number := number, stage := Charged)], history + [Charge(me)];
    }

    /** A body begins only after the freshness check. */
    lemma NotRun(me: Call)
      requires Valid() && HasCtx(Now(), me) && (calls[me].stage.Bound? || calls[me].stage.Charged? || calls[me].stage.Guarding?)
      ensures !calls[me].ran
    {
      RunKeeps(Init(limit), history);
      assert PcOk(Now(), calls[me]);
    }

    method Record(me: Call, kind: Kind)
      requires HasCtx(Now(), me)
      modifies this`events
      ensures Now() == Log(old(Now()), me, kind)
    {
      events := events + [Event(me, ctxs[calls[me].ctx].exec, calls[me].number, kind)];
    }

    /** Records the start, then compares the number with the budget. */
    method Open(me: Call) returns (within: bool)
      requires At(me, Charged)
      modifies this
      ensures At(me, if within then Guarding else Ending(false)) && history == old(history) + [LogStarted(me)]
      ensures within == (old(calls[me].number) <= limit)
      ensures calls[me].number == old(calls[me].number) && calls[me].ran == old(calls[me].ran)
    {
      Extend(limit, history, LogStarted(me));
      Record(me, Started);
      within := calls[me].number <= limit;
      calls, history := calls[me := calls[me].(stage := if within then Guarding else Ending(false))], history + [LogStarted(me)];
    }

    method AssertFresh(me: Call, current: bool)
      requires At(me, Guarding)
      modifies this
      ensures At(me, if current then Running else Ending(false)) && history == old(history) + [Guard(me, current)]
      ensures calls[me].number == old(calls[me].number) && (calls[me].ran <==> current || old(calls[me].ran))
    {
      Extend(limit, history, Guard(me, current));
      calls := calls[me := if current then calls[me].(stage := Running, ran := true) else calls[me].(stage := Ending(false))];
      history := history + [Guard(me, current)];
    }

    /** `customers.mint`, with the UUID it drew. */
    method MintReference(me: Call, ref: Ref, slug: Slug)
      requires At(me, Running) && IsFresh(Now(), ref)
      modifies this
      ensures At(me, Running) && history == old(history) + [MintRef(me, ref, slug)] && calls == old(calls)
      ensures Resolve(Now(), calls[me].ctx, ref) == Some(slug)
    {
      Extend(limit, history, MintRef(me, ref, slug));
      var g := calls[me].ctx;
      ctxs := ctxs[g := ctxs[g].(slugs := ctxs[g].slugs[ref := slug])];
      minted, history := minted + [Mint(g, ref, slug)], history + [MintRef(me, ref, slug)];
    }

    /** `customers.resolve`: a slug exactly for a reference this execution's context minted. */
    method ResolveReference(me: Call, ref: Ref) returns (slug: Option<Slug>)
      requires At(me, Running)
      ensures slug.Some? ==> Mint(calls[me].ctx, ref, slug.value) in minted
      ensures slug.None? ==> forall l :: Mint(calls[me].ctx, ref, l) !in minted
    {
      RunReferenced(Init(limit), history);
      var slugs := ctxs[calls[me].ctx].slugs;
      slug := if ref in slugs then Some(slugs[ref]) else None;
      assert slug == Resolve(Now(), calls[me].ctx, ref);
    }

    /** The body: it mints references between awaits, and then returns or throws. */
    method Body(me: Call, w: World)
      requires At(me, Running) && Apart(w, me)
      modifies this
      ensures At(me, Ending(w.ok)) && old(history) <= history
      ensures calls[me].number == old(calls[me].number) && calls[me].ran == old(calls[me].ran)
    {
      for i := 0 to |w.mints|
        invariant At(me, Running) && old(history) <= history
        invariant calls[me].number == old(calls[me].number) && calls[me].ran == old(calls[me].ran)
      {
        Await(me, w, 2 + i);
        if IsFresh(Now(), w.mints[i].0) { MintReference(me, w.mints[i].0, w.mints[i].1); }
      }
      Await(me, w, 2 + |w.mints|);
      Extend(limit, history, Finish(me, w.ok));
      calls, history := calls[me := calls[me].(stage := Ending(w.ok))], history + [Finish(me, w.ok)];
    }

    method Close(me: Call, ok: bool)
      requires At(me, Ending(ok))
      modifies this
      ensures At(me, Ended(ok)) && history == old(history) + [LogEnded(me)]
      ensures calls[me].number == old(calls[me].number) && calls[me].ran == old(calls[me].ran)
    {
      Extend(limit, history, LogEnded(me));
      Record(me, if ok then Completed else Failed);
      calls, history := calls[me := calls[me].(stage := Ended(ok))], history + [LogEnded(me)];
    }

    /** The freshness check, last thing before the body. */
    method CheckAndRun(me: Call, w: World) returns (outcome: Outcome)
      requires At(me, Guarding) && Apart(w, me) && !calls[me].ran
      modifies this
      ensures At(me, Ending(outcome.Returned?)) && old(history) <= history
      ensures calls[me].number == old(calls[me].number) && (calls[me].ran <==> w.current)
      ensures outcome == if !w.current then ThrewStale else if w.ok then Returned else ThrewBody
    {
      AssertFresh(me, w.current);
      Await(me, w, 1);
      if !w.current { return ThrewStale; }
      Body(me, w);
      outcome := if w.ok then Returned else ThrewBody;
    }

    /**
     Charge, record, check the budget, check freshness, run, record: the body
     runs exactly when the number is within budget and the run is still current,
     and whatever happens the call ends with its audit trail complete.
     */
    method WithCapabilityAudit(me: Call, w: World) returns (outcome: Outcome)
      requires At(me, Bound) && Apart(w, me)
      modifies this
      ensures old(history) <= history && At(me, Ended(outcome.Returned?))
      ensures calls[me].number == old(ctxs[calls[me].ctx].used) + 1
      ensures calls[me].ran <==> calls[me].number <= limit && w.current
      ensures outcome == if calls[me].number > limit then ThrewBudget else if !w.current then ThrewStale else if w.ok then Returned else ThrewBody
    {
      var number := Next(me);
      var within := Open(me);
      Await(me, w, 0);
      if within {
        outcome := CheckAndRun(me, w);
      } else {
        outcome := ThrewBudget;
      }
      Close(me, outcome.Returned?);
    }

    /** A call arriving at any connector: the execution's context, then the chokepoint. None is a context that could not be built. */
    method Execute(me: Call, e: Exec, builds: bool, w: World) returns (outcome: Option<Outcome>)
      requires Valid() && me !in calls && Apart(w, me)
      modifies this
      ensures Valid() && old(history) <= history
      ensures outcome.Some? ==> At(me, Ended(outcome.value.Returned?)) && ExecOf(Now(), me) == e
      ensures outcome.None? ==> me !in calls
      ensures e !in old(contexts) ==> (outcome.Some? <==> builds)
      ensures e in old(contexts) && old(contexts)[e] < |old(ctxs)| ==> (outcome.Some? <==> old(ctxs)[old(contexts)[e]].built)
    {
      RunKeeps(Init(limit), history);
      Extend(limit, history, Bind(me, e, builds));
      BindKeeps(Now(), me, e, builds);
      var g := ContextFor(e, builds);
      history := history + [Bind(me, e, builds)];
      if !ctxs[g].built { return None; }
      calls := calls[me := Pc(g, 0, Bound, false)];
      ghost var bound := history;
      var ended := WithCapabilityAudit(me, w);
      SameExecution(limit, bound, history, me);
      return Some(ended);
    }
  }
}
