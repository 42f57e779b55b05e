/**
 `runEffect` itself: the poll loop, `performClaimed` and `resolveInDoubt`, run
 against a ledger that other callers keep changing at every await. Each D1
 statement is proved to be a move of EffectLedger, so whatever holds of every run
 of that system holds of this code under any interference.
 */
module EffectRunner {
  import opened Wrappers
  import opened EffectLedger

  /**
   What a call cannot control: the moves others make during its n-th await, how
   `execute` ends (which may depend on whether the effect landed), what
   `reconcile` finds, and whether the wait was abandoned by the n-th await.
   */
  datatype World = World(
    others: nat -> seq<Move>,
    ending: bool -> Ending,
    found: Option<Json>,
    aborted: nat -> bool)

  predicate OthersOnly(moves: seq<Move>, me: Caller) {
    forall i :: 0 <= i < |moves| ==> !MoveOf(moves[i], me)
  }

  /** Others act as others, and an execution that landed never ends in a proven refusal. */
  ghost predicate Fair(w: World, me: Caller) {
    && (forall k: nat :: OthersOnly(w.others(k), me))
    && !Proven(w.ending(true))
  }

  /** Nobody else moves during this call. */
  ghost predicate Alone(w: World) { forall k: nat :: w.others(k) == [] }

  /** The answer and the row are what the ending of the call's own execution says, landed or not. */
  ghost predicate OwnOutcome(w: World, row: Option<Row>, answer: Answer) {
    exists landed: bool :: Tells(w.ending(landed), answer) && Leaves(w.ending(landed), row)
  }

  predicate IsCompleted(row: Option<Row>) { row.Some? && row.value.state == Completed && row.value.result.Some? }

  lemma StepStaysCompleted(s: Sys, m: Move)
    requires Safe(s) && IsCompleted(s.row)
    ensures IsCompleted(Step(s, m).row)
  {
    StepSafe(s, m);
  }

  lemma {:induction false} StaysCompleted(s: Sys, moves: seq<Move>)
    requires Safe(s) && IsCompleted(s.row)
    ensures IsCompleted(Run(s, moves).row)
    decreases |moves|
  {
    if moves != [] {
      StepSafe(s, moves[0]);
      StepStaysCompleted(s, moves[0]);
      StaysCompleted(Step(s, moves[0]), moves[1..]);
    }
  }

  lemma Extend(history: seq<Move>, m: Move)
    ensures Run(INIT, history + [m]) == Step(Run(INIT, history), m)
    ensures Safe(Run(INIT, history + [m]))
  {
    RunOne(Run(INIT, history), m);
    RunConcat(INIT, history, [m]);
    RunSafe(INIT, history + [m]);
  }

  /** While others run, a caller keeps its place, its reservation and how its execution ended. */
  lemma {:induction false} OthersLeaveMe(s: Sys, moves: seq<Move>, me: Caller)
    requires Safe(s) && me in s.pcs && OthersOnly(moves, me)
    ensures Safe(Run(s, moves)) && me in Run(s, moves).pcs && Run(s, moves).pcs[me] == s.pcs[me]
    ensures Executed(Run(s, moves), me) <==> Executed(s, me)
    ensures Holds(s.pcs[me]) ==> Run(s, moves).log != [] && Run(s, moves).Last().ending == s.Last().ending
    decreases |moves|
  {
    if moves != [] {
      StepSafe(s, moves[0]);
      OtherLeavesMe(s, moves[0], me);
      OthersLeaveMe(Step(s, moves[0]), moves[1..], me);
    }
  }

  lemma OtherLeavesMe(s: Sys, m: Move, me: Caller)
    requires Safe(s) && me in s.pcs && !MoveOf(m, me)
    ensures me in Step(s, m).pcs && Step(s, m).pcs[me] == s.pcs[me]
    ensures Executed(Step(s, m), me) <==> Executed(s, me)
    ensures Holds(s.pcs[me]) ==> Step(s, m).log != [] && Step(s, m).Last().ending == s.Last().ending
  {
    StepRemembers(s, m, me);
    if i :| 0 <= i < |Step(s, m).log| && Step(s, m).log[i].caller == me {
      assert i < |s.log| && s.log[i].caller == me;
    }
  }

  /** One poll by a caller nobody interferes with, by what the row held. */
  predicate PolledAlone(w: World, was: Option<Row>, answer: Option<Answer>, executed: bool, now: Option<Row>, aborted: bool) {
    && (was.None? || was.value.state == Failed ==> executed && answer.Some?)
    && (was.Some? && was.value.state == Completed ==>
          !executed && now == was && was.value.result.Some? && answer == Some(Value(was.value.result.value)))
    && (was.Some? && was.value.state == InDoubt ==>
          !executed && answer == Some(if w.found.Some? then Value(w.found.value) else ThrewInDoubt)
          && now == if w.found.Some? then Some(Row(Completed, w.found)) else was)
    && (was.Some? && was.value.state == Reserved ==>
          !executed && now == was && answer == if aborted then Some(ThrewInDoubt) else None)
  }

  /** The whole call, likewise: it polls once unless it has to wait for a reservation it never gets. */
  ghost predicate CalledAlone(w: World, was: Option<Row>, answer: Answer, polls: nat, executed: bool, now: Option<Row>) {
    if was.Some? && was.value.state == Reserved then
      && !executed && now == was && answer == ThrewInDoubt
      && ((forall k: nat :: !w.aborted(k)) ==> polls == MAX_POLLS + 1)
      && ((forall k: nat :: w.aborted(k)) ==> polls == 1)
    else polls == 1 && PolledAlone(w, was, Some(answer), executed, now, false)
  }

  class Ledger {
    var row: Option<Row>
    var pcs: map<Caller, Pc>
    var log: seq<Execution>
    ghost var history: seq<Move>

    function Now(): Sys
      reads this
    {
      Sys(row, pcs, log)
    }

    /** The ledger is where its history of moves leads. */
    ghost predicate Valid()
      reads this
    {
      Now() == Run(INIT, history)
    }

    ghost predicate At(me: Caller, pc: Pc)
      reads this
    {
      Valid() && me in pcs && pcs[me] == pc
    }

    constructor ()
      ensures Valid() && history == []
    {
      row, pcs, log, history := None, map[], [], [];
    }

    /** An await: the others run. */
    method Await(me: Caller, w: World, n: nat)
      requires Valid() && me in pcs && Fair(w, me)
      modifies this
      ensures At(me, old(pcs[me])) && history == old(history) + w.others(n)
      ensures Executed(Now(), me) <==> Executed(old(Now()), me)
      ensures Holds(pcs[me]) ==> row.Some? && log != [] && log[|log| - 1].caller == me
      ensures Holds(pcs[me]) ==> old(log) != [] && log[|log| - 1].ending == old(log[|log| - 1].ending)
      ensures w.others(n) == [] ==> Now() == old(Now())
      ensures IsCompleted(old(row)) ==> IsCompleted(row)
    {
      RunSafe(INIT, history);
      if IsCompleted(row) { StaysCompleted(Now(), w.others(n)); }
      OthersLeaveMe(Now(), w.others(n), me);
      RunConcat(INIT, history, w.others(n));
      var s := Run(Now(), w.others(n));
      row, pcs, log, history := s.row, s.pcs, s.log, history + w.others(n);
    }

    method ReadEffect(me: Caller) returns (found: Option<Row>)
      requires Valid() && me in pcs && pcs[me].Polling?
      modifies this`pcs, this`history
      ensures At(me, AfterRead(row, old(pcs[me].poll))) && history == old(history) + [Read(me)]
      ensures found == row
    {
      Extend(history, Read(me));
      found := row;
      pcs, history := pcs[me := AfterRead(row, pcs[me].poll)], history + [Read(me)];
    }

    /** INSERT .. ON CONFLICT DO NOTHING RETURNING. */
    method ClaimRow(me: Caller) returns (won: bool)
      requires Valid() && me in pcs && pcs[me].Claiming?
      modifies this
      ensures At(me, if won then Executing else Again(old(pcs[me].poll))) && history == old(history) + [Claim(me)]
      ensures won == old(row).None?
      ensures !won ==> row == old(row) && log == old(log)
    {
      Extend(history, Claim(me));
      won := row.None?;
      if won {
        row := Some(Row(Reserved, None));
        pcs, log := pcs[me := Executing], log + [Execution(me, None, false)];
      } else {
        pcs := pcs[me := Again(pcs[me].poll)];
      }
      history := history + [Claim(me)];
    }

    /** UPDATE .. WHERE state = 'failed' RETURNING. */
    method ReclaimRow(me: Caller) returns (won: bool)
      requires Valid() && me in pcs && pcs[me].Reclaiming?
      modifies this
      ensures At(me, if won then Executing else Again(old(pcs[me].poll))) && history == old(history) + [Reclaim(me)]
      ensures won == (old(row).Some? && old(row).value.state == Failed)
      ensures !won ==> row == old(row) && log == old(log)
    {
      Extend(history, Reclaim(me));
      won := row.Some? && row.value.state == Failed;
      if won {
        row := Some(row.value.(state := Reserved));
        pcs, log := pcs[me := Executing], log + [Execution(me, None, false)];
      } else {
        pcs := pcs[me := Again(pcs[me].poll)];
      }
      history := history + [Reclaim(me)];
    }

    /** The UPDATE of `mark`: no guard on the state it replaces. */
    method MarkRow(state: State, result: Option<Json>)
      modifies this`row
      ensures Now() == Overwrite(old(Now()), Row(state, result))
    {
      if row.Some? { row := Some(Row(state, result)); }
    }

    /**
     Run the effect while holding the reservation. The outcome is marked by an
     unguarded update after two awaits, and the row then holds exactly this
     outcome over a reservation nobody else has touched.
     */
    method PerformClaimed(me: Caller, w: World, n: nat) returns (answer: Answer)
      requires At(me, Executing) && Fair(w, me)
      modifies this
      ensures At(me, Done(answer)) && old(history) <= history
      ensures OwnOutcome(w, row, answer)
      ensures Executed(Now(), me)
    {
      Await(me, w, n);
      var landed := log[|log| - 1].landed;
      var ending := w.ending(landed);
      EndExecution(me, ending);
      Await(me, w, n + 1);
      answer := MarkOutcome(me, ending);
      assert Tells(w.ending(landed), answer) && Leaves(w.ending(landed), row);
    }

    /** `execute` settles: how it ended is known to its caller, and to nobody else yet. */
    method EndExecution(me: Caller, ending: Ending)
      requires At(me, Executing) && log != [] && log[|log| - 1].caller == me
      requires Proven(ending) ==> !log[|log| - 1].landed
      modifies this
      ensures At(me, Marking) && history == old(history) + [End(me, ending)]
      ensures log != [] && log[|log| - 1].ending == Some(ending)
    {
      Extend(history, End(me, ending));
      log := log[|log| - 1 := log[|log| - 1].(ending := Some(ending))];
      pcs, history := pcs[me := Marking], history + [End(me, ending)];
    }

    method MarkOutcome(me: Caller, ending: Ending) returns (answer: Answer)
      requires At(me, Marking) && row.Some? && log != []
      requires log[|log| - 1].ending == Some(ending) && log[|log| - 1].caller == me
      modifies this
      ensures At(me, Done(answer)) && history == old(history) + [Mark(me)]
      ensures Tells(ending, answer) && Leaves(ending, row)
      ensures Executed(Now(), me)
    {
      Extend(history, Mark(me));
      match ending {
        case Returned(encoded) =>
          if encoded.Some? {
            MarkRow(Completed, encoded);
            answer := Value(encoded.value);
          } else {
            MarkRow(InDoubt, None);
            answer := ThrewInDoubt;
          }
        case ThrewCapability(code) =>
          if code in PROVEN_PRE_UPSTREAM {
            MarkRow(Failed, None);
            answer := ThrewCode(code);
          } else {
            MarkRow(InDoubt, None);
            answer := ThrewInDoubt;
          }
        case ThrewOther =>
          MarkRow(InDoubt, None);
          answer := ThrewInDoubt;
      }
      pcs, history := pcs[me := Done(answer)], history + [Mark(me)];
    }

    /** Ask upstream about an in-doubt effect, and record a confirmed outcome. */
    method ResolveInDoubt(me: Caller, w: World, n: nat) returns (answer: Answer)
      requires At(me, Resolving) && Fair(w, me)
      modifies this
      ensures At(me, Done(answer)) && old(history) <= history
      ensures answer == if w.found.Some? then Value(w.found.value) else ThrewInDoubt
      ensures w.found.Some? ==> row == Some(Row(Completed, w.found))
      ensures Executed(Now(), me) <==> Executed(old(Now()), me)
      ensures Alone(w) && w.found.None? ==> row == old(row)
    {
      Await(me, w, n);
      AskUpstream(me, w.found);
      if w.found.None? { return ThrewInDoubt; }
      Await(me, w, n + 1);
      answer := RecordAnswer(me, w.found.value);
    }

    method AskUpstream(me: Caller, found: Option<Json>)
      requires At(me, Resolving)
      modifies this`pcs, this`history
      ensures At(me, if found.None? then Done(ThrewInDoubt) else Recording(found.value))
      ensures history == old(history) + [Reconcile(me, found)] && row == old(row)
    {
      Extend(history, Reconcile(me, found));
      pcs := pcs[me := if found.None? then Done(ThrewInDoubt) else Recording(found.value)];
      history := history + [Reconcile(me, found)];
    }

    method RecordAnswer(me: Caller, json: Json) returns (answer: Answer)
      requires At(me, Recording(json))
      modifies this`row, this`pcs, this`history
      ensures At(me, Done(answer)) && answer == Value(json) && history == old(history) + [Record(me)]
      ensures row == Some(Row(Completed, Some(json)))
    {
      Extend(history, Record(me));
      RunSafe(INIT, history);
      MarkRow(Completed, Some(json));
      answer := Value(json);
      pcs, history := pcs[me := Done(answer)], history + [Record(me)];
    }

    /** The sleep is over: poll again, or give up if the caller has been aborted. */
    method WakeUp(me: Caller, gaveUp: bool)
      requires Valid() && me in pcs && pcs[me].Waiting?
      modifies this`pcs, this`history
      ensures At(me, if gaveUp then Done(ThrewInDoubt) else Again(old(pcs[me].poll)))
      ensures history == old(history) + [Wake(me, gaveUp)]
    {
      Extend(history, Wake(me, gaveUp));
      pcs := pcs[me := if gaveUp then Done(ThrewInDoubt) else Again(pcs[me].poll)];
      history := history + [Wake(me, gaveUp)];
    }

    method Begin(me: Caller)
      requires Valid() && me !in pcs
      modifies this`pcs, this`history
      ensures At(me, Polling(0)) && history == old(history) + [Call(me)]
      ensures !Executed(Now(), me) && row == old(row)
    {
      Extend(history, Call(me));
      RunSafe(INIT, history);
      pcs, history := pcs[me := Polling(0)], history + [Call(me)];
    }

    /** What a call may report when it ends, as it stands in the ledger at that moment. */
    ghost predicate Reported(me: Caller, answer: Answer, executed: bool)
      reads this
    {
      && At(me, Done(answer))
      && (executed <==> Executed(Now(), me))
      && (answer.Value? ==> row == Some(Row(Completed, Some(answer.json))))
      && (answer.ThrewCode? ==> executed && answer.code in PROVEN_PRE_UPSTREAM && row == Some(Row(Failed, None)))
    }

    /** An awaited claim or takeover and, if it is won, the effect; None is the loop's `continue`. */
    method Take(me: Caller, w: World, poll: nat, n: nat) returns (answer: Option<Answer>)
      requires At(me, Claiming(poll)) || At(me, Reclaiming(poll))
      requires Fair(w, me) && !Executed(Now(), me)
      modifies this
      ensures old(history) <= history
      ensures answer.Some? ==> Reported(me, answer.value, true) && OwnOutcome(w, row, answer.value)
      ensures answer.None? ==> At(me, Again(poll)) && !Executed(Now(), me)
      ensures Alone(w) && old(pcs[me].Claiming?) && old(row).None? ==> answer.Some?
      ensures Alone(w) && old(pcs[me].Reclaiming?) && old(row).Some? && old(row).value.state == Failed ==> answer.Some?
    {
      Await(me, w, n);
      var won;
      if pcs[me].Claiming? {
        won := ClaimRow(me);
      } else {
        won := ReclaimRow(me);
      }
      if !won { return None; }
      var ended := PerformClaimed(me, w, n + 1);
      return Some(ended);
    }

    lemma CompletedHasResult()
      requires Valid()
      ensures row.Some? && row.value.state == Completed ==> row.value.result.Some?
    {
      RunSafe(INIT, history);
    }

    /** One turn of the poll loop; None is its `continue`. */
    method Poll(me: Caller, w: World, poll: nat, n: nat) returns (answer: Option<Answer>, executed: bool)
      requires At(me, Polling(poll)) && Fair(w, me) && !Executed(Now(), me)
      modifies this
      ensures old(history) <= history
      ensures answer.Some? ==> Reported(me, answer.value, executed)
      ensures answer.Some? && executed ==> OwnOutcome(w, row, answer.value)
      ensures answer.None? ==> At(me, Again(poll)) && !Executed(Now(), me) && !executed
      ensures IsCompleted(old(row)) ==> answer.Some? && answer.value.Value? && !executed
      ensures Alone(w) ==> PolledAlone(w, old(row), answer, executed, row, w.aborted(n + 1))
    {
      CompletedHasResult();
      Await(me, w, n);
      var found := ReadEffect(me);
      if found.None? {
        answer := Take(me, w, poll, n + 1);
        return answer, answer.Some?;
      }
      match found.value.state {
        case Completed =>
          var json := found.value.result;
          return Some(if json.None? then ThrewInDoubt else Value(json.value)), false;
        case Failed =>
          answer := Take(me, w, poll, n + 1);
          return answer, answer.Some?;
        case InDoubt =>
          var told := ResolveInDoubt(me, w, n + 1);
          return Some(told), false;
        case Reserved =>
          Await(me, w, n + 1);
          var gaveUp := w.aborted(n + 1);
          WakeUp(me, gaveUp);
          return if gaveUp then Some(ThrewInDoubt) else None, false;
      }
    }

    /**
     The whole call, under any interference. It ends after at most MAX_POLLS + 1
     reads, executes at most once and only while holding the reservation, answers
     and leaves the row as its own execution's ending says if it executed, and
     otherwise returns only the value in the row; a row that is completed when it
     starts is answered with a value and never executed for. Without interference
     its answer, its polls and the row are settled by what the row held.
     */
    method RunEffect(me: Caller, w: World) returns (answer: Answer, polls: nat, executed: bool)
      requires Valid() && me !in pcs && Fair(w, me)
      modifies this
      ensures Reported(me, answer, executed) && old(history) <= history
      ensures polls <= MAX_POLLS + 1
      ensures executed ==> OwnOutcome(w, row, answer)
      ensures IsCompleted(old(row)) ==> answer.Value? && !executed
      ensures Alone(w) ==> CalledAlone(w, old(row), answer, polls, executed, row)
    {
      Begin(me);
      polls := 0;
      for poll := 0 to MAX_POLLS + 1
        invariant At(me, if poll <= MAX_POLLS then Polling(poll) else Done(ThrewInDoubt))
        invariant old(history) <= history
        invariant polls == poll && !Executed(Now(), me)
        invariant poll == 0 ==> row == old(row)
        invariant poll > 0 ==> !IsCompleted(old(row))
        invariant poll > 0 && Alone(w) ==>
          row == old(row) && row.Some? && row.value.state == Reserved && exists k: nat :: !w.aborted(k)
      {
        var done, executedNow := Poll(me, w, poll, 4 * poll);
        polls := polls + 1;
        if done.Some? { return done.value, polls, executedNow; }
        assert Alone(w) ==> !w.aborted(4 * poll + 1);
      }
      return ThrewInDoubt, polls, false;
    }
  }
}
