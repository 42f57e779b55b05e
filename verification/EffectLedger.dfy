/**
 The at-most-once effect ledger as a transition system over ONE effect key.

 Every D1 statement of capabilities/effects.ts is one atomic move. Any number of
 callers run `runEffect` on the key; between two of its moves a caller may be
 overtaken by any moves of the others, or never move again (which is how a
 Worker that dies is modelled). A move that is not enabled changes nothing, so
 every sequence of moves is a run and a theorem over all sequences is a theorem
 over all interleavings.
 */
module EffectLedger {
  import opened Wrappers

  type Caller = nat

  /** The JSON text of a recorded result. */
  type Json = string

  const MAX_POLLS: nat := 40

  datatype State = Reserved | Completed | Failed | InDoubt

  /** The columns `readEffect` selects. A missing row is `None`. */
  datatype Row = Row(state: State, result: Option<Json>)

  datatype Code =
    | InvalidContext | InvalidInput | CapabilityUnavailable | ChannelReadOnly
    | SlackContextRequired | IdentityUnavailable | ShadowWriteDenied
    | LinearTeamDenied | CustomerScopeRequired | CustomerScopeUnverified
    | ReadOnlyViolation | StaleGeneration | EffectInDoubt | OutputTooLarge
    | ExecutionTimeout | ExecutionCpuLimit | UpstreamUnavailable
    | ApprovalAlreadyOpen | ApprovalNotOpen | SandboxNotReady

  /** The error codes that can only come from a check made while the effect was still entirely local. */
  const PROVEN_PRE_UPSTREAM: set<Code> := {
    InvalidContext, InvalidInput, CapabilityUnavailable, ChannelReadOnly,
    SlackContextRequired, IdentityUnavailable, ShadowWriteDenied,
    LinearTeamDenied, CustomerScopeRequired, ReadOnlyViolation,
    StaleGeneration, ApprovalAlreadyOpen, ApprovalNotOpen
  }

  /** How `options.execute` ended. `encoded` is None when the result has no JSON text. */
  datatype Ending =
    | Returned(encoded: Option<Json>)
    | ThrewCapability(code: Code)
    | ThrewOther

  predicate Proven(e: Ending) {
    e.ThrewCapability? && e.code in PROVEN_PRE_UPSTREAM
  }

  /** One call of `options.execute`: whose, how it ended, and whether the effect reached upstream. */
  datatype Execution = Execution(caller: Caller, ending: Option<Ending>, landed: bool)

  /** Ended by a refusal that proves nothing left the Worker, and nothing did. */
  predicate Harmless(x: Execution) {
    x.ending.Some? && Proven(x.ending.value) && !x.landed
  }

  datatype Answer = Value(json: Json) | ThrewInDoubt | ThrewCode(code: Code)

  /** Where a call of `runEffect` is suspended. */
  datatype Pc =
    | Polling(poll: nat)      // about to read the row
    | Claiming(poll: nat)     // read no row; about to insert the reservation
    | Reclaiming(poll: nat)   // read `failed`; about to take it over
    | Waiting(poll: nat)      // read `reserved`; asleep
    | Resolving               // read `in_doubt`; asking upstream
    | Recording(json: Json)   // upstream answered; about to mark `completed`
    | Executing               // holds the reservation; `execute` in flight
    | Marking                 // `execute` ended; about to mark its outcome
    | Done(answer: Answer)

  datatype Sys = Sys(row: Option<Row>, pcs: map<Caller, Pc>, log: seq<Execution>) {
    predicate At(c: Caller) { c in pcs }

    function Move(c: Caller, pc: Pc): Sys { this.(pcs := pcs[c := pc]) }

    function Last(): Execution
      requires log != []
    {
      log[|log| - 1]
    }

    function SetLast(x: Execution): Sys
      requires log != []
    {
      this.(log := log[|log| - 1 := x])
    }
  }

  const INIT := Sys(None, map[], [])

  datatype Move =
    | Call(who: Caller)
    | Read(who: Caller)
    | Claim(who: Caller)
    | Reclaim(who: Caller)
    | Wake(who: Caller, aborted: bool)
    | Reconcile(who: Caller, found: Option<Json>)
    | Record(who: Caller)
    | End(who: Caller, ending: Ending)
    | Mark(who: Caller)
    | Land(execution: nat)    // the upstream effect of an execution happens

  /** The `continue` of the poll loop: the next poll, or the throw after the last one. */
  function Again(poll: nat): Pc {
    if poll < MAX_POLLS then Polling(poll + 1) else Done(ThrewInDoubt)
  }

  /** Where a caller stands after reading the row. */
  function AfterRead(row: Option<Row>, poll: nat): Pc {
    match row
    case None => Claiming(poll)
    case Some(Row(Completed, None)) => Done(ThrewInDoubt)
    case Some(Row(Completed, Some(json))) => Done(Value(json))
    case Some(Row(Failed, _)) => Reclaiming(poll)
    case Some(Row(InDoubt, _)) => Resolving
    case Some(Row(Reserved, _)) => Waiting(poll)
  }

  /** The row `performClaimed` writes for an ending, and what its caller is told. */
  function Outcome(e: Ending): (Row, Answer) {
    match e
    case Returned(Some(json)) => (Row(Completed, Some(json)), Value(json))
    case Returned(None) => (Row(InDoubt, None), ThrewInDoubt)
    case ThrewCapability(code) =>
      if code in PROVEN_PRE_UPSTREAM then (Row(Failed, None), ThrewCode(code))
      else (Row(InDoubt, None), ThrewInDoubt)
    case ThrewOther => (Row(InDoubt, None), ThrewInDoubt)
  }

  predicate Enabled(s: Sys, m: Move) {
    match m
    case Call(c) => c !in s.pcs
    case Read(c) => c in s.pcs && s.pcs[c].Polling?
    case Claim(c) => c in s.pcs && s.pcs[c].Claiming?
    case Reclaim(c) => c in s.pcs && s.pcs[c].Reclaiming?
    case Wake(c, _) => c in s.pcs && s.pcs[c].Waiting?
    case Reconcile(c, _) => c in s.pcs && s.pcs[c].Resolving?
    case Record(c) => c in s.pcs && s.pcs[c].Recording?
    // A refusal proven to precede upstream is given only when nothing landed.
    case End(c, e) =>
      && c in s.pcs && s.pcs[c].Executing? && s.log != [] && s.Last().caller == c
      && (Proven(e) ==> !s.Last().landed)
    case Mark(c) => c in s.pcs && s.pcs[c].Marking? && s.log != [] && s.Last().ending.Some?
    case Land(i) => i < |s.log| && !(s.log[i].ending.Some? && Proven(s.log[i].ending.value))
  }

  function Step(s: Sys, m: Move): (t: Sys) {
    if !Enabled(s, m) then s else
    match m
    case Call(c) => s.Move(c, Polling(0))
    case Read(c) => s.Move(c, AfterRead(s.row, s.pcs[c].poll))
    case Claim(c) =>
      // INSERT .. ON CONFLICT DO NOTHING: only an absent row is claimed.
      if s.row.None? then
        s.Move(c, Executing).(row := Some(Row(Reserved, None)), log := s.log + [Execution(c, None, false)])
      else s.Move(c, Again(s.pcs[c].poll))
    case Reclaim(c) =>
      // UPDATE .. WHERE state = 'failed'; the result column is left alone.
      if s.row.Some? && s.row.value.state == Failed then
        s.Move(c, Executing).(row := Some(s.row.value.(state := Reserved)), log := s.log + [Execution(c, None, false)])
      else s.Move(c, Again(s.pcs[c].poll))
    case Wake(c, aborted) => s.Move(c, if aborted then Done(ThrewInDoubt) else Again(s.pcs[c].poll))
    case Reconcile(c, found) => s.Move(c, if found.None? then Done(ThrewInDoubt) else Recording(found.value))
    case Record(c) => Overwrite(s, Row(Completed, Some(s.pcs[c].json))).Move(c, Done(Value(s.pcs[c].json)))
    case End(c, e) => s.SetLast(s.Last().(ending := Some(e))).Move(c, Marking)
    case Mark(c) =>
      var (row, answer) := Outcome(s.Last().ending.value);
      Overwrite(s, row).Move(c, Done(answer))
    case Land(i) => s.(log := s.log[i := s.log[i].(landed := true)])
  }

  /** `mark` is an UPDATE keyed on the row alone: it has no guard on the state it replaces. */
  function Overwrite(s: Sys, row: Row): Sys {
    if s.row.None? then s else s.(row := Some(row))
  }

  function Run(s: Sys, moves: seq<Move>): (t: Sys)
    decreases |moves|
  {
    if moves == [] then s else Run(Step(s, moves[0]), moves[1..])
  }

  lemma {:induction false} RunConcat(s: Sys, a: seq<Move>, b: seq<Move>)
    ensures Run(s, a + b) == Run(Run(s, a), b)
    decreases |a|
  {
    if a == [] {
      assert a + b == b;
    } else {
      assert (a + b)[1..] == a[1..] + b;
      RunConcat(Step(s, a[0]), a[1..], b);
    }
  }

  /* ---------------------------------------------------------- invariant -- */

  predicate Holds(pc: Pc) { pc.Executing? || pc.Marking? }

  predicate Resolves(pc: Pc) { pc.Resolving? || pc.Recording? }

  predicate Settled(row: Option<Row>) {
    row.Some? && (row.value.state == InDoubt || row.value.state == Completed)
  }

  predicate PollBound(pc: Pc) {
    pc.Polling? || pc.Claiming? || pc.Reclaiming? || pc.Waiting? ==> pc.poll <= MAX_POLLS
  }

  /** Only the last execution may be anything but a harmless refusal. */
  ghost predicate OneRiskyExecution(s: Sys) {
    forall i :: 0 <= i < |s.log| - 1 ==> Harmless(s.log[i])
  }

  ghost predicate Safe(s: Sys) {
    && OneRiskyExecution(s)
    && (forall i :: 0 <= i < |s.log| ==>
          && s.log[i].caller in s.pcs
          && (Holds(s.pcs[s.log[i].caller]) || s.pcs[s.log[i].caller].Done?)
          && (s.log[i].ending.Some? && Proven(s.log[i].ending.value) ==> !s.log[i].landed))
    && (forall i, j :: 0 <= i < j < |s.log| ==> s.log[i].caller != s.log[j].caller)
    // Whoever holds the reservation is the last executor, and the row is reserved.
    && (forall c :: c in s.pcs && Holds(s.pcs[c]) ==>
          && s.row == Some(Row(Reserved, None)) && s.log != [] && s.Last().caller == c
          && (s.pcs[c].Marking? <==> s.Last().ending.Some?))
    && (forall c :: c in s.pcs && Resolves(s.pcs[c]) ==> Settled(s.row))
    && (forall c :: c in s.pcs ==> PollBound(s.pcs[c]))
    && (s.row.None? ==> s.log == [])
    && (s.row.Some? ==> s.log != [] && RowTruth(s.row.value, s.Last(), s.pcs))
  }

  ghost predicate RowTruth(row: Row, last: Execution, pcs: map<Caller, Pc>) {
    match row.state
    case Reserved => last.caller in pcs && Holds(pcs[last.caller])
    case Failed => Harmless(last) && row.result.None?
    case Completed => row.result.Some? && last.ending.Some? && !Proven(last.ending.value)
    case InDoubt => row.result.None? && last.ending.Some? && !Proven(last.ending.value)
  }

  lemma StepSafe(s: Sys, m: Move)
    requires Safe(s)
    ensures Safe(Step(s, m))
  {
    match m
    case Call(_) => QuietSafe(s, m);
    case Read(_) => QuietSafe(s, m);
    case Wake(_, _) => QuietSafe(s, m);
    case Reconcile(_, _) => QuietSafe(s, m);
    case Claim(_) => TakeSafe(s, m);
    case Reclaim(_) => TakeSafe(s, m);
    case Record(_) => RecordSafe(s, m);
    case End(_, _) => EndSafe(s, m);
    case Mark(_) => MarkSafe(s, m);
    case Land(_) => LandSafe(s, m);
  }

  lemma QuietSafe(s: Sys, m: Move)
    requires Safe(s) && (m.Call? || m.Read? || m.Wake? || m.Reconcile?)
    ensures Safe(Step(s, m))
  {
  }

  lemma TakeSafe(s: Sys, m: Move)
    requires Safe(s) && (m.Claim? || m.Reclaim?)
    ensures Safe(Step(s, m))
  {
    assert forall i :: 0 <= i < |s.log| ==> Step(s, m).log[i] == s.log[i];
  }

  lemma RecordSafe(s: Sys, m: Move)
    requires Safe(s) && m.Record?
    ensures Safe(Step(s, m))
  {
  }

  lemma EndSafe(s: Sys, m: Move)
    requires Safe(s) && m.End?
    ensures Safe(Step(s, m))
  {
    assert forall i :: 0 <= i < |s.log| - 1 ==> Step(s, m).log[i] == s.log[i];
  }

  lemma MarkSafe(s: Sys, m: Move)
    requires Safe(s) && m.Mark?
    ensures Safe(Step(s, m))
  {
  }

  lemma LandSafe(s: Sys, m: Move)
    requires Safe(s) && m.Land?
    ensures Safe(Step(s, m))
  {
  }

  lemma {:induction false} RunSafe(s: Sys, moves: seq<Move>)
    requires Safe(s)
    ensures Safe(Run(s, moves))
    decreases |moves|
  {
    if moves != [] {
      StepSafe(s, moves[0]);
      RunSafe(Step(s, moves[0]), moves[1..]);
    }
  }

  /* --------------------------------------------------------- at most once -- */

  /**
   In every interleaving: no two callers hold the reservation at once, no caller
   executes twice, every execution but the last is a refusal that sent nothing,
   and the upstream effect has happened at most once.
   */
  lemma AtMostOnce(moves: seq<Move>)
    ensures var s := Run(INIT, moves);
      && (forall c, d :: c in s.pcs && d in s.pcs && Holds(s.pcs[c]) && Holds(s.pcs[d]) ==> c == d)
      && (forall i, j :: 0 <= i < j < |s.log| ==> s.log[i].caller != s.log[j].caller)
      && (forall i :: 0 <= i < |s.log| - 1 ==> Harmless(s.log[i]))
      && (forall i, j :: 0 <= i < |s.log| && 0 <= j < |s.log| && s.log[i].landed && s.log[j].landed ==> i == j)
  {
    RunSafe(INIT, moves);
  }

  lemma {:induction false} SettledFrom(s: Sys, moves: seq<Move>)
    requires Safe(s) && Settled(s.row)
    ensures Settled(Run(s, moves).row) && |Run(s, moves).log| == |s.log|
    decreases |moves|
  {
    if moves != [] {
      StepSafe(s, moves[0]);
      SettledFrom(Step(s, moves[0]), moves[1..]);
    }
  }

  /** Once the row is `in_doubt` or `completed`, nothing is ever executed for the key again. */
  lemma NoExecutionAfterSettling(before: seq<Move>, after: seq<Move>)
    requires Settled(Run(INIT, before).row)
    ensures |Run(INIT, before + after).log| == |Run(INIT, before).log|
    ensures Settled(Run(INIT, before + after).row)
  {
    RunSafe(INIT, before);
    RunConcat(INIT, before, after);
    SettledFrom(Run(INIT, before), after);
  }

  /** Nothing has landed, and no ending yet says that something may have. */
  predicate MayStillBeHarmless(x: Execution) {
    !x.landed && (x.ending.None? || Proven(x.ending.value))
  }

  lemma {:induction false} SpentFrom(s: Sys, moves: seq<Move>)
    requires Safe(s) && s.log != [] && !MayStillBeHarmless(s.Last())
    ensures |Run(s, moves).log| == |s.log|
    decreases |moves|
  {
    if moves != [] {
      StepSafe(s, moves[0]);
      SpentFrom(Step(s, moves[0]), moves[1..]);
    }
  }

  lemma {:induction false} FreshCaller(used: set<Caller>) returns (c: Caller)
    ensures forall d :: d in used ==> d < c
  {
    if used == {} {
      c := 0;
    } else {
      var x :| x in used;
      var rest := FreshCaller(used - {x});
      c := if rest > x then rest else x + 1;
      forall d | d in used ensures d < c { assert d == x || d in used - {x}; }
    }
  }

  lemma RetryFromFree(s: Sys)
    requires Safe(s) && (s.row.None? || s.row.value.state == Failed)
    ensures exists more: seq<Move> :: |Run(s, more).log| > |s.log|
  {
    var c := FreshCaller(s.pcs.Keys);
    var take := if s.row.None? then Claim(c) else Reclaim(c);
    RunThree(s, Call(c), Read(c), take);
    assert |Run(s, [Call(c), Read(c), take]).log| > |s.log|;
  }

  lemma RunThree(s: Sys, a: Move, b: Move, c: Move)
    ensures Run(s, [a, b, c]) == Step(Step(Step(s, a), b), c)
  {
    RunOne(Step(Step(s, a), b), c);
    assert [b, c][1..] == [c];
    assert Run(Step(s, a), [b, c]) == Run(Step(Step(s, a), b), [c]);
    assert [a, b, c][1..] == [b, c];
  }

  lemma RunOne(s: Sys, m: Move)
    ensures Run(s, [m]) == Step(s, m)
  {
    assert [m][1..] == [];
  }

  /**
   A retry stays possible exactly while nothing can have been sent: from any
   reachable state some continuation executes again if and only if there has
   been no execution, or the last one has not landed and has not ended in a way
   that leaves it open whether it landed.
   */
  lemma RetryIffNothingSent(moves: seq<Move>)
    ensures var s := Run(INIT, moves);
      (exists more: seq<Move> :: |Run(s, more).log| > |s.log|) <==>
      (s.log == [] || MayStillBeHarmless(s.Last()))
  {
    var s := Run(INIT, moves);
    RunSafe(INIT, moves);
    if s.log != [] && !MayStillBeHarmless(s.Last()) {
      forall more: seq<Move> ensures |Run(s, more).log| == |s.log| { SpentFrom(s, more); }
    } else if s.row.None? || s.row.value.state == Failed {
      RetryFromFree(s);
    } else {
      RetryFromHolder(s);
    }
  }

  /** A holder that is still executing, or has yet to mark its refusal, can free the key. */
  lemma RetryFromHolder(s: Sys)
    requires Safe(s) && s.row.Some? && s.row.value.state == Reserved && MayStillBeHarmless(s.Last())
    ensures exists more: seq<Move> :: |Run(s, more).log| > |s.log|
  {
    var t, wind := HolderFrees(s);
    RetryFromFree(t);
    var more: seq<Move> :| |Run(t, more).log| > |t.log|;
    RunConcat(s, wind, more);
    assert |Run(s, wind + more).log| > |s.log|;
  }

  lemma HolderFrees(s: Sys) returns (t: Sys, wind: seq<Move>)
    requires Safe(s) && s.row.Some? && s.row.value.state == Reserved && MayStillBeHarmless(s.Last())
    ensures t == Run(s, wind) && Safe(t) && |t.log| == |s.log|
    ensures t.row.Some? && t.row.value.state == Failed
  {
    var h := s.Last().caller;
    var ended, first := s, [];
    if s.pcs[h].Executing? {
      var e := End(h, ThrewCapability(InvalidInput));
      EndSafe(s, e);
      RunOne(s, e);
      ended, first := Step(s, e), [e];
    }
    MarkSafe(ended, Mark(h));
    RunOne(ended, Mark(h));
    RunConcat(s, first, [Mark(h)]);
    t, wind := Step(ended, Mark(h)), first + [Mark(h)];
  }

  /* ------------------------------------------------------ replay agreement -- */

  /** Every non-null answer upstream gives about this key is one of `answers`. */
  ghost predicate Honest(moves: seq<Move>, answers: set<Json>) {
    forall i :: 0 <= i < |moves| && moves[i].Reconcile? && moves[i].found.Some? ==> moves[i].found.value in answers
  }

  /** Every call that returned a value returned the one the ledger row decodes to. */
  ghost predicate Agrees(s: Sys) {
    forall c :: c in s.pcs && s.pcs[c].Done? && s.pcs[c].answer.Value? ==>
      s.row == Some(Row(Completed, Some(s.pcs[c].answer.json)))
  }

  ghost predicate Replayable(s: Sys, answers: set<Json>) {
    && Agrees(s)
    && (forall c :: c in s.pcs && s.pcs[c].Recording? ==> s.pcs[c].json in answers)
    && (forall c :: c in s.pcs && Resolves(s.pcs[c]) && s.row.Some? && s.row.value.state == Completed ==>
          s.row.value.result.Some? && s.row.value.result.value in answers)
  }

  lemma StepReplayable(s: Sys, m: Move, answers: set<Json>)
    requires Safe(s) && Replayable(s, answers)
    requires m.Reconcile? && m.found.Some? ==> m.found.value in answers
    requires forall a, b :: a in answers && b in answers ==> a == b
    ensures Replayable(Step(s, m), answers)
  {
  }

  lemma {:induction false} RunReplayable(s: Sys, moves: seq<Move>, answers: set<Json>)
    requires Safe(s) && Replayable(s, answers) && Honest(moves, answers)
    requires forall a, b :: a in answers && b in answers ==> a == b
    ensures Replayable(Run(s, moves), answers)
    decreases |moves|
  {
    if moves != [] {
      StepSafe(s, moves[0]);
      StepReplayable(s, moves[0], answers);
      RunReplayable(Step(s, moves[0]), moves[1..], answers);
    }
  }

  /** The call whose send is in doubt, and two calls that both read `in_doubt`. */
  function Doubt(): seq<Move> {
    [Call(0), Read(0), Claim(0)] + [End(0, ThrewOther), Mark(0), Call(1)] + [Read(1), Call(2), Read(2)]
  }

  /** Upstream gives the two resolvers different answers. */
  function Quarrel(a: Json, b: Json): seq<Move> {
    [Reconcile(1, Some(a)), Reconcile(2, Some(b)), Record(1)] + [Record(2)]
  }

  const DOUBTED := Sys(
    Some(Row(InDoubt, None)),
    map[0 := Done(ThrewInDoubt), 1 := Resolving, 2 := Resolving],
    [Execution(0, Some(ThrewOther), false)])

  lemma DoubtReached()
    ensures Run(INIT, Doubt()) == DOUBTED
  {
    var first, second, third := [Call(0), Read(0), Claim(0)], [End(0, ThrewOther), Mark(0), Call(1)], [Read(1), Call(2), Read(2)];
    RunConcat(INIT, first + second, third);
    RunConcat(INIT, first, second);
    SendBegins();
    SendIsDoubted();
    RunThree(SENT, Read(1), Call(2), Read(2));
  }

  const SENDING := Sys(Some(Row(Reserved, None)), map[0 := Executing], [Execution(0, None, false)])

  const SENT := Sys(Some(Row(InDoubt, None)), map[0 := Done(ThrewInDoubt), 1 := Polling(0)], [Execution(0, Some(ThrewOther), false)])

  lemma SendBegins()
    ensures Run(INIT, [Call(0), Read(0), Claim(0)]) == SENDING
  {
    RunThree(INIT, Call(0), Read(0), Claim(0));
  }

  lemma SendIsDoubted()
    ensures Run(SENDING, [End(0, ThrewOther), Mark(0), Call(1)]) == SENT
  {
    RunThree(SENDING, End(0, ThrewOther), Mark(0), Call(1));
  }

  lemma QuarrelDisagrees(a: Json, b: Json)
    requires a != b
    ensures !Agrees(Run(INIT, Doubt() + Quarrel(a, b)))
  {
    DoubtReached();
    RunConcat(INIT, Doubt(), Quarrel(a, b));
    RunThree(DOUBTED, Reconcile(1, Some(a)), Reconcile(2, Some(b)), Record(1));
    var s := DOUBTED.(row := Some(Row(Completed, Some(a))), pcs := DOUBTED.pcs[1 := Done(Value(a))][2 := Recording(b)]);
    assert Step(Step(Step(DOUBTED, Reconcile(1, Some(a))), Reconcile(2, Some(b))), Record(1)) == s;
    RunOne(s, Record(2));
    RunConcat(DOUBTED, [Reconcile(1, Some(a)), Reconcile(2, Some(b)), Record(1)], [Record(2)]);
    var t := Step(s, Record(2));
    assert t.pcs[1] == Done(Value(a)) && t.row == Some(Row(Completed, Some(b)));
  }

  /**
   Replay agreement, and exactly when the code has it: in every run in which
   upstream answers from `answers`, all calls that return a value return the one
   in the row, if and only if `answers` holds at most one value.
   */
  lemma ReplayAgreementIff(answers: set<Json>)
    ensures (forall moves: seq<Move> :: Honest(moves, answers) ==> Agrees(Run(INIT, moves))) <==>
            (forall a, b :: a in answers && b in answers ==> a == b)
  {
    if a, b :| a in answers && b in answers && a != b {
      QuarrelDisagrees(a, b);
      assert Honest(Doubt() + Quarrel(a, b), answers);
    } else {
      forall moves: seq<Move> | Honest(moves, answers) ensures Agrees(Run(INIT, moves)) {
        RunReplayable(INIT, moves, answers);
      }
    }
  }

  /* ------------------------------------------------- what an execution leads to -- */

  /** What a caller is told of its own execution, ending by ending. */
  predicate Tells(e: Ending, a: Answer) {
    && (e.Returned? && e.encoded.Some? ==> a == Value(e.encoded.value))
    && (e.ThrewCapability? && e.code in PROVEN_PRE_UPSTREAM ==> a == ThrewCode(e.code))
    && (e.ThrewOther? || (e.Returned? && e.encoded.None?) || (e.ThrewCapability? && e.code !in PROVEN_PRE_UPSTREAM) ==> a == ThrewInDoubt)
  }

  /** What the row holds once that execution is marked. */
  predicate Leaves(e: Ending, row: Option<Row>) {
    && (e.Returned? && e.encoded.Some? ==> row == Some(Row(Completed, e.encoded)))
    && (e.ThrewCapability? && e.code in PROVEN_PRE_UPSTREAM ==> row == Some(Row(Failed, None)))
    && (e.ThrewOther? || (e.Returned? && e.encoded.None?) || (e.ThrewCapability? && e.code !in PROVEN_PRE_UPSTREAM) ==>
          row == Some(Row(InDoubt, None)))
  }

  ghost predicate AllTold(s: Sys) {
    forall i :: 0 <= i < |s.log| && s.log[i].caller in s.pcs && s.pcs[s.log[i].caller].Done? ==>
      s.log[i].ending.Some? && Tells(s.log[i].ending.value, s.pcs[s.log[i].caller].answer)
  }

  lemma StepTold(s: Sys, m: Move)
    requires Safe(s) && AllTold(s)
    ensures AllTold(Step(s, m))
  {
    var t := Step(s, m);
    forall i | 0 <= i < |t.log| && t.log[i].caller in t.pcs && t.pcs[t.log[i].caller].Done?
      ensures t.log[i].ending.Some? && Tells(t.log[i].ending.value, t.pcs[t.log[i].caller].answer)
    {
      StepTells(s, m, i);
    }
  }

  lemma StepTells(s: Sys, m: Move, i: nat)
    requires Safe(s) && AllTold(s) && i < |Step(s, m).log|
    requires var t := Step(s, m); t.log[i].caller in t.pcs && t.pcs[t.log[i].caller].Done?
    ensures var t := Step(s, m); t.log[i].ending.Some? && Tells(t.log[i].ending.value, t.pcs[t.log[i].caller].answer)
  {
    if m.Mark? && Enabled(s, m) {
      assert s.Last().caller == m.who;
    }
  }

  lemma {:induction false} RunTold(s: Sys, moves: seq<Move>)
    requires Safe(s) && AllTold(s)
    ensures AllTold(Run(s, moves))
    decreases |moves|
  {
    if moves != [] {
      StepSafe(s, moves[0]);
      StepTold(s, moves[0]);
      RunTold(Step(s, moves[0]), moves[1..]);
    }
  }

  /** In every run a caller that executed and ended was told what its own execution's ending says. */
  lemma ExecutionIsAnswered(moves: seq<Move>, i: nat)
    requires var s := Run(INIT, moves); i < |s.log| && s.log[i].caller in s.pcs && s.pcs[s.log[i].caller].Done?
    ensures var s := Run(INIT, moves);
      s.log[i].ending.Some? && Tells(s.log[i].ending.value, s.pcs[s.log[i].caller].answer)
  {
    RunTold(INIT, moves);
  }

  /** Some execution returned this value, and its caller has marked it. */
  predicate Succeeded(s: Sys, json: Json) {
    && s.log != [] && s.Last().ending == Some(Returned(Some(json)))
    && s.Last().caller in s.pcs && s.pcs[s.Last().caller].Done?
  }

  /** The value is the row's, nobody is left to ask upstream, and whoever got a value got this one. */
  ghost predicate Fixed(s: Sys, json: Json) {
    && s.row == Some(Row(Completed, Some(json)))
    && (forall c :: c in s.pcs ==> !Resolves(s.pcs[c]))
    && (forall c :: c in s.pcs && s.pcs[c].Done? && s.pcs[c].answer.Value? ==> s.pcs[c].answer.json == json)
  }

  ghost predicate SuccessFixed(s: Sys) {
    && (forall c :: c in s.pcs && s.pcs[c].Done? && s.pcs[c].answer.Value? ==> s.row.Some? && s.row.value.state == Completed)
    && (forall json :: Succeeded(s, json) ==> Fixed(s, json))
  }

  lemma StepFixed(s: Sys, m: Move, json: Json)
    requires Safe(s) && SuccessFixed(s) && Succeeded(Step(s, m), json)
    ensures Fixed(Step(s, m), json)
  {
    if Succeeded(s, json) {
      assert Fixed(s, json);
    } else {
      MarkSucceeds(s, m, json);
    }
  }

  lemma MarkSucceeds(s: Sys, m: Move, json: Json)
    requires Safe(s) && SuccessFixed(s) && Succeeded(Step(s, m), json) && !Succeeded(s, json)
    ensures Fixed(Step(s, m), json)
  {
    assert m.Mark? && Enabled(s, m) && s.Last().caller == m.who;
  }

  lemma StepValues(s: Sys, m: Move)
    requires Safe(s) && SuccessFixed(s)
    ensures var t := Step(s, m);
      forall c :: c in t.pcs && t.pcs[c].Done? && t.pcs[c].answer.Value? ==> t.row.Some? && t.row.value.state == Completed
  {
  }

  lemma {:induction false} RunFixed(s: Sys, moves: seq<Move>)
    requires Safe(s) && SuccessFixed(s)
    ensures SuccessFixed(Run(s, moves))
    decreases |moves|
  {
    if moves != [] {
      var t := Step(s, moves[0]);
      StepSafe(s, moves[0]);
      StepValues(s, moves[0]);
      forall json | Succeeded(t, json) ensures Fixed(t, json) { StepFixed(s, moves[0], json); }
      RunFixed(t, moves[1..]);
    }
  }

  /**
   Once an execution has returned a value and its caller has marked it, the row
   holds that value in every later state and every value anyone gets is that one.
   */
  lemma SuccessStands(before: seq<Move>, after: seq<Move>, json: Json)
    requires Succeeded(Run(INIT, before), json)
    ensures var t := Run(INIT, before + after);
      && t.row == Some(Row(Completed, Some(json)))
      && (forall c :: c in t.pcs && t.pcs[c].Done? && t.pcs[c].answer.Value? ==> t.pcs[c].answer.json == json)
  {
    RunSafe(INIT, before);
    RunFixed(INIT, before);
    RunConcat(INIT, before, after);
    FixedFrom(Run(INIT, before), after, json);
  }

  lemma {:induction false} FixedFrom(s: Sys, moves: seq<Move>, json: Json)
    requires Safe(s) && Fixed(s, json)
    ensures Fixed(Run(s, moves), json)
    decreases |moves|
  {
    if moves != [] {
      StepSafe(s, moves[0]);
      FixedStays(s, moves[0], json);
      FixedFrom(Step(s, moves[0]), moves[1..], json);
    }
  }

  lemma FixedStays(s: Sys, m: Move, json: Json)
    requires Safe(s) && Fixed(s, json)
    ensures Fixed(Step(s, m), json)
  {
  }

  /* ----------------------------------------------------------- termination -- */

  /** An upper bound on the moves a suspended call can still make. */
  function Left(pc: Pc): nat {
    match pc
    case Polling(p) => if p <= MAX_POLLS then 2 * (MAX_POLLS - p) + 4 else 4
    case Claiming(p) => if p <= MAX_POLLS then 2 * (MAX_POLLS - p) + 3 else 3
    case Reclaiming(p) => if p <= MAX_POLLS then 2 * (MAX_POLLS - p) + 3 else 3
    case Waiting(p) => if p <= MAX_POLLS then 2 * (MAX_POLLS - p) + 3 else 3
    case Resolving => 2
    case Executing => 2
    case Recording(_) => 1
    case Marking => 1
    case Done(_) => 0
  }

  predicate MoveOf(m: Move, c: Caller) { !m.Land? && m.who == c }

  /** The effective moves caller `c` makes in a run. */
  function Turns(s: Sys, moves: seq<Move>, c: Caller): nat
    decreases |moves|
  {
    if moves == [] then 0
    else (if MoveOf(moves[0], c) && Enabled(s, moves[0]) then 1 else 0) + Turns(Step(s, moves[0]), moves[1..], c)
  }

  lemma StepSpends(s: Sys, m: Move, c: Caller)
    requires Safe(s) && c in s.pcs
    ensures c in Step(s, m).pcs
    ensures !MoveOf(m, c) || !Enabled(s, m) ==> Step(s, m).pcs[c] == s.pcs[c]
    ensures MoveOf(m, c) && Enabled(s, m) ==> Left(Step(s, m).pcs[c]) < Left(s.pcs[c])
  {
  }

  /** Every call ends: what it has moved plus what it can still move never grows. */
  lemma {:induction false} EveryCallIsBounded(s: Sys, moves: seq<Move>, c: Caller)
    requires Safe(s) && c in s.pcs
    ensures c in Run(s, moves).pcs
    ensures Turns(s, moves, c) + Left(Run(s, moves).pcs[c]) <= Left(s.pcs[c])
    decreases |moves|
  {
    if moves != [] {
      StepSafe(s, moves[0]);
      StepSpends(s, moves[0], c);
      EveryCallIsBounded(Step(s, moves[0]), moves[1..], c);
    }
  }

  /** And no call is ever stuck: unless it is done, one of its own moves is enabled. */
  lemma NoCallIsStuck(moves: seq<Move>, c: Caller)
    requires c in Run(INIT, moves).pcs && !Run(INIT, moves).pcs[c].Done?
    ensures exists m: Move :: MoveOf(m, c) && Enabled(Run(INIT, moves), m)
  {
    RunSafe(INIT, moves);
    var s := Run(INIT, moves);
    var m := match s.pcs[c]
      case Polling(_) => Read(c)
      case Claiming(_) => Claim(c)
      case Reclaiming(_) => Reclaim(c)
      case Waiting(_) => Wake(c, false)
      case Resolving => Reconcile(c, None)
      case Recording(_) => Record(c)
      case Executing => End(c, ThrewOther)
      case _ => Mark(c);
    assert MoveOf(m, c) && Enabled(s, m);
  }

  /* ------------------------------------------------------------- giving up -- */

  /** The run with every move of caller `c` left out. */
  function Without(moves: seq<Move>, c: Caller): seq<Move> {
    if moves == [] then []
    else (if MoveOf(moves[0], c) then [] else [moves[0]]) + Without(moves[1..], c)
  }

  predicate Executed(s: Sys, c: Caller) {
    exists i :: 0 <= i < |s.log| && s.log[i].caller == c
  }

  predicate GotValue(s: Sys, c: Caller) {
    c in s.pcs && s.pcs[c].Done? && s.pcs[c].answer.Value?
  }

  /** The same ledger, seen with and without caller `c`. */
  ghost predicate Twins(s: Sys, t: Sys, c: Caller) {
    && s.row == t.row && s.log == t.log
    && (forall d :: d != c ==> (d in s.pcs <==> d in t.pcs))
    && (forall d :: d != c && d in s.pcs ==> s.pcs[d] == t.pcs[d])
  }

  lemma StepRemembers(s: Sys, m: Move, c: Caller)
    requires Safe(s)
    ensures Executed(s, c) ==> Executed(Step(s, m), c)
    ensures GotValue(s, c) ==> GotValue(Step(s, m), c)
  {
    if i :| 0 <= i < |s.log| && s.log[i].caller == c {
      assert Step(s, m).log[i].caller == c;
    }
  }

  lemma {:induction false} RunRemembers(s: Sys, moves: seq<Move>, c: Caller)
    requires Safe(s) && (Executed(s, c) || GotValue(s, c))
    ensures Executed(Run(s, moves), c) || GotValue(Run(s, moves), c)
    decreases |moves|
  {
    if moves != [] {
      StepSafe(s, moves[0]);
      StepRemembers(s, moves[0], c);
      RunRemembers(Step(s, moves[0]), moves[1..], c);
    }
  }

  lemma OwnStepIsInvisible(s: Sys, m: Move, c: Caller)
    requires Safe(s) && MoveOf(m, c)
    requires !Executed(s, c) && !Executed(Step(s, m), c) && !GotValue(Step(s, m), c)
    ensures Twins(Step(s, m), s, c)
  {
    if m.Claim? || m.Reclaim? { TakingIsExecuting(s, m); }
  }

  lemma TakingIsExecuting(s: Sys, m: Move)
    requires m.Claim? || m.Reclaim?
    ensures Executed(Step(s, m), m.who) || (Step(s, m).row == s.row && Step(s, m).log == s.log)
  {
    var t := Step(s, m);
    if t.log != s.log { assert t.log[|t.log| - 1].caller == m.who; }
  }

  lemma OtherStepKeepsTwins(s: Sys, t: Sys, m: Move, c: Caller)
    requires Twins(s, t, c) && !MoveOf(m, c)
    ensures Twins(Step(s, m), Step(t, m), c)
  {
  }

  lemma {:induction false} WithoutFrom(s: Sys, t: Sys, moves: seq<Move>, c: Caller)
    requires Safe(s) && Twins(s, t, c)
    requires !Executed(Run(s, moves), c) && !GotValue(Run(s, moves), c)
    ensures Twins(Run(s, moves), Run(t, Without(moves, c)), c)
    decreases |moves|
  {
    if moves != [] {
      var next := Step(s, moves[0]);
      StepSafe(s, moves[0]);
      if Executed(s, c) { RunRemembers(s, moves, c); }
      if Executed(next, c) || GotValue(next, c) { RunRemembers(next, moves[1..], c); }
      if MoveOf(moves[0], c) {
        OwnStepIsInvisible(s, moves[0], c);
        assert [] + Without(moves[1..], c) == Without(moves[1..], c);
        WithoutFrom(next, t, moves[1..], c);
      } else {
        OtherStepKeepsTwins(s, t, moves[0], c);
        var rest := Without(moves[1..], c);
        assert ([moves[0]] + rest)[1..] == rest;
        WithoutFrom(next, Step(t, moves[0]), moves[1..], c);
      }
    }
  }

  /**
   Giving up changes nothing: in any run, a caller that never executed and got no
   value (it lost its races, waited in vain, or was aborted while waiting) can be
   left out without changing the row, the executions or what anyone else did.
   */
  lemma GivingUpIsInvisible(moves: seq<Move>, c: Caller)
    requires !Executed(Run(INIT, moves), c) && !GotValue(Run(INIT, moves), c)
    ensures Twins(Run(INIT, moves), Run(INIT, Without(moves, c)), c)
  {
    WithoutFrom(INIT, INIT, moves, c);
  }
}
