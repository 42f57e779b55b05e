/**
 The parked flag over runs: what it holds, and exactly when what is already under
 way will still change it. Both `setOpenApproval(null)` of a resolution and the
 opener's park write it unconditionally, so late writes decide.
 */
module ApprovalParking {
  import opened Wrappers
  import opened ApprovalModel
  import opened ApprovalInvariant
  import opened ApprovalTheorems

  /* --------------------------------------------------------------- the last write -- */

  /** What a move writes to the flag of a run, if it writes it. */
  function Writes(w: World, m: Move, r: RunId): Option<Option<CardId>> {
    if !m.Go? || m.who !in w.pcs || r !in w.runs then None
    else match w.pcs[m.who]
      case Unpark(n, _) => if n.run == r then Some(None) else None
      case Park(run, id) => if run == r then Some(Some(id)) else None
      case Clear(run, _) => if run == r then Some(None) else None
      case _ => None
  }

  function LastWrite(moves: seq<Move>, r: RunId): Option<CardId>
    decreases |moves|
  {
    if moves == [] then None
    else
      var front, last := moves[..|moves| - 1], moves[|moves| - 1];
      var written := Writes(Run(INIT, front), last, r);
      if written.Some? then written.value else LastWrite(front, r)
  }

  predicate FlagIs(w: World, r: RunId, open: Option<CardId>) { r in w.runs && w.runs[r].open == open }

  lemma StepFlag(w: World, m: Move, r: RunId, open: Option<CardId>)
    requires if r in w.runs then w.runs[r].open == open else open.None?
    ensures var v, written := Step(w, m), Writes(w, m, r);
      if r in v.runs then v.runs[r].open == (if written.Some? then written.value else open) else written.None?
  {
  }

  /**
   A run is parked on a card exactly when the last of the parks, resolutions and
   withdraws that reached its flag was that card's park: an opener that parks after
   the resolution leaves the run parked on a resolved card.
   */
  lemma {:induction false} ParkedIff(moves: seq<Move>, r: RunId)
    ensures var w := Run(INIT, moves); if r in w.runs then w.runs[r].open == LastWrite(moves, r) else LastWrite(moves, r).None?
    decreases |moves|
  {
    if moves != [] {
      var front, last := moves[..|moves| - 1], moves[|moves| - 1];
      ParkedIff(front, r);
      RunConcat(INIT, front, [last]);
      RunOne(Run(INIT, front), last);
      assert moves == front + [last];
      StepFlag(Run(INIT, front), last, r, LastWrite(front, r));
    }
  }

  /** The card of the latest park that reached the run. */
  function LastPark(moves: seq<Move>, r: RunId): Option<CardId>
    decreases |moves|
  {
    if moves == [] then None
    else
      var front, last := moves[..|moves| - 1], moves[|moves| - 1];
      var written := Writes(Run(INIT, front), last, r);
      if written.Some? && written.value.Some? then written.value else LastPark(front, r)
  }

  lemma StepLast(w: World, m: Move, r: RunId, parked: Option<CardId>)
    requires if r in w.runs then w.runs[r].last == parked else parked.None?
    ensures var v, written := Step(w, m), Writes(w, m, r);
      if r in v.runs then v.runs[r].last == (if written.Some? && written.value.Some? then written.value else parked) else parked.None? && written.None?
  {
  }

  /** What a withdraw with nothing open consults is the card of the run's latest park, whatever has cleared the flag since. */
  lemma {:induction false} LastIsLatestPark(moves: seq<Move>, r: RunId)
    ensures var w := Run(INIT, moves); if r in w.runs then w.runs[r].last == LastPark(moves, r) else LastPark(moves, r).None?
    decreases |moves|
  {
    if moves != [] {
      var front, last := moves[..|moves| - 1], moves[|moves| - 1];
      LastIsLatestPark(front, r);
      RunConcat(INIT, front, [last]);
      RunOne(Run(INIT, front), last);
      assert moves == front + [last];
      StepLast(Run(INIT, front), last, r, LastPark(front, r));
    }
  }

  /* ------------------------------------------------------ what is already under way -- */

  /** A notify of a card of the run that has not yet unparked it. */
  predicate Notifies(pc: Pc, r: RunId) {
    match pc
    case ReadRun(n) => n.run == r
    case ReadCard(n, _, _) => n.run == r
    case Start(n) => n.run == r
    case Transmit(n) => n.run == r
    case InFlight(n, _) => n.run == r
    case Settle(n, _, _, _) => n.run == r
    case Reread(n, _, _) => n.run == r
    case Unpark(n, _) => n.run == r
    case _ => false
  }

  /** A suspended call that will write something else than `id` to the flag. */
  predicate Rewrites(pc: Pc, r: RunId, id: CardId) {
    Notifies(pc, r) || (pc.Park? && pc.run == r && pc.card != id) || (pc.Clear? && pc.run == r)
  }

  /** A decided card of the run whose resolution the sweep still owes. */
  predicate Owed(w: World, r: RunId, c: CardId) {
    c in w.cards && w.cards[c].run == r && Resolvable(w.cards[c].decision) && !w.cards[c].resolved
  }

  ghost predicate Quiet(w: World, r: RunId, id: CardId) {
    (forall a :: a in w.pcs ==> !Rewrites(w.pcs[a], r, id)) && forall c :: !Owed(w, r, c)
  }

  /** Something new is done to the run: a card is opened, decided, or withdrawn. */
  predicate Disturbs(w: World, m: Move, r: RunId) {
    match m
    case Open(_, run, _, _, _) => run == r
    case Decide(_, c, _, _) => c in w.cards && w.cards[c].run == r
    case BeginWithdraw(_, run) => run == r
    case _ => false
  }

  ghost predicate Undisturbed(w: World, later: seq<Move>, r: RunId)
    decreases |later|
  {
    later != [] ==> !Disturbs(w, later[0], r) && Undisturbed(Step(w, later[0]), later[1..], r)
  }

  /* ------------------------------------------------------------- nothing changes it -- */

  /** A call that will not rewrite the flag does not come to do so by its own next statement. */
  lemma QuietGo(w: World, a: Actor, r: RunId, id: CardId)
    requires a in w.pcs && !Rewrites(w.pcs[a], r, id)
    ensures a in DoGo(w, a).pcs && !Rewrites(DoGo(w, a).pcs[a], r, id)
  {
    match w.pcs[a]
    case ReadRun(n) => assert !Notifies(DoReadRun(w, a, n).pcs[a], r);
    case ReadCard(n, shadow, pinned) => assert !Notifies(AfterCard(w, n, shadow, pinned), r);
    case _ =>
  }

  lemma QuietPc(w: World, m: Move, r: RunId, id: CardId, a: Actor)
    requires Quiet(w, r, id) && !Disturbs(w, m, r) && a in Step(w, m).pcs
    ensures !Rewrites(Step(w, m).pcs[a], r, id)
  {
    if a in w.pcs { assert !Rewrites(w.pcs[a], r, id); }
    if m.Go? && m.who in w.pcs {
      assert !Rewrites(w.pcs[m.who], r, id);
      if a == m.who { QuietGo(w, a, r, id); } else { GoLeavesOthers(w, m.who, a); }
    } else if m.Sweep? {
      assert !Owed(w, r, m.card);
    }
  }

  lemma QuietCard(w: World, m: Move, r: RunId, c: CardId)
    requires !Owed(w, r, c) && !Disturbs(w, m, r)
    ensures !Owed(Step(w, m), r, c)
  {
  }

  lemma QuietFlag(w: World, m: Move, r: RunId, id: CardId)
    requires Quiet(w, r, id) && FlagIs(w, r, Some(id))
    ensures FlagIs(Step(w, m), r, Some(id))
  {
    if m.Go? && m.who in w.pcs { assert !Rewrites(w.pcs[m.who], r, id); }
    StepFlag(w, m, r, Some(id));
  }

  lemma {:induction false} QuietStands(w: World, later: seq<Move>, r: RunId, id: CardId)
    requires Quiet(w, r, id) && FlagIs(w, r, Some(id)) && Undisturbed(w, later, r)
    ensures FlagIs(Run(w, later), r, Some(id))
    decreases |later|
  {
    if later != [] {
      var v := Step(w, later[0]);
      QuietFlag(w, later[0], r, id);
      forall a | a in v.pcs ensures !Rewrites(v.pcs[a], r, id) { QuietPc(w, later[0], r, id, a); }
      forall c ensures !Owed(v, r, c) { QuietCard(w, later[0], r, c); }
      QuietStands(v, later[1..], r, id);
    }
  }

  /* ----------------------------------------------------------------- something does -- */

  /** How many statements a notify is from unparking its run, at most. */
  function Rank(pc: Pc): nat {
    match pc
    case ReadRun(_) => 8
    case ReadCard(_, _, _) => 7
    case Start(_) => 6
    case Transmit(_) => 5
    case InFlight(_, _) => 4
    case Settle(_, _, _, _) => 3
    case Reread(_, _, _) => 2
    case _ => 1
  }

  function NextOf(pc: Pc, a: Actor): Move { if pc.InFlight? then SendEnds(a, None) else Go(a) }

  lemma Advances(w: World, a: Actor, r: RunId)
    requires a in w.pcs && PcOk(w, w.pcs[a]) && Notifies(w.pcs[a], r) && !w.pcs[a].Unpark? && r in w.runs
    ensures var v := Step(w, NextOf(w.pcs[a], a));
      a in v.pcs && Notifies(v.pcs[a], r) && Rank(v.pcs[a]) < Rank(w.pcs[a]) && r in v.runs
  {
  }

  /** Some continuation that does nothing new to the run changes its flag. */
  ghost predicate Moves(w: World, r: RunId, open: Option<CardId>) {
    exists later :: Undisturbed(w, later, r) && !FlagIs(Run(w, later), r, open)
  }

  lemma MovesAfter(w: World, m: Move, r: RunId, open: Option<CardId>)
    requires !Disturbs(w, m, r) && (Moves(Step(w, m), r, open) || !FlagIs(Step(w, m), r, open))
    ensures Moves(w, r, open)
  {
    var later: seq<Move> := [];
    if Moves(Step(w, m), r, open) {
      later :| Undisturbed(Step(w, m), later, r) && !FlagIs(Run(Step(w, m), later), r, open);
    }
    RunOne(w, m);
    RunConcat(w, [m], later);
    assert Run(w, [m] + later) == Run(Step(w, m), later);
    assert ([m] + later)[0] == m && ([m] + later)[1..] == later;
    assert Undisturbed(w, [m] + later, r);
    assert !FlagIs(Run(w, [m] + later), r, open);
  }

  ghost predicate Reachable(w: World) { exists moves :: w == Run(INIT, moves) }

  lemma StepReachable(w: World, m: Move)
    requires Reachable(w)
    ensures Reachable(Step(w, m))
  {
    var moves :| w == Run(INIT, moves);
    RunConcat(INIT, moves, [m]);
    RunOne(w, m);
    assert Step(w, m) == Run(INIT, moves + [m]);
  }

  lemma ReachablePc(w: World, a: Actor)
    requires Reachable(w) && a in w.pcs
    ensures PcOk(w, w.pcs[a])
  {
    var moves :| w == Run(INIT, moves);
    RunKeeps(INIT, moves);
  }

  /** A notify in flight always gets to unpark its run. */
  lemma {:induction false} NotifyUnparks(w: World, a: Actor, r: RunId, id: CardId)
    requires Reachable(w) && a in w.pcs && Notifies(w.pcs[a], r) && r in w.runs
    ensures Moves(w, r, Some(id))
    decreases Rank(w.pcs[a])
  {
    var m := NextOf(w.pcs[a], a);
    if !w.pcs[a].Unpark? {
      ReachablePc(w, a);
      Advances(w, a, r);
      StepReachable(w, m);
      NotifyUnparks(Step(w, m), a, r, id);
    }
    MovesAfter(w, m, r, Some(id));
  }

  lemma {:induction false} FreshActor(used: set<Actor>) returns (a: Actor)
    ensures forall b :: b in used ==> b < a
  {
    if used == {} {
      a := 0;
    } else {
      var x :| x in used;
      var rest := FreshActor(used - {x});
      a := if rest > x then rest else x + 1;
      forall b | b in used ensures b < a { assert b == x || b in used - {x}; }
    }
  }

  lemma OwedUnparks(w: World, r: RunId, id: CardId, c: CardId)
    requires Reachable(w) && Owed(w, r, c) && r in w.runs
    ensures Moves(w, r, Some(id))
  {
    var b := FreshActor(w.pcs.Keys);
    StepReachable(w, Sweep(b, c));
    NotifyUnparks(Step(w, Sweep(b, c)), b, r, id);
    MovesAfter(w, Sweep(b, c), r, Some(id));
  }

  lemma RewriteMoves(w: World, r: RunId, id: CardId, a: Actor)
    requires Reachable(w) && r in w.runs && a in w.pcs && Rewrites(w.pcs[a], r, id)
    ensures Moves(w, r, Some(id))
  {
    if Notifies(w.pcs[a], r) {
      NotifyUnparks(w, a, r, id);
    } else {
      MovesAfter(w, Go(a), r, Some(id));
    }
  }

  /**
   When a parked run stays as it is, exactly. As long as no card of the run is
   opened, decided or withdrawn, however much else happens, the flag keeps naming
   the card if and only if no notify, park or withdraw of the run is in flight that
   has yet to write it and the sweep owes none of its cards a resolution.
   */
  lemma FlagStandsIff(moves: seq<Move>, r: RunId, id: CardId)
    requires FlagIs(Run(INIT, moves), r, Some(id))
    ensures Moves(Run(INIT, moves), r, Some(id)) <==> !Quiet(Run(INIT, moves), r, id)
  {
    var w := Run(INIT, moves);
    assert Reachable(w);
    if Quiet(w, r, id) {
      forall later | Undisturbed(w, later, r) ensures FlagIs(Run(w, later), r, Some(id)) { QuietStands(w, later, r, id); }
    } else if a :| a in w.pcs && Rewrites(w.pcs[a], r, id) {
      RewriteMoves(w, r, id, a);
    } else {
      var c :| Owed(w, r, c);
      OwedUnparks(w, r, id, c);
    }
  }

  /** When a resolution unparks a run that is parked on a card still pending, it is never that card's own. */
  lemma ResolutionOfAnother(moves: seq<Move>, a: Actor, id: CardId)
    requires var w := Run(INIT, moves);
      a in w.pcs && w.pcs[a].Unpark? && FlagIs(w, w.pcs[a].n.run, Some(id)) && id in w.cards && w.cards[id].decision == Pending
    ensures var w := Run(INIT, moves); var v := Step(w, Go(a));
      && FlagIs(v, w.pcs[a].n.run, None) && id in v.cards && v.cards[id].decision == Pending
      && w.pcs[a].n.card != id && w.pcs[a].n.card in w.cards && !Unsettled(w.cards[w.pcs[a].n.card])
  {
    RunKeeps(INIT, moves);
    var w := Run(INIT, moves);
    assert PcOk(w, w.pcs[a]) && RunOk(w, w.pcs[a].n.run, w.runs[w.pcs[a].n.run]);
    UnparksAnother(w, a, id);
  }

  lemma UnparksAnother(w: World, a: Actor, id: CardId)
    requires a in w.pcs && w.pcs[a].Unpark? && PcOk(w, w.pcs[a]) && FlagIs(w, w.pcs[a].n.run, Some(id)) && OneOpen(w)
    requires id in w.cards && w.cards[id].decision == Pending && w.cards[id].run == w.pcs[a].n.run
    ensures var v := Step(w, Go(a));
      && FlagIs(v, w.pcs[a].n.run, None) && id in v.cards && v.cards[id].decision == Pending
      && w.pcs[a].n.card != id && w.pcs[a].n.card in w.cards && !Unsettled(w.cards[w.pcs[a].n.card])
  {
  }

  /* ------------------------------------------------------------------- both happen -- */

  function OneCard(decision: Decision, reason: Option<Text>, resolved: bool): Card {
    Card(0, "draft", false, decision, if decision == Pending then None else Some("human"), None, reason, NotStarted, None, resolved)
  }

  const NO := Notice(0, 0, Rejected, None, Some("no"))

  /** A card is opened and rejected before its opener parks the run. */
  const REJECTED := World(
    map[0 := OneCard(Rejected, Some("no"), false)], map[0 := RunState(false, true, None, None, [])], [],
    map[0 := Park(0, 0), 1 := ReadRun(NO)], [(0, 1)])

  const TOLD := RunState(false, true, None, None, [Turn(0, Rejected, None, Some("no"), Report(NotStarted, None))])

  const UNPARKED := REJECTED.(runs := map[0 := TOLD], pcs := map[0 := Park(0, 0), 1 := MarkResolved(NO)])

  const STRANDED := World(
    map[0 := OneCard(Rejected, Some("no"), true)], map[0 := TOLD.(open := Some(0), last := Some(0))], [],
    map[0 := Opened(0), 1 := Finished(true)], [(0, 1)])

  lemma ReachRejected()
    ensures Run(INIT, [NewRun(0, true, false), Open(0, 0, 0, "draft", false), Decide(1, 0, Reject("no"), "human")]) == REJECTED
  {
    RunThree(INIT, NewRun(0, true, false), Open(0, 0, 0, "draft", false), Decide(1, 0, Reject("no"), "human"));
    assert !Blank("no") by { assert !IsSpace("no"[0]); }
  }

  lemma ReachUnparked()
    ensures Run(REJECTED, [Go(1), Go(1), Go(1)] + [Go(1)]) == UNPARKED
  {
    RunThree(REJECTED, Go(1), Go(1), Go(1));
    assert Step(REJECTED, Go(1)).pcs[1] == ReadCard(NO, false, true);
    var w := REJECTED.(pcs := map[0 := Park(0, 0), 1 := Submit(NO, Report(NotStarted, None))]);
    assert Step(Step(Step(REJECTED, Go(1)), Go(1)), Go(1)) == w;
    RunConcat(REJECTED, [Go(1), Go(1), Go(1)], [Go(1)]);
    RunOne(w, Go(1));
    assert w.runs[0].turns + [TOLD.turns[0]] == TOLD.turns;
  }

  lemma ReachStranded()
    ensures Run(UNPARKED, [Go(1), Go(0)]) == STRANDED
  {
    RunConcat(UNPARKED, [Go(1)], [Go(0)]);
    RunOne(UNPARKED, Go(1));
    RunOne(Step(UNPARKED, Go(1)), Go(0));
    assert [Go(1)] + [Go(0)] == [Go(1), Go(0)];
  }

  /** A run that stays parked on a resolved card: nothing under way, and no sweep, ever clears it. */
  lemma ParkedOnResolved()
    ensures exists moves :: var w := Run(INIT, moves);
      FlagIs(w, 0, Some(0)) && 0 in w.cards && w.cards[0].resolved && Quiet(w, 0, 0)
  {
    ReachRejected();
    ReachUnparked();
    ReachStranded();
    var a := [NewRun(0, true, false), Open(0, 0, 0, "draft", false), Decide(1, 0, Reject("no"), "human")];
    var b := [Go(1), Go(1), Go(1)] + [Go(1)];
    RunConcat(INIT, a, b);
    RunConcat(INIT, a + b, [Go(1), Go(0)]);
    assert Run(INIT, a + b + [Go(1), Go(0)]) == STRANDED;
    StrandedIsQuiet();
  }

  lemma StrandedIsQuiet()
    ensures FlagIs(STRANDED, 0, Some(0)) && STRANDED.cards[0].resolved && Quiet(STRANDED, 0, 0)
  {
  }

  /** A resolution about to unpark the run, and a newer card that has just been opened and parked on. */
  const NEWER := World(
    map[0 := OneCard(Rejected, Some("no"), false), 1 := OneCard(Pending, None, false)],
    map[0 := RunState(false, true, Some(1), Some(1), [])], [],
    map[0 := Opened(0), 1 := Unpark(NO, Report(NotStarted, None)), 2 := Opened(1)], [(0, 1)])

  lemma ReachNewer()
    ensures Run(REJECTED, [Go(0), Go(1), Go(1)] + [Open(2, 0, 1, "draft", false), Go(2)]) == NEWER
  {
    var w := World(REJECTED.cards, map[0 := RunState(false, true, Some(0), Some(0), [])], [],
      map[0 := Opened(0), 1 := Unpark(NO, Report(NotStarted, None))], [(0, 1)]);
    RunThree(REJECTED, Go(0), Go(1), Go(1));
    assert Step(Step(Step(REJECTED, Go(0)), Go(1)), Go(1)) == w;
    var v := w.(cards := NEWER.cards, pcs := w.pcs[2 := Park(0, 1)]);
    assert Step(w, Open(2, 0, 1, "draft", false)) == v by {
      assert !Unsettled(w.cards[0]);
    }
    RunOne(w, Open(2, 0, 1, "draft", false));
    RunOne(v, Go(2));
    RunConcat(w, [Open(2, 0, 1, "draft", false)], [Go(2)]);
    assert [Open(2, 0, 1, "draft", false)] + [Go(2)] == [Open(2, 0, 1, "draft", false), Go(2)];
    RunConcat(REJECTED, [Go(0), Go(1), Go(1)], [Open(2, 0, 1, "draft", false), Go(2)]);
  }

  /** A run that a pending card had parked, unparked by the resolution of an older one. */
  lemma NewerCardUnparked()
    ensures exists moves, a :: var w := Run(INIT, moves);
      && a in w.pcs && w.pcs[a].Unpark? && FlagIs(w, 0, Some(1)) && 1 in w.cards && w.cards[1].decision == Pending
      && FlagIs(Step(w, Go(a)), 0, None) && w.pcs[a].n.card == 0
  {
    ReachRejected();
    ReachNewer();
    var a := [NewRun(0, true, false), Open(0, 0, 0, "draft", false), Decide(1, 0, Reject("no"), "human")];
    var b := [Go(0), Go(1), Go(1)] + [Open(2, 0, 1, "draft", false), Go(2)];
    RunConcat(INIT, a, b);
    assert Run(INIT, a + b) == NEWER;
    assert FlagIs(Step(NEWER, Go(1)), 0, None);
  }
}
