/** What the approval protocol guarantees in every interleaving of its callers. */
module ApprovalTheorems {
  import opened Wrappers
  import opened ApprovalModel
  import opened ApprovalInvariant

  /** A reachable world and any continuation of it. */
  lemma Reach(before: seq<Move>, after: seq<Move>)
    ensures var w, v := Run(INIT, before), Run(INIT, before + after);
      Inv(w) && Inv(v) && Later(w, v) && v == Run(w, after)
  {
    RunKeeps(INIT, before);
    RunConcat(INIT, before, after);
    RunKeeps(Run(INIT, before), after);
  }

  /* --------------------------------------------------------------- one winner -- */

  /**
   However many deciders and withdrawers race: a card leaves `pending` exactly
   when one caller's update is logged as the win, and never twice.
   */
  lemma OneWinner(moves: seq<Move>)
    ensures var w := Run(INIT, moves);
      && (forall i, j :: 0 <= i < j < |w.wins| ==> w.wins[i].0 != w.wins[j].0)
      && (forall id :: id in w.cards ==> (w.cards[id].decision != Pending <==> exists i :: 0 <= i < |w.wins| && w.wins[i].0 == id))
  {
    RunKeeps(INIT, moves);
    var w := Run(INIT, moves);
    forall id | id in w.cards
      ensures w.cards[id].decision != Pending <==> exists i :: 0 <= i < |w.wins| && w.wins[i].0 == id
    {
      assert Won(w, id) <==> w.cards[id].decision != Pending;
    }
  }

  /** A decision, its editor text, its reason and its decider never change once made. */
  lemma DecisionsArePermanent(before: seq<Move>, after: seq<Move>, id: CardId)
    requires id in Run(INIT, before).cards && Run(INIT, before).cards[id].decision != Pending
    ensures var c := Run(INIT, before).cards[id]; var v := Run(INIT, before + after);
      && id in v.cards && v.cards[id].decision == c.decision && v.cards[id].decidedBy == c.decidedBy
      && v.cards[id].edited == c.edited && v.cards[id].reason == c.reason && v.cards[id].draft == c.draft
      && (c.decision == Edited ==> c.edited.Some? && !Blank(c.edited.value))
      && (c.decision == Rejected ==> c.reason.Some? && !Blank(c.reason.value))
  {
    Reach(before, after);
    var w := Run(INIT, before);
    assert CardOk(w, id, w.cards[id]) && LaterCard(w.cards[id], Run(INIT, before + after).cards[id]);
  }

  /**
   What a loser, or a withdrawer, is told stays true of the row for ever: the
   winning decision, or, for a withdraw that found an open id and reports
   success, a withdrawn row.
   */
  lemma AnswersStayTrue(before: seq<Move>, after: seq<Move>, a: Actor)
    requires a in Run(INIT, before).pcs
    ensures var pc := Run(INIT, before).pcs[a]; var v := Run(INIT, before + after);
      && (pc.AlreadyDecided? ==> pc.card in v.cards && v.cards[pc.card].decision == pc.decision && pc.decision != Pending)
      && (pc.Retracted? && pc.lost.None? ==> pc.card in v.cards && v.cards[pc.card].decision == Withdrawn)
      && (pc.Retracted? && pc.lost.Some? ==>
            pc.card in v.cards && v.cards[pc.card].decision == pc.lost.value && Resolvable(pc.lost.value))
      && (pc.Consulted? && pc.lost.Some? ==>
            pc.last.Some? && pc.last.value in v.cards && v.cards[pc.last.value].decision == pc.lost.value)
  {
    Reach(before, after);
    var w := Run(INIT, before);
    assert PcOk(w, w.pcs[a]);
    PcStays(w, Run(INIT, before + after), w.pcs[a]);
  }

  /* ----------------------------------------------------------- at most one send -- */

  /** The text the customer is to get: the human's if the card was edited, the model's if it was approved as it stood. */
  predicate IsTextOf(c: Card, text: Text) {
    && (c.decision == Approved || c.decision == Edited)
    && (c.decision == Approved ==> text == c.draft)
    && (c.decision == Edited ==> c.edited.Some? && text == c.edited.value)
  }

  /**
   `sender.send` is called at most once per card, only for an approved or edited
   card that was not itself a shadow card, and with exactly the text the card's
   final row carries.
   */
  lemma AtMostOneSend(before: seq<Move>, after: seq<Move>)
    ensures var w, v := Run(INIT, before), Run(INIT, before + after);
      && |w.sends| <= |v.sends|
      && (forall i, j :: 0 <= i < j < |w.sends| ==> w.sends[i].card != w.sends[j].card)
      && (forall i :: 0 <= i < |w.sends| ==>
            var id := w.sends[i].card;
            && id in v.cards && !v.cards[id].shadow
            && IsTextOf(v.cards[id], w.sends[i].text) && v.sends[i].card == id)
  {
    Reach(before, after);
    var w, v := Run(INIT, before), Run(INIT, before + after);
    forall i | 0 <= i < |w.sends|
      ensures var id := w.sends[i].card;
        && id in v.cards && !v.cards[id].shadow
        && IsTextOf(v.cards[id], w.sends[i].text) && v.sends[i].card == id
    {
      assert CardOk(v, w.sends[i].card, v.cards[w.sends[i].card]);
      assert SendOk(w, w.sends[i]) && LaterSend(w.sends[i], v.sends[i]);
      assert LaterCard(w.cards[w.sends[i].card], v.cards[w.sends[i].card]);
    }
  }

  /* ------------------------------------------------------------ truthful report -- */

  /**
   For an approved or edited card the delivery a resolution turn reports is
   final (never `none` or `sending`), equals the row's in every later state, and
   is `sent` only if the card's one send returned sent. A turn carries the row's
   decision, outbound text and reason, and only the owning run accepts it.
   */
  lemma TruthfulReport(before: seq<Move>, after: seq<Move>, run: RunId, i: nat)
    requires run in Run(INIT, before).runs && i < |Run(INIT, before).runs[run].turns|
    ensures var t := Run(INIT, before).runs[run].turns[i]; var v := Run(INIT, before + after);
      && t.card in v.cards && v.cards[t.card].run == run
      && run in v.runs && i < |v.runs[run].turns| && v.runs[run].turns[i] == t
      && t.decision == v.cards[t.card].decision && t.reason == v.cards[t.card].reason
      && (t.decision == Approved || t.decision == Edited || t.decision == Rejected)
      && (t.decision != Rejected ==>
            && t.text.Some? && IsTextOf(v.cards[t.card], t.text.value)
            && t.report.delivery in {Sent, Blocked, Suppressed, InDoubt} && t.report.delivery == v.cards[t.card].delivery
            && (t.report.delivery == Sent ==>
                  exists k :: 0 <= k < |v.sends| && v.sends[k].card == t.card && v.sends[k].outcome == Some(WasSent)))
      && (t.decision == Rejected ==> t.text == None && t.report == Report(NotStarted, None))
  {
    Reach(before, after);
    var w, v := Run(INIT, before), Run(INIT, before + after);
    var t := w.runs[run].turns[i];
    assert RunOk(w, run, w.runs[run]) && TurnOk(w, run, t);
    TurnStays(w, v, run, t);
    assert LaterRun(w.runs[run], v.runs[run]);
    assert CardOk(v, t.card, v.cards[t.card]);
    if t.report.delivery == Sent { assert SentFor(v, t.card); }
  }

  predicate Accepted(w: World, run: RunId, i: int) {
    run in w.runs && 0 <= i < |w.runs[run].turns|
  }

  function TurnAt(w: World, run: RunId, i: int): Turn
    requires Accepted(w, run, i)
  {
    w.runs[run].turns[i]
  }

  /**
   `resolution_delivered_at` is set only on a row whose resolution turn the owning
   run accepted, and no run ever accepts a card's turn twice, nor do two runs.
   */
  lemma ResolutionExactlyOnce(moves: seq<Move>)
    ensures var w := Run(INIT, moves);
      && (forall id :: id in w.cards && w.cards[id].resolved ==>
            Resolvable(w.cards[id].decision) && HasTurn(w, w.cards[id].run, id))
      && (forall r, s, i, j :: Accepted(w, r, i) && Accepted(w, s, j) && TurnAt(w, r, i).card == TurnAt(w, s, j).card
           ==> r == s && i == j)
  {
    RunKeeps(INIT, moves);
    var w := Run(INIT, moves);
    forall id | id in w.cards && w.cards[id].resolved
      ensures Resolvable(w.cards[id].decision) && HasTurn(w, w.cards[id].run, id)
    {
      assert CardOk(w, id, w.cards[id]);
    }
    forall r, s, i, j | Accepted(w, r, i) && Accepted(w, s, j) && TurnAt(w, r, i).card == TurnAt(w, s, j).card
      ensures r == s && i == j
    {
      assert RunOk(w, r, w.runs[r]) && RunOk(w, s, w.runs[s]);
      assert TurnOk(w, r, w.runs[r].turns[i]) && TurnOk(w, s, w.runs[s].turns[j]);
    }
  }

  /* -------------------------------------------------------------------- parking -- */

  /**
   In every reachable state a run parked on an id has a card with that id of its
   own, and holds at most one slot: one card that is pending, being delivered, or
   in doubt.
   */
  lemma ParkedOnOwnCard(moves: seq<Move>)
    ensures var w := Run(INIT, moves);
      && (forall r :: r in w.runs && w.runs[r].open.Some? ==>
            w.runs[r].open.value in w.cards && w.cards[w.runs[r].open.value].run == r)
      && (forall c, d :: c in w.cards && d in w.cards && w.cards[c].run == w.cards[d].run && Unsettled(w.cards[c]) && Unsettled(w.cards[d])
           ==> c == d)
  {
    RunKeeps(INIT, moves);
    var w := Run(INIT, moves);
    forall r | r in w.runs && w.runs[r].open.Some?
      ensures w.runs[r].open.value in w.cards && w.cards[w.runs[r].open.value].run == r
    {
      assert RunOk(w, r, w.runs[r]);
    }
  }

  /* ------------------------------------------------------ who can never be sent -- */

  ghost predicate NeverSent(w: World, id: CardId) {
    forall moves: seq<Move> :: !Logged(Run(w, moves), id)
  }

  /** A delivery that has started, with no send behind it and nobody entitled to one. */
  ghost predicate Spent(w: World, id: CardId) {
    id in w.cards && w.cards[id].delivery != NotStarted && !Logged(w, id) && forall a :: !Transmits(w, a, id)
  }

  /** A send is logged only by a caller that has the right to send. */
  lemma NewLogEntry(w: World, m: Move, id: CardId)
    requires Logged(Step(w, m), id)
    ensures Logged(w, id) || (m.Go? && Transmits(w, m.who, id))
  {
    var v := Step(w, m);
    var i :| 0 <= i < |v.sends| && v.sends[i].card == id;
    if i < |w.sends| && w.sends[i].card == id {
      assert Logged(w, id);
    }
  }

  /** The right to send is gained only by starting a delivery that had not started. */
  lemma NewRight(w: World, m: Move, id: CardId, a: Actor)
    requires Transmits(Step(w, m), a, id)
    ensures Transmits(w, a, id) ||
      (m == Go(a) && a in w.pcs && w.pcs[a].Start? && w.pcs[a].n.card == id && Moved(w, id, {NotStarted}))
  {
    if Enabled(w, m) && m.Go? { GoRight(w, m.who, id, a); }
  }

  lemma GoRight(w: World, b: Actor, id: CardId, a: Actor)
    requires b in w.pcs && Transmits(DoGo(w, b), a, id)
    ensures Transmits(w, a, id) || (a == b && w.pcs[a].Start? && w.pcs[a].n.card == id && Moved(w, id, {NotStarted}))
  {
  }

  lemma SpentStays(w: World, m: Move, id: CardId)
    requires Spent(w, id) && Later(w, Step(w, m))
    ensures Spent(Step(w, m), id)
  {
    var v := Step(w, m);
    assert LaterCard(w.cards[id], v.cards[id]);
    if Logged(v, id) { NewLogEntry(w, m, id); }
    forall a ensures !Transmits(v, a, id) {
      if Transmits(v, a, id) { NewRight(w, m, id, a); }
    }
  }

  lemma {:induction false} SpentIsSilent(w: World, moves: seq<Move>, id: CardId)
    requires Inv(w) && Spent(w, id)
    ensures !Logged(Run(w, moves), id)
    decreases |moves|
  {
    if moves != [] {
      StepKeeps(w, moves[0]);
      SpentStays(w, moves[0], id);
      SpentIsSilent(Step(w, moves[0]), moves[1..], id);
    }
  }

  lemma RightIsUsed(w: World, a: Actor, id: CardId)
    requires Transmits(w, a, id)
    ensures !NeverSent(w, id)
  {
    RunOne(w, Go(a));
    assert DoGo(w, a).sends[|w.sends|].card == id;
    assert Logged(Run(w, [Go(a)]), id);
  }

  lemma LoggedIsSent(w: World, id: CardId)
    requires Logged(w, id)
    ensures !NeverSent(w, id)
  {
    assert Logged(Run(w, []), id);
  }

  /**
   Exactly when a started delivery is silent for ever: no send of the card has
   been made and no caller still holds the right to make one.
   */
  lemma StartedSilenceIff(w: World, id: CardId)
    requires Inv(w) && id in w.cards && w.cards[id].delivery != NotStarted
    ensures NeverSent(w, id) <==> !Logged(w, id) && forall a :: !Transmits(w, a, id)
  {
    if Logged(w, id) {
      LoggedIsSent(w, id);
    } else if a :| Transmits(w, a, id) {
      RightIsUsed(w, a, id);
    } else {
      forall moves: seq<Move> ensures !Logged(Run(w, moves), id) { SpentIsSilent(w, moves, id); }
    }
  }

  /**
   The resolution turn of a suppressed card tells the run that nothing was sent
   and nothing will be. That is NOT always so, because the suppressing update
   also accepts a row that is `sending`. It is so exactly when the update found
   the row at `none`.
   */
  lemma SuppressionIsSilentIff(moves: seq<Move>, a: Actor)
    requires SettlesFresh(Run(INIT, moves), a)
    ensures var w := Run(INIT, moves); var v := Step(w, Go(a)); var id := w.pcs[a].n.card;
      && id in v.cards && v.cards[id].delivery == w.pcs[a].to
      && (NeverSent(v, id) <==> w.cards[id].delivery == NotStarted)
  {
    RunKeeps(INIT, moves);
    RunKeeps(INIT, moves + [Go(a)]);
    RunConcat(INIT, moves, [Go(a)]);
    RunOne(Run(INIT, moves), Go(a));
    FreshIsUntouchedIff(Run(INIT, moves), a);
    StartedSilenceIff(Step(Run(INIT, moves), Go(a)), Run(INIT, moves).pcs[a].n.card);
  }

  lemma FreshIsUntouchedIff(w: World, a: Actor)
    requires Inv(w) && SettlesFresh(w, a)
    ensures var v := Step(w, Go(a)); var id := w.pcs[a].n.card;
      && id in v.cards && v.cards[id].delivery == w.pcs[a].to && v.cards[id].delivery != NotStarted
      && (w.cards[id].delivery == NotStarted <==> !Logged(v, id) && forall b :: !Transmits(v, b, id))
  {
    var id := w.pcs[a].n.card;
    assert PcOk(w, w.pcs[a]);
    SettlingSendsNothing(w, a, id);
    if w.cards[id].delivery == NotStarted { NotStartedIsUntouched(w, id); }
  }

  /** About to settle a row that is `none` or `sending`, as only suppression (or a missing thread) does. */
  predicate SettlesFresh(w: World, a: Actor) {
    a in w.pcs && w.pcs[a].Settle? && w.pcs[a].from == {NotStarted, Sending} && Moved(w, w.pcs[a].n.card, w.pcs[a].from)
  }

  lemma SettlingSendsNothing(w: World, a: Actor, id: CardId)
    requires SettlesFresh(w, a) && w.pcs[a].n.card == id && Terminal(w.pcs[a].to)
    ensures var v := Step(w, Go(a));
      && id in v.cards && v.cards[id].delivery == w.pcs[a].to && v.cards[id].delivery != NotStarted
      && Logged(v, id) == Logged(w, id) && (forall b :: Transmits(v, b, id) == Transmits(w, b, id))
  {
  }

  lemma RunThree(w: World, a: Move, b: Move, c: Move)
    ensures Run(w, [a, b, c]) == Step(Step(Step(w, a), b), c)
  {
    RunOne(w, a);
    RunOne(Step(w, a), b);
    RunOne(Step(Step(w, a), b), c);
    RunConcat(w, [a], [b]);
    RunConcat(w, [a] + [b], [c]);
    assert [a, b, c] == [a] + [b] + [c];
  }

  /** The card of the run below, approved by a human, at a given delivery. */
  function Sample(delivery: Delivery): Card {
    Card(0, "draft", false, Approved, Some("human"), None, None, delivery, None, false)
  }

  const NOTICE := Notice(0, 0, Approved, Some("draft"), None)

  /** A card is opened and approved; its PATCH handler starts the delivery. */
  const STARTING := World(
    map[0 := Sample(NotStarted)], map[0 := RunState(false, true, None, None, [])], [], map[0 := Park(0, 0), 1 := ReadRun(NOTICE)], [(0, 1)])
  const ENTITLED := STARTING.(cards := map[0 := Sample(Sending)], pcs := map[0 := Park(0, 0), 1 := Transmit(NOTICE)])

  /** The send goes out, the run is shadowed, and the sweeper picks the card up. */
  const SWEPT := ENTITLED.(
    runs := map[0 := RunState(true, true, None, None, [])], sends := [Send(0, "draft", None)],
    pcs := map[0 := Park(0, 0), 1 := InFlight(NOTICE, 0), 2 := ReadRun(NOTICE)])
  const SUPPRESSED := SWEPT.(
    cards := map[0 := Sample(Suppressed)], pcs := SWEPT.pcs[2 := Unpark(NOTICE, Report(Suppressed, None))])

  const BEFORE_SEND: seq<Move> := [NewRun(0, true, false), Open(0, 0, 0, "draft", false), Decide(1, 0, Approve, "human")] + [Go(1), Go(1), Go(1)]
  const AFTER_SEND: seq<Move> := [Go(1), Ratchet(0), Sweep(2, 0)] + [Go(2), Go(2), Go(2)] + [SendEnds(1, Some(WasSent)), Go(2), Go(2)]

  lemma ReachEntitled()
    ensures Run(INIT, BEFORE_SEND) == ENTITLED
  {
    RunThree(INIT, NewRun(0, true, false), Open(0, 0, 0, "draft", false), Decide(1, 0, Approve, "human"));
    ReachStarting();
    RunThree(STARTING, Go(1), Go(1), Go(1));
    StartingEntitles();
    RunConcat(INIT, [NewRun(0, true, false), Open(0, 0, 0, "draft", false), Decide(1, 0, Approve, "human")], [Go(1), Go(1), Go(1)]);
  }

  lemma ReachStarting()
    ensures Step(Step(Step(INIT, NewRun(0, true, false)), Open(0, 0, 0, "draft", false)), Decide(1, 0, Approve, "human")) == STARTING
  {
  }

  lemma StartingEntitles()
    ensures Step(Step(Step(STARTING, Go(1)), Go(1)), Go(1)) == ENTITLED
  {
  }

  lemma EntitledIsSwept()
    ensures Step(Step(Step(ENTITLED, Go(1)), Ratchet(0)), Sweep(2, 0)) == SWEPT
  {
  }

  lemma SweptIsSuppressed()
    ensures Step(Step(Step(SWEPT, Go(2)), Go(2)), Go(2)) == SUPPRESSED
  {
  }

  /**
   A run in which the customer did receive the message and the resolution turn
   says it was suppressed: a run is shadowed while its card is being sent, and
   the sweeper settles the card before the send returns.
   */
  lemma SuppressedButSent()
    ensures var w := Run(INIT, BEFORE_SEND + AFTER_SEND);
      && w.sends == [Send(0, "draft", Some(WasSent))]
      && 0 in w.runs && w.runs[0].turns == [Turn(0, Approved, Some("draft"), None, Report(Suppressed, None))]
  {
    ReachEntitled();
    RunConcat(INIT, BEFORE_SEND, AFTER_SEND);
    RunThree(ENTITLED, Go(1), Ratchet(0), Sweep(2, 0));
    EntitledIsSwept();
    RunThree(SWEPT, Go(2), Go(2), Go(2));
    SweptIsSuppressed();
    RunThree(SUPPRESSED, SendEnds(1, Some(WasSent)), Go(2), Go(2));
    RunConcat(ENTITLED, [Go(1), Ratchet(0), Sweep(2, 0)], [Go(2), Go(2), Go(2)]);
    RunConcat(ENTITLED, [Go(1), Ratchet(0), Sweep(2, 0)] + [Go(2), Go(2), Go(2)], [SendEnds(1, Some(WasSent)), Go(2), Go(2)]);
    SuppressedTellsTheRun();
  }

  lemma SuppressedTellsTheRun()
    ensures var w := Step(Step(Step(SUPPRESSED, SendEnds(1, Some(WasSent))), Go(2)), Go(2));
      && w.sends == [Send(0, "draft", Some(WasSent))]
      && 0 in w.runs && w.runs[0].turns == [Turn(0, Approved, Some("draft"), None, Report(Suppressed, None))]
  {
  }

  /* --------------------------------------------------------------- shadow safety -- */

  /** Shadowed by its own flag or by its run's. */
  predicate Shadowed(w: World, id: CardId) {
    id in w.cards && (w.cards[id].shadow || (w.cards[id].run in w.runs && w.runs[w.cards[id].run].shadow))
  }

  /** A notifier that read the run before it was shadowed and has not yet tried to start the delivery. */
  predicate Stale(w: World, a: Actor, id: CardId) {
    a in w.pcs &&
    match w.pcs[a]
    case ReadCard(n, shadow, pinned) =>
      n.card == id && Outgoing(n.decision) && !shadow && pinned && id in w.cards && !w.cards[id].shadow
    case Start(n) => n.card == id
    case _ => false
  }

  ghost predicate Hushed(w: World, id: CardId) {
    Shadowed(w, id) && !Logged(w, id) && (forall a :: !Stale(w, a, id) && !Transmits(w, a, id))
  }

  lemma NewStale(w: World, m: Move, id: CardId, a: Actor)
    requires PcsOk(w) && Shadowed(w, id) && Stale(Step(w, m), a, id)
    ensures Stale(w, a, id)
  {
    if Enabled(w, m) && m.Go? && m.who == a {
      GoStale(w, a, id);
    } else if a in w.pcs {
      OthersStale(w, m, id, a);
    }
  }

  lemma OthersStale(w: World, m: Move, id: CardId, a: Actor)
    requires a in w.pcs && m != Go(a) && id in w.cards && Stale(Step(w, m), a, id)
    ensures Stale(w, a, id)
  {
    if Enabled(w, m) && m.Go? { OthersGoStale(w, m.who, id, a); }
  }

  lemma OthersGoStale(w: World, b: Actor, id: CardId, a: Actor)
    requires a in w.pcs && b in w.pcs && a != b && id in w.cards && Stale(DoGo(w, b), a, id)
    ensures Stale(w, a, id)
  {
    assert id in DoGo(w, b).cards && DoGo(w, b).cards[id].shadow == w.cards[id].shadow;
  }

  lemma GoStale(w: World, a: Actor, id: CardId)
    requires a in w.pcs && PcOk(w, w.pcs[a]) && Shadowed(w, id) && Stale(DoGo(w, a), a, id)
    ensures Stale(w, a, id)
  {
  }

  lemma HushedStays(w: World, m: Move, id: CardId)
    requires PcsOk(w) && Hushed(w, id) && Later(w, Step(w, m))
    ensures Hushed(Step(w, m), id)
  {
    var v := Step(w, m);
    assert LaterCard(w.cards[id], v.cards[id]);
    if Logged(v, id) { NewLogEntry(w, m, id); }
    forall a ensures !Stale(v, a, id) && !Transmits(v, a, id) {
      if Stale(v, a, id) { NewStale(w, m, id, a); }
      if Transmits(v, a, id) { NewRight(w, m, id, a); }
      assert !Stale(w, a, id) && !Transmits(w, a, id);
    }
  }

  lemma {:induction false} HushedIsSilent(w: World, moves: seq<Move>, id: CardId)
    requires Inv(w) && Hushed(w, id)
    ensures !Logged(Run(w, moves), id)
    decreases |moves|
  {
    if moves != [] {
      StepKeeps(w, moves[0]);
      HushedStays(w, moves[0], id);
      HushedIsSilent(Step(w, moves[0]), moves[1..], id);
    }
  }

  /** What can still be sent after a move could be sent before it. */
  lemma SentAfterMove(w: World, m: Move, id: CardId)
    requires !NeverSent(Step(w, m), id)
    ensures !NeverSent(w, id)
  {
    var more: seq<Move> :| Logged(Run(Step(w, m), more), id);
    RunOne(w, m);
    RunConcat(w, [m], more);
    assert Logged(Run(w, [m] + more), id);
  }

  /** A notifier about to start a delivery that has not started goes on to send. */
  lemma StartSends(u: World, a: Actor, id: CardId)
    requires a in u.pcs && u.pcs[a].Start? && u.pcs[a].n.card == id && id in u.cards && u.cards[id].delivery == NotStarted
    ensures !NeverSent(u, id)
  {
    assert Transmits(Step(u, Go(a)), a, id);
    RightIsUsed(Step(u, Go(a)), a, id);
    SentAfterMove(u, Go(a), id);
  }

  /** A stale notifier that has read the run goes on to start the delivery. */
  lemma StaleStarts(w: World, a: Actor, id: CardId)
    requires Stale(w, a, id) && w.pcs[a].ReadCard? && PcOk(w, w.pcs[a])
    ensures var u := Step(w, Go(a)); a in u.pcs && u.pcs[a].Start? && u.pcs[a].n.card == id && u.cards == w.cards
  {
  }

  /** A stale notifier goes on to send. */
  lemma StaleSends(w: World, a: Actor, id: CardId)
    requires PcsOk(w) && Stale(w, a, id) && id in w.cards && w.cards[id].delivery == NotStarted
    ensures !NeverSent(w, id)
  {
    if w.pcs[a].ReadCard? {
      StaleStarts(w, a, id);
      StartSends(Step(w, Go(a)), a, id);
      SentAfterMove(w, Go(a), id);
    } else {
      StartSends(w, a, id);
    }
  }

  /**
   Shadow safety, exactly: a shadowed card whose delivery has not started is never
   sent, however many notifies and crashes follow, if and only if no notifier in
   flight read the run before the flag went up and has yet to start the delivery.
   */
  lemma ShadowSafetyIff(moves: seq<Move>, id: CardId)
    requires Shadowed(Run(INIT, moves), id) && Run(INIT, moves).cards[id].delivery == NotStarted
    ensures var w := Run(INIT, moves); NeverSent(w, id) <==> forall a :: !Stale(w, a, id)
  {
    RunKeeps(INIT, moves);
    var w := Run(INIT, moves);
    if a :| Stale(w, a, id) {
      StaleSends(w, a, id);
    } else {
      NotStartedIsUntouched(w, id);
      forall more: seq<Move> ensures !Logged(Run(w, more), id) { HushedIsSilent(w, more, id); }
    }
  }

  /** The run is shadowed between the two reads of a notifier. */
  const SHADOWED := STARTING.(
    runs := map[0 := RunState(true, true, None, None, [])], pcs := map[0 := Park(0, 0), 1 := ReadCard(NOTICE, false, true)])

  lemma ReachShadowed()
    ensures Run(INIT, [NewRun(0, true, false), Open(0, 0, 0, "draft", false), Decide(1, 0, Approve, "human")] + [Go(1), Ratchet(0)]) == SHADOWED
  {
    RunThree(INIT, NewRun(0, true, false), Open(0, 0, 0, "draft", false), Decide(1, 0, Approve, "human"));
    ReachStarting();
    RunConcat(INIT, [NewRun(0, true, false), Open(0, 0, 0, "draft", false), Decide(1, 0, Approve, "human")], [Go(1), Ratchet(0)]);
    RunOne(STARTING, Go(1));
    RunOne(Step(STARTING, Go(1)), Ratchet(0));
    RunConcat(STARTING, [Go(1)], [Ratchet(0)]);
    assert [Go(1)] + [Ratchet(0)] == [Go(1), Ratchet(0)];
  }

  lemma ShadowedSends()
    ensures Run(SHADOWED, [Go(1), Go(1), Go(1)]).sends == [Send(0, "draft", None)]
  {
    RunThree(SHADOWED, Go(1), Go(1), Go(1));
    assert Step(SHADOWED, Go(1)).pcs[1] == Start(NOTICE);
    assert Step(Step(SHADOWED, Go(1)), Go(1)).pcs[1] == Transmit(NOTICE);
  }

  /** The condition can fail: a card of a run already shadowed, not yet started, and sent all the same. */
  lemma ShadowedButSent()
    ensures exists moves, more: seq<Move>, a :: var w := Run(INIT, moves);
      && Shadowed(w, 0) && w.cards[0].delivery == NotStarted && Stale(w, a, 0)
      && Run(w, more).sends == [Send(0, "draft", None)]
  {
    ReachShadowed();
    ShadowedSends();
    var moves := [NewRun(0, true, false), Open(0, 0, 0, "draft", false), Decide(1, 0, Approve, "human")] + [Go(1), Ratchet(0)];
    var w := Run(INIT, moves);
    assert Shadowed(w, 0) && Stale(w, 1, 0) && Run(w, [Go(1), Go(1), Go(1)]).sends == [Send(0, "draft", None)];
  }

  lemma LoggedIsNoShadowCard(w: World, id: CardId)
    requires SendsOk(w) && Logged(w, id)
    ensures id in w.cards && !w.cards[id].shadow
  {
    var i :| 0 <= i < |w.sends| && w.sends[i].card == id;
    assert SendOk(w, w.sends[i]);
  }

  /** A card that is itself a shadow card is never sent, with no condition at all. */
  lemma ShadowCardIsNeverSent(moves: seq<Move>, id: CardId)
    requires id in Run(INIT, moves).cards && Run(INIT, moves).cards[id].shadow
    ensures NeverSent(Run(INIT, moves), id)
  {
    RunKeeps(INIT, moves);
    var w := Run(INIT, moves);
    forall more: seq<Move> ensures !Logged(Run(w, more), id) {
      RunKeeps(w, more);
      assert LaterCard(w.cards[id], Run(w, more).cards[id]);
      if Logged(Run(w, more), id) { LoggedIsNoShadowCard(Run(w, more), id); }
    }
  }
}