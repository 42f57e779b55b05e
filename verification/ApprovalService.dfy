/**
 The notifier, the PATCH handler and the port as the source writes them: one
 statement after another over shared tables that other callers keep changing at
 every await. Each statement is proved to be the move of ApprovalModel its caller
 is suspended at, so the theorems about all runs hold of this code.
 */
module ApprovalService {
  import opened Wrappers
  import opened ApprovalModel
  import opened ApprovalInvariant
  import opened ApprovalOutcomes

  /** The moves others make during a call's n-th await, and how its send ends (None: it throws). */
  datatype Env = Env(others: nat -> seq<Move>, outcome: Option<SendResult>)

  predicate MoveOf(m: Move, me: Actor) {
    !m.NewRun? && !m.Ratchet? && m.who == me
  }

  predicate OthersOnly(moves: seq<Move>, me: Actor) {
    forall i :: 0 <= i < |moves| ==> !MoveOf(moves[i], me)
  }

  ghost predicate Fair(e: Env, me: Actor) {
    forall n: nat :: OthersOnly(e.others(n), me)
  }

  lemma OtherLeavesMe(w: World, m: Move, me: Actor)
    requires me in w.pcs && !MoveOf(m, me)
    ensures me in Step(w, m).pcs && Step(w, m).pcs[me] == w.pcs[me]
  {
    if Enabled(w, m) && m.Go? { GoLeavesOthers(w, m.who, me); }
  }

  /** What a suspended call may rely on, and that its run exists. */
  lemma PcFacts(history: seq<Move>, a: Actor)
    requires a in Run(INIT, history).pcs
    ensures PcOk(Run(INIT, history), Run(INIT, history).pcs[a])
  {
    RunKeeps(INIT, history);
  }

  lemma RunExists(history: seq<Move>, id: CardId)
    requires id in Run(INIT, history).cards
    ensures Run(INIT, history).cards[id].run in Run(INIT, history).runs
  {
    RunKeeps(INIT, history);
    assert CardOk(Run(INIT, history), id, Run(INIT, history).cards[id]);
  }

  lemma {:induction false} OthersLeaveMe(w: World, moves: seq<Move>, me: Actor)
    requires me in w.pcs && OthersOnly(moves, me)
    ensures me in Run(w, moves).pcs && Run(w, moves).pcs[me] == w.pcs[me]
    decreases |moves|
  {
    if moves != [] {
      OtherLeavesMe(w, moves[0], me);
      OthersLeaveMe(Step(w, moves[0]), moves[1..], me);
    }
  }

  lemma Extend(history: seq<Move>, m: Move)
    ensures Run(INIT, history + [m]) == Step(Run(INIT, history), m)
  {
    RunOne(Run(INIT, history), m);
    RunConcat(INIT, history, [m]);
  }

  datatype DecideResult = Won(row: Card) | Lost(row: Card) | NotFound | InvalidInput

  datatype Withdrawal = Gone | Beaten(decision: Decision)

  class Approvals {
    var cards: map<CardId, Card>
    var runs: map<RunId, RunState>
    var sends: seq<Send>
    var pcs: map<Actor, Pc>
    var wins: seq<(CardId, Actor)>
    ghost var history: seq<Move>

    function Now(): World
      reads this
    {
      World(cards, runs, sends, pcs, wins)
    }

    ghost predicate Valid()
      reads this
    {
      Now() == Run(INIT, history)
    }

    ghost predicate At(me: Actor, pc: Pc)
      reads this
    {
      Valid() && me in pcs && pcs[me] == pc
    }

    constructor ()
      ensures Valid() && history == []
    {
      cards, runs, sends, pcs, wins, history := map[], map[], [], map[], [], [];
    }

    /** An await: the others run. */
    method Await(me: Actor, e: Env, n: nat)
      requires Valid() && me in pcs && Fair(e, me)
      modifies this
      ensures At(me, old(pcs[me])) && history == old(history) + e.others(n)
    {
      OthersLeaveMe(Now(), e.others(n), me);
      RunConcat(INIT, history, e.others(n));
      var w := Run(Now(), e.others(n));
      cards, runs, sends, pcs, wins := w.cards, w.runs, w.sends, w.pcs, w.wins;
      history := history + e.others(n);
    }

    /* ------------------------------------------------------ the repository -- */

    method DecideApproval(me: Actor, id: CardId, input: Input, email: Text) returns (result: DecideResult)
      requires Valid() && me !in pcs
      modifies this
      ensures Valid() && (history == old(history) || history == old(history) + [Decide(me, id, input, email)])
      ensures result.InvalidInput? <==> (input.Edit? && Blank(input.text)) || (input.Reject? && Blank(input.reason))
      ensures result.InvalidInput? ==> Now() == old(Now())
      ensures result.NotFound? ==> At(me, UnknownCard) && id !in old(cards) && cards == old(cards)
      ensures result.Lost? ==> At(me, AlreadyDecided(id, result.row.decision)) && id in cards && cards[id] == result.row && cards == old(cards)
      ensures result.Lost? ==> result.row.decision != Pending
      ensures result.Won? ==>
        && id in old(cards) && old(cards)[id].decision == Pending
        && id in cards && cards[id] == result.row == Decided(old(cards)[id], input, email) && Carries(result.row, input, email)
        && At(me, ReadRun(NoticeOf(id, result.row)))
      ensures runs == old(runs) && sends == old(sends)
    {
      if !ValidInput(input) { return InvalidInput; }
      Extend(history, Decide(me, id, input, email));
      history := history + [Decide(me, id, input, email)];
      if id !in cards {
        pcs := pcs[me := UnknownCard];
        return NotFound;
      }
      var row := cards[id];
      if row.decision != Pending {
        pcs := pcs[me := AlreadyDecided(id, row.decision)];
        return Lost(row);
      }
      row := Decided(row, input, email);
      cards, wins, pcs := cards[id := row], wins + [(id, me)], pcs[me := ReadRun(NoticeOf(id, row))];
      return Won(row);
    }

    method WithdrawApproval(me: Actor, id: CardId) returns (lost: Option<Decision>)
      requires At(me, Retract(id))
      modifies this
      ensures At(me, Retracted(id, lost)) && history == old(history) + [Go(me)]
      ensures cards ==
        if id in old(cards) && old(cards)[id].decision == Pending then old(cards)[id := old(cards)[id].(decision := Withdrawn)] else old(cards)
      ensures id in cards ==>
        if lost.None? then cards[id].decision == Withdrawn else cards[id].decision == lost.value && Resolvable(lost.value)
    {
      Extend(history, Go(me));
      history := history + [Go(me)];
      if id !in cards {
        lost := None;
      } else if cards[id].decision == Pending {
        cards, wins := cards[id := cards[id].(decision := Withdrawn)], wins + [(id, me)];
        lost := None;
      } else {
        lost := if cards[id].decision == Withdrawn then None else Some(cards[id].decision);
      }
      pcs := pcs[me := Retracted(id, lost)];
    }

    /**
     The compare-and-set on the delivery column. It touches nothing but the
     delivery and error of a row it found as expected, and of two callers that
     expect the same values only the first can move it to a new one.
     */
    method SetDelivery(id: CardId, from: set<Delivery>, to: Delivery, error: Option<Text>) returns (moved: bool)
      modifies this`cards
      ensures moved <==> id in old(cards) && old(cards)[id].delivery in from
      ensures !moved ==> cards == old(cards)
      ensures moved ==> cards.Keys == old(cards).Keys && forall d :: d in cards && d != id ==> cards[d] == old(cards)[d]
      ensures moved ==> cards[id].delivery == to && cards[id].error == error
      ensures moved ==> cards[id].(delivery := old(cards)[id].delivery, error := old(cards)[id].error) == old(cards)[id]
      ensures moved && to !in from ==> cards[id].delivery !in from
      ensures Now() == ApprovalModel.SetDelivery(old(Now()), id, from, to, error) && moved == Moved(old(Now()), id, from)
    {
      moved := id in cards && cards[id].delivery in from;
      if moved { cards := cards[id := cards[id].(delivery := to, error := error)]; }
    }

    method MarkResolutionDelivered(me: Actor, n: Notice)
      requires At(me, MarkResolved(n))
      modifies this
      ensures At(me, Finished(true)) && history == old(history) + [Go(me)]
      ensures n.card in cards ==> cards[n.card].resolved
    {
      Extend(history, Go(me));
      if n.card in cards { cards := cards[n.card := cards[n.card].(resolved := true)]; }
      pcs, history := pcs[me := Finished(true)], history + [Go(me)];
    }

    method GetRun(me: Actor, n: Notice) returns (run: Option<RunState>)
      requires At(me, ReadRun(n))
      modifies this
      ensures At(me, if run.None? then Finished(false) else ReadCard(n, run.value.shadow, run.value.pinned))
      ensures history == old(history) + [Go(me)]
    {
      Extend(history, Go(me));
      run := if n.run in runs then Some(runs[n.run]) else None;
      pcs := pcs[me := if run.None? then Finished(false) else ReadCard(n, run.value.shadow, run.value.pinned)];
      history := history + [Go(me)];
    }

    method GetApproval(me: Actor, n: Notice, shadow: bool, pinned: bool) returns (card: Option<Card>)
      requires At(me, ReadCard(n, shadow, pinned))
      modifies this
      ensures At(me, AfterCard(Now(), n, shadow, pinned)) && history == old(history) + [Go(me)]
      ensures card == if n.card in cards then Some(cards[n.card]) else None
    {
      Extend(history, Go(me));
      card := if n.card in cards then Some(cards[n.card]) else None;
      pcs, history := pcs[me := AfterCard(Now(), n, shadow, pinned)], history + [Go(me)];
    }

    /* --------------------------------------------------------- the notifier -- */

    /** One delivery transition, and what the row actually holds afterwards. */
    method SettleDelivery(me: Actor, e: Env, k: nat, n: Notice, from: set<Delivery>, to: Delivery, error: Option<Text>)
      returns (report: Report)
      requires At(me, Settle(n, from, to, error)) && Fair(e, me)
      modifies this
      ensures At(me, Unpark(n, report)) && old(history) <= history && Told(n, report)
    {
      OnlyOutgoing(me);
      Await(me, e, k);
      var moved := TryDelivery(me, n, from, to, error);
      report := Report(to, error);
      if !moved {
        Await(me, e, k + 1);
        report := RereadDelivery(me, n, to, error);
      }
      ReportHolds(me, n, report);
    }

    /** The report is final, and is what the row holds. */
    ghost predicate Told(n: Notice, report: Report)
      reads this
    {
      n.card in cards && Terminal(report.delivery) && report.delivery == cards[n.card].delivery
    }

    lemma ReportHolds(me: Actor, n: Notice, report: Report)
      requires At(me, Unpark(n, report)) && Outgoing(n.decision)
      ensures Told(n, report)
    {
      PcFacts(history, me);
    }

    /** Only an approved or edited card is ever delivered. */
    lemma OnlyOutgoing(me: Actor)
      requires Valid() && me in pcs && (pcs[me].Settle? || pcs[me].Start?)
      ensures Outgoing(pcs[me].n.decision)
    {
      PcFacts(history, me);
    }

    method TryDelivery(me: Actor, n: Notice, from: set<Delivery>, to: Delivery, error: Option<Text>) returns (moved: bool)
      requires At(me, Settle(n, from, to, error))
      modifies this
      ensures At(me, if moved then Unpark(n, Report(to, error)) else Reread(n, to, error)) && history == old(history) + [Go(me)]
    {
      Extend(history, Go(me));
      moved := SetDelivery(n.card, from, to, error);
      pcs := pcs[me := if moved then Unpark(n, Report(to, error)) else Reread(n, to, error)];
      history := history + [Go(me)];
    }

    method RereadDelivery(me: Actor, n: Notice, to: Delivery, error: Option<Text>) returns (report: Report)
      requires At(me, Reread(n, to, error))
      modifies this
      ensures At(me, Unpark(n, report)) && history == old(history) + [Go(me)]
    {
      Extend(history, Go(me));
      report := if n.card in cards then Report(cards[n.card].delivery, None) else Report(to, error);
      pcs, history := pcs[me := Unpark(n, report)], history + [Go(me)];
    }

    /** `none -> sending`, the guard against a second send. */
    method StartDelivery(me: Actor, n: Notice) returns (started: bool)
      requires At(me, Start(n))
      modifies this
      ensures At(me, if started then Transmit(n) else Settle(n, {Sending}, InDoubt, Some("re-entered while a send was in flight")))
      ensures history == old(history) + [Go(me)]
    {
      Extend(history, Go(me));
      assert Step(Now(), Go(me)) == DoStart(Now(), me, n);
      started := SetDelivery(n.card, {NotStarted}, Sending, None);
      pcs := pcs[me := if started then Transmit(n) else Settle(n, {Sending}, InDoubt, Some("re-entered while a send was in flight"))];
      history := history + [Go(me)];
    }

    /** The call of `sender.send`, during which the others run, and its outcome. */
    method CallSender(me: Actor, e: Env, k: nat, n: Notice) returns (result: SendResult)
      requires At(me, Transmit(n)) && Fair(e, me)
      modifies this
      ensures At(me, SettledAs(n, result)) && old(history) <= history
      ensures result == ResultOf(e.outcome)
    {
      Extend(history, Go(me));
      var i := |sends|;
      sends := sends + [Send(n.card, if n.text.Some? then n.text.value else "", None)];
      pcs, history := pcs[me := InFlight(n, i)], history + [Go(me)];
      Await(me, e, k);
      result := ResultOf(e.outcome);
      SendReturns(me, n, i, e.outcome);
    }

    method SendReturns(me: Actor, n: Notice, i: nat, outcome: Option<SendResult>)
      requires At(me, InFlight(n, i))
      modifies this
      ensures At(me, SettledAs(n, ResultOf(outcome))) && history == old(history) + [SendEnds(me, outcome)]
    {
      PcFacts(history, me);
      Extend(history, SendEnds(me, outcome));
      sends := sends[i := sends[i].(outcome := Some(ResultOf(outcome)))];
      pcs, history := pcs[me := SettledAs(n, ResultOf(outcome))], history + [SendEnds(me, outcome)];
    }

    method DeliverApproval(me: Actor, e: Env, k: nat, n: Notice, cardShadow: bool, runShadow: bool, pinned: bool)
      returns (report: Report)
      requires Fair(e, me)
      requires At(me, DeliveryPc(n, cardShadow || runShadow, pinned))
      modifies this
      ensures At(me, Unpark(n, report)) && old(history) <= history && Told(n, report)
    {
      if cardShadow || runShadow {
        report := SettleDelivery(me, e, k, n, {NotStarted, Sending}, Suppressed, None);
      } else if !pinned {
        report := SettleDelivery(me, e, k, n, {NotStarted, Sending}, Blocked, Some("no_pinned_thread"));
      } else {
        report := StartAndSend(me, e, k, n);
      }
    }

    /** Exactly one caller moves the row to `sending`, and only that caller sends. */
    method StartAndSend(me: Actor, e: Env, k: nat, n: Notice) returns (report: Report)
      requires At(me, Start(n)) && Fair(e, me)
      modifies this
      ensures At(me, Unpark(n, report)) && old(history) <= history && Told(n, report)
    {
      Await(me, e, k);
      var started := StartDelivery(me, n);
      if !started {
        report := SettleDelivery(me, e, k + 1, n, {Sending}, InDoubt, Some("re-entered while a send was in flight"));
        return;
      }
      var result := CallSender(me, e, k + 1, n);
      report := SettleSend(me, e, k + 2, n, result);
    }

    /** Record what the sender answered. */
    method SettleSend(me: Actor, e: Env, k: nat, n: Notice, result: SendResult) returns (report: Report)
      requires At(me, SettledAs(n, result)) && Fair(e, me)
      modifies this
      ensures At(me, Unpark(n, report)) && old(history) <= history && Told(n, report)
    {
      match result {
        case WasSent => report := SettleDelivery(me, e, k, n, {Sending}, Sent, None);
        case WasBlocked(why) => report := SettleDelivery(me, e, k, n, {Sending}, Blocked, Some(why));
        case Unknown(why) => report := SettleDelivery(me, e, k, n, {Sending}, InDoubt, Some(why));
      }
    }

    /** `setOpenApproval(null)`, then the resolution turn under the card's idempotency key. */
    method Resolve(me: Actor, e: Env, k: nat, n: Notice, report: Report)
      requires At(me, Unpark(n, report)) && Fair(e, me)
      modifies this
      ensures At(me, MarkResolved(n)) && old(history) <= history && HasTurn(Now(), n.run, n.card)
    {
      Await(me, e, k);
      UnparkRun(me, n, report);
      Await(me, e, k + 1);
      SubmitTurn(me, n, report);
      TurnAccepted(me, n);
    }

    lemma TurnAccepted(me: Actor, n: Notice)
      requires At(me, MarkResolved(n))
      ensures HasTurn(Now(), n.run, n.card)
    {
      PcFacts(history, me);
    }

    method UnparkRun(me: Actor, n: Notice, report: Report)
      requires At(me, Unpark(n, report))
      modifies this
      ensures At(me, Submit(n, report)) && history == old(history) + [Go(me)]
    {
      PcFacts(history, me);
      RunExists(history, n.card);
      Extend(history, Go(me));
      runs := runs[n.run := runs[n.run].(open := None)];
      pcs, history := pcs[me := Submit(n, report)], history + [Go(me)];
    }

    method SubmitTurn(me: Actor, n: Notice, report: Report)
      requires At(me, Submit(n, report))
      modifies this
      ensures At(me, MarkResolved(n)) && history == old(history) + [Go(me)]
    {
      PcFacts(history, me);
      RunExists(history, n.card);
      Extend(history, Go(me));
      var r := runs[n.run];
      if !exists i :: 0 <= i < |r.turns| && r.turns[i].card == n.card {
        runs := runs[n.run := r.(turns := r.turns + [Turn(n.card, n.decision, n.text, n.reason, report)])];
      }
      pcs, history := pcs[me := MarkResolved(n)], history + [Go(me)];
    }

    /** `notify`: settle the delivery, unpark the run, submit the resolution turn. */
    method Notify(me: Actor, e: Env, n: Notice) returns (applied: bool)
      requires At(me, ReadRun(n)) && Fair(e, me)
      modifies this
      ensures Valid() && old(history) <= history && me in pcs
      ensures if applied then pcs[me].MarkResolved? && pcs[me].n.card == n.card else pcs[me] == Finished(false)
      ensures applied ==> HasTurn(Now(), n.run, n.card)
    {
      Await(me, e, 0);
      var run := GetRun(me, n);
      if run.None? { return false; }
      applied := NotifyCard(me, e, n, run.value);
    }

    /** With the run found: the card must still be the one decided. */
    method NotifyCard(me: Actor, e: Env, n: Notice, run: RunState) returns (applied: bool)
      requires At(me, ReadCard(n, run.shadow, run.pinned)) && Fair(e, me)
      modifies this
      ensures Valid() && old(history) <= history && me in pcs
      ensures if applied then pcs[me].MarkResolved? && pcs[me].n.card == n.card else pcs[me] == Finished(false)
      ensures applied ==> HasTurn(Now(), n.run, n.card)
    {
      Await(me, e, 1);
      var card := FindCard(me, n, run);
      if card.None? { return false; }
      applied := true;
      if n.decision == Rejected {
        Resolve(me, e, 7, n, Report(NotStarted, None));
      } else {
        DeliverAndResolve(me, e, WithText(n, card.value), card.value.shadow, run);
      }
    }

    /** The row, if it is there, is the run's, and carries the decision. */
    method FindCard(me: Actor, n: Notice, run: RunState) returns (card: Option<Card>)
      requires At(me, ReadCard(n, run.shadow, run.pinned))
      modifies this
      ensures history == old(history) + [Go(me)]
      ensures card.None? ==> At(me, Finished(false))
      ensures card.Some? && n.decision == Rejected ==> At(me, Unpark(n, Report(NotStarted, None)))
      ensures card.Some? && n.decision != Rejected ==> At(me, DeliveryPc(WithText(n, card.value), card.value.shadow || run.shadow, run.pinned))
    {
      card := GetApproval(me, n, run.shadow, run.pinned);
      if card.None? || card.value.run != n.run || card.value.decision != n.decision { card := None; }
    }

    method DeliverAndResolve(me: Actor, e: Env, n: Notice, cardShadow: bool, run: RunState)
      requires Fair(e, me)
      requires At(me, DeliveryPc(n, cardShadow || run.shadow, run.pinned))
      modifies this
      ensures At(me, MarkResolved(n)) && old(history) <= history && HasTurn(Now(), n.run, n.card)
    {
      var report := DeliverApproval(me, e, 2, n, cardShadow, run.shadow, run.pinned);
      Resolve(me, e, 7, n, report);
    }

    /**
     `PATCH /approvals/:id` after authorization. A decision that wins is committed
     before anything else and stays. Under any interference by others a winning
     call that is not itself cut short answers `resolutionDelivered: true`, and by
     then the owning run has accepted the card's resolution turn.
     */
    method Patch(me: Actor, e: Env, id: CardId, input: Input, email: Text) returns (result: DecideResult, delivered: bool)
      requires Valid() && me !in pcs && Fair(e, me)
      modifies this
      ensures Valid() && old(history) <= history
      ensures result.InvalidInput? <==> (input.Edit? && Blank(input.text)) || (input.Reject? && Blank(input.reason))
      ensures result.Won? <==> !result.InvalidInput? && id in old(cards) && old(cards)[id].decision == Pending
      ensures result.Lost? ==> id in old(cards) && result.row == old(cards)[id]
      ensures !result.Won? ==> !delivered && cards == old(cards) && runs == old(runs) && sends == old(sends)
      ensures result.Won? ==>
        && id in cards && Carries(result.row, input, email)
        && cards[id].decision == result.row.decision && cards[id].edited == result.row.edited && cards[id].reason == result.row.reason
        && delivered && cards[id].resolved && HasTurn(Now(), cards[id].run, id)
    {
      result := DecideApproval(me, id, input, email);
      delivered := false;
      if !result.Won? { return; }
      ghost var decided := history;
      var n := NoticeOf(id, result.row);
      delivered := NotifyAndMark(me, e, n);
      NoNotifyGivesUp(history, me);
      DecisionStands(decided, history, id);
    }

    /** The notification, marked as delivered only once it has applied. */
    method NotifyAndMark(me: Actor, e: Env, n: Notice) returns (delivered: bool)
      requires At(me, ReadRun(n)) && Fair(e, me)
      modifies this
      ensures At(me, Finished(delivered)) && old(history) <= history
      ensures delivered && n.card in cards ==> cards[n.card].resolved
    {
      delivered := Notify(me, e, n);
      if delivered {
        Await(me, e, 9);
        MarkResolutionDelivered(me, pcs[me].n);
      }
    }

    /* --------------------------------------------------------------- the port -- */

    method OpenCard(me: Actor, e: Env, run: RunId, id: CardId, draft: Text, shadow: bool) returns (created: bool)
      requires Valid() && me !in pcs && run in runs && id !in cards && Fair(e, me)
      modifies this
      ensures At(me, if created then Opened(id) else OpenRefused)
      ensures created <==> old(runs)[run].pinned && !SlotTaken(old(Now()), run)
      ensures created ==> history == old(history) + [Open(me, run, id, draft, shadow)] + e.others(0) + [Go(me)]
      ensures created ==> run in runs && runs[run].open == Some(id) && id in cards && cards[id].run == run
      ensures !created ==> cards == old(cards) && runs == old(runs)
    {
      created := InsertApproval(me, run, id, draft, shadow);
      if !created { return; }
      // The card commits before the run parks.
      Await(me, e, 0);
      ParkRun(me, run, id);
    }

    method InsertApproval(me: Actor, run: RunId, id: CardId, draft: Text, shadow: bool) returns (created: bool)
      requires Valid() && me !in pcs && run in runs && id !in cards
      modifies this
      ensures history == old(history) + [Open(me, run, id, draft, shadow)]
      ensures At(me, if created then Park(run, id) else OpenRefused)
      ensures !created ==> cards == old(cards) && runs == old(runs)
      ensures created <==> old(runs)[run].pinned && !SlotTaken(old(Now()), run)
    {
      Extend(history, Open(me, run, id, draft, shadow));
      history := history + [Open(me, run, id, draft, shadow)];
      SlotIff(Now(), run);
      created := runs[run].pinned && !exists d :: d in cards && cards[d].run == run && Unsettled(cards[d]);
      if created { cards := cards[id := Card(run, draft, shadow, Pending, None, None, None, NotStarted, None, false)]; }
      pcs := pcs[me := if created then Park(run, id) else OpenRefused];
    }

    method ParkRun(me: Actor, run: RunId, id: CardId)
      requires At(me, Park(run, id))
      modifies this
      ensures At(me, Opened(id)) && history == old(history) + [Go(me)]
      ensures run in runs && runs[run].open == Some(id) && id in cards && cards[id].run == run
    {
      PcFacts(history, me);
      RunExists(history, id);
      Extend(history, Go(me));
      runs := runs[run := runs[run].(open := Some(id), last := Some(id))];
      pcs, history := pcs[me := Opened(id)], history + [Go(me)];
    }

    /** A human has decided this card this way. */
    ghost predicate HumanSaid(table: map<CardId, Card>, id: CardId, d: Decision) {
      id in table && table[id].decision == d && (d == Approved || d == Edited || d == Rejected)
    }

    /**
     `withdraw`, under any interference. The card it is about is the one the run is
     parked on, or else the one it was last parked on. A human's decision on that
     card is handed back, always if it was there from the start; a success says
     there was none when the card was read, and that a card found open is withdrawn.
     */
    method Withdraw(me: Actor, e: Env, run: RunId) returns (answer: Withdrawal)
      requires Valid() && me !in pcs && run in runs && Fair(e, me)
      modifies this
      ensures Valid() && old(history) <= history && me in pcs
      ensures var found := old(runs)[run].open;
        found.Some? ==>
          && found.value in cards && (answer.Gone? <==> cards[found.value].decision == Withdrawn)
          && (answer.Beaten? ==> HumanSaid(cards, found.value, answer.decision))
          && (forall d :: HumanSaid(old(cards), found.value, d) ==> answer == Beaten(d))
      ensures var last := old(runs)[run].last;
        old(runs)[run].open.None? ==>
          && (answer.Beaten? ==> last.Some? && HumanSaid(cards, last.value, answer.decision))
          && (answer.Gone? ==> last.None? || last.value !in cards || cards[last.value].decision == Pending || cards[last.value].decision == Withdrawn)
          && (last.Some? ==> forall d :: HumanSaid(old(cards), last.value, d) ==> answer == Beaten(d))
    {
      ghost var before := history;
      var open, last := runs[run].open, runs[run].last;
      BeginWithdraw(me, run);
      if open.None? {
        Await(me, e, 0);
        var settled := SettledDecision(me, last);
        FinalAnswer(me);
        if last.Some? { HumanStands(before, last.value); }
        return if settled.None? then Gone else Beaten(settled.value);
      }
      UnparkFirst(me, e, run, open.value);
      Await(me, e, 1);
      var lost := WithdrawApproval(me, open.value);
      FinalAnswer(me);
      HumanStands(before, open.value);
      return if lost.None? then Gone else Beaten(lost.value);
    }

    lemma HumanStands(before: seq<Move>, id: CardId)
      requires Valid() && before <= history
      ensures forall d :: HumanSaid(Run(INIT, before).cards, id, d) ==> HumanSaid(cards, id, d)
    {
      if id in Run(INIT, before).cards && Run(INIT, before).cards[id].decision != Pending { DecisionStands(before, history, id); }
    }

    method BeginWithdraw(me: Actor, run: RunId)
      requires Valid() && me !in pcs && run in runs
      modifies this
      ensures At(me, BeginWithdrawPc(run, old(runs)[run])) && history == old(history) + [Move.BeginWithdraw(me, run)]
    {
      Extend(history, Move.BeginWithdraw(me, run));
      pcs, history := pcs[me := BeginWithdrawPc(run, runs[run])], history + [Move.BeginWithdraw(me, run)];
    }

    method UnparkFirst(me: Actor, e: Env, run: RunId, id: CardId)
      requires At(me, Clear(run, id)) && Fair(e, me)
      modifies this
      ensures At(me, Retract(id)) && old(history) <= history
    {
      PcFacts(history, me);
      RunExists(history, id);
      Extend(history, Go(me));
      runs := runs[run := runs[run].(open := None)];
      pcs, history := pcs[me := Retract(id)], history + [Go(me)];
    }

    method SettledDecision(me: Actor, last: Option<CardId>) returns (lost: Option<Decision>)
      requires At(me, Consult(last))
      modifies this
      ensures At(me, Consulted(last, lost)) && history == old(history) + [Go(me)] && cards == old(cards)
      ensures lost.Some? <==> last.Some? && last.value in cards && Resolvable(cards[last.value].decision)
      ensures lost.Some? ==> lost.value == cards[last.value].decision
    {
      Extend(history, Go(me));
      lost := if last.Some? && last.value in cards && Resolvable(cards[last.value].decision) then Some(cards[last.value].decision) else None;
      pcs, history := pcs[me := Consulted(last, lost)], history + [Go(me)];
    }

    /** What a finished withdraw reports is what the row holds. */
    lemma FinalAnswer(me: Actor)
      requires Valid() && me in pcs && (pcs[me].Retracted? || pcs[me].Consulted?)
      ensures PcOk(Now(), pcs[me])
    {
      PcFacts(history, me);
    }
  }

  /** A later history is where the earlier one leads next. */
  lemma Resumes(before: seq<Move>, now: seq<Move>)
    requires before <= now
    ensures Later(Run(INIT, before), Run(INIT, now))
  {
    RunKeeps(INIT, before);
    RunConcat(INIT, before, now[|before|..]);
    assert before + now[|before|..] == now;
    RunKeeps(Run(INIT, before), now[|before|..]);
  }

  lemma ResolvedHasTurn(now: seq<Move>, id: CardId)
    requires id in Run(INIT, now).cards
    ensures var w := Run(INIT, now); w.cards[id].resolved ==> HasTurn(w, w.cards[id].run, id)
  {
    RunKeeps(INIT, now);
    assert CardOk(Run(INIT, now), id, Run(INIT, now).cards[id]);
  }

  /** However the rest of a run goes, a decided card keeps its decision; a resolved one has its turn. */
  lemma DecisionStands(before: seq<Move>, now: seq<Move>, id: CardId)
    requires before <= now && id in Run(INIT, before).cards && Run(INIT, before).cards[id].decision != Pending
    ensures var c := Run(INIT, before).cards[id]; var w := Run(INIT, now);
      && id in w.cards && w.cards[id].decision == c.decision && w.cards[id].edited == c.edited && w.cards[id].reason == c.reason
      && (w.cards[id].resolved ==> HasTurn(w, w.cards[id].run, id))
  {
    Resumes(before, now);
    assert LaterCard(Run(INIT, before).cards[id], Run(INIT, now).cards[id]);
    ResolvedHasTurn(now, id);
  }
}
