/**
 What an opened card, a human's decision and a notify come to, column by column:
 the words the human typed reach the customer and the run, and a notify nobody
 interferes with ends in exactly one way.
 */
module ApprovalOutcomes {
  import opened Wrappers
  import opened ApprovalModel
  import opened ApprovalInvariant
  import opened ApprovalTheorems

  /* ----------------------------------------------------------- the card and the slot -- */

  /** A card that holds its run's one slot, by the columns of the partial index. */
  predicate HoldsSlot(c: Card) {
    || c.decision == Pending
    || ((c.decision == Approved || c.decision == Edited) && (c.delivery == NotStarted || c.delivery == Sending || c.delivery == InDoubt))
  }

  predicate SlotTaken(w: World, run: RunId) {
    exists d :: d in w.cards && w.cards[d].run == run && HoldsSlot(w.cards[d])
  }

  lemma UnsettledIff(c: Card)
    ensures Unsettled(c) <==> HoldsSlot(c)
  {
  }

  lemma SlotIff(w: World, run: RunId)
    ensures SlotTaken(w, run) <==> exists d :: d in w.cards && w.cards[d].run == run && Unsettled(w.cards[d])
  {
    forall d | d in w.cards ensures Unsettled(w.cards[d]) <==> HoldsSlot(w.cards[d]) { UnsettledIff(w.cards[d]); }
  }

  lemma OpensIf(w: World, a: Actor, run: RunId, id: CardId, draft: Text, shadow: bool)
    requires a !in w.pcs && run in w.runs && id !in w.cards
    ensures var v := Step(w, Open(a, run, id, draft, shadow));
      && (id in v.cards <==> w.runs[run].pinned && !SlotTaken(w, run))
      && (id in v.cards ==>
            && v.cards[id].run == run && v.cards[id].draft == draft && v.cards[id].shadow == shadow
            && v.cards[id].decision == Pending && v.cards[id].delivery == NotStarted && !v.cards[id].resolved)
      && v.sends == w.sends && v.runs == w.runs
  {
    SlotIff(w, run);
  }

  /** An open succeeds exactly when the run has a thread and a free slot, and the card keeps the draft, run and shadow flag it was opened with. */
  lemma OpenedCardStays(before: seq<Move>, a: Actor, run: RunId, id: CardId, draft: Text, shadow: bool, after: seq<Move>)
    requires var w := Run(INIT, before); a !in w.pcs && run in w.runs && id !in w.cards
    ensures var w := Run(INIT, before); var v := Run(INIT, before + [Open(a, run, id, draft, shadow)]);
      && (id in v.cards <==> w.runs[run].pinned && !SlotTaken(w, run))
      && (id in v.cards ==> v.cards[id].decision == Pending && v.cards[id].delivery == NotStarted && !v.cards[id].resolved)
      && v.sends == w.sends && v.runs == w.runs
    ensures var v, u := Run(INIT, before + [Open(a, run, id, draft, shadow)]), Run(INIT, before + [Open(a, run, id, draft, shadow)] + after);
      id in v.cards ==> id in u.cards && u.cards[id].run == run && u.cards[id].draft == draft && u.cards[id].shadow == shadow
  {
    RunConcat(INIT, before, [Open(a, run, id, draft, shadow)]);
    RunOne(Run(INIT, before), Open(a, run, id, draft, shadow));
    OpensIf(Run(INIT, before), a, run, id, draft, shadow);
    Reach(before + [Open(a, run, id, draft, shadow)], after);
  }

  /* --------------------------------------------------------------- the human's words -- */

  /** The row carries this input and this decider. */
  predicate Carries(c: Card, input: Input, email: Text) {
    && c.decidedBy == Some(email)
    && (input.Approve? ==> c.decision == Approved)
    && (input.Edit? ==> c.decision == Edited && c.edited == Some(input.text))
    && (input.Reject? ==> c.decision == Rejected && c.reason == Some(input.reason))
  }

  /** What the customer is sent on this input, given the draft. */
  predicate Words(input: Input, draft: Text, text: Text) {
    !input.Reject? && (input.Approve? ==> text == draft) && (input.Edit? ==> text == input.text)
  }

  lemma DecideCarries(w: World, a: Actor, id: CardId, input: Input, email: Text)
    requires a !in w.pcs && id in w.cards && w.cards[id].decision == Pending && ValidInput(input)
    ensures var v := Step(w, Decide(a, id, input, email));
      && id in v.cards && Carries(v.cards[id], input, email) && v.cards[id].draft == w.cards[id].draft && v.cards[id].run == w.cards[id].run
      && v.sends == w.sends && v.runs == w.runs
  {
  }

  /**
   The first decision on a pending card: whatever happens later, the row carries
   the human's input, every send of the card is in the human's words, and every
   resolution turn of it carries those words, or the reason for a rejection.
   */
  lemma DecisionIsTheInput(before: seq<Move>, a: Actor, id: CardId, input: Input, email: Text, after: seq<Move>)
    requires var w := Run(INIT, before); a !in w.pcs && id in w.cards && w.cards[id].decision == Pending
    requires (input.Edit? ==> !Blank(input.text)) && (input.Reject? ==> !Blank(input.reason))
    ensures var draft, v := Run(INIT, before).cards[id].draft, Run(INIT, before + [Decide(a, id, input, email)] + after);
      && id in v.cards && Carries(v.cards[id], input, email)
      && (forall i :: 0 <= i < |v.sends| && v.sends[i].card == id ==> Words(input, draft, v.sends[i].text))
      && (forall r, i :: Accepted(v, r, i) && TurnAt(v, r, i).card == id ==>
            if input.Reject? then TurnAt(v, r, i).text == None && TurnAt(v, r, i).reason == Some(input.reason)
            else TurnAt(v, r, i).text.Some? && Words(input, draft, TurnAt(v, r, i).text.value))
  {
    var m := Decide(a, id, input, email);
    var w, v := Run(INIT, before), Run(INIT, before + [m] + after);
    RunConcat(INIT, before, [m]);
    RunOne(w, m);
    DecideCarries(w, a, id, input, email);
    Reach(before + [m], after);
    assert LaterCard(Run(INIT, before + [m]).cards[id], v.cards[id]);
    forall i | 0 <= i < |v.sends| && v.sends[i].card == id ensures Words(input, w.cards[id].draft, v.sends[i].text) {
      SendIsText(v, i);
    }
    forall r, i | Accepted(v, r, i) && TurnAt(v, r, i).card == id
      ensures if input.Reject? then TurnAt(v, r, i).text == None && TurnAt(v, r, i).reason == Some(input.reason)
        else TurnAt(v, r, i).text.Some? && Words(input, w.cards[id].draft, TurnAt(v, r, i).text.value)
    {
      TurnIsText(v, r, i);
    }
  }

  lemma SendIsText(v: World, i: nat)
    requires Inv(v) && i < |v.sends|
    ensures v.sends[i].card in v.cards && IsTextOf(v.cards[v.sends[i].card], v.sends[i].text)
  {
    assert SendOk(v, v.sends[i]);
    assert CardOk(v, v.sends[i].card, v.cards[v.sends[i].card]);
  }

  lemma TurnIsText(v: World, r: RunId, i: int)
    requires Inv(v) && Accepted(v, r, i)
    ensures var t := TurnAt(v, r, i);
      && t.card in v.cards && t.reason == v.cards[t.card].reason && t.decision == v.cards[t.card].decision
      && if t.decision == Rejected then t.text.None? else t.text.Some? && IsTextOf(v.cards[t.card], t.text.value)
  {
    var t := TurnAt(v, r, i);
    assert RunOk(v, r, v.runs[r]) && TurnOk(v, r, t);
    assert CardOk(v, t.card, v.cards[t.card]);
  }

  /* ----------------------------------------------------- a notify nobody interferes with -- */

  /** `k` statements of one caller. */
  function Gos(a: Actor, k: nat): seq<Move> { if k == 0 then [] else [Go(a)] + Gos(a, k - 1) }

  lemma GoNext(w: World, a: Actor, k: nat, rest: seq<Move>)
    requires k > 0
    ensures Run(w, Gos(a, k) + rest) == Run(Step(w, Go(a)), Gos(a, k - 1) + rest)
  {
    assert (Gos(a, k) + rest)[1..] == Gos(a, k - 1) + rest;
  }

  lemma GoEnd(w: World, a: Actor, rest: seq<Move>)
    ensures Run(w, Gos(a, 0) + rest) == Run(w, rest)
  {
    assert Gos(a, 0) + rest == rest;
  }

  /** A notify of this decided card is about to begin, and its run has not been told yet. */
  predicate Begins(w: World, a: Actor, id: CardId) {
    && a in w.pcs && id in w.cards && w.cards[id].run in w.runs
    && w.pcs[a].ReadRun? && w.pcs[a].n.card == id && w.pcs[a].n.run == w.cards[id].run
    && w.pcs[a].n.decision == w.cards[id].decision && w.pcs[a].n.reason == w.cards[id].reason
    && (if w.cards[id].decision == Rejected then w.pcs[a].n.text.None? else w.pcs[a].n.text.Some? && IsTextOf(w.cards[id], w.pcs[a].n.text.value))
    && forall i :: 0 <= i < |w.runs[w.cards[id].run].turns| ==> w.runs[w.cards[id].run].turns[i].card != id
  }

  /** The delivery on the row, the run unparked and told once, the row marked, and nothing else. */
  predicate Notified(w: World, v: World, a: Actor, id: CardId, delivery: Delivery, error: Option<Text>, told: Option<Text>, sends: seq<Send>)
    requires Begins(w, a, id)
  {
    var c := w.cards[id]; var r := w.runs[c.run];
    && v.cards == w.cards[id := c.(delivery := delivery, error := error, resolved := true)]
    && v.runs == w.runs[c.run := r.(open := None, turns := r.turns + [Turn(id, c.decision, w.pcs[a].n.text, c.reason, Report(delivery, told))])]
    && v.pcs == w.pcs[a := Finished(true)] && v.sends == sends && v.wins == w.wins
  }

  /** The flag, the turn and the row's mark, written out. */
  function Told(w: World, a: Actor, n: Notice, report: Report): World
    requires n.run in w.runs && n.card in w.cards
  {
    var r := w.runs[n.run];
    w.(cards := w.cards[n.card := w.cards[n.card].(resolved := true)],
       runs := w.runs[n.run := r.(open := None, turns := r.turns + [Turn(n.card, n.decision, n.text, n.reason, report)])],
       pcs := w.pcs[a := Finished(true)])
  }

  lemma Unparks(w: World, a: Actor, n: Notice, report: Report)
    requires a in w.pcs && w.pcs[a] == Unpark(n, report) && n.run in w.runs
    ensures Step(w, Go(a)) == w.(runs := w.runs[n.run := w.runs[n.run].(open := None)], pcs := w.pcs[a := Submit(n, report)])
  {
  }

  lemma Submits(w: World, a: Actor, n: Notice, report: Report)
    requires a in w.pcs && w.pcs[a] == Submit(n, report) && n.run in w.runs && !HasTurn(w, n.run, n.card)
    ensures var r := w.runs[n.run];
      Step(w, Go(a)) == w.(
        runs := w.runs[n.run := r.(turns := r.turns + [Turn(n.card, n.decision, n.text, n.reason, report)])],
        pcs := w.pcs[a := MarkResolved(n)])
  {
  }

  lemma Marks(w: World, a: Actor, n: Notice)
    requires a in w.pcs && w.pcs[a] == MarkResolved(n) && n.card in w.cards
    ensures Step(w, Go(a)) == w.(cards := w.cards[n.card := w.cards[n.card].(resolved := true)], pcs := w.pcs[a := Finished(true)])
  {
  }

  /** A notify that has settled its delivery: three more statements. */
  lemma SettledTail(w: World, a: Actor, n: Notice, report: Report)
    requires a in w.pcs && w.pcs[a] == Unpark(n, report) && n.run in w.runs && n.card in w.cards && !HasTurn(w, n.run, n.card)
    ensures Run(w, Gos(a, 3) + []) == Told(w, a, n, report)
  {
    var w1 := w.(runs := w.runs[n.run := w.runs[n.run].(open := None)], pcs := w.pcs[a := Submit(n, report)]);
    Unparks(w, a, n, report);
    GoNext(w, a, 3, []);
    assert !HasTurn(w1, n.run, n.card);
    Submits(w1, a, n, report);
    GoNext(w1, a, 2, []);
    var w2 := Step(w1, Go(a));
    Marks(w2, a, n);
    GoNext(w2, a, 1, []);
    GoEnd(Step(w2, Go(a)), a, []);
    TailIsTold(w, a, n, report);
  }

  lemma TailIsTold(w: World, a: Actor, n: Notice, report: Report)
    requires n.run in w.runs && n.card in w.cards
    ensures var r := w.runs[n.run];
      Told(w, a, n, report) == w.(
        cards := w.cards[n.card := w.cards[n.card].(resolved := true)],
        runs := w.runs[n.run := r.(open := None)][n.run := r.(open := None, turns := r.turns + [Turn(n.card, n.decision, n.text, n.reason, report)])],
        pcs := w.pcs[a := Submit(n, report)][a := MarkResolved(n)][a := Finished(true)])
  {
  }

  /** The two reads at the beginning. */
  lemma TwoReads(w: World, a: Actor, id: CardId, rest: seq<Move>, k: nat)
    requires Begins(w, a, id) && k >= 2 && w.cards[id].decision in {Approved, Edited, Rejected}
    ensures var r := w.runs[w.cards[id].run]; var n := w.pcs[a].n;
      Run(w, Gos(a, k) + rest) == Run(w.(pcs := w.pcs[a :=
        if n.decision == Rejected then Unpark(n, Report(NotStarted, None))
        else if w.cards[id].shadow || r.shadow then Settle(n, {NotStarted, Sending}, Suppressed, None)
        else if !r.pinned then Settle(n, {NotStarted, Sending}, Blocked, Some("no_pinned_thread"))
        else Start(n)]), Gos(a, k - 2) + rest)
  {
    var r, n := w.runs[w.cards[id].run], w.pcs[a].n;
    GoNext(w, a, k, rest);
    var w1 := w.(pcs := w.pcs[a := ReadCard(n, r.shadow, r.pinned)]);
    assert Step(w, Go(a)) == w1;
    GoNext(w1, a, k - 1, rest);
    var pc := DeliveryPc(n, w.cards[id].shadow || r.shadow, r.pinned);
    assert Step(w1, Go(a)) == w.(pcs := w.pcs[a := if n.decision == Rejected then Unpark(n, Report(NotStarted, None)) else pc]);
  }

  /** One transition that the row accepts, and the tail. */
  lemma SettleAndTell(w: World, a: Actor, n: Notice, from: set<Delivery>, to: Delivery, error: Option<Text>)
    requires a in w.pcs && w.pcs[a] == Settle(n, from, to, error) && n.run in w.runs && n.card in w.cards && !HasTurn(w, n.run, n.card)
    requires w.cards[n.card].delivery in from
    ensures Run(w, Gos(a, 4) + []) == Told(w.(cards := w.cards[n.card := w.cards[n.card].(delivery := to, error := error)]), a, n, Report(to, error))
  {
    Settles(w, a, n, from, to, error);
    ThenTold(w, w.(cards := w.cards[n.card := w.cards[n.card].(delivery := to, error := error)]), a, n, Report(to, error));
  }

  /** From a step that leads to `u` with the notice about to unpark, the tail. */
  lemma ThenTold(w: World, u: World, a: Actor, n: Notice, report: Report)
    requires n.run in u.runs && n.card in u.cards && !HasTurn(u, n.run, n.card)
    requires Step(w, Go(a)) == u.(pcs := u.pcs[a := Unpark(n, report)])
    ensures Run(w, Gos(a, 4) + []) == Told(u, a, n, report)
  {
    GoNext(w, a, 4, []);
    SettledTail(u.(pcs := u.pcs[a := Unpark(n, report)]), a, n, report);
    ToldAgain(u, a, Unpark(n, report), n, report);
  }

  lemma Settles(w: World, a: Actor, n: Notice, from: set<Delivery>, to: Delivery, error: Option<Text>)
    requires a in w.pcs && w.pcs[a] == Settle(n, from, to, error) && n.card in w.cards && w.cards[n.card].delivery in from
    ensures var u := w.(cards := w.cards[n.card := w.cards[n.card].(delivery := to, error := error)]);
      Step(w, Go(a)) == u.(pcs := u.pcs[a := Unpark(n, Report(to, error))]) && (!HasTurn(w, n.run, n.card) ==> !HasTurn(u, n.run, n.card))
  {
  }

  /** Where the caller was suspended does not show in the end. */
  lemma ToldAgain(w: World, a: Actor, pc: Pc, n: Notice, report: Report)
    requires n.run in w.runs && n.card in w.cards
    ensures Told(w.(pcs := w.pcs[a := pc]), a, n, report) == Told(w, a, n, report)
  {
    assert w.pcs[a := pc][a := Finished(true)] == w.pcs[a := Finished(true)];
  }

  /** What `Told` comes to for the notified card. */
  lemma ToldIsNotified(w: World, a: Actor, id: CardId, delivery: Delivery, error: Option<Text>, told: Option<Text>, sends: seq<Send>)
    requires Begins(w, a, id)
    ensures var u := w.(cards := w.cards[id := w.cards[id].(delivery := delivery, error := error)], sends := sends);
      Notified(w, Told(u, a, w.pcs[a].n, Report(delivery, told)), a, id, delivery, error, told, sends)
  {
    var c := w.cards[id];
    assert w.cards[id := c.(delivery := delivery, error := error)][id := c.(delivery := delivery, error := error, resolved := true)]
        == w.cards[id := c.(delivery := delivery, error := error, resolved := true)];
  }

  /** A rejection: nothing is delivered; the run is told why. */
  lemma NotifyRejected(w: World, a: Actor, id: CardId)
    requires Begins(w, a, id) && w.cards[id].decision == Rejected && w.cards[id].delivery == NotStarted && w.cards[id].error.None?
    ensures Notified(w, Run(w, Gos(a, 5) + []), a, id, NotStarted, None, None, w.sends)
  {
    var n, report := w.pcs[a].n, Report(NotStarted, None);
    TwoReads(w, a, id, [], 5);
    SettledTail(w.(pcs := w.pcs[a := Unpark(n, report)]), a, n, report);
    ToldAgain(w, a, Unpark(n, report), n, report);
    ToldIsNotified(w, a, id, NotStarted, None, None, w.sends);
    assert w.cards[id := w.cards[id].(delivery := NotStarted, error := None)] == w.cards;
  }

  /** A settlement of the notified card that the row accepts. */
  lemma SettlesAs(w: World, a: Actor, id: CardId, from: set<Delivery>, to: Delivery, error: Option<Text>)
    requires Begins(w, a, id) && w.cards[id].delivery in from
    ensures var u := w.(pcs := w.pcs[a := Settle(w.pcs[a].n, from, to, error)]);
      Notified(w, Run(u, Gos(a, 4) + []), a, id, to, error, error, w.sends)
  {
    var n := w.pcs[a].n;
    SettleAndTell(w.(pcs := w.pcs[a := Settle(n, from, to, error)]), a, n, from, to, error);
    var u := w.(cards := w.cards[id := w.cards[id].(delivery := to, error := error)]);
    ToldAgain(u, a, Settle(n, from, to, error), n, Report(to, error));
    ToldIsNotified(w, a, id, to, error, error, w.sends);
  }

  /** A card of a shadowed run, or itself a shadow: suppressed, and nothing is sent. */
  lemma NotifyShadowed(w: World, a: Actor, id: CardId)
    requires Begins(w, a, id) && w.cards[id].decision in {Approved, Edited} && w.cards[id].delivery in {NotStarted, Sending}
    requires w.cards[id].shadow || w.runs[w.cards[id].run].shadow
    ensures Notified(w, Run(w, Gos(a, 6) + []), a, id, Suppressed, None, None, w.sends)
  {
    TwoReads(w, a, id, [], 6);
    SettlesAs(w, a, id, {NotStarted, Sending}, Suppressed, None);
  }

  /** A run without a thread: blocked, and nothing is sent. */
  lemma NotifyUnpinned(w: World, a: Actor, id: CardId)
    requires Begins(w, a, id) && w.cards[id].decision in {Approved, Edited} && w.cards[id].delivery in {NotStarted, Sending}
    requires !w.cards[id].shadow && !w.runs[w.cards[id].run].shadow && !w.runs[w.cards[id].run].pinned
    ensures Notified(w, Run(w, Gos(a, 6) + []), a, id, Blocked, Some("no_pinned_thread"), Some("no_pinned_thread"), w.sends)
  {
    TwoReads(w, a, id, [], 6);
    SettlesAs(w, a, id, {NotStarted, Sending}, Blocked, Some("no_pinned_thread"));
  }

  /** The delivery a sender's answer leads to; None is a throw. */
  predicate LeadsTo(outcome: Option<SendResult>, result: SendResult, delivery: Delivery, error: Option<Text>) {
    match outcome
    case Some(WasSent) => result == WasSent && delivery == Sent && error == None
    case Some(WasBlocked(why)) => result == WasBlocked(why) && delivery == Blocked && error == Some(why)
    case Some(Unknown(why)) => result == Unknown(why) && delivery == InDoubt && error == Some(why)
    case None => result == Unknown("the sender threw") && delivery == InDoubt && error == Some("the sender threw")
  }

  /** Otherwise exactly one send, in the words of the row, and the delivery its outcome says. */
  lemma NotifySends(w: World, a: Actor, id: CardId, outcome: Option<SendResult>, result: SendResult, delivery: Delivery, error: Option<Text>)
    requires Begins(w, a, id) && w.cards[id].decision in {Approved, Edited} && w.cards[id].delivery == NotStarted
    requires !w.cards[id].shadow && !w.runs[w.cards[id].run].shadow && w.runs[w.cards[id].run].pinned
    requires LeadsTo(outcome, result, delivery, error)
    ensures Notified(w, Run(w, Gos(a, 4) + ([SendEnds(a, outcome)] + (Gos(a, 4) + []))), a, id, delivery, error, error,
      w.sends + [Send(id, w.pcs[a].n.text.value, Some(result))])
  {
    var rest := [SendEnds(a, outcome)] + (Gos(a, 4) + []);
    TwoReads(w, a, id, rest, 4);
    Sends(w, a, id, rest);
    SendSettles(w, a, id, outcome, result, delivery, error);
    SendIsTold(w, a, id, result, delivery, error);
  }

  lemma SendIsTold(w: World, a: Actor, id: CardId, result: SendResult, delivery: Delivery, error: Option<Text>)
    requires Begins(w, a, id) && w.cards[id].decision in {Approved, Edited}
    ensures var n := w.pcs[a].n; var sends := w.sends + [Send(id, n.text.value, Some(result))];
      var u := w.(cards := w.cards[id := w.cards[id].(delivery := Sending, error := None)], sends := sends,
        pcs := w.pcs[a := Settle(n, {Sending}, delivery, error)]);
      Notified(w, Run(u, Gos(a, 4) + []), a, id, delivery, error, error, sends)
  {
    var n := w.pcs[a].n;
    var u := w.(cards := w.cards[id := w.cards[id].(delivery := Sending, error := None)], sends := w.sends + [Send(id, n.text.value, Some(result))]);
    SettleAndTell(u.(pcs := w.pcs[a := Settle(n, {Sending}, delivery, error)]), a, n, {Sending}, delivery, error);
    var x := u.(cards := u.cards[id := u.cards[id].(delivery := delivery, error := error)]);
    ToldAgain(x, a, Settle(n, {Sending}, delivery, error), n, Report(delivery, error));
    ToldIsNotified(w, a, id, delivery, error, error, u.sends);
    assert x.cards == w.cards[id := w.cards[id].(delivery := delivery, error := error)];
  }

  /** The row is moved to `sending`, and then the send is made. */
  lemma Sends(w: World, a: Actor, id: CardId, rest: seq<Move>)
    requires Begins(w, a, id) && w.cards[id].decision in {Approved, Edited} && w.cards[id].delivery == NotStarted
    ensures var n := w.pcs[a].n;
      Run(w.(pcs := w.pcs[a := Start(n)]), Gos(a, 2) + rest) == Run(InTransit(w, a, id), rest)
  {
    var n := w.pcs[a].n;
    var w2 := w.(pcs := w.pcs[a := Start(n)]);
    GoNext(w2, a, 2, rest);
    var w3 := w.(cards := w.cards[id := w.cards[id].(delivery := Sending, error := None)], pcs := w.pcs[a := Transmit(n)]);
    assert Step(w2, Go(a)) == w3;
    GoNext(w3, a, 1, rest);
    assert Step(w3, Go(a)) == InTransit(w, a, id);
    GoEnd(InTransit(w, a, id), a, rest);
  }

  /** The world with the notify's send in flight. */
  function InTransit(w: World, a: Actor, id: CardId): World
    requires Begins(w, a, id) && w.cards[id].decision in {Approved, Edited}
  {
    w.(cards := w.cards[id := w.cards[id].(delivery := Sending, error := None)],
       sends := w.sends + [Send(id, w.pcs[a].n.text.value, None)], pcs := w.pcs[a := InFlight(w.pcs[a].n, |w.sends|)])
  }

  lemma SendSettles(w: World, a: Actor, id: CardId, outcome: Option<SendResult>, result: SendResult, delivery: Delivery, error: Option<Text>)
    requires Begins(w, a, id) && w.cards[id].decision in {Approved, Edited} && LeadsTo(outcome, result, delivery, error)
    ensures var n, rest := w.pcs[a].n, Gos(a, 4) + [];
      Run(InTransit(w, a, id), [SendEnds(a, outcome)] + rest) == Run(w.(
        cards := w.cards[id := w.cards[id].(delivery := Sending, error := None)],
        sends := w.sends + [Send(id, n.text.value, Some(result))], pcs := w.pcs[a := Settle(n, {Sending}, delivery, error)]), rest)
  {
    var rest := Gos(a, 4) + [];
    assert ([SendEnds(a, outcome)] + rest)[1..] == rest;
    SendReturns(w, a, id, outcome, result, delivery, error);
  }

  lemma SendReturns(w: World, a: Actor, id: CardId, outcome: Option<SendResult>, result: SendResult, delivery: Delivery, error: Option<Text>)
    requires Begins(w, a, id) && w.cards[id].decision in {Approved, Edited} && LeadsTo(outcome, result, delivery, error)
    ensures var n := w.pcs[a].n;
      Step(InTransit(w, a, id), SendEnds(a, outcome)) == w.(
        cards := w.cards[id := w.cards[id].(delivery := Sending, error := None)],
        sends := w.sends + [Send(id, n.text.value, Some(result))], pcs := w.pcs[a := Settle(n, {Sending}, delivery, error)])
  {
    var n, u := w.pcs[a].n, InTransit(w, a, id);
    assert u.sends[|w.sends| := Send(id, n.text.value, Some(result))] == w.sends + [Send(id, n.text.value, Some(result))];
    assert u.pcs[a := Settle(n, {Sending}, delivery, error)] == w.pcs[a := Settle(n, {Sending}, delivery, error)];
    assert SettledAs(n, ResultOf(outcome)) == Settle(n, {Sending}, delivery, error) && ResultOf(outcome) == result;
  }

  /** A notify that finds the row already `sending` does not send: it leaves the outcome in doubt. */
  lemma NotifyReentered(w: World, a: Actor, id: CardId)
    requires Begins(w, a, id) && w.cards[id].decision in {Approved, Edited} && w.cards[id].delivery == Sending
    requires !w.cards[id].shadow && !w.runs[w.cards[id].run].shadow && w.runs[w.cards[id].run].pinned
    ensures var why := Some("re-entered while a send was in flight");
      Notified(w, Run(w, Gos(a, 7) + []), a, id, InDoubt, why, why, w.sends)
  {
    var n, why := w.pcs[a].n, Some("re-entered while a send was in flight");
    TwoReads(w, a, id, [], 7);
    var w2 := w.(pcs := w.pcs[a := Start(n)]);
    GoNext(w2, a, 5, []);
    var w3 := w.(pcs := w.pcs[a := Settle(n, {Sending}, InDoubt, why)]);
    StartRefused(w2, a, n);
    assert Step(w2, Go(a)) == w3;
    SettlesAs(w, a, id, {Sending}, InDoubt, why);
  }

  lemma StartRefused(w: World, a: Actor, n: Notice)
    requires a in w.pcs && w.pcs[a] == Start(n) && n.card in w.cards && w.cards[n.card].delivery != NotStarted
    ensures Step(w, Go(a)) == Put(w, a, Settle(n, {Sending}, InDoubt, Some("re-entered while a send was in flight")))
  {
  }

  /** A notify that finds the delivery settled changes nothing about it and reports it as it stands. */
  lemma NotifySettled(w: World, a: Actor, id: CardId)
    requires Begins(w, a, id) && w.cards[id].decision in {Approved, Edited} && w.cards[id].delivery in {Sent, Blocked, Suppressed, InDoubt}
    requires !w.cards[id].shadow && !w.runs[w.cards[id].run].shadow && w.runs[w.cards[id].run].pinned
    ensures Notified(w, Run(w, Gos(a, 8) + []), a, id, w.cards[id].delivery, w.cards[id].error, None, w.sends)
  {
    var n, report := w.pcs[a].n, Report(w.cards[id].delivery, None);
    TwoReads(w, a, id, [], 8);
    SettledIsTold(w, a, n, report);
    ToldIsNotified(w, a, id, w.cards[id].delivery, w.cards[id].error, None, w.sends);
    assert w.cards[id := w.cards[id].(delivery := w.cards[id].delivery, error := w.cards[id].error)] == w.cards;
  }

  lemma SettledIsTold(w: World, a: Actor, n: Notice, report: Report)
    requires n.run in w.runs && n.card in w.cards && w.cards[n.card].delivery in {Sent, Blocked, Suppressed, InDoubt}
    requires report == Report(w.cards[n.card].delivery, None) && !HasTurn(w, n.run, n.card)
    ensures Run(w.(pcs := w.pcs[a := Start(n)]), Gos(a, 6) + []) == Told(w, a, n, report)
  {
    FindsSettled(w, a, n);
    SettledTail(w.(pcs := w.pcs[a := Unpark(n, report)]), a, n, report);
    ToldAgain(w, a, Unpark(n, report), n, report);
  }

  lemma FindsSettled(w: World, a: Actor, n: Notice)
    requires n.card in w.cards && w.cards[n.card].delivery in {Sent, Blocked, Suppressed, InDoubt}
    ensures Run(w.(pcs := w.pcs[a := Start(n)]), Gos(a, 6) + []) ==
      Run(w.(pcs := w.pcs[a := Unpark(n, Report(w.cards[n.card].delivery, None))]), Gos(a, 3) + [])
  {
    var why := Some("re-entered while a send was in flight");
    var settle := Settle(n, {Sending}, InDoubt, why);
    GoNext(Put(w, a, Start(n)), a, 6, []);
    StartRefused(Put(w, a, Start(n)), a, n);
    PutTwice(w, a, Start(n), settle);
    RefusedRereads(w, a, n, why);
  }

  lemma RefusedRereads(w: World, a: Actor, n: Notice, why: Option<Text>)
    requires n.card in w.cards && w.cards[n.card].delivery in {Sent, Blocked, Suppressed, InDoubt}
    ensures Run(Put(w, a, Settle(n, {Sending}, InDoubt, why)), Gos(a, 5) + []) ==
      Run(Put(w, a, Unpark(n, Report(w.cards[n.card].delivery, None))), Gos(a, 3) + [])
  {
    var settle, reread := Settle(n, {Sending}, InDoubt, why), Reread(n, InDoubt, why);
    GoNext(Put(w, a, settle), a, 5, []);
    SettleRefused(Put(w, a, settle), a, n, why);
    PutTwice(w, a, settle, reread);
    GoNext(Put(w, a, reread), a, 4, []);
    RereadReports(Put(w, a, reread), a, n, why);
    PutTwice(w, a, reread, Unpark(n, Report(w.cards[n.card].delivery, None)));
  }

  function Put(w: World, a: Actor, pc: Pc): World { w.(pcs := w.pcs[a := pc]) }

  lemma PutTwice(w: World, a: Actor, pc: Pc, next: Pc)
    ensures Put(Put(w, a, pc), a, next) == Put(w, a, next)
  {
    assert w.pcs[a := pc][a := next] == w.pcs[a := next];
  }

  lemma RereadReports(w: World, a: Actor, n: Notice, why: Option<Text>)
    requires a in w.pcs && w.pcs[a] == Reread(n, InDoubt, why) && n.card in w.cards
    ensures Step(w, Go(a)) == Put(w, a, Unpark(n, Report(w.cards[n.card].delivery, None)))
  {
  }

  lemma SettleRefused(w: World, a: Actor, n: Notice, why: Option<Text>)
    requires a in w.pcs && w.pcs[a] == Settle(n, {Sending}, InDoubt, why) && n.card in w.cards && w.cards[n.card].delivery != Sending
    ensures Step(w, Go(a)) == Put(w, a, Reread(n, InDoubt, why))
  {
  }

  /* --------------------------------------------------------- no notify gives up -- */

  ghost predicate NoneRefused(w: World) { forall a :: a in w.pcs ==> w.pcs[a] != Finished(false) }

  lemma StepRefusesNone(w: World, m: Move, a: Actor)
    requires Inv(w) && NoneRefused(w) && a in Step(w, m).pcs
    ensures Step(w, m).pcs[a] != Finished(false)
  {
    if m.Go? && m.who in w.pcs {
      if a == m.who {
        assert PcOk(w, w.pcs[a]);
        forall id | id in w.cards ensures w.cards[id].run in w.runs { assert CardOk(w, id, w.cards[id]); }
        GoRefusesNot(w, a);
      } else {
        GoLeavesOthers(w, m.who, a);
      }
    } else {
      BeginsOrEnds(w, m, a);
    }
  }

  lemma BeginsOrEnds(w: World, m: Move, a: Actor)
    requires NoneRefused(w) && a in Step(w, m).pcs && !(m.Go? && m.who in w.pcs)
    ensures Step(w, m).pcs[a] != Finished(false)
  {
  }

  lemma GoRefusesNot(w: World, a: Actor)
    requires a in w.pcs && w.pcs[a] != Finished(false) && PcOk(w, w.pcs[a])
    requires forall id :: id in w.cards ==> w.cards[id].run in w.runs
    ensures DoGo(w, a).pcs[a] != Finished(false)
  {
    match w.pcs[a]
    case Start(n) => assert DoGo(w, a) == DoStart(w, a, n);
    case ReadCard(n, shadow, pinned) => CardIsFound(w, n, shadow, pinned);
    case _ =>
  }

  lemma CardIsFound(w: World, n: Notice, shadow: bool, pinned: bool)
    requires NoticeOk(w, n)
    ensures AfterCard(w, n, shadow, pinned) != Finished(false)
  {
  }

  lemma {:induction false} RunRefusesNone(w: World, moves: seq<Move>)
    requires Inv(w) && NoneRefused(w)
    ensures NoneRefused(Run(w, moves))
    decreases |moves|
  {
    if moves != [] {
      var v := Step(w, moves[0]);
      StepKeeps(w, moves[0]);
      forall a | a in v.pcs ensures v.pcs[a] != Finished(false) { StepRefusesNone(w, moves[0], a); }
      RunRefusesNone(v, moves[1..]);
    }
  }

  /** A notify never ends unapplied: the run it is for exists and the row still carries the decision, whoever else acts. */
  lemma NoNotifyGivesUp(moves: seq<Move>, a: Actor)
    requires a in Run(INIT, moves).pcs
    ensures Run(INIT, moves).pcs[a] != Finished(false)
  {
    RunRefusesNone(INIT, moves);
  }
}
