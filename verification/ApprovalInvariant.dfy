/** What every move of the approval protocol keeps. */
module ApprovalInvariant {
  import opened Wrappers
  import opened ApprovalModel

  /* --------------------------------------------------- what never goes back -- */

  ghost predicate LaterCard(c: Card, d: Card) {
    && d.run == c.run && d.draft == c.draft && d.shadow == c.shadow
    && (c.decision != Pending ==>
          d.decision == c.decision && d.decidedBy == c.decidedBy && d.edited == c.edited && d.reason == c.reason)
    && (d.decision == Pending ==> c.decision == Pending)
    && (c.delivery != NotStarted ==> d.delivery != NotStarted)
    && (Terminal(c.delivery) ==> d.delivery == c.delivery)
    && (c.resolved ==> d.resolved)
  }

  ghost predicate LaterRun(r: RunState, t: RunState) {
    && (r.shadow ==> t.shadow) && t.pinned == r.pinned && r.turns <= t.turns
  }

  ghost predicate LaterSend(s: Send, t: Send) {
    t.card == s.card && t.text == s.text && (s.outcome.Some? ==> t.outcome == s.outcome)
  }

  /** `v` can follow `w`: decisions, terminal deliveries, shadow flags, turns and sends are permanent. */
  ghost predicate Later(w: World, v: World) {
    && (forall id :: id in w.cards ==> id in v.cards && LaterCard(w.cards[id], v.cards[id]))
    && (forall r :: r in w.runs ==> r in v.runs && LaterRun(w.runs[r], v.runs[r]))
    && |w.sends| <= |v.sends|
    && (forall i :: 0 <= i < |w.sends| ==> LaterSend(w.sends[i], v.sends[i]))
  }

  /* -------------------------------------------------------------- invariant -- */

  ghost predicate SentFor(w: World, id: CardId) {
    exists i :: 0 <= i < |w.sends| && w.sends[i].card == id && w.sends[i].outcome == Some(WasSent)
  }

  ghost predicate NoticeOk(w: World, n: Notice) {
    n.card in w.cards && Resolvable(n.decision) && n == NoticeOf(n.card, w.cards[n.card])
  }

  ghost predicate ReportOk(d: Decision, delivery: Delivery, report: Report) {
    && (Outgoing(d) ==> Terminal(delivery) && report.delivery == delivery)
    && (d == Rejected ==> report == Report(NotStarted, None))
  }

  /** What a suspended call may rely on, whatever others do meanwhile. */
  ghost predicate PcOk(w: World, pc: Pc) {
    match pc
    case ReadRun(n) => NoticeOk(w, n)
    case ReadCard(n, shadow, pinned) =>
      NoticeOk(w, n) && n.run in w.runs && (shadow ==> w.runs[n.run].shadow) && pinned == w.runs[n.run].pinned
    case Start(n) => NoticeOk(w, n) && Outgoing(n.decision) && !w.cards[n.card].shadow
    case Transmit(n) => NoticeOk(w, n) && Outgoing(n.decision) && !w.cards[n.card].shadow && w.cards[n.card].delivery != NotStarted
    case InFlight(n, i) =>
      && NoticeOk(w, n) && Outgoing(n.decision) && w.cards[n.card].delivery != NotStarted
      && i < |w.sends| && w.sends[i].card == n.card
    case Settle(n, from, to, _) =>
      && NoticeOk(w, n) && Outgoing(n.decision) && Terminal(to) && (to == Sent ==> SentFor(w, n.card))
      && (from == {NotStarted, Sending} || (from == {Sending} && w.cards[n.card].delivery != NotStarted))
    case Reread(n, _, _) => NoticeOk(w, n) && Outgoing(n.decision) && Terminal(w.cards[n.card].delivery)
    case Unpark(n, report) => NoticeOk(w, n) && ReportOk(n.decision, w.cards[n.card].delivery, report)
    case Submit(n, report) => NoticeOk(w, n) && ReportOk(n.decision, w.cards[n.card].delivery, report)
    case MarkResolved(n) => NoticeOk(w, n) && HasTurn(w, n.run, n.card)
    case AlreadyDecided(id, d) => id in w.cards && w.cards[id].decision == d && d != Pending
    case Park(run, id) => id in w.cards && w.cards[id].run == run
    case Opened(id) => id in w.cards
    case Clear(run, id) => id in w.cards && w.cards[id].run == run
    case Retract(id) => id in w.cards
    case Retracted(id, lost) => id in w.cards && LostOk(w.cards[id].decision, lost)
    case Consulted(last, lost) =>
      lost.Some? ==> last.Some? && last.value in w.cards && LostOk(w.cards[last.value].decision, lost)
    case _ => true
  }

  ghost predicate LostOk(d: Decision, lost: Option<Decision>) {
    if lost.None? then d == Withdrawn else d == lost.value && Resolvable(d)
  }

  ghost predicate CardOk(w: World, id: CardId, c: Card) {
    && c.run in w.runs
    && (c.delivery != NotStarted ==> Outgoing(c.decision))
    && (c.decision == Edited ==> c.edited.Some? && !Blank(c.edited.value))
    && (c.decision == Rejected ==> c.reason.Some? && !Blank(c.reason.value))
    && (c.resolved ==> Resolvable(c.decision) && HasTurn(w, c.run, id))
    && (c.delivery == Sent ==> SentFor(w, id))
  }

  ghost predicate TurnOk(w: World, run: RunId, t: Turn) {
    && t.card in w.cards && w.cards[t.card].run == run && Resolvable(t.decision)
    && NoticeOf(t.card, w.cards[t.card]) == Notice(run, t.card, t.decision, t.text, t.reason)
    && ReportOk(t.decision, w.cards[t.card].delivery, t.report)
  }

  ghost predicate RunOk(w: World, run: RunId, r: RunState) {
    && (r.open.Some? ==> r.open.value in w.cards && w.cards[r.open.value].run == run)
    && (r.last.Some? ==> r.last.value in w.cards && w.cards[r.last.value].run == run)
    && (forall i :: 0 <= i < |r.turns| ==> TurnOk(w, run, r.turns[i]))
    && (forall i, j :: 0 <= i < j < |r.turns| ==> r.turns[i].card != r.turns[j].card)
  }

  ghost predicate SendOk(w: World, s: Send) {
    && s.card in w.cards && Outgoing(w.cards[s.card].decision) && w.cards[s.card].delivery != NotStarted
    && !w.cards[s.card].shadow && s.text == OutboundText(w.cards[s.card])
  }

  ghost predicate CardsOk(w: World) { forall id :: id in w.cards ==> CardOk(w, id, w.cards[id]) }

  ghost predicate RunsOk(w: World) { forall r :: r in w.runs ==> RunOk(w, r, w.runs[r]) }

  ghost predicate SendsOk(w: World) {
    && (forall i :: 0 <= i < |w.sends| ==> SendOk(w, w.sends[i]))
    && (forall i, j :: 0 <= i < j < |w.sends| ==> w.sends[i].card != w.sends[j].card)
  }

  ghost predicate PcsOk(w: World) { forall a :: a in w.pcs ==> PcOk(w, w.pcs[a]) }

  ghost predicate Transmits(w: World, a: Actor, id: CardId) {
    a in w.pcs && w.pcs[a].Transmit? && w.pcs[a].n.card == id
  }

  ghost predicate Logged(w: World, id: CardId) {
    exists i :: 0 <= i < |w.sends| && w.sends[i].card == id
  }

  /** The right to send a card: won by one update, spent by one send. */
  ghost predicate TokensOk(w: World) {
    && (forall a, b, id :: Transmits(w, a, id) && Transmits(w, b, id) ==> a == b)
    && (forall a, id :: Transmits(w, a, id) ==> !Logged(w, id))
    && (forall a :: a in w.pcs && w.pcs[a].InFlight? && w.pcs[a].send < |w.sends| ==> w.sends[w.pcs[a].send].outcome.None?)
    && (forall a, b :: a in w.pcs && b in w.pcs && w.pcs[a].InFlight? && w.pcs[b].InFlight? && w.pcs[a].send == w.pcs[b].send ==> a == b)
  }

  ghost predicate SendingOk(w: World) {
    forall id :: id in w.cards && w.cards[id].delivery == Sending ==> Logged(w, id) || exists a :: Transmits(w, a, id)
  }

  ghost predicate OneOpen(w: World) {
    forall c, d :: c in w.cards && d in w.cards && w.cards[c].run == w.cards[d].run && Unsettled(w.cards[c]) && Unsettled(w.cards[d])
      ==> c == d
  }

  ghost predicate Won(w: World, id: CardId) {
    exists i :: 0 <= i < |w.wins| && w.wins[i].0 == id
  }

  ghost predicate WinsOk(w: World) {
    && (forall i, j :: 0 <= i < j < |w.wins| ==> w.wins[i].0 != w.wins[j].0)
    && (forall id :: Won(w, id) <==> id in w.cards && w.cards[id].decision != Pending)
  }

  ghost predicate Inv(w: World) {
    CardsOk(w) && RunsOk(w) && SendsOk(w) && PcsOk(w) && TokensOk(w) && SendingOk(w) && OneOpen(w) && WinsOk(w)
  }

  /* -------------------------------------------------- what time leaves alone -- */

  lemma SentForStays(w: World, v: World, id: CardId)
    requires Later(w, v) && SentFor(w, id)
    ensures SentFor(v, id)
  {
    var i :| 0 <= i < |w.sends| && w.sends[i].card == id && w.sends[i].outcome == Some(WasSent);
    assert LaterSend(w.sends[i], v.sends[i]);
  }

  lemma HasTurnStays(w: World, v: World, run: RunId, id: CardId)
    requires Later(w, v) && HasTurn(w, run, id)
    ensures HasTurn(v, run, id)
  {
    var i :| 0 <= i < |w.runs[run].turns| && w.runs[run].turns[i].card == id;
    assert v.runs[run].turns[i] == w.runs[run].turns[i];
  }

  /** A suspended call's assumptions survive anything the others do. */
  lemma PcStays(w: World, v: World, pc: Pc)
    requires Later(w, v) && PcOk(w, pc)
    ensures PcOk(v, pc)
  {
    match pc
    case Settle(n, _, to, _) => if to == Sent { SentForStays(w, v, n.card); }
    case MarkResolved(n) => HasTurnStays(w, v, n.run, n.card);
    case _ =>
  }

  lemma LaterTrans(u: World, v: World, w: World)
    requires Later(u, v) && Later(v, w)
    ensures Later(u, w)
  {
    forall i | 0 <= i < |u.sends| ensures LaterSend(u.sends[i], w.sends[i]) {
      assert LaterSend(u.sends[i], v.sends[i]) && LaterSend(v.sends[i], w.sends[i]);
    }
  }

  /* ------------------------------------------------ what a small change keeps -- */

  lemma PcsKeep(w: World, v: World)
    requires PcsOk(w) && Later(w, v)
    requires forall a :: a in v.pcs ==> (a in w.pcs && v.pcs[a] == w.pcs[a]) || PcOk(v, v.pcs[a])
    ensures PcsOk(v)
  {
    forall a | a in v.pcs ensures PcOk(v, v.pcs[a]) {
      if a in w.pcs && v.pcs[a] == w.pcs[a] { PcStays(w, v, w.pcs[a]); }
    }
  }

  lemma CardsKeep(w: World, v: World)
    requires CardsOk(w) && Later(w, v)
    requires forall id :: id in v.cards ==> (id in w.cards && v.cards[id] == w.cards[id]) || CardOk(v, id, v.cards[id])
    ensures CardsOk(v)
  {
    forall id | id in v.cards ensures CardOk(v, id, v.cards[id]) {
      if id in w.cards && v.cards[id] == w.cards[id] {
        assert CardOk(w, id, w.cards[id]);
        if w.cards[id].resolved { HasTurnStays(w, v, w.cards[id].run, id); }
        if w.cards[id].delivery == Sent { SentForStays(w, v, id); }
      }
    }
  }

  lemma TurnStays(w: World, v: World, run: RunId, t: Turn)
    requires Later(w, v) && TurnOk(w, run, t)
    ensures TurnOk(v, run, t)
  {
  }

  lemma RunsKeep(w: World, v: World)
    requires RunsOk(w) && Later(w, v)
    requires forall r :: r in v.runs ==> (r in w.runs && v.runs[r] == w.runs[r]) || RunOk(v, r, v.runs[r])
    ensures RunsOk(v)
  {
    forall r | r in v.runs ensures RunOk(v, r, v.runs[r]) {
      if r in w.runs && v.runs[r] == w.runs[r] {
        assert RunOk(w, r, w.runs[r]);
        forall i | 0 <= i < |w.runs[r].turns| ensures TurnOk(v, r, w.runs[r].turns[i]) {
          TurnStays(w, v, r, w.runs[r].turns[i]);
        }
      }
    }
  }

  lemma SendsKeep(w: World, v: World)
    requires SendsOk(w) && Later(w, v) && |v.sends| == |w.sends|
    ensures SendsOk(v)
  {
    forall i | 0 <= i < |v.sends| ensures SendOk(v, v.sends[i]) && v.sends[i].card == w.sends[i].card {
      assert SendOk(w, w.sends[i]) && LaterSend(w.sends[i], v.sends[i]);
    }
  }

  /** A move of `a` that neither gains nor spends the right to send. */
  ghost predicate Plain(w: World, v: World, a: Actor) {
    && v.sends == w.sends && a in v.pcs && v.pcs == w.pcs[a := v.pcs[a]]
    && !v.pcs[a].Transmit? && !v.pcs[a].InFlight? && (a in w.pcs ==> !w.pcs[a].Transmit?)
  }

  lemma TokensKeep(w: World, v: World, a: Actor)
    requires TokensOk(w) && Plain(w, v, a)
    ensures TokensOk(v)
  {
    forall b, id | Transmits(v, b, id) ensures Transmits(w, b, id) && !Logged(v, id) {
      assert b != a && Transmits(w, b, id) && !Logged(w, id);
    }
  }

  lemma SendingKeep(w: World, v: World, a: Actor)
    requires SendingOk(w) && Plain(w, v, a)
    requires forall id :: id in v.cards && v.cards[id].delivery == Sending ==> id in w.cards && w.cards[id].delivery == Sending
    ensures SendingOk(v)
  {
    forall id | id in v.cards && v.cards[id].delivery == Sending
      ensures Logged(v, id) || exists b :: Transmits(v, b, id)
    {
      if !Logged(w, id) {
        var b :| Transmits(w, b, id);
        assert Transmits(v, b, id);
      }
    }
  }

  lemma OneOpenKeep(w: World, v: World)
    requires OneOpen(w)
    requires forall id :: id in v.cards && Unsettled(v.cards[id]) ==>
      id in w.cards && Unsettled(w.cards[id]) && w.cards[id].run == v.cards[id].run
    ensures OneOpen(v)
  {
  }

  lemma WinsKeep(w: World, v: World)
    requires WinsOk(w) && v.wins == w.wins
    requires forall id :: (id in v.cards && v.cards[id].decision != Pending) <==> (id in w.cards && w.cards[id].decision != Pending)
    ensures WinsOk(v)
  {
    forall id ensures Won(v, id) == Won(w, id) {}
  }

  /** A change of one card that keeps its decision, starts no delivery and frees or keeps its slot. */
  ghost predicate MildCard(w: World, v: World, id: CardId) {
    && id in w.cards && id in v.cards && LaterCard(w.cards[id], v.cards[id])
    && v.cards[id].decision == w.cards[id].decision
    && (Unsettled(v.cards[id]) ==> Unsettled(w.cards[id]))
    && (v.cards[id].delivery == Sending ==> w.cards[id].delivery == Sending)
    && (v.cards[id] == w.cards[id] || CardOk(v, id, v.cards[id]))
  }

  ghost predicate MildRun(w: World, v: World, r: RunId) {
    && r in w.runs && r in v.runs && LaterRun(w.runs[r], v.runs[r])
    && (v.runs[r] == w.runs[r] || RunOk(v, r, v.runs[r]))
  }

  ghost predicate Mild(w: World, v: World, a: Actor) {
    && Plain(w, v, a) && v.wins == w.wins
    && v.cards.Keys == w.cards.Keys && (forall id :: id in v.cards ==> MildCard(w, v, id))
    && v.runs.Keys == w.runs.Keys && (forall r :: r in v.runs ==> MildRun(w, v, r))
  }

  lemma MildLater(w: World, v: World, a: Actor)
    requires Mild(w, v, a)
    ensures Later(w, v)
  {
  }

  lemma MildTables(w: World, v: World, a: Actor)
    requires CardsOk(w) && RunsOk(w) && SendsOk(w) && Mild(w, v, a)
    ensures CardsOk(v) && RunsOk(v) && SendsOk(v)
  {
    MildLater(w, v, a);
    CardsKeep(w, v);
    RunsKeep(w, v);
    SendsKeep(w, v);
  }

  lemma MildRights(w: World, v: World, a: Actor)
    requires TokensOk(w) && SendingOk(w) && OneOpen(w) && WinsOk(w) && Mild(w, v, a)
    ensures TokensOk(v) && SendingOk(v) && OneOpen(v) && WinsOk(v)
  {
    TokensKeep(w, v, a);
    SendingKeep(w, v, a);
    OneOpenKeep(w, v);
    WinsKeep(w, v);
  }

  lemma MildKeeps(w: World, v: World, a: Actor)
    requires Inv(w) && Mild(w, v, a) && PcOk(v, v.pcs[a])
    ensures Inv(v) && Later(w, v)
  {
    MildLater(w, v, a);
    assert PcsOk(v) by { PcsKeep(w, v); }
    MildTables(w, v, a);
    MildRights(w, v, a);
  }

  /** A statement that only moves its own actor on. */
  lemma OnlyMoves(w: World, a: Actor, pc: Pc)
    requires Inv(w) && PcOk(w, pc) && !pc.Transmit? && !pc.InFlight? && (a in w.pcs ==> !w.pcs[a].Transmit?)
    ensures Inv(To(w, a, pc)) && Later(w, To(w, a, pc))
  {
    var v := To(w, a, pc);
    assert Mild(w, v, a);
    MildLater(w, v, a);
    PcStays(w, v, pc);
    MildKeeps(w, v, a);
  }

  lemma CardIsMild(w: World, a: Actor, id: CardId, c: Card, pc: Pc)
    requires id in w.cards && !pc.Transmit? && !pc.InFlight? && (a in w.pcs ==> !w.pcs[a].Transmit?)
    requires MildCard(w, To(PutCard(w, id, c), a, pc), id)
    ensures Mild(w, To(PutCard(w, id, c), a, pc), a)
  {
    var v := To(PutCard(w, id, c), a, pc);
    assert v.cards.Keys == w.cards.Keys;
    forall d | d in v.cards ensures MildCard(w, v, d) { assert d != id ==> v.cards[d] == w.cards[d]; }
  }

  lemma CardMoves(w: World, a: Actor, id: CardId, c: Card, pc: Pc)
    requires Inv(w) && id in w.cards && !pc.Transmit? && !pc.InFlight? && (a in w.pcs ==> !w.pcs[a].Transmit?)
    requires MildCard(w, To(PutCard(w, id, c), a, pc), id) && PcOk(To(PutCard(w, id, c), a, pc), pc)
    ensures Inv(To(PutCard(w, id, c), a, pc)) && Later(w, To(PutCard(w, id, c), a, pc))
  {
    CardIsMild(w, a, id, c, pc);
    MildKeeps(w, To(PutCard(w, id, c), a, pc), a);
  }

  lemma RunIsMild(w: World, a: Actor, run: RunId, r: RunState, pc: Pc)
    requires run in w.runs && !pc.Transmit? && !pc.InFlight? && (a in w.pcs ==> !w.pcs[a].Transmit?)
    requires MildRun(w, To(PutRun(w, run, r), a, pc), run)
    ensures Mild(w, To(PutRun(w, run, r), a, pc), a)
  {
    var v := To(PutRun(w, run, r), a, pc);
    assert v.runs.Keys == w.runs.Keys;
    forall d | d in v.runs ensures MildRun(w, v, d) { assert d != run ==> v.runs[d] == w.runs[d]; }
  }

  lemma RunMoves(w: World, a: Actor, run: RunId, r: RunState, pc: Pc)
    requires Inv(w) && run in w.runs && !pc.Transmit? && !pc.InFlight? && (a in w.pcs ==> !w.pcs[a].Transmit?)
    requires MildRun(w, To(PutRun(w, run, r), a, pc), run) && PcOk(To(PutRun(w, run, r), a, pc), pc)
    ensures Inv(To(PutRun(w, run, r), a, pc)) && Later(w, To(PutRun(w, run, r), a, pc))
  {
    RunIsMild(w, a, run, r, pc);
    MildKeeps(w, To(PutRun(w, run, r), a, pc), a);
  }

  /* ------------------------------------------------------------ notify's moves -- */

  lemma ReadsKeep(w: World, a: Actor)
    requires Inv(w) && a in w.pcs && (w.pcs[a].ReadRun? || w.pcs[a].ReadCard? || w.pcs[a].Reread?)
    ensures Inv(DoGo(w, a)) && Later(w, DoGo(w, a))
  {
    assert PcOk(w, w.pcs[a]);
    OnlyMoves(w, a, DoGo(w, a).pcs[a]);
  }

  lemma SettleKeeps(w: World, a: Actor)
    requires Inv(w) && a in w.pcs && w.pcs[a].Settle?
    ensures Inv(DoGo(w, a)) && Later(w, DoGo(w, a))
  {
    var Settle(n, from, to, error) := w.pcs[a];
    assert PcOk(w, w.pcs[a]) && CardOk(w, n.card, w.cards[n.card]);
    if Moved(w, n.card, from) {
      var c := w.cards[n.card].(delivery := to, error := error);
      SettleIsMild(w, a);
      CardMoves(w, a, n.card, c, Unpark(n, Report(to, error)));
    } else {
      OnlyMoves(w, a, Reread(n, to, error));
    }
  }

  lemma SettleIsMild(w: World, a: Actor)
    requires a in w.pcs && w.pcs[a].Settle? && PcOk(w, w.pcs[a]) && Moved(w, w.pcs[a].n.card, w.pcs[a].from)
    requires CardOk(w, w.pcs[a].n.card, w.cards[w.pcs[a].n.card])
    ensures var Settle(n, from, to, error) := w.pcs[a];
      var c := w.cards[n.card].(delivery := to, error := error); var pc := Unpark(n, Report(to, error));
      MildCard(w, To(PutCard(w, n.card, c), a, pc), n.card) && PcOk(To(PutCard(w, n.card, c), a, pc), pc)
  {
  }

  lemma UnparkKeeps(w: World, a: Actor)
    requires Inv(w) && a in w.pcs && w.pcs[a].Unpark?
    ensures Inv(DoGo(w, a)) && Later(w, DoGo(w, a))
  {
    var Unpark(n, report) := w.pcs[a];
    assert PcOk(w, w.pcs[a]) && CardOk(w, n.card, w.cards[n.card]) && RunOk(w, n.run, w.runs[n.run]);
    FlagIsMild(w, a, n.run, None, w.runs[n.run].last, Submit(n, report));
    RunMoves(w, a, n.run, w.runs[n.run].(open := None), Submit(n, report));
  }

  lemma SubmitKeeps(w: World, a: Actor)
    requires Inv(w) && a in w.pcs && w.pcs[a].Submit?
    ensures Inv(DoGo(w, a)) && Later(w, DoGo(w, a))
  {
    var Submit(n, report) := w.pcs[a];
    assert PcOk(w, w.pcs[a]) && CardOk(w, n.card, w.cards[n.card]) && RunOk(w, n.run, w.runs[n.run]);
    if HasTurn(w, n.run, n.card) {
      OnlyMoves(w, a, MarkResolved(n));
    } else {
      SubmitIsMild(w, a, n, report);
      RunMoves(w, a, n.run, Accepting(w, n, report), MarkResolved(n));
    }
  }

  function Accepting(w: World, n: Notice, report: Report): RunState
    requires n.run in w.runs
  {
    w.runs[n.run].(turns := w.runs[n.run].turns + [Turn(n.card, n.decision, n.text, n.reason, report)])
  }

  lemma SubmitIsMild(w: World, a: Actor, n: Notice, report: Report)
    requires n.run in w.runs && RunOk(w, n.run, w.runs[n.run]) && PcOk(w, Submit(n, report)) && !HasTurn(w, n.run, n.card)
    ensures var v := To(PutRun(w, n.run, Accepting(w, n, report)), a, MarkResolved(n));
      MildRun(w, v, n.run) && PcOk(v, MarkResolved(n))
  {
    var r := Accepting(w, n, report);
    var v := To(PutRun(w, n.run, r), a, MarkResolved(n));
    assert r.turns[|r.turns| - 1].card == n.card;
    forall i | 0 <= i < |r.turns| ensures TurnOk(v, n.run, r.turns[i]) {
      if i < |w.runs[n.run].turns| { assert TurnOk(w, n.run, w.runs[n.run].turns[i]); }
    }
  }

  lemma MarkResolvedKeeps(w: World, a: Actor)
    requires Inv(w) && a in w.pcs && w.pcs[a].MarkResolved?
    ensures Inv(DoGo(w, a)) && Later(w, DoGo(w, a))
  {
    var n := w.pcs[a].n;
    assert PcOk(w, w.pcs[a]) && CardOk(w, n.card, w.cards[n.card]);
    CardMoves(w, a, n.card, w.cards[n.card].(resolved := true), Finished(true));
  }

  /* ---------------------------------------------------------- the port's moves -- */

  lemma FlagIsMild(w: World, a: Actor, run: RunId, open: Option<CardId>, last: Option<CardId>, pc: Pc)
    requires run in w.runs && RunOk(w, run, w.runs[run])
    requires open.Some? ==> open.value in w.cards && w.cards[open.value].run == run
    requires last == w.runs[run].last || last == open
    ensures MildRun(w, To(PutRun(w, run, w.runs[run].(open := open, last := last)), a, pc), run)
  {
    var r := w.runs[run].(open := open, last := last);
    var v := To(PutRun(w, run, r), a, pc);
    forall i | 0 <= i < |r.turns| ensures TurnOk(v, run, r.turns[i]) { assert TurnOk(w, run, r.turns[i]); }
  }

  lemma ParkKeeps(w: World, a: Actor)
    requires Inv(w) && a in w.pcs && w.pcs[a].Park?
    ensures Inv(DoGo(w, a)) && Later(w, DoGo(w, a))
  {
    var Park(run, id) := w.pcs[a];
    assert PcOk(w, w.pcs[a]) && CardOk(w, id, w.cards[id]);
    FlagIsMild(w, a, run, Some(id), Some(id), Opened(id));
    RunMoves(w, a, run, w.runs[run].(open := Some(id), last := Some(id)), Opened(id));
  }

  lemma ClearKeeps(w: World, a: Actor)
    requires Inv(w) && a in w.pcs && w.pcs[a].Clear?
    ensures Inv(DoGo(w, a)) && Later(w, DoGo(w, a))
  {
    var Clear(run, id) := w.pcs[a];
    assert PcOk(w, w.pcs[a]) && CardOk(w, id, w.cards[id]);
    FlagIsMild(w, a, run, None, w.runs[run].last, Retract(id));
    RunMoves(w, a, run, w.runs[run].(open := None), Retract(id));
  }

  lemma ConsultKeeps(w: World, a: Actor)
    requires Inv(w) && a in w.pcs && w.pcs[a].Consult?
    ensures Inv(DoGo(w, a)) && Later(w, DoGo(w, a))
  {
    var last := w.pcs[a].last;
    ConsultOk(w, a, last);
    OnlyMoves(w, a, DoConsult(w, a, last).pcs[a]);
  }

  lemma ConsultOk(w: World, a: Actor, last: Option<CardId>)
    ensures PcOk(w, DoConsult(w, a, last).pcs[a])
    ensures DoConsult(w, a, last) == To(w, a, DoConsult(w, a, last).pcs[a])
  {
  }

  /* ------------------------------------------- leaving `pending`: one winner -- */

  /** A card moved out of `pending` by actor `a`, whose win is logged. */
  ghost predicate Wins(w: World, v: World, a: Actor, id: CardId) {
    && id in w.cards && w.cards[id].decision == Pending && v.cards.Keys == w.cards.Keys
    && v == World(w.cards[id := v.cards[id]], w.runs, w.sends, v.pcs, w.wins + [(id, a)])
    && Plain(w, v, a)
    && LaterCard(w.cards[id], v.cards[id]) && v.cards[id].decision != Pending
    && v.cards[id].delivery != Sending && CardOk(v, id, v.cards[id])
  }

  lemma WinKeepsLog(w: World, v: World, a: Actor, id: CardId)
    requires WinsOk(w) && Wins(w, v, a, id)
    ensures WinsOk(v)
  {
    assert !Won(w, id);
    forall d ensures Won(v, d) <==> Won(w, d) || d == id {
      if Won(w, d) {
        var i :| 0 <= i < |w.wins| && w.wins[i].0 == d;
        assert v.wins[i].0 == d;
      }
      assert v.wins[|w.wins|] == (id, a);
    }
  }

  lemma WinKeeps(w: World, v: World, a: Actor, id: CardId)
    requires Inv(w) && Wins(w, v, a, id) && PcOk(v, v.pcs[a])
    ensures Inv(v) && Later(w, v)
  {
    WinIsLater(w, v, a, id);
    assert PcsOk(v) by { PcsKeep(w, v); }
    assert CardsOk(v) by { CardsKeep(w, v); }
    assert RunsOk(v) by { RunsKeep(w, v); }
    assert SendsOk(v) by { SendsKeep(w, v); }
    assert TokensOk(v) by { TokensKeep(w, v, a); }
    assert SendingOk(v) by { SendingKeep(w, v, a); }
    assert OneOpen(v) by { OneOpenKeep(w, v); }
    assert WinsOk(v) by { WinKeepsLog(w, v, a, id); }
  }

  lemma WinIsLater(w: World, v: World, a: Actor, id: CardId)
    requires Wins(w, v, a, id)
    ensures Later(w, v)
  {
    forall d | d in w.cards ensures d in v.cards && LaterCard(w.cards[d], v.cards[d]) {
      assert d != id ==> v.cards[d] == w.cards[d];
    }
  }

  lemma DecideKeeps(w: World, a: Actor, id: CardId, input: Input, email: Text)
    requires Inv(w) && a !in w.pcs && ValidInput(input)
    ensures Inv(DoDecide(w, a, id, input, email)) && Later(w, DoDecide(w, a, id, input, email))
  {
    var v := DoDecide(w, a, id, input, email);
    if id !in w.cards || w.cards[id].decision != Pending {
      OnlyMoves(w, a, v.pcs[a]);
    } else {
      DecideWins(w, a, id, input, email);
      WinKeeps(w, v, a, id);
    }
  }

  lemma DecideWins(w: World, a: Actor, id: CardId, input: Input, email: Text)
    requires a !in w.pcs && ValidInput(input) && id in w.cards && w.cards[id].decision == Pending && CardOk(w, id, w.cards[id])
    ensures var v := DoDecide(w, a, id, input, email); Wins(w, v, a, id) && PcOk(v, v.pcs[a])
  {
    assert DoDecide(w, a, id, input, email).cards.Keys == w.cards.Keys;
  }

  lemma RetractKeeps(w: World, a: Actor)
    requires Inv(w) && a in w.pcs && w.pcs[a].Retract?
    ensures Inv(DoGo(w, a)) && Later(w, DoGo(w, a))
  {
    var id := w.pcs[a].card;
    assert PcOk(w, w.pcs[a]);
    if w.cards[id].decision == Pending {
      RetractWins(w, a, id);
      WinKeeps(w, DoGo(w, a), a, id);
    } else {
      OnlyMoves(w, a, DoGo(w, a).pcs[a]);
    }
  }

  lemma RetractWins(w: World, a: Actor, id: CardId)
    requires a in w.pcs && w.pcs[a] == Retract(id)
    requires id in w.cards && w.cards[id].decision == Pending && CardOk(w, id, w.cards[id])
    ensures var v := DoGo(w, a); Wins(w, v, a, id) && PcOk(v, v.pcs[a])
  {
    assert DoGo(w, a).cards.Keys == w.cards.Keys;
  }

  /* ------------------------------------------------ the right to send, and its use -- */

  /** `none -> sending`: one caller gains the right to send the card. */
  lemma StartKeeps(w: World, a: Actor)
    requires Inv(w) && a in w.pcs && w.pcs[a].Start?
    ensures Inv(DoGo(w, a)) && Later(w, DoGo(w, a))
  {
    var n := w.pcs[a].n;
    assert PcOk(w, w.pcs[a]);
    if Moved(w, n.card, {NotStarted}) {
      StartTables(w, a, n);
      StartSlots(w, a, n);
      StartTokens(w, a, n);
    } else {
      OnlyMoves(w, a, DoGo(w, a).pcs[a]);
    }
  }

  ghost predicate Starts(w: World, a: Actor, n: Notice) {
    && a in w.pcs && w.pcs[a] == Start(n) && PcOk(w, Start(n)) && CardOk(w, n.card, w.cards[n.card])
    && Moved(w, n.card, {NotStarted})
  }

  lemma StartLater(w: World, a: Actor, n: Notice)
    requires Starts(w, a, n)
    ensures var v := DoGo(w, a); Later(w, v) && PcOk(v, Transmit(n)) && CardOk(v, n.card, v.cards[n.card])
  {
    var v := DoGo(w, a);
    assert Later(w, v);
    if v.cards[n.card].resolved { HasTurnStays(w, v, v.cards[n.card].run, n.card); }
  }

  lemma StartTables(w: World, a: Actor, n: Notice)
    requires CardsOk(w) && RunsOk(w) && SendsOk(w) && PcsOk(w) && Starts(w, a, n)
    ensures var v := DoGo(w, a); Later(w, v) && CardsOk(v) && RunsOk(v) && SendsOk(v) && PcsOk(v)
  {
    var v := DoGo(w, a);
    StartLater(w, a, n);
    assert PcsOk(v) by { PcsKeep(w, v); }
    assert CardsOk(v) by { CardsKeep(w, v); }
    assert RunsOk(v) by { RunsKeep(w, v); }
    assert SendsOk(v) by { SendsKeep(w, v); }
  }

  lemma StartSlots(w: World, a: Actor, n: Notice)
    requires OneOpen(w) && WinsOk(w) && Starts(w, a, n)
    ensures OneOpen(DoGo(w, a)) && WinsOk(DoGo(w, a))
  {
    OneOpenKeep(w, DoGo(w, a));
    WinsKeep(w, DoGo(w, a));
  }

  /** Nobody has sent a card whose delivery has not started, and nobody has the right to. */
  lemma NotStartedIsUntouched(w: World, id: CardId)
    requires SendsOk(w) && PcsOk(w) && id in w.cards && w.cards[id].delivery == NotStarted
    ensures !Logged(w, id) && forall a :: !Transmits(w, a, id)
  {
    forall a ensures !Transmits(w, a, id) { assert a in w.pcs ==> PcOk(w, w.pcs[a]); }
    forall i | 0 <= i < |w.sends| ensures w.sends[i].card != id { assert SendOk(w, w.sends[i]); }
  }

  lemma StartTokens(w: World, a: Actor, n: Notice)
    requires SendsOk(w) && PcsOk(w) && TokensOk(w) && SendingOk(w)
    requires a in w.pcs && w.pcs[a] == Start(n) && Moved(w, n.card, {NotStarted})
    ensures TokensOk(DoGo(w, a)) && SendingOk(DoGo(w, a))
  {
    var v := DoGo(w, a);
    NotStartedIsUntouched(w, n.card);
    forall id ensures Logged(v, id) == Logged(w, id) {}
    forall b, id ensures Transmits(v, b, id) <==> Transmits(w, b, id) || (b == a && id == n.card) {}
    forall id | id in v.cards && v.cards[id].delivery == Sending ensures Logged(v, id) || exists b :: Transmits(v, b, id) {
      if id == n.card {
        assert Transmits(v, a, id);
      } else if !Logged(w, id) {
        var b :| Transmits(w, b, id);
        assert Transmits(v, b, id);
      }
    }
  }

  /** The one send: the right is spent as the call goes out. */
  lemma TransmitKeeps(w: World, a: Actor)
    requires Inv(w) && a in w.pcs && w.pcs[a].Transmit?
    ensures Inv(DoGo(w, a)) && Later(w, DoGo(w, a))
  {
    var n := w.pcs[a].n;
    assert PcOk(w, w.pcs[a]) && Transmits(w, a, n.card);
    TransmitTables(w, a, n);
    TransmitTokens(w, a, n);
  }

  lemma TransmitLater(w: World, a: Actor, n: Notice)
    requires a in w.pcs && w.pcs[a] == Transmit(n) && PcOk(w, Transmit(n))
    ensures var v := DoGo(w, a); Later(w, v) && PcOk(v, v.pcs[a])
  {
  }

  lemma TransmitTables(w: World, a: Actor, n: Notice)
    requires CardsOk(w) && RunsOk(w) && SendsOk(w) && PcsOk(w) && OneOpen(w) && WinsOk(w)
    requires a in w.pcs && w.pcs[a] == Transmit(n) && PcOk(w, Transmit(n)) && !Logged(w, n.card)
    ensures var v := DoGo(w, a);
      Later(w, v) && CardsOk(v) && RunsOk(v) && SendsOk(v) && PcsOk(v) && OneOpen(v) && WinsOk(v)
  {
    var v := DoGo(w, a);
    TransmitLater(w, a, n);
    assert PcsOk(v) by { PcsKeep(w, v); }
    assert CardsOk(v) by { CardsKeep(w, v); }
    assert RunsOk(v) by { RunsKeep(w, v); }
    assert OneOpen(v) by { OneOpenKeep(w, v); }
    assert WinsOk(v) by { WinsKeep(w, v); }
    assert SendsOk(v) by { TransmitSends(w, a, n); }
  }

  lemma TransmitSends(w: World, a: Actor, n: Notice)
    requires SendsOk(w) && a in w.pcs && w.pcs[a] == Transmit(n) && PcOk(w, Transmit(n)) && !Logged(w, n.card)
    ensures SendsOk(DoGo(w, a))
  {
    var v := DoGo(w, a);
    assert SendOk(v, v.sends[|w.sends|]);
    forall i | 0 <= i < |w.sends| ensures SendOk(v, v.sends[i]) && v.sends[i].card != n.card { assert SendOk(w, w.sends[i]); }
  }

  lemma TransmitTokens(w: World, a: Actor, n: Notice)
    requires PcsOk(w) && TokensOk(w) && SendingOk(w)
    requires a in w.pcs && w.pcs[a] == Transmit(n) && PcOk(w, Transmit(n))
    ensures TokensOk(DoGo(w, a)) && SendingOk(DoGo(w, a))
  {
    var v := DoGo(w, a);
    assert Transmits(w, a, n.card) && v.sends[|w.sends|].card == n.card;
    forall b, id ensures Transmits(v, b, id) <==> Transmits(w, b, id) && b != a {}
    forall id ensures Logged(v, id) <==> Logged(w, id) || id == n.card {
      if Logged(w, id) {
        var i :| 0 <= i < |w.sends| && w.sends[i].card == id;
        assert v.sends[i].card == id;
      }
    }
    forall b | b in w.pcs && w.pcs[b].InFlight? ensures w.pcs[b].send < |w.sends| { assert PcOk(w, w.pcs[b]); }
    forall id | id in v.cards && v.cards[id].delivery == Sending ensures Logged(v, id) || exists b :: Transmits(v, b, id) {
      if !Logged(v, id) {
        var b :| Transmits(w, b, id);
        assert b != a && Transmits(v, b, id);
      }
    }
  }

  lemma SendEndsKeeps(w: World, a: Actor, outcome: Option<SendResult>)
    requires Inv(w) && a in w.pcs && w.pcs[a].InFlight? && w.pcs[a].send < |w.sends|
    ensures var v := DoSendEnds(w, a, w.pcs[a].n, w.pcs[a].send, outcome); Inv(v) && Later(w, v)
  {
    var InFlight(n, i) := w.pcs[a];
    assert PcOk(w, w.pcs[a]) && w.sends[i].outcome.None?;
    SendEndsTables(w, a, n, i, outcome);
    SendEndsTokens(w, a, n, i, outcome);
  }

  lemma SendEndsLater(w: World, a: Actor, n: Notice, i: nat, outcome: Option<SendResult>)
    requires PcOk(w, InFlight(n, i)) && w.sends[i].outcome.None?
    ensures var v := DoSendEnds(w, a, n, i, outcome); Later(w, v) && PcOk(v, v.pcs[a])
  {
    var v := DoSendEnds(w, a, n, i, outcome);
    assert Later(w, v);
    if ResultOf(outcome).WasSent? { assert v.sends[i].card == n.card && v.sends[i].outcome == Some(WasSent); }
  }

  lemma SendEndsTables(w: World, a: Actor, n: Notice, i: nat, outcome: Option<SendResult>)
    requires CardsOk(w) && RunsOk(w) && SendsOk(w) && PcsOk(w) && OneOpen(w) && WinsOk(w)
    requires PcOk(w, InFlight(n, i)) && w.sends[i].outcome.None?
    ensures var v := DoSendEnds(w, a, n, i, outcome);
      Later(w, v) && CardsOk(v) && RunsOk(v) && SendsOk(v) && PcsOk(v) && OneOpen(v) && WinsOk(v)
  {
    var v := DoSendEnds(w, a, n, i, outcome);
    SendEndsLater(w, a, n, i, outcome);
    assert PcsOk(v) by { PcsKeep(w, v); }
    assert CardsOk(v) by { CardsKeep(w, v); }
    assert RunsOk(v) by { RunsKeep(w, v); }
    assert SendsOk(v) by { SendsKeep(w, v); }
    assert OneOpen(v) by { OneOpenKeep(w, v); }
    assert WinsOk(v) by { WinsKeep(w, v); }
  }

  lemma SendEndsTokens(w: World, a: Actor, n: Notice, i: nat, outcome: Option<SendResult>)
    requires TokensOk(w) && SendingOk(w) && a in w.pcs && w.pcs[a] == InFlight(n, i) && i < |w.sends|
    ensures var v := DoSendEnds(w, a, n, i, outcome); TokensOk(v) && SendingOk(v)
  {
    var v := DoSendEnds(w, a, n, i, outcome);
    forall id ensures Logged(v, id) == Logged(w, id) {
      if Logged(w, id) {
        var j :| 0 <= j < |w.sends| && w.sends[j].card == id;
        assert v.sends[j].card == id;
      }
    }
    forall b, id ensures Transmits(v, b, id) == Transmits(w, b, id) {}
    forall id | id in v.cards && v.cards[id].delivery == Sending ensures Logged(v, id) || exists b :: Transmits(v, b, id) {
      if !Logged(w, id) {
        var b :| Transmits(w, b, id);
        assert Transmits(v, b, id);
      }
    }
  }

  /* --------------------------------------------------------- new runs and new cards -- */

  lemma OpenKeeps(w: World, a: Actor, run: RunId, id: CardId, draft: Text, shadow: bool)
    requires Inv(w) && a !in w.pcs && run in w.runs && id !in w.cards
    ensures Inv(DoOpen(w, a, run, id, draft, shadow)) && Later(w, DoOpen(w, a, run, id, draft, shadow))
  {
    if DoOpen(w, a, run, id, draft, shadow).pcs[a] == OpenRefused {
      OnlyMoves(w, a, OpenRefused);
    } else {
      InsertTables(w, a, run, id, draft, shadow);
      InsertRights(w, a, run, id, draft, shadow);
    }
  }

  ghost predicate Inserts(w: World, a: Actor, run: RunId, id: CardId) {
    && a !in w.pcs && run in w.runs && id !in w.cards && w.runs[run].pinned
    && !exists d :: d in w.cards && w.cards[d].run == run && Unsettled(w.cards[d])
  }

  lemma InsertLater(w: World, a: Actor, run: RunId, id: CardId, draft: Text, shadow: bool)
    requires Inserts(w, a, run, id)
    ensures var v := DoOpen(w, a, run, id, draft, shadow);
      Later(w, v) && PcOk(v, v.pcs[a]) && CardOk(v, id, v.cards[id]) && Plain(w, v, a)
  {
  }

  lemma InsertTables(w: World, a: Actor, run: RunId, id: CardId, draft: Text, shadow: bool)
    requires CardsOk(w) && RunsOk(w) && SendsOk(w) && PcsOk(w) && Inserts(w, a, run, id)
    ensures var v := DoOpen(w, a, run, id, draft, shadow);
      Later(w, v) && CardsOk(v) && RunsOk(v) && SendsOk(v) && PcsOk(v)
  {
    var v := DoOpen(w, a, run, id, draft, shadow);
    InsertLater(w, a, run, id, draft, shadow);
    assert PcsOk(v) by { PcsKeep(w, v); }
    assert CardsOk(v) by { CardsKeep(w, v); }
    assert RunsOk(v) by { RunsKeep(w, v); }
    assert SendsOk(v) by { SendsKeep(w, v); }
  }

  lemma InsertRights(w: World, a: Actor, run: RunId, id: CardId, draft: Text, shadow: bool)
    requires TokensOk(w) && SendingOk(w) && OneOpen(w) && WinsOk(w) && Inserts(w, a, run, id)
    ensures var v := DoOpen(w, a, run, id, draft, shadow);
      TokensOk(v) && SendingOk(v) && OneOpen(v) && WinsOk(v)
  {
    var v := DoOpen(w, a, run, id, draft, shadow);
    InsertLater(w, a, run, id, draft, shadow);
    TokensKeep(w, v, a);
    SendingKeep(w, v, a);
    WinsKeep(w, v);
  }

  /** A new run, or a run whose shadow flag goes up. */
  lemma RunsChangeKeeps(w: World, m: Move)
    requires Inv(w) && (m.NewRun? || m.Ratchet?)
    ensures Inv(Step(w, m)) && Later(w, Step(w, m))
  {
    var v := Step(w, m);
    RunsChangeLater(w, m);
    assert PcsOk(v) by { PcsKeep(w, v); }
    assert CardsOk(v) by { CardsKeep(w, v); }
    assert SendsOk(v) by { SendsKeep(w, v); }
    RunsChangeRights(w, v);
  }

  lemma RunsChangeLater(w: World, m: Move)
    requires RunsOk(w) && (m.NewRun? || m.Ratchet?)
    ensures var v := Step(w, m); Later(w, v) && RunsOk(v) && v == w.(runs := v.runs)
  {
    var v := Step(w, m);
    assert Later(w, v) && v == w.(runs := v.runs);
    forall r | r in v.runs ensures RunOk(v, r, v.runs[r]) {
      if r in w.runs { RunStays(w, v, r, v.runs[r]); }
    }
  }

  lemma RunStays(w: World, v: World, run: RunId, r: RunState)
    requires v.cards == w.cards && run in w.runs && RunOk(w, run, w.runs[run])
    requires r == w.runs[run] || r == w.runs[run].(shadow := true)
    ensures RunOk(v, run, r)
  {
    forall i | 0 <= i < |r.turns| ensures TurnOk(v, run, r.turns[i]) { assert TurnOk(w, run, r.turns[i]); }
  }

  lemma RunsChangeRights(w: World, v: World)
    requires TokensOk(w) && SendingOk(w) && OneOpen(w) && WinsOk(w) && v == w.(runs := v.runs)
    ensures TokensOk(v) && SendingOk(v) && OneOpen(v) && WinsOk(v)
  {
    forall id ensures Logged(v, id) == Logged(w, id) && Won(v, id) == Won(w, id) {}
    forall a, id ensures Transmits(v, a, id) == Transmits(w, a, id) {}
    forall id | id in v.cards && v.cards[id].delivery == Sending ensures Logged(v, id) || exists b :: Transmits(v, b, id) {
      if !Logged(w, id) {
        var b :| Transmits(w, b, id);
        assert Transmits(v, b, id);
      }
    }
  }

  /* ------------------------------------------------------------------- all moves -- */

  lemma GoKeeps(w: World, a: Actor)
    requires Inv(w) && a in w.pcs
    ensures Inv(DoGo(w, a)) && Later(w, DoGo(w, a))
  {
    match w.pcs[a]
    case ReadRun(_) => ReadsKeep(w, a);
    case ReadCard(_, _, _) => ReadsKeep(w, a);
    case Reread(_, _, _) => ReadsKeep(w, a);
    case Start(_) => StartKeeps(w, a);
    case Transmit(_) => TransmitKeeps(w, a);
    case Settle(_, _, _, _) => SettleKeeps(w, a);
    case Unpark(_, _) => UnparkKeeps(w, a);
    case Submit(_, _) => SubmitKeeps(w, a);
    case MarkResolved(_) => MarkResolvedKeeps(w, a);
    case Park(_, _) => ParkKeeps(w, a);
    case Clear(_, _) => ClearKeeps(w, a);
    case Retract(_) => RetractKeeps(w, a);
    case Consult(_) => ConsultKeeps(w, a);
    case _ => LaterRefl(w);
  }

  lemma LaterRefl(w: World)
    ensures Later(w, w)
  {
  }

  lemma SweepKeeps(w: World, a: Actor, id: CardId)
    requires Inv(w) && a !in w.pcs && id in w.cards && Resolvable(w.cards[id].decision)
    ensures var v := To(w, a, ReadRun(NoticeOf(id, w.cards[id]))); Inv(v) && Later(w, v)
  {
    OnlyMoves(w, a, ReadRun(NoticeOf(id, w.cards[id])));
  }

  lemma BeginWithdrawKeeps(w: World, a: Actor, run: RunId)
    requires Inv(w) && a !in w.pcs && run in w.runs
    ensures var v := To(w, a, BeginWithdrawPc(run, w.runs[run])); Inv(v) && Later(w, v)
  {
    assert RunOk(w, run, w.runs[run]);
    OnlyMoves(w, a, BeginWithdrawPc(run, w.runs[run]));
  }

  lemma StepKeeps(w: World, m: Move)
    requires Inv(w)
    ensures Inv(Step(w, m)) && Later(w, Step(w, m))
  {
    if !Enabled(w, m) {
      LaterRefl(w);
    } else {
      match m
      case NewRun(_, _, _) => RunsChangeKeeps(w, m);
      case Ratchet(_) => RunsChangeKeeps(w, m);
      case Open(a, run, id, draft, shadow) => OpenKeeps(w, a, run, id, draft, shadow);
      case Decide(a, id, input, email) => DecideKeeps(w, a, id, input, email);
      case Sweep(a, id) => SweepKeeps(w, a, id);
      case BeginWithdraw(a, run) => BeginWithdrawKeeps(w, a, run);
      case SendEnds(a, outcome) => SendEndsKeeps(w, a, outcome);
      case Go(a) => GoKeeps(w, a);
    }
  }

  /** Every state of every run satisfies the invariant and can only be followed by later ones. */
  lemma {:induction false} RunKeeps(w: World, moves: seq<Move>)
    requires Inv(w)
    ensures Inv(Run(w, moves)) && Later(w, Run(w, moves))
    decreases |moves|
  {
    LaterRefl(w);
    if moves != [] {
      StepKeeps(w, moves[0]);
      RunKeeps(Step(w, moves[0]), moves[1..]);
      LaterTrans(w, Step(w, moves[0]), Run(w, moves));
    }
  }
}