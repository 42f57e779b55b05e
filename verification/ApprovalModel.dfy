/**
 The approval protocol as a transition system: the card table, every run's parked
 flag and accepted resolution turns, the log of `sender.send` calls, and all the
 deciders, notifiers, openers and withdrawers in flight.

 One D1 statement or batch, one Durable Object call and each end of a send is one
 atomic move. An actor that never moves again is a crash. A move that is not
 enabled changes nothing, so every sequence of moves is a run.
 */
module ApprovalModel {
  import opened Wrappers

  type CardId = nat
  type RunId = nat
  type Actor = nat
  type Text = string

  datatype Decision = Pending | Approved | Edited | Rejected | Withdrawn

  /** `NotStarted` is the source's `none`. */
  datatype Delivery = NotStarted | Sending | Sent | Blocked | Suppressed | InDoubt

  datatype Card = Card(
    run: RunId, draft: Text, shadow: bool,
    decision: Decision, decidedBy: Option<Text>, edited: Option<Text>, reason: Option<Text>,
    delivery: Delivery, error: Option<Text>, resolved: bool)

  /** A resolution turn the run's submission queue accepted under `approval:{card}`. */
  datatype Turn = Turn(card: CardId, decision: Decision, text: Option<Text>, reason: Option<Text>, report: Report)

  /** What the resolution turn says about the delivery. */
  datatype Report = Report(delivery: Delivery, error: Option<Text>)

  /** `pinned`: the run has a channel and a thread. `open` is the parked flag. */
  datatype RunState = RunState(shadow: bool, pinned: bool, open: Option<CardId>, last: Option<CardId>, turns: seq<Turn>)

  datatype SendResult = WasSent | WasBlocked(reason: Text) | Unknown(reason: Text)

  /** One call of `sender.send`; the outcome is None while it is in flight. */
  datatype Send = Send(card: CardId, text: Text, outcome: Option<SendResult>)

  datatype Input = Approve | Edit(text: Text) | Reject(reason: Text)

  /** What PATCH or the sweeper hands to `notify`. */
  datatype Notice = Notice(run: RunId, card: CardId, decision: Decision, text: Option<Text>, reason: Option<Text>)

  /** Where a call is suspended, or how it ended. */
  datatype Pc =
    // notify
    | ReadRun(n: Notice)
    | ReadCard(n: Notice, shadow: bool, pinned: bool)
    | Start(n: Notice)
    | Transmit(n: Notice)
    | InFlight(n: Notice, send: nat)
    | Settle(n: Notice, from: set<Delivery>, to: Delivery, error: Option<Text>)
    | Reread(n: Notice, to: Delivery, error: Option<Text>)
    | Unpark(n: Notice, report: Report)
    | Submit(n: Notice, report: Report)
    | MarkResolved(n: Notice)
    | Finished(applied: bool)
    // the PATCH handler's other answers
    | AlreadyDecided(card: CardId, decision: Decision)
    | UnknownCard
    // the port's open
    | Park(run: RunId, card: CardId)
    | Opened(card: CardId)
    | OpenRefused
    // the port's withdraw
    | Clear(run: RunId, card: CardId)
    | Retract(card: CardId)
    | Retracted(card: CardId, lost: Option<Decision>)
    | Consult(last: Option<CardId>)
    | Consulted(last: Option<CardId>, lost: Option<Decision>)

  /** `wins` logs which caller's update moved which card out of `pending`. */
  datatype World = World(
    cards: map<CardId, Card>, runs: map<RunId, RunState>,
    sends: seq<Send>, pcs: map<Actor, Pc>, wins: seq<(CardId, Actor)>)

  const INIT := World(map[], map[], [], map[], [])

  datatype Move =
    | NewRun(run: RunId, pinned: bool, shadow: bool)
    | Ratchet(run: RunId)
    | Open(who: Actor, run: RunId, card: CardId, draft: Text, shadow: bool)
    | Decide(who: Actor, card: CardId, input: Input, email: Text)
    | Sweep(who: Actor, card: CardId)
    | BeginWithdraw(who: Actor, run: RunId)
    | SendEnds(who: Actor, outcome: Option<SendResult>)  // None: the sender threw
    | Go(who: Actor)                                      // the actor's next statement

  /* ------------------------------------------------------- pure functions -- */

  /** The white space and line terminators `String.prototype.trim` removes. */
  predicate IsSpace(c: char) {
    var u := c as int;
    9 <= u <= 13 || u == 32 || u == 160 || u == 0x1680 || 0x2000 <= u <= 0x200A ||
    u == 0x2028 || u == 0x2029 || u == 0x202F || u == 0x205F || u == 0x3000 || u == 0xFEFF
  }

  predicate Blank(t: Text) { forall i :: 0 <= i < |t| ==> IsSpace(t[i]) }

  /** `validateDecisionInput`: a blank edit or reject reason throws before any D1 statement. */
  predicate ValidInput(i: Input) {
    match i
    case Approve => true
    case Edit(t) => !Blank(t)
    case Reject(r) => !Blank(r)
  }

  function Chosen(i: Input): Decision {
    match i case Approve => Approved case Edit(_) => Edited case Reject(_) => Rejected
  }

  function OutboundText(c: Card): Text {
    if c.decision == Edited && c.edited.Some? then c.edited.value else c.draft
  }

  predicate Terminal(d: Delivery) { d == Sent || d == Blocked || d == Suppressed || d == InDoubt }

  predicate Outgoing(d: Decision) { d == Approved || d == Edited }

  predicate Resolvable(d: Decision) { Outgoing(d) || d == Rejected }

  /** The condition of the partial unique index `idx_approvals_one_open`. */
  predicate Unsettled(c: Card) {
    c.decision == Pending || (Outgoing(c.decision) && c.delivery != Sent && c.delivery != Blocked && c.delivery != Suppressed)
  }

  /** What PATCH and the sweeper derive from a decided row. */
  function NoticeOf(id: CardId, c: Card): Notice {
    Notice(c.run, id, c.decision, if c.decision == Rejected then None else Some(OutboundText(c)), c.reason)
  }

  function Decided(c: Card, i: Input, email: Text): Card {
    c.(decision := Chosen(i), decidedBy := Some(email),
       edited := if i.Edit? then Some(i.text) else None,
       reason := if i.Reject? then Some(i.reason) else None)
  }

  predicate HasTurn(w: World, n: RunId, card: CardId) {
    n in w.runs && exists i :: 0 <= i < |w.runs[n].turns| && w.runs[n].turns[i].card == card
  }

  /* --------------------------------------------------------- the statements -- */

  function To(w: World, a: Actor, pc: Pc): World { w.(pcs := w.pcs[a := pc]) }

  function PutCard(w: World, id: CardId, c: Card): World { w.(cards := w.cards[id := c]) }

  function PutRun(w: World, id: RunId, r: RunState): World { w.(runs := w.runs[id := r]) }

  /** INSERT under the one-open index: a second unsettled card of the run is refused. */
  function DoOpen(w: World, a: Actor, run: RunId, id: CardId, draft: Text, shadow: bool): World
    requires run in w.runs
  {
    if !w.runs[run].pinned || exists d :: d in w.cards && w.cards[d].run == run && Unsettled(w.cards[d]) then
      To(w, a, OpenRefused)
    else
      To(PutCard(w, id, Card(run, draft, shadow, Pending, None, None, None, NotStarted, None, false)), a, Park(run, id))
  }

  /** One batch: UPDATE .. WHERE decision = 'pending' RETURNING, then the row. The winner goes on to notify. */
  function DoDecide(w: World, a: Actor, id: CardId, input: Input, email: Text): World {
    if id !in w.cards then To(w, a, UnknownCard)
    else if w.cards[id].decision != Pending then To(w, a, AlreadyDecided(id, w.cards[id].decision))
    else
      var c := Decided(w.cards[id], input, email);
      To(PutCard(w, id, c), a, ReadRun(NoticeOf(id, c))).(wins := w.wins + [(id, a)])
  }

  function DoReadRun(w: World, a: Actor, n: Notice): World {
    To(w, a, if n.run in w.runs then ReadCard(n, w.runs[n.run].shadow, w.runs[n.run].pinned) else Finished(false))
  }

  function AfterCard(w: World, n: Notice, shadow: bool, pinned: bool): Pc {
    if n.card !in w.cards || w.cards[n.card].run != n.run || w.cards[n.card].decision != n.decision then Finished(false)
    else if n.decision == Rejected then Unpark(n, Report(NotStarted, None))
    else DeliveryPc(WithText(n, w.cards[n.card]), w.cards[n.card].shadow || shadow, pinned)
  }

  /** The text comes from the notice, and from the row only when the notice has none. */
  function WithText(n: Notice, c: Card): Notice { if n.text.Some? then n else n.(text := Some(OutboundText(c))) }

  /** How `deliverApproval` begins. */
  function DeliveryPc(n: Notice, shadow: bool, pinned: bool): Pc {
    if shadow then Settle(n, {NotStarted, Sending}, Suppressed, None)
    else if !pinned then Settle(n, {NotStarted, Sending}, Blocked, Some("no_pinned_thread"))
    else Start(n)
  }

  /** `setDelivery`: UPDATE .. WHERE delivery IN from. */
  function Moved(w: World, id: CardId, from: set<Delivery>): bool {
    id in w.cards && w.cards[id].delivery in from
  }

  function SetDelivery(w: World, id: CardId, from: set<Delivery>, to: Delivery, error: Option<Text>): World {
    if Moved(w, id, from) then PutCard(w, id, w.cards[id].(delivery := to, error := error)) else w
  }

  function DoStart(w: World, a: Actor, n: Notice): World {
    To(SetDelivery(w, n.card, {NotStarted}, Sending, None), a,
       if Moved(w, n.card, {NotStarted}) then Transmit(n)
       else Settle(n, {Sending}, InDoubt, Some("re-entered while a send was in flight")))
  }

  function DoTransmit(w: World, a: Actor, n: Notice): World {
    To(w, a, InFlight(n, |w.sends|)).(sends := w.sends + [Send(n.card, if n.text.Some? then n.text.value else "", None)])
  }

  function ResultOf(outcome: Option<SendResult>): SendResult {
    if outcome.Some? then outcome.value else Unknown("the sender threw")
  }

  function SettledAs(n: Notice, r: SendResult): Pc {
    match r
    case WasSent => Settle(n, {Sending}, Sent, None)
    case WasBlocked(why) => Settle(n, {Sending}, Blocked, Some(why))
    case Unknown(why) => Settle(n, {Sending}, InDoubt, Some(why))
  }

  function DoSendEnds(w: World, a: Actor, n: Notice, i: nat, outcome: Option<SendResult>): World
    requires i < |w.sends|
  {
    To(w, a, SettledAs(n, ResultOf(outcome))).(sends := w.sends[i := w.sends[i].(outcome := Some(ResultOf(outcome)))])
  }

  function DoSettle(w: World, a: Actor, n: Notice, from: set<Delivery>, to: Delivery, error: Option<Text>): World {
    To(SetDelivery(w, n.card, from, to, error), a,
       if Moved(w, n.card, from) then Unpark(n, Report(to, error)) else Reread(n, to, error))
  }

  function DoReread(w: World, a: Actor, n: Notice, to: Delivery, error: Option<Text>): World {
    To(w, a, Unpark(n, if n.card in w.cards then Report(w.cards[n.card].delivery, None) else Report(to, error)))
  }

  /** `setOpenApproval(null)`: unconditional, whatever card the run is parked on. */
  function DoUnpark(w: World, a: Actor, n: Notice, report: Report): World {
    if n.run !in w.runs then w
    else To(PutRun(w, n.run, w.runs[n.run].(open := None)), a, Submit(n, report))
  }

  /** `runTurn` under the key `approval:{card}`: a repeated key is refused by the queue. */
  function DoSubmit(w: World, a: Actor, n: Notice, report: Report): World {
    if n.run !in w.runs then w
    else
      var r := w.runs[n.run];
      To(if HasTurn(w, n.run, n.card) then w
         else PutRun(w, n.run, r.(turns := r.turns + [Turn(n.card, n.decision, n.text, n.reason, report)])),
         a, MarkResolved(n))
  }

  function DoMarkResolved(w: World, a: Actor, n: Notice): World {
    To(if n.card in w.cards then PutCard(w, n.card, w.cards[n.card].(resolved := true)) else w, a, Finished(true))
  }

  function DoPark(w: World, a: Actor, run: RunId, id: CardId): World {
    if run !in w.runs then w
    else To(PutRun(w, run, w.runs[run].(open := Some(id), last := Some(id))), a, Opened(id))
  }

  function DoClear(w: World, a: Actor, run: RunId, id: CardId): World {
    if run !in w.runs then w
    else To(PutRun(w, run, w.runs[run].(open := None)), a, Retract(id))
  }

  /** One batch: UPDATE .. SET decision = 'withdrawn' WHERE decision = 'pending', then the row. */
  function DoRetract(w: World, a: Actor, id: CardId): World {
    if id !in w.cards then To(w, a, Retracted(id, None))
    else if w.cards[id].decision == Pending then
      To(PutCard(w, id, w.cards[id].(decision := Withdrawn)), a, Retracted(id, None)).(wins := w.wins + [(id, a)])
    else To(w, a, Retracted(id, if w.cards[id].decision == Withdrawn then None else Some(w.cards[id].decision)))
  }

  /** `settledDecision`. */
  function DoConsult(w: World, a: Actor, last: Option<CardId>): World {
    To(w, a, Consulted(last,
      if last.Some? && last.value in w.cards && Resolvable(w.cards[last.value].decision) then Some(w.cards[last.value].decision) else None))
  }

  function BeginWithdrawPc(run: RunId, r: RunState): Pc {
    if r.open.None? then Consult(r.last) else Clear(run, r.open.value)
  }

  /** The next statement of a suspended call. */
  function DoGo(w: World, a: Actor): World
    requires a in w.pcs
  {
    match w.pcs[a]
    case ReadRun(n) => DoReadRun(w, a, n)
    case ReadCard(n, shadow, pinned) => To(w, a, AfterCard(w, n, shadow, pinned))
    case Start(n) => DoStart(w, a, n)
    case Transmit(n) => DoTransmit(w, a, n)
    case Settle(n, from, to, error) => DoSettle(w, a, n, from, to, error)
    case Reread(n, to, error) => DoReread(w, a, n, to, error)
    case Unpark(n, report) => DoUnpark(w, a, n, report)
    case Submit(n, report) => DoSubmit(w, a, n, report)
    case MarkResolved(n) => DoMarkResolved(w, a, n)
    case Park(run, id) => DoPark(w, a, run, id)
    case Clear(run, id) => DoClear(w, a, run, id)
    case Retract(id) => DoRetract(w, a, id)
    case Consult(last) => DoConsult(w, a, last)
    case _ => w
  }

  predicate Enabled(w: World, m: Move) {
    match m
    case NewRun(run, _, _) => run !in w.runs
    case Ratchet(run) => run in w.runs
    case Open(a, run, id, _, _) => a !in w.pcs && run in w.runs && id !in w.cards
    case Decide(a, _, input, _) => a !in w.pcs && ValidInput(input)
    case Sweep(a, id) => a !in w.pcs && id in w.cards && Resolvable(w.cards[id].decision) && !w.cards[id].resolved
    case BeginWithdraw(a, run) => a !in w.pcs && run in w.runs
    case SendEnds(a, _) => a in w.pcs && w.pcs[a].InFlight? && w.pcs[a].send < |w.sends|
    case Go(a) => a in w.pcs
  }

  function Step(w: World, m: Move): World {
    if !Enabled(w, m) then w else
    match m
    case NewRun(run, pinned, shadow) => PutRun(w, run, RunState(shadow, pinned, None, None, []))
    case Ratchet(run) => PutRun(w, run, w.runs[run].(shadow := true))
    case Open(a, run, id, draft, shadow) => DoOpen(w, a, run, id, draft, shadow)
    case Decide(a, id, input, email) => DoDecide(w, a, id, input, email)
    case Sweep(a, id) => To(w, a, ReadRun(NoticeOf(id, w.cards[id])))
    case BeginWithdraw(a, run) => To(w, a, BeginWithdrawPc(run, w.runs[run]))
    case SendEnds(a, outcome) => DoSendEnds(w, a, w.pcs[a].n, w.pcs[a].send, outcome)
    case Go(a) => DoGo(w, a)
  }

  function Run(w: World, moves: seq<Move>): World
    decreases |moves|
  {
    if moves == [] then w else Run(Step(w, moves[0]), moves[1..])
  }

  lemma {:induction false} RunConcat(w: World, a: seq<Move>, b: seq<Move>)
    ensures Run(w, a + b) == Run(Run(w, a), b)
    decreases |a|
  {
    if a == [] {
      assert a + b == b;
    } else {
      assert (a + b)[1..] == a[1..] + b;
      RunConcat(Step(w, a[0]), a[1..], b);
    }
  }

  lemma RunOne(w: World, m: Move)
    ensures Run(w, [m]) == Step(w, m)
  {
    assert [m][1..] == [];
  }

  /** A caller is suspended in `v` where it was in `w`, or in neither. */
  predicate SamePlace(w: World, v: World, me: Actor) {
    (me in v.pcs <==> me in w.pcs) && (me in w.pcs ==> v.pcs[me] == w.pcs[me])
  }

  /** A statement moves on nobody but its own caller. */
  lemma GoLeavesOthers(w: World, a: Actor, me: Actor)
    requires a in w.pcs && a != me
    ensures SamePlace(w, DoGo(w, a), me)
  {
    match w.pcs[a]
    case Start(n) => StartLeaves(w, a, n, me);
    case Settle(n, from, to, error) => SettleLeaves(w, a, n, from, to, error, me);
    case Submit(n, report) => SubmitLeaves(w, a, n, report, me);
    case Retract(id) => RetractLeaves(w, a, id, me);
    case _ =>
  }

  lemma StartLeaves(w: World, a: Actor, n: Notice, me: Actor)
    requires a != me
    ensures SamePlace(w, DoStart(w, a, n), me)
  {
  }

  lemma SettleLeaves(w: World, a: Actor, n: Notice, from: set<Delivery>, to: Delivery, error: Option<Text>, me: Actor)
    requires a != me
    ensures SamePlace(w, DoSettle(w, a, n, from, to, error), me)
  {
  }

  lemma SubmitLeaves(w: World, a: Actor, n: Notice, report: Report, me: Actor)
    requires a != me
    ensures SamePlace(w, DoSubmit(w, a, n, report), me)
  {
  }

  lemma RetractLeaves(w: World, a: Actor, id: CardId, me: Actor)
    requires a != me
    ensures SamePlace(w, DoRetract(w, a, id), me)
  {
  }
}
