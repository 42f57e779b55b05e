/**
 Everything that belongs to one `run_code` execution, as a transition system:
 the context every connector shares, its call budget, its audit stream and its
 customer references. Calls of any number of executions interleave freely.
 */
module Execution {
  import opened Wrappers

  type Exec = string
  type Call = nat
  type Ref = string
  type Slug = string

  /** What `getContext` builds for an execution; a build that fails is remembered too. */
  datatype Ctx = Ctx(exec: Exec, used: nat, slugs: map<Ref, Slug>, built: bool)

  /** Where a capability call is suspended. */
  datatype Stage =
    | Bound          // has the execution's context; about to be charged
    | Charged        // has its sequence number; about to be recorded as started
    | Guarding       // within budget; the freshness check is in flight
    | Running        // the capability body is in flight
    | Ending(ok: bool)
    | Ended(ok: bool)

  datatype Pc = Pc(ctx: nat, number: nat, stage: Stage, ran: bool)

  datatype Kind = Started | Completed | Failed

  datatype Event = Event(call: Call, exec: Exec, number: nat, kind: Kind)

  datatype Mint = Mint(ctx: nat, ref: Ref, slug: Slug)

  datatype Sys = Sys(
    limit: int,
    contexts: map<Exec, nat>,
    ctxs: seq<Ctx>,
    calls: map<Call, Pc>,
    events: seq<Event>,
    minted: seq<Mint>)
  {
    predicate At(c: Call, stage: Stage) { c in calls && calls[c].stage == stage }

    function Go(c: Call, stage: Stage): Sys
      requires c in calls
    {
      this.(calls := calls[c := calls[c].(stage := stage)])
    }
  }

  function Init(limit: int): Sys { Sys(limit, map[], [], map[], [], []) }

  datatype Move =
    | Bind(c: Call, e: Exec, builds: bool)
    | Charge(c: Call)
    | LogStarted(c: Call)
    | Guard(c: Call, current: bool)
    | MintRef(c: Call, ref: Ref, slug: Slug)
    | Finish(c: Call, ok: bool)
    | LogEnded(c: Call)
    | Dispose(e: Exec)

  /* ----------------------------------------------------------------------------- the steps -- */

  /** `contextFor`: built when an execution first needs it, and the same from then on. */
  function ContextFor(s: Sys, e: Exec, builds: bool): Sys {
    if e in s.contexts then s
    else s.(contexts := s.contexts[e := |s.ctxs|], ctxs := s.ctxs + [Ctx(e, 0, map[], builds)])
  }

  /** A call of an execution whose context could not be built throws before it is charged. */
  function BindStep(s: Sys, c: Call, e: Exec, builds: bool): Sys {
    var t := ContextFor(s, e, builds);
    if t.contexts[e] < |t.ctxs| && t.ctxs[t.contexts[e]].built then t.(calls := t.calls[c := Pc(t.contexts[e], 0, Bound, false)]) else t
  }

  predicate HasCtx(s: Sys, c: Call) { c in s.calls && s.calls[c].ctx < |s.ctxs| }

  /** `counter.next()`. */
  function ChargeStep(s: Sys, c: Call): Sys
    requires HasCtx(s, c)
  {
    var g := s.calls[c].ctx;
    var used := s.ctxs[g].used + 1;
    s.(ctxs := s.ctxs[g := s.ctxs[g].(used := used)], calls := s.calls[c := s.calls[c].(number := used, stage := Charged)])
  }

  function Log(s: Sys, c: Call, kind: Kind): Sys
    requires HasCtx(s, c)
  {
    s.(events := s.events + [Event(c, s.ctxs[s.calls[c].ctx].exec, s.calls[c].number, kind)])
  }

  /** The start is recorded whatever follows; then the budget decides. */
  function LogStartedStep(s: Sys, c: Call): Sys
    requires HasCtx(s, c)
  {
    Log(s, c, Started).Go(c, if s.calls[c].number > s.limit then Ending(false) else Guarding)
  }

  function GuardStep(s: Sys, c: Call, current: bool): Sys
    requires c in s.calls
  {
    if current then s.(calls := s.calls[c := s.calls[c].(stage := Running, ran := true)]) else s.Go(c, Ending(false))
  }

  /** A reference is a fresh UUID, so no reference is minted twice. */
  predicate IsFresh(s: Sys, ref: Ref) { forall i :: 0 <= i < |s.minted| ==> s.minted[i].ref != ref }

  function MintStep(s: Sys, c: Call, ref: Ref, slug: Slug): Sys
    requires HasCtx(s, c)
  {
    var g := s.calls[c].ctx;
    s.(ctxs := s.ctxs[g := s.ctxs[g].(slugs := s.ctxs[g].slugs[ref := slug])], minted := s.minted + [Mint(g, ref, slug)])
  }

  function LogEndedStep(s: Sys, c: Call, ok: bool): Sys
    requires HasCtx(s, c)
  {
    Log(s, c, if ok then Completed else Failed).Go(c, Ended(ok))
  }

  function Step(s: Sys, m: Move): Sys {
    match m
    case Bind(c, e, builds) => if c in s.calls then s else BindStep(s, c, e, builds)
    case Charge(c) => if s.At(c, Bound) && HasCtx(s, c) then ChargeStep(s, c) else s
    case LogStarted(c) => if s.At(c, Charged) && HasCtx(s, c) then LogStartedStep(s, c) else s
    case Guard(c, current) => if s.At(c, Guarding) then GuardStep(s, c, current) else s
    case MintRef(c, ref, slug) => if s.At(c, Running) && HasCtx(s, c) && IsFresh(s, ref) then MintStep(s, c, ref, slug) else s
    case Finish(c, ok) => if s.At(c, Running) then s.Go(c, Ending(ok)) else s
    case LogEnded(c) => if HasCtx(s, c) && s.calls[c].stage.Ending? then LogEndedStep(s, c, s.calls[c].stage.ok) else s
    case Dispose(e) => s.(contexts := s.contexts - {e})
  }

  function Run(s: Sys, moves: seq<Move>): Sys
    decreases |moves|
  {
    if moves == [] then s else Run(Step(s, moves[0]), moves[1..])
  }

  /** `resolve`: what the resolver of a context says of a reference. */
  function Resolve(s: Sys, g: nat, ref: Ref): Option<Slug>
    requires g < |s.ctxs|
  {
    if ref in s.ctxs[g].slugs then Some(s.ctxs[g].slugs[ref]) else None
  }

  /* ------------------------------------------------------------------------ the invariants -- */

  ghost predicate PcOk(s: Sys, pc: Pc) {
    && pc.ctx < |s.ctxs|
    && (pc.stage.Bound? ==> pc.number == 0)
    && (!pc.stage.Bound? ==> 1 <= pc.number <= s.ctxs[pc.ctx].used)
    && (pc.ran ==> pc.number <= s.limit && (pc.stage.Running? || pc.stage.Ending? || pc.stage.Ended?))
    && (pc.stage.Guarding? ==> pc.number <= s.limit)
  }

  /** Calls charged to one context have different numbers. */
  ghost predicate Numbered(s: Sys) {
    forall c, d :: c in s.calls && d in s.calls && c != d && s.calls[c].ctx == s.calls[d].ctx && !s.calls[c].stage.Bound?
      ==> s.calls[c].number != s.calls[d].number
  }

  ghost predicate ContextsOk(s: Sys) {
    forall e :: e in s.contexts ==> s.contexts[e] < |s.ctxs| && s.ctxs[s.contexts[e]].exec == e
  }

  ghost predicate Inv(s: Sys) {
    ContextsOk(s) && Numbered(s) && forall c :: c in s.calls ==> PcOk(s, s.calls[c])
  }

  lemma BindKeeps(s: Sys, c: Call, e: Exec, builds: bool)
    requires Inv(s) && c !in s.calls
    ensures Inv(BindStep(s, c, e, builds))
  {
    var t := ContextFor(s, e, builds);
    forall d | d in t.calls ensures PcOk(t, t.calls[d]) { assert PcOk(s, s.calls[d]); }
    assert Inv(t);
    var u := BindStep(s, c, e, builds);
    forall d | d in u.calls ensures PcOk(u, u.calls[d]) {
      if d != c { assert PcOk(t, t.calls[d]); }
    }
    forall d, f | d in u.calls && f in u.calls && d != f && u.calls[d].ctx == u.calls[f].ctx && !u.calls[d].stage.Bound?
      ensures u.calls[d].number != u.calls[f].number
    {
      assert d != c && PcOk(t, t.calls[d]);
    }
  }

  lemma ChargeKeeps(s: Sys, c: Call)
    requires Inv(s) && s.At(c, Bound) && HasCtx(s, c)
    ensures Inv(ChargeStep(s, c))
  {
    var t := ChargeStep(s, c);
    forall d | d in t.calls ensures PcOk(t, t.calls[d]) { assert PcOk(s, s.calls[d]); }
    forall d, f | d in t.calls && f in t.calls && d != f && t.calls[d].ctx == t.calls[f].ctx && !t.calls[d].stage.Bound?
      ensures t.calls[d].number != t.calls[f].number
    {
      assert PcOk(s, s.calls[d]) && PcOk(s, s.calls[f]);
    }
  }

  /** Nothing the invariant reads has changed but the stage of one call that was already charged. */
  ghost predicate OnlyMoves(s: Sys, t: Sys, c: Call) {
    && c in s.calls && c in t.calls && t.calls == s.calls[c := t.calls[c]]
    && t.calls[c].ctx == s.calls[c].ctx && t.calls[c].number == s.calls[c].number
    && !s.calls[c].stage.Bound? && !t.calls[c].stage.Bound?
    && t.limit == s.limit && t.contexts == s.contexts && |t.ctxs| == |s.ctxs|
    && forall g :: 0 <= g < |s.ctxs| ==> t.ctxs[g].exec == s.ctxs[g].exec && t.ctxs[g].used == s.ctxs[g].used
  }

  lemma MovesKeep(s: Sys, t: Sys, c: Call)
    requires Inv(s) && OnlyMoves(s, t, c) && PcOk(t, t.calls[c])
    ensures Inv(t)
  {
    forall d | d in t.calls ensures PcOk(t, t.calls[d]) {
      if d != c { assert PcOk(s, s.calls[d]); }
    }
  }

  /** Steps that neither charge nor bind keep every call's context and number. */
  lemma OtherKeeps(s: Sys, m: Move)
    requires Inv(s) && !m.Bind? && !m.Charge? && !m.Dispose? && Step(s, m) != s
    ensures Inv(Step(s, m))
  {
    assert PcOk(s, s.calls[m.c]);
    MovesKeep(s, Step(s, m), m.c);
  }

  lemma DisposeKeeps(s: Sys, e: Exec)
    requires Inv(s)
    ensures Inv(Step(s, Dispose(e)))
  {
    var t := Step(s, Dispose(e));
    forall d | d in t.calls ensures PcOk(t, t.calls[d]) { assert PcOk(s, s.calls[d]); }
  }

  lemma StepKeeps(s: Sys, m: Move)
    requires Inv(s)
    ensures Inv(Step(s, m)) && Step(s, m).limit == s.limit
  {
    if m.Bind? {
      if m.c !in s.calls { BindKeeps(s, m.c, m.e, m.builds); }
    } else if m.Charge? {
      if s.At(m.c, Bound) && HasCtx(s, m.c) { ChargeKeeps(s, m.c); }
    } else if m.Dispose? {
      DisposeKeeps(s, m.e);
    } else if Step(s, m) != s {
      OtherKeeps(s, m);
    }
  }

  lemma {:induction false} RunKeeps(s: Sys, moves: seq<Move>)
    requires Inv(s)
    ensures Inv(Run(s, moves)) && Run(s, moves).limit == s.limit
    decreases |moves|
  {
    if moves != [] {
      StepKeeps(s, moves[0]);
      RunKeeps(Step(s, moves[0]), moves[1..]);
    }
  }

  /* -------------------------------------------------------------------------- the budget -- */

  /** The calls of a context whose body has begun. */
  function Bodies(s: Sys, g: nat): set<Call> {
    set c | c in s.calls && s.calls[c].ctx == g && s.calls[c].ran
  }

  lemma {:induction false} FewNumbers(s: Sys, cs: set<Call>, n: nat)
    requires forall c :: c in cs ==> c in s.calls && 1 <= s.calls[c].number <= n
    requires forall c, d :: c in cs && d in cs && c != d ==> s.calls[c].number != s.calls[d].number
    ensures |cs| <= n
    decreases n
  {
    if n == 0 {
      assert forall c :: c !in cs;
    } else if c :| c in cs && s.calls[c].number == n {
      FewNumbers(s, cs - {c}, n - 1);
    } else {
      FewNumbers(s, cs, n - 1);
    }
  }

  /** At most `limit` bodies run in a context, whatever connectors the calls came through. */
  lemma BudgetHolds(limit: int, moves: seq<Move>, g: nat)
    ensures |Bodies(Run(Init(limit), moves), g)| <= if limit < 0 then 0 else limit
  {
    RunKeeps(Init(limit), moves);
    var s := Run(Init(limit), moves);
    forall c | c in Bodies(s, g) ensures 1 <= s.calls[c].number <= (if limit < 0 then 0 else limit) && !s.calls[c].stage.Bound? { assert PcOk(s, s.calls[c]); }
    FewNumbers(s, Bodies(s, g), if limit < 0 then 0 else limit);
  }

  predicate NeverDisposed(moves: seq<Move>, e: Exec) {
    forall i :: 0 <= i < |moves| ==> moves[i] != Dispose(e)
  }

  /** The execution has had one context at most, and still has it. */
  ghost predicate Single(s: Sys, e: Exec) {
    forall g :: 0 <= g < |s.ctxs| && s.ctxs[g].exec == e ==> e in s.contexts && s.contexts[e] == g
  }

  lemma StepSingle(s: Sys, m: Move, e: Exec)
    requires Inv(s) && Single(s, e) && m != Dispose(e)
    ensures Single(Step(s, m), e)
  {
    if m.Bind? && m.c !in s.calls {
      var t := ContextFor(s, m.e, m.builds);
      assert Single(t, e);
    }
  }

  lemma {:induction false} RunSingle(s: Sys, moves: seq<Move>, e: Exec)
    requires Inv(s) && Single(s, e) && NeverDisposed(moves, e)
    ensures Single(Run(s, moves), e)
    decreases |moves|
  {
    if moves != [] {
      StepKeeps(s, moves[0]);
      StepSingle(s, moves[0], e);
      RunSingle(Step(s, moves[0]), moves[1..], e);
    }
  }

  function ExecOf(s: Sys, c: Call): Exec
    requires HasCtx(s, c)
  {
    s.ctxs[s.calls[c].ctx].exec
  }

  /** The calls of an execution whose body has begun. */
  function BodiesOf(s: Sys, e: Exec): set<Call> {
    set c | c in s.calls && HasCtx(s, c) && ExecOf(s, c) == e && s.calls[c].ran
  }

  /** One execution, every connector: at most `limit` bodies until it is disposed of. */
  lemma SharedBudget(limit: nat, moves: seq<Move>, e: Exec)
    requires NeverDisposed(moves, e)
    ensures |BodiesOf(Run(Init(limit), moves), e)| <= limit
  {
    RunKeeps(Init(limit), moves);
    RunSingle(Init(limit), moves, e);
    var s := Run(Init(limit), moves);
    if e in s.contexts {
      BudgetHolds(limit, moves, s.contexts[e]);
      assert BodiesOf(s, e) == Bodies(s, s.contexts[e]) by {
        assert forall c :: c in s.calls ==> PcOk(s, s.calls[c]);
      }
    } else {
      assert BodiesOf(s, e) == {};
    }
  }

  /** The contexts that were ever built for an execution. */
  function ContextsOf(s: Sys, e: Exec): set<nat> {
    set g | 0 <= g < |s.ctxs| && s.ctxs[g].exec == e
  }

  lemma {:induction false} BodiesPerContext(limit: nat, moves: seq<Move>, gs: set<nat>, cs: set<Call>)
    requires var s := Run(Init(limit), moves); forall c :: c in cs ==> c in s.calls && s.calls[c].ran && s.calls[c].ctx in gs
    ensures |cs| <= limit * |gs|
    decreases |gs|
  {
    if gs == {} {
      assert forall c :: c !in cs;
    } else {
      var g :| g in gs;
      var s, rest := Run(Init(limit), moves), gs - {g};
      var own := set c | c in cs && s.calls[c].ctx == g;
      BudgetHolds(limit, moves, g);
      Subset(own, Bodies(s, g));
      BodiesPerContext(limit, moves, rest, cs - own);
      assert |cs| == |own| + |cs - own| by { assert cs == own + (cs - own); }
      assert limit * |gs| == limit + limit * |rest|;
    }
  }

  lemma {:induction false} Subset(a: set<Call>, b: set<Call>)
    requires a <= b
    ensures |a| <= |b|
  {
    if a != {} {
      var x :| x in a;
      Subset(a - {x}, b - {x});
    }
  }

  /** In every run an execution id gets at most `limit` bodies for each context built for it. */
  lemma BudgetPerContext(limit: nat, moves: seq<Move>, e: Exec)
    ensures var s := Run(Init(limit), moves); |BodiesOf(s, e)| <= limit * |ContextsOf(s, e)|
  {
    var s := Run(Init(limit), moves);
    BodiesPerContext(limit, moves, ContextsOf(s, e), BodiesOf(s, e));
  }

  /* -------------------------------------------------------------------------- call identity -- */

  function Digit(d: nat): char
    requires d < 10
  {
    "0123456789"[d]
  }

  function Decimal(n: nat): string {
    if n < 10 then [Digit(n)] else Decimal(n / 10) + [Digit(n % 10)]
  }

  /** `cap:{outerToolCallId}:{number}`, where the outer id is the execution's. */
  function CallId(e: Exec, n: nat): string { "cap:" + e + ":" + Decimal(n) }

  predicate Digits(s: string) { forall i :: 0 <= i < |s| ==> '0' <= s[i] <= '9' }

  /** The number a row of digits is read as. */
  function Value(s: string): int
    requires Digits(s)
  {
    if s == [] then 0 else 10 * Value(s[..|s| - 1]) + (s[|s| - 1] as int - '0' as int)
  }

  /** The number in an id is in decimal, without leading zeros. */
  lemma {:induction false} DecimalReads(n: nat)
    ensures Decimal(n) != [] && Digits(Decimal(n)) && Value(Decimal(n)) == n
    ensures n > 0 ==> Decimal(n)[0] != '0'
  {
    if n >= 10 {
      DecimalReads(n / 10);
      assert Decimal(n)[..|Decimal(n)| - 1] == Decimal(n / 10);
    } else {
      assert Decimal(n)[..0] == [];
    }
  }

  lemma InTail(a: string, x: nat, y: nat)
    requires x < |a| && y < |a|
    ensures x < y ==> a[y] in a[x + 1..]
  {
    if x < y { assert a[x + 1..][y - x - 1] == a[y]; }
  }

  /** Colons in the execution id cannot make two calls share an id: the number has none. */
  lemma CallIdInjective(e: Exec, m: nat, f: Exec, n: nat)
    requires CallId(e, m) == CallId(f, n)
    ensures e == f && m == n
  {
    DecimalReads(m);
    DecimalReads(n);
    var a, x, y := CallId(e, m), |e| + 4, |f| + 4;
    assert a[x] == ':' && a[x + 1..] == Decimal(m) && a[y] == ':' && a[y + 1..] == Decimal(n);
    InTail(a, x, y);
    InTail(a, y, x);
    assert e == a[4..x] && f == a[4..y];
  }

  /** Two charged calls never share an id, unless the execution of one was disposed of. */
  lemma CallIdsDistinct(limit: int, moves: seq<Move>, c: Call, d: Call)
    requires var s := Run(Init(limit), moves);
      && c != d && HasCtx(s, c) && HasCtx(s, d) && !s.calls[c].stage.Bound? && !s.calls[d].stage.Bound?
      && NeverDisposed(moves, ExecOf(s, c))
    ensures var s := Run(Init(limit), moves);
      CallId(ExecOf(s, c), s.calls[c].number) != CallId(ExecOf(s, d), s.calls[d].number)
  {
    var s := Run(Init(limit), moves);
    RunKeeps(Init(limit), moves);
    RunSingle(Init(limit), moves, ExecOf(s, c));
    if CallId(ExecOf(s, c), s.calls[c].number) == CallId(ExecOf(s, d), s.calls[d].number) {
      CallIdInjective(ExecOf(s, c), s.calls[c].number, ExecOf(s, d), s.calls[d].number);
    }
  }

  /** `c` was charged the n-th number of context `g`. */
  predicate Holder(s: Sys, c: Call, g: nat, n: nat) {
    c in s.calls && s.calls[c].ctx == g && s.calls[c].number == n && !s.calls[c].stage.Bound?
  }

  predicate HandedOut(s: Sys, g: nat, n: nat) { g < |s.ctxs| && 1 <= n <= s.ctxs[g].used }

  /** Every number a counter has handed out belongs to a call. */
  ghost predicate AllHeld(s: Sys) {
    forall g, n :: HandedOut(s, g, n) ==> exists c :: Holder(s, c, g, n)
  }

  lemma HolderStays(s: Sys, m: Move, c: Call, g: nat, n: nat)
    requires Holder(s, c, g, n)
    ensures Holder(Step(s, m), c, g, n)
  {
  }

  /** Only a charge hands out a number, and only the next one. */
  lemma HandsOut(s: Sys, m: Move, g: nat, n: nat)
    requires HandedOut(Step(s, m), g, n)
    ensures HandedOut(s, g, n) || (m.Charge? && Holder(Step(s, m), m.c, g, n))
  {
  }

  lemma {:induction false} RunHeld(s: Sys, moves: seq<Move>)
    requires AllHeld(s)
    ensures AllHeld(Run(s, moves))
    decreases |moves|
  {
    if moves != [] {
      var t := Step(s, moves[0]);
      forall g, n | HandedOut(t, g, n) ensures exists c :: Holder(t, c, g, n) {
        HandsOut(s, moves[0], g, n);
        if HandedOut(s, g, n) {
          var c :| Holder(s, c, g, n);
          HolderStays(s, moves[0], c, g, n);
        }
      }
      RunHeld(t, moves[1..]);
    }
  }

  /** Two charged calls of an execution with one id. */
  predicate Twins(s: Sys, e: Exec, c: Call, d: Call) {
    && c != d && HasCtx(s, c) && HasCtx(s, d) && !s.calls[c].stage.Bound? && !s.calls[d].stage.Bound?
    && ExecOf(s, c) == e && ExecOf(s, d) == e
    && CallId(e, s.calls[c].number) == CallId(e, s.calls[d].number)
  }

  /** A context of the execution that has charged a call. */
  predicate Spent(s: Sys, e: Exec, g: nat) { g < |s.ctxs| && s.ctxs[g].exec == e && s.ctxs[g].used >= 1 }

  /** In every run, call ids of an execution repeat exactly when two of its contexts have charged a call. */
  lemma IdsRepeatIff(limit: int, moves: seq<Move>, e: Exec)
    ensures var s := Run(Init(limit), moves);
      (exists c, d :: Twins(s, e, c, d)) <==> (exists g, h :: g != h && Spent(s, e, g) && Spent(s, e, h))
  {
    RunKeeps(Init(limit), moves);
    RunHeld(Init(limit), moves);
    var s := Run(Init(limit), moves);
    if c, d :| Twins(s, e, c, d) { TwinsSpend(s, e, c, d); }
    if g, h :| g != h && Spent(s, e, g) && Spent(s, e, h) { SpentTwins(s, e, g, h); }
  }

  lemma TwinsSpend(s: Sys, e: Exec, c: Call, d: Call)
    requires Inv(s) && Twins(s, e, c, d)
    ensures s.calls[c].ctx != s.calls[d].ctx && Spent(s, e, s.calls[c].ctx) && Spent(s, e, s.calls[d].ctx)
  {
    assert PcOk(s, s.calls[c]) && PcOk(s, s.calls[d]);
    CallIdInjective(e, s.calls[c].number, e, s.calls[d].number);
  }

  lemma SpentTwins(s: Sys, e: Exec, g: nat, h: nat)
    requires AllHeld(s) && g != h && Spent(s, e, g) && Spent(s, e, h)
    ensures exists c, d :: Twins(s, e, c, d)
  {
    assert HandedOut(s, g, 1) && HandedOut(s, h, 1);
    var c :| Holder(s, c, g, 1);
    var d :| Holder(s, d, h, 1);
    assert Twins(s, e, c, d);
  }

  /** A call that arrives at an execution without a context, and whose body begins. */
  function FirstCall(c: Call, e: Exec): seq<Move> { [Bind(c, e, true), Charge(c), LogStarted(c), Guard(c, true)] }

  lemma FirstCallRuns(s: Sys, c: Call, e: Exec)
    requires s.limit >= 1 && e !in s.contexts && c !in s.calls
    ensures var t := Run(s, FirstCall(c, e));
      && t.limit == s.limit && t.contexts == s.contexts[e := |s.ctxs|] && t.ctxs == s.ctxs + [Ctx(e, 1, map[], true)]
      && t.calls == s.calls[c := Pc(|s.ctxs|, 1, Running, true)]
  {
    var t := Step(s, Bind(c, e, true));
    var u := Step(t, Charge(c));
    var v := Step(u, LogStarted(c));
    assert t.calls[c] == Pc(|s.ctxs|, 0, Bound, false) && t.ctxs == s.ctxs + [Ctx(e, 0, map[], true)];
    assert u.ctxs == s.ctxs + [Ctx(e, 1, map[], true)] && v.ctxs == u.ctxs;
    assert Run(s, FirstCall(c, e)) == Step(v, Guard(c, true)) by {
      assert FirstCall(c, e)[1..] == [Charge(c), LogStarted(c), Guard(c, true)];
      assert FirstCall(c, e)[1..][1..] == [LogStarted(c), Guard(c, true)];
      assert Run(v, [Guard(c, true)]) == Run(Step(v, Guard(c, true)), []);
      assert Run(u, [LogStarted(c), Guard(c, true)]) == Run(v, [Guard(c, true)]);
    }
  }

  /** Disposed of between two such calls, the execution has two contexts, and both calls hold the first number. */
  lemma DisposedBetween(s: Sys, c: Call, d: Call, e: Exec)
    requires s.limit >= 1 && e !in s.contexts && c !in s.calls && d !in s.calls && c != d
    ensures var t := Run(s, FirstCall(c, e) + ([Dispose(e)] + FirstCall(d, e)));
      && t.ctxs == s.ctxs + [Ctx(e, 1, map[], true)] + [Ctx(e, 1, map[], true)]
      && t.calls == s.calls[c := Pc(|s.ctxs|, 1, Running, true)][d := Pc(|s.ctxs| + 1, 1, Running, true)]
  {
    var t := Run(s, FirstCall(c, e));
    var u := Step(t, Dispose(e));
    FirstCallRuns(s, c, e);
    RunConcat(s, FirstCall(c, e), [Dispose(e)] + FirstCall(d, e));
    RunConcat(t, [Dispose(e)], FirstCall(d, e));
    assert Run(t, [Dispose(e)]) == u by { assert Run(t, [Dispose(e)]) == Run(u, []); }
    FirstCallRuns(u, d, e);
  }

  /** A run in which disposal costs both: with a limit of one, two bodies begin for one execution, under one call id. */
  lemma DisposalResets()
    ensures exists moves, e, c, d :: Twins(Run(Init(1), moves), e, c, d) && |BodiesOf(Run(Init(1), moves), e)| == 2
  {
    DisposedBetween(Init(1), 0, 1, "e");
    var moves := FirstCall(0, "e") + ([Dispose("e")] + FirstCall(1, "e"));
    TwoBodies(Run(Init(1), moves), "e");
  }

  lemma TwoBodies(s: Sys, e: Exec)
    requires s.ctxs == [Ctx(e, 1, map[], true), Ctx(e, 1, map[], true)]
    requires s.calls == map[0 := Pc(0, 1, Running, true), 1 := Pc(1, 1, Running, true)]
    ensures Twins(s, e, 0, 1) && |BodiesOf(s, e)| == 2
  {
    assert BodiesOf(s, e) == {0, 1};
  }

  lemma {:induction false} RunConcat(s: Sys, a: seq<Move>, b: seq<Move>)
    ensures Run(s, a + b) == Run(Run(s, a), b)
    decreases |a|
  {
    if a == [] {
      assert a + b == b;
    } else {
      RunConcat(Step(s, a[0]), a[1..], b);
      assert (a + b)[1..] == a[1..] + b;
    }
  }

  /* ------------------------------------------------------------------------ the audit stream -- */

  function Count(events: seq<Event>, c: Call, kind: Kind): nat
    decreases |events|
  {
    if events == [] then 0
    else
      var last := events[|events| - 1];
      Count(events[..|events| - 1], c, kind) + if last.call == c && last.kind == kind then 1 else 0
  }

  lemma CountSnoc(events: seq<Event>, e: Event, c: Call, kind: Kind)
    ensures Count(events + [e], c, kind) == Count(events, c, kind) + if e.call == c && e.kind == kind then 1 else 0
  {
    assert (events + [e])[..|events|] == events;
  }

  /** How many events of a kind a call has recorded at its stage. */
  function Recorded(s: Sys, c: Call, kind: Kind): nat {
    if c !in s.calls then 0
    else match kind
      case Started => if s.calls[c].stage.Bound? || s.calls[c].stage.Charged? then 0 else 1
      case Completed => if s.calls[c].stage == Ended(true) then 1 else 0
      case Failed => if s.calls[c].stage == Ended(false) then 1 else 0
  }

  ghost predicate Audited(s: Sys) {
    && (forall c, kind :: Count(s.events, c, kind) == Recorded(s, c, kind))
    && forall i :: 0 <= i < |s.events| ==> Identified(s, s.events[i])
  }

  /** An event bears the id of its call. */
  predicate Identified(s: Sys, e: Event) {
    HasCtx(s, e.call) && e.exec == ExecOf(s, e.call) && e.number == s.calls[e.call].number
  }

  /** The call stands where it did as far as the audit stream can tell. */
  predicate SameRecord(s: Sys, t: Sys, c: Call) {
    && Recorded(t, c, Started) == Recorded(s, c, Started)
    && Recorded(t, c, Completed) == Recorded(s, c, Completed)
    && Recorded(t, c, Failed) == Recorded(s, c, Failed)
    && (HasCtx(s, c) && !s.calls[c].stage.Bound? ==> HasCtx(t, c) && ExecOf(t, c) == ExecOf(s, c) && t.calls[c].number == s.calls[c].number)
  }

  /** A step that records nothing changes no call's record. */
  lemma SilentAudited(s: Sys, t: Sys)
    requires Audited(s) && t.events == s.events
    requires forall c :: SameRecord(s, t, c)
    ensures Audited(t)
  {
    forall i | 0 <= i < |t.events| ensures Identified(t, t.events[i]) {
      Recorders(s, i);
      assert SameRecord(s, t, t.events[i].call);
    }
    forall c, kind ensures Count(t.events, c, kind) == Recorded(t, c, kind) { assert SameRecord(s, t, c); }
  }

  lemma {:induction false} Counted(events: seq<Event>, i: nat)
    requires i < |events|
    ensures Count(events, events[i].call, events[i].kind) > 0
    decreases |events|
  {
    if i < |events| - 1 { Counted(events[..|events| - 1], i); }
  }

  /** Only a call past its charge has recorded anything. */
  lemma Recorders(s: Sys, i: nat)
    requires Audited(s) && i < |s.events|
    ensures HasCtx(s, s.events[i].call) && !s.calls[s.events[i].call].stage.Bound?
  {
    Counted(s.events, i);
  }

  lemma LogAudited(s: Sys, c: Call, kind: Kind, stage: Stage)
    requires Audited(s) && HasCtx(s, c)
    requires var t := Log(s, c, kind).Go(c, stage);
      forall k :: Recorded(t, c, k) == Recorded(s, c, k) + if k == kind then 1 else 0
    ensures Audited(Log(s, c, kind).Go(c, stage))
  {
    var t := Log(s, c, kind).Go(c, stage);
    var e := Event(c, ExecOf(s, c), s.calls[c].number, kind);
    forall d, k ensures Count(t.events, d, k) == Recorded(t, d, k) { CountSnoc(s.events, e, d, k); }
  }

  lemma QuietSame(s: Sys, m: Move, c: Call)
    requires !m.LogStarted? && !m.LogEnded? && (c in s.calls ==> HasCtx(s, c))
    ensures SameRecord(s, Step(s, m), c)
  {
  }

  lemma StepAudited(s: Sys, m: Move)
    requires Inv(s) && Audited(s)
    ensures Audited(Step(s, m))
  {
    if m.LogStarted? && s.At(m.c, Charged) && HasCtx(s, m.c) {
      LogAudited(s, m.c, Started, if s.calls[m.c].number > s.limit then Ending(false) else Guarding);
    } else if m.LogEnded? && HasCtx(s, m.c) && s.calls[m.c].stage.Ending? {
      var ok := s.calls[m.c].stage.ok;
      LogAudited(s, m.c, if ok then Completed else Failed, Ended(ok));
    } else if Step(s, m) != s {
      forall c ensures SameRecord(s, Step(s, m), c) {
        if c in s.calls { assert PcOk(s, s.calls[c]); }
        QuietSame(s, m, c);
      }
      SilentAudited(s, Step(s, m));
    }
  }

  lemma {:induction false} RunAudited(s: Sys, moves: seq<Move>)
    requires Inv(s) && Audited(s)
    ensures Audited(Run(s, moves))
    decreases |moves|
  {
    if moves != [] {
      StepKeeps(s, moves[0]);
      StepAudited(s, moves[0]);
      RunAudited(Step(s, moves[0]), moves[1..]);
    }
  }

  /**
   In every run a finished call has exactly one started event and exactly one of
   completed and failed, an unfinished one has no ending, and every event bears
   its own call's id. Since this holds of every prefix, the start comes first.
   */
  lemma AuditExact(limit: int, moves: seq<Move>, c: Call)
    ensures var s := Run(Init(limit), moves);
      && Count(s.events, c, Completed) + Count(s.events, c, Failed) <= Count(s.events, c, Started) <= 1
      && (c in s.calls && s.calls[c].stage.Ended? ==>
        && Count(s.events, c, Started) == 1
        && Count(s.events, c, Completed) == (if s.calls[c].stage.ok then 1 else 0)
        && Count(s.events, c, Failed) == (if s.calls[c].stage.ok then 0 else 1))
    ensures var s := Run(Init(limit), moves);
      forall i :: 0 <= i < |s.events| ==> Identified(s, s.events[i])
  {
    RunAudited(Init(limit), moves);
  }

  /* -------------------------------------------------------------------- customer references -- */

  ghost predicate Referenced(s: Sys) {
    && (forall g, ref, slug :: 0 <= g < |s.ctxs| ==> (Resolve(s, g, ref) == Some(slug) <==> Mint(g, ref, slug) in s.minted))
    && (forall i, j :: 0 <= i < j < |s.minted| ==> s.minted[i].ref != s.minted[j].ref)
    && (forall i :: 0 <= i < |s.minted| ==> s.minted[i].ctx < |s.ctxs|)
  }

  lemma MintReferenced(s: Sys, c: Call, ref: Ref, slug: Slug)
    requires Referenced(s) && HasCtx(s, c) && IsFresh(s, ref)
    ensures Referenced(MintStep(s, c, ref, slug))
  {
    var t, g := MintStep(s, c, ref, slug), s.calls[c].ctx;
    forall h, r, l | 0 <= h < |t.ctxs| ensures Resolve(t, h, r) == Some(l) <==> Mint(h, r, l) in t.minted {
      assert Resolve(s, h, r) == Some(l) <==> Mint(h, r, l) in s.minted;
      if h == g && r == ref { assert Mint(h, r, l) !in s.minted; }
    }
  }

  lemma StepReferenced(s: Sys, m: Move)
    requires Referenced(s)
    ensures Referenced(Step(s, m))
  {
    var t := Step(s, m);
    if m.MintRef? {
      if s.At(m.c, Running) && HasCtx(s, m.c) && IsFresh(s, m.ref) { MintReferenced(s, m.c, m.ref, m.slug); }
    } else {
      forall h, r, l | 0 <= h < |t.ctxs| ensures Resolve(t, h, r) == Some(l) <==> Mint(h, r, l) in t.minted {
        if h < |s.ctxs| { assert Resolve(t, h, r) == Resolve(s, h, r); }
      }
    }
  }

  lemma {:induction false} RunReferenced(s: Sys, moves: seq<Move>)
    requires Referenced(s)
    ensures Referenced(Run(s, moves))
    decreases |moves|
  {
    if moves != [] {
      StepReferenced(s, moves[0]);
      RunReferenced(Step(s, moves[0]), moves[1..]);
    }
  }

  /** A reference resolves exactly in the context that minted it, to the slug it was minted for, and nowhere else. */
  lemma ReferenceIff(limit: int, moves: seq<Move>, g: nat, h: nat, ref: Ref, slug: Slug)
    requires g < |Run(Init(limit), moves).ctxs| && h < |Run(Init(limit), moves).ctxs|
    ensures var s := Run(Init(limit), moves);
      && (Resolve(s, g, ref) == Some(slug) <==> Mint(g, ref, slug) in s.minted)
      && (Mint(g, ref, slug) in s.minted && h != g ==> Resolve(s, h, ref).None?)
  {
    RunReferenced(Init(limit), moves);
    var s := Run(Init(limit), moves);
    if h != g && Resolve(s, h, ref).Some? { assert Mint(h, ref, Resolve(s, h, ref).value) in s.minted; }
  }
}
