# Verified model of the fire-fighter Worker's hard protocols

This project models, in Dafny, the parts of `apps/worker` whose correctness does
not follow from reading one function, and proves what they promise. Everything is
proved for all inputs, all runs and all interleavings unless a statement says
otherwise. `dafny verify dfyconfig.toml` checks the whole project.

## What is modelled

**The effect ledger** (`EffectLedger`, `EffectRunner`). One effect key is one D1
row. Each D1 statement is one atomic move of a transition system in which any
number of callers run `runEffect`, may stop for ever between two moves, and the
upstream effect of an execution may happen at any time after it starts. A move
that is not enabled changes nothing, so every sequence of moves is a run, and a
lemma over all sequences is a statement about all interleavings.
`EffectRunner.Ledger` is the imperative code: its poll loop, claim, takeover,
execution and marking run with arbitrary moves of others at every `await`, and
every statement is proved to be one move of the transition system.

**The effect key** (`Text`, `TextOrder`, `JsonText`, `JsValues`, `EffectKey`,
`EffectCanonical`). Host values are a heap of arrays, plain objects and exotic
objects, which may share and may be cyclic. `Unfold` is the tree below a value, or
a refusal; `Denotes` says independently which tree a value stands for. JSON text
follows RFC 8259, sections 4 to 7, with `JSON.stringify`'s choice of escapes, and a
separate reader of such text is proved to give every value back.
`EffectCanonical.Canonicalizer` is `canonical` itself, with its mutable `path` and
the object it fills key by key.

**The safe result** (`SafeResult`) uses the same heap: `coerce` with its path and
depth, and `toSafeJson` with its size limit.

**The approval protocol** (`ApprovalModel`, `ApprovalInvariant`,
`ApprovalTheorems`, `ApprovalParking`, `ApprovalOutcomes`, `ApprovalService`,
`ApprovalSweep`). The card table, each run's parked flag and shadow flag, the
accepted submission keys, the log of sends and any number of deciders,
withdrawers, openers, PATCH notifies and sweeper notifies, each of which may stop
between any two statements. `ApprovalService`
is the imperative code over that system, as for effects. `ApprovalSweep` is the
repair loop over its page of due rows.

**The key cache** (`JwksCache`, `JwksTheorems`, `JwksVerifier`). The positive
cache with its age floor, the one shared load in flight, and the bounded negative
cache as an insertion-ordered list, with overlapping lookups and a clock.

**One execution** (`Execution`, `ExecutionHost`). The shared context of an
execution id, its call counter, its audit stream and its reference resolver, with
calls of any executions interleaving and executions being disposed of.

**The channel registry** (`CustomerSearch`, `ChannelSlug`, `ChannelRegistry`).
LIKE with an escape character, slug derivation, PATCH's parser, and the table
with lazy registration, sweep and PATCH racing.

## What is assumed

- An execution that ends with a code listed in `PROVEN_PRE_UPSTREAM` has sent
  nothing; that is what the list claims (`EffectLedger.Enabled`,
  `EffectRunner.Fair`).
- A run's shadow flag only ever goes up, and its thread is pinned for life
  (`apps/worker/src/run/repository.ts:160-284`).
- A UUID is new: a card id and a customer reference are never drawn twice.
- At most one unsettled card per run is the database's own constraint
  (`apps/worker/migrations/0007_approvals.sql:43-45`), not a property proved of
  the code around it.

## What turned out to be false, and what holds instead

Each of these is code that does less than its documentation or an obvious
reading says. The model follows the code; the exact condition is proved.

- Replay agreement (`EffectLedger.ReplayAgreementIff`): calls that return a value
  agree with each other and with the row if and only if upstream never gives two
  different answers for the key. `EffectLedger.QuarrelDisagrees` is the run.
- "Nothing was sent and nothing will be" (`apps/worker/src/approval/contracts.ts:198-202`)
  is not true of every suppressed card, because `suppressed` is reachable from
  `sending`. `ApprovalTheorems.SuppressedButSent` is the run;
  `ApprovalTheorems.SuppressionIsSilentIff` is the condition: the update found
  the row at `none`.
- A card shadowed before its first delivery attempt is never sent if and only if
  no notifier in flight read the run before the flag went up
  (`ApprovalTheorems.ShadowSafetyIff`); `ApprovalTheorems.ShadowedButSent` is a run
  in which one was.
- The rotation blind spot (`apps/worker/src/access/jwt.ts:269-272`) of a key without
  a negative entry is one TTL if and only if, when the key is published, no older
  load is in flight beside a cache that lacks the key and is still young
  (`JwksTheorems.RotationIff`). A lookup that starts in such a state joins the older
  load as its last one. For a key with an entry the condition is sufficient
  (`JwksTheorems.NeverBlind`).
  `JwksTheorems.OverlapBlindSpot` reaches one with two lookups; a run in which
  lookups do not overlap never suffers from it
  (`JwksTheorems.RotationWithoutOverlap`).
- The resolution does not always unpark the run
  (`apps/worker/src/approval/port.ts:116-120`): an opener may park after it, and it
  may unpark the run from a newer card. `ApprovalParking.ParkedOnResolved` and
  `ApprovalParking.NewerCardUnparked` are the runs; `ApprovalParking.FlagStandsIff`
  says exactly when what is under way still changes the flag.
- PATCH's slug test is the shape `deriveSlug` produces plus a length of at most
  100, so a long enough name derives a slug PATCH would refuse
  (`ChannelSlug.LongNameRefused`, `ChannelSlug.OverlongName`).
- Call ids of an execution repeat if and only if two of its contexts have charged
  a call (`Execution.IdsRepeatIff`), which takes a disposal in between; its bodies
  are bounded by the limit for each context (`Execution.BudgetPerContext`).
  `Execution.DisposalResets` is a run with a repeated id and one body too many.

## Model

| member | source | states |
|---|---|---|
| `EffectLedger.AtMostOnce` | apps/worker/src/capabilities/effects.ts:267-458 | in every interleaving at most one caller holds the reservation, no caller executes twice, every execution but the last is a refusal that sent nothing, and the upstream effect happens at most once |
| `EffectLedger.NoExecutionAfterSettling` | apps/worker/src/capabilities/effects.ts:406-458 | once the row is `in_doubt` or `completed`, no continuation executes for the key again |
| `EffectLedger.ExecutionIsAnswered` | apps/worker/src/capabilities/effects.ts:340-381 | in every run a caller that executed and ended was told its value, its proven code, or that the effect is in doubt, as its own execution ended |
| `EffectLedger.SuccessStands` | apps/worker/src/capabilities/effects.ts:368-380 | once a returned value is marked, the row holds it in every later state and every value anyone gets is that one |
| `EffectLedger.RetryIffNothingSent` | apps/worker/src/capabilities/effects.ts:41-83 | from any reachable state some continuation executes again if and only if nothing can have been sent |
| `EffectLedger.ReplayAgreementIff` | apps/worker/src/capabilities/effects.ts:340-458 | all calls that return a value return the one in the row, in every run, if and only if upstream has at most one answer |
| `EffectLedger.QuarrelDisagrees` | apps/worker/src/capabilities/effects.ts:383-397 | with two upstream answers there is a run in which a caller's value is not the row's |
| `EffectLedger.EveryCallIsBounded` | apps/worker/src/capabilities/effects.ts:406-458 | the moves a call has made plus those it can still make never grow |
| `EffectLedger.NoCallIsStuck` | apps/worker/src/capabilities/effects.ts:406-458 | a call that has not ended always has a move of its own enabled |
| `EffectLedger.GivingUpIsInvisible` | apps/worker/src/capabilities/effects.ts:423-455 | a caller that executed nothing and got no value can be left out of a run without changing the row, the executions or any other caller |
| `EffectRunner.Ledger.ClaimRow` | apps/worker/src/capabilities/effects.ts:267-292 | the insert wins exactly when there is no row, and a loser changes nothing |
| `EffectRunner.Ledger.ReclaimRow` | apps/worker/src/capabilities/effects.ts:299-311 | the takeover wins exactly on a `failed` row |
| `EffectRunner.Ledger.PerformClaimed` | apps/worker/src/capabilities/effects.ts:340-381 | under interference a returned value is answered and left on a `completed` row, a code that proves nothing was sent is rethrown from a `failed` row, and every other ending is refused and leaves `in_doubt` |
| `EffectRunner.Ledger.ResolveInDoubt` | apps/worker/src/capabilities/effects.ts:383-397 | an answer from upstream is recorded and returned; without one the caller is refused |
| `EffectRunner.Ledger.RunEffect` | apps/worker/src/capabilities/effects.ts:406-458 | reads at most MAX_POLLS + 1 times; an executed call is told what its own ending says and leaves the matching row, a completed row is answered with its value without executing, and a call nobody interferes with ends as the state it found decides |
| `Text.SortSorts` | apps/worker/src/capabilities/effects.ts:164-172 | sorting properties with distinct keys lists the same properties in strict order |
| `Text.OrderedUnique` | apps/worker/src/capabilities/effects.ts:164-172 | a set of properties has only one strictly ordered listing, by sort order or by enumeration order |
| `TextOrder.LessIff` | apps/worker/src/capabilities/effects.ts:164-164 | the sort order compares the first units at which two keys differ |
| `TextOrder.IndexIff` | apps/worker/src/capabilities/effects.ts:164-172 | an index key is the decimal text of a number below 2^32 - 1 |
| `TextOrder.EnumerationOrder` | apps/worker/src/capabilities/effects.ts:164-172 | an object enumerates its index keys first, by number, and the others after them, by the sort order |
| `JsonText.RoundTrip` | apps/worker/src/capabilities/effects.ts:177-183 | an independent reader of RFC 8259 text gives back every value that was written |
| `JsonText.EncodeInjective` | apps/worker/src/capabilities/effects.ts:177-183 | two values have the same JSON text only if they are the same value |
| `JsonText.WriteWellFormed` | apps/worker/src/capabilities/effects.ts:185-187 | JSON text holds no lone surrogate, so its UTF-8 encoding loses nothing |
| `JsValues.RefusedIff` | apps/worker/src/capabilities/effects.ts:126-175 | a graph is refused exactly when a walk through kept keys reaches something that is not data or returns to an object it passed |
| `JsValues.UnfoldDenotes` | apps/worker/src/capabilities/effects.ts:126-175 | the tree has the payload of every scalar, every item of an array, and an object's properties in order but for `__proto__`, `constructor` and `prototype` |
| `JsValues.DenotesOne` | apps/worker/src/capabilities/effects.ts:126-175 | a value stands for one tree only |
| `JsValues.UnfoldTidy` | apps/worker/src/capabilities/effects.ts:164-170 | the tree has one property per key and no forbidden key at any level |
| `EffectKey.CanonicalExact` | apps/worker/src/capabilities/effects.ts:126-183 | two graphs have the same canonical text if and only if they are equal up to key order, normal form of string values and forbidden keys |
| `EffectKey.NormalIsNormal` | apps/worker/src/capabilities/effects.ts:130-172 | in the normal form every string value is normalised, every object has the same keys in enumeration order, and nothing else changes |
| `EffectKey.EnvelopeText` | apps/worker/src/capabilities/effects.ts:201-217 | what is hashed is the JSON text of exactly args, method, namespace, runId, turnId and version, in that order, with the arguments normalised |
| `EffectKey.EffectKeyExact` | apps/worker/src/capabilities/effects.ts:201-217 | two effect keys are equal if and only if run, turn, namespace, method and arguments mean the same, for a hash without collisions |
| `EffectCanonical.Canonicalizer.Canonical` | apps/worker/src/capabilities/effects.ts:126-175 | ends on every graph, restores the path on success and on refusal, and returns the value itself without forbidden keys, strings normalised and keys in order |
| `EffectCanonical.Canonicalizer.CanonicalProps` | apps/worker/src/capabilities/effects.ts:162-171 | filling an object in sorted key order gives the normal form of its properties |
| `EffectCanonical.PutSorts` | apps/worker/src/capabilities/effects.ts:163-171 | assigning a key above all present ones keeps the object's enumeration sorted |
| `EffectCanonical.VisitOrder` | apps/worker/src/capabilities/effects.ts:164-170 | the order in which keys are visited does not change the result |
| `EffectCanonical.CanonicalJson` | apps/worker/src/capabilities/effects.ts:177-183 | returns text that reads back as the canonical form of the value, or refuses exactly when some walk through kept keys ends at something that is not data or comes back on itself |
| `EffectCanonical.BuildKey` | apps/worker/src/capabilities/effects.ts:201-217 | builds the versioned envelope beside the arguments and digests its canonical text |
| `SafeResult.Reducer.Coerce` | apps/worker/src/capabilities/result.ts:48-108 | restores the path, and returns the value itself without forbidden keys exactly when it fits the remaining depth |
| `SafeResult.Reducer.CoerceProps` | apps/worker/src/capabilities/result.ts:99-104 | keeps an object's properties without the forbidden ones, or refuses the whole object |
| `SafeResult.ToSafeJson` | apps/worker/src/capabilities/result.ts:110-124 | answers the value itself without forbidden keys, within depth and size; `invalid_input` exactly when something reachable cannot be stored, `output_too_large` only for a storable value that is too long |
| `SafeResult.CoerceIff` | apps/worker/src/capabilities/result.ts:48-108 | a value is accepted exactly when all that is reachable through kept keys is plain finite data at most three containers deep; the depth bound alone refuses cycles |
| `SafeResult.SafeJsonIsSafe` | apps/worker/src/capabilities/result.ts:110-124 | a result has the input's scalars, items and properties without the three forbidden names at any level, and is within depth and size |
| `SafeResult.ResultsExactly` | apps/worker/src/capabilities/result.ts:110-124 | the possible results are exactly the trees within depth and size with no forbidden key, and each is reduced to itself whatever objects hold it |
| `ApprovalTheorems.OneWinner` | apps/worker/src/approval/repository.ts:245-327 | each card leaves `pending` at most once, exactly when one caller's update is the win |
| `ApprovalTheorems.DecisionsArePermanent` | apps/worker/src/approval/repository.ts:245-296 | decision, decider, edited text, reason and draft never change once decided, and an edit or rejection is never blank |
| `ApprovalTheorems.AnswersStayTrue` | apps/worker/src/approval/port.ts:132-218 | what a losing decider or a withdrawer is told stays true of the row for ever |
| `ApprovalTheorems.AtMostOneSend` | apps/worker/src/approval/notifier.ts:67-238 | the sender is called at most once per card, only for a card that is not a shadow card, with the edited text of an edited card and the draft of an approved one |
| `ApprovalTheorems.TruthfulReport` | apps/worker/src/approval/notifier.ts:94-145 | a resolution turn carries its row's decision, its edited text or draft, and its reason; the delivery in it is final, equals the row's for ever, and is `sent` only if the one send returned sent |
| `ApprovalOutcomes.DecisionIsTheInput` | apps/worker/src/approval/contracts.ts:95-100 | after the first decision on a card, in every continuation the row carries that input and every send and resolution turn of the card carries those words: the draft if approved, the human's text if edited, the reason if rejected |
| `ApprovalOutcomes.OpenedCardStays` | apps/worker/src/approval/repository.ts:186-216 | a card is opened exactly when its run has a thread and no card in a slot-holding state, and keeps its run, draft and shadow flag for ever |
| `ApprovalOutcomes.NotifySends` | apps/worker/src/approval/notifier.ts:196-238 | alone, a notify of a decided card with a thread sends it once in the human's words and leaves the delivery the sender's answer calls for, on the row and in the turn |
| `ApprovalOutcomes.NotifyRejected` | apps/worker/src/approval/notifier.ts:94-145 | alone, a notify of a rejection delivers nothing and tells the run the reason |
| `ApprovalOutcomes.NotifyShadowed` | apps/worker/src/approval/notifier.ts:180-186 | alone, a notify under a shadow flag of the card or the run suppresses without sending |
| `ApprovalOutcomes.NotifyUnpinned` | apps/worker/src/approval/notifier.ts:188-194 | alone, a notify of a run without a thread blocks without sending |
| `ApprovalOutcomes.NotifyReentered` | apps/worker/src/approval/notifier.ts:199-215 | alone, a notify that finds a send in flight leaves the delivery in doubt and sends nothing |
| `ApprovalOutcomes.NotifySettled` | apps/worker/src/approval/notifier.ts:206-262 | alone, a notify that finds the delivery settled changes nothing about it and reports it as it stands |
| `ApprovalOutcomes.NoNotifyGivesUp` | apps/worker/src/approval/notifier.ts:67-93 | in every run a notify that is not cut short applies: its run exists and the row still carries the decision |
| `ApprovalTheorems.ResolutionExactlyOnce` | apps/worker/src/approval/repository.ts:360-370 | a row is marked resolved only if its owning run accepted its key, and no run accepts a card's key twice |
| `ApprovalTheorems.ParkedOnOwnCard` | apps/worker/src/approval/port.ts:78-183 | a parked run's card exists and is its own, and a run has at most one unsettled card |
| `ApprovalParking.ParkedIff` | apps/worker/src/approval/port.ts:116-121 | a run is parked on a card exactly when the last park, resolution or withdraw that reached its flag was that card's park |
| `ApprovalParking.LastIsLatestPark` | apps/worker/src/approval/port.ts:198-218 | in every run the card a withdraw with nothing open consults is that of the run's latest park |
| `ApprovalParking.FlagStandsIff` | apps/worker/src/approval/notifier.ts:108-118 | while no card of a parked run is opened, decided or withdrawn, its flag stands if and only if no notify, park or withdraw in flight has yet to write it and no card of the run awaits the sweep |
| `ApprovalParking.ParkedOnResolved` | apps/worker/src/approval/port.ts:116-121 | a run that stays parked on a resolved card, with nothing under way that clears it |
| `ApprovalParking.ResolutionOfAnother` | apps/worker/src/approval/notifier.ts:114-118 | a resolution that unparks a run from a pending card is that of another, settled card |
| `ApprovalParking.NewerCardUnparked` | apps/worker/src/approval/notifier.ts:114-118 | a run in which that happens |
| `ApprovalTheorems.StartedSilenceIff` | apps/worker/src/approval/notifier.ts:196-215 | a started delivery is silent for ever exactly when nothing was sent and nobody holds the right to send |
| `ApprovalTheorems.SuppressionIsSilentIff` | apps/worker/src/approval/notifier.ts:180-194 | a card settled without a send is never sent if and only if the update found it at `none` |
| `ApprovalTheorems.SuppressedButSent` | apps/worker/src/approval/notifier.ts:184-186 | a run in which the message was sent and the turn says it was suppressed |
| `ApprovalTheorems.ShadowSafetyIff` | apps/worker/src/approval/notifier.ts:180-215 | a shadowed card not yet started is never sent if and only if no stale notifier is in flight |
| `ApprovalTheorems.ShadowedButSent` | apps/worker/src/approval/notifier.ts:180-215 | a run in which a card is sent that was shadowed before its delivery started |
| `ApprovalTheorems.ShadowCardIsNeverSent` | apps/worker/src/approval/notifier.ts:184-186 | a card that is itself a shadow card is never sent |
| `ApprovalInvariant.RunKeeps` | apps/worker/src/approval/notifier.ts:67-262 | every run keeps the protocol's invariant, and never takes back a decision, a terminal delivery, a turn or a send |
| `ApprovalService.Approvals.DecideApproval` | apps/worker/src/approval/repository.ts:245-296 | a valid decision wins exactly on a pending row, which then carries the input and the decider; a loser is handed the row that won; a blank edit or reason is refused before anything is written |
| `ApprovalService.Approvals.WithdrawApproval` | apps/worker/src/approval/repository.ts:304-327 | withdraws a pending row and nothing else, and afterwards the row is withdrawn or carries the decision reported |
| `ApprovalService.Approvals.SetDelivery` | apps/worker/src/approval/repository.ts:337-352 | touches only delivery and error of a row found as expected, so that of two callers with the same expectation only the first moves it |
| `ApprovalService.Approvals.InsertApproval` | apps/worker/src/approval/repository.ts:186-216 | inserts exactly when the run is pinned and no card of it holds the slot, as the index's columns say |
| `ApprovalService.Approvals.SettleDelivery` | apps/worker/src/approval/notifier.ts:248-262 | under interference, reports a final delivery equal to the row's |
| `ApprovalService.Approvals.DeliverApproval` | apps/worker/src/approval/notifier.ts:165-238 | whatever branch is taken and whoever interferes, reports a final delivery equal to the row's |
| `ApprovalService.Approvals.Notify` | apps/worker/src/approval/notifier.ts:67-153 | when it applies the owning run has accepted the card's turn; otherwise there is nothing to mark |
| `ApprovalService.Approvals.Patch` | apps/worker/src/api/approvals.ts:304-443 | wins exactly on a valid decision of a pending row and changes nothing otherwise; under interference, unless cut short, a winner's decision stands and its `resolutionDelivered` is true, with the turn accepted |
| `ApprovalService.Approvals.OpenCard` | apps/worker/src/approval/port.ts:78-126 | opens exactly when the run is pinned and its slot is free: the insert first, others meanwhile, then the park, and the run is parked on its own card |
| `ApprovalService.Approvals.Withdraw` | apps/worker/src/approval/port.ts:132-183 | under interference the card is the parked one, or with nothing open the last one: a human's decision on it is handed back, always if it was there from the start, and success means there was none when the card was read and that an open card is withdrawn |
| `ApprovalService.Approvals.SettledDecision` | apps/worker/src/approval/port.ts:198-218 | with nothing open, reports a decision exactly when the last card carries a human's, and it is that one |
| `ApprovalSweep.Sweeper.ListUndeliveredResolutions` | apps/worker/src/approval/repository.ts:490-507 | lists the oldest rows approved, edited or rejected and not yet resolved, oldest first, each once, up to the limit |
| `ApprovalSweep.Sweeper.SweepUndeliveredApprovals` | apps/worker/src/api/approvals.ts:470-514 | due is delivered plus failed, exactly the rows whose notify applied get the time as their resolution and nothing else changes, and when all apply the page of ten is drained |
| `ApprovalSweep.BacklogEmptyIff` | apps/worker/src/api/approvals.ts:456-514 | with every notify applying, a backlog of n is empty after k sweeps if and only if k is at least n over ten, rounded up |
| `JwksTheorems.CacheBounds` | apps/worker/src/access/jwt.ts:173-179 | in every run the negative cache holds at most MAX_UNKNOWN_KIDS distinct kids and no lookup waits for more than two loads |
| `JwksTheorems.KeyIsFresh` | apps/worker/src/access/jwt.ts:289-305 | a returned key was listed in a fetched document less than the floor older than the lookup |
| `JwksTheorems.AnswerIsFetched` | apps/worker/src/access/jwt.ts:275-306 | in every run a lookup that waited is told what a settled load brought: its key, that it has none, or that it failed |
| `JwksTheorems.CacheIsLatest` | apps/worker/src/access/jwt.ts:228-247 | in every run the cache is the document of the latest load that brought one, and a failed load leaves it alone |
| `JwksTheorems.RotationIff` | apps/worker/src/access/jwt.ts:275-306 | let a kid without an entry be published at any moment of any run and let no fetch fail: every lookup that starts a TTL later finds it if and only if at that moment no older load is in flight beside a cache that lacks the kid and is still young |
| `JwksTheorems.NeverBlind` | apps/worker/src/access/jwt.ts:275-306 | that guard on the state is enough even for a kid that has an entry |
| `JwksTheorems.RotationWithoutOverlap` | apps/worker/src/access/jwt.ts:275-306 | while no lookup starts during another, a lookup one TTL after publication finds the key, whatever the state, unless a fetch failed |
| `JwksTheorems.OverlapBlindSpot` | apps/worker/src/access/jwt.ts:181-183 | two overlapping lookups bring the cache to a state in which the guard fails and the blind spot is longer |
| `JwksTheorems.MissesAreApart` | apps/worker/src/access/jwt.ts:275-306 | after a miss, the next lookup of the kid starts a TTL later or is refused without a load, if fewer than MAX_UNKNOWN_KIDS entries were made before it started |
| `JwksTheorems.MissesAreApartWithoutOverlap` | apps/worker/src/access/jwt.ts:275-306 | in a run without overlap two misses of one kid start a TTL apart, if fewer than MAX_UNKNOWN_KIDS entries were made between the first and the start of the second |
| `JwksVerifier.Verifier.RememberUnknownKid` | apps/worker/src/access/jwt.ts:173-179 | the kid has an entry for a TTL from now, entries stay distinct and within the size, and of the others only the oldest of a full map is lost |
| `JwksVerifier.Verifier.LoadJwks` | apps/worker/src/access/jwt.ts:181-183 | a load is begun exactly when none is in flight, so one is in flight afterwards and is what the caller waits for |
| `JwksVerifier.Verifier.ResolveKey` | apps/worker/src/access/jwt.ts:275-306 | under interference: refused on sight exactly when an unexpired entry stands, answered from the cache without a load exactly when it is young and lists the kid, and otherwise told what one load brought, or a second if the cache was old; a miss is remembered for a TTL; alone, the fetches settle the answer |
| `Execution.BudgetHolds` | apps/worker/src/capabilities/execution.ts:225-302 | at most `limit` bodies run in one context, whatever connectors the calls came through |
| `Execution.SharedBudget` | apps/worker/src/capabilities/connector.ts:61-79 | at most `limit` bodies run for an execution that is not disposed of |
| `Execution.BudgetPerContext` | apps/worker/src/capabilities/connector.ts:61-79 | in every run an execution id gets at most `limit` bodies for each context built for it |
| `Execution.CallIdsDistinct` | apps/worker/src/capabilities/execution.ts:238-249 | two charged calls never share an id unless an execution was disposed of |
| `Execution.CallIdInjective` | apps/worker/src/capabilities/execution.ts:245-245 | the id's text determines the execution and the number, colons notwithstanding |
| `Execution.DecimalReads` | apps/worker/src/capabilities/execution.ts:245-245 | the number in an id reads back as itself in decimal, without leading zeros |
| `Execution.IdsRepeatIff` | apps/worker/src/capabilities/execution.ts:238-249 | in every run two charged calls of an execution share an id if and only if two of its contexts have charged a call |
| `Execution.DisposalResets` | apps/worker/src/capabilities/connector.ts:75-77 | a run with a limit of one in which two bodies begin for one execution under one call id |
| `Execution.AuditExact` | apps/worker/src/capabilities/execution.ts:238-301 | a finished call has one started event and exactly one of completed and failed, each with its own id |
| `Execution.ReferenceIff` | apps/worker/src/capabilities/execution.ts:124-146 | a reference resolves exactly in the context that minted it, to the slug it was minted for |
| `ExecutionHost.Host.ContextFor` | apps/worker/src/capabilities/connector.ts:61-79 | one context per execution id, built on first use, even a failed one |
| `ExecutionHost.Host.Next` | apps/worker/src/capabilities/execution.ts:88-103 | hands out the next number of the execution's one counter |
| `ExecutionHost.Host.ResolveReference` | apps/worker/src/capabilities/execution.ts:132-145 | answers a slug exactly for a reference this context minted |
| `ExecutionHost.Host.WithCapabilityAudit` | apps/worker/src/capabilities/execution.ts:225-302 | the body runs exactly when the number is within budget and the run is current, and the call always ends recorded |
| `ExecutionHost.Host.Execute` | apps/worker/src/capabilities/connector.ts:188-216 | a call runs in its own execution's context, and throws uncharged exactly when that could not be built |
| `CustomerSearch.LiteralSearch` | apps/worker/src/db/channels.ts:135-158 | the escaped pattern matches exactly the slugs the query occurs in, unit by unit and with ASCII letters in either case, for every query |
| `CustomerSearch.EscapedMatches` | apps/worker/src/db/channels.ts:141-141 | an escaped query matches exactly itself and leaves the rest to the rest of the pattern |
| `CustomerSearch.PercentIsLiteral` | apps/worker/src/db/channels.ts:112-121 | an unescaped percent sign would match every slug; escaped, only those that contain one |
| `CustomerSearch.AnswerIff` | apps/worker/src/db/channels.ts:135-170 | a customer is answered exactly when the query occurs in its slug, a channel that is not internal carries it, and it is among the first ten such customers and the first `limit`, or is the very first; each once and in order |
| `ChannelSlug.ShapeIff` | apps/worker/src/api/channels.ts:127-133 | the slug pattern's language is lower-case letters, digits and single dashes with no dash at either end |
| `ChannelSlug.DerivedIsItsWords` | apps/worker/src/channels/registry.ts:51-57 | the derived slug is the words of the lower-cased name with a dash between one and the next, and the lower-cased channel id when there are none |
| `ChannelSlug.Spelled` | apps/worker/src/channels/registry.ts:51-57 | every text has its words: runs of lower-case letters and digits, apart from each other |
| `ChannelSlug.DerivedShape` | apps/worker/src/channels/registry.ts:51-57 | a derived slug that is not the fallback has the shape PATCH accepts |
| `ChannelSlug.DerivedFixed` | apps/worker/src/channels/registry.ts:51-57 | derivation leaves a text alone exactly when it has the shape |
| `ChannelSlug.DeriveIdempotent` | apps/worker/src/channels/registry.ts:51-57 | deriving twice is deriving once |
| `ChannelSlug.LongNameRefused` | apps/worker/src/api/channels.ts:127-133 | PATCH accepts a derived slug exactly when it is short enough |
| `ChannelSlug.OverlongName` | apps/worker/src/api/channels.ts:127-133 | a name whose derived slug has the shape and is refused |
| `ChannelRegistry.TrustIff` | apps/worker/src/db/channels.ts:87-93 | from any table in which nothing is confirmed, in every interleaving a tenant key is trusted exactly when the latest customerSlug PATCH set one, and it is then that well-formed slug |
| `ChannelRegistry.RowExactly` | apps/worker/src/api/channels.ts:193-213 | slug and provenance of a row are settled by its first slug and its latest customerSlug PATCH in every interleaving |
| `ChannelRegistry.RegisteredExactly` | apps/worker/src/channels/registry.ts:88-160 | in every interleaving a channel has a row exactly when it had one or was registered, under the name of its first registration, and live until a mode PATCH |
| `ChannelRegistry.RegistrarsOnlyAdd` | apps/worker/src/channels/registry.ts:116-137 | no registrar ever changes an existing row |
| `ChannelRegistry.ParsePatch` | apps/worker/src/api/channels.ts:110-141 | a body is a patch exactly when it carries a field and every field it carries is good: one of the three mode words, and null or a slug of at most a hundred units; the patch means what the fields say |
| `ChannelRegistry.Registry.RegisterChannel` | apps/worker/src/channels/registry.ts:88-104 | answers the row in the table under races, and none only when the channel could not be identified; alone it writes at most one row, live and unconfirmed, named as Slack says |
| `ChannelRegistry.Registry.SweepChannelMembership` | apps/worker/src/channels/registry.ts:146-160 | every listed channel ends with a row; alone, the new rows are live, unconfirmed and named as first listed, each is counted once, and no other row changes |
| `ChannelRegistry.Registry.PatchChannel` | apps/worker/src/api/channels.ts:185-230 | slug and provenance move together, a mode-only patch touches neither, and no row is created |

## Left out

- Slack, GitHub, D1, the Durable Object and the queue themselves: a D1 statement
  or batch is one atomic step, the sender and `execute` are arbitrary outcomes,
  and the submission queue is a set of keys that refuses a repeated one.
- A thrown `notify`, a dead Worker and an unreachable object are all a caller that
  stops moving; whether the sweep's `failed` was a refusal or a throw is not kept.
- The run's failure after expiry (`approvalExpired`) beyond its withdraw, which is
  modelled as any other withdraw.
- Nudges, binding the run to a channel, `noteInput` and the wording of the
  resolution turn: only its decision, text, reason and delivery are kept.
- The decision API's identity checks and body parsing, the list endpoints and the
  dashboards.
- The clock in the ledger and in `sleep`: waiting is a move, an abort a flag.
- SHA-256, UTF-8 and NFC: a digest without collisions on well-formed text, and
  any function on strings. Object keys are not normalised, as in the code.
- Numbers are their `Number.prototype.toString` text, so `-0` and `0` are one, as
  they are in JSON text; array holes and getters are not modelled.
- The unique semantic index of the ledger table, which the key already implies
  for one key.
- RSA verification, claim checks and the parsing of a fetched document: a load
  brings a map of usable keys or fails.
- The load in flight ends in the model with the update of the cache. In
  `apps/worker/src/access/jwt.ts:240-247` its promise is forgotten some microtasks
  later, so that a lookup which starts in between joins a load that has settled.
- An audit sink that throws: the events are as given only for a sink that does
  not. Redaction and result length are not modelled.
- SQLite's limits on pattern length, strings with embedded NUL, and a limit that
  is not a number.
- `toLowerCase` is any function; where idempotence needs it, that it leaves slugs
  alone is stated.
- ChannelRegistry.ParsePatch: a body is its two fields, so a field inherited
  from a prototype is not modelled, because parsed JSON has none.
- EffectKey.EffectKeyExact: the arguments are unfolded beneath the envelope
  object, which in the program nothing can refer back to.
- ApprovalSweep.Sweeper.SweepUndeliveredApprovals: the loop is over one table
  with each row's notify as a given outcome, because the interleaving of those
  notifies with everything else is what the transition system covers.
