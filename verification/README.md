# A verified model of costlane

costlane is a gateway in front of language model providers. It keeps a monthly
budget per key, prices what a provider reports, relays and translates event
streams, and writes a usage record for every answered request. This project models
the parts of it that carry its guarantees and proves those guarantees.

`dafny verify dfyconfig.toml` checks everything.

## What is modelled

- **The budget.** `Ledger` is an atomic step machine over the three tables: keys,
  one balance per key, and the log of reservations. `LedgerRuns` proves that in
  every reachable state the balance equals what the log says; `LedgerLimits` says
  by how much exactly a limit is exceeded and how often a reservation moves money;
  `Shortfall` bounds that excess by the share of the estimates that the guard band
  leaves open; `Admission` says what each step does in terms of the rows alone.
  `Store` is the same set of operations as methods that change the tables.
- **Its transactions.** `Transactions` runs any number of reserves, settles, sweeps
  and limit changes side by side, one SQL statement at a time, under READ COMMITTED
  as section 13.2.1 of the PostgreSQL documentation describes it: row locks,
  uncommitted row versions, predicates looked at again after a wait, skipped locked
  rows, rollback at any statement. `Refinement` proves that every such run is a run
  of the atomic ledger in commit order; `Deadlock` says who can wait for whom.
- **Requests and books.** `Requests` follows a request from its reserve to its end,
  panics included. `Books` puts ledger and usage records side by side and proves
  what `Reconcile` reports. `UsageBuffer` and `BufferSteps` are the usage buffer, as
  a class and under arbitrary interleaving.
- **Pricing.** `PriceTable` and `PriceOrder`: the checked price list; `PriceLaw`: what a
  price is in terms of its rows. `Estimate` and `EstimateLaw`: the amount a reserve sets
  aside and how short it can be. `Normalise`: from a provider's usage block to counts.
- **Streams.** `Frames`, `FrameLaws` and `FrameText`: the frame reader, down to the
  shared bytes of its slices. `Pump` and `PumpLaws`: the relay. `ClientView`, `EndMarker`,
  `Gluing`, `Halves`, `BrokenFrames` and `MarkerReached`: what a client reads of the
  bytes it is sent, and when exactly it reads the end marker. `AnthropicStream` and
  `GoogleStream`: the two translators, against the translation of a whole response, and
  `MessagesLaw` and `GeneratedLaw`: what they keep of a stream, event by event;
  `ChatClient` is the client that assembles their chunks, and `EndToEnd` puts frames,
  translator, relay and client together.
- **Listings.** `Paging`: keyset pages over a table that grows.

Money is exact. A stored amount is an integer number of 10^-10 dollars, because the
columns are NUMERIC(20,10); amounts that are not stored yet are non-negative reals,
and `Basics.Quantise` is the rounding between the two. Token counts are 64-bit and
wrap where the arithmetic of the program wraps. Months and instants are integers
that may move in any direction. JSON, base64 and UUIDs are parsed values. What the
network, the database and the clock do is an argument or an arbitrary choice.

## Where the code and its own words differ

The model follows the code.

- `internal/store/budget_test.go:395` says that a limit may be exceeded by at most
  one request. It may be exceeded by the sum of the overruns of all pending
  requests: `LedgerLimits.LimitHolds` is the bound, `LedgerLimits.TwoRequestsOver` a
  run that is over by more than either of its requests.
- `internal/store/reconcile.go:31` says that settled reservations without a usage
  record measure what the buffer lost. They also count every failed request, which
  is settled at zero and has no record (`Books.UnrecordedAre`).
- `internal/proxy/handler.go:294-310` logs a settle that fails and records the usage
  all the same, with its cost. The report then shows a mismatch although nothing was
  lost (`Books.FailedSettleSpoils`; `Books.ReportIsOkExactlyWhen` is the condition).
- `internal/store/budget.go:307` retries a deadlocked sweep in view of contention with
  a concurrent settle. The two do wait for each other, but never in a cycle: reserves,
  settles and sweeps never deadlock. A limit change and a reserve can, because the
  reserve's INSERT shares the key row that the limit change has locked
  (`Deadlock.CyclesExactly`, and `Deadlock.DeadlockRun` for a run from nothing).
- A reserve looks again only at the balance row after a wait, so one that had found
  its key before a revocation can commit after it
  (`Refinement.ReserveCommitsAfterRevocation`, and `Refinement.RevokedReserveRun` for
  a run from nothing).
- A refused reserve does not rotate the window, so the amounts in the refusal are
  those stored (`Store.Store.Reserve`).
- An Add that has found the buffer open may still be queued after the consumer has
  looked at the queue for the last time; the record stays there
  (`BufferSteps.LateOfferIsStranded`, and `BufferSteps.StrandedRun` for a run from a
  fresh buffer).
- `Frame.Raw` is described as the exact bytes. In a frame with several data lines of
  which the first ends in CRLF, one CR becomes an LF (`FrameLaws.SpoiledFrame`).
- `internal/proxy/pump.go:240-243` relays a frame that cannot be translated as it came,
  and `:261` adds the end marker that a client waits for. If that frame is the last one
  and has no blank line, or is cut off by the cap, the marker runs into it and the client
  reads none; and if one of its bytes is overwritten the client may read a marker in the
  middle of it (`MarkerReached.TranslatedEndsExactly`, `MarkerReached.MarkerIsLost`,
  `MarkerReached.MarkerComesEarly`).
- Text blocks that the provider interleaves are assembled by the client in the order in
  which their pieces come, and by the translation of a whole response block by block
  (`AnthropicStream.StreamKeepsUpExactly`).
- Gemini frames whose usage is null make earlier usage unreadable
  (`GoogleStream.UsageIsTheLastGiven`), and the streamed and the whole Gemini
  response name some finish reasons differently (`GoogleStream.SameFinishExactly`).
- The translation of a whole Gemini response drops its function calls, which the stream
  passes on (`internal/provider/google.go:308-313`, `GoogleStream.SameMessageExactly`).
- With large enough cached counts the 64-bit subtraction for an OpenAI payload wraps
  without a warning (`Normalise.OpenAIParts`, `Normalise.OpenAIWraps`).
- The streamed prompt total of Anthropic counts the cache, the one of a whole
  response does not (`AnthropicStream.PromptTotalsAgreeExactly`).

## Model

| member | source | states |
|---|---|---|
| Basics.Quantise | internal/store/migrations/0003_budget_reservations.sql:10-11 | a stored amount is within half a unit of the amount given, and never negative for one that is not |
| Basics.QuantiseShift | internal/store/migrations/0002_keys_and_budgets.sql:32-34 | adding to a stored balance and rounding is rounding what is added, so balance and log stay in step |
| Basics.QuantiseFits | internal/store/budget.go:145-149 | an amount that fits under a limit still fits after it is stored |
| LedgerRuns.ReserveKeepsInv | internal/store/budget.go:134-150 | an admitted reserve, rotating the window or not, leaves every balance equal to the log and every reservation in a window no later than its key's |
| LedgerRuns.SettleKeepsInv | internal/store/budget.go:250-282 | a settle, on time, late, repeated or after the sweep, leaves every balance equal to the log |
| LedgerRuns.ExpireAllTotals | internal/store/budget.go:371-409 | expiring a batch lowers the pending sum of a key by exactly what the batch held of it and no settled sum |
| LedgerRuns.SweepKeepsInv | internal/store/budget.go:371-409 | a sweep leaves every balance equal to the log and nothing negative |
| LedgerRuns.StepKeepsInv | internal/store/reconcile.go:53-76 | every step, limit changes, new keys and revocations included, keeps balances and log in agreement |
| LedgerRuns.RunKeepsInv | internal/store/reconcile.go:53-76 | in every reachable state under any clock reserved is the sum of pending estimates, spent the sum of settled actuals of the current window, nothing is negative, no reservation is of a later window than its key |
| LedgerLimits.StepStaysWithin | internal/store/budget.go:277-282 | no step but a reserve raises spent plus reserved of a key by more than its overrun |
| LedgerLimits.StepMoves | internal/store/budget.go:247-282 | every step but a reserve moves spent plus reserved of a key by exactly its overrun less its slack |
| LedgerLimits.AdmittedFits | internal/store/budget.go:145-149 | after an admitted reserve spent plus reserved, as stored, is within the limit |
| LedgerLimits.LimitHolds | internal/store/budget.go:145-149 | at any later point spent plus reserved is at most the limit in force at the last admitted reserve plus the overruns settled since, whatever happens to the limit |
| LedgerLimits.ExcessExactly | internal/store/budget_test.go:393-397 | spent plus reserved is over that limit by more than an amount, one request's say, exactly when the overruns settled since exceed the slack, the room left by the reserve and that amount together |
| LedgerLimits.NeverExceededWithoutOverrun | internal/store/budget.go:145-149 | without an overrun the limit is never exceeded |
| LedgerLimits.TwoRequestsOver | internal/store/budget_test.go:393-397 | a run in which a limit is exceeded by more than any one request costs |
| LedgerLimits.SettledIsFinal | internal/store/budget.go:257-266 | a settled reservation never changes again |
| LedgerLimits.SettlesAtMostOnce | internal/store/budget.go:222-224 | over any run a reservation is settled with effect at most once, and exactly once when it ends settled |
| LedgerLimits.ReleasedOnce | internal/store/budget.go:273-282 | what a reservation took up is either still held or was released, once, by settle or by sweep |
| LedgerLimits.ReleasesMoveTheBalance | internal/store/budget.go:273-282 | every step changes the reserved balance of a key by exactly what it takes up less what it releases of the reservations it touches |
| LedgerLimits.SettleAndSweepCommute | internal/store/budget.go:247-282 | a settle and a sweep of the same reservation give the same balances and log in either order but for the late-settle flag |
| Shortfall.GuardCoversRequest | internal/pricing/guard.go:26-40 | the stored cost of a request that the guard band covers, times the factor, is at most its stored estimate, up to one unit |
| Shortfall.TenDecimals | internal/store/budget.go:250-282 | a price is stored to ten decimals of a dollar |
| Shortfall.GuardedSettleIsCovered | internal/proxy/handler.go:294-299 | the settle of a reservation made with the stored estimate of such a request is a covered charge |
| Shortfall.OverrunsAreExposed | internal/store/budget.go:273-282 | if the charges of a key to its current window are covered, its overruns, times the factor, are at most the shares of their estimates that the factor leaves open, and whole estimates where they had expired; what other keys do does not matter |
| Shortfall.GuardedLimitHolds | internal/store/budget.go:145-149 | so such a key is over its limit by at most those shares divided by the factor |
| Admission.ReservePossibleExactly | internal/store/budget.go:142-149 | a reserve is possible exactly for the given credential of a key that is not revoked and allows the model, with room for the estimate on top of what is reserved and was spent this month |
| Admission.ReserveWrites | internal/store/budget.go:134-141 | the window moves on to the month and never back, spending starts afresh if it does, the stored estimate is added to what is reserved, and the reservation keeps estimate and expiry |
| Admission.NewMonthMakesRoom | internal/store/budget.go:147-149 | in a later month, with nothing pending, a request fits exactly when its own estimate is within the limit, whatever was spent |
| Admission.SettleWrites | internal/store/budget.go:250-282 | a reservation not settled yet, pending or expired, is closed at the stored cost, gives its estimate back unless swept, and counts as spending in its own window only |
| Admission.SweepWrites | internal/store/budget.go:380-401 | a sweep expires pending reservations past their expiry and changes no other |
| Admission.SweepLeavesNothingOverdue | internal/store/budget.go:336-342 | a reservation past its expiry is left pending only by a sweep with a full batch of ones that expired no later |
| Admission.AdministrationWrites | internal/store/keys.go:158-171 | a new key, a limit change and a revocation write their own rows only |
| Admission.RunKeepsTerms | internal/store/budget.go:224-282 | over any run a reservation keeps its key, window, estimate and expiry, and a key its credential and models |
| Admission.CommittedReservesAreAuthenticated | internal/store/budget.go:142-144 | in every interleaving each committed reserve gave the credential of a key that was not revoked when it looked and allows the model |
| Admission.CommitsAreAsked | internal/store/budget.go:78-86 | in every interleaving whatever commits is what some transaction was begun for, with its own credential, model, amounts and times |
| Admission.RunKeepsApart | internal/store/keys.go:195-200 | in every interleaving a limit change that holds the row of a key keeps out every other one of that key, and every reserve that has inserted for it |
| Admission.LockedKeyStays | internal/store/keys.go:195-200 | nothing that happens changes a key row that a limit change holds |
| Admission.RefusedOnlyWithout | internal/store/budget.go:142-149 | a reserve is refused only if no key fits it when it looks, or if the balance it found has no room when it looks again |
| Refinement.ExecuteKeepsInv | internal/store/budget.go:78-86 | each SQL statement keeps what transactions have seen in agreement with the committed rows under their locks |
| Refinement.CommitRefines | internal/store/budget.go:124-127 | what a transaction installs at its commit is one step of the atomic ledger, enabled in the state committed then; a reserve's key row is a version of the committed one, that may not yet have been revoked, and allows the credential and the model |
| Refinement.RunRefines | internal/store/budget.go:78-86 | every interleaving of statements is a run of the atomic ledger, authentication included, whose steps are the commits in their order |
| Refinement.CommittedStateIsBalanced | internal/store/reconcile.go:53-76 | whatever is committed at any moment of any interleaving is in balance |
| Refinement.EveryCommittedStateIsBalanced | internal/store/reconcile.go:53-76 | from an empty database on, every state that is ever committed is in balance |
| Refinement.AbortedLeavesNoTrace | internal/store/budget.go:88-92 | taking an uncommitted transaction out of a run leaves a possible run with the same commits and the same end |
| Refinement.RevocationStopsNewReserves | internal/store/keys.go:158-171 | after a revocation no reserve that looks for its row afterwards ever commits |
| Refinement.ReserveCommitsAfterRevocation | internal/store/budget.go:142-146 | a reserve that had found its row before can commit after the revocation |
| Refinement.RevokedReserveRun | internal/store/budget.go:142-146 | a whole run of it from an empty database |
| Deadlock.RankRises | internal/store/budget.go:304-308 | a transaction waits only for one of higher rank, or for a limit change while it inserts |
| Deadlock.RunKeepsOrder | internal/store/budget.go:383-387 | reapers hold only balance rows that come before those they still want |
| Deadlock.CyclesNeedAnUpdate | internal/store/budget.go:304-308 | every cycle of lock waits goes through an insert held up by a limit change |
| Deadlock.CyclesExactly | internal/store/keys.go:197-204 | there is a cycle of lock waits exactly when a reserve has written the balance of a key whose row a limit change has locked |
| Deadlock.NoDeadlockWithoutUpdates | internal/store/budget.go:304-308 | reserves, settles and sweeps never form a cycle of lock waits |
| Deadlock.UpdateAndReserveDeadlock | internal/store/keys.go:197-204 | a limit change and a reserve of the same key can each wait for the other |
| Deadlock.DeadlockRun | internal/store/keys.go:197-204 | a whole run of it from an empty database |
| Deadlock.UnblockedMoves | internal/store/budget.go:304-308 | a transaction that waits for nobody can take its next statement or end |
| Deadlock.SomeoneMoves | internal/store/budget.go:304-308 | as long as transactions are in progress and no reserve is held up by a limit change of its key, one of them can go on |
| Store.Store.Reserve | internal/store/budget.go:87-150 | admits exactly when no statement fails and a key has the credential, is not revoked, allows the model and has room for the estimate; does then the atomic reserve, and otherwise changes nothing and explains itself |
| Store.Store.DiagnoseReserve | internal/store/budget.go:152-193 | an unknown credential, a revoked key, a model not allowed, and only then a budget with its stored amounts |
| Store.Store.Settle | internal/store/budget.go:224-290 | does the atomic settle or nothing at all, and reports what it did |
| Store.Store.SelectExpired | internal/store/budget.go:336-342 | claims distinct overdue pending reservations, soonest first, as many as the batch allows |
| Store.Store.SumPerKey | internal/store/budget.go:371-377 | adds up per key what the claims hold |
| Store.Store.ReapOnce | internal/store/budget.go:327-415 | sweeps a whole batch as one atomic step or changes nothing, and leaves no reservation past its expiry pending if its batch had room |
| Store.Store.ReleasePerKey | internal/store/budget.go:403-409 | takes each key's total off its balance, in whatever order |
| Store.Store.UpdateLimit | internal/store/keys.go:256-268 | changes the limit and nothing else |
| Store.Store.RevokeKey | internal/store/keys.go:161-171 | revokes an existing key and nothing else, any number of times |
| Store.TotalsGrow | internal/store/budget.go:374-377 | one more claim adds its estimate to its key's total and to no other |
| Requests.Handler.ServeReserved | internal/proxy/handler.go:237-312 | on every path, panics included, those in the error response of a stream among them, and whichever settles fail, the store ends as the outcome of the plan says, at most one settle has effect, and exactly the answered and priced requests are recorded; an answer without a panic is settled at its price and recorded with it |
| Requests.EndsSettledAt | internal/proxy/stream_handler.go:201-240 | as long as settles commit, an answered request, streamed or not, ends settled at its price and leaves one record of it, and any other at zero; which panics make it end at zero or without a record |
| Requests.OutcomeExactly | internal/proxy/handler.go:237-312 | for every reply, panic and failing settle which of the two settles takes effect and at what amount |
| Requests.CommittedSettles | internal/proxy/handler.go:237-251 | if no settle fails, exactly one has effect, at the price that was found or at zero |
| Requests.FailedSettles | internal/proxy/handler.go:294-299 | if the settle that a request makes itself fails, the reservation stays open, but for a stream that panicked, which the deferred release settles at zero |
| Requests.Handler.Complete | internal/proxy/handler.go:267-312 | a request that is not streamed is settled before it is recorded, and at zero when the provider fails |
| Requests.Handler.ServeStream | internal/proxy/stream_handler.go:24-94 | a streamed request is settled with effect once by itself, or not at all if it panics first, and is left to the deferred release after any panic |
| Books.PaperMatchesSettlement | internal/proxy/handler.go:390-394 | the recorded cost is the settled amount or, if the settle failed, an unsettled cost; unpriced and failed requests count nothing on either side |
| Books.StepKeepsSums | internal/store/reconcile.go:110-121 | every step adds to the recorded costs of a key and window what it adds to the settled amounts and to the costs whose settle failed |
| Books.RunKeepsBooks | internal/store/reconcile.go:110-121 | over any run, failing settles included, costs written, on their way and lost add up to the settled amounts of each key and window and the costs whose settle failed |
| Books.EveryBooksAddUp | internal/store/reconcile.go:110-121 | so from an empty database on |
| Books.Reconcile | internal/store/reconcile.go:50-127 | lists exactly the keys whose balance is not what the log says, each once, and counts the settled reservations without record and the groups whose costs disagree |
| Books.MismatchesExactly | internal/store/reconcile.go:110-122 | the third check finds something exactly if the written costs of a key and window, some record of which has a cost, differ from what was settled there |
| Books.NoDrift | internal/store/reconcile.go:28-29 | in every reachable state the list of drifting balances is empty |
| Books.UnrecordedAre | internal/store/reconcile.go:31-35 | a settled reservation has no record exactly when a settle of its request committed and its record is owed or lost or its request failed |
| Books.CostsMatchExactly | internal/store/reconcile.go:110-121 | once no record of a settled cost is owed or lost, the recorded costs of a key and window are the settled amounts exactly when no written record of them has a cost whose settle failed |
| Books.ReportIsOkExactlyWhen | internal/store/reconcile.go:42-47 | the report is all clear exactly when of every request that ended either the record is written and its cost, if any, settled, or nothing is written and no settle committed |
| Books.FailedSettleSpoils | internal/proxy/handler.go:294-310 | a run from an empty database in which a settle fails, its record is written, and the report is not all clear |
| UsageBuffer.Buffer.Add | internal/usage/buffer.go:115-141 | a record is queued, or written at once when the queue is full or the buffer closed, and refused only if that write failed |
| UsageBuffer.Buffer.Flush | internal/usage/buffer.go:187-228 | a batch is written whole; it is lost only if the buffer was cancelled and two attempts failed |
| UsageBuffer.Buffer.LastAttempt | internal/usage/buffer.go:230-244 | one more attempt, after which the batch is written or counted as lost |
| UsageBuffer.Buffer.DrainAndFlush | internal/usage/buffer.go:247-262 | for a writer that fails finitely often it ends with everything queued written in order, in batches within the bound, and nothing lost |
| BufferSteps.NothingGoesMissing | internal/usage/buffer.go:115-262 | in every interleaving each queued record is in exactly one place, in order, within the bounds of queue and batch, and each accepted one was queued or written directly |
| BufferSteps.NothingEverGoesMissing | internal/usage/buffer.go:115-262 | so from a fresh buffer on |
| BufferSteps.AcceptedAre | internal/usage/buffer.go:115-141 | every record whose call returned without an error was written by that call or is in exactly one of the batches, the batch being filled and the queue |
| BufferSteps.OnlyTheLastAttemptLoses | internal/usage/buffer.go:230-244 | the number of dropped records grows by a failing last attempt and by nothing else |
| BufferSteps.StrandedAre | internal/usage/buffer.go:247-262 | when the consumer has stopped, the queue holds exactly what came after its last look, and everything accepted has left if and only if nothing did |
| BufferSteps.LateOfferIsStranded | internal/usage/buffer.go:116-130 | a call that found the buffer open may queue a record that no run ever takes out again |
| BufferSteps.CallsEnd | internal/usage/buffer.go:115-141 | a call ends with its record accepted or with a write of its own that failed |
| BufferSteps.ClosedTakesNoMore | internal/usage/buffer.go:116-120 | once the buffer is closed and no call that found it open is under way, the queue takes no more |
| BufferSteps.AllCanBeWrittenExactly | internal/usage/buffer.go:152-262 | from whatever has happened so far the consumer can, on its own and with writes that succeed, still write everything that the queue has accepted, exactly if nothing came after its last look |
| BufferSteps.StrandedRun | internal/usage/buffer.go:116-130 | a whole run of it from a fresh buffer |
| PriceTable.ClashExactly | internal/pricing/table.go:295-313 | two valid rows clash exactly when some request below 2^63-1 input tokens is covered by both |
| PriceTable.AliasClashExactly | internal/pricing/table.go:305-313 | two mappings of a name clash exactly when some instant is covered by both |
| PriceTable.CheckOverlaps | internal/pricing/table.go:264-293 | a table passes exactly when no request is priced by two rows and no name stands for two models |
| PriceTable.NewTable | internal/pricing/table.go:132-172 | an accepted table holds the given rows and aliases, all valid, unambiguous and without dangling names; each rejection has its reason |
| PriceTable.Pick | internal/pricing/table.go:255-262 | the row found covers the request, and nothing does if none is found |
| PriceTable.FirstAlias | internal/pricing/table.go:177-184 | the mapping found was in force, and none was if none is found |
| PriceTable.PickIgnoresOrder | internal/pricing/table.go:255-262 | the order of the rows does not matter to the row that is picked |
| PriceTable.NoThresholdBetween | internal/pricing/guard.go:42-54 | two covered input totals with no threshold between them are priced by the same row |
| PriceTable.InputTierTotal | internal/pricing/table.go:245-253 | the 64-bit total of the input kinds, whatever the order of the map |
| PriceTable.ChargeEach | internal/pricing/table.go:204-226 | stops exactly at a negative billable count, and otherwise sums the charges and sorts the kinds into priced and unknown, whatever the order |
| PriceTable.Cost | internal/pricing/table.go:192-240 | the tier is chosen once from the input total and applied to every kind; unknown is not zero |
| PriceLaw.CostPerMillion | internal/pricing/table.go:192-240 | whatever is priced costs, a million tokens at a time, the sum over the seven billed kinds of count times the rate of the one row that covers the instant and the whole input |
| PriceLaw.PricedExactly | internal/pricing/table.go:209-234 | which kinds are priced and which are unknown, and when there is no price at all |
| PriceLaw.OneRate | internal/pricing/table.go:264-293 | a checked table has one row at most for a kind, an instant and an input total |
| PriceLaw.RowsAreGiven | internal/pricing/table.go:130-155 | the rows kept for a model of a provider are those given for it, and the aliases for a name those given for it |
| PriceLaw.ResolvesTo | internal/pricing/table.go:177-184 | a name stands for the model of the alias in force, and for itself without one |
| PriceLaw.RefusedExactly | internal/pricing/table.go:315-341 | what is refused of a row |
| PriceLaw.RefusedAliasExactly | internal/pricing/table.go:342-355 | what is refused of an alias |
| PriceOrder.ResolveIgnoresOrder | internal/pricing/table.go:177-184 | a name stands for the same model in every order of the aliases |
| PriceOrder.CostIgnoresOrder | internal/pricing/table.go:192-240 | a request has the same price in every order of rows and aliases |
| Estimate.GuardedTierTotal | internal/pricing/guard.go:29-40 | the estimate, lifted to the highest threshold whose band it is in |
| Estimate.Thresholds | internal/pricing/guard.go:44-54 | exactly the thresholds of the model and tier, each once |
| Estimate.EstimateCost | internal/pricing/estimate.go:59-88 | the amount is the price of a guarded input total and of the output ceiling |
| EstimateLaw.TokensOfBytes | internal/pricing/estimate.go:23-28 | four bytes to a token, and one more for what is left over |
| EstimateLaw.GuardedIsTheHighest | internal/pricing/guard.go:26-40 | the guarded total is the estimate or the highest start of a range that it has not reached but, times the factor, may be short of |
| EstimateLaw.HeldPerMillion | internal/pricing/estimate.go:59-88 | what is held is the guarded total at the input rate and the client's own ceiling, or the default, at the output rate |
| Estimate.GuardedIsUnique | internal/pricing/guard.go:29-40 | there is only one guarded total for a request, whatever the order of the thresholds |
| Estimate.ThresholdsReached | internal/pricing/guard.go:26-40 | every threshold that the real input reaches is reached by the guarded estimate, if the estimate is not short by more than the factor |
| Estimate.RateIsNoLower | internal/pricing/guard.go:26-40 | the row that prices the estimate is no cheaper than the one that prices the real request |
| Estimate.WithinTheFactor | internal/pricing/guard.go:26-40 | a real input within the guarded total is not short by more than the factor |
| Estimate.EstimateBoundsCost | internal/pricing/estimate.go:53-88 | the real cost is at most the estimate divided by the factor, and at most the estimate when the real input is within the guarded total |
| Estimate.ResolvedStaysResolved | internal/proxy/handler.go:191-197 | the name that the handler estimates under stands for itself, unless aliases chain |
| Normalise.Normalised.ClampNegative | internal/pricing/normalise.go:44-51 | every negative count becomes zero and is counted as one error, in whatever order |
| Normalise.NormaliseOpenAI | internal/pricing/normalise.go:62-141 | the three outcomes, and the figures of a usage block under either set of names |
| Normalise.NormaliseAnthropic | internal/pricing/normalise.go:157-205 | the three outcomes, and the figures with and without a split of the cache writes |
| Normalise.NormaliseGoogle | internal/pricing/normalise.go:215-249 | the three outcomes, and the figures with cached tokens taken out and thoughts added |
| Normalise.NeverNegative | internal/pricing/normalise.go:30-51 | no payload gives a negative count, and a result is degraded exactly when errors were counted |
| Normalise.SoundUsageIsPriced | internal/pricing/table.go:215-217 | the price of normalised usage is never refused for a negative count |
| Normalise.OpenAIParts | internal/pricing/normalise.go:96-141 | the input parts add up to the prompt total, or to the cached tokens if those are more, exactly when the subtraction does not wrap; degraded exactly when something is inconsistent; reasoning within output otherwise |
| Normalise.OpenAIWraps | internal/pricing/normalise.go:119-126 | a payload for which the subtraction wraps and nothing is flagged |
| Normalise.AnthropicParts | internal/pricing/normalise.go:178-205 | the parts add up to input, reads and the flat creation total, or its split where the flat total is zero; degraded exactly when the split is missing or disagrees |
| Normalise.GoogleParts | internal/pricing/normalise.go:233-249 | input parts add up to the prompt total or the cached tokens if more; output is candidates plus thoughts, or zero and degraded when that overflows |
| Normalise.ClampedMeans | internal/pricing/normalise.go:44-51 | clamping keeps every count but those below zero, each of which becomes zero and an error |
| Normalise.OpenAIKinds | internal/pricing/normalise.go:96-141 | the count of each kind, from the first of the two names that is not zero |
| Normalise.AnthropicKinds | internal/pricing/normalise.go:178-205 | the count of each kind, short- and long-lived cache writes apart |
| Normalise.GoogleKinds | internal/pricing/normalise.go:233-249 | the count of each kind, thoughts within the output |
| Frames.Append | internal/proxy/sse.go:112 | appending to a slice writes into the shared array exactly when there is room in it |
| Frames.Extended | internal/proxy/sse.go:104-113 | the first data line is a slice of the frame; a further one is joined by an LF, which overwrites the CR after the first and nothing else |
| Frames.FrameReader.Next | internal/proxy/sse.go:61-86 | takes the next frame off the stream, the unterminated last one included, and then reports how the stream ended |
| Frames.FrameReader.Parse | internal/proxy/sse.go:96-120 | the fields of the buffered frame and its bytes as they are handed on |
| FrameLaws.CutIsFair | internal/proxy/sse.go:61-94 | every frame makes progress and stays under the cap; nothing is lost unless it is oversized, and then the rest of that line |
| FrameLaws.RelayedIsTheStream | internal/proxy/sse.go:18-23 | the raw bytes of all frames are the stream exactly when no frame is oversized or has several data lines with a CR after the first |
| FrameLaws.SpoiledFrame | internal/proxy/sse.go:109-113 | in such a frame the CR becomes an LF |
| FrameLaws.CutEndsWhereItShould | internal/proxy/sse.go:56-60 | a frame has blank lines only at its very start and at its end, where there is one unless the stream ends |
| FrameLaws.ReadBackExactly | internal/proxy/pump.go:285-290 | a payload written as an event is read back as that event exactly when it has no LF, does not end in CR and fits the cap |
| FrameLaws.AllReadBack | internal/proxy/pump.go:285-290 | a stream of written payloads is read back as the same payloads in order |
| FrameLaws.SameLinesExactly | internal/proxy/sse.go:101-102 | the reader's lines are those of section 9.2.6 of the WHATWG HTML Standard exactly when every CR is right before an LF |
| FrameLaws.SameDataExactly | internal/proxy/sse.go:103-113 | the data of a frame is what that section dispatches exactly when no line is the word data without a colon |
| FrameLaws.SameEventButSpace | internal/proxy/sse.go:114-117 | the event name of a frame is that of the same section without the white space around it, lines that are the bare word event left out |
| FrameLaws.SameEventExactly | internal/proxy/sse.go:114-117 | where no line is the bare word, the two names are the same exactly when the standard's has no white space around it |
| FrameText.Trimmed | internal/proxy/sse.go:114-117 | trimming takes away the white space at both ends, all of it and nothing else |
| FrameText.DoneExactly | internal/proxy/sse.go:34-35 | a frame is the end marker exactly if its data is [DONE] with white space around it at most |
| FrameText.OversizedExactly | internal/proxy/sse.go:61-94 | a line is cut off exactly when it is longer than a mebibyte |
| FrameText.EndsAtBlankLine | internal/proxy/sse.go:58-86 | a frame ends at its first line of nothing but line ends, LF or CRLF, after those it begins with, and at the end of the stream without one |
| Pump.WriteChunks | internal/proxy/pump.go:171-201 | chunks are counted, and written up to the first failure and never after it; each write that went through is among those delivered, and the relay is cancelled exactly by a failure without draining |
| Pump.WriteTrailers | internal/proxy/pump.go:252-266 | the trailing chunks and then a [DONE] the stream did not have, each arriving if its own write works |
| Pump.LookForClient | internal/proxy/pump.go:118-150 | one look for each client still written to; one seen gone ends the relay unless draining is on and a slot can be had |
| Pump.PassFrame | internal/proxy/pump.go:159-205 | one frame is counted, observed, translated and written |
| Pump.Relay | internal/proxy/pump.go:99-212 | what is delivered is a prefix of the stream's course, all of it for a client that stayed while the stream ended or broke, followed by the trailers only if it ended; a client is seen gone exactly if a write of the relay failed or a look did not find it, and then has what the frames before its last look had, with part of the next frame only if it was there at that look; a stream read to its end gives the full usage, state and counts whatever the client did; nothing is written to a client seen gone |
| PumpLaws.TrailersArePrefixExactly | internal/proxy/pump.go:254-265 | what arrives of distinct trailers is a prefix of them exactly when failures are sticky |
| PumpLaws.DeliveredIsPrefix | internal/proxy/pump.go:117-211 | with sticky failures the client receives a prefix of what an undisturbed one receives, and all of it if no write fails |
| PumpLaws.RelayTo | internal/proxy/pump.go:99-212 | a whole relay delivers to a client with sticky failures a prefix of what an undisturbed one receives, and all of it to one that stays and whose writes work, whether the upstream ends or breaks |
| PumpLaws.SameDialectIsRelayed | internal/proxy/pump.go:216-234 | in the same dialect the client receives the bytes of each frame up to the [DONE] but for stripped usage chunks |
| PumpLaws.SameDialectByteForByte | internal/proxy/pump.go:216-234 | where nothing is stripped and every frame is intact, what is relayed is the stream itself up to its [DONE] |
| PumpLaws.WithoutStripping | internal/proxy/pump.go:216-234 | if the client asked for usage itself it receives every frame up to the [DONE] |
| PumpLaws.ObservedExactly | internal/proxy/pump.go:222-228 | in the same dialect the data of every usage chunk up to the [DONE] is observed, in order, stripped or not, and the faults are the oversized frames |
| EndMarker.FaultsExactly | internal/proxy/pump.go:159-170 | with a translator nothing is observed, and the faults are the oversized frames and the refused ones |
| PumpLaws.TranslatedEndsInOneDone | internal/proxy/pump.go:260-265 | of the chunks written for a translated stream whose provider sends no [DONE], the last and no other is one |
| ClientView.ReadAsWrittenExactly | internal/proxy/pump.go:268-283 | a client that reads what is written finds one frame for each chunk exactly when every chunk is a frame by itself |
| ClientView.AloneExactly | internal/proxy/pump.go:239-244 | a frame handed on as it came is one exactly when it is not oversized, not overwritten and ends in its blank line |
| Gluing.GlueAfter | internal/proxy/pump.go:261-265 | written after a frame without its blank line, an event or its first line becomes part of that frame |
| Gluing.TakingPart | internal/proxy/sse.go:103-113 | a frame that says something is not taken for the end marker because it took part of an event |
| Halves.HalvesAlone | internal/proxy/sse.go:109-113 | a frame handed on with an overwritten byte is read as two frames, cut at that byte |
| BrokenFrames.GluedIsRead | internal/proxy/pump.go:239-244 | a frame that is broken off is read together with part of the event after it, and not as the end marker |
| BrokenFrames.EventsAreRead | internal/proxy/pump.go:252-266 | the events after that, with or without the blank line left of the first, are read with their end marker once and last |
| EndMarker.TranslatedIsReadToTheEnd | internal/proxy/pump.go:236-266 | the client of a translated stream reads one frame for each chunk and one [DONE], the last, exactly when every frame relayed as it came is whole |
| MarkerReached.TranslatedEndsExactly | internal/proxy/pump.go:236-266 | where of the frames relayed as they came only the last may be oversized, and one that is broken off has no overwritten byte, the client reads exactly one [DONE], the last, exactly when no overwritten frame shows it one and the last thing sent before it is not broken off |
| MarkerReached.MarkerIsLost | internal/proxy/pump.go:239-244 | an upstream of which the client reads one event and no [DONE] |
| MarkerReached.MarkerComesEarly | internal/proxy/sse.go:109-113 | an upstream whose frame is not the end marker and of which the client reads one all the same, before the rest |
| ChatClient.AssembleAppend | internal/provider/stream_anthropic.go:11-16 | a client assembles a stream chunk by chunk |
| AnthropicStream.Translator.Translate | internal/provider/stream_anthropic.go:90-181 | each event changes the state and gives chunks as the translation says; one that cannot be parsed changes nothing |
| AnthropicStream.Translator.UsageChunk | internal/provider/stream_anthropic.go:214-229 | the usage block of the counts gathered, in 64-bit arithmetic |
| AnthropicStream.ToolCallsAreInTurn | internal/provider/stream_anthropic.go:122-158 | for any sequence of events tool calls are numbered from zero without gaps, no two blocks share a number, and every fragment belongs to a call opened before |
| AnthropicStream.TranslateResponse | internal/provider/anthropic.go:330-362 | the message of a whole response |
| AnthropicStream.StreamedIsWhole | internal/provider/stream_anthropic.go:90-181 | for every sequence whose blocks open in order and whose pieces of text commute with the text of later blocks, the client assembles the text, the calls in order with their input, and, if a stop reason came, the finish reason of the whole response |
| AnthropicStream.StreamKeepsUpExactly | internal/provider/stream_anthropic.go:138-150 | where blocks open in order, the client has the text of the whole message after every event exactly when each piece of text commutes with the text of the later blocks |
| AnthropicStream.SameBytesExactly | internal/provider/anthropic.go:338 | the arguments are the same bytes exactly when they were written compactly and are not empty |
| AnthropicStream.PromptTotalsAgreeExactly | internal/provider/stream_anthropic.go:221 | streamed and whole prompt totals agree exactly when the cache was not used |
| MessagesLaw.OutputIsTheLast | internal/provider/stream_anthropic.go:162-166 | the output of any stream is that of its last event that counts it |
| MessagesLaw.InputIsTheLast | internal/provider/stream_anthropic.go:101-110 | the input and cache counts are those of the last opening that has them |
| MessagesLaw.NameIsTheLast | internal/provider/stream_anthropic.go:101-103 | the name and model are those of the last opening |
| MessagesLaw.SeenExactly | internal/provider/stream_anthropic.go:162-175 | usage was reported exactly if an event counted it, and the stream closed cleanly exactly if one said so |
| MessagesLaw.UsageOfStream | internal/provider/stream_anthropic.go:214-229 | so the usage chunk of any stream: what went in, what came out, and their sum |
| MessagesLaw.ChunksAreStamped | internal/provider/stream_anthropic.go:232-243 | every chunk carries the name and model of the message, and those that open it the role |
| MessagesLaw.ChunksSay | internal/provider/stream_anthropic.go:112-170 | what each event makes the translator say |
| MessagesLaw.ReasonsAre | internal/provider/stream_anthropic.go:170-181 | the reasons of a stream and of a whole response are the same |
| MessagesLaw.InputsAre | internal/provider/anthropic.go:336-345 | a call keeps its id and name in a whole response, and has the empty object for an input that never came |
| GoogleStream.Translator.Translate | internal/provider/stream_google.go:76-136 | each frame changes the state and gives chunks as the translation says; one that cannot be parsed changes nothing |
| GoogleStream.Translator.UsageOf | internal/provider/stream_google.go:175-184 | the normalised counts of the usage kept, if it can be read |
| GoogleStream.Translator.UsageChunk | internal/provider/stream_google.go:189-212 | the usage block restated from those counts |
| GoogleStream.TranslateResponse | internal/provider/google.go:308-341 | text, finish reason and usage block of a whole response |
| GoogleStream.RoleIsOnTheFirstChunk | internal/provider/stream_google.go:215-222 | the assistant role is on the first emitted chunk and on no other |
| GoogleStream.StreamedIsSpoken | internal/provider/stream_google.go:100-127 | for any frames the client assembles the text of all parts that are not calls and all calls in order, numbered from zero without gaps |
| GoogleStream.SameTextExactly | internal/provider/google.go:308-313 | streamed and whole text are the same exactly when no part is both a call and text |
| GoogleStream.SameFinishExactly | internal/provider/stream_google.go:143-159 | the two finish reasons agree exactly when no tool was called and the reason is not one of three |
| GoogleStream.StreamedFinishExactly | internal/provider/stream_google.go:129-133 | so for the assembled message of a stream that ends in its reason |
| GoogleStream.SameMessageExactly | internal/provider/google.go:308-341 | the message assembled from such a stream is that of the whole response, text, calls and finish reason, exactly when no tool was called and the reason is not one of those three |
| GoogleStream.UsageIsTheLastGiven | internal/provider/stream_google.go:90-93 | the usage reported is the last one given, exactly when no later frame carried a usage field without a value; otherwise none is reported |
| GoogleStream.SameUsageExactly | internal/provider/stream_google.go:194-208 | the streamed usage chunk is the usage block of the whole response exactly when no more is cached than prompted and the output fits 64 bits |
| GeneratedLaw.IdIsTheFirst | internal/provider/stream_google.go:84-86 | the name of a stream is made of the first identifier given |
| GeneratedLaw.ModelIsTheLast | internal/provider/stream_google.go:87-89 | the model is the last one named |
| GeneratedLaw.NamesAre | internal/provider/stream_google.go:163-168 | the stream closed cleanly exactly if a frame said why it stopped |
| GeneratedLaw.PartSays | internal/provider/stream_google.go:100-127 | what each part makes the translator say |
| GeneratedLaw.ReasonsAre | internal/provider/stream_google.go:143-159 | the reasons of a stream and of a whole response |
| GeneratedLaw.UsageOfStream | internal/provider/stream_google.go:189-212 | the usage chunk in terms of the last usage given |
| EndToEnd.ClientReceives | internal/proxy/pump.go:236-266 | the bytes that an undisturbed client receives decode to exactly the chunks that the translator gives for the provider's frames, whatever unreadable whole frames are among them |
| EndToEnd.Serve | internal/proxy/stream_handler.go:72-90 | the same of a call of the relay, for a client that stays and whose writes work |
| EndToEnd.UnreadableAreRelayed | internal/proxy/pump.go:239-245 | the frames that a translator cannot read are relayed as they came, and beside oversized frames they are what is counted as a fault |
| EndToEnd.ObjectsNeverSayDone | internal/provider/stream_anthropic.go:232-243 | a translator that encodes its chunks as JSON objects never emits the end marker |
| EndToEnd.MessagesReachTheClient | internal/provider/stream_anthropic.go:90-181 | from the bytes of a Messages stream the client has, at its end marker, the text, the calls and the finish reason of the whole message |
| EndToEnd.GeneratedReachTheClient | internal/provider/stream_google.go:76-136 | from the bytes of a generateContent stream the client has the text of all parts that are not calls, and all the calls in order |
| Paging.CursorReadsBack | internal/store/queries.go:293-316 | a cursor is read back as the place it was made from |
| Paging.QueryRequests | internal/store/queries.go:218-289 | each refusal exactly when it applies; a page is the greatest remaining rows of the scope and range in order, with a cursor exactly when more remain |
| Paging.ShownAreServed | internal/store/queries.go:231-256 | a page holds rows of the time and, unless the caller is the master, of the key asked for only, latest first, and no more than asked for or a hundred |
| Paging.RemainingExactly | internal/store/queries.go:231-252 | which rows a listing is still to show |
| Paging.Select | internal/store/queries.go:255-256 | the greatest rows first, as many as asked for |
| Paging.WalkShowsExactly | internal/store/queries.go:245-252 | a walk shows exactly each wanted row that was in the table when the walk passed its place |
| Paging.WalkDescends | internal/store/queries.go:255-256 | over the whole walk rows come in strictly descending order |
| Paging.PresentRowsAreShownOnce | internal/store/queries.go:215-217 | every wanted row there from the start is shown exactly once, whatever is inserted |
| Paging.FixedWalkEnds | internal/store/queries.go:280-288 | on a table that does not change the walk ends after exactly as many pages as its rows fill |
| Paging.FollowedCursorsShowAll | internal/store/queries.go:215-217 | a client that follows the cursor strings sees every wanted row there from the start exactly once, in descending order, whatever is inserted |
| Paging.FollowedCursorsEnd | internal/store/queries.go:280-288 | on a table that does not change its cursors end after as many pages as the rows fill |
| Paging.ListAll | internal/store/queries.go:218-289 | calling again with the cursor of the page before lists exactly the wanted rows, in descending order |

## Left out

- Plumbing: HTTP servers and clients, headers, health and admin routes, metrics, logging, redaction, hashing and configuration.
- Parsers and encoders of JSON, base64 and UUIDs: parsed values are the inputs, and encoded chunks are values.
- Time: timeouts, backoff, jitter and drain durations are arbitrary choices; that drains are bounded by the semaphore is not claimed, because a failed write drains without a slot.
- Commits and batch writes with an unknown outcome: both happen or do not.
- The overflow of NUMERIC(20,10): amounts are unbounded, as is the decimal library's precision.
- Floating point in the guard band: the factor and the comparison are real numbers.
- The connection on which a refused reserve is diagnosed: the model reads the state in which the reserve was refused, not a later one.
- The second attempt of ReapExpired: a sweep that fails changes nothing, and trying again is another sweep.
- Deadlock.NoDeadlockWithoutUpdates: the claim is for states in which no limit change holds a key row, because with one it is false (`Deadlock.UpdateAndReserveDeadlock`).
- Unknown kinds and tiers in price rows: both are closed types; the order in which kinds are priced is arbitrary rather than sorted.
- The refusal of unpriced models on budgeted keys, which happens before a reserve, and which counts a stream is settled with.
- Estimate.EstimateBoundsCost: for a model name that is not an alias, because thresholds are looked up under the name as given and prices under the name it stands for; the handler resolves the name first (`Estimate.ResolvedStaysResolved`).
- Estimate.EstimateBoundsCost: for a response served by the model that was asked for and priced from the table that the estimate was made with; the handler prices what the provider says it served.
- Changes to the allowed models of a key: a key row changes only by its revocation.
- The error event that is added to a stream whose upstream broke.
- PumpLaws.TranslatedEndsInOneDone: says what is written, not what is read; `EndMarker.TranslatedIsReadToTheEnd` and `MarkerReached.TranslatedEndsExactly` say that.
- MarkerReached.TranslatedEndsExactly: not for an oversized frame that another relayed frame follows, because the client then reads that one without its first line; and not for one that is broken off and has an overwritten byte, because what follows that byte may be blank.
- The creation of a key as two INSERTs: nobody sees or locks its rows before they commit, so it is one step.
- Partial writes of a chunk: a write that fails delivers nothing of its chunk.
- White space around the end marker other than that of ASCII.
- Deletion of old usage records during a walk.
