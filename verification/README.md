# Verification of the credit proxy

This project models the credit proxy's money path and proves what it promises. A request of a
user is paid for by a *hold*: the gateway reserves an upper bound of its cost with the usage service,
relays the provider's stream to the client, and then settles the hold, by a commit of the real cost or
by a release. The usage service keeps balances, holds, a daily credit budget and daily request counts in
Redis; the ledger records what happened.

## The parts

- **The usage service.** `Redis` has the shared store and the atomic steps on it as functions of values.
  `UsageServer` has the scripts and handlers as the service runs them, in classes that update their
  fields, each proved equal to those functions. `Protocol` is the service as a transition system: any
  number of handlers in flight, each about to make its next Redis call, a clock, and keys that expire. A
  call may succeed, fail without effect, or take effect and lose its reply, and a handler may die between
  any two calls. Every run carries its history: what was granted, bought, counted, held, closed, lost to
  expiry, and leaked by faults. `UsageServer.HandlerIsRun` and
  `UsageServer.FaultyHandlerIsRun` connect the two views. `Outcomes` says what each handler answers and leaves
  behind when nothing comes between its calls, whatever befalls them.
- **What every run keeps.** `Conservation` (no credit appears or vanishes), `Budget` (the day's counter
  is exact), `Timing` (the 25 hour counter outlives its holds), `Solvency` (debts and overspending are
  the recorded overage and no more), `Settlements` and `Reordering` (one settlement, in any order of
  attempts), `Answers` (what callers are told is what happened), `Costs` (every balance, by what each
  reservation has cost), `AtomicBank` (every interleaving is a sequential history of a bank with atomic
  operations), `Admission` (a rush of equal requests ends the same way in every schedule), `Purchases` (a day's
  purchases are capped, and as many as are allowed are granted), `Limits` (runs that break without the assumptions, and how far the assumptions must
  go).
- **The gateway.** `Tokens` has the ceiling and the conversion to credits. `Adapter` turns provider
  chunks into events. `Gateway` runs a chat, streamed or buffered, or a generate call, with every
  upstream failure, undecodable frame, stuck client, client that leaves and refused settlement.
  `Charges` says what each kind of run charges, answers and records, in the numbers of request and provider. `Llmproxy` is
  the stream writer of the other upstream. `Traffic` puts any number of such runs on top of the transition
  system and concludes for the whole system. `RateLimiter` is the per-user token bucket with its eviction.
- **The wire.** `Sse` frames and reads events, and `Wire` shows that a stream cut at any byte is one of
  the deliveries that the gateway's results are about. `Aggregation` folds a delta stream into one
  response, as both aggregators do, and `Responses` says what the response says, in the words of the deltas.
- **Tool schemas.** `Schema` rewrites a JSON Schema for Gemini; `Meaning` gives JSON Schema its meaning
  (JSON Schema Core draft 2020-12, sections 8.2.3.1, 10.2.1.2, 10.3.1.1, 10.3.1.2 and 10.3.2.1) and proves under which
  conditions the rewritten schema accepts all that the original accepts, and exactly that.
- **The ledger.** `Ledger` is the insert-once table. `Audit` takes the rows that arrive from the gateway's runs,
  through the keys and the table of the ledger, and proves what they say about every balance in Redis.
  `Discrepancies` says of which runs the rows are right, and `LedgerLimits` has runs for which they are not.

`Sums` has the sums over maps and histories that the accounting is stated with, `Options` the type of values
that may be missing.

## Findings

Where the code does not do what it is meant to, the model follows the code; a lemma shows an input, and another
says for all inputs when it does.

- A commit above the hold always succeeds and can leave a negative balance (cmd/usage/main.go:65-66);
  docs/API.md:101 announces a 402. `Limits.DebtIsReachable` is such a run. `Limits.DebtExactly`: a commit that
  takes effect leaves a debt if and only if the balance and the hold together are less than what it charges.
  `Solvency.BalanceBound` says that a balance is never below minus the recorded overage, and
  `Traffic.GatewayIsSolvent` that the gateway's own runs cause none as long as the provider counts no more
  tokens than the ceiling.
- When the free grant fails after the budget was charged, the charge is not given back
  (cmd/usage/main.go:282-285). `UsageServer.CreateWithFaults`: whatever befalls each of its calls, a create
  handler leaves the day's total unchanged if and only if nothing was charged or the charge was given back, and it
  is given back only past the grant. `Limits.FailedGrantOvercounts` is a run in which it is not.
  `Solvency.CounterNeverTooLow` says that failures without effect only ever make the counter too high, and
  `Limits.LostReplyUndercounts` that a lost reply makes it too low.
- The day's counter is safe as long as handler time and TTL together stay within one hour
  (`Timing.InTimeRun`). docs/API.md names a TTL of 180 s; the chat route sends 600 s, which still fits
  (`Traffic.BriskIsPunctual`). Nothing in the usage service bounds the TTL that a caller asks for, and beyond
  3600 s a release recreates the expired counter, negative and without TTL (`Limits.LongHoldsBreakTheCounter`);
  `Limits.TtlLimitIsExact` says that 3600 s is exactly the limit.
- The ledger does not always explain the balances. `Audit.GatewayIsAuditable` is the equation that holds in every
  run, with any faults and whatever is lost; `Discrepancies.RowsAreRight` says that the rows of a gateway run are
  right if and only if none of four things befell it, and `Discrepancies.AuditHoldsExactly` when a user's balance is
  what the ledger says. The four things, and purchases:
  - The reservation is made on the client's own context (cmd/gateway/chat.go:122-137, cmd/gateway/main.go:203-218).
    When the client leaves meanwhile, or the answer is lost, the hold may be placed; the gateway neither settles nor
    reports it (`LedgerLimits.UnheardReservationMisleads`).
  - A release that is refused, because the hold has expired by then or the call failed, is still reported as a
    release (cmd/gateway/chat.go:372-383, cmd/gateway/main.go:252-259; `LedgerLimits.RefusedReleaseMisleads`).
  - A commit that takes effect, but whose answer is lost, is reported as failed (cmd/gateway/chat.go:389-400), and the
    ledger keeps the whole hold for it (`LedgerLimits.UnheardCommitMisleads`).
  - The event of the reservation is not sent, because the client has left, or is lost (cmd/gateway/chat.go:138-146),
    and the settlement is not reported either (`LedgerLimits.UnnotedHoldMisleads`).
  - A purchase whose answer is lost is minted and not recorded (`LedgerLimits.UnheardPurchaseMisleads`).

  Where every answer is heard and every event arrives, only refused releases are left
  (`Discrepancies.AuditWhenAllIsHeard`).
- handleGenerate settles and reports on the client's own context (cmd/gateway/main.go:252-291), unlike a chat
  (cmd/gateway/chat.go:366). `Gateway.AbandonedGenerate`: a client that leaves during the generation cancels the
  settlement, and its credits are gone when the hold expires. `Gateway.GenerateSettles`: a metered generate
  settles if and only if the client stays until the settlement, and is settled and reported if and only if it
  stays until the last event.
- A `usage` event without a usage block commits 0 credits and forwards the upstream's number
  (`Gateway.BlocklessUsageIsNotShown`; `Gateway.ReportedCommitIsShown` has the exact condition). The adapter never
  sends one. A usage block with a total of 0, as Ollama's client can send (cmd/llmproxy/ollama_chat.go:149-160),
  makes the chat free whatever it delivered; `Gateway.ZeroUsageIsFree` says that of the streams delivered whole and
  without an error, no others are.
- The schema rewriter can make a schema stricter when it drops `prefixItems` (`Meaning.PrefixIsRejected`), exactly if
  the rewritten `items` rejects a value that the tuple allows at one of the positions it can reach
  (`Meaning.PrefixItemsMakeItStricter`), and looser when an assertion stands beside a
  `$ref`, exactly if it does not imply the target's (`Meaning.OverriddenAssertionIsLost`).
  `Meaning.ParametersKeepMeaning` has the conditions under which it does neither.
- Rewriting a tool's parameters twice is not always rewriting them once: `Schema.SecondPassCanMove` is a cyclic
  definition with definitions of its own, and `Schema.SecondPassIsIdentity` has the exact condition.

## Model

| member | source | states |
|---|---|---|
| UsageServer.Counters.CountScript | cmd/usage/main.go:24-30 | the increment-under-limit script, on keys with deadlines, is the atomic step that the results about counters are about (`CountsPurchase` has it in numbers) |
| UsageServer.Server.BudgetScript | cmd/usage/main.go:37-44 | the budget script leaves the store and the reply of the atomic charge |
| UsageServer.Server.ReserveScript | cmd/usage/main.go:46-54 | refused exactly when the balance is too low; otherwise the balance pays and the hold is there with its date and TTL |
| UsageServer.Server.PayDifference | cmd/usage/main.go:65-69 | the balance moves by exactly the hold minus the actual cost, and not at all when they are equal |
| UsageServer.Server.CommitScript | cmd/usage/main.go:56-76 | verdict and new store of a commit are those of `Judge` and `Settle`, whatever the state of the hold |
| UsageServer.Server.ReleaseScript | cmd/usage/main.go:78-93 | the same for a release |
| UsageServer.Server.EnsureInitialCredits | cmd/usage/main.go:454-456 | a balance key that exists is left alone, a missing one gets the grant |
| UsageServer.Server.ReservationDay | cmd/usage/main.go:467-473 | the date stored with the hold, or none |
| UsageServer.Server.HandleCreateReservation | cmd/usage/main.go:225-312 | a malformed request is refused and changes nothing; any other ends in the store and with the answer of the transition system's handler, on every path, the error returns after each failed or unanswered Redis call included |
| UsageServer.Server.HandleCommit | cmd/usage/main.go:326-379 | the same for commits, with their answers |
| UsageServer.Server.HandleRelease | cmd/usage/main.go:381-407 | the same for releases |
| UsageServer.Server.HandlePurchase | cmd/usage/main.go:171-222 | the same for purchases, which do nothing while disabled; `UsageServer.PurchaseAlone` and `Outcomes.PurchaseWithFaults` say what that is |
| UsageServer.CreateAlone | cmd/usage/main.go:239-312 | each answer happens under exactly its condition; only success changes the day's total, the price and the holds, where the new one lasts the seconds asked for, or 120; a refusal for lack of credits gives the charge back |
| UsageServer.CreateWithFaults | cmd/usage/main.go:242-304 | with any fault on each of its calls, a create handler leaves the day's total unchanged exactly when nothing was charged or the charge was given back, and places the hold exactly when it was payable and the placing call took effect |
| UsageServer.SettleAlone | cmd/usage/main.go:351-378 | a settlement that runs alone is effective exactly on a live hold: then the user named is paid back what is not due, the charged day's total falls by as much, and the hash is kept for 24 hours with what was done; else nothing changes; answered with success exactly if effective or a repetition |
| UsageServer.PurchaseAlone | cmd/usage/main.go:185-222 | a purchase that runs alone is refused exactly if the user's count of the day has reached the limit, and then changes nothing; else the balance is what was there, or the initial credits, plus the purchase, the count is one higher, for 25 hours from the first, and nothing else changes |
| Outcomes.CreateAnswers | cmd/usage/main.go:242-312 | the answer of a create handler, whatever befalls each of its calls, by the first thing that fails |
| Outcomes.CreatePays | cmd/usage/main.go:281-305 | and the balances it leaves: the grant once it got so far, and the hold taken if it was placed, whether the handler heard so or not |
| Outcomes.CreateCounts | cmd/usage/main.go:24-44 | the counters it leaves: requests count unless the limit is reached, charges if the request succeeds, either for 25 hours from the first of its date |
| Outcomes.SettleWithFaults | cmd/usage/main.go:351-407 | a settlement with faults has the effect of the one without exactly if its second call was made and took effect, and is answered like it exactly if both calls went well |
| Outcomes.PurchaseWithFaults | cmd/usage/main.go:185-222 | a purchase with faults: its answer, the count that stays used up, the grant and the credits, by the calls that took effect |
| Outcomes.ViewAlone | cmd/usage/main.go:409-456 | asking for a balance gives a new user the grant, and changes nothing else |
| UsageServer.HandlerIsRun | cmd/usage/main.go:225-312 | handlers whose calls are made back to back in the transition system do what the handler code does |
| UsageServer.FaultyHandlerIsRun | cmd/usage/main.go:225-407 | the same for handlers any of whose calls fail, with or without effect |
| Protocol.SaneRun | cmd/usage/main.go:239-244 | in every run no two create handlers share an id, and no handler places a hold that exists, so the overwrite of a hash never happens |
| Protocol.AnythingMayHappen | cmd/usage/main.go:225-407 | the runs leave nothing out: in every state a well-formed request for a new reservation may begin, any handler may make its next call, with any fault, or die, and time may pass |
| Conservation.PlaceConserves | cmd/usage/main.go:46-54 | placing a hold moves credits from the balance into the hold and changes no group's worth |
| Conservation.SettleConserves | cmd/usage/main.go:56-93 | an effective settlement lowers the worth by exactly what it keeps |
| Conservation.CreditsConserved | cmd/usage/main.go:46-93 | over every run with any faults: balances, live holds, committed and forfeited credits equal grants plus purchases, for every group of users that settlements do not mix |
| Conservation.AllCreditsConserved | cmd/usage/main.go:46-93 | for all users together this needs no condition at all |
| Conservation.GrantedOnceRun | cmd/usage/main.go:454-456 | every user gets the free grant at most once, before any purchase or hold of theirs |
| Conservation.UserCreditsConserved | cmd/usage/main.go:205-217 | per user: the balance is the one grant plus purchases minus live, committed and forfeited credits |
| Budget.SettleBudget | cmd/usage/main.go:63-72 | a settlement replaces the hold in its day's counter by what is kept of it |
| Budget.BudgetExact | cmd/usage/main.go:264-305 | in every state of every run, with any faults and crashes, the counter equals live holds, committed, forfeited, charges in flight and leaked charges of the day |
| Timing.InTimeRun | cmd/usage/main.go:24-54 | handler time plus TTL within the hour of slack: every counter and hold has a deadline, every live hold ends before its day's counter, and an expired counter is never recreated |
| Timing.NothingOverdue | cmd/usage/main.go:24-54 | in every run no key of any kind is there at its deadline or after it |
| Solvency.BalanceBound | cmd/usage/main.go:63-69 | in every run a balance is at least minus what its user was charged beyond holds |
| Solvency.CounterCapped | cmd/usage/main.go:37-44 | in every run, with any faults and however late handlers are, a day's counter never passes its limit plus the day's recorded overage |
| Solvency.CappedRun | cmd/usage/main.go:37-44 | the same with the amounts of expired counters, for punctual runs: all that a date ever counted stays within its limit plus overage |
| Solvency.CounterOutlivesHolds | cmd/usage/main.go:46-72 | a counter that exists has a deadline past the day's horizon and shows the exact amount; without one the day has no live hold and no charge in flight |
| Solvency.SpendingBounded | cmd/usage/main.go:264-305 | real holds, spending, forfeits and charges in flight of a day stay within the limit plus overage, and the counter is never below them or negative |
| Solvency.CounterNeverTooLow | cmd/usage/main.go:281-294 | failed calls and crashes only make the counter too high, however late handlers are |
| Solvency.NothingLeaks | cmd/usage/main.go:264-305 | without faults nothing leaks, so the counter is exact to the credit |
| Solvency.RequestsCapped | cmd/usage/main.go:24-30 | over the whole run, whatever keys expire, a date admits at most the limit of requests |
| Solvency.RefusedForBudget | cmd/usage/main.go:37-44 | a request is refused for the budget exactly when live holds, spending, forfeits, charges in flight and leaks of the day, with its own credits, pass the limit; or when lost replies have made that sum negative |
| Purchases.PurchasesCapped | cmd/usage/main.go:185-217 | over the whole run, whatever keys expire and however often replies are lost, a user is credited on a date at most as often as purchases are allowed |
| Purchases.RefusedAtCap | cmd/usage/main.go:185-204 | in every run with any faults in which no handler waits more than an hour past its date before it counts, a call that is answered is refused exactly if the user's purchases that were counted on the date have reached the limit |
| Purchases.PurchasesGranted | cmd/usage/main.go:185-217 | of N purchases of one user on one date exactly min(N, limit) are granted and the rest refused, in every schedule without faults |
| Settlements.SettledAtMostOnce | cmd/usage/main.go:56-93 | an id is held at most once, and then is live, or settled once, or lost to expiry, never two of these |
| Settlements.ReadDateIsChargedDate | cmd/usage/main.go:351-358 | under any interleaving the date a settling handler read is the date that was charged |
| Settlements.RepeatIsAnswered | cmd/usage/main.go:56-93 | in every run, for 24 hours from an effective settlement and no longer, whatever happens meanwhile, repeating it is answered with success and the other kind refused; afterwards both are, and neither changes anything |
| Reordering.TriesCommute | cmd/usage/main.go:56-93 | two settlement attempts on different holds leave the same store in both orders |
| Reordering.OrderIsIrrelevant | cmd/usage/main.go:56-93 | orders that agree on each hold's own attempts leave the same store |
| Reordering.FirstWins | cmd/usage/main.go:57-62 | of all attempts on a hold at most one has an effect, the first that finds it live with its date |
| Reordering.OnlyWinnersCount | cmd/usage/main.go:56-93 | a batch of attempts leaves what its effective ones alone would leave |
| Reordering.NoWinnerOnceSettled | cmd/usage/main.go:57-60 | nothing attempted on a settled or missing hold has an effect |
| Reordering.AnyPermutation | cmd/usage/main.go:56-93 | settlements of different holds leave the same store in every permutation |
| Answers.AnswersAreTrue | cmd/usage/main.go:289-312 | in every run: Created is answered only to requests whose holds were placed, for the user and the credits asked, Settled only where a settlement of its kind took effect, and purchases answered are no more than what was minted; all holds and settlements had been asked for; and where no reply is lost, each was answered, and purchases answered are exactly what was minted |
| Costs.HistoryIsWellKept | cmd/usage/main.go:46-93 | in every run an id is held once and closed at most once, after and exactly as it was held |
| Costs.CostOf | cmd/usage/main.go:63-93 | what a reservation has cost its user: nothing before it is held, its hold until it is closed, then what was kept |
| Costs.BalanceByCosts | cmd/usage/main.go:46-93 | a balance is the grant plus purchases minus the costs of the user's reservations, in every run |
| AtomicBank.RefinesAtomicBank | cmd/usage/main.go:225-407 | every punctual interleaving of handlers is a legal history of a bank with atomic reserve, commit, release, forfeit, purchase and grant, with the same balances and open holds, and what the handlers answered is that history; the bank's reserve allows the day its limit plus the overage charged on it so far |
| AtomicBank.RefinesStrictBank | cmd/usage/main.go:225-407 | where settlements keep no more than their holds, the bank has no slack: reserve stays within the day's limit and commit within the hold |
| Admission.AdmissionIsScheduleFree | cmd/usage/main.go:37-44 | N equal reservations on one day end with exactly min(N, L / a) successes and the counter at that times a, in every schedule |
| Limits.LongHoldsBreakTheCounter | cmd/usage/main.go:78-93 | a hold longer than the slack lets a release recreate the counter at -1 without a TTL |
| Limits.TtlLimitIsExact | cmd/usage/main.go:242-304 | with handlers that take no time, every counter keeps expiring in every run if and only if no TTL is above 3600 s |
| Limits.DebtExactly | cmd/usage/main.go:63-69 | a commit that takes effect leaves a debt exactly when it charges more than balance and hold together |
| Limits.DebtIsReachable | cmd/usage/main.go:65-66 | a run in which a commit above the hold succeeds and leaves any debt |
| Limits.FailedGrantOvercounts | cmd/usage/main.go:282-285 | a run in which the grant fails and the day stays charged for no hold |
| Limits.LostReplyUndercounts | cmd/usage/main.go:289-294 | a placed hold whose reply is lost is live but no longer counted |
| Tokens.CreditsCover | pkg/tokens/tokens.go:31-39 | the smallest number of credits that covers the tokens, zero exactly for no tokens |
| Tokens.CreditsMonotone | pkg/tokens/tokens.go:27-39 | more tokens never cost fewer credits |
| Tokens.HoldIsLeast | pkg/tokens/tokens.go:17-39 | the hold is the least number of credits that covers a token for each byte of input, 32 more, and the whole output |
| Tokens.CeilingOfLess | pkg/tokens/tokens.go:17-24 | without input nothing is counted for it, and an output cap that is not positive adds nothing |
| Adapter.StreamEvents | services/litellm_adapter/app/provider.py:228-303 | the deltas before the first exception, then an error; or all deltas, usage if the last total is positive, and done. The next rows say what that is, by the provider's chunks |
| Adapter.StreamCarries | services/litellm_adapter/app/provider.py:239-275 | the texts of a stream, put together, are the contents of the chunks up to and including the first that raises, its tool deltas are these chunks' calls in order, and no text event is empty |
| Adapter.ChunkInPlace | services/litellm_adapter/app/provider.py:248-273 | each such chunk's events stand behind those of the chunks before it: its text, if it has any, then its calls, one event each |
| Adapter.StreamEnds | services/litellm_adapter/app/provider.py:274-290 | a stream in which nothing raised ends in done with the finish reason given last, normalized, and before that in the usage given last, exactly if its tokens are positive |
| Adapter.StreamFails | services/litellm_adapter/app/provider.py:291-303 | otherwise it ends in the error of the first item that raises |
| Adapter.StreamFollowsGrammar | services/litellm_adapter/app/provider.py:239-303 | every trace is delta* (usage? done or error), an error exactly when something raised, usage exactly for a positive last total |
| Adapter.Buffer | services/litellm_adapter/app/main.py:151-168 | fails exactly when the stream has an error event, with the code of the first; otherwise the total of the first usage event, 0 without one |
| Adapter.ServeStream | services/litellm_adapter/app/main.py:54-75 | an HTTP error if the provider's stream, or its first chunk, raises; otherwise a stream that carries the provider's chunks as the rows above say |
| Gateway.RelayEvents | cmd/gateway/chat.go:166-225 | the relay loop leaves the flags, the written frames and the failure that the events it saw call for |
| Gateway.StreamChat | cmd/gateway/chat.go:166-272 | relay, settlement and closing frame together, for every upstream and client |
| Gateway.BufferedChat | cmd/gateway/chat.go:278-301 | the buffered route: an HTTP error or the reported total, and the same settlement |
| Gateway.Generate | cmd/gateway/main.go:250-313 | commit what was reported, release on failure, report a refused commit; and for a client that leaves, no call and no ledger event from then on |
| Gateway.OneSettlement | cmd/gateway/chat.go:348-414 | once its reservation was answered, a chat with a hold makes exactly one settlement call and writes exactly one terminal ledger event about the same credits, also when the client leaves at any point from then on; an unmetered chat makes no call |
| Gateway.GenerateSettles | cmd/gateway/main.go:250-291 | a generate with a hold settles exactly when the client stays until the settlement, and settles with its one terminal ledger event exactly when it stays until that event; a BYOK generate makes no call |
| Gateway.AbandonedGenerate | cmd/gateway/main.go:252-273 | a client that leaves during the generation: no settlement call and no terminal event, where a chat makes its call |
| Gateway.ReleasedMeansNothingDelivered | cmd/gateway/chat.go:366-384 | a hold is released only if no text and no tool call reached the client |
| Gateway.RelayIsFaithful | cmd/gateway/chat.go:183-225 | the client gets the upstream's events in order and without a gap, with nothing changed but credits, and at most the gateway's own error after them |
| Gateway.ReportedCommitIsShown | cmd/gateway/chat.go:194-203 | a reported commit is the number in the last usage frame the client got, exactly when the last usage event carried a usage block or happened to name the amount |
| Gateway.BlocklessUsageIsNotShown | cmd/gateway/chat.go:194-203 | without a usage block the commit is 0 and the frame shows something else |
| Gateway.ChargeOfDelivery | cmd/gateway/chat.go:348-387 | the charge, from what part of the trace was delivered: reported usage, the whole hold, or nothing |
| Gateway.StreamsEndProperly | cmd/gateway/chat.go:251-271 | every opened stream of a client that stays ends in done or error, and in error whenever the relay failed, by a broken transport or by a frame that is no event |
| Gateway.StreamChargeInRange | cmd/gateway/chat.go:118-119 | however the stream is delivered, a run that is not released is charged at least 1 when usage is reported with positive totals only, as the adapter does, and at most its hold when the provider counts no more than a token for each byte of input, 32 more, and the output cap |
| Gateway.ZeroUsageIsFree | cmd/llmproxy/ollama_chat.go:149-160 | a stream delivered whole is free exactly when it reports a total that is not positive |
| Gateway.BufferedWithinHold | cmd/gateway/main.go:204-205 | with the same bound on what the provider counts, buffered chat and generate commit at most the hold, and a buffered chat that is not released at least 1 |
| Gateway.UsageOnce | services/litellm_adapter/app/provider.py:276-284 | a clean stream's only usage event is both what the stream settles and what a buffered call reads |
| Gateway.StreamAndBufferedAgree | cmd/gateway/chat.go:278-301 | an error-free stream delivered whole is settled alike on both routes |
| Gateway.ReleasedWithoutDelta | cmd/gateway/chat.go:366-384 | from the provider's chunks through the adapter to the settlement: the hold is released exactly when the stream could not be opened, or an item raised and neither it nor one before it had text or tool calls |
| Charges.HoldIsWorth | cmd/gateway/chat.go:118-119 | what the gateway reserves is the least number of credits for a token for each byte of input, 32 more, and the whole output |
| Charges.BufferedCharge | cmd/gateway/chat.go:278-301 | a metered buffered chat: an HTTP error and a release if the upstream failed, else charged the tokens reported, or its hold if none were, with the ledger events that say so |
| Charges.GenerateCharge | cmd/gateway/main.go:249-300 | a metered generate whose client stays: released on failure, else charged the tokens reported; an HTTP error exactly if the upstream failed or the commit was not accepted; with its ledger events |
| Charges.GenerateWithout | cmd/gateway/main.go:251-291 | a client that leaves takes away from that the calls and events from then on, and nothing else |
| Charges.OwnKeyGenerate | cmd/gateway/main.go:266-300 | a generate with the user's own key makes no call and writes one event, with the credits its tokens are worth, exactly if it succeeds |
| Charges.UnmeteredChat | cmd/gateway/chat.go:348-364 | a chat that is not metered makes no call and writes the one event of its kind, on either route and whatever happens, if the client stays until then |
| Charges.RefusedChat | cmd/gateway/chat.go:227-257 | an upstream that refuses: an HTTP error, no frame, and the hold released |
| Charges.StreamCharge | cmd/gateway/chat.go:366-414 | a metered stream, from what part of its trace was delivered: the tokens reported, its hold, or nothing, with the ledger events that say so |
| Charges.OwnError | cmd/gateway/chat.go:251-271 | the gateway's own error is the last frame exactly after a relay that failed once the stream was open, without an error in it, for a client that stays until then |
| Charges.StuckRelay | cmd/gateway/chat.go:208-222 | a client that stops reading gets the frames before that, and the gateway counts the one it could not write |
| Llmproxy.StreamChat | cmd/llmproxy/chat.go:89-144 | what the caller is served, from the provider's events and the way its call ended |
| Llmproxy.ServesTraces | cmd/llmproxy/chat.go:116-144 | a stream served to its end is a trace, what the provider emitted and after it an error exactly when the provider failed after output, or a done alone when it emitted nothing; a failure before output is an HTTP error; a client that left gets nothing more |
| Llmproxy.ReleasedWithoutOutput | cmd/llmproxy/chat.go:85-88 | relayed by the gateway, the hold is released exactly when the provider failed before any output |
| Traffic.PlannedTrafficIsSolvent | cmd/usage/main.go:63-72 | when settlements name their hold's user and keep no more than it, no balance is ever negative and no day passes its limit, in every run |
| Traffic.SessionStaysWithinHold | cmd/gateway/chat.go:118-133 | the three kinds of gateway run commit at most what they hold, if the provider counts no more than a token for each byte of input, 32 more, and the output cap |
| Traffic.SessionStarts | cmd/gateway/chat.go:120-137 | a run that needs a reservation does nothing without one, or for a client that left before it was told; any other does all of the above |
| Traffic.SessionHolds | cmd/gateway/chat.go:127-132 | the hold of a chat lasts ten minutes, that of a generate three |
| Traffic.SessionSettles | cmd/gateway/chat.go:348-414 | what the three kinds of run have in common: at most one call and one closing event, and exactly one of each for a metered run whose client stays as long as its route needs it |
| Traffic.BriskIsPunctual | cmd/gateway/chat.go:127-132 | the TTLs that the gateway sends leave create handlers 3000 s |
| Traffic.GatewayIsSolvent | cmd/gateway/chat.go:166-272 | any number of gateway runs over the usage service, with any faults: no user in debt, every user's balance is their grant plus purchases minus live, committed and forfeited credits, and no day over its budget |
| Traffic.GatewaySeesAtomicBank | cmd/usage/main.go:225-407 | for the gateway's own runs, with brisk handlers and no lost replies, the interleaved service is an atomic bank without slack, whose history is what the gateway was answered |
| Wire.BytesDeliver | pkg/httpx/httpx.go:192-207 | a stream cut at any byte gives the relay a beginning of the trace and at most one undecodable frame |
| Sse.Read | pkg/httpx/httpx.go:192-207 | the line loop returns the payloads of `Parse`, or gives up at a line beyond the frame bound |
| Sse.PayloadOfLine | pkg/httpx/httpx.go:195-202 | a data line with a beginning of a payload yields that beginning without trailing white space |
| Sse.PayloadInside | pkg/httpx/httpx.go:195-202 | white space around a data line and around its payload does not count, and a payload of nothing else is skipped |
| Sse.OtherLines | pkg/httpx/httpx.go:196-198 | other fields, comments and blank lines carry nothing |
| Sse.LongLine | pkg/httpx/httpx.go:192-207 | a line shorter than 1048576 bytes is read, and at any other the reader gives up, with the payloads before it |
| Sse.RoundTrip | cmd/llmproxy/chat.go:96-114 | reading a written list of payloads gives that list |
| Sse.CutStream | pkg/httpx/httpx.go:192-207 | reading any byte prefix gives a prefix of the list, and at most one proper piece of the next payload |
| Aggregation.Collect | cmd/llmproxy/chat.go:157-190 | the fold over two builders and maps is the concatenated text and the fold of each index's own deltas; `Responses.FoldSays` says what that is |
| Aggregation.BufferChat | cmd/llmproxy/chat.go:148-234 | the loop's response is the one that `Responses.GoAnswers` is about |
| Aggregation.Chat | services/litellm_adapter/app/main.py:151-193 | the loop's response is the one that `Responses.PythonAnswers` is about |
| Aggregation.AnyInterleaving | cmd/llmproxy/chat.go:157-190 | streams with the same text and the same deltas per index collect to the same response |
| Aggregation.NeighboursCommute | cmd/llmproxy/chat.go:167-190 | events that are not both text and not of one call may change places |
| Aggregation.TextSplits | cmd/llmproxy/chat.go:168-169 | a text fragment may arrive in two pieces |
| Aggregation.CallSplits | cmd/llmproxy/chat.go:170-187 | an arguments fragment may arrive in two pieces, with or without id and name again |
| Aggregation.PartsInOrder | cmd/llmproxy/chat.go:205-230 | of every response, with or without tool calls: one text part first exactly if there is text, then exactly one part per index in strictly increasing order, and nothing else |
| Responses.FoldSays | cmd/llmproxy/chat.go:170-187 | a tool call has the id that was given last by a delta of its index, the name that was given last, and the arguments of all its deltas put together |
| Responses.GoAnswers | cmd/llmproxy/chat.go:148-234 | a failure exactly when the provider's call failed, an error event came, or a call's arguments are not JSON; otherwise all the text in one part if there is any, and one part for each index in increasing order, with the id and name given last, and the arguments read, or none where none came |
| Responses.PythonAnswers | services/litellm_adapter/app/main.py:151-193 | a failure exactly on an error event; otherwise the same parts, where missing arguments are read as an empty object and ones that are not JSON stay as they came |
| Responses.AggregatorsAgree | services/litellm_adapter/app/main.py:183-193 | where all arguments are given and well formed, both aggregators give the same response |
| Schema.Rewrite | cmd/llmproxy/gemini_chat.go:331-386 | terminates on every input, cyclic definitions included, and maps objects to objects, so the branch for anything else is unreachable |
| Schema.RewriteChildren | cmd/llmproxy/gemini_chat.go:357-381 | the schema positions of the result are the rewritten positions of the input, and no property name is lost |
| Schema.SupportedAreKeywords | cmd/llmproxy/gemini_chat.go:295-318 | the rewriter's list is the 22 keywords that the results below are about, written out again by what they are for |
| Schema.ReferencesLead | cmd/llmproxy/gemini_chat.go:388-395 | a reference is a string under $ref, and leads to the definition whose name follows #/$defs/, exactly if there is one and it is an object |
| Schema.KeywordsSurvive | cmd/llmproxy/gemini_chat.go:340-386 | keywords that Gemini understands and that hold no schemas keep their values, and beside a reference all of them do; a reference is replaced by all its target becomes, up to eight in a row, or the object left as it is; and no other keyword is left |
| Schema.SiblingsDecide | cmd/llmproxy/gemini_chat.go:350-353 | a resolved reference is clean exactly when the sub-schemas beside it are, unless it stays a reference |
| Schema.RewriteCleans | cmd/llmproxy/gemini_chat.go:331-386 | every schema position of the result holds only keywords that Gemini understands, or a reference left in place |
| Schema.CleanStays | cmd/llmproxy/gemini_chat.go:331-386 | a clean schema without definitions is left as it is |
| Schema.LandingShows | cmd/llmproxy/gemini_chat.go:331-353 | the rewritten object is a reference exactly when the chain of references ends at one that is left in place, and then shows that one's reference and definitions |
| Schema.SecondPassIsIdentity | cmd/llmproxy/gemini_chat.go:322-386 | for tidy parameters, rewriting twice is rewriting once if and only if following the root's references does not end at an object that is left in place and whose reference its own definitions resolve |
| Schema.SecondPassCanMove | cmd/llmproxy/gemini_chat.go:331-345 | a definition that refers to itself and defines its own name again is rewritten again by a second pass |
| Meaning.FuelDoesNotMatter | cmd/llmproxy/gemini_chat.go:320-345 | where references resolve acyclically within the depth limit, eight unfoldings decide the meaning |
| Meaning.RewriteRelaxes | cmd/llmproxy/gemini_chat.go:331-386 | at every position, what the original accepts the rewritten schema accepts |
| Meaning.RewriteKeeps | cmd/llmproxy/gemini_chat.go:331-386 | and conversely, for all schemas over those keywords with only annotations beside references |
| Meaning.ParametersKeepMeaning | cmd/llmproxy/gemini_chat.go:322-395 | both, for a tool's parameters with their own definitions and any instance, and the result needs no definitions |
| Meaning.PrefixItemsMakeItStricter | cmd/llmproxy/gemini_chat.go:358-381 | for a tuple of any length with items, with prefixItems read by position: dropping it keeps all that was accepted if and only if the rewritten items accept whatever the tuple allows at each position that can be reached |
| Meaning.PrefixIsRejected | cmd/llmproxy/gemini_chat.go:358-381 | a tuple and an instance that is accepted before and rejected after |
| Meaning.OverriddenAssertionIsLost | cmd/llmproxy/gemini_chat.go:350-353 | an assertion beside a reference replaces the target's, which lets nothing new in if and only if it implies the target's |
| RateLimiter.RateOf | cmd/gateway/main.go:463-473 | a full bucket is earned within a minute, for every setting |
| RateLimiter.UserRateLimiter.Allow | cmd/gateway/main.go:475-502 | a call's decision and the buckets it leaves, evicted ones gone |
| RateLimiter.OnlyRecentStay | cmd/gateway/main.go:484-499 | after a call there is a bucket for its user and for those seen within ten minutes, and no other |
| RateLimiter.EvictionIsTransparent | cmd/gateway/main.go:495-499 | every call of every sequence is decided as by a limiter that never drops a bucket |
| RateLimiter.RateIsKept | cmd/gateway/main.go:463-502 | with n requests a minute, 10 by default: between two moments a user gets through at most n and what was earned in between, one for each n-th of a minute, in spite of evictions |
| RateLimiter.PatientUserIsServed | cmd/gateway/main.go:463-502 | a user whose last call is an n-th of a minute ago is let through |
| RateLimiter.BurstPasses | cmd/gateway/main.go:463-502 | of a new user's calls at one moment, exactly the first n pass |
| Ledger.Server.HandleEvent | cmd/ledger/main.go:90-114 | refused exactly without key or user; else the first row under a key stays, and is the one that is answered |
| Ledger.RowsStay | cmd/ledger/main.go:100-105 | a recorded row never changes |
| Ledger.ReplayChangesNothing | cmd/ledger/main.go:100-105 | delivering events under known keys, any number of times, leaves the table unchanged |
| Ledger.DeliveryOrderIsIrrelevant | cmd/ledger/main.go:100-105 | with distinct keys the order of delivery does not matter |
| Audit.EntriesAreConsistent | cmd/gateway/chat.go:351-413 | under distinct idempotency keys of the requests, no two different ledger events of the runs and purchases share a key |
| Audit.KeysBySteps | cmd/gateway/chat.go:351-413 | two ledger events of one run share a key exactly if both are about its reservation, its commit, its release or its failed commit; and what each says |
| Audit.DeliveredIsWritten | cmd/ledger/main.go:100-105 | delivered in any order and any number of times, the events leave a table that holds what each run and purchase wrote, and nothing else |
| Audit.LedgerStates | cmd/gateway/chat.go:366-413 | what the ledger says a user spent and still holds is the sum of what the rows that arrived of each run of the user state |
| Audit.CostOfRun | cmd/usage/main.go:46-93 | in every run, a gateway run costs its user nothing without a hold, the hold until its one settlement call takes effect, and then what that keeps |
| Audit.GatewayIsAuditable | cmd/gateway/chat.go:366-413 | for any number of chats and generates, over any run of the usage service with any faults, and whatever clients leave and answers or ledger events are lost: the balance in Redis is what the ledger says, plus what the rows of the user's runs misstate, plus the purchases that are not recorded |
| Discrepancies.StatedByRun | cmd/gateway/chat.go:138-146 | over all routes, clients and losses, what the rows of a run that arrive say it costs: what its settlement keeps if that is reported, else the hold if that is noted, else nothing |
| Discrepancies.RowsAreRight | cmd/gateway/chat.go:366-413 | the rows of a run are right if and only if it had no hold the gateway never heard of, no false release, no unreported settlement of another amount and no unreported hold; and which way and by how much they are wrong otherwise |
| Discrepancies.AuditHoldsExactly | cmd/gateway/chat.go:366-413 | a balance exceeds what the ledger says by the understated runs and the unrecorded purchases less the overstated runs, and each side is nothing exactly if none of the user's runs is of its kind; so the ledger explains the balance if and only if the sides are equal |
| Discrepancies.AuditWhenAllIsHeard | cmd/gateway/chat.go:366-413 | where every answer is heard and every event arrives, the ledger explains a user's balance if and only if none of the user's releases was refused, and never says less |
| LedgerLimits.UnheardReservationMisleads | cmd/gateway/chat.go:122-137 | a run whose client leaves during the reservation: Redis has a credit less than the ledger says |
| LedgerLimits.UnheardCommitMisleads | cmd/gateway/chat.go:389-400 | a run whose commit is not heard of: Redis has a credit more than the ledger says |
| LedgerLimits.UnnotedHoldMisleads | cmd/gateway/chat.go:138-146 | a run whose reserve event is lost and whose settlement fails: Redis has its hold less than the ledger says |
| LedgerLimits.RefusedReleaseMisleads | cmd/gateway/chat.go:372-383 | a run whose release is refused: Redis has a credit less than the ledger says |
| LedgerLimits.UnheardPurchaseMisleads | cmd/gateway/main.go:374-388 | a purchase that is not heard of: Redis has a credit more than the ledger says |

## Assumptions of the results

- Reservation ids are fresh, as `ids.New` makes them (`Protocol.Admissible`). The usage service would
  overwrite a hold whose id is used again.
- Where a result needs them, its statement names: handlers that are in time (`Timing.Punctual`,
  `Traffic.Brisk`), no lost replies (`Budget.NoLostReply`), settlements that name the hold's own user
  (`Conservation.OwnSettlements`, which `Traffic.GatewayIsSolvent` proves of the gateway), and a provider that
  follows the event grammar and stays within the ceiling (`Traffic.Session.Fair`).
- The audit's are in `Audit.Audited`: distinct idempotency keys of the runs and purchases. `Discrepancies.ToldTruly` and
  `Discrepancies.BoughtTruly` add that the gateway is told of no success that was not answered; what it is not told, and
  what does not arrive at the ledger, is covered. `Discrepancies.AuditWhenAllIsHeard` is the special case
  without losses.
- Scripts are atomic, keys expire at their deadline, and the clock ticks in milliseconds, as Redis's expiry does. One
  clock gives both the dates that handlers read and the expiry of keys: what the clocks of service and Redis differ
  by is taken from the hour of slack.
- A Redis call takes effect at most once. The Go client may repeat a command after a network error, and a script
  that had taken effect would then take effect again; no result covers that.

## Left out

- Number widths: amounts are unbounded integers; int64 and the doubles of Lua agree with them below 2^53.
- The `reserved` field that a commit adds to the hash: nothing reads it.
- Schema.Rewrite: works on values. The code writes siblings into `resolved`, which is the definition itself when a target is in turn a reference left in place; later uses of that definition then see those siblings.
- Meaning.ParametersKeepMeaning: says nothing about cyclic definitions, which the rewriter cuts at depth 8, or about reference names with JSON pointer escapes, or about schemas with `$id` below the root, which change what a reference resolves against.
- Sse.Read: trims ASCII white space only; JSON payloads begin and end with braces. Buffer growth and the difference between the end of a body and a broken one are left to the transport.
- Aggregation.Chat: keeps provider, model, finish reason and provider metadata out; so does Aggregation.BufferChat, with usage and credits. Events without the tool call or the error that they announce, which the code skips or takes for none, are not modelled.
- RateLimiter.EvictionIsTransparent: the token bucket of golang.org/x/time/rate is modelled in whole nanoseconds, not in floating point.
- Audit.GatewayIsAuditable: rows of other senders, such as provider validations, are not in the ledger it is about; they move no credits.
- Gateway.StreamChat: provider, model and feature reporting fields, HTTP status codes and the texts of errors are left out.
- Admission of requests by the gateway: authentication, the kill switch, route aliases, limits on prompt size.
- Llmproxy.StreamChat: a write that fails is a client that left; how providers produce their events is not modelled.
- Provider clients, the mocks, the catalog, the admin routes and the reports: foreign calls, fixed tables, or SQL.
