# EscrowPay, verified

A Dafny model of EscrowPay's backend: the pocket state machine, the database writes around it, the
protocol that pays settlement legs through a bank that may ignore idempotency keys, the funding and clock
paths that race into the same writes, and the two arithmetic cores (the rate limiter and the kobo/naira
conversion). `dafny verify dfyconfig.toml` checks everything.

How it is laid out, from the bottom up:

- `Int64`, `Pocket` (modules `Results`, `PocketMachine`): int64 with its wrap-around; the aggregate and
  `Transition`, event by event.
- `Records` (with `LegStatus`): one pocket's rows in every table, each transaction as a function from the
  rows it reads to the rows it commits, and `Exec`, every write the application can make behind its role gate.
- `History`, `Invariants`, `Runs`: folds over the audit log, the invariant of a pocket's rows table by
  table, and the proof that every write and every sequence of writes keeps it.
- `UseCases`: a table of its own for every write: who may, from which state, with which error, and the rows left;
  `Exec` is proved to follow it.
- `Guarantees`, `Drafts`, `Lifetime`, `Persistence`, `Serial`: what follows for every reachable pocket.
- `Witnesses`: runs that exist, one for each case that makes an exact condition necessary.
- `System`, `Protocol`, `Composition`, `Cancellation`: the whole system as a step machine over any number of
  pockets, disbursing workers, funding ingesters and cancelling users, with the bank's ledger. A step is one
  statement, one transaction or one message, so a sequence of steps is an interleaving, and a worker may crash
  between any two of them.
- `Store` (module `Database`), `Gateway` (`Boundary`), `Disbursal`, `App` (`Application`): the same code in
  its imperative form, classes whose fields change, each method proved against the functions of `Records` and the
  tables of `UseCases`. The clock and the gateway keep a record of every reading, submission, query and order, and
  a method's contract speaks of what its call added to them.
- `Naira`, `Nomba`, `RateLimit`: the decimal codec, the bank client's error classes and retry, the token bucket.

Assumptions about the outside. The database runs each statement atomically and keeps its CHECK, UNIQUE and
foreign-key constraints. The bank's answers and notices are truthful. A definitive rejection (4xx other than
408 and 429, a business code, status REFUND) or a failure to connect means that no money moved or that it was
sent back. A success means that the bank has taken the transfer on: status SUCCESS that it has executed it, NEW,
PENDING_BILLING or any other that it still may, or may send it back, as a payout notification then reports. Any
other answer leaves everything open. It notifies only about transfers it received, though a notice may come late.
So a confirmed leg is one the bank took on, and the exact totals are stated for pockets with nothing taken on and
unexecuted, and nothing sent back. A run may hand any instant to any step; only statements that say so need a
clock that does not run backwards. Instants and durations are integers in nanoseconds and "zero time" is `None`.

Where the code and its comments differ, the code is modelled, the exact condition proved, and a run shown in which
the claim fails:

- Settlements do not come only from DELIVERED_PENDING: `SettlesFromDeliveredIff`, `SomePocketIsForcePaid`.
- A brokered buyer may be ahead of the vendor on a converted pocket: `BuyerAheadOfVendorIffConverted`,
  `SomeBuyerIsAhead`.
- A non-vendor can refund a FUNDED pocket when its cancel read the pocket before it was funded:
  `NonVendorRefundsIffFundedInBetween`, `NonVendorRefundsReadEarlier`, `TheRaceHappens`.
- A window under a minute is agreed but refused at the last acceptance, and one that is not whole minutes is cut:
  `LastAcceptanceSucceedsIff`, `SomeLastAcceptanceFails`, `WindowsAreKeptIff`.
- With a zero policy duration a launched pocket differs from its stored row: `LaunchSurvivesReloadIff`,
  `SomeLaunchIsNotReloaded`.
- The limiter's eviction can be observed: `EvictionUnobservableIff`, `UncoveredBreaksBoth`.

## Model

| member | source | states |
|---|---|---|
| Composition.EachLegMovesAtMostOnce | backend/internal/pocketapp/effects.go:161-217 | In every interleaving of workers, sweeps, bank verdicts and notices, with crashes anywhere: at most one transfer of a leg is ever let through, so it executes at most once; exactly one stands behind a confirmed leg, executed unless the bank has yet to or sent it back; a pending or unknown leg has none, executed or on the wire; no two workers hold one leg |
| Composition.MoneyIsConserved | backend/internal/store/settlements.go:29-62 | In every reachable system state the bank has paid out for a pocket at most its buyer total, nothing before funding, never both payout and refund; with all legs confirmed, and no transfer of the pocket taken on and unexecuted or sent back, exactly total minus premium if SETTLED, the whole total if REFUNDED |
| Composition.FundingHappensOnce | backend/internal/pocketapp/ingest.go:152-189 | However webhooks, redeliveries, pull verification and the sandbox shortcut interleave: at most one credit is logged, exactly the states at or past FUNDED have one, a notification marked processed did fund its pocket, and no stated amount below the buyer total was ever credited |
| Composition.EveryRunKeepsInvariants | backend/internal/store/executor.go:239-261 | Every run of the system keeps the claim-protocol invariant, every pocket's row invariant and the funding invariant |
| Composition.StandingCount | backend/internal/pocketapp/effects.go:161-169 | With at most one live transfer per leg, the transfers not refused outright are at most one, none exactly when all were refused, and an acknowledged and cleared one was executed |
| Protocol.NextKeepsSafe | backend/internal/store/settlements.go:125-196 | Inductive invariant of the claim protocol: one transfer per leg not definitively refused, ledger amounts are recorded amounts, pending legs have nothing live, confirmed ones were taken on, each holder's knowledge is right and holders are disjoint |
| Protocol.SubmissionKeepsSafe | backend/internal/pocketapp/effects.go:181-194 | Submitting from a claim cannot create a second live transfer |
| Protocol.VerdictKeepsSafe | backend/internal/gateway/nomba/transfers.go:71-80 | The bank refusing, taking on, executing or sending back a transfer keeps the protocol invariant |
| System.StepChanges | backend/internal/store/executor.go:239-261 | Every step of the system changes the tables by nothing, one new draft, one write of the application to one pocket, or one leg status update |
| Disbursal.PayLegIsARun | backend/internal/pocketapp/effects.go:170-217 | What the in-place payLeg promises of an undisturbed call is a run of the interleaved system with the same rows and the same money moved |
| LegStatus.ResolutionIsOrderInsensitive | backend/internal/store/settlements.go:131-196 | After any sequence of claims, releases, confirmations and failures in any order and number, a leg is failed if a failure occurred, else confirmed if a confirmation did, else still open |
| Invariants.MachineFollowsTable | backend/internal/pocket/transition.go:61-295 | The machine accepts exactly the edges of the transition table under exactly its clock and lockout guards, and an accepted event changes only the fields that belong to it |
| Invariants.ApplyIsStep | backend/internal/store/executor.go:243-261 | A committed transition writes the row, one audit row, the outcome's legs and the dispute row of the same event, and nothing else |
| Invariants.StepKeepsInv | backend/internal/store/executor.go:239-261 | Every transition an authorised actor commits keeps the invariant over all of a pocket's tables |
| Runs.ExecKeepsInv | backend/internal/store/executor.go:88-237 | So does every write of the application: claim, accept, convert, cancel, funding, code entry, disputes, attestation, sweeps |
| Runs.ReachableInv | backend/internal/store/executor.go:55-237 | Every pocket some creation and some sequence of attempted writes lead to satisfies the invariant |
| UseCases.MovesFollowTable | backend/internal/pocketapp/disputes.go:24-64 | Every write that moves a pocket is one line of a table: the role that must ask, the states, clock and lock it needs, the exact error otherwise, and then the whole of the rows left: state, actor and event logged, counters, deadlines, legs (the sellers' shares or the buyer's total), dispute |
| UseCases.EffectsFollowTable | backend/internal/pocket/transition.go:61-295 | An accepted event sets off exactly the effects its step calls for: who is told what by the state entered, the release code, the evidence prompt, the grace, the sanctions, the payout and the refund, and no other |
| UseCases.AttestationAsTabled | backend/internal/store/sweep.go:115-132 | An attestation is the buyer's, needs FROZEN, and stamps the first instant only, changing nothing else |
| UseCases.CreationAsTabled | backend/internal/pocketapp/lifecycle.go:44-93 | Creation succeeds if and only if the terms are acceptable, the creator is named and the total fits a bigint, and stores exactly the proposed structure, role, mode, amount, commission and whole-minute windows, the creator's accepted seat, open other seats, and nothing else |
| UseCases.ClaimAsTabled | backend/internal/store/participants.go:94-121 | A claim is refused with its exact error, or puts the user in that seat and changes nothing else |
| UseCases.AcceptanceAsTabled | backend/internal/store/executor.go:108-178 | An acceptance is refused with its exact error, or stamps its seat; the last one also starts the pocket with its funding window, and any other leaves the row and the log alone |
| UseCases.ConversionAsTabled | backend/internal/store/convert.go:38-119 | A conversion is refused with its exact error, or splits the price, seats the accepted broker and logs it |
| UseCases.SettledSharesAreAgreed | backend/internal/pocket/pocket.go:142-155 | Through every run a settled pocket that was never converted pays the vendor the amount and the broker the commission proposed at creation; a converted one pays the shares named by its one successful conversion |
| UseCases.PricesComeFrom | backend/internal/store/convert.go:24-38 | The prices in the row are those of the creation, or of the conversion the run made |
| Guarantees.LegsAgree | backend/internal/store/settlements.go:29-62 | Payout legs exist exactly when SETTLED and are exactly PayoutLegs, the one refund leg exists exactly when REFUNDED and is the buyer total, no other state has legs, no leg is empty |
| Guarantees.LegsAddUp | backend/internal/pocket/pocket.go:142-155 | The recorded legs of a SETTLED pocket sum to buyer total minus premium, of a REFUNDED one to the buyer total |
| Guarantees.DisputesAgree | backend/internal/store/disputes.go:39-70 | A dispute is open exactly while DISPUTED, resolved as the pocket ended, opened at most once, and its class fixes the burden by how it was opened |
| Guarantees.LogIsFaithful | backend/internal/store/executor.go:239-261 | The audit log chains without gaps to the row's state, version is one plus its length, attempts are its rejected codes, and folding it with the instants given to the guards through the machine rebuilds the stored pocket, deadlines and lockout included |
| Guarantees.StoredColumnsAreEnough | backend/internal/store/events.go:9-27 | The columns the audit table stores suffice: folding the rows' kinds alone rebuilds state, attempts and lockout, and agrees with every row's from and to |
| Guarantees.RefundsAreJustified | backend/internal/store/sweep.go:39-48 | A REFUNDED run ends with its one refund step: a participant's cancel while FUNDED, a vendor concession, an admin, or a sweep with the buyer's attestation no earlier than funding plus delivery window plus grace |
| Guarantees.GraceRefundFollowsAttestation | backend/internal/store/sweep.go:39-48 | In every run refunded on the grace ground the buyer attested while the pocket was FROZEN, and the sweep that refunded it, past its deadline, came later |
| Guarantees.AttestedWhileFrozen | backend/internal/store/sweep.go:115-132 | An attestation on record is the buyer's, made in that run while FROZEN, at the recorded instant |
| Guarantees.SettlementsAreJustified | backend/internal/pocket/transition.go:145-295 | A SETTLED run accepted an unlocked code and waited out the inspection window with nothing logged in between, or was forced out of a dispute |
| Guarantees.LockedPocketsEnd | backend/internal/pocket/transition.go:145-193 | A locked pocket that has ended was refunded, or paid by force; it is never cancelled, expired or settled otherwise |
| Guarantees.SettlesFromDeliveredIff | backend/internal/pocket/transition.go:231-295 | A settlement came from DELIVERED_PENDING if and only if no admin forced it out of a dispute |
| Witnesses.SomePocketIsForcePaid | backend/internal/pocket/transition.go:280-295 | A reachable pocket is settled out of DISPUTED |
| Witnesses.SomeGraceIsRefunded | backend/internal/store/sweep.go:39-48 | A reachable pocket, frozen, attested and swept after its grace, is refunded on the grace ground |
| Guarantees.ReportsComeInsideTheWindow | backend/internal/pocket/transition.go:245-258 | A reported issue came strictly inside the inspection window after the handoff; with a clock that never runs backwards an instant-mode pocket has none |
| Guarantees.TerminalIsLast | backend/internal/pocket/state.go:19-28 | A terminal state is entered by the last audit row alone |
| Guarantees.RunKeepsAgreement | backend/internal/store/convert.go:24-38 | The buyer's total, the goods value, the premium, the mode and the windows survive every sequence of writes, conversions included |
| Guarantees.FundingStaysApplied | backend/internal/pocketapp/ingest.go:195-205 | Once a pocket is at or past FUNDED every later write leaves it there |
| Guarantees.FundingIsLoggedOnce | backend/internal/pocketapp/ingest.go:152-189 | A reachable log holds at most one funding credit, and one exactly when funding is applied |
| Drafts.TermsStayPriced | backend/internal/pocketapp/lifecycle.go:40-60 | Through the draft phase and after, the premium is the schedule's value for the goods, and the total is their exact sum without wrap-around |
| PocketMachine.PremiumFollowsBands | backend/internal/pocket/premium.go:3-46 | The premium is the published fee in every band up to its ceiling, never falls as the goods value rises, and is zero exactly for no goods |
| Drafts.LastAcceptanceSucceedsIff | backend/internal/store/executor.go:154-172 | After any sequence of writes, the acceptance that completes a draft succeeds if and only if the windows agreed at creation were at least a minute |
| Witnesses.SomeLastAcceptanceFails | backend/internal/store/executor.go:154-172 | A reachable draft with half a minute of delivery is refused by its last acceptance |
| Drafts.WindowsAreKeptIff | backend/internal/store/pockets.go:282-284 | Through every run the windows the machine enforces are the agreed ones if and only if those were whole minutes, and otherwise less than a minute shorter |
| Drafts.LaunchedSeatsAreComplete | backend/internal/store/participants.go:90-174 | A launched pocket has exactly its structure's roles, all accepted and claimed by pairwise distinct accounts |
| Drafts.BuyerAheadOfVendorIffConverted | backend/internal/store/executor.go:127-139 | In a brokered draft the buyer has accepted before the vendor if and only if the pocket was converted |
| Witnesses.SomeBuyerIsAhead | backend/internal/store/convert.go:38-119 | A reachable converted draft has its buyer ahead of its vendor |
| Drafts.DuePocketAdvances | backend/internal/store/sweep.go:59-85 | A pocket a sweep claims never errors and leaves the rule's source state for the table's target |
| Drafts.ScansAgreeWithGuards | backend/internal/store/sweep.go:21-57 | A rule's scan finds a reachable pocket exactly when the domain guard admits its event, the grace rule waiting in addition for its deadline and the attestation |
| Drafts.EvidenceUsesTheLoggedHandoff | backend/internal/pocketapp/disputes.go:102-115 | The handoff instant recovered from the settlement deadline is exactly the logged code acceptance |
| Drafts.InstantModeSettlesAtHandoff | backend/internal/pocketapp/verification.go:46-67 | In instant mode an accepted code is due and settles in the same call unless the clock runs backwards |
| Cancellation.NonVendorRefundsIffFundedInBetween | backend/internal/pocketapp/lifecycle.go:161-177 | Whatever runs before a non-vendor's read and between it and its commit, a commit that finds the pocket FUNDED refunds it if and only if some step in between took the pocket from CREATED to FUNDED |
| Cancellation.NonVendorRefundsReadEarlier | backend/internal/pocketapp/lifecycle.go:161-177 | In every run a step from FUNDED to REFUNDED commits somebody's cancel, and a non-vendor's was read before the step that funded the pocket |
| Cancellation.TheRaceHappens | backend/internal/pocketapp/lifecycle.go:161-177 | Such a run exists: create, claim, accept, read, credit, commit |
| Lifetime.NineEventsAtMost | backend/internal/pocket/transition.go:61-295 | No pocket accepts more than nine events after creation, whatever is offered, and nine is reached |
| Lifetime.BudgetIsReached | backend/internal/releasecode/releasecode.go:48-53 | The remaining-events budget is exact for every pocket that has not been delivered |
| Lifetime.SlowestRunMovesForward | backend/internal/pocket/transition.go:192-208 | The longest run needs no clock that runs backwards |
| Persistence.StoredSimulatesInMemory | backend/internal/store/pockets.go:35-82 | Along any run of events a pocket saved and reloaded between transitions answers as the one kept in memory: same errors, states, deadlines, attempts, effects |
| Persistence.LaunchSurvivesReloadIff | backend/internal/store/pockets.go:59-74 | The pocket a stored draft launches as reloads as itself if and only if the policy durations are set |
| Witnesses.SomeLaunchIsNotReloaded | backend/internal/pocket/pocket.go:100-132 | With no grace period configured, the launched pocket and its reloaded row freeze until instants a day apart |
| Serial.OptimisticCommitIsSerialisable | backend/internal/store/pockets.go:137-165 | Without the row lock, any interleaving of snapshots and version-guarded commits leaves every table as the winners alone do, run one by one in commit order with the same outcomes |
| Serial.LosesIffOvertakenOrRefused | backend/internal/store/pockets.go:140-165 | In every interleaving a transaction loses if and only if another transition won between its read and its commit, or the guard refuses what it read; a loser changes no table |
| Database.Store.ApplyTransitionTx | backend/internal/store/executor.go:243-261 | In place: commits the whole new database state of Records.ApplyTransition, or changes nothing and returns its error |
| Database.Store.RecordSettlementLegsTx | backend/internal/store/settlements.go:37-62 | The nested loops leave the pocket's legs as RecordLegs of the outcome's effects and every other row alone |
| Database.Store.RunTransition | backend/internal/store/executor.go:183-200 | In place: the committed state and the error are those of Records.RunTransition |
| Database.Store.Accept | backend/internal/store/executor.go:108-178 | In place: the stamp and the launch commit together, and a refused launch rolls the stamp back |
| Database.Store.CreatePocket | backend/internal/store/executor.go:55-86 | In place: the proposed terms as they were, the creator's accepted seat and an open seat for every other role, nothing else, or the total check's refusal exactly when the sum does not fit |
| Database.Store.Claim | backend/internal/store/participants.go:94-121 | In place, as Records.ClaimSeat: the user ends up in the seat, and a fresh claim leaves every other seat as it was and to other accounts |
| Database.Store.ConvertToBrokered | backend/internal/store/convert.go:38-119 | In place, as Records.Convert: the price is split and the total kept, the broker is bound and accepted and holds no other seat, the vendor seat stays open |
| Database.Store.Cancel | backend/internal/store/executor.go:205-237 | In place: closes a draft or unfunded pocket as CANCELLED without money, refunds a FUNDED one with a pending leg of the buyer total, refuses every other |
| Database.Store.SweepOne | backend/internal/store/sweep.go:63-85 | Advances one due pocket through the write path and never errors, or proves that none is due |
| Database.Store.ClaimSettlementLeg | backend/internal/store/settlements.go:131-141 | Wins exactly when the leg was pending, and then makes it inflight |
| Database.Store.LegsWithStatus | backend/internal/store/settlements.go:89-110 | Lists every leg of the status once, with its recorded amount |
| Database.Store.PocketsAwaitingFunding | backend/internal/store/sweep.go:87-113 | Lists CREATED pockets with a link whose funding window is open, none twice, and all of them unless there are a hundred |
| Database.Store.GetByFundingRef | backend/internal/store/pockets.go:95-104 | Finds a pocket whose link was minted under the reference, or proves that there is none |
| Database.ListsOneMore | backend/internal/store/settlements.go:113-123 | Appending an unlisted leg with its amount keeps a query's answer exact |
| Database.Store.RecordWebhookEvent | backend/internal/store/webhooks.go:14-29 | Records an event once and asks for processing exactly while it has not completed |
| Application.App.PayLeg | backend/internal/pocketapp/effects.go:170-217 | Submits a pending leg once with its amount and records the answer: confirmed if accepted, failed if rejected, pending again if never submitted, unknown otherwise; leaves any other leg alone; keeps every count of transfers taken on and pocket invariant |
| Application.App.PaySettlements | backend/internal/pocketapp/effects.go:146-160 | Submits each pending leg of the pocket once with its recorded amount up to the first failure, the rows being the old ones with every answer recorded; none stays pending when the gateway succeeds |
| Application.App.SweepPendingSettlementLegs | backend/internal/pocketapp/sweep.go:43-56 | The same over all pockets, returning how many were paid: all of them with a succeeding gateway; nothing at all happens when no leg is pending |
| Application.App.DrainRule | backend/internal/pocketapp/sweep.go:108-125 | Terminates under any clock with one reading for each pocket advanced and one more; exactly the swept pockets change, each due at one of those readings; the count is how many left the rule's source state for its target; none is due at the last reading; with a succeeding gateway no new leg stays pending |
| Application.App.Tick | backend/internal/settlement/sweeper.go:78-106 | The report accounts for every pocket that changed state; payments are looked for first, over all pockets awaiting one; with a succeeding gateway no leg stays pending and the legs reconciled are those that were; on a fixed clock no rule is then due, and with nothing due, nothing pending and no payment found no row changes and nothing is submitted |
| Application.App.CreditFunding | backend/internal/pocketapp/ingest.go:158-193 | A stated underpayment does nothing; otherwise a CREATED pocket is credited with the stated amount at the call's one reading, and any other is reported as funded or not; no money moves out |
| Application.App.VerifyFunding | backend/internal/pocketapp/funding.go:26-73 | Asks about the stored and the submitted reference, in order, until one is answered as paid; a CREATED pocket is credited and reported funded if and only if that answer's amount covers the total (or states none), with the amount it stated; a pocket past CREATED is reported without asking |
| Application.App.SweepPendingFundingVerification | backend/internal/pocketapp/funding.go:79-103 | Reviews every pocket awaiting its payment, credits exactly those answered as paid for, and counts them; every other row is untouched and no transfer is submitted |
| Application.App.IngestGatewayEvent | backend/internal/pocketapp/ingest.go:55-79 | A processed event changes nothing again. Any other resolves its pocket by the stored reference or the one this system submitted; a payment changes the rows if and only if that pocket is CREATED and the stated amount covers its total; a payout outcome moves the named leg alone; the event is marked exactly when it was resolved |
| Application.App.EnterCode | backend/internal/pocketapp/verification.go:28-87 | The gates, the code transition and, when the inspection window is over at the call's next reading, the settlement in the same call, with their disbursement; on a fixed clock a match on an unlocked FUNDED or FROZEN pocket ends SETTLED without a window, and otherwise DELIVERED_PENDING with its window running from now |
| Application.App.Cancel | backend/internal/pocketapp/lifecycle.go:163-177 | Undisturbed, the role check and the cancel act on one state: a non-vendor is refused on a FUNDED pocket, a draft, unfunded or FUNDED pocket is otherwise closed at the call's one reading and its refund disbursed, and any other is refused |
| Application.App.Create | backend/internal/pocketapp/lifecycle.go:44-93 | Succeeds if and only if the terms are acceptable, the user named and the sum fits, and then stores the proposed terms at the call's one reading; each refusal has its own error and stores nothing |
| Application.App.Accept | backend/internal/pocketapp/lifecycle.go:135-144 | As tabled, at the call's one reading; the completing acceptance, and no other, asks for one checkout order of exactly the buyer total and stores the reference it got |
| Disbursal.DrainKeepsNoneDue | backend/internal/settlement/sweeper.go:78-84 | Draining a rule makes no other rule due, but that freezing may arm the grace rule |
| Disbursal.CountsFlow | backend/internal/pocketapp/sweep.go:108-125 | Each claimed pocket leaves one row fewer in the rule's source state, one more in its target, and every other count alone |
| Disbursal.FlowsBalance | backend/internal/settlement/sweeper.go:85-106 | The rules' counts together account for the change in every state's count |
| Disbursal.StatusKeepsSound | backend/internal/pocketapp/effects.go:196-217 | Recording an answer keeps the transfers the provider took on in step with leg statuses, and every pocket's invariant |
| Boundary.ResolvesOwnReferencesOnly | backend/internal/gateway/gateway.go:17-57 | A reference resolves to a pocket if and only if it is that pocket's own reference and the id is a UUID |
| Boundary.PrintedIdsResolve | backend/internal/gateway/gateway.go:22-57 | The reference submitted for the printed form of any 32 hexadecimal digits resolves to that pocket |
| Nomba.ClassificationIsSharp | backend/internal/gateway/nomba/client.go:49-65 | A transfer is reported accepted exactly when the bank must have taken it on, executed for certain only under status SUCCESS; rejected or not submitted exactly when it cannot have, except a second 401 and an unbuildable request, which stay ambiguous |
| Nomba.Client.Call | backend/internal/gateway/nomba/client.go:135-152 | No request is sent exactly when no token is to be had; two are sent exactly when the first met a stale token and a new one was issued; the outcome is the last request's or the failed grant's; at most one transfer is taken on and the error class is right about both requests together |
| Nomba.Client.Transfer | backend/internal/gateway/nomba/transfers.go:57-81 | A complete beneficiary is submitted through one call and answered as its outcome reads, truthfully about what the bank took on; an incomplete one submits nothing |
| Nomba.Client.Bearer | backend/internal/gateway/nomba/client.go:74-105 | A fresh token is kept without asking; otherwise refresh then credentials are tried until one issues a token, which is good for 25 minutes from now, and the cache is left alone when none does |
| Nomba.BeneficiaryRoundTrip | backend/internal/gateway/nomba/transfers.go:83-100 | Every complete account whose bank code and number hold no colon is resolved from its own reference |
| Naira.KoboFromNaira | backend/internal/gateway/nomba/verify.go:57-88 | The wrapping digit loop computes the exact parse modulo 2^64, and 0 for malformed input |
| Naira.KoboRoundTrip | backend/internal/gateway/nomba/nomba.go:122-129 | Parsing the printed amount gives back every non-negative int64, and 0 for a negative one |
| Naira.RoundTripNeverWraps | backend/internal/gateway/nomba/verify.go:65-71 | On that way no partial sum of the digit loop, nor its hundredfold, overflows |
| Naira.ParsesToFloorIffItFits | backend/internal/gateway/nomba/verify.go:57-88 | For digits, dot, digits the result is the floor of a hundred times the number if and only if that floor fits an int64 |
| Naira.ParsesEveryText | backend/internal/gateway/nomba/verify.go:57-88 | Every text: digits alone are whole naira, the first two decimals count and later ones do not matter, anything else in the whole part or in those two is 0, and the result is exact if and only if it fits an int64 |
| RateLimit.EvictionUnobservableIff | backend/internal/ratelimit/ratelimit.go:80-96 | Evicting idle buckets answers every forward run as never evicting, and keeps every key's grants in every window within burst plus rate times length, if and only if a full refill takes at most a minute or a whole number of seconds |
| RateLimit.UncoveredBreaksBoth | backend/internal/ratelimit/ratelimit.go:80-96 | Otherwise two bursts, the second past the threshold but before a full refill, are answered differently and exceed the window bound |
| RateLimit.EvictingAnswersAlike | backend/internal/ratelimit/ratelimit.go:53-96 | From equal token levels the two limiters answer alike when the idle threshold covers a refill |
| RateLimit.GrantsWithinAllowance | backend/internal/ratelimit/ratelimit.go:53-78 | A key's grants in a window never exceed its level plus the window's refill, across denials and other keys |
| RateLimit.TakeActsOnLevels | backend/internal/ratelimit/ratelimit.go:60-78 | A call is admitted exactly when its key's level holds a token, and changes that level alone, by that token |
| RateLimit.ApiLimitersAreCovered | backend/internal/httpapi/api.go:93-95 | The three limiters the API builds meet the condition |
| RateLimit.ApiGrantsInAMinute | backend/internal/httpapi/api.go:93-95 | In any minute of any run they grant one key at most 1320, 20 and 90 calls |
| RateLimit.Limiter.Allow | backend/internal/ratelimit/ratelimit.go:53-78 | In place: answer and whole new state are the specification's |
| RateLimit.Limiter.Sweep | backend/internal/ratelimit/ratelimit.go:82-96 | In place: the loop drops exactly the buckets idle beyond the threshold, at most once a minute |

## Left out

- The status-query branch of the inflight sweep: no gateway here answers such queries, so that pass resolves nothing; releasing on "absent" would need that answer never to be given between a claim and its outcome.
- Liveness of inflight legs after a crash or an ambiguous answer: the code does not promise it.
- Delivery of effects other than money and the checkout order: notifications, strikes, the release code, the link's URL, the funding transaction id (a write-once column), and the delivery address are not rows of this model; whether the entered code matches is an input.
- Replay of effects after a crash: only settlement legs are recovered, as in the code; a redelivered funding event does not repeat the other effects.
- Database.Store.LegsWithStatus: the queries' oldest-first order; the answer is any order of the legs.
- Database.Store.PocketsAwaitingFunding: the oldest-first order; which hundred are listed when there are more is left open.
- Database.Store.GetByFundingRef: the column is not unique, so which of several pockets with one reference is found is left open.
- Database.Store.SweepOne: with one caller no row is locked by another, so SKIP LOCKED skips nothing; interleaved writers are in System and Serial.
- Database.Store: tables are grouped by pocket in one field, so a statement is an update of one pocket's rows; ids are supplied, not generated.
- Application.App: the one-transition use cases (report, concede, attest, dispatch failure, force refund and payout) appear as operations of Exec, not as methods of their own.
- Failures of the database itself, and contexts cancelled mid-call, except as a crash between two steps.
- The audit table does not store the instant given to the guard or the amount a provider stated; the model's log rows carry both as history.
- System.Next: the claim and the amount read are one step, since a recorded amount never changes.
- Role-scoped views, JSON, HTTP, signatures, link tokens, item descriptions, categories and evidence storage.
- Integer columns' own 32-bit range, microsecond truncation of stored instants, and overflow of instants and durations.
- The floating-point amount of the webhook parser; the limiter's float64 rounding (tokens and seconds are reals).
- Naira.KoboFromNaira: works on characters, not bytes; since only the first two decimals are read and any non-digit yields 0, the result is the same.
- Nomba: HTTP redirects and automatic transport retries, the text of errors, the fallback from a refund account to the payout account, and narrations.
