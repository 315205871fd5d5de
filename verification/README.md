# Payment, run and attestation protocols: a verified model

This project models the crash- and concurrency-tolerant protocols of the backend and proves what they promise over
whole histories. One database transaction is one atomic step. At every call that leaves the process other actors may
run, the process may die, or the answer may be lost; what was called is kept in a trace, and the at-most-once
statements are about that trace. Times are numbers supplied by the environment. Where the code updates objects or rows
in place, a class with those fields does the same, and each method is proved equal to a function on values; the
protocol theorems are about those functions.

| files | what they model |
|---|---|
| `agent_store`, `agent_runtime`, `agent_host`, `agent_journal`, `agent_safety`, `agent_theorems` | durable agent runs: lease tokens, fenced writes, sealed state, dispatch markers, hash-chained journal |
| `payment_db`, `settlement`, `mandates` | payments with their claim fence, quarantine and resumption, daily mandates |
| `executions`, `publication`, `publication_tx`, `publication_safety`, `publication_theorems` | permanent execution claims, the one publication transaction, and the policy gate under the shared lock |
| `tcb_lifecycle` | versioned policies: initialize, propose, activate |
| `acceptance`, `acceptance_run`, `acceptance_safety`, `acceptance_theorems` | the operator's write-ahead journal over repeated invocations, and its one-time rearm |
| `rpc_pool`, `rpc_theorems` | the FIFO request pool with its spacing, aborts and drain loop |
| `verifier`, `verifier_round_trip` | live cloud verdicts and their replay from an archive |
| `login_limiter` | the bounded login limiter against one that never forgets |
| `reconcile` | the paged reconciliation pass |

## What the code does not quite promise

Each is stated as an exact condition, and shown by a concrete case in which the code falls short.

- A settlement claim reads the clock twice, for the day of the reservation (gateway.ts:1576, before the mandate is locked)
  and for the recorded day (gateway.ts:920, 832). A claim that straddles midnight reserves on one day and records the
  next. A reserving claim keeps the mandate's counter and its days in order exactly when both readings fall on one day
  (`Mandates.ConservedIffSameDay`, which also says when the counter alone comes out right by coincidence). Otherwise a
  later proven revert takes its amount out of the wrong day and the `greatest(0, …)` clamp acts
  (`Mandates.StraddlingClaimLosesAReservation`), or an overlapping claim moves the mandate back to the old day, drops
  what was reserved on the new one, and more than the daily limit is reserved (`Mandates.OverlappingClaimPassesTheLimit`).
  Without a straddling claim no day of any account ever passes the limit (`Mandates.EveryDayWithinLimit`).
- A live verdict does not always survive its replay. The archive recomputes the local NVIDIA limit from the recorded
  second, where the live run took it from the earlier inspection (verifier.py:629-630, 658), checks token ages again at
  the recorded second (verifier.py:517), and checks a fractional policy start against the gateway's truncated second
  (verifier.py:457, 808). `VerifierRoundTrip.RoundTrip` gives the exact condition, and three lemmas a refused verdict each.
- The rate bound holds for windows closed at their beginning and open at their end. Windows of 1000 ms closed at both ends
  meet the budget in every run exactly when it does not divide 1000 (`RpcTheorems.ClosedWindowHoldsIff`); the budgets
  1, 2, 4, 5, 8, 10 and 20 admit one start more (`RpcTheorems.ClosedWindowHoldsOneMore`).
- The bounded login limiter forgets an exhausted key behind `capacity` other keys and then admits it again. While the uses
  of a key have been close, its decision is that of a limiter that never forgets exactly when the key is new, or fewer
  than `capacity` distinct others were used since, or its window still has room (`LoginLimiter.DecidesAsUnboundedIff`);
  `LoginLimiter.EvictionAdmitsAgain` shows two admissions under a limit of one.
- A repeat of a successful policy activation is answered with its row only while that row is active
  (`TcbLifecycle.RepeatReturnsWinner`); once another activation has taken over it is refused
  (`TcbLifecycle.RepeatRefusedAfterTwoActivations`).

## Model

| member | source | states |
|---|---|---|
| `AgentStore.AgentRunStore.Insert` | _backend/apps/api/src/agent-runtime-store.ts:38-46 | a run is created once per owner and idempotency key; a repeat returns the existing row and changes nothing |
| `AgentStore.AgentRunStore.Claim` | _backend/apps/api/src/agent-runtime-store.ts:55-63 | the oldest queued run gets the token and a lease; nothing else changes, and `None` means nothing was queued |
| `AgentStore.AgentRunStore.Heartbeat` | _backend/apps/api/src/agent-runtime-store.ts:65-73 | extends the lease exactly when the token holds the run live, and says so |
| `AgentStore.AgentRunStore.Change` | _backend/apps/api/src/agent-runtime-store.ts:74-86 | row and journal action are committed together, or refused without a trace |
| `AgentHost.RunHost.Cancel` | _backend/apps/api/src/agent-runtime.ts:182-189 | cancels at once when nothing is in flight and otherwise only asks; the whole new store |
| `AgentHost.RunHost.PrepareResume` | _backend/apps/api/src/agent-runtime.ts:190-216 | which proof of outcome each interrupted phase needs, and the state built from it |
| `AgentHost.RunHost.Resume` | _backend/apps/api/src/agent-runtime.ts:190-216 | a resume commits that state under the version that was read, or changes nothing |
| `AgentHost.RunHost.SweepExpired` | _backend/apps/api/src/agent-runtime.ts:242-246 | each row found expired is quarantined only if it is still that version, running and expired; no other row changes |
| `AgentHost.RunActivation.Save` | _backend/apps/api/src/agent-runtime.ts:259-264 | the runner's state reaches the row only under its live lease; after a loss nothing is written |
| `AgentHost.RunActivation.NotePayment` | _backend/apps/api/src/agent-runtime.ts:311-314 | a settled payment enters the state in memory and the spending the next save commits |
| `AgentHost.RunActivation.NoteResult` | _backend/apps/api/src/agent-runtime.ts:217-233 | a result closes the step in memory and decides the status the next save commits, or leaves the state alone |
| `AgentSafety.NextKeeps` | _backend/apps/api/src/agent-runtime.ts:242-338 | every step of every runner, sweep, heartbeat, cancel and resume keeps the run invariant |
| `AgentTheorems.EffectsAtMostOnce` | _backend/apps/api/src/agent-runtime.ts:242-338 | in every interleaving each step makes at most one settlement call and at most one paid inference call, so a run makes at most `maxSteps` of each |
| `AgentTheorems.MarkerLeavesByProof` | _backend/apps/api/src/agent-runtime.ts:190-216 | a persisted dispatch marker is only replaced by the answer its dispatcher saw or by a proof a resume looked up |
| `AgentTheorems.LedgerExact` | _backend/apps/api/src/agent-runtime.ts:85-97 | in every reachable row spent units equal the finished steps plus the paid pending amount, within budget and step limit, so the check on opening never rejects it |
| `AgentTheorems.TerminalAbsorbs` | _backend/apps/api/src/agent-runtime.ts:115-128 | an ended run never changes again |
| `AgentTheorems.NoDispatchAfterCancelOrDeadline` | _backend/apps/api/src/agent-runtime.ts:115-128 | no dispatch marker is committed after a committed cancel, or at or after the deadline |
| `AgentTheorems.RunningIffLeased` | _backend/apps/api/src/agent-runtime-store.ts:55-86 | a run is running exactly while a token holds it |
| `AgentTheorems.HolderSeesPersistedState` | _backend/apps/api/src/agent-runtime.ts:244-272 | between its saves the holder has in memory exactly what is persisted, and while saving exactly a legitimate successor |
| `AgentTheorems.StaleRunnerNeverPublishes` | _backend/apps/api/src/agent-runtime.ts:259-264 | a runner that lost its lease changes neither row nor journal, at any later time |
| `AgentTheorems.OutcomesAreAnswers` | _backend/apps/api/src/agent-runtime.ts:290-322 | every outcome a runner acts on answers a call made for that step |
| `AgentJournal.CheckJournal` | _backend/apps/api/src/agent-runtime.ts:164-172 | the reading loop accepts exactly the chains with the recorded head and length |
| `AgentJournal.SnapshotAccepted` | _backend/apps/api/src/agent-runtime.ts:155-181 | a reader whose two row readings agree in version accepts the journal read in between, whatever ran meanwhile |
| `AgentJournal.HeadDeterminesJournal` | _backend/apps/api/src/agent-runtime.ts:98-104 | with an injective MAC that avoids the zero head, equal heads mean equal journals |
| `PaymentDb.PaymentTables.OpenPayment` | _backend/apps/api/src/gateway.ts:1442-1477 | opens a payment, returns the one its intent key opened for the same request, or refuses the key for another request |
| `PaymentDb.PaymentTables.AssertMandate` | _backend/packages/core/src/mandate.ts:9-18 | rolls to the day, adds the amount, and refuses without change above the limit |
| `PaymentDb.PaymentTables.ClaimSettlement` | _backend/apps/api/src/gateway.ts:882-925 | the claim transaction of a direct settlement: guards, reservation, fence and fixed fields, all or nothing |
| `PaymentDb.PaymentTables.ClaimX402Settlement` | _backend/apps/api/src/gateway.ts:806-842 | the claim transaction of an exact settlement; only the first reserves, and a bound authorization is refused elsewhere |
| `PaymentDb.PaymentTables.FinishSettlement` | _backend/apps/api/src/gateway.ts:940-956 | settles only the claim the fence was stamped for |
| `PaymentDb.PaymentTables.FailSettlement` | _backend/apps/api/src/gateway.ts:957-968 | a proven revert fails the claim and gives the reservation back; anything else quarantines it |
| `PaymentDb.PaymentTables.Quarantine` | _backend/apps/worker/src/jobs.ts:36-46 | every claim older than two minutes, and nothing else, becomes settlement-unknown |
| `Settlement.NextKeepsFences` | _backend/apps/api/src/gateway.ts:882-969 | with a clock that never runs backwards every event keeps every live attempt fenced |
| `Settlement.OnlyTheCurrentAttemptWrites` | _backend/apps/api/src/gateway.ts:940-968 | only the attempt that made the latest claim can settle, fail or quarantine a payment; a stale attempt changes nothing |
| `Settlement.PaymentsEvolveForever` | _backend/apps/api/src/gateway.ts:882-969 | consumed and failed are final, settled only becomes consumed, and mode, scope, authorization, confidentiality and mandate day are fixed from the first claim on |
| `Settlement.AuthorizationsNeverShared` | _backend/apps/api/src/gateway.ts:806-842 | one token authorization never pays for two x402 payments of a deployment |
| `Settlement.IntentsNeverShared` | _backend/apps/api/src/gateway.ts:1442-1477 | over any history an owner's intent key names one payment |
| `Mandates.MandatesConserved` | _backend/apps/api/src/gateway.ts:906-966 | over every history without a straddling claim, overlapping claims included, spent today equals the unfailed reservations of that day and stays within the limit, however often a payment is resumed |
| `Mandates.EveryDayWithinLimit` | _backend/apps/api/src/gateway.ts:906-966 | in those histories no day of any account, past, present or still to come, ever holds more unfailed reservations than the daily limit |
| `Mandates.ClampNeverActs` | _backend/apps/api/src/gateway.ts:958-966 | in those histories a release never takes more than is reserved |
| `Mandates.ConservedIffSameDay` | _backend/apps/api/src/gateway.ts:906-924 | a reserving claim keeps counter and days in order exactly when both clock readings fall on one day, and the counter alone exactly then or by a stated coincidence |
| `Mandates.StraddlingClaimLosesAReservation` | _backend/apps/api/src/gateway.ts:906-966 | a concrete history across midnight in which the clamp acts and a reservation is lost |
| `Mandates.OverlappingClaimPassesTheLimit` | _backend/apps/api/src/gateway.ts:1575-1590 | a concrete history in which an overlapping claim moves the mandate's day back, drops the other claim's reservation, and more than the limit is reserved on one day |
| `Executions.ExecutionTable.Claim` | _backend/apps/api/src/inference-execution.ts:21-38 | inserts a claim unless payment or owner and key collide; tells an uncertain repeat from a conflict; never replaces a row |
| `Executions.ExecutionTable.Complete` | _backend/apps/api/src/inference-execution.ts:40-46 | completes exactly the dispatched claim that was made, once |
| `PublicationTx.GatewayTables.PublishResult` | _backend/apps/api/src/gateway.ts:465-571 | the in-place writes of the publication with its rollbacks: all tables take their part or none changes |
| `PublicationSafety.NextKeeps` | _backend/apps/api/src/gateway.ts:401-571 | every event of requests, sessions, activations and settlements keeps the gateway invariant |
| `PublicationTheorems.DispatchedAtMostOnce` | _backend/apps/api/src/gateway.ts:444-462 | the provider is called at most once per payment and per owner and idempotency key, over any schedule of deaths and lost acknowledgements |
| `PublicationTheorems.AbandonedForever` | _backend/apps/api/src/inference-execution.ts:21-59 | a claim whose holder died stays dispatched for ever; its payment is never consumed and never dispatched again |
| `PublicationTheorems.PublicationAllOrNothing` | _backend/apps/api/src/gateway.ts:465-571 | a payment is consumed iff its execution is completed, both and exactly one receipt name the same hash, and usage counts the consumed payments at the one price |
| `PublicationTheorems.ReplayBranchesUnreachable` | _backend/apps/api/src/gateway.ts:466-545 | for a request holding a claim the replay inside the publication, the response collision and the lost claim cannot happen |
| `PublicationTheorems.CommittedUnderActivePolicy` | _backend/apps/api/src/tcb-lifecycle.ts:138-171 | no receipt and no session is committed under a policy that is not the active one at its commit |
| `PublicationTheorems.PaymentsAreASettlementRun` | _backend/apps/api/src/gateway.ts:1499-1532 | the payment tables behind the gateway go through a settlement history, so everything proved of those holds here |
| `PublicationTheorems.MandatesConservedBehindGateway` | _backend/apps/api/src/gateway.ts:906-966 | mandate conservation with publications interleaved |
| `TcbLifecycle.Lifecycle.DoInitialize` | _backend/apps/api/src/tcb-lifecycle.ts:74-94 | installs the bootstrap policy once, or refuses a conflicting table |
| `TcbLifecycle.Lifecycle.DoPropose` | _backend/apps/api/src/tcb-lifecycle.ts:107-136 | adds one pending row or returns the earlier one; conflicts change nothing |
| `TcbLifecycle.Lifecycle.DoActivate` | _backend/apps/api/src/tcb-lifecycle.ts:138-163 | retires the active row and activates the target, or answers a repeat, or changes nothing |
| `TcbLifecycle.AlwaysSound` | _backend/apps/api/src/tcb-lifecycle.ts:60-66 | from any seeded table every sequence leaves the table seeded or with exactly one active policy, and once there is one every further sequence keeps exactly one |
| `TcbLifecycle.GovernedForever` | _backend/apps/api/src/tcb-lifecycle.ts:107-163 | the active version strictly increases with every change, and a stored version's policy never changes |
| `TcbLifecycle.OvertakenNeverActive` | _backend/apps/api/src/tcb-lifecycle.ts:138-163 | a retired or overtaken policy never becomes active |
| `TcbLifecycle.ActivationKeysUnique` | _backend/apps/api/src/tcb-lifecycle.ts:138-163 | an activation key belongs to one row at most |
| `TcbLifecycle.RaceHasOneWinner` | _backend/apps/api/src/tcb-lifecycle.ts:138-163 | of activations racing on one expected version at most one changes state |
| `TcbLifecycle.RepeatReturnsWinner` | _backend/apps/api/src/tcb-lifecycle.ts:138-163 | repeating the winner returns its row exactly while it is active, is refused afterwards, and never changes anything |
| `TcbLifecycle.OvertakenRepeatRefused` | _backend/apps/api/src/tcb-lifecycle.ts:138-163 | after any later activation that succeeds, repeating the earlier winner is refused |
| `TcbLifecycle.RepeatRefusedAfterTwoActivations` | _backend/apps/api/src/tcb-lifecycle.ts:138-163 | a concrete history of two activations and a refused repeat |
| `AcceptanceRun.AcceptanceProgram.RunAcceptance` | _backend/scripts/accept-near-arc.ts:276-385 | one invocation in any mode, dying anywhere: the journal file and everything sent |
| `AcceptanceRun.AcceptanceProgram.Settle` | _backend/scripts/accept-near-arc.ts:329-349 | signs once, saves, then sends; a saved authorization is reused or the step stops |
| `AcceptanceRun.AcceptanceProgram.Replay` | _backend/scripts/accept-near-arc.ts:362-382 | a completed request is replayed only on proof that the payment was consumed |
| `AcceptanceRun.AcceptanceProgram.RearmOriginal` | _backend/scripts/rearm-near-arc-settlement.ts:73-95 | the recovery record is written before the journal goes back; a second attempt changes nothing |
| `AcceptanceSafety.NextKeeps` | _backend/scripts/accept-near-arc.ts:276-385 | every invocation and rearm keeps the journal in step with what was sent |
| `AcceptanceTheorems.RequestsBounded` | _backend/scripts/accept-near-arc.ts:301-361 | over any history at most one session, one unpaid challenge, two settlements (one unless rearmed), one executed completion, and a hundred completions in all |
| `AcceptanceTheorems.OnePurchase` | _backend/scripts/accept-near-arc.ts:267-274 | every settlement carries the identical authorization, every inference the identical request and key, all for one payment |
| `AcceptanceTheorems.CompletionsAreCovered` | _backend/scripts/accept-near-arc.ts:350-382 | an executed completion follows a settlement the gateway reported; any other directly follows the payment shown consumed |
| `AcceptanceTheorems.AmbiguousStaysStopped` | _backend/scripts/accept-near-arc.ts:303 | a journal stopped in the middle of a request stays in that phase, and no session, challenge, settlement or completion is requested, however often and in whatever environment it is executed again |
| `AcceptanceTheorems.LookingSendsNothing` | _backend/scripts/accept-near-arc.ts:284-300 | any number of preflights, recoveries, manifest preparations and dry rearms sends nothing |
| `AcceptanceTheorems.AbortedIsFinal` | _backend/scripts/accept-near-arc.ts:279 | after aborted-unspent no history changes the journal or sends anything |
| `AcceptanceTheorems.ArchivedUnspent` | _backend/scripts/rearm-near-arc-settlement.ts:29-59 | a journal is archived only with at most one settlement sent, no completion, and its authorization expired on clock and chain |
| `AcceptanceTheorems.RearmedOnce` | _backend/scripts/rearm-near-arc-settlement.ts:85-93 | once the recovery record exists the recovery program has no further effect |
| `AcceptanceTheorems.UndisturbedRunCompletes` | _backend/scripts/accept-near-arc.ts:301-385 | the guards leave the undisturbed path open: one invocation completes with one request of each kind, in order |
| `RpcPool.RpcEndpoint.DrainQueue` | _backend/apps/api/src/rpc-transport.ts:43-60 | the drain loop up to its next suspension |
| `RpcPool.RpcEndpoint.FetchFn` | _backend/apps/api/src/rpc-transport.ts:61-82 | a request is taken unless aborted or the pool is full, and starts a drain if none runs |
| `RpcPool.RpcEndpoint.OnAbort` | _backend/apps/api/src/rpc-transport.ts:72-78 | a queued request leaves and is released once; one that waits gives way to the next |
| `RpcPool.RpcEndpoint.OnTimer` | _backend/apps/api/src/rpc-transport.ts:51-54 | a woken drain starts its request or waits on, by the spacing now in force |
| `RpcPool.RpcEndpoint.OnFetched` | _backend/apps/api/src/rpc-transport.ts:55-58 | an answered request is released once and the drain goes on |
| `RpcPool.RpcEndpoint.LowerBudget` | _backend/apps/api/src/rpc-transport.ts:84-85 | a budget can only be tightened |
| `RpcTheorems.RateHolds` | _backend/apps/api/src/rpc-transport.ts:39-60 | in any window of 1000 ms at most `rps` fetches start, `rps` being the budget in force at its beginning, for every mix of clients, aborts and budgets |
| `RpcTheorems.ClosedWindowHoldsIff` | _backend/apps/api/src/rpc-transport.ts:39-60 | windows closed at both ends meet a budget in every run exactly when the budget does not divide 1000 |
| `RpcTheorems.ClosedWindowHoldsOneMore` | _backend/apps/api/src/rpc-transport.ts:52-54 | the failing run for two requests a second: three starts within [0, 1000] |
| `RpcTheorems.StartsInArrivalOrder` | _backend/apps/api/src/rpc-transport.ts:43-60 | requests start in arrival order; whatever arrived before a started one is released, and every started one but the one in flight |
| `RpcTheorems.PendingIsExact` | _backend/apps/api/src/rpc-transport.ts:43-82 | the pending count is the queue plus the request in service, within its limit; every accepted request is released exactly once or pending; a nonempty queue is being drained |
| `Verifier.VerifyCloud` | _backend/infra/near/verifier.py:685-724 | the verification loop equals the candidate-by-candidate specification, including which error stops it |
| `Verifier.VerifyCloudArchive` | _backend/infra/near/verifier.py:772-840 | the replay equals its specification, with all its refusals |
| `Verifier.ReplayCandidates` | _backend/infra/near/verifier.py:806-826 | model verdicts are rebuilt in order up to the first that differs |
| `VerifierRoundTrip.RoundTrip` | _backend/infra/near/verifier.py:772-840 | a live verdict is accepted and rebuilt equal at any later time exactly when it survives |
| `VerifierRoundTrip.PromptVerdictsSurvive` | _backend/infra/near/verifier.py:727-743 | with whole-second policy bounds and models judged within the second of their inspection, every live verdict survives 30 days or the policy |
| `VerifierRoundTrip.ExpiryIsTightest` | _backend/infra/near/verifier.py:709-724 | the expiry is the earliest of all, after the end, within 300 seconds of the recorded second and the policy's end |
| `VerifierRoundTrip.ModelReplays` | _backend/infra/near/verifier.py:654-671 | one model verdict is rebuilt equal exactly when its NVIDIA limit can be found again from its second |
| `VerifierRoundTrip.GatewayReplays` | _backend/infra/near/verifier.py:454-466 | the truncated gateway verdict is rebuilt equal exactly when the policy was valid at that second |
| `VerifierRoundTrip.ArchiveDetermined` | _backend/infra/near/verifier.py:740-743 | two accepted archives of one document and policy with equal recorded times and NVIDIA evidence are equal in every field |
| `VerifierRoundTrip.LateLocalVerdictRefused` | _backend/infra/near/verifier.py:629-630 | a local verdict given a second after its inspection is refused |
| `VerifierRoundTrip.AgedTokenRefused` | _backend/infra/near/verifier.py:516-520 | a token at the end of its age is refused at the recorded second |
| `VerifierRoundTrip.FractionalStartRefused` | _backend/infra/near/verifier.py:454-466 | a policy beginning within the gateway's second is refused |
| `LoginLimiter.MemoryWalletLoginLimiter.TakeQuota` | _backend/apps/api/src/wallet-auth.ts:28-42 | the in-place updates of the ordered map equal the specification of one take |
| `LoginLimiter.OrderIsRecency` | _backend/apps/api/src/wallet-auth.ts:23-43 | the map never exceeds its capacity and its order is the order of last use |
| `LoginLimiter.DecidesAsUnbounded` | _backend/apps/api/src/wallet-auth.ts:28-42 | a key whose uses are never separated by `capacity` distinct other keys is limited exactly as if nothing were forgotten |
| `LoginLimiter.DecidesAsUnboundedIff` | _backend/apps/api/src/wallet-auth.ts:28-42 | with close uses so far and positive limits, the next decision agrees exactly when the key is new, remembered, or has room in its window |
| `LoginLimiter.ForgottenIsAdmitted` | _backend/apps/api/src/wallet-auth.ts:36-41 | a forgotten key is always admitted; the reference agrees exactly while its window has room |
| `LoginLimiter.EvictionAdmitsAgain` | _backend/apps/api/src/wallet-auth.ts:36-41 | capacity one, limit one: a key is admitted twice in its window where the reference refuses |
| `LoginLimiter.RememberedExactly` | _backend/apps/api/src/wallet-auth.ts:36-39 | with positive limits a used key is remembered exactly while fewer than `capacity` distinct others were used since |
| `LoginLimiter.AtMostLimitPerWindow` | _backend/apps/api/src/wallet-auth.ts:28-42 | at most `limit` admissions of such a key in a window, counted from the attempt that opened it |
| `Reconcile.SelectIsPage` | _backend/apps/api/src/gateway.ts:978 | a page is in order, holds only eligible rows past the cursor, and misses none it reaches |
| `Reconcile.ReconcilePayments` | _backend/apps/api/src/gateway.ts:973-991 | the pass ends even if every attempt fails; attempts are distinct, in order and read as eligible; a payment eligible at every reading until its turn is attempted |

## Left out

- Cryptography and encodings: sealing, encryption and recovery of signatures are the identity or injective constructors; the journal MAC is an arbitrary function.
- Chain effects, contracts, the provider, TDX and NVIDIA checks: replies of the environment. On replay the hardware facts are taken as reproduced, and direct (non-cloud) verdicts are not modelled.
- `runNext` is a state machine over its suspension points, not one method: other actors run in between; `RunActivation` holds the code between two of them.
- The agent protocol follows one run; runs share no row, and the store class handles many.
- A transaction whose failure was observed is taken as not committed, so a commit that becomes visible only later is not modelled.
- One clock reading stands for all readings inside one agent transaction; inside a settlement claim both readings are kept apart.
- AgentStore.AgentRunStore.Claim: `None` is the atomic reading; the source skips locked rows, so there it can also mean that every queued row is locked at that moment.
- Settlement claims commit in the order of their stamps. A stamp is read under the payment's lock and, when the claim reserves, the mandate's, and an exact claim's also under its authorization's, so this is the commit order of claims that share one of them; claims that share none commute. One stamp stands for the fence and the recorded day, read one after the other in one expression.
- Row and advisory locks other than the lifecycle lock appear as the atomicity of a transaction and as unique keys.
- Mirror columns, timestamps, error codes, credentials, the goal text and the echo backend's repeated execution.
- The settlement scope and on-chain proof check before consumption is one input, as are x402 funding transactions.
- The policy hash is the policy itself; default proposal keys are computed by the caller, and the validity of an image name is an input.
- The acceptance lock file: invocations are taken one after the other, which is what it enforces. The preflight checks are one input plus the balance; the paging of owned evidence and everything written after the journal is completed (archive, manifest candidate) are not modelled.
- The endpoint map of the RPC pool: endpoints share nothing, so one is modelled; promise resolution is not.
- The Redis limiter, HTTP routes, schemas and configuration, the frontend, and thin wrappers over contracts.
- Mandates.MandatesConserved: assumes that no reserving claim straddles midnight, because the code does not conserve one that does (`Mandates.ConservedIffSameDay`).
- Mandates.EveryDayWithinLimit: assumes the same, because a straddling claim can pass the limit (`Mandates.OverlappingClaimPassesTheLimit`).
- RpcTheorems.RateHolds: speaks of windows open at their end, because a closed one can hold one start more (`RpcTheorems.ClosedWindowHoldsIff`).
- LoginLimiter.AtMostLimitPerWindow: assumes one positive limit per key and no `capacity` distinct keys between its attempts, because a forgotten counter starts again.
