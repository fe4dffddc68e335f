# Hosted payment execution: a verified model

This project models the durable parts of the Agentonomy payment system in Dafny and proves what they
are for. `dafny verify dfyconfig.toml` checks it.

## The Hosted execution protocol

A payment is one row that goes from allocation through signing and submission to one outcome:
finalized, reverted and then released, or expired. Any number of relayer processes work on the same
rows, each may die at any point, and RPC answers may be lost, late or wrong.

* `ExecutionModels` has the row, the intent and the declared state table; `PilotGate` the policy and
  its integer arithmetic.
* `RepositoryModel` says, as functions of the tables, what each repository method commits or why it
  raises. One call is one transaction. The rows of the four tables that share an execution id are one
  `Record`; a sum or count over reservations is a `Total` of a `Measure`.
* `ExecutionRepository` is the repository as a class over mutable tables. Each method is proved to
  commit exactly what the functions say, to go through exactly on its stated condition, to leave
  exactly the stated record, to keep the invariant of the tables and to move no other row.
* `RepositoryInvariants`, `RepositorySteps`, `RepositoryWriting`, `RepositoryContracts`,
  `RepositoryAllocation`, `RepositoryQuotas`, `RepositoryConditions`, `RepositoryReplays` and
  `RepositoryEdges` prove what each call keeps, what it allocates, what its aggregates add up, exactly
  when it goes through, what repeating it does, and which calls leave the declared state table.
* `HostedRelayer` is the system: workers with program counters for `execute`, `_sign`, `_submit_signed`,
  `inspect_submission` and `rebroadcast_identical`, a watcher and operators that call
  whenever they like with whatever arguments, and logs of what was sent, claimed and leased. All
  nondeterminism is in the action, so a run is a sequence of actions. `Stop` is an exception or a
  crash: the worker's locals are gone and the tables stay. `HostedRelayerCalls` has the one repository
  call of each step.
* `HostedRelayerInvariants` and `HostedRelayerSteps` prove one invariant of the whole system;
  `HostedRelayerSafety` draws the theorems from it; `HostedRelayerFrames` adds what steps leave alone,
  `HostedRelayerLimits` the operator's fee limits, `HostedRelayerLateSends` what is sent of an
  execution that has ended, and `HostedRelayerProgress` which outcomes each row can still come to.
* `HostedRelayerExample` is a run that pays, and `HostedRelayerDetours` has runs that take the extra
  edges, send a released payment, and confirm a row with no journaled broadcast.
* `RelayerCalls` has the relayer's calls as they are written, driving the repository, and proves that
  an uninterrupted call is a run of one worker.
* `ExecutionProjection` is the part of the API that decides what a client is told about a row, with the
  validator of the response. `ExecutionProjectionSafety` says which rows it accepts and which calls keep
  them so, `ExecutionProjectionRuns` which runs do, and how a row gets lost to it.

The theorems about the relayer need no assumption on clocks: they hold for any readings, monotone or not.
What a client can be shown does depend on them, and `CarefulRunsAreShown` says how. The policy is
fixed for a run, as it is fixed when a repository is built; it may also be absent.

## The smaller cores

* `WatchQueue`, `WatcherWorker`, `WatcherFairness`: the watcher's retry queue, its polling loop, and
  how long a row can wait.
* `RelayerGate`, `RelayerGateSafety`: the single-slot admission journal, over processes that die
  before or after each write.
* `Decimals`, `ServicePricing`: exact prices as digit strings.
* `Merchant`: reconciliation of a CSV ledger.
* `Sums`, `Wrappers`: sums over maps, options and results.

## Where the code is not what its tables and comments say

* The declared table (`apps/facilitator/execution_models.py:51-90`) is not the relation the methods
  implement: five more edges exist, `ExtraEdge`. `HostedRelayerSafety.StatusFollowsEdges` bounds what
  steps do by both, `HostedRelayerDetours.ExtraEdgeIsTaken` takes each of the five in a run, and
  `RepositoryEdges.LeavesTableIff` says exactly which calls leave the table.
* The guard of `transition` (`apps/facilitator/execution_repository.py:987-995`) lists the targets that
  need a dedicated method, but not `finalized` and `submission_rejected`. A row finalized this way
  keeps its reservation in flight for good: `TransitionKeepsCouplingIff`, `TransitionSkipsSettlement`,
  `BypassIsPermanent`, and `GapIsReachable` for a run. A row rejected this way has no counted or journaled
  broadcast and can go on to be confirmed: `TransitionKeepsJournalIff`, `TransitionSkipsJournal`, and
  `UnjournaledIsReachable` for a run. `GateFollowsOutcome` and `BroadcastsAreJournaled` are about runs
  without the one and without the other, and `CarefulRunsAreShown` about runs without either; all other
  theorems about runs hold with such calls in them.
* A release does not stop a send. Between its claim and its send a worker does not read the row again
  (`apps/facilitator/relayer.py:698-735`), so a row that another worker's broadcast brought to a revert
  and a release can still be sent: `HostedRelayerDetours.ReleasedPaymentIsSent`. What holds of ended
  executions is in `HostedRelayerLateSends`: one that ended unsigned is never sent, none is claimed
  again, and a late send is one that a worker already past its claim owed when the row ended, counted
  in the attempts the row ended with. `LateSendIff` is the exact condition.
* The relayer gate remembers the last completed pair only
  (`agentonomy_commerce/relayer_gate.py:545-550`), so a purchase completed earlier can be admitted again:
  `EarlierPurchaseIsAdmittedAgain`, with the exact condition in `ReadmissionNeedsAnotherCompletion` and
  `AdmittedIff`.
* Not every stored row can be shown. The projection ends in the validator of its response
  (`apps/core/shared/hosted_facilitator_protocol.py:795-1039`), which asks for more than the repository
  keeps: a time of submission and of finalization, which the two transitions above leave out, and times in
  order, while every call takes its own clock reading. The repository also accepts a rejection with the
  code `unsigned_execution_expired`, which reads as an attestation; the RPC client has no such code
  (`apps/core/shared/evm_rpc.py:13-20`). `ProjectedIff` is the exact condition for a row,
  `CallKeepsShownIff` for a call and `AlwaysShownIff` for a run; the inputs are in
  `ExecutionProjectionRuns`. Most of these rows stay lost: `LostRowStaysLost`.
* The projection hides the transaction for a public state `rejected`
  (`apps/facilitator/app.py:388-390`), but the state is called `submission_rejected`, so a rejected
  submission shows its hash; `ReachableProjection` says so.
* The watcher is fair for a fixed set of rows. Rows that become watchable meanwhile have older stamps
  and go first; `WaitIsBounded` counts them.

## Model

| member | source | states |
|---|---|---|
| HostedRelayerCalls.StepCommits | apps/facilitator/relayer.py:474-735 | every step of every worker, watcher and operator leaves the tables as one call of the repository leaves them, or as they were; which call, the step alone determines |
| RepositoryWriting.WritingLands | apps/facilitator/execution_repository.py:1193-1744 | every call but a signer's, with any arguments, changes at most the record it names, along the state relation, keeping its invariant, the limits, the current signing claim and generation |
| HostedRelayerSafety.Reachable | apps/facilitator/relayer.py:474-735 | the whole invariant holds after every run: any number of workers, any interleaving, crash or exception at any point, any RPC answer, any clock reading, any watcher and operator calls |
| HostedRelayerSafety.ReachableRecord | apps/facilitator/execution_repository.py:168-321 | every row of every reachable table satisfies the row invariant, and its charge covers its bytes |
| HostedRelayerSafety.SubmissionClaimedOnce | apps/facilitator/execution_repository.py:1193-1261 | in every run the submission claim of an execution is acquired at most once, ever |
| HostedRelayerSafety.OnlyJournaledBytesAreSent | apps/facilitator/relayer.py:698-735 | whatever is sent is the row's persisted transaction, under a journaled attempt that no other send of that execution has |
| HostedRelayerSafety.SendsNeverExceedAttempts | apps/facilitator/relayer.py:151-209 | per execution, the number of sends never exceeds `broadcast_attempts` |
| HostedRelayerSafety.OneTransactionPerNonce | apps/facilitator/relayer.py:580-647 | the wire never carries two different transactions of one (chain, relayer, nonce) |
| HostedRelayerSafety.NonceHasOneSignature | apps/facilitator/execution_repository.py:245-253 | over the whole history at most one execution per (chain, relayer, nonce) carries a signature, and at most one active execution holds the nonce, recycling included |
| RepositoryAllocation.AllocatorRefinesSpecification | apps/facilitator/execution_repository.py:2221-2288 | the least reusable nonce, and the next nonce stays, if there is one; else the least nonce that is at least the pending one and above every nonce ever allocated, which is the pending one or the successor of an allocated one, and the next nonce is its successor |
| HostedRelayerSafety.AllocatedNonceIsLeast | apps/facilitator/execution_repository.py:2221-2288 | the same of every new execution in every run: no gap is ever left between the nonces of a relayer |
| RepositoryAllocation.RecyclableIsReusable | apps/facilitator/execution_repository.py:2231-2288 | the query with its two sub-selects finds exactly the nonces whose every holder has ended unsigned |
| RepositoryAllocation.AllocatedNonceIsFree | apps/facilitator/execution_repository.py:245-253 | an allocated nonce never violates the partial unique index on active rows, and no holder of it is signed |
| HostedRelayerFrames.NextNonceNeverDecreases | apps/facilitator/execution_repository.py:2221-2288 | over any continuation of a run `next_nonce` never decreases |
| RepositoryAllocation.AllocationIsIdempotent | apps/facilitator/execution_repository.py:565-580 | resubmitting an allocated intent returns its row and changes nothing, whatever pauses, quotas and nonces say |
| RepositoryAllocation.ConflictingIntentIsRefused | apps/facilitator/execution_repository.py:2302-2336 | an intent with the capability, the reservation, the purchase or the tenant, node and idempotency key of an execution, but different from its intent anywhere, conflicts |
| RepositoryAllocation.UntakenIntentIsNew | apps/facilitator/execution_repository.py:2302-2336 | an intent none of whose four keys is taken is never answered with another execution nor refused for one |
| RepositoryAllocation.TakenIntentIs | apps/facilitator/execution_repository.py:669-678 | an intent with a taken key is answered with the row that has it exactly if it is that row's own |
| RepositoryAllocation.AllocationKeepsInv | apps/facilitator/execution_repository.py:547-667 | a successful allocation keeps every table invariant: keys, nonces, quotas, rows |
| HostedRelayerSafety.KeysStayUnique | apps/facilitator/execution_repository.py:171-178 | no two executions of a reachable table have an equal capability, reservation, purchase, or tenant, node and idempotency key |
| HostedRelayerSafety.LimitsHold | apps/facilitator/execution_repository.py:1928-2009 | in every run, for every node and day: the reservations in flight, the executions allocated on the day and all ever allocated, counted as sets of rows, and the gas of all executions charged to the day, settled and released ones included, per node and for the platform, stay within the policy |
| HostedRelayerSafety.ChargeCoversPersistedBytes | apps/facilitator/relayer.py:609-624 | the charge of a signed execution covers gas limit times max fee times price ceiling of the bytes it persisted, though leases expire and stale workers race |
| HostedRelayerSafety.DailySpendWithinCap | apps/facilitator/execution_repository.py:869-964 | hence the summed worst native spend of the signed transactions of all executions charged to one day stays within the day's cap, per node and platform-wide |
| RepositoryQuotas.TotalIs | apps/facilitator/execution_repository.py:1990-2009 | the five aggregates are what their names say, in the columns: three counts of rows and two sums of charges, whatever the state of the reservation |
| RepositoryQuotas.ChargedIff | apps/facilitator/execution_repository.py:2040-2060 | a charge is accepted exactly when, beside what all other executions are charged that day, it fits under both caps |
| RepositoryQuotas.AdmittedIff | apps/facilitator/execution_repository.py:1928-1988 | a new execution is admitted exactly when no switch over its node is paused and all three counts are below their limits |
| RepositoryQuotas.AdmissionDenialIs | apps/facilitator/execution_repository.py:1928-1988 | the reason of a refusal is the first pause, outermost first, or the first limit that is reached |
| PilotGate.SameDayIff | apps/facilitator/pilot_gate.py:73-77 | two readings share a day exactly when no multiple of 86400 lies between them |
| PilotGate.WorstCaseGasUsdMicros | apps/facilitator/pilot_gate.py:80-95 | the charge is the least whole number of micro-units that covers the native spend; it exists exactly for positive inputs |
| HostedRelayerLimits.OperatorLimitsHold | apps/facilitator/relayer.py:346-448 | in every run of relayers with the same limits, all bytes persisted or sent keep the limits on gas, fee, priority fee and, if set, total fee |
| HostedRelayerLimits.QuoteGoesOnIff | apps/facilitator/relayer.py:598-615 | a signer goes on exactly when gas and fees were quoted and, under a total limit, gas times fee with the further fees is within it |
| HostedRelayerLimits.ReservedChargeIs | apps/facilitator/relayer.py:616-631 | the gas reserved is the least whole charge that covers the total with the further fees, or gas times fee, at the price ceiling |
| HostedRelayerSafety.BytesBelongToRow | apps/facilitator/relayer.py:580-647 | persisted bytes pay the row's own intent under its own relayer nonce and signature |
| HostedRelayer.GasLimit | apps/facilitator/relayer.py:740-760 | exactly when it fits the operator limit: between the estimate and six fifths of it, within one unit of the latter, and at least one unit above |
| HostedRelayer.FeeQuote | apps/facilitator/relayer.py:762-778 | exactly when all three limits hold: the given priority, and twice the gas price above it |
| HostedRelayerSafety.AcquisitionRaisesGeneration | apps/facilitator/execution_repository.py:1120-1191 | a signing claim is acquired exactly while no switch over the node is paused, before the deadline, on an approved row or an expired lease; it raises the generation by one and leases for 15 seconds, or to the deadline if that is earlier |
| HostedRelayerSafety.SentBeforeDeadline | apps/facilitator/relayer.py:698-735 | in every run, whatever `execute` sends is sent at a reading before the deadline its bytes are authorized to |
| HostedRelayerSafety.CallsHeedDeadline | apps/facilitator/relayer.py:474-647 | a worker allocates, claims, reserves gas and persists at readings before the deadline of the row it names, and releases at or after it |
| HostedRelayerSafety.LeasesNeverOverlap | apps/facilitator/execution_repository.py:1161-1191 | successive leases of an execution rise in generation, do not overlap by the readings used, and end by the deadline |
| HostedRelayerSafety.StaleSignerIsFenced | apps/facilitator/execution_repository.py:887-892 | however a run goes on, no step a signer makes under a superseded generation changes the tables or sends anything |
| HostedRelayerSafety.GenerationHasOneSigner | apps/facilitator/execution_repository.py:1120-1191 | no two workers sign under one generation of an execution, neither at one time nor at different times of a run |
| HostedRelayerSafety.StatusFollowsEdges | apps/facilitator/execution_models.py:51-90 | every status change of every step of a run is a declared edge or one of the five extra ones; a step adds at most one attempt and one generation |
| HostedRelayerDetours.ExtraEdgeIsTaken | apps/facilitator/execution_models.py:51-90 | each of the five extra edges is outside the declared table and taken in some run |
| RepositoryEdges.LeavesTableIff | apps/facilitator/execution_models.py:51-90 | a call that changes a status leaves the declared table if and only if it marks an unknown submission submitted or rejected, observes a receipt of a rejected one, or releases a reverted one |
| HostedRelayerSafety.RecordsEvolve | apps/facilitator/execution_repository.py:1746-1861 | over any continuation of a run: no phase falls, success and release are final, signed material and its charge are immutable, journals only grow, and stamps of broadcast and outcomes never move |
| HostedRelayerSafety.ConfirmedIsFinal | apps/facilitator/execution_repository.py:1603-1718 | an execution once confirmed is never reverted, expired or released |
| HostedRelayerSafety.EndedIsFrozen | apps/facilitator/execution_repository.py:1457-1488 | row, reservation, journal and observations of an expired or released execution stay as they are in every continuation, but for the watcher's stamp: nothing is signed or counted any more |
| HostedRelayerLateSends.EndedIsNeverClaimed | apps/facilitator/execution_repository.py:1120-1261 | an ended execution is never claimed again, for signing or for submission, in any continuation |
| HostedRelayerLateSends.EndedUnsignedIsNeverSent | apps/facilitator/relayer.py:698-735 | an execution that ended unsigned is never on the wire, before or after |
| HostedRelayerLateSends.EndedIsRefused | apps/facilitator/execution_repository.py:1193-1455 | the calls a worker makes before it sends all refuse an ended row |
| HostedRelayerLateSends.StepSendsIff | apps/facilitator/relayer.py:698-735 | a step sends an execution's bytes exactly when it is the send of a worker past its claim, and sends nothing else |
| HostedRelayerLateSends.LateSendsWereClaimed | apps/facilitator/relayer.py:698-735 | whatever is sent of an execution after it ended was owed when it ended: a worker was past its claim then, with these bytes and this attempt number |
| HostedRelayerLateSends.LateSendIff | apps/facilitator/relayer.py:698-735 | something of an ended execution can still be sent exactly when such a worker exists |
| HostedRelayerLateSends.LateSendsAreCounted | apps/facilitator/execution_repository.py:1193-1261 | all sends of an ended execution, late ones included, stay within the attempts it ended with |
| HostedRelayerDetours.ReleasedPaymentIsSent | apps/facilitator/relayer.py:698-735 | a run sends a released payment: one worker pauses between claim and send, another one's rebroadcast is on the wire, reverts and is released, and then the first sends the same bytes without reading the row again |
| HostedRelayerSafety.MaterialIsImmutable | apps/facilitator/execution_repository.py:1050-1059 | signature, bytes, hash and charge never change once present |
| HostedRelayerSafety.ReleaseNeedsProof | apps/facilitator/execution_repository.py:1603-1718 | every release is at or after the deadline; a signed row is released only after a status-0 observation at the chain's finality depth and proof of no transfer |
| HostedRelayerSafety.MaterialComesTogether | apps/facilitator/execution_repository.py:1086-1112 | signature, bytes and hash are present together, exactly on rows signed or later and not expired, or released with evidence |
| HostedRelayerSafety.JournalIsComplete | apps/facilitator/execution_repository.py:340-358 | the attempt numbers of a signed row are exactly 0 to `broadcast_attempts`, each once, all with its hash; an unsigned row has none |
| HostedRelayerSafety.RowsPassValidation | apps/facilitator/execution_models.py:238-404 | no reachable row is rejected by the validators that read it back, nor by the check constraints on leases and finality evidence |
| HostedRelayerSafety.GateFollowsOutcome | apps/facilitator/execution_repository.py:2153-2219 | in runs that finalize by `finalize`, a reservation is settled exactly for finalized, reverted and reorg_review rows and released exactly for released and expired ones |
| HostedRelayerSafety.TransitionKeepsCouplingIff | apps/facilitator/execution_repository.py:987-995 | the generic `transition` keeps reservation and outcome coupled exactly when its target is not `finalized` |
| HostedRelayerSafety.TransitionSkipsSettlement | apps/facilitator/execution_repository.py:987-995 | the gap, on every confirmed row: the reservation goes on counting as in flight, and a later `finalize` does not repair it |
| HostedRelayerSafety.BypassIsPermanent | apps/facilitator/execution_repository.py:1524-1566 | a row finalized through the gap keeps its reservation in flight in every continuation of the run |
| HostedRelayerSafety.BroadcastsAreJournaled | apps/facilitator/execution_repository.py:340-358 | in every run without a generic `transition` to `submission_rejected`, a row past `signed` has a counted broadcast, journaled under attempt 1 with its hash |
| HostedRelayerSafety.TransitionKeepsJournalIff | apps/facilitator/execution_repository.py:987-995 | a generic `transition` keeps that exactly when its target is not `submission_rejected` |
| HostedRelayerDetours.UnjournaledIsReachable | apps/facilitator/execution_repository.py:987-995 | a run reaches a confirmed row with no counted and no journaled broadcast |
| HostedRelayerSafety.TransitionSkipsJournal | apps/facilitator/execution_repository.py:987-995 | the same guard lets a signed row become `submission_rejected` with no broadcast counted or journaled |
| HostedRelayerProgress.WatchableIff | apps/facilitator/execution_repository.py:731-747 | a reachable row of the chain is listed for the watcher if and only if some call of the watcher, with some arguments, changes its status |
| HostedRelayerProgress.ReleaseExpiredIff | apps/facilitator/execution_repository.py:1457-1488 | on reachable rows `release_expired` succeeds exactly on ended ones and on unsigned ones at or after the deadline, whatever is paused; it releases the latter and leaves the former |
| HostedRelayerProgress.SignedCanFinalizeIff | apps/facilitator/execution_repository.py:1524-1566 | a signed execution of a reachable state can still be finalized exactly when it is not reverted, released or in review |
| HostedRelayerProgress.SignedCanReleaseIff | apps/facilitator/execution_repository.py:1603-1718 | it can still be released exactly when no successful receipt has been observed |
| HostedRelayerProgress.OutcomeIsReachable | apps/facilitator/execution_repository.py:1457-1718 | from every reachable state every execution can come to an outcome by the dedicated methods, whatever is paused |
| HostedRelayerExample.PaymentCanFinalize | apps/facilitator/relayer.py:474-572 | any affordable payment can run to its end: one claim, one send, finalized and settled |
| HostedRelayerExample.GapIsReachable | apps/facilitator/execution_repository.py:987-995 | a run reaches a finalized row whose reservation is still in flight |
| RepositoryReplays.PersistIsReplayed | apps/facilitator/execution_repository.py:1050-1059 | the same signature and bytes are accepted again without effect, any others refused |
| RepositoryReplays.ObservationIsReplayed | apps/facilitator/execution_repository.py:1863-1926 | the same receipt and evidence are accepted again without effect, any others refused |
| RepositoryReplays.OutcomesExclude | apps/facilitator/execution_repository.py:1805-1816 | once a success or a revert is recorded the other is refused |
| RepositoryReplays.ReleaseIsReplayed | apps/facilitator/execution_repository.py:1603-1718 | a revert is released on one proof and one boundary: exact repetition is accepted without effect, any other refused |
| RepositoryReplays.RejectionIsReplayed | apps/facilitator/execution_repository.py:1337-1382 | a rejection keeps its reason: another one is refused |
| RepositoryReplays.MarksAreReplayed | apps/facilitator/execution_repository.py:1263-1335 | repeating `mark_submitted` or `mark_submission_unknown` has no effect |
| RepositoryReplays.EndsAreReplayed | apps/facilitator/execution_repository.py:1457-1566 | repeating `finalize` or `release_expired` has no effect |
| RepositoryReplays.ClaimIsSpent | apps/facilitator/execution_repository.py:1193-1261 | after an acquisition the next caller is refused or told it did not acquire, with the same row |
| RepositoryReplays.LeaseExcludes | apps/facilitator/execution_repository.py:1120-1191 | until a lease ends, nobody else acquires the signing claim; at its end the next caller does |
| RepositoryReplays.PauseStopsFunding | apps/facilitator/execution_repository.py:1928-1988 | while a scope is paused no claim, charge, new signature, submission claim or rebroadcast of its executions goes through |
| RepositoryReplays.PauseStopsAllocation | apps/facilitator/execution_repository.py:1928-1988 | while a scope is paused no new execution is allocated to its identities |
| RepositoryReplays.PauseIsScoped | apps/facilitator/execution_repository.py:801-867 | a pause closes exactly the identities in its scope; clearing it opens them unless another scope is paused |
| RepositoryConditions.AllocateOrReturnIff | apps/facilitator/execution_repository.py:547-667 | a valid intent and consistent nonces and reading go through exactly when the intent has its execution, or none of its keys is taken, its node is admitted and the identifier is free |
| RepositoryConditions.ClaimSigningIff | apps/facilitator/execution_repository.py:1120-1191 | the call goes through on rows of the invariant exactly on approved and signing rows, before the deadline, while nothing over the node is paused |
| RepositoryConditions.ReservePilotGasIff | apps/facilitator/execution_repository.py:869-964 | the call goes through on rows of the invariant exactly under a policy, on signing rows of the given generation, unpaused, with a positive cost that fits under both caps of the day beside all other charges |
| RepositoryConditions.PersistSignedIff | apps/facilitator/execution_repository.py:1027-1118 | the call goes through on rows of the invariant exactly under the current generation, on signing rows that are charged, before the deadline and unpaused, or as an exact repetition |
| RepositoryConditions.ClaimSubmissionIff | apps/facilitator/execution_repository.py:1193-1261 | the call goes through on rows of the invariant exactly on signed and unknown rows, unpaused, whose charge is on the day or fits there |
| RepositoryConditions.MarkSubmittedIff | apps/facilitator/execution_repository.py:1263-1298 | the call goes through on rows of the invariant exactly on the four states of submission |
| RepositoryConditions.MarkSubmissionUnknownIff | apps/facilitator/execution_repository.py:1300-1335 | the call goes through on rows of the invariant exactly on the four states of submission |
| RepositoryConditions.MarkSubmissionRejectedIff | apps/facilitator/execution_repository.py:1337-1382 | the call goes through on rows of the invariant exactly on signed and unknown rows, and on those rejected with the same code |
| RepositoryConditions.RebroadcastRawIff | apps/facilitator/execution_repository.py:1384-1455 | the call goes through on rows of the invariant exactly on awaiting rows, with the stored bytes or none given, unpaused, whose charge is on the day or fits there |
| RepositoryConditions.ReleaseExpiredIff | apps/facilitator/execution_repository.py:1457-1488 | the call goes through on rows of the invariant exactly on ended rows, and on approved and signing ones at or after the deadline |
| RepositoryConditions.TransitionIff | apps/facilitator/execution_repository.py:969-1025 | the call goes through on rows of the invariant exactly along four kinds of edges: to approved, from signed to rejected, from confirmed to finalized, and from an unsigned row to its end at the deadline |
| RepositoryConditions.RecordObservationIff | apps/facilitator/execution_repository.py:1746-1861 | the call goes through on rows of the invariant exactly with a receipt at depth 2 of the safe block on Base or 3 of the finalized block on Polygon, on awaiting rows, or as an exact repetition |
| RepositoryConditions.FinalizeIff | apps/facilitator/execution_repository.py:1524-1566 | the call goes through on rows of the invariant exactly on confirmed and finalized rows with the boundary of the chain |
| RepositoryConditions.ReleaseRevertedIff | apps/facilitator/execution_repository.py:1603-1718 | the call goes through on rows of the invariant exactly with all seven fields of the proof, a boundary from the deadline to the reading, and a final look at the same receipt: on reverted rows no shallower and not before the revert, on released ones identical |
| ExecutionRepository.ExecutionRepository.AllocateOrReturn | apps/facilitator/execution_repository.py:547-667 | succeeds exactly on the stated condition and keeps the invariant: the row that answers is for this intent, a taken key is answered by its row and changes nothing, a new row is approved with everything else empty, and no other row moves; an error leaves the tables alone |
| ExecutionRepository.ExecutionRepository.FindForIntent | apps/facilitator/execution_repository.py:669-678 | nothing exactly when no row has one of the four keys, an error exactly when a row that has one differs anywhere, else the intent's own row |
| ExecutionRepository.ExecutionRepository.AllocateRelayerNonce | apps/facilitator/execution_repository.py:2221-2288 | the least reusable nonce with the allocator unmoved, or the least one that is neither below the pending one nor at or below any allocated, with the allocator at its successor |
| ExecutionRepository.ExecutionRepository.SelectRecyclable | apps/facilitator/execution_repository.py:2231-2270 | the least recyclable nonce, if any |
| ExecutionRepository.ExecutionRepository.Aggregate | apps/facilitator/execution_repository.py:1990-2009 | the loop computes the sum over the reservations without the excluded ones |
| ExecutionRepository.ExecutionRepository.AdmissionDenial | apps/facilitator/execution_repository.py:1928-1988 | the first violated pause or quota, in the order they are checked |
| ExecutionRepository.ExecutionRepository.GasDenial | apps/facilitator/execution_repository.py:2040-2060 | the first violated daily gas cap, with the execution's own earlier charge excluded |
| ExecutionRepository.ExecutionRepository.EnsureGas | apps/facilitator/execution_repository.py:2011-2071 | the charge is moved to the day of the broadcast, or refused |
| ExecutionRepository.ExecutionRepository.ClaimSigning | apps/facilitator/execution_repository.py:1120-1191 | succeeds exactly on the stated condition, keeps the invariant and every other row; acquired exactly on an approved row or an expired lease, with exactly status, generation and lease changed; not acquired, nothing changes |
| ExecutionRepository.ExecutionRepository.ReservePilotGas | apps/facilitator/execution_repository.py:869-964 | succeeds exactly on the stated condition, keeps the invariant, daily caps included, and every other row; exactly the reservation's charge and day change |
| ExecutionRepository.ExecutionRepository.PersistSigned | apps/facilitator/execution_repository.py:1027-1118 | succeeds exactly on the stated condition, keeps the invariant and every other row; the record is the old one with signature, bytes, hashes, status and attempt 0, its lease gone; a repetition changes nothing |
| ExecutionRepository.ExecutionRepository.ClaimSubmission | apps/facilitator/execution_repository.py:1193-1261 | succeeds exactly on the stated condition, keeps the invariant, daily caps included, and every other row; the charge stays and is on the day; acquired exactly on a signed row, with exactly status, count, time and one journal entry changed; not acquired, nothing else changes |
| ExecutionRepository.ExecutionRepository.MarkSubmitted | apps/facilitator/execution_repository.py:1263-1298 | succeeds exactly on the stated condition, keeps the invariant and every other row; exactly status and failure code change, and out of signed also count, time and journal |
| ExecutionRepository.ExecutionRepository.MarkSubmissionUnknown | apps/facilitator/execution_repository.py:1300-1335 | the same for submission_unknown, which drops the code of a rejection only |
| ExecutionRepository.ExecutionRepository.MarkSubmissionRejected | apps/facilitator/execution_repository.py:1337-1382 | the same for submission_rejected, with the given code |
| ExecutionRepository.ExecutionRepository.RebroadcastRaw | apps/facilitator/execution_repository.py:1384-1455 | succeeds exactly on the stated condition, keeps the invariant, daily caps included, and every other row; returns the stored bytes; exactly count, journal and the day of the charge change |
| ExecutionRepository.ExecutionRepository.ReleaseExpired | apps/facilitator/execution_repository.py:1457-1488 | succeeds exactly on the stated condition, keeps the invariant and every other row; an active row is released at the reading, its lease, charge and reservation gone; an ended one is returned unchanged |
| ExecutionRepository.ExecutionRepository.Transition | apps/facilitator/execution_repository.py:969-1025 | succeeds exactly on the stated edges, keeps the invariant and every other row; an end is as of `release_expired`, any other target changes the status alone |
| ExecutionRepository.ExecutionRepository.RecordObservation | apps/facilitator/execution_repository.py:1746-1861 | succeeds exactly on the stated condition, keeps the invariant and every other row; exactly status, receipt, its time and one observation are new, and a revert settles the reservation; a replay changes nothing |
| ExecutionRepository.ExecutionRepository.Confirm | apps/facilitator/execution_repository.py:1490-1522 | the same for a status-1 receipt |
| ExecutionRepository.ExecutionRepository.Revert | apps/facilitator/execution_repository.py:1568-1601 | the same for a status-0 receipt with no accepted transfer |
| ExecutionRepository.ExecutionRepository.Finalize | apps/facilitator/execution_repository.py:1524-1566 | succeeds exactly on the stated condition, keeps the invariant and every other row; exactly status and time change, and the reservation is settled; a finalized row is returned unchanged |
| ExecutionRepository.ExecutionRepository.ReleaseReverted | apps/facilitator/execution_repository.py:1603-1718 | succeeds exactly on the stated condition, keeps the invariant and every other row; exactly status, proof, receipt and time change, and the reservation is released with its charge kept; a replay changes nothing |
| ExecutionRepository.ExecutionRepository.MarkReorgReview | apps/facilitator/execution_repository.py:1720-1744 | succeeds exactly on a finalized row, non-canonical evidence and a valid reading; exactly status and review record change, every other row stays; the invariant is kept |
| ExecutionRepository.ExecutionRepository.SetPilotPause | apps/facilitator/execution_repository.py:801-867 | exactly the scopes other than the given one are paused as before, the given one as told; rows and nonces stay, and the invariant is kept |
| ExecutionRepository.ExecutionRepository.ListWatchableIds | apps/facilitator/execution_repository.py:710-758 | exactly with a cursor of 1 to 96 visible characters and a limit of 1 to 1000: the first `limit` watchable rows, least attempted first, a row never attempted as at 0, equal ones by identifier |
| ExecutionRepository.ExecutionRepository.RecordWatcherAttempt | apps/facilitator/execution_repository.py:760-775 | succeeds exactly on an existing row; exactly its stamp changes, every other row stays; the invariant is kept |
| RelayerCalls.Relayer.Execute | apps/facilitator/relayer.py:474-572 | an uninterrupted call commits and sends exactly what one worker does on the steps `ExecuteInputs` fixes, and ends with the worker idle; unapproved it changes nothing; it sends at most once, only what was not found, claimed and sent at readings before the intent's deadline |
| RelayerCalls.Relayer.Advance | apps/facilitator/relayer.py:519-572 | with the execution in hand: at its deadline an unsigned one is released and anything else left alone; before it, the worker's steps to the end |
| RelayerCalls.Relayer.Sign | apps/facilitator/relayer.py:580-647 | the signing part commits exactly what the worker does on its quote, reservation and signature; what it signs keeps the operator's total with the further fees, at readings before the deadline |
| RelayerCalls.Relayer.SubmitSigned | apps/facilitator/relayer.py:698-735 | the submission part commits and sends exactly what the worker does; the bytes go out if and only if they were not found, are stored and the reading is before the deadline; a found one is submitted, an accepted one under its own hash submitted and under another unknown, a refused one rejected with its code, and any other answer changes nothing |
| RelayerCalls.SubmissionReconciler.Inspect | apps/facilitator/relayer.py:211-233 | the inspection commits exactly what the worker does on its lookup; a found row in submission is submitted; it returns the stored row, unchanged, exactly when that is in submission and not found |
| RelayerCalls.SubmissionReconciler.RebroadcastIdentical | apps/facilitator/relayer.py:151-209 | an uninterrupted rebroadcast commits and sends exactly what one worker does on the steps `RebroadcastInputs` fixes; it sends at most once, and only what was not found |
| RelayerCalls.SubmissionReconciler.Send | apps/facilitator/relayer.py:188-209 | the stored bytes go out once under the given attempt, and each answer leaves the row as stated for `SubmitSigned`, but that an answer that knows nothing marks it unknown |
| RelayerCalls.CallContinuesRun | apps/facilitator/relayer.py:474-572 | a call made in a reachable state leaves a reachable state, so the theorems about runs hold of calls |
| ExecutionProjection.ExpiryNeverRaises | apps/facilitator/app.py:279-349 | on every reachable row the attestation does not raise; it attests exactly the rows that ended unsigned, at the time they ended, at or after the deadline and after creation |
| ExecutionProjection.AttestedIff | apps/facilitator/app.py:279-349 | of any row: an expiry is attested exactly if it ended without a trace of signing, broadcast or observation, at the one time it ended, not before deadline or creation |
| ExecutionProjection.AcceptedIff | apps/core/shared/hosted_facilitator_protocol.py:741-1039 | of any response: the validator accepts exactly the safe integers, final receipts, ordered times and, for each public state, what it must and must not show |
| ExecutionProjection.ProjectExecution | apps/facilitator/app.py:352-443 | the result is the error of the attestation, of the release evidence or of the response validator, or a response that has every property of `Projects` and that the validator accepts |
| ExecutionProjection.ProjectionIsDetermined | apps/facilitator/app.py:352-443 | this leaves one result |
| ExecutionProjection.TimesOrdered | apps/core/shared/hosted_facilitator_protocol.py:872-885 | the validator's loop accepts exactly the times that are in order |
| ExecutionProjection.InOrderPairwise | apps/core/shared/hosted_facilitator_protocol.py:872-885 | which is: none is before the issue, and no later one before an earlier one |
| ExecutionProjectionSafety.ProjectedIff | apps/core/shared/hosted_facilitator_protocol.py:741-1039 | a reachable row is projected if and only if its numbers are safe JSON integers and `RowError` finds nothing: past `signed` it has a submission time, if finalized a finalization time, times in sequence, and no failure code that reads as an attestation; otherwise it names what the validator raises |
| ExecutionProjectionSafety.ReachableProjection | apps/facilitator/app.py:352-443 | a response to a reachable row is `expired` exactly for unsigned ends, shows the hash and a submission time exactly once the row left `signed`, a finalization time if finalized, release evidence that proves no transfer at a boundary between deadline and release exactly for released signed rows, and never `AUTHORIZATION_EXPIRED` |
| ExecutionProjectionSafety.CallKeepsShownIff | apps/facilitator/execution_repository.py:1027-1744 | a call with any arguments leaves a row that can be shown so if and only if it leaves the row alone or is one of `KeepsShown`: a receipt is read no earlier than the broadcast, a finalization no earlier than the confirmation, and so on |
| ExecutionProjectionRuns.AlwaysShownIff | apps/facilitator/app.py:352-443 | in every state a run comes through every row can be shown, if and only if every step of the run keeps what it finds |
| ExecutionProjectionRuns.CarefulRunsAreShown | apps/facilitator/app.py:352-443 | if every call reads a clock at or after its row's stamps and in range, takes receipts with numbers in range and failure codes other than the attestation's, and no `transition` goes to `submission_rejected` or `finalized`, then no projection of a reachable row raises |
| ExecutionProjectionRuns.LostRowStaysLost | apps/core/shared/hosted_facilitator_protocol.py:872-885 | a row past `signed` without a broadcast time, or with times out of sequence, is not projected in any continuation of the run |
| ExecutionProjectionRuns.SkippedBroadcastRaises | apps/core/shared/hosted_facilitator_protocol.py:960-961 | after a generic `transition` to `submission_rejected`, on any signed row that could be shown, the projection raises for the missing submission time |
| ExecutionProjectionRuns.SkippedSettlementRaises | apps/core/shared/hosted_facilitator_protocol.py:1014-1016 | after a generic `transition` to `finalized`, on any confirmed row that could be shown, it raises for the missing finalization time |
| ExecutionProjectionRuns.EarlyReceiptRaises | apps/core/shared/hosted_facilitator_protocol.py:872-885 | after a receipt read before the broadcast's time, on any awaiting row that could be shown, it raises for times out of order |
| ExecutionProjectionRuns.AttestingRejectionRaises | apps/core/shared/hosted_facilitator_protocol.py:798-804 | after a rejection with the code `unsigned_execution_expired`, on any unknown row that could be shown, it raises for a misplaced attestation |
| ExecutionProjectionRuns.UncountedRowIsLost | apps/facilitator/execution_repository.py:987-995 | a run reaches a confirmed row that no projection shows |
| ExecutionProjectionRuns.BypassedRowIsNotShown | apps/facilitator/execution_repository.py:987-995 | a run reaches a finalized row that no projection shows |
| ExecutionProjectionRuns.UnorderedRowIsLost | apps/facilitator/execution_repository.py:1524-1566 | a run by the dedicated methods alone reaches a finalized row that no projection shows, as one clock is behind another |
| WatcherWorker.WatcherWorker.RunOnce | apps/facilitator/watcher_worker.py:97-153 | lists the first batch in retry order, then makes each visit as specified: stop, unrecorded stamps and watch failures included; tables, cursor and results |
| WatchQueue.IdLessIff | apps/facilitator/execution_repository.py:751-754 | identifiers are in dictionary order |
| WatchQueue.ListingIsDetermined | apps/facilitator/execution_repository.py:751-758 | the order and the limit leave one listing |
| WatchQueue.WholeBatchIsAttempted | apps/facilitator/watcher_worker.py:114-153 | an undisturbed round attempts and stamps its whole batch in order, whatever `watch` raises, and changes no other row |
| WatchQueue.RoundAdvances | apps/facilitator/execution_repository.py:751-758 | a row that a round passes over had a full batch ahead of it, and has it behind afterwards |
| WatchQueue.WaitIsBounded | apps/facilitator/execution_repository.py:741-775 | a row passed over k times had at least k full batches ahead, counting rows that became watchable meanwhile |
| WatchQueue.EveryRowIsAttempted | apps/facilitator/execution_repository.py:741-775 | for a fixed set of N rows any ceil(N / B) consecutive rounds attempt every row |
| WatcherFairness.WaitBesideTheSystem | apps/facilitator/watcher_worker.py:97-153 | the bound holds while workers, operators and `watch` itself act between the rounds |
| WatcherFairness.WatcherIsFair | apps/facilitator/watcher_worker.py:97-153 | beside the running system too, any ceil(N / B) consecutive rounds attempt every one of a fixed set of N rows |
| HostedRelayerFrames.StepKeepsFrame | apps/facilitator/execution_repository.py:760-775 | no step but `record_watcher_attempt` moves an attempt stamp, none but a persisting signer's stores bytes, none lowers a next nonce, and no row ever vanishes |
| RelayerGateSafety.JournalMatchesLog | agentonomy_commerce/relayer_gate.py:355-382 | in every run, deaths before and after each write included: the journal passes its own validator, the decision log is well bracketed, and the journal is exactly what the log says |
| RelayerGateSafety.AdmissionWaitsForResolution | agentonomy_commerce/relayer_gate.py:530-561 | after a pair is admitted nothing is admitted before a completion, reconciliation or abort of that very pair, which is the next event |
| RelayerGateSafety.ActivePairIsRetained | agentonomy_commerce/relayer_gate.py:481-628 | the active pair survives every step but a completion or reconciliation whose proof checks out for it, field by field, or an abort by its lease holder on a denial of broadcast for it |
| RelayerGateSafety.OneLeaseHolds | agentonomy_commerce/relayer_gate.py:275-297 | at most one lease is inside the gate |
| RelayerGateSafety.CompletionSucceedsIff | agentonomy_commerce/relayer_gate.py:569-602 | an open lease's first completion succeeds exactly when the proof, field by field, is verified twice, on the chain, successful, for its pair, in the network's token to the network's payee, with a well-formed hash and amount; it records exactly that |
| RelayerGateSafety.AbortSucceedsIff | agentonomy_commerce/relayer_gate.py:604-628 | an open lease's first abort succeeds exactly on a trusted denial of broadcast for its pair, and clears the pair |
| RelayerGateSafety.ReconciledIff | agentonomy_commerce/relayer_gate.py:481-515 | a reconciliation closes the active pair exactly when nobody holds the lock and the proof checks out for that pair |
| RelayerGateSafety.EntersIff | agentonomy_commerce/relayer_gate.py:530-561 | a lease enters exactly when it is not inside, nobody holds the lock, and the slot has its own pair or is empty and its purchase was not the last one completed |
| RelayerGateSafety.AdmittedIff | agentonomy_commerce/relayer_gate.py:530-561 | with no pair active exactly the purchase of the last completion is refused |
| RelayerGateSafety.ReadmissionNeedsAnotherCompletion | agentonomy_commerce/relayer_gate.py:545-550 | a completed purchase is admitted again only after another purchase completed in between |
| RelayerGateSafety.EarlierPurchaseIsAdmittedAgain | agentonomy_commerce/relayer_gate.py:545-550 | and then it is: of any two purchases the first can be paid, then the second, then the first again |
| RelayerGate.RelayerGate.ReconcileVerifiedPayment | agentonomy_commerce/relayer_gate.py:481-515 | journal, lock and answer as specified |
| RelayerGate.RelayerLease.Enter | agentonomy_commerce/relayer_gate.py:530-561 | journal, lock and lease as specified; an error leaves all three as they were |
| RelayerGate.RelayerLease.Exit | agentonomy_commerce/relayer_gate.py:563-567 | the lock is given back, the journal stays |
| RelayerGate.RelayerLease.CompleteVerifiedPayment | agentonomy_commerce/relayer_gate.py:569-602 | as specified, or no change |
| RelayerGate.RelayerLease.AbortUnsubmitted | agentonomy_commerce/relayer_gate.py:604-628 | as specified, or no change |
| RelayerGate.ValidatePaymentIff | agentonomy_commerce/relayer_gate.py:89-133 | a proof is accepted for a pair exactly on its eleven fields |
| RelayerGate.ValidateAbortIff | agentonomy_commerce/relayer_gate.py:136-158 | a denial is accepted for a pair exactly on its five fields |
| RelayerGate.ValidatePayment | agentonomy_commerce/relayer_gate.py:89-133 | a proof that checks out yields a completion the journal validator accepts |
| RelayerGate.LoweringIsIdempotent | agentonomy_commerce/relayer_gate.py:65-71 | a canonical owner is its own canonical form |
| ServicePricing.AtomicFromDecimal | agentonomy_commerce/service_pricing.py:42-60 | the digit loop computes the exact atomic units, or refuses |
| ServicePricing.PriceRoundTrip | agentonomy_commerce/service_pricing.py:124-146 | for every n > 0 the price text of n units reads back as n, and `payment_terms` accepts the pair in both forms |
| ServicePricing.SameTextIffSameValue | agentonomy_commerce/service_pricing.py:95-105 | two accepted prices are printed alike exactly when their atomic values agree |
| ServicePricing.PrintedPriceIsFixedPoint | agentonomy_commerce/service_pricing.py:70-105 | a printed price is canonical and parsing it again gives the same terms |
| ServicePricing.CanonicalIffUnchanged | agentonomy_commerce/service_pricing.py:70-92 | exactly the canonical texts are printed unchanged |
| ServicePricing.FormatIsAtomicText | agentonomy_commerce/service_pricing.py:70-92 | for texts and decimals of any exponent the text is that of the atomic value |
| ServicePricing.PriceInUnits | agentonomy_commerce/service_pricing.py:42-60 | a text reads as a million units for each whole token and each of its at most six decimals in its place |
| ServicePricing.PriceTermsOf | agentonomy_commerce/service_pricing.py:95-105 | which texts are accepted, and what terms they get |
| ServicePricing.PaymentTermsAgree | agentonomy_commerce/service_pricing.py:134-146 | accepted exactly when both parts are accepted and name one amount; the result is what that amount determines |
| Merchant.ReconcileCsv | agentonomy_commerce/merchant.py:158-265 | the two loops: the report describes exactly the folded file, or the fold's error is raised |
| Merchant.ReadRows | agentonomy_commerce/merchant.py:197-229 | the first loop is the fold over the lines |
| Merchant.TotalRows | agentonomy_commerce/merchant.py:233-248 | the second loop tallies every kind and category of the unique rows |
| Merchant.FoldAccepts | agentonomy_commerce/merchant.py:197-229 | the single pass accepts exactly the files of well-formed rows, at most 1000, in one currency, equal under equal identifiers; each row is kept once, each repeated identifier listed once |
| Merchant.LedgerIgnoresOrderAndRepetition | agentonomy_commerce/merchant.py:213-225 | the unique rows depend on the set of rows only |
| Merchant.RepeatedRow | agentonomy_commerce/merchant.py:213-222 | one more copy of an accepted row, at any place in the file, changes the row count and the duplicate list only |
| Merchant.ReportConserves | agentonomy_commerce/merchant.py:238-265 | every accepted file: net is income less expense, category totals add up to net, duplicates are distinct and among the unique identifiers |
| Merchant.NetIsIncomeLessExpense | agentonomy_commerce/merchant.py:238-246 | for any ledger and currency, net is income less expense |
| Merchant.CategoriesSumToNet | agentonomy_commerce/merchant.py:238-248 | for any ledger and currency, the totals of its categories add up to net |
| Merchant.NormalizeIff | agentonomy_commerce/merchant.py:123-156 | which rows are accepted, and that they are kept as they are but for upper-case currency letters and the amount in cents |
| Merchant.AmountIs | agentonomy_commerce/merchant.py:102-120 | an optional sign, digits and two decimals read as their cents, up to a million million units |
| Merchant.AmountHasForm | agentonomy_commerce/merchant.py:102-120 | and nothing else is an amount |
| Merchant.FormatMoneyIs | agentonomy_commerce/merchant.py:57-67 | a minus sign below zero, the units without leading zeros, a point and two decimals |
| Merchant.TotalIs | agentonomy_commerce/merchant.py:238-248 | each total is the sum of the amounts of its rows: all, those above zero, those below with the sign changed, or a category's; and exactly the currencies with such a row have one |
| Merchant.MoneyRoundTrip | agentonomy_commerce/merchant.py:57-120 | money text keeps every cent and its sign |

## Left out

- HostedRelayerSafety.BroadcastsAreJournaled: is about runs without a `transition` to `submission_rejected`, as it is false with one; `TransitionKeepsJournalIff` has the exact condition for a call.
- HostedRelayerSafety.GateFollowsOutcome: is about runs without a `transition` to `finalized`, as it is false with one; `TransitionKeepsCouplingIff` has the exact condition for a call.
- SQL, sessions, advisory locks and retries after integrity errors: one repository call is one atomic step.
- Gate events, `updated_at` and the audit of denied attempts: written, never read by the modelled logic.
- Keccak, ECDSA, KMS, EIP-712, ABI and RLP: a signed transaction is a record and its hash is injective; the shape checks on signatures, hashes and addresses in the Hosted core go with them.
- Fields of the intent that are stored and compared but not inspected (payee, token, amount, owner nonce, hashes): one opaque `scope`.
- Identifier, evidence and failure-code patterns of the Hosted core: string checks that one branch settles.
- Chain and token binding checks, RPC chain checks and malformed RPC answers: each ends the worker, which `Stop` covers at every point.
- The two Base fee oracles of `_additional_fee_upper_bound`: their sum is an input of the signing step.
- What `execute` and `rebroadcast_identical` return or raise to their caller, and the re-reads that only serve it; table changes and bytes sent are modelled.
- A nonce that would pass 2^63 - 1 inside the allocator: the observed nonces are bounded as they are checked, the counter is not.
- A row charged under no policy and read under one: the policy is fixed for a run, so the branch that meters an uncharged signed row is modelled but not reached.
- An upper bound on when claimed bytes are sent: a worker may pause between its claim and its send for any time; `HostedRelayerLateSends` says what is sent then.
- HostedRelayerProgress.OutcomeIsReachable: is about what can happen, not that it does; nothing obliges a watcher or the chain to act.
- `watch` itself, enrollment, rotation and DPoP replay: the watcher is any caller of the watcher methods; its source file is not part of this model.
- WatcherWorker.WatcherWorker.RunOnce: the table changes that `watch` makes during a round are taken to happen after it; they cannot touch a stamp, and the batch is read once at the start.
- ExecutionProjectionRuns.CarefulRunsAreShown: is about runs with careful callers, as it is false without; `AlwaysShownIff` has the exact condition.
- Shape checks of the response validator (identifiers, hashes, addresses, amounts, the failure code's pattern, watcher version) and its chain and token table: they are string checks on columns that are stored as given.
- List cursors other than `None` in the fairness results: the worker never passes one. Identifiers compare character by character, not by a database collation.
- WatchQueue.EveryRowIsAttempted: rounds in which a stamp could not be written or a stop was requested are excluded, as they attempt nothing.
- RelayerGate.RelayerGate.constructor: a state directory whose journal is invalid raises in the original; here it is a precondition.
- RelayerGateSafety.CompletionSucceedsIff: `_write_journal` can raise after its replace, when the directory cannot be synced or validated, in a process that lives on; the model's write succeeds, or the process dies before or after it.
- File modes, links, JSON syntax and the constant fields of the gate's journal: an exclusive lock that dies with its holder, and an atomic write.
- Non-ASCII decimal digits, which the original's patterns accept and print as ASCII digits, and Python's limit on the length of integer strings.
- ServicePricing.AtomicFromDecimal: the context limits of `decimal` (precision, exponent range) are not modelled; no step of the original rounds to them.
- Merchant: tokenising, header order, byte limits, whitespace stripping and calendar dates; input rows are stripped cells and a date is valid or not. Row numbers in error messages.
- HTTP handlers, receipts, result retention, static assets, packaging and the demo session ledger.
