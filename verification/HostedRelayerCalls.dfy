/** Each step of the system commits at most one call of the repository; which one, the step itself says. */
module HostedRelayerCalls {
  import opened Wrappers
  import opened PilotGate
  import opened ExecutionModels
  import opened RepositoryModel
  import opened RepositoryWriting
  import opened HostedRelayer

  datatype Transaction =
    | Nothing
    | Writes(id: ExecutionId, call: Writing)
    | Allocates(intent: ExecutionIntent, pending: nat, confirmed: nat, newId: ExecutionId, now: int)
    | Pauses(scope: ControlScope, paused: bool)

  ghost function Commits(policy: Policy, db: Db, transaction: Transaction): Db {
    match transaction
    case Nothing => db
    case Writes(id, call) => Written(policy, db, id, call)
    case Allocates(intent, pending, confirmed, newId, now) =>
      After(db, AllocateOrReturn(policy, db, intent, pending, confirmed, newId, now))
    case Pauses(scope, paused) => SetPause(db, scope, paused)
  }

  function DecideCall(worker: Worker): Transaction
    requires worker.Deciding?
  {
    if worker.now >= worker.row.intent.deadline then
      if Unsigned(worker.row.status) then Writes(worker.id, ReleasesExpired(worker.now)) else Nothing
    else if Unsigned(worker.row.status) then Writes(worker.id, ClaimsSigning(worker.now))
    else Nothing
  }

  function ReserveCall(policy: Policy, worker: Worker, now: int): Transaction
    requires worker.Reserving?
  {
    if policy.None? || now >= worker.row.intent.deadline then Nothing else
      match GasCharge(policy.value, worker.transaction, worker.totalFee)
      case Err(_) => Nothing
      case Ok(cost) => Writes(worker.id, ReservesGas(cost, worker.row.signingGeneration, now))
  }

  function SettleCall(worker: Worker): Transaction
    requires worker.Settling?
  {
    match worker.answer
    case TransportFailure => Nothing
    case SubmissionUnknownAnswer => if worker.rebroadcast then Writes(worker.id, MarksUnknown(worker.now)) else Nothing
    case SubmissionRejectedAnswer(reason) => Writes(worker.id, MarksRejected(reason, worker.now))
    case Accepted(hash) =>
      Writes(worker.id, if hash != TxHash(worker.raw) then MarksUnknown(worker.now) else MarksSubmitted(worker.now))
  }

  /** The call of a worker's step: a function of the worker and its input alone. */
  function WorkerCall(policy: Policy, worker: Worker, input: Input): Transaction {
    match input
    case Allocate(pending, confirmed, newId) =>
      if worker.Allocating? then Allocates(worker.intent, pending, confirmed, newId, worker.now) else Nothing
    case Proceed =>
      if worker.Deciding? then DecideCall(worker)
      else if worker.MarkingUnknown? then Writes(worker.id, MarksUnknown(worker.now))
      else if worker.Settling? then SettleCall(worker)
      else Nothing
    case ReserveAt(now) => if worker.Reserving? then ReserveCall(policy, worker, now) else Nothing
    case GasSigned(gasSignature, digest, now) =>
      if worker.Persisting? && now < worker.row.intent.deadline then
        Writes(
          worker.id,
          Persists(
            worker.transaction.executionSignature, Sign(worker.transaction, gasSignature),
            worker.row.signingGeneration, Some(digest), now))
      else Nothing
    case ClaimAt(now) =>
      if worker.Claiming? && now < worker.row.intent.deadline then Writes(worker.id, ClaimsSubmission(now)) else Nothing
    case RebroadcastAt(now) =>
      if worker.Rebroadcasting? then
        Writes(worker.id, if worker.row.status == Signed then ClaimsSubmission(now) else Rebroadcasts(None, now))
      else Nothing
    case Lookup(found, now) =>
      if found && (worker.LookingUp? || (worker.Inspecting? && worker.row.status != Submitted)) then
        Writes(worker.id, MarksSubmitted(now))
      else Nothing
    case _ => Nothing
  }

  function EnvironmentCall(call: Call): Transaction {
    match call
    case WatchConfirm(id, seen, evidence, now) => Writes(id, Confirms(seen, evidence, now))
    case WatchRevert(id, seen, accepted, evidence, now) => Writes(id, Reverts(seen, accepted, evidence, now))
    case WatchFinalize(id, boundary, now) => Writes(id, Finalizes(boundary, now))
    case WatchReleaseReverted(id, seen, proof, now) => Writes(id, ReleasesReverted(seen, proof, now))
    case WatchReorg(id, evidence, canonical, now) => Writes(id, Reviews(evidence, canonical, now))
    case WatchReleaseExpired(id, now) => Writes(id, ReleasesExpired(now))
    case WatchAttempt(id, nowNs) => Writes(id, RecordsAttempt(nowNs))
    case OperatorPause(scope, paused) => Pauses(scope, paused)
    case OperatorTransition(id, target, expected, now) => Writes(id, Transitions(target, expected, now))
  }

  function StepCall(policy: Policy, s: System, action: Action): Transaction {
    match action
    case Work(w, input) => WorkerCall(policy, WorkerAt(s, w), input)
    case Environment(call) => EnvironmentCall(call)
  }

  lemma WorkerCommits(policy: Policy, db: Db, worker: Worker, input: Input)
    ensures WorkerMove(policy, db, worker, input).db == Commits(policy, db, WorkerCall(policy, worker, input))
  {
    hide AllocateOrReturn, FindForIntent, ReleaseExpired, ClaimSigning, GasCharge, ReservePilotGas, PersistSigned,
         ClaimSubmission, MarkSubmitted, MarkSubmissionUnknown, MarkSubmissionRejected, RebroadcastRaw;
  }

  lemma EnvironmentCommits(policy: Policy, db: Db, call: Call)
    ensures CallResult(policy, db, call) == Commits(policy, db, EnvironmentCall(call))
  {
    hide Confirm, Revert, Finalize, ReleaseReverted, MarkReorgReview, ReleaseExpired, RecordWatcherAttempt, Transition,
         SetPause;
  }

  /** Every step's tables are those its call commits. */
  lemma StepCommits(policy: Policy, s: System, action: Action)
    ensures Step(policy, s, action).db == Commits(policy, s.db, StepCall(policy, s, action))
  {
    hide WorkerMove, WorkerCall, CallResult, EnvironmentCall, Commits;
    match action
    case Work(w, input) => WorkerCommits(policy, s.db, WorkerAt(s, w), input);
    case Environment(call) => EnvironmentCommits(policy, s.db, call);
  }
}
