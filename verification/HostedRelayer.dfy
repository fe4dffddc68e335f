/** The Hosted relayer as a system of concurrent workers (apps/facilitator/relayer.py).

    A worker is one call of `execute`, `inspect_submission` or `rebroadcast_identical`; its value is
    the call's program counter with its locals. Each step of a worker makes at most one repository
    call. Everything the code cannot control (RPC answers, clock readings, signatures, the new row's
    random identifier, the scheduler) is part of the action, so a run is a sequence of actions. */
module HostedRelayer {
  import opened Wrappers
  import opened PilotGate
  import opened ExecutionModels
  import opened RepositoryModel

  // ---------------------------------------------------------------- fees

  datatype RelayerLimits = RelayerLimits(
    maxGasLimit: Positive,
    maxFeePerGasWei: Positive,
    maxPriorityFeePerGasWei: Positive,
    maxTotalFeeWei: Option<Positive>)

  /** `_gas_limit`: the estimate with a fifth (at least one unit) on top. */
  function GasLimit(limits: RelayerLimits, estimate: nat): (gasLimit: Option<nat>)
    ensures gasLimit.Some? <==> estimate > 0 && estimate + (if estimate < 5 then 1 else estimate / 5) <= limits.maxGasLimit
    ensures gasLimit.Some? ==> estimate < gasLimit.value <= limits.maxGasLimit
    ensures gasLimit.Some? ==>
              if estimate < 5 then gasLimit.value == estimate + 1
              else 6 * estimate - 5 < 5 * gasLimit.value <= 6 * estimate
  {
    if estimate == 0 || estimate > limits.maxGasLimit then None else
      var margin := estimate / 5;
      var buffered := estimate + if margin < 1 then 1 else margin;
      if buffered > limits.maxGasLimit then None else Some(buffered)
  }

  datatype Fees = Fees(priority: nat, maxFee: nat)

  /** `_fee_quote`: twice the gas price plus the priority fee. */
  function FeeQuote(limits: RelayerLimits, priority: nat, gasPrice: nat): (fees: Option<Fees>)
    ensures fees.Some? <==>
            && priority <= limits.maxPriorityFeePerGasWei
            && gasPrice > 0
            && 2 * gasPrice + priority <= limits.maxFeePerGasWei
    ensures fees.Some? ==> 0 < fees.value.maxFee <= limits.maxFeePerGasWei
    ensures fees.Some? ==> fees.value.priority == priority && fees.value.maxFee - priority == 2 * gasPrice
  {
    if priority > limits.maxPriorityFeePerGasWei then None
    else if gasPrice == 0 || gasPrice > limits.maxFeePerGasWei then None
    else if gasPrice * 2 + priority > limits.maxFeePerGasWei then None
    else Some(Fees(priority, gasPrice * 2 + priority))
  }

  datatype UnsignedTransaction = UnsignedTransaction(
    nonce: nat,
    fees: Fees,
    gasLimit: nat,
    authorization: ExecutionIntent,
    executionSignature: Signature)

  function Sign(transaction: UnsignedTransaction, gasSignature: Signature): RawTransaction {
    RawTransaction(
      transaction.nonce, transaction.fees.priority, transaction.fees.maxFee, transaction.gasLimit,
      transaction.authorization, transaction.executionSignature, gasSignature)
  }

  /** The total fee under an operator's total limit: `None` without such a limit. */
  function TotalFee(limits: RelayerLimits, transaction: UnsignedTransaction, additional: nat): Option<nat> {
    if limits.maxTotalFeeWei.None? then None
    else Some(transaction.gasLimit * transaction.fees.maxFee + additional)
  }

  /** The charge `_sign` reserves before it signs. */
  function GasCharge(
    policy: PilotGatePolicy, transaction: UnsignedTransaction, totalFee: Option<nat>): Result<nat, GasError>
  {
    match totalFee
    case Some(total) => WorstCaseGasUsdMicros(1, total, policy.nativeAssetUsdPriceCeilingMicros)
    case None =>
      WorstCaseGasUsdMicros(transaction.gasLimit, transaction.fees.maxFee, policy.nativeAssetUsdPriceCeilingMicros)
  }

  // ---------------------------------------------------------------- workers

  datatype RpcAnswer =
    | Accepted(hash: TxHash)
    | SubmissionUnknownAnswer
    | SubmissionRejectedAnswer(reason: string)
    | TransportFailure

  datatype Worker =
    | Idle
    // execute
    | Allocating(intent: ExecutionIntent, limits: RelayerLimits, now: int)
    | Deciding(id: ExecutionId, row: Execution, limits: RelayerLimits, now: int)
    | Quoting(id: ExecutionId, row: Execution, limits: RelayerLimits)
    | Reserving(id: ExecutionId, row: Execution, transaction: UnsignedTransaction, totalFee: Option<nat>)
    | Persisting(id: ExecutionId, row: Execution, transaction: UnsignedTransaction)
    | Claiming(id: ExecutionId, row: Execution)
    | LookingUp(id: ExecutionId, row: Execution)
    // rebroadcast_identical and inspect_submission
    | Inspecting(id: ExecutionId, row: Execution, rebroadcast: bool)
    | Rebroadcasting(id: ExecutionId, row: Execution)
    | MarkingUnknown(id: ExecutionId, raw: RawTransaction, number: nat, now: int)
    // both
    | Sending(id: ExecutionId, raw: RawTransaction, number: nat, now: int, rebroadcast: bool)
    | Settling(id: ExecutionId, raw: RawTransaction, now: int, rebroadcast: bool, answer: RpcAnswer)

  /** What the environment supplies to one worker step. */
  datatype Input =
    | StartExecute(intent: ExecutionIntent, limits: RelayerLimits, approved: bool, now: int)
    | StartInspect(id: ExecutionId, rebroadcast: bool)
    | Allocate(pending: nat, confirmed: nat, newId: ExecutionId)
    | Proceed
    | Quote(estimate: nat, priority: nat, gasPrice: nat, additional: nat, executionSignature: Signature)
    | ReserveAt(now: int)
    | ClaimAt(now: int)
    | RebroadcastAt(now: int)
    | GasSigned(gasSignature: Signature, digest: string, now: int)
    | Lookup(found: bool, now: int)
    | Answer(answer: RpcAnswer)
    | Stop   // an exception in the worker, or its process crashes: the locals are gone

  /** Bytes put on the wire: the journaled attempt the send belongs to, the clock reading it was made at, and
      whether it is one of `rebroadcast_identical`. */
  datatype Sent = Sent(id: ExecutionId, raw: RawTransaction, number: nat, sentAt: int, rebroadcast: bool)

  /** A signing lease as the repository granted it. */
  datatype LeaseSpan = LeaseSpan(id: ExecutionId, generation: nat, start: int, end: int)

  datatype Move = Move(db: Db, worker: Worker, sent: Option<Sent>, claim: Option<ExecutionId>, lease: Option<LeaseSpan>)

  function Quietly(db: Db, worker: Worker): Move {
    Move(db, worker, None, None, None)
  }

  predicate Unsigned(status: ExecutionState) {
    status == PreflightApproved || status == Signing
  }

  /** `_SUBMISSION_STATES`. */
  predicate InSubmission(status: ExecutionState) {
    status == Signed || AwaitingReceipt(status)
  }

  /** `execute` up to the allocation: find the intent's execution, have Core approve it, read the clock. */
  ghost function Begin(db: Db, intent: ExecutionIntent, limits: RelayerLimits, approved: bool, now: int): Worker {
    match FindForIntent(db, intent)
    case Err(_) => Idle
    case Ok(Some(id)) =>
      if id in db.records && approved && (Unsigned(db.records[id].row.status) || db.records[id].row.status == Signed)
      then Deciding(id, db.records[id].row, limits, now)
      else Idle
    case Ok(None) => if approved && now < intent.deadline then Allocating(intent, limits, now) else Idle
  }

  ghost function AllocateStep(
    policy: Policy, db: Db, worker: Worker, pending: nat, confirmed: nat, newId: ExecutionId): Move
    requires worker.Allocating?
  {
    match AllocateOrReturn(policy, db, worker.intent, pending, confirmed, newId, worker.now)
    case Err(_) => Quietly(db, Idle)
    case Ok(r) =>
      Quietly(
        r.db,
        if r.value in r.db.records then Deciding(r.value, r.db.records[r.value].row, worker.limits, worker.now) else Idle)
  }

  /** With an execution in hand: release it at its deadline, or claim it for signing, or go on to submit it. */
  ghost function Decide(policy: Policy, db: Db, worker: Worker): Move
    requires worker.Deciding?
  {
    var id, row, now := worker.id, worker.row, worker.now;
    if now >= row.intent.deadline then
      Quietly(if Unsigned(row.status) then After(db, ReleaseExpired(policy, db, id, now)) else db, Idle)
    else if Unsigned(row.status) then
      match ClaimSigning(policy, db, id, now)
      case Err(_) => Quietly(db, Idle)
      case Ok(r) =>
        if r.value.acquired then
          Move(r.db, Quoting(id, r.value.row, worker.limits), None, None,
               Some(LeaseSpan(id, r.value.row.signingGeneration, now, LeaseEnd(row.intent.deadline, now))))
        else
          Quietly(r.db, Idle)
    else if row.status == Signed then Quietly(db, Claiming(id, row))
    else Quietly(db, Idle)
  }

  /** `_sign` up to the gas reservation. */
  function QuoteStep(
    db: Db, worker: Worker, estimate: nat, priority: nat, gasPrice: nat, additional: nat, executionSignature: Signature): Move
    requires worker.Quoting?
  {
    match (GasLimit(worker.limits, estimate), FeeQuote(worker.limits, priority, gasPrice))
    case (Some(gasLimit), Some(fees)) =>
      var transaction := UnsignedTransaction(worker.row.relayerNonce, fees, gasLimit, worker.row.intent, executionSignature);
      var totalFee := TotalFee(worker.limits, transaction, additional);
      if totalFee.Some? && totalFee.value > worker.limits.maxTotalFeeWei.value then Quietly(db, Idle)
      else Quietly(db, Reserving(worker.id, worker.row, transaction, totalFee))
    case _ => Quietly(db, Idle)
  }

  ghost function ReserveStep(policy: Policy, db: Db, worker: Worker, now: int): Move
    requires worker.Reserving?
  {
    var next := Persisting(worker.id, worker.row, worker.transaction);
    if policy.None? then Quietly(db, next)
    else if now >= worker.row.intent.deadline then Quietly(db, Idle)
    else
      match GasCharge(policy.value, worker.transaction, worker.totalFee)
      case Err(_) => Quietly(db, Idle)
      case Ok(cost) =>
        match ReservePilotGas(policy, db, worker.id, cost, worker.row.signingGeneration, now)
        case Err(_) => Quietly(db, Idle)
        case Ok(r) => Quietly(r.db, next)
  }

  function PersistStep(
    policy: Policy, db: Db, worker: Worker, gasSignature: Signature, digest: string, now: int): Move
    requires worker.Persisting?
  {
    if now >= worker.row.intent.deadline then Quietly(db, Idle) else
      match PersistSigned(
        policy, db, worker.id, worker.transaction.executionSignature, Sign(worker.transaction, gasSignature),
        worker.row.signingGeneration, Some(digest), now)
      case Err(_) => Quietly(db, Idle)
      case Ok(r) => Quietly(r.db, Claiming(worker.id, r.value))
  }

  ghost function ClaimStep(policy: Policy, db: Db, worker: Worker, now: int): Move
    requires worker.Claiming?
  {
    if now >= worker.row.intent.deadline then Quietly(db, Idle) else
      match ClaimSubmission(policy, db, worker.id, now)
      case Err(_) => Quietly(db, Idle)
      case Ok(r) =>
        if r.value.acquired then Move(r.db, LookingUp(worker.id, r.value.row), None, Some(worker.id), None)
        else Quietly(r.db, Idle)
  }

  /** `_submit_signed` up to the send. */
  function LookupStep(db: Db, worker: Worker, found: bool, now: int): Move
    requires worker.LookingUp?
  {
    if found then Quietly(After(db, MarkSubmitted(db, worker.id, now)), Idle)
    else if worker.row.rawTransaction.None? || now >= worker.row.intent.deadline then Quietly(db, Idle)
    else Quietly(db, Sending(worker.id, worker.row.rawTransaction.value, worker.row.broadcastAttempts, now, false))
  }

  function SendStep(db: Db, worker: Worker, answer: RpcAnswer): Move
    requires worker.Sending?
  {
    Move(db, Settling(worker.id, worker.raw, worker.now, worker.rebroadcast, answer),
         Some(Sent(worker.id, worker.raw, worker.number, worker.now, worker.rebroadcast)), None, None)
  }

  function SettleStep(db: Db, worker: Worker): Move
    requires worker.Settling?
  {
    var id, now := worker.id, worker.now;
    var after :=
      match worker.answer
      case TransportFailure => db
      case SubmissionUnknownAnswer => if worker.rebroadcast then After(db, MarkSubmissionUnknown(db, id, now)) else db
      case SubmissionRejectedAnswer(reason) => After(db, MarkSubmissionRejected(db, id, reason, now))
      case Accepted(hash) =>
        if hash != TxHash(worker.raw) then After(db, MarkSubmissionUnknown(db, id, now))
        else After(db, MarkSubmitted(db, id, now));
    Quietly(after, Idle)
  }

  /** `_inspect_submission`: read the row, then look its exact transaction up. */
  function BeginInspection(db: Db, id: ExecutionId, rebroadcast: bool): Worker {
    if id in db.records && InSubmission(db.records[id].row.status) then Inspecting(id, db.records[id].row, rebroadcast)
    else Idle
  }

  function InspectStep(db: Db, worker: Worker, found: bool, now: int): Move
    requires worker.Inspecting?
  {
    if found then
      Quietly(if worker.row.status == Submitted then db else After(db, MarkSubmitted(db, worker.id, now)), Idle)
    else
      Quietly(db, if worker.rebroadcast then Rebroadcasting(worker.id, worker.row) else Idle)
  }

  ghost function RebroadcastStep(policy: Policy, db: Db, worker: Worker, now: int): Move
    requires worker.Rebroadcasting?
  {
    var id := worker.id;
    if worker.row.status == Signed then
      match ClaimSubmission(policy, db, id, now)
      case Err(_) => Quietly(db, Idle)
      case Ok(r) =>
        if !r.value.acquired then Quietly(r.db, BeginInspection(r.db, id, false))
        else
          Move(
            r.db,
            if r.value.row.rawTransaction.Some?
            then Sending(id, r.value.row.rawTransaction.value, r.value.row.broadcastAttempts, now, true) else Idle,
            None, Some(id), None)
    else
      match RebroadcastRaw(policy, db, id, None, now)
      case Err(_) => Quietly(db, Idle)
      case Ok(r) =>
        Quietly(
          r.db,
          if id in r.db.records then MarkingUnknown(id, r.value, r.db.records[id].row.broadcastAttempts, now) else Idle)
  }

  function MarkUnknownStep(db: Db, worker: Worker): Move
    requires worker.MarkingUnknown?
  {
    match MarkSubmissionUnknown(db, worker.id, worker.now)
    case Err(_) => Quietly(db, Idle)
    case Ok(r) =>
      Quietly(
        r.db,
        if r.value.rawTransaction == Some(worker.raw)
        then Sending(worker.id, worker.raw, worker.number, worker.now, true) else Idle)
  }

  /** One step of one worker; an input that does not fit the program counter does nothing. */
  ghost function WorkerMove(policy: Policy, db: Db, worker: Worker, input: Input): Move {
    match input
    case Stop => Quietly(db, Idle)
    case StartExecute(intent, limits, approved, now) =>
      Quietly(db, if worker.Idle? then Begin(db, intent, limits, approved, now) else worker)
    case StartInspect(id, rebroadcast) =>
      Quietly(db, if worker.Idle? then BeginInspection(db, id, rebroadcast) else worker)
    case Allocate(pending, confirmed, newId) =>
      if worker.Allocating? then AllocateStep(policy, db, worker, pending, confirmed, newId) else Quietly(db, worker)
    case Proceed =>
      if worker.Deciding? then Decide(policy, db, worker)
      else if worker.MarkingUnknown? then MarkUnknownStep(db, worker)
      else if worker.Settling? then SettleStep(db, worker)
      else Quietly(db, worker)
    case Quote(estimate, priority, gasPrice, additional, executionSignature) =>
      if worker.Quoting? then QuoteStep(db, worker, estimate, priority, gasPrice, additional, executionSignature)
      else Quietly(db, worker)
    case ReserveAt(now) =>
      if worker.Reserving? then ReserveStep(policy, db, worker, now) else Quietly(db, worker)
    case ClaimAt(now) =>
      if worker.Claiming? then ClaimStep(policy, db, worker, now) else Quietly(db, worker)
    case RebroadcastAt(now) =>
      if worker.Rebroadcasting? then RebroadcastStep(policy, db, worker, now) else Quietly(db, worker)
    case GasSigned(gasSignature, digest, now) =>
      if worker.Persisting? then PersistStep(policy, db, worker, gasSignature, digest, now) else Quietly(db, worker)
    case Lookup(found, now) =>
      if worker.LookingUp? then LookupStep(db, worker, found, now)
      else if worker.Inspecting? then InspectStep(db, worker, found, now)
      else Quietly(db, worker)
    case Answer(answer) =>
      if worker.Sending? then SendStep(db, worker, answer) else Quietly(db, worker)
  }

  // ---------------------------------------------------------------- the system

  /** Calls of the chain watcher and of operators, with any arguments. */
  datatype Call =
    | WatchConfirm(id: ExecutionId, seen: Finality, evidence: string, now: int)
    | WatchRevert(id: ExecutionId, seen: Finality, acceptedTransfer: bool, evidence: string, now: int)
    | WatchFinalize(id: ExecutionId, boundary: FinalityBoundary, now: int)
    | WatchReleaseReverted(id: ExecutionId, seen: Finality, proof: ReleaseEvidence, now: int)
    | WatchReorg(id: ExecutionId, evidence: string, canonical: bool, now: int)
    | WatchReleaseExpired(id: ExecutionId, now: int)
    | WatchAttempt(id: ExecutionId, nowNs: Positive)
    | OperatorPause(scope: ControlScope, paused: bool)
    | OperatorTransition(id: ExecutionId, target: ExecutionState, expected: Option<ExecutionState>, now: int)

  function CallResult(policy: Policy, db: Db, call: Call): Db {
    match call
    case WatchConfirm(id, seen, evidence, now) => After(db, Confirm(policy, db, id, seen, evidence, now))
    case WatchRevert(id, seen, accepted, evidence, now) => After(db, Revert(policy, db, id, seen, accepted, evidence, now))
    case WatchFinalize(id, boundary, now) => After(db, Finalize(policy, db, id, boundary, now))
    case WatchReleaseReverted(id, seen, proof, now) => After(db, ReleaseReverted(policy, db, id, seen, proof, now))
    case WatchReorg(id, evidence, canonical, now) => After(db, MarkReorgReview(db, id, evidence, canonical, now))
    case WatchReleaseExpired(id, now) => After(db, ReleaseExpired(policy, db, id, now))
    case WatchAttempt(id, nowNs) => After(db, RecordWatcherAttempt(db, id, nowNs))
    case OperatorPause(scope, paused) => SetPause(db, scope, paused)
    case OperatorTransition(id, target, expected, now) => After(db, Transition(policy, db, id, target, expected, now))
  }

  type WorkerId = nat

  /** The shared tables, the workers, and a log of what was sent, claimed and leased. */
  datatype System = System(
    db: Db,
    workers: map<WorkerId, Worker>,
    wire: seq<Sent>,
    claims: seq<ExecutionId>,
    leases: seq<LeaseSpan>)

  const INITIAL := System(EMPTY_DB, map[], [], [], [])

  datatype Action = Work(worker: WorkerId, input: Input) | Environment(call: Call)

  function WorkerAt(s: System, w: WorkerId): Worker {
    if w in s.workers then s.workers[w] else Idle
  }

  function Logged<T>(log: seq<T>, entry: Option<T>): seq<T> {
    if entry.Some? then log + [entry.value] else log
  }

  function Apply(s: System, w: WorkerId, move: Move): System {
    System(
      move.db,
      s.workers[w := move.worker],
      Logged(s.wire, move.sent),
      Logged(s.claims, move.claim),
      Logged(s.leases, move.lease))
  }

  ghost function Step(policy: Policy, s: System, action: Action): System {
    match action
    case Work(w, input) => Apply(s, w, WorkerMove(policy, s.db, WorkerAt(s, w), input))
    case Environment(call) => s.(db := CallResult(policy, s.db, call))
  }

  /** The state after a run of the system from `s`. */
  ghost function Run(policy: Policy, s: System, actions: seq<Action>): System
    decreases |actions|
  {
    if actions == [] then s else Run(policy, Step(policy, s, actions[0]), actions[1..])
  }
}
