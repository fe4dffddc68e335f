/** What each method of `ExecutionRepository` does, as a function of the tables
    (apps/facilitator/execution_repository.py). One call is one transaction: `Ok` carries the
    committed tables and the returned value, `Err` is an exception after which the tables are
    as before. */
module RepositoryModel {
  import opened Wrappers
  import opened Sums
  import opened PilotGate
  import opened ExecutionModels

  /** The policy of the pilot gate, if there is one. */
  type Policy = Option<PilotGatePolicy>

  // ---------------------------------------------------------------- tables

  datatype GateState = Reserved | Settled | ReleasedGate

  /** One row of `hosted_gate_reservations`. */
  datatype GateReservation = GateReservation(
    tenantId: string,
    nodeId: string,
    utcDay: nat,
    state: GateState,
    gasCost: nat,
    gasDay: Option<nat>)

  datatype AttemptKind =
    SignedAttempt | BroadcastClaimed | Broadcast | BroadcastUnknown | BroadcastRejected | Rebroadcast

  datatype Attempt = Attempt(number: nat, kind: AttemptKind, rawTransactionHash: TxHash, createdAt: int)

  datatype Observation = Observation(txHash: TxHash, finality: Finality, evidence: string, observedAt: int)

  /** The rows of the four tables that share one execution id. */
  datatype Record = Record(
    row: Execution,
    gate: Option<GateReservation>,
    attempts: seq<Attempt>,
    observations: seq<Observation>)

  datatype ControlScope = PlatformScope | TenantScope(tenantId: string) | NodeScope(tenantId: string, nodeId: string)

  type ExecutionId = string

  datatype Db = Db(
    records: map<ExecutionId, Record>,
    nextNonces: map<NonceKey, nat>,
    paused: map<ControlScope, bool>)

  const EMPTY_DB := Db(map[], map[], map[])

  // ---------------------------------------------------------------- results

  datatype DenialReason =
    | PlatformPaused | TenantPaused | NodePaused
    | NodeInFlightLimit | NodeDailyLimit | NodeLifetimeLimit
    | NodeDailyGasLimit | PlatformDailyGasLimit

  datatype ConflictReason =
    | ClockInvalid | IntentInvalid | NonceInvalid | NonceObservationsInconsistent | UniquenessInconsistent | ScopeChanged
    | AllocationUncommitted
    | PolicyUnavailable | GasInvalid | ClaimInvalid | ClaimStale | NotAwaitingGas
    | GateReservationUnavailable | GateStateConflict | GasReservationInvalid | GasReservationUnavailable
    | StateChanged | TransitionNotAllowed | DedicatedMethodRequired | SignedCannotBeReleased | DeadlineNotExpired
    | DeadlineExpired | SignedImmutable | NotAwaitingSigning | NotClaimableForSigning | NotClaimableForSubmission
    | RawMissing | RawHashInconsistent | NotSubmittable | RejectionConflicts | RebroadcastForbidden
    | ReplacementForbidden | AttemptDuplicated
    | ReceiptStatusWrong | FinalityInsufficient | NotAwaitingReceipt | ReplayInconsistent
    | NotConfirmed | BoundaryConflict | EvidenceInvalid | BoundaryBeforeDeadline | BoundaryInFuture
    | ReleaseIdentityConflicts | ReleaseChanged | NotReverted | ReleaseAlreadyRecorded | ReleaseTimeInvalid
    | ReleaseBoundaryRegressed | ReleaseBoundaryChanged | NotFinalized

  datatype RepoError = NotFound | Conflict(cause: ConflictReason) | Denied(reason: DenialReason)

  datatype Applied<+T> = Applied(db: Db, value: T)

  type Outcome<T> = Result<Applied<T>, RepoError>

  /** The tables after a call whose result is discarded. */
  function After<T>(db: Db, outcome: Outcome<T>): Db {
    if outcome.Ok? then outcome.value.db else db
  }

  function Require(condition: bool, cause: ConflictReason): Guard<RepoError> {
    Check(condition, Conflict(cause))
  }

  // ---------------------------------------------------------------- SQL aggregates

  /** The aggregates the gate queries, each with the weight one record has in it. */
  datatype Measure =
    | NodeInFlight(tenantId: string, nodeId: string)
    | NodeAcceptedOn(tenantId: string, nodeId: string, day: nat)
    | NodeAcceptedEver(tenantId: string, nodeId: string)
    | NodeGasOn(tenantId: string, nodeId: string, day: nat)
    | PlatformGasOn(day: nat)

  predicate Scoped(gate: GateReservation, tenantId: string, nodeId: string) {
    gate.tenantId == tenantId && gate.nodeId == nodeId
  }

  function GateWeight(measure: Measure, gate: GateReservation): nat {
    match measure
    case NodeInFlight(t, n) => if Scoped(gate, t, n) && gate.state == Reserved then 1 else 0
    case NodeAcceptedOn(t, n, day) => if Scoped(gate, t, n) && gate.utcDay == day then 1 else 0
    case NodeAcceptedEver(t, n) => if Scoped(gate, t, n) then 1 else 0
    case NodeGasOn(t, n, day) => if Scoped(gate, t, n) && gate.gasDay == Some(day) then gate.gasCost else 0
    case PlatformGasOn(day) => if gate.gasDay == Some(day) then gate.gasCost else 0
  }

  function Weight(measure: Measure, record: Record): nat {
    if record.gate.Some? then GateWeight(measure, record.gate.value) else 0
  }

  function Weights(records: map<ExecutionId, Record>, measure: Measure): map<ExecutionId, nat> {
    map id | id in records :: Weight(measure, records[id])
  }

  ghost function Total(records: map<ExecutionId, Record>, measure: Measure): nat {
    SumNonNegative(Weights(records, measure));
    Sum(Weights(records, measure))
  }

  function Limit(policy: PilotGatePolicy, measure: Measure): nat {
    match measure
    case NodeInFlight(_, _) => policy.maxInFlightPerNode
    case NodeAcceptedOn(_, _, _) => policy.maxAcceptedPerNodeUtcDay
    case NodeAcceptedEver(_, _) => policy.maxAcceptedPerNodeLifetime
    case NodeGasOn(_, _, _) => policy.maxGasUsdMicrosPerNodeUtcDay
    case PlatformGasOn(_) => policy.maxGasUsdMicrosPlatformUtcDay
  }

  // ---------------------------------------------------------------- shared steps

  function Find(db: Db, id: ExecutionId): Result<Record, RepoError> {
    if id in db.records then Ok(db.records[id]) else Err(NotFound)
  }

  /** `_now`: the repository's own check of a clock reading. */
  function Clock(now: int): Result<Positive, RepoError> {
    if now > 0 then Ok(now) else Err(Conflict(ClockInvalid))
  }

  function Put(db: Db, id: ExecutionId, record: Record): Db {
    db.(records := db.records[id := record])
  }

  predicate PausedScope(db: Db, scope: ControlScope) {
    scope in db.paused && db.paused[scope]
  }

  /** `_pilot_admission_denial` without quotas: the three pause switches, outermost first. */
  function PauseDenial(db: Db, tenantId: string, nodeId: string): Option<DenialReason> {
    if PausedScope(db, PlatformScope) then Some(PlatformPaused)
    else if PausedScope(db, TenantScope(tenantId)) then Some(TenantPaused)
    else if PausedScope(db, NodeScope(tenantId, nodeId)) then Some(NodePaused)
    else None
  }

  function GateOpen(policy: Policy, db: Db, row: Execution): Guard<RepoError> {
    if policy.None? then Holds else
      match PauseDenial(db, row.intent.tenantId, row.intent.nodeId)
      case Some(reason) => Fails(Denied(reason))
      case None => Holds
  }

  /** `_pilot_admission_denial` with the in-flight, daily and lifetime quotas. */
  ghost function AdmissionDenial(
    policy: PilotGatePolicy, db: Db, intent: ExecutionIntent, day: nat): Option<DenialReason>
  {
    var t, n := intent.tenantId, intent.nodeId;
    if PauseDenial(db, t, n).Some? then PauseDenial(db, t, n)
    else if Total(db.records, NodeInFlight(t, n)) >= policy.maxInFlightPerNode then Some(NodeInFlightLimit)
    else if Total(db.records, NodeAcceptedOn(t, n, day)) >= policy.maxAcceptedPerNodeUtcDay then Some(NodeDailyLimit)
    else if Total(db.records, NodeAcceptedEver(t, n)) >= policy.maxAcceptedPerNodeLifetime then Some(NodeLifetimeLimit)
    else None
  }

  /** Charge `cost` to `day` when both daily caps allow it; the execution's own earlier charge is excluded. */
  ghost function Charge(policy: PilotGatePolicy, db: Db, id: ExecutionId, record: Record, cost: nat, day: nat):
    Result<Record, RepoError>
    requires record.gate.Some?
  {
    var intent := record.row.intent;
    var others := db.records - {id};
    if Total(others, NodeGasOn(intent.tenantId, intent.nodeId, day)) + cost > policy.maxGasUsdMicrosPerNodeUtcDay then
      Err(Denied(NodeDailyGasLimit))
    else if Total(others, PlatformGasOn(day)) + cost > policy.maxGasUsdMicrosPlatformUtcDay then
      Err(Denied(PlatformDailyGasLimit))
    else
      Ok(record.(gate := Some(record.gate.value.(gasCost := cost, gasDay := Some(day)))))
  }

  /** `_ensure_pilot_gas_reservation`: move the charge to the day of the broadcast, or meter an uncharged row. */
  ghost function EnsureGas(policy: Policy, db: Db, id: ExecutionId, record: Record, now: Positive):
    Result<Record, RepoError>
  {
    if policy.None? then Ok(record) else
      :- Require(record.gate.Some? && record.gate.value.state == Reserved, GateReservationUnavailable);
      var gate := record.gate.value;
      var day := UtcDay(now);
      if gate.gasCost > 0 then
        :- Require(gate.gasDay.Some?, GasReservationInvalid);
        if gate.gasDay.value == day then Ok(record) else Charge(policy.value, db, id, record, gate.gasCost, day)
      else
        :- Require(gate.gasDay.None?, GasReservationInvalid);
        Charge(policy.value, db, id, record, policy.value.maxGasUsdMicrosPerNodeUtcDay, day)
  }

  /** `_mark_gate_terminal`. */
  function MarkGateTerminal(policy: Policy, record: Record, state: GateState, clearGas: bool):
    Result<Record, RepoError>
  {
    if policy.None? then Ok(record) else
      :- Require(record.gate.Some?, GateReservationUnavailable);
      var gate := record.gate.value;
      if gate.state == state then Ok(record) else
        :- Require(gate.state == Reserved, GateStateConflict);
        var closed := gate.(state := state);
        Ok(record.(gate := Some(if clearGas then closed.(gasCost := 0, gasDay := None) else closed)))
  }

  /** `_release_gate_reservation`: the gas a reverted transaction spent is not refunded. */
  function ReleaseGateReservation(policy: Policy, record: Record): Result<Record, RepoError> {
    if policy.None? then Ok(record) else
      :- Require(record.gate.Some?, GateReservationUnavailable);
      Ok(record.(gate := Some(record.gate.value.(state := ReleasedGate))))
  }

  /** `_require_raw_transaction`. */
  function RequireRaw(row: Execution): Result<RawTransaction, RepoError> {
    var raw := row.rawTransaction;
    :- Require(raw.Some?, RawMissing);
    :- Require(row.rawTransactionHash == Some(TxHash(raw.value)), RawHashInconsistent);
    Ok(raw.value)
  }

  predicate HasAttempt(attempts: seq<Attempt>, number: nat) {
    exists i :: 0 <= i < |attempts| && attempts[i].number == number
  }

  /** `_add_attempt`: journal one more use of the stored bytes. */
  function AddAttempt(record: Record, kind: AttemptKind, number: nat, now: int): Record
    requires record.row.rawTransaction.Some?
  {
    record.(attempts := record.attempts + [Attempt(number, kind, TxHash(record.row.rawTransaction.value), now)])
  }

  /** The unique constraint on (execution id, attempt number). */
  function AttemptFree(record: Record, number: nat): Guard<RepoError> {
    Require(!HasAttempt(record.attempts, number), AttemptDuplicated)
  }

  /** The row's next broadcast, counted and journaled. */
  function CountBroadcast(record: Record, kind: AttemptKind, now: int): Record
    requires record.row.rawTransaction.Some?
  {
    var number := record.row.broadcastAttempts + 1;
    AddAttempt(
      record.(row := record.row.(broadcastAttempts := number, broadcastedAt := Some(now))), kind, number, now)
  }

  /** The `mark_*` methods count a broadcast only when they take a signed row out of `signed`. */
  function MoveSubmission(
    record: Record, status: ExecutionState, failureCode: Option<string>, kind: AttemptKind, now: int):
    Result<Record, RepoError>
    requires record.row.rawTransaction.Some?
  {
    var moved := record.(row := record.row.(status := status, submissionFailureCode := failureCode));
    if record.row.status != Signed then Ok(moved) else
      :- AttemptFree(record, record.row.broadcastAttempts + 1);
      Ok(CountBroadcast(moved, kind, now))
  }

  // ---------------------------------------------------------------- allocation

  predicate SharesKey(a: ExecutionIntent, b: ExecutionIntent) {
    || a.capabilityId == b.capabilityId
    || a.reservationId == b.reservationId
    || a.purchaseId == b.purchaseId
    || (a.tenantId == b.tenantId && a.nodeId == b.nodeId && a.idempotencyKey == b.idempotencyKey)
  }

  function SharingIds(db: Db, intent: ExecutionIntent): set<ExecutionId> {
    set id | id in db.records && SharesKey(db.records[id].row.intent, intent)
  }

  /** `find_for_intent`: the exact replay, if any of the four unique keys is taken. */
  ghost function FindForIntent(db: Db, intent: ExecutionIntent): Result<Option<ExecutionId>, RepoError> {
    var ids := SharingIds(db, intent);
    if ids == {} then Ok(None) else
      var id :| id in ids;
      :- Require(ids == {id}, UniquenessInconsistent);
      :- Require(db.records[id].row.intent == intent, ScopeChanged);
      Ok(Some(id))
  }

  predicate Tainted(row: Execution) {
    row.signature.Some? || row.rawTransaction.Some?
  }

  function ActiveNonces(db: Db, key: NonceKey): set<nat> {
    set id | id in db.records && db.records[id].row.intent.Key() == key && Active(db.records[id].row.status)
      :: db.records[id].row.relayerNonce
  }

  function TaintedNonces(db: Db, key: NonceKey): set<nat> {
    set id | id in db.records && db.records[id].row.intent.Key() == key && Tainted(db.records[id].row)
      :: db.records[id].row.relayerNonce
  }

  function RecyclableNonces(db: Db, key: NonceKey, confirmed: nat): set<nat> {
    set id | && id in db.records
             && db.records[id].row.intent.Key() == key
             && !Active(db.records[id].row.status)
             && !Tainted(db.records[id].row)
             && db.records[id].row.relayerNonce >= confirmed
             && db.records[id].row.relayerNonce !in ActiveNonces(db, key)
             && db.records[id].row.relayerNonce !in TaintedNonces(db, key)
      :: db.records[id].row.relayerNonce
  }

  ghost predicate IsLeast(s: set<nat>, n: nat) {
    n in s && forall m :: m in s ==> n <= m
  }

  lemma {:induction false} LeastExists(s: set<nat>)
    requires s != {}
    ensures exists n :: IsLeast(s, n)
    decreases |s|
  {
    var n :| n in s;
    var rest := s - {n};
    assert forall m :: m in s ==> m == n || m in rest;
    if rest == {} {
      assert IsLeast(s, n);
    } else {
      LeastExists(rest);
      var r :| IsLeast(rest, r);
      assert IsLeast(s, if n < r then n else r);
    }
  }

  ghost function Least(s: set<nat>): (n: nat)
    requires s != {}
    ensures IsLeast(s, n)
  {
    LeastExists(s);
    var n :| IsLeast(s, n);
    n
  }

  const MAX_RELAYER_NONCE: nat := 0x7FFF_FFFF_FFFF_FFFE

  datatype NonceChoice = NonceChoice(nonce: nat, next: nat)

  /** `_allocate_relayer_nonce`: the nonce, and the allocator's new `next_nonce`. */
  ghost function AllocateNonce(db: Db, key: NonceKey, pending: nat, confirmed: nat): NonceChoice {
    if key !in db.nextNonces then NonceChoice(pending, pending + 1)
    else if RecyclableNonces(db, key, confirmed) != {} then
      NonceChoice(Least(RecyclableNonces(db, key, confirmed)), db.nextNonces[key])
    else
      var nonce := if db.nextNonces[key] < pending then pending else db.nextNonces[key];
      NonceChoice(nonce, nonce + 1)
  }

  function NewRow(intent: ExecutionIntent, nonce: nat, now: int): Execution {
    Execution(
      intent, nonce, PreflightApproved, 0, None, None, None, None, None, 0, None, None, None, None, None,
      None, None, None, None, None, None, now)
  }

  function NewRecord(policy: Policy, intent: ExecutionIntent, nonce: nat, now: Positive): Record {
    Record(
      NewRow(intent, nonce, now),
      if policy.None? then None
      else Some(GateReservation(intent.tenantId, intent.nodeId, UtcDay(now), Reserved, 0, None)),
      [], [])
  }

  /** `allocate_or_return`. `newId` is the random identifier its four attempts settle on: one in use only
      if all of them collide. */
  ghost function AllocateOrReturn(
    policy: Policy, db: Db, intent: ExecutionIntent,
    pending: nat, confirmed: nat, newId: ExecutionId, now: int): Outcome<ExecutionId>
  {
    var key := intent.Key();
    :- Require(intent.Valid(), IntentInvalid);
    :- Require(pending <= MAX_RELAYER_NONCE && confirmed <= MAX_RELAYER_NONCE, NonceInvalid);
    :- Require(confirmed <= pending, NonceObservationsInconsistent);
    :- Require(now > 0, ClockInvalid);
    var existing :- FindForIntent(db, intent);
    if existing.Some? then Ok(Applied(db, existing.value)) else
      :- Admit(policy, db, intent, now);
      :- Require(newId !in db.records, AllocationUncommitted);
      var choice := AllocateNonce(db, key, pending, confirmed);
      Ok(Applied(
        Put(db, newId, NewRecord(policy, intent, choice.nonce, now))
          .(nextNonces := db.nextNonces[key := choice.next]),
        newId))
  }

  ghost function Admit(
    policy: Policy, db: Db, intent: ExecutionIntent, now: Positive): Guard<RepoError>
  {
    if policy.None? then Holds else
      match AdmissionDenial(policy.value, db, intent, UtcDay(now))
      case Some(reason) => Fails(Denied(reason))
      case None => Holds
  }

  // ---------------------------------------------------------------- signing

  const SIGNING_CLAIM_LEASE_SECONDS: nat := 15

  function LeaseEnd(deadline: int, now: int): int {
    if deadline < now + SIGNING_CLAIM_LEASE_SECONDS then deadline else now + SIGNING_CLAIM_LEASE_SECONDS
  }

  function Lease(row: Execution, now: int): Execution {
    row.(status := Signing,
         signingGeneration := row.signingGeneration + 1,
         signingExpiresAt := Some(LeaseEnd(row.intent.deadline, now)))
  }

  datatype Claimed = Claimed(row: Execution, acquired: bool)

  function ClaimSigning(policy: Policy, db: Db, id: ExecutionId, now: int): Outcome<Claimed> {
    var _ :- Clock(now);
    var record :- Find(db, id);
    var row := record.row;
    :- GateOpen(policy, db, row);
    :- Require(row.status == Signing || row.status == PreflightApproved, NotClaimableForSigning);
    :- Require(now < row.intent.deadline, DeadlineExpired);
    :- Require(row.status == Signing ==> row.signingGeneration > 0 && row.signingExpiresAt.Some?, ClaimInvalid);
    if row.status == Signing && now < row.signingExpiresAt.value then
      Ok(Applied(db, Claimed(row, false)))
    else
      var leased := Lease(row, now);
      Ok(Applied(Put(db, id, record.(row := leased)), Claimed(leased, true)))
  }

  ghost function ReservePilotGas(
    policy: Policy, db: Db, id: ExecutionId, cost: int, generation: int, now: int): Outcome<int>
  {
    var found := Find(db, id);
    :- Require(policy.Some?, PolicyUnavailable);
    :- Require(cost > 0, GasInvalid);
    :- Require(generation > 0, ClaimInvalid);
    var _ :- Clock(now);
    var record :- found;
    :- Require(record.row.status == Signing, NotAwaitingGas);
    :- Require(record.row.signingGeneration == generation, ClaimStale);
    :- Require(record.gate.Some? && record.gate.value.state == Reserved, GateReservationUnavailable);
    :- GateOpen(policy, db, record.row);
    var charged :- Charge(policy.value, db, id, record, cost, UtcDay(now));
    Ok(Applied(Put(db, id, charged), cost))
  }

  predicate GasReserved(record: Record) {
    && record.gate.Some?
    && record.gate.value.state == Reserved
    && record.gate.value.gasCost > 0
    && record.gate.value.gasDay.Some?
  }

  /** The signed bytes enter the row together, and attempt 0 journals them. */
  function SignRecord(
    record: Record, signature: Signature, raw: RawTransaction, unsignedHash: Option<string>, now: int): Record
  {
    AddAttempt(
      record.(row := record.row.(
        status := Signed,
        signature := Some(signature),
        rawTransaction := Some(raw),
        rawTransactionHash := Some(TxHash(raw)),
        unsignedTransactionHash := unsignedHash,
        signingExpiresAt := None)),
      SignedAttempt, 0, now)
  }

  function PersistSigned(
    policy: Policy, db: Db, id: ExecutionId, signature: Signature, raw: RawTransaction,
    generation: int, unsignedHash: Option<string>, now: int): Outcome<Execution>
  {
    var found := Find(db, id);
    :- Require(generation > 0, ClaimInvalid);
    var _ :- Clock(now);
    var record :- found;
    var row := record.row;
    :- Require(row.signingGeneration == generation, ClaimStale);
    if row.status == Signed then
      :- Require(row.signature == Some(signature) && row.rawTransaction == Some(raw), SignedImmutable);
      Ok(Applied(db, row))
    else
      :- Require(row.status == Signing, NotAwaitingSigning);
      :- Require(now < row.intent.deadline, DeadlineExpired);
      :- GateOpen(policy, db, row);
      :- Require(policy.Some? ==> GasReserved(record), GasReservationUnavailable);
      :- AttemptFree(record, 0);
      var signed := SignRecord(record, signature, raw, unsignedHash, now);
      Ok(Applied(Put(db, id, signed), signed.row))
  }

  // ---------------------------------------------------------------- submission

  ghost function ClaimSubmission(policy: Policy, db: Db, id: ExecutionId, now: int): Outcome<Claimed> {
    var _ :- Clock(now);
    var record :- Find(db, id);
    :- GateOpen(policy, db, record.row);
    var charged :- EnsureGas(policy, db, id, record, now);
    if record.row.status == SubmissionUnknown then
      var _ :- RequireRaw(record.row);
      Ok(Applied(Put(db, id, charged), Claimed(record.row, false)))
    else
      :- Require(record.row.status == Signed, NotClaimableForSubmission);
      var _ :- RequireRaw(record.row);
      :- AttemptFree(record, record.row.broadcastAttempts + 1);
      var claimed := CountBroadcast(charged.(row := record.row.(status := SubmissionUnknown)), BroadcastClaimed, now);
      Ok(Applied(Put(db, id, claimed), Claimed(claimed.row, true)))
  }

  function MarkSubmitted(db: Db, id: ExecutionId, now: int): Outcome<Execution> {
    var _ :- Clock(now);
    var record :- Find(db, id);
    var row := record.row;
    :- Require(row.status == Signed || AwaitingReceipt(row.status), NotSubmittable);
    var _ :- RequireRaw(row);
    if row.status == Submitted then Ok(Applied(db, row)) else
      var stored :- MoveSubmission(record, Submitted, None, Broadcast, now);
      Ok(Applied(Put(db, id, stored), stored.row))
  }

  function MarkSubmissionUnknown(db: Db, id: ExecutionId, now: int): Outcome<Execution> {
    var _ :- Clock(now);
    var record :- Find(db, id);
    var row := record.row;
    :- Require(row.status == Signed || AwaitingReceipt(row.status), NotSubmittable);
    var _ :- RequireRaw(row);
    if row.status == SubmissionUnknown then Ok(Applied(db, row)) else
      var failureCode := if row.status == SubmissionRejected then None else row.submissionFailureCode;
      var stored :- MoveSubmission(record, SubmissionUnknown, failureCode, BroadcastUnknown, now);
      Ok(Applied(Put(db, id, stored), stored.row))
  }

  function MarkSubmissionRejected(db: Db, id: ExecutionId, reason: string, now: int): Outcome<Execution> {
    var _ :- Clock(now);
    var record :- Find(db, id);
    var row := record.row;
    :- Require(row.status == SubmissionRejected || row.status == Signed || row.status == SubmissionUnknown, NotSubmittable);
    var _ :- RequireRaw(row);
    if row.status == SubmissionRejected then
      :- Require(row.submissionFailureCode == Some(reason), RejectionConflicts);
      Ok(Applied(db, row))
    else
      var stored :- MoveSubmission(record, SubmissionRejected, Some(reason), BroadcastRejected, now);
      Ok(Applied(Put(db, id, stored), stored.row))
  }

  /** `rebroadcast_raw_transaction`. `replacement` is the optional byte string of the caller. */
  ghost function RebroadcastRaw(
    policy: Policy, db: Db, id: ExecutionId, replacement: Option<RawTransaction>, now: int):
    Outcome<RawTransaction>
  {
    var _ :- Clock(now);
    var record :- Find(db, id);
    :- Require(AwaitingReceipt(record.row.status), RebroadcastForbidden);
    var stored :- RequireRaw(record.row);
    :- Require(replacement.None? || replacement.value == stored, ReplacementForbidden);
    :- GateOpen(policy, db, record.row);
    var charged :- EnsureGas(policy, db, id, record, now);
    var number := record.row.broadcastAttempts + 1;
    :- AttemptFree(record, number);
    var counted := AddAttempt(charged.(row := record.row.(broadcastAttempts := number)), Rebroadcast, number, now);
    Ok(Applied(Put(db, id, counted), stored))
  }

  // ---------------------------------------------------------------- outcomes

  /** An unsigned execution ends at its deadline: no lease, no charge, no reservation. */
  function EndUnsigned(policy: Policy, record: Record, status: ExecutionState, now: int):
    Result<Record, RepoError>
  {
    MarkGateTerminal(
      policy,
      record.(row := record.row.(
        status := status,
        signingExpiresAt := None,
        releasedAt := if status == Released then Some(now) else record.row.releasedAt,
        expiredAt := if status == Expired then Some(now) else record.row.expiredAt)),
      ReleasedGate,
      true)
  }

  function ReleaseExpired(policy: Policy, db: Db, id: ExecutionId, now: int): Outcome<Execution> {
    var _ :- Clock(now);
    var record :- Find(db, id);
    var row := record.row;
    if row.status == Released || row.status == Expired then Ok(Applied(db, row)) else
      :- Require(row.status == PreflightApproved || row.status == Signing, SignedCannotBeReleased);
      :- Require(now >= row.intent.deadline, DeadlineNotExpired);
      :- Require(row.signature.None? && row.rawTransaction.None?, SignedCannotBeReleased);
      var ended :- EndUnsigned(policy, record, Released, now);
      Ok(Applied(Put(db, id, ended), ended.row))
  }

  /** The generic `transition`, with its guard exactly as wide as the source's. */
  function Transition(
    policy: Policy, db: Db, id: ExecutionId, target: ExecutionState,
    expected: Option<ExecutionState>, now: int): Outcome<Execution>
  {
    var _ :- Clock(now);
    var record :- Find(db, id);
    var row := record.row;
    var ending := target == Expired || target == Released;
    :- Require(expected.None? || expected.value == row.status, StateChanged);
    :- Require(target in AllowedTransitions(row.status), TransitionNotAllowed);
    :- Require(target !in {Signing, Signed, Submitted, SubmissionUnknown, Confirmed, Reverted, ReorgReview},
               DedicatedMethodRequired);
    :- Require(ending ==> row.signature.None? && row.rawTransaction.None?, SignedCannotBeReleased);
    :- Require(ending ==> now >= row.intent.deadline, DeadlineNotExpired);
    var moved :- if ending then EndUnsigned(policy, record, target, now)
                 else Ok(record.(row := row.(status := target)));
    Ok(Applied(Put(db, id, moved), moved.row))
  }

  /** The receipt columns are written together, and one observation row records them. */
  function Observe(record: Record, target: ExecutionState, seen: Finality, evidence: string, now: int): Record
    requires record.row.rawTransactionHash.Some?
  {
    record.(
      row := record.row.(
        status := target,
        finality := Some(seen),
        revertedAt := if target == Reverted then Some(now) else record.row.revertedAt,
        confirmedAt := if target == Confirmed then Some(now) else record.row.confirmedAt),
      observations := record.observations + [Observation(record.row.rawTransactionHash.value, seen, evidence, now)])
  }

  /** `_record_observation` for `confirm` (success) and `revert`. */
  function RecordObservation(
    policy: Policy, db: Db, id: ExecutionId, target: ExecutionState, seen: Finality,
    evidence: string, now: int): Outcome<Execution>
    requires target == Confirmed || target == Reverted
  {
    var _ :- Clock(now);
    var record :- Find(db, id);
    var row := record.row;
    :- Require(seen.DeepEnough(row.intent.chain), FinalityInsufficient);
    if row.status == target then
      var raw :- RequireRaw(row);
      :- Require(
        && |record.observations| == 1
        && record.observations[0].txHash == TxHash(raw)
        && record.observations[0].finality == seen
        && record.observations[0].evidence == evidence
        && row.finality == Some(seen),
        ReplayInconsistent);
      Ok(Applied(db, row))
    else
      :- Require(AwaitingReceipt(row.status), NotAwaitingReceipt);
      :- Require(row.rawTransactionHash.Some?, RawMissing);
      var observed := Observe(record, target, seen, evidence, now);
      var stored :- if target == Reverted then MarkGateTerminal(policy, observed, Settled, false) else Ok(observed);
      Ok(Applied(Put(db, id, stored), stored.row))
  }

  function Confirm(
    policy: Policy, db: Db, id: ExecutionId, seen: Finality, evidence: string, now: int): Outcome<Execution>
  {
    var success := seen.receiptStatus == 1;
    :- Require(success, ReceiptStatusWrong);
    RecordObservation(policy, db, id, Confirmed, seen, evidence, now)
  }

  function Revert(
    policy: Policy, db: Db, id: ExecutionId, seen: Finality, acceptedTransfer: bool,
    evidence: string, now: int): Outcome<Execution>
  {
    var reverted := seen.receiptStatus == 0 && !acceptedTransfer;
    :- Require(reverted, ReceiptStatusWrong);
    RecordObservation(policy, db, id, Reverted, seen, evidence, now)
  }

  function Finalize(
    policy: Policy, db: Db, id: ExecutionId, boundary: FinalityBoundary, now: int): Outcome<Execution>
  {
    var _ :- Clock(now);
    var record :- Find(db, id);
    var row := record.row;
    :- Require(boundary == Profile(row.intent.chain).boundary, BoundaryConflict);
    :- Require(row.status == Finalized || row.status == Confirmed, NotConfirmed);
    :- Require(row.finality.Some? && row.finality.value.boundary == boundary, BoundaryConflict);
    if row.status == Finalized then Ok(Applied(db, row)) else
      var finalized := row.(status := Finalized, finalizedAt := Some(now));
      var settled :- MarkGateTerminal(policy, record.(row := finalized), Settled, false);
      Ok(Applied(Put(db, id, settled), finalized))
  }

  function EndReverted(record: Record, seen: Finality, proof: ReleaseEvidence, now: int): Record {
    record.(row := record.row.(
      status := Released,
      releaseEvidence := Some(proof),
      finality := Some(seen),
      releasedAt := Some(now)))
  }

  function ReleaseReverted(
    policy: Policy, db: Db, id: ExecutionId, seen: Finality, proof: ReleaseEvidence, now: int):
    Outcome<Execution>
  {
    var proven := proof.ProvesNoTransfer();
    :- Require(proven, EvidenceInvalid);
    :- Require(seen.receiptStatus == 0, ReceiptStatusWrong);
    var _ :- Clock(now);
    var record :- Find(db, id);
    var row := record.row;
    :- Require(seen.DeepEnough(row.intent.chain), FinalityInsufficient);
    :- Require(proof.finalityBoundaryTimestamp >= row.intent.deadline, BoundaryBeforeDeadline);
    :- Require(now >= proof.finalityBoundaryTimestamp, BoundaryInFuture);
    :- Require(row.finality.Some? && row.finality.value.SameReceipt(seen), ReleaseIdentityConflicts);
    var known := row.finality.value;
    if row.status == Released then
      :- Require(known == seen && row.releaseEvidence == Some(proof), ReleaseChanged);
      Ok(Applied(db, row))
    else
      :- Require(row.status == Reverted, NotReverted);
      :- Require(row.releaseEvidence.None?, ReleaseAlreadyRecorded);
      :- Require(row.revertedAt.Some? && now >= row.revertedAt.value, ReleaseTimeInvalid);
      :- Require(seen.confirmations >= known.confirmations && seen.safeBlockNumber >= known.safeBlockNumber,
                 ReleaseBoundaryRegressed);
      :- Require(seen.safeBlockNumber == known.safeBlockNumber ==> seen.safeBlockHash == known.safeBlockHash,
                 ReleaseBoundaryChanged);
      var closed :- ReleaseGateReservation(policy, EndReverted(record, seen, proof, now));
      Ok(Applied(Put(db, id, closed), closed.row))
  }

  function MarkReorgReview(db: Db, id: ExecutionId, evidence: string, canonical: bool, now: int): Outcome<Execution> {
    var found := Find(db, id);
    :- Require(!canonical, EvidenceInvalid);
    var _ :- Clock(now);
    var record :- found;
    :- Require(record.row.status == Finalized, NotFinalized);
    var reviewed := record.row.(status := ReorgReview, reorg := Some(ReorgRecord(evidence, now)));
    Ok(Applied(Put(db, id, record.(row := reviewed)), reviewed))
  }

  // ---------------------------------------------------------------- operator and watcher

  function SetPause(db: Db, scope: ControlScope, paused: bool): Db {
    db.(paused := db.paused[scope := paused])
  }

  function RecordWatcherAttempt(db: Db, id: ExecutionId, nowNs: Positive): Outcome<()> {
    var record :- Find(db, id);
    Ok(Applied(Put(db, id, record.(row := record.row.(watcherAttemptedAt := Some(nowNs)))), ()))
  }
}
