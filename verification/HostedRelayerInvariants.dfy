/** One step of the relayer system keeps the system invariant. The proof has two halves: what a
    single worker's step does to the tables and to that worker (`MoveOk`), and how such a move acts
    on the other workers and on the logs. */
module HostedRelayerInvariants {
  import opened Wrappers
  import opened PilotGate
  import opened ExecutionModels
  import opened RepositoryModel
  import opened RepositoryInvariants
  import opened RepositorySteps
  import opened RepositoryAllocation
  import opened HostedRelayer

  // ---------------------------------------------------------------- the invariant

  datatype Token = Token(id: ExecutionId, number: nat)

  /** The signing generation a worker acts under. */
  function SigningToken(worker: Worker): Option<Token> {
    match worker
    case Quoting(id, row, _) => Some(Token(id, row.signingGeneration))
    case Reserving(id, row, _, _) => Some(Token(id, row.signingGeneration))
    case Persisting(id, row, _) => Some(Token(id, row.signingGeneration))
    case _ => None
  }

  /** The journaled attempt a worker may still send. */
  function SendToken(worker: Worker): Option<Token> {
    match worker
    case LookingUp(id, row) => Some(Token(id, row.broadcastAttempts))
    case MarkingUnknown(id, _, number, _) => Some(Token(id, number))
    case Sending(id, _, number, _, _) => Some(Token(id, number))
    case _ => None
  }

  function SentToken(sent: Sent): Token {
    Token(sent.id, sent.number)
  }

  /** The bytes a worker with a send token carries. */
  function CarriedRaw(worker: Worker): Option<RawTransaction> {
    match worker
    case LookingUp(_, row) => row.rawTransaction
    case MarkingUnknown(_, raw, _, _) => Some(raw)
    case Sending(_, raw, _, _, _) => Some(raw)
    case _ => None
  }

  predicate IsSnapshot(db: Db, id: ExecutionId, row: Execution) {
    id in db.records && db.records[id].row.intent == row.intent && db.records[id].row.relayerNonce == row.relayerNonce
  }

  /** The charge covers the worst native spend of a transaction. */
  predicate Covers(policy: PilotGatePolicy, gasCost: int, gasLimit: nat, maxFee: nat) {
    NativeSpend(gasLimit, maxFee, policy.nativeAssetUsdPriceCeilingMicros) <= gasCost * WEI_PER_NATIVE_UNIT
  }

  predicate SigningInv(db: Db, id: ExecutionId, row: Execution) {
    IsSnapshot(db, id, row) && 0 < row.signingGeneration <= db.records[id].row.signingGeneration
  }

  predicate TransactionFor(row: Execution, transaction: UnsignedTransaction) {
    && transaction.nonce == row.relayerNonce
    && transaction.authorization == row.intent
    && transaction.gasLimit > 0
    && transaction.fees.maxFee > 0
  }

  /** While the worker's generation is current, the reserved charge covers its transaction. */
  predicate ChargeInv(policy: Policy, record: Record, generation: nat, transaction: UnsignedTransaction) {
    policy.Some? && record.row.status == Signing && record.row.signingGeneration == generation ==>
      && record.gate.Some?
      && Covers(policy.value, record.gate.value.gasCost, transaction.gasLimit, transaction.fees.maxFee)
  }

  /** Bytes about to be sent are the bytes of the row, for an attempt already counted. */
  predicate SendInv(db: Db, id: ExecutionId, raw: Option<RawTransaction>, number: nat) {
    && id in db.records
    && raw.Some?
    && db.records[id].row.rawTransaction == raw
    && 1 <= number <= db.records[id].row.broadcastAttempts
  }

  predicate WorkerInv(policy: Policy, db: Db, worker: Worker) {
    match worker
    case Idle => true
    case Allocating(intent, _, now) => now < intent.deadline
    case Deciding(id, row, _, _) => IsSnapshot(db, id, row)
    case Quoting(id, row, _) => SigningInv(db, id, row)
    case Reserving(id, row, transaction, totalFee) =>
      && SigningInv(db, id, row)
      && TransactionFor(row, transaction)
      && (totalFee.Some? ==> totalFee.value >= transaction.gasLimit * transaction.fees.maxFee)
    case Persisting(id, row, transaction) =>
      && SigningInv(db, id, row)
      && TransactionFor(row, transaction)
      && ChargeInv(policy, db.records[id], row.signingGeneration, transaction)
    case Claiming(id, row) => IsSnapshot(db, id, row)
    case LookingUp(id, row) => IsSnapshot(db, id, row) && SendInv(db, id, row.rawTransaction, row.broadcastAttempts)
    case Inspecting(_, _, _) => true
    case Rebroadcasting(_, _) => true
    case MarkingUnknown(id, raw, number, _) => SendInv(db, id, Some(raw), number)
    case Sending(id, raw, number, now, rebroadcast) =>
      SendInv(db, id, Some(raw), number) && (!rebroadcast ==> now < db.records[id].row.intent.deadline)
    case Settling(_, _, _, _, _) => true
  }

  /** What relayers add: a row is allocated approved, before its deadline, and a signed one holds, and pays
      for, exactly its own transaction. */
  predicate RelayedInv(policy: Policy, record: Record) {
    && record.row.status != Requested
    && record.row.createdAt < record.row.intent.deadline
    && (HasMaterial(record.row) ==>
        var raw := record.row.rawTransaction.value;
        && raw.nonce == record.row.relayerNonce
        && raw.authorization == record.row.intent
        && record.row.signature == Some(raw.executionSignature)
        && (policy.Some? && record.gate.Some? ==>
            Covers(policy.value, record.gate.value.gasCost, raw.gasLimit, raw.maxFeePerGas)))
  }

  predicate LeaseHolds(record: Record, lease: LeaseSpan) {
    && 1 <= lease.generation <= record.row.signingGeneration
    && lease.start < lease.end <= record.row.intent.deadline
    && (record.row.status == Signing ==> record.row.signingExpiresAt.Some? && lease.end <= record.row.signingExpiresAt.value)
  }

  ghost predicate TablesInv(policy: Policy, db: Db) {
    Inv(policy, db) && forall id :: id in db.records ==> RelayedInv(policy, db.records[id])
  }

  ghost predicate WorkersInv(policy: Policy, s: System) {
    && (forall w :: w in s.workers ==> WorkerInv(policy, s.db, s.workers[w]))
    && (forall v, w :: v in s.workers && w in s.workers && v != w && SigningToken(s.workers[v]).Some? ==>
          SigningToken(s.workers[v]) != SigningToken(s.workers[w]))
    && (forall v, w :: v in s.workers && w in s.workers && v != w && SendToken(s.workers[v]).Some? ==>
          SendToken(s.workers[v]) != SendToken(s.workers[w]))
  }

  predicate SentInv(db: Db, sent: Sent) {
    && SendInv(db, sent.id, Some(sent.raw), sent.number)
    && (!sent.rebroadcast ==> sent.sentAt < db.records[sent.id].row.intent.deadline)
  }

  ghost predicate WireInv(s: System) {
    && (forall k :: 0 <= k < |s.wire| ==> SentInv(s.db, s.wire[k]))
    && (forall j, k :: 0 <= j < k < |s.wire| ==> SentToken(s.wire[j]) != SentToken(s.wire[k]))
    && (forall w, k :: w in s.workers && 0 <= k < |s.wire| ==> SendToken(s.workers[w]) != Some(SentToken(s.wire[k])))
  }

  predicate ClaimTaken(db: Db, id: ExecutionId) {
    id in db.records && Phase(db.records[id].row.status) > Phase(Signed)
  }

  ghost predicate ClaimsInv(s: System) {
    && (forall k :: 0 <= k < |s.claims| ==> ClaimTaken(s.db, s.claims[k]))
    && (forall j, k :: 0 <= j < k < |s.claims| ==> s.claims[j] != s.claims[k])
  }

  ghost predicate LeasesInv(s: System) {
    && (forall k :: 0 <= k < |s.leases| ==>
          s.leases[k].id in s.db.records && LeaseHolds(s.db.records[s.leases[k].id], s.leases[k]))
    && (forall j, k :: 0 <= j < k < |s.leases| && s.leases[j].id == s.leases[k].id ==>
          s.leases[j].generation < s.leases[k].generation && s.leases[j].end <= s.leases[k].start)
  }

  ghost predicate SystemInv(policy: Policy, s: System) {
    && TablesInv(policy, s.db)
    && WorkersInv(policy, s)
    && WireInv(s)
    && ClaimsInv(s)
    && LeasesInv(s)
  }

  // ---------------------------------------------------------------- one move

  /** What one call leaves of an existing record. `own` is the caller's signing token. */
  predicate Kept(id: ExecutionId, before: Record, after: Record, own: Option<Token>) {
    && RecordStep(before, after)
    && (LeavesClaim(before, after) || own == Some(Token(id, after.row.signingGeneration)))
  }

  /** Without a new lease the current one stays as it is. */
  predicate LeaseKept(before: Record, after: Record) {
    after.row.status == Signing ==>
      && before.row.status == Signing
      && after.row.signingGeneration == before.row.signingGeneration
      && after.row.signingExpiresAt == before.row.signingExpiresAt
  }

  predicate LeaseGranted(before: Record, after: Record, lease: LeaseSpan) {
    && after.row.status == Signing
    && lease.generation == after.row.signingGeneration == before.row.signingGeneration + 1
    && after.row.signingExpiresAt == Some(lease.end)
    && lease.start < lease.end <= after.row.intent.deadline
    && (before.row.status == Signing ==> before.row.signingExpiresAt.Some? && before.row.signingExpiresAt.value <= lease.start)
    && (before.row.status != Signing ==> before.row.signingGeneration == 0)
  }

  ghost predicate Advances(before: Db, after: Db, own: Option<Token>, lease: Option<LeaseSpan>) {
    && (forall id :: id in before.records ==>
          && id in after.records
          && Kept(id, before.records[id], after.records[id], own)
          && (if lease.Some? && lease.value.id == id then LeaseGranted(before.records[id], after.records[id], lease.value)
              else LeaseKept(before.records[id], after.records[id])))
    && (lease.Some? ==> lease.value.id in before.records)
  }

  /** No record becomes bypassed. */
  ghost predicate SettlesAll(before: Db, after: Db) {
    forall id :: id in after.records && Bypassed(after.records[id].row) ==>
      id in before.records && Bypassed(before.records[id].row)
  }

  predicate FreshSigning(before: Db, worker: Worker, next: Worker) {
    var token := SigningToken(next);
    || token.None?
    || token == SigningToken(worker)
    || (token.value.id in before.records && token.value.number > before.records[token.value.id].row.signingGeneration)
  }

  predicate FreshSend(before: Db, worker: Worker, next: Worker) {
    var token := SendToken(next);
    || token.None?
    || token == SendToken(worker)
    || (token.value.id in before.records && token.value.number > before.records[token.value.id].row.broadcastAttempts)
  }

  predicate SendsOwn(worker: Worker, move: Move) {
    move.sent.Some? ==>
      && SendToken(worker) == Some(SentToken(move.sent.value))
      && CarriedRaw(worker) == Some(move.sent.value.raw)
      && (!move.sent.value.rebroadcast ==> worker.Sending? && !worker.rebroadcast && worker.now == move.sent.value.sentAt)
      && SendToken(move.worker).None?
  }

  predicate ClaimsOnce(before: Db, move: Move) {
    move.claim.Some? ==>
      && move.claim.value in before.records
      && before.records[move.claim.value].row.status == Signed
      && ClaimTaken(move.db, move.claim.value)
  }

  ghost predicate MoveOk(policy: Policy, before: Db, worker: Worker, move: Move) {
    && TablesInv(policy, move.db)
    && Advances(before, move.db, SigningToken(worker), move.lease)
    && SettlesAll(before, move.db)
    && WorkerInv(policy, move.db, move.worker)
    && FreshSigning(before, worker, move.worker)
    && FreshSend(before, worker, move.worker)
    && SendsOwn(worker, move)
    && ClaimsOnce(before, move)
  }

  // ---------------------------------------------------------------- other workers and logs

  /** Another worker's charge stands: only the owner of the generation can move it. */
  lemma ChargeKept(
    policy: Policy, id: ExecutionId, before: Record, after: Record, own: Option<Token>, generation: nat,
    transaction: UnsignedTransaction)
    requires RecordInv(policy, before) && Kept(id, before, after, own)
    requires own != Some(Token(id, generation)) && 0 < generation <= before.row.signingGeneration
    requires ChargeInv(policy, before, generation, transaction)
    ensures ChargeInv(policy, after, generation, transaction)
  {
    hide Covers;
  }

  lemma OtherSignerKept(
    policy: Policy, before: Db, after: Db, own: Option<Token>, lease: Option<LeaseSpan>, other: Worker)
    requires Advances(before, after, own, lease)
    requires WorkerInv(policy, before, other)
    requires SigningToken(other).Some? && SigningToken(other) != own
    requires RecordsInv(policy, before)
    ensures WorkerInv(policy, after, other)
  {
    hide RecordInv, ChargeInv, LeaseKept, LeaseGranted, TransactionFor, LeavesClaim, Edge, EndedSame, SameMaterial;
    if other.Persisting? {
      ChargeKept(
        policy, other.id, before.records[other.id], after.records[other.id], own, other.row.signingGeneration,
        other.transaction);
    }
  }

  lemma OtherWorkerKept(
    policy: Policy, before: Db, after: Db, own: Option<Token>, lease: Option<LeaseSpan>, other: Worker)
    requires Advances(before, after, own, lease)
    requires WorkerInv(policy, before, other)
    requires SigningToken(other).Some? ==> SigningToken(other) != own
    requires RecordsInv(policy, before)
    ensures WorkerInv(policy, after, other)
  {
    hide RecordsInv, RecordInv, ChargeInv, LeaseKept, LeaseGranted, TransactionFor, LeavesClaim, Edge, EndedSame, Bypassed;
    if SigningToken(other).Some? {
      OtherSignerKept(policy, before, after, own, lease, other);
    }
  }

  lemma TokensBounded(policy: Policy, db: Db, worker: Worker)
    requires WorkerInv(policy, db, worker)
    ensures SigningToken(worker).Some? ==>
              var t := SigningToken(worker).value; t.id in db.records && t.number <= db.records[t.id].row.signingGeneration
    ensures SendToken(worker).Some? ==>
              var t := SendToken(worker).value; t.id in db.records && t.number <= db.records[t.id].row.broadcastAttempts
  {
  }

  lemma IdleInv(policy: Policy, s: System, w: WorkerId)
    requires WorkersInv(policy, s)
    ensures WorkerInv(policy, s.db, WorkerAt(s, w))
  {
  }

  lemma WorkersKept(policy: Policy, s: System, w: WorkerId, move: Move)
    requires RecordsInv(policy, s.db) && WorkersInv(policy, s)
    requires MoveOk(policy, s.db, WorkerAt(s, w), move)
    ensures WorkersInv(policy, Apply(s, w, move))
  {
    hide TablesInv, SettlesAll, RecordInv, Advances, WorkerInv;
    var own := SigningToken(WorkerAt(s, w));
    forall v | v in s.workers && v != w
      ensures WorkerInv(policy, move.db, s.workers[v])
      ensures SigningToken(s.workers[v]).Some? ==> SigningToken(s.workers[v]) != SigningToken(move.worker)
      ensures SendToken(s.workers[v]).Some? ==> SendToken(s.workers[v]) != SendToken(move.worker)
    {
      OtherWorkerKept(policy, s.db, move.db, own, move.lease, s.workers[v]);
      TokensBounded(policy, s.db, s.workers[v]);
    }
  }

  /** What the logs rely on. */
  ghost predicate Grows(before: Db, after: Db) {
    forall id :: id in before.records ==>
      && id in after.records
      && (HasMaterial(before.records[id].row) ==>
          after.records[id].row.rawTransaction == before.records[id].row.rawTransaction)
      && before.records[id].row.intent == after.records[id].row.intent
      && before.records[id].row.broadcastAttempts <= after.records[id].row.broadcastAttempts
      && Phase(before.records[id].row.status) <= Phase(after.records[id].row.status)
  }

  lemma AdvancesGrows(before: Db, after: Db, own: Option<Token>, lease: Option<LeaseSpan>)
    requires Advances(before, after, own, lease)
    ensures Grows(before, after)
  {
  }

  lemma SentsKept(before: Db, after: Db, wire: seq<Sent>)
    requires Grows(before, after)
    requires forall k :: 0 <= k < |wire| ==> SentInv(before, wire[k])
    ensures forall k :: 0 <= k < |wire| ==> SentInv(after, wire[k])
  {
  }

  lemma WireKept(policy: Policy, s: System, w: WorkerId, move: Move)
    requires WorkerInv(policy, s.db, WorkerAt(s, w))
    requires WireInv(s) && (forall v :: v in s.workers && v != w && SendToken(s.workers[v]).Some? ==>
                              SendToken(s.workers[v]) != SendToken(WorkerAt(s, w)))
    requires Grows(s.db, move.db) && SendsOwn(WorkerAt(s, w), move) && FreshSend(s.db, WorkerAt(s, w), move.worker)
    ensures WireInv(Apply(s, w, move))
  {
    var worker, t := WorkerAt(s, w), Apply(s, w, move);
    assert move.sent.Some? ==> SentInv(s.db, move.sent.value);
    assert forall k :: 0 <= k < |t.wire| ==> SentInv(s.db, t.wire[k]);
    SentsKept(s.db, move.db, t.wire);
    forall j, k | 0 <= j < k < |t.wire|
      ensures SentToken(t.wire[j]) != SentToken(t.wire[k])
    {
      if k == |s.wire| {
        assert w in s.workers && SendToken(s.workers[w]) != Some(SentToken(s.wire[j]));
      }
    }
    forall v, k | v in t.workers && 0 <= k < |t.wire|
      ensures SendToken(t.workers[v]) != Some(SentToken(t.wire[k]))
    {
      assert SentInv(s.db, t.wire[k]);
    }
  }

  lemma ClaimsKept(s: System, w: WorkerId, move: Move)
    requires ClaimsInv(s) && Grows(s.db, move.db) && ClaimsOnce(s.db, move)
    ensures ClaimsInv(Apply(s, w, move))
  {
    forall k | 0 <= k < |s.claims|
      ensures ClaimTaken(move.db, s.claims[k])
      ensures move.claim.Some? ==> s.claims[k] != move.claim.value
    {
      assert ClaimTaken(s.db, s.claims[k]);
    }
  }

  lemma LeaseStillHolds(
    before: Record, after: Record, own: Option<Token>, granted: bool, next: LeaseSpan, lease: LeaseSpan)
    requires Kept(lease.id, before, after, own)
    requires if granted then LeaseGranted(before, after, next) else LeaseKept(before, after)
    requires LeaseHolds(before, lease)
    ensures LeaseHolds(after, lease)
    ensures granted ==> lease.generation < next.generation && lease.end <= next.start
  {
  }

  lemma OldLeasesHold(before: Db, after: Db, own: Option<Token>, next: Option<LeaseSpan>, lease: LeaseSpan)
    requires Advances(before, after, own, next)
    requires lease.id in before.records && LeaseHolds(before.records[lease.id], lease)
    ensures lease.id in after.records && LeaseHolds(after.records[lease.id], lease)
    ensures next.Some? && next.value.id == lease.id ==>
              lease.generation < next.value.generation && lease.end <= next.value.start
  {
    var granted := next.Some? && next.value.id == lease.id;
    LeaseStillHolds(
      before.records[lease.id], after.records[lease.id], own, granted, if granted then next.value else lease, lease);
  }

  lemma NewLeaseHolds(before: Db, after: Db, own: Option<Token>, lease: LeaseSpan)
    requires Advances(before, after, own, Some(lease))
    ensures lease.id in after.records && LeaseHolds(after.records[lease.id], lease)
  {
    assert lease.id in before.records;
    assert LeaseGranted(before.records[lease.id], after.records[lease.id], lease);
  }

  lemma LeasesKept(s: System, w: WorkerId, move: Move)
    requires LeasesInv(s)
    requires Advances(s.db, move.db, SigningToken(WorkerAt(s, w)), move.lease)
    ensures LeasesInv(Apply(s, w, move))
  {
    var own, t := SigningToken(WorkerAt(s, w)), Apply(s, w, move);
    forall k | 0 <= k < |t.leases|
      ensures t.leases[k].id in move.db.records && LeaseHolds(move.db.records[t.leases[k].id], t.leases[k])
    {
      if k < |s.leases| {
        OldLeasesHold(s.db, move.db, own, move.lease, s.leases[k]);
      } else {
        NewLeaseHolds(s.db, move.db, own, move.lease.value);
      }
    }
    forall j, k | 0 <= j < k < |t.leases| && t.leases[j].id == t.leases[k].id
      ensures t.leases[j].generation < t.leases[k].generation && t.leases[j].end <= t.leases[k].start
    {
      OldLeasesHold(s.db, move.db, own, move.lease, s.leases[j]);
    }
  }

  /** A move that is right for its own worker is right for the system. */
  lemma ApplyKeepsInv(policy: Policy, s: System, w: WorkerId, move: Move)
    requires SystemInv(policy, s)
    requires MoveOk(policy, s.db, WorkerAt(s, w), move)
    ensures SystemInv(policy, Apply(s, w, move))
  {
    IdleInv(policy, s, w);
    AdvancesGrows(s.db, move.db, SigningToken(WorkerAt(s, w)), move.lease);
    WorkersKept(policy, s, w, move);
    WireKept(policy, s, w, move);
    ClaimsKept(s, w, move);
    LeasesKept(s, w, move);
  }
}
