/** Every step of a worker, the watcher or an operator is a right move (`MoveOk`). */
module HostedRelayerSteps {
  import opened Wrappers
  import opened PilotGate
  import opened ExecutionModels
  import opened RepositoryModel
  import opened RepositoryInvariants
  import opened RepositorySteps
  import opened RepositoryAllocation
  import opened RepositoryWriting
  import opened HostedRelayer
  import opened HostedRelayerCalls
  import opened HostedRelayerInvariants

  // ---------------------------------------------------------------- from one record to the tables

  lemma TablesRecord(policy: Policy, db: Db, id: ExecutionId)
    requires TablesInv(policy, db) && id in db.records
    ensures RecordInv(policy, db.records[id]) && RelayedInv(policy, db.records[id])
  {
    hide RecordInv, RelayedInv;
  }

  lemma SignedKept(policy: Policy, before: Record, after: Record)
    requires RecordInv(policy, before) && RecordInv(policy, after) && RelayedInv(policy, before)
    requires Evolves(before, after) && (HasMaterial(after.row) ==> HasMaterial(before.row))
    ensures RelayedInv(policy, after)
  {
  }

  lemma LeaseKeptBy(policy: Policy, before: Record, after: Record)
    requires RecordInv(policy, before) && RecordInv(policy, after) && RecordStep(before, after)
    requires after.row.signingGeneration == before.row.signingGeneration
    requires LeavesClaim(before, after) || after.row == before.row
    ensures LeaseKept(before, after)
  {
  }

  lemma KeptReflexive(id: ExecutionId, record: Record, own: Option<Token>)
    ensures Kept(id, record, record, own) && LeaseKept(record, record)
  {
  }

  lemma NothingAdvances(db: Db, own: Option<Token>)
    ensures Advances(db, db, own, None)
  {
    hide Kept, LeaseKept;
    forall id | id in db.records
      ensures Kept(id, db.records[id], db.records[id], own) && LeaseKept(db.records[id], db.records[id])
    {
      KeptReflexive(id, db.records[id], own);
    }
  }

  /** A change of one record advances the tables. */
  lemma ChangeAdvances(before: Db, after: Db, id: ExecutionId, own: Option<Token>, lease: Option<LeaseSpan>)
    requires id in before.records && id in after.records && after == Put(before, id, after.records[id])
    requires Kept(id, before.records[id], after.records[id], own)
    requires lease.Some? ==> lease.value.id == id
    requires if lease.Some? then LeaseGranted(before.records[id], after.records[id], lease.value)
             else LeaseKept(before.records[id], after.records[id])
    ensures Advances(before, after, own, lease)
  {
    hide Kept, LeaseKept, LeaseGranted;
    forall j | j in before.records && j != id
      ensures after.records[j] == before.records[j]
      ensures Kept(j, before.records[j], after.records[j], own) && LeaseKept(before.records[j], after.records[j])
    {
      KeptReflexive(j, before.records[j], own);
    }
  }

  lemma ChangeKeepsTables(policy: Policy, before: Db, after: Db, id: ExecutionId)
    requires TablesInv(policy, before) && LocalChange(policy, before, after, id)
    requires RelayedInv(policy, after.records[id])
    ensures TablesInv(policy, after)
  {
    hide Inv, RelayedInv, RecordStep, RecordInv, Fits;
    LocalChangeKeepsInv(policy, before, after, id);
    forall j | j in after.records
      ensures RelayedInv(policy, after.records[j])
    {
      if j != id {
        assert after.records[j] == before.records[j];
      }
    }
  }

  ghost predicate Safe(policy: Policy, before: Db, after: Db, own: Option<Token>) {
    TablesInv(policy, after) && Advances(before, after, own, None) && SettlesAll(before, after)
  }

  lemma ChangeSettles(before: Db, after: Db, id: ExecutionId)
    requires id in before.records && id in after.records && after == Put(before, id, after.records[id])
    requires Settles(before.records[id], after.records[id])
    ensures SettlesAll(before, after)
  {
  }

  /** Any call that keeps the generation and signs nothing. */
  lemma LandingAdvances(policy: Policy, before: Db, after: Db, id: ExecutionId, own: Option<Token>)
    requires TablesInv(policy, before) && LocalChange(policy, before, after, id)
    requires LeavesClaim(before.records[id], after.records[id]) && Unsigning(before.records[id], after.records[id])
    ensures TablesInv(policy, after) && Advances(before, after, own, None)
  {
    hide TablesInv, RecordInv, Evolves, Advances, Fits, LeavesClaim, LeaseKept, RelayedInv;
    TablesRecord(policy, before, id);
    SignedKept(policy, before.records[id], after.records[id]);
    LeaseKeptBy(policy, before.records[id], after.records[id]);
    ChangeKeepsTables(policy, before, after, id);
    ChangeAdvances(before, after, id, own, None);
  }

  lemma LandingSafe(policy: Policy, before: Db, after: Db, id: ExecutionId, own: Option<Token>)
    requires TablesInv(policy, before) && LocalChange(policy, before, after, id)
    requires LeavesClaim(before.records[id], after.records[id]) && Unsigning(before.records[id], after.records[id])
    requires Settles(before.records[id], after.records[id])
    ensures Safe(policy, before, after, own)
  {
    hide TablesInv, RecordInv, RecordStep, LeavesClaim, Unsigning, Settles, Advances, Fits, SettlesAll;
    LandingAdvances(policy, before, after, id, own);
    ChangeSettles(before, after, id);
  }

  lemma StepsSafe(policy: Policy, before: Db, after: Db, id: ExecutionId, own: Option<Token>)
    requires TablesInv(policy, before) && Steps(policy, before, after, id)
    ensures Safe(policy, before, after, own)
  {
    hide TablesInv, RecordInv, RecordStep, LeavesClaim, Unsigning, Settles, GateCloses, Fits, Safe;
    ClosingFits(policy, before, id, after.records[id]);
    LandingSafe(policy, before, after, id, own);
  }

  lemma NothingSafe(policy: Policy, db: Db, own: Option<Token>)
    requires TablesInv(policy, db)
    ensures Safe(policy, db, db, own)
  {
    hide TablesInv, Advances;
    NothingAdvances(db, own);
  }

  // ---------------------------------------------------------------- calls whose result is discarded

  /** Every call but a signer's advances the tables. */
  lemma WritingAdvances(policy: Policy, db: Db, id: ExecutionId, call: Writing, own: Option<Token>)
    requires TablesInv(policy, db) && !IsSigning(call)
    ensures var after := Written(policy, db, id, call);
            && TablesInv(policy, after)
            && Advances(db, after, own, None)
            && (!(call.Transitions? && call.target == Finalized) ==> SettlesAll(db, after))
  {
    hide TablesInv, Written, RecordInv, RelayedInv, LocalChange, LeavesClaim, Unsigning, Settles, Advances, SettlesAll;
    if id in db.records {
      TablesRecord(policy, db, id);
      WritingLands(policy, db, id, call);
      LandingAdvances(policy, db, Written(policy, db, id, call), id, own);
      if !(call.Transitions? && call.target == Finalized) {
        LandingSafe(policy, db, Written(policy, db, id, call), id, own);
      }
    } else {
      UnknownIsUnwritten(policy, db, id, call);
      NothingSafe(policy, db, own);
    }
  }

  lemma WritingSafe(policy: Policy, db: Db, id: ExecutionId, call: Writing, own: Option<Token>)
    requires TablesInv(policy, db) && !IsSigning(call) && !call.Transitions?
    ensures Safe(policy, db, Written(policy, db, id, call), own)
  {
    hide TablesInv, Written, Advances, SettlesAll;
    WritingAdvances(policy, db, id, call, own);
  }

  lemma PauseSafe(policy: Policy, db: Db, scope: ControlScope, paused: bool)
    requires TablesInv(policy, db)
    ensures Safe(policy, db, SetPause(db, scope, paused), None)
  {
    hide RecordInv, RelayedInv, Kept, LeaseKept, NonceExclusive, SharesKey, Total;
    NothingAdvances(db, None);
  }

  predicate Bypass(call: Call) {
    call.OperatorTransition? && call.target == Finalized
  }

  /** Watcher and operator calls, with whatever arguments, keep the tables' invariants; all but the
      generic `transition` to `finalized` settle what they finalize. */
  lemma CallSafe(policy: Policy, db: Db, call: Call)
    requires TablesInv(policy, db)
    ensures TablesInv(policy, CallResult(policy, db, call))
    ensures Advances(db, CallResult(policy, db, call), None, None)
    ensures !Bypass(call) ==> SettlesAll(db, CallResult(policy, db, call))
  {
    hide TablesInv, Advances, SettlesAll, CallResult, Written, SetPause;
    EnvironmentCommits(policy, db, call);
    match EnvironmentCall(call)
    case Writes(id, writing) => WritingAdvances(policy, db, id, writing, None);
    case Pauses(scope, paused) => PauseSafe(policy, db, scope, paused);
  }

  // ---------------------------------------------------------------- worker steps

  lemma QuietMoveOk(policy: Policy, before: Db, worker: Worker, after: Db, next: Worker)
    requires Safe(policy, before, after, SigningToken(worker))
    requires WorkerInv(policy, after, next) && FreshSigning(before, worker, next) && FreshSend(before, worker, next)
    ensures MoveOk(policy, before, worker, Quietly(after, next))
  {
    hide TablesInv, Advances, SettlesAll, WorkerInv, FreshSigning, FreshSend, SigningToken, SendToken;
  }

  /** The worker's call is over. */
  lemma EndOk(policy: Policy, before: Db, worker: Worker, after: Db)
    requires Safe(policy, before, after, SigningToken(worker))
    ensures MoveOk(policy, before, worker, Quietly(after, Idle))
  {
    hide Safe, MoveOk;
    QuietMoveOk(policy, before, worker, after, Idle);
  }

  lemma QuietlyOk(policy: Policy, db: Db, worker: Worker, next: Worker)
    requires TablesInv(policy, db) && WorkerInv(policy, db, next)
    requires FreshSigning(db, worker, next) && FreshSend(db, worker, next)
    ensures MoveOk(policy, db, worker, Quietly(db, next))
  {
    hide *;
    NothingSafe(policy, db, SigningToken(worker));
    QuietMoveOk(policy, db, worker, db, next);
  }

  lemma BeginOk(policy: Policy, db: Db, intent: ExecutionIntent, limits: RelayerLimits, approved: bool, now: int)
    requires TablesInv(policy, db)
    ensures MoveOk(policy, db, Idle, Quietly(db, Begin(db, intent, limits, approved, now)))
  {
    hide TablesInv, MoveOk, FindForIntent;
    QuietlyOk(policy, db, Idle, Begin(db, intent, limits, approved, now));
  }

  /** The tables after a successful allocation. */
  lemma AllocationSafe(
    policy: Policy, db: Db, intent: ExecutionIntent, pending: nat, confirmed: nat, newId: ExecutionId, now: int)
    requires TablesInv(policy, db) && now < intent.deadline
    requires AllocateOrReturn(policy, db, intent, pending, confirmed, newId, now).Ok?
    ensures var r := AllocateOrReturn(policy, db, intent, pending, confirmed, newId, now).value;
            Safe(policy, db, r.db, None) && r.value in r.db.records
  {
    hide AllocateOrReturn, Inv, RelayedInv, Kept, LeaseKept, SharingIds, AllocateNonce, AdmissionDenial;
    var r := AllocateOrReturn(policy, db, intent, pending, confirmed, newId, now).value;
    NothingAdvances(db, None);
    AllocationOutcome(policy, db, intent, pending, confirmed, newId, now);
    AllocationKeepsInv(policy, db, intent, pending, confirmed, newId, now);
    if SharingIds(db, intent) == {} {
      NewRelayedInv(policy, intent, r.db.records[newId].row.relayerNonce, now);
      forall j | j in r.db.records
        ensures RelayedInv(policy, r.db.records[j])
      {
        if j != newId {
          assert r.db.records[j] == db.records[j];
        }
      }
    }
  }

  lemma NewRelayedInv(policy: Policy, intent: ExecutionIntent, nonce: nat, now: Positive)
    requires now < intent.deadline
    ensures RelayedInv(policy, NewRecord(policy, intent, nonce, now))
  {
  }

  lemma AllocateOk(policy: Policy, db: Db, worker: Worker, pending: nat, confirmed: nat, newId: ExecutionId)
    requires TablesInv(policy, db) && WorkerInv(policy, db, worker) && worker.Allocating?
    ensures MoveOk(policy, db, worker, AllocateStep(policy, db, worker, pending, confirmed, newId))
  {
    hide TablesInv, MoveOk, Safe, AllocateOrReturn;
    QuietlyOk(policy, db, worker, Idle);
    if AllocateOrReturn(policy, db, worker.intent, pending, confirmed, newId, worker.now).Ok? {
      AllocationSafe(policy, db, worker.intent, pending, confirmed, newId, worker.now);
      var m := AllocateStep(policy, db, worker, pending, confirmed, newId);
      QuietMoveOk(policy, db, worker, m.db, m.worker);
    }
  }

  lemma LeaseIsGranted(policy: Policy, id: ExecutionId, record: Record, now: int)
    requires RecordInv(policy, record)
    requires record.row.status == PreflightApproved || record.row.status == Signing
    requires now < record.row.intent.deadline
    requires record.row.status == Signing ==> record.row.signingExpiresAt.Some? && record.row.signingExpiresAt.value <= now
    ensures var leased := record.(row := Lease(record.row, now));
            LeaseGranted(
              record, leased,
              LeaseSpan(id, record.row.signingGeneration + 1, now, LeaseEnd(record.row.intent.deadline, now)))
  {
  }

  /** Acquiring the signing claim: the lease is new and later than every earlier one. */
  lemma AcquireOk(policy: Policy, db: Db, worker: Worker)
    requires TablesInv(policy, db) && WorkerInv(policy, db, worker) && worker.Deciding?
    requires worker.now < worker.row.intent.deadline && Unsigned(worker.row.status)
    requires ClaimSigning(policy, db, worker.id, worker.now).Ok?
    requires ClaimSigning(policy, db, worker.id, worker.now).value.value.acquired
    ensures MoveOk(policy, db, worker, Decide(policy, db, worker))
  {
    hide TablesInv, RecordInv, RelayedInv, Advances, Kept, LeaseGranted, Fits;
    var id, now := worker.id, worker.now;
    var r := ClaimSigning(policy, db, id, now).value;
    var lease := LeaseSpan(id, r.value.row.signingGeneration, now, LeaseEnd(worker.row.intent.deadline, now));
    TablesRecord(policy, db, id);
    ClaimSigningSteps(policy, db, id, now);
    LeaseIsGranted(policy, id, db.records[id], now);
    ClaimKept(policy, id, db.records[id], r.db.records[id]);
    ChangeAdvances(db, r.db, id, None, Some(lease));
    ChangeSettles(db, r.db, id);
    ChangeKeepsTables(policy, db, r.db, id);
  }

  lemma ClaimKept(policy: Policy, id: ExecutionId, before: Record, after: Record)
    requires RecordInv(policy, before) && RecordInv(policy, after) && RelayedInv(policy, before)
    requires RecordStep(before, after) && !HasMaterial(after.row)
    requires after.row.signingGeneration == before.row.signingGeneration + 1
    ensures Kept(id, before, after, None) && RelayedInv(policy, after)
  {
    hide RecordInv;
  }

  lemma DecideOk(policy: Policy, db: Db, worker: Worker)
    requires TablesInv(policy, db) && WorkerInv(policy, db, worker) && worker.Deciding?
    ensures MoveOk(policy, db, worker, Decide(policy, db, worker))
  {
    hide TablesInv, MoveOk, Safe, ClaimSigning, ReleaseExpired;
    var id, row, now := worker.id, worker.row, worker.now;
    QuietlyOk(policy, db, worker, Idle);
    if now >= row.intent.deadline {
      WritingSafe(policy, db, id, ReleasesExpired(now), None);
      EndOk(policy, db, worker, After(db, ReleaseExpired(policy, db, id, now)));
    } else if Unsigned(row.status) {
      if ClaimSigning(policy, db, id, now).Ok? {
        if ClaimSigning(policy, db, id, now).value.value.acquired {
          AcquireOk(policy, db, worker);
        } else {
          NotAcquired(policy, db, id, now);
        }
      }
    } else {
      QuietlyOk(policy, db, worker, Claiming(id, row));
    }
  }

  lemma NotAcquired(policy: Policy, db: Db, id: ExecutionId, now: int)
    requires ClaimSigning(policy, db, id, now).Ok? && !ClaimSigning(policy, db, id, now).value.value.acquired
    ensures ClaimSigning(policy, db, id, now).value.db == db
  {
  }

  lemma QuoteOk(
    policy: Policy, db: Db, worker: Worker, estimate: nat, priority: nat, gasPrice: nat, additional: nat,
    signature: Signature)
    requires TablesInv(policy, db) && WorkerInv(policy, db, worker) && worker.Quoting?
    ensures MoveOk(policy, db, worker, QuoteStep(db, worker, estimate, priority, gasPrice, additional, signature))
  {
    hide TablesInv, MoveOk;
    QuietlyOk(policy, db, worker, QuoteStep(db, worker, estimate, priority, gasPrice, additional, signature).worker);
  }

  /** The charge `_sign` reserves covers the transaction it is about to sign, with or without a total-fee limit. */
  lemma ChargeCovers(policy: PilotGatePolicy, transaction: UnsignedTransaction, totalFee: Option<nat>)
    requires totalFee.Some? ==> totalFee.value >= transaction.gasLimit * transaction.fees.maxFee
    requires GasCharge(policy, transaction, totalFee).Ok?
    ensures GasCharge(policy, transaction, totalFee).value > 0
    ensures Covers(policy, GasCharge(policy, transaction, totalFee).value, transaction.gasLimit, transaction.fees.maxFee)
  {
    if totalFee.Some? {
      Scaled(transaction.gasLimit * transaction.fees.maxFee, totalFee.value, policy.nativeAssetUsdPriceCeilingMicros);
    }
  }

  lemma Scaled(a: nat, b: nat, factor: nat)
    requires a <= b
    ensures a * factor <= b * factor
  {
  }

  /** Reserving under a current generation: nobody else's claim is touched. */
  lemma ReservationSafe(policy: Policy, db: Db, id: ExecutionId, cost: int, generation: nat, now: int)
    requires TablesInv(policy, db) && ReservePilotGas(policy, db, id, cost, generation, now).Ok?
    ensures var after := ReservePilotGas(policy, db, id, cost, generation, now).value.db;
            && Safe(policy, db, after, Some(Token(id, generation)))
            && id in db.records
            && id in after.records
            && after.records[id].row == db.records[id].row
            && after.records[id].gate.Some?
            && after.records[id].gate.value.gasCost == cost
            && after.records[id].row.signingGeneration == generation
  {
    hide TablesInv, RecordInv, RecordStep, RelayedInv, Advances, LeaseKept, Fits;
    var after := ReservePilotGas(policy, db, id, cost, generation, now).value.db;
    TablesRecord(policy, db, id);
    ReservePilotGasLands(policy, db, id, cost, generation, now);
    LeaseKeptBy(policy, db.records[id], after.records[id]);
    UnsignedRelayedInv(policy, db.records[id], after.records[id]);
    ChangeAdvances(db, after, id, Some(Token(id, generation)), None);
    ChangeSettles(db, after, id);
    ChangeKeepsTables(policy, db, after, id);
  }

  lemma UnsignedRelayedInv(policy: Policy, before: Record, after: Record)
    requires RecordInv(policy, before) && RelayedInv(policy, before) && before.row.status == Signing && after.row == before.row
    ensures RelayedInv(policy, after)
  {
  }

  lemma ReserveOk(policy: Policy, db: Db, worker: Worker, now: int)
    requires TablesInv(policy, db) && WorkerInv(policy, db, worker) && worker.Reserving?
    ensures MoveOk(policy, db, worker, ReserveStep(policy, db, worker, now))
  {
    hide TablesInv, MoveOk, Safe, ReservePilotGas, GasCharge, Covers;
    var id, generation := worker.id, worker.row.signingGeneration;
    QuietlyOk(policy, db, worker, Idle);
    if policy.None? {
      QuietlyOk(policy, db, worker, Persisting(id, worker.row, worker.transaction));
    } else if now < worker.row.intent.deadline && GasCharge(policy.value, worker.transaction, worker.totalFee).Ok? {
      var cost := GasCharge(policy.value, worker.transaction, worker.totalFee).value;
      ChargeCovers(policy.value, worker.transaction, worker.totalFee);
      if ReservePilotGas(policy, db, id, cost, generation, now).Ok? {
        ReservationSafe(policy, db, id, cost, generation, now);
        QuietMoveOk(
          policy, db, worker, ReservePilotGas(policy, db, id, cost, generation, now).value.db,
          Persisting(id, worker.row, worker.transaction));
      }
    }
  }

  lemma SignedRecordInv(
    policy: Policy, record: Record, transaction: UnsignedTransaction, row: Execution, gasSignature: Signature,
    digest: string, now: int)
    requires RecordInv(policy, record) && RelayedInv(policy, record) && record.row.status == Signing
    requires policy.Some? ==> GasReserved(record)
    requires record.row.intent == row.intent && record.row.relayerNonce == row.relayerNonce
    requires TransactionFor(row, transaction) && ChargeInv(policy, record, record.row.signingGeneration, transaction)
    ensures RelayedInv(
              policy,
              SignRecord(record, transaction.executionSignature, Sign(transaction, gasSignature), Some(digest), now))
  {
  }

  lemma SigningKept(policy: Policy, id: ExecutionId, before: Record, after: Record, own: Option<Token>)
    requires RecordStep(before, after) && after.row.status == Signed
    ensures Kept(id, before, after, own) && LeaseKept(before, after)
  {
    hide RecordStep;
  }

  lemma PersistingSafe(policy: Policy, db: Db, worker: Worker, gasSignature: Signature, digest: string, now: int)
    requires TablesInv(policy, db) && WorkerInv(policy, db, worker) && worker.Persisting?
    requires var t := worker.transaction;
             PersistSigned(
               policy, db, worker.id, t.executionSignature, Sign(t, gasSignature), worker.row.signingGeneration,
               Some(digest), now).Ok?
    ensures var t := worker.transaction;
            var r := PersistSigned(
                       policy, db, worker.id, t.executionSignature, Sign(t, gasSignature), worker.row.signingGeneration,
                       Some(digest), now);
            Safe(policy, db, r.value.db, SigningToken(worker)) && IsSnapshot(r.value.db, worker.id, r.value.value)
  {
    hide TablesInv, RecordInv, RecordStep, RelayedInv, Safe, LeaseKept, Kept, Fits, ChargeInv, PersistSigned, Sign;
    var id, t := worker.id, worker.transaction;
    var after := PersistSigned(
      policy, db, id, t.executionSignature, Sign(t, gasSignature), worker.row.signingGeneration, Some(digest), now).value.db;
    if id in db.records {
      TablesRecord(policy, db, id);
    }
    PersistSignedSteps(
      policy, db, id, t.executionSignature, Sign(t, gasSignature), worker.row.signingGeneration, Some(digest), now);
    NothingSafe(policy, db, SigningToken(worker));
    if db.records[id].row.status == Signing {
      SignedRecordInv(policy, db.records[id], t, worker.row, gasSignature, digest, now);
      SigningKept(policy, id, db.records[id], after.records[id], SigningToken(worker));
      ChangeAdvances(db, after, id, SigningToken(worker), None);
      ChangeKeepsTables(policy, db, after, id);
      ChangeSettles(db, after, id);
      SafeBy(policy, db, after, SigningToken(worker));
    }
  }

  lemma SafeBy(policy: Policy, before: Db, after: Db, own: Option<Token>)
    requires TablesInv(policy, after) && Advances(before, after, own, None) && SettlesAll(before, after)
    ensures Safe(policy, before, after, own)
  {
    hide TablesInv, Advances, SettlesAll;
  }

  lemma PersistOk(policy: Policy, db: Db, worker: Worker, gasSignature: Signature, digest: string, now: int)
    requires TablesInv(policy, db) && WorkerInv(policy, db, worker) && worker.Persisting?
    ensures MoveOk(policy, db, worker, PersistStep(policy, db, worker, gasSignature, digest, now))
  {
    hide TablesInv, MoveOk, Safe, PersistSigned, Sign, TransactionFor, ChargeInv, SigningInv;
    QuietlyOk(policy, db, worker, Idle);
    var t := worker.transaction;
    var r := PersistSigned(
      policy, db, worker.id, t.executionSignature, Sign(t, gasSignature), worker.row.signingGeneration, Some(digest), now);
    if now < worker.row.intent.deadline && r.Ok? {
      PersistingSafe(policy, db, worker, gasSignature, digest, now);
      QuietMoveOk(policy, db, worker, r.value.db, Claiming(worker.id, r.value.value));
    }
  }

  /** A successful claim on a signed row counts one attempt and hands out the row's own bytes. */
  lemma ClaimOutcome(policy: Policy, db: Db, id: ExecutionId, now: int)
    requires TablesInv(policy, db) && ClaimSubmission(policy, db, id, now).Ok?
    ensures var r := ClaimSubmission(policy, db, id, now).value;
            && Safe(policy, db, r.db, None)
            && id in db.records
            && id in r.db.records
            && (r.value.acquired ==>
                && db.records[id].row.status == Signed
                && ClaimTaken(r.db, id)
                && r.value.row == r.db.records[id].row
                && SendInv(r.db, id, r.value.row.rawTransaction, r.value.row.broadcastAttempts)
                && r.value.row.broadcastAttempts > db.records[id].row.broadcastAttempts)
  {
    hide TablesInv, Safe, RecordInv, RelayedInv, LocalChange, LeavesClaim, Unsigning, Settles, EnsureGas;
    TablesRecord(policy, db, id);
    WritingSafe(policy, db, id, ClaimsSubmission(now), None);
  }

  /** Going on with a claim: the attempt number is new, so is the right to send. */
  lemma ClaimedOk(policy: Policy, db: Db, worker: Worker, id: ExecutionId, now: int, next: Worker)
    requires TablesInv(policy, db) && ClaimSubmission(policy, db, id, now).Ok?
    requires ClaimSubmission(policy, db, id, now).value.value.acquired
    requires SigningToken(worker).None? && SigningToken(next).None?
    requires var r := ClaimSubmission(policy, db, id, now).value;
             && SendToken(next) == Some(Token(id, r.value.row.broadcastAttempts))
             && (IsSnapshot(r.db, id, r.value.row)
                 && SendInv(r.db, id, r.value.row.rawTransaction, r.value.row.broadcastAttempts) ==>
                 WorkerInv(policy, r.db, next))
    ensures MoveOk(policy, db, worker, Move(ClaimSubmission(policy, db, id, now).value.db, next, None, Some(id), None))
  {
    hide TablesInv, ClaimSubmission, Advances, WorkerInv, SigningToken, SendToken, SendInv, ClaimTaken;
    ClaimOutcome(policy, db, id, now);
  }

  lemma ClaimOk(policy: Policy, db: Db, worker: Worker, now: int)
    requires TablesInv(policy, db) && worker.Claiming?
    ensures MoveOk(policy, db, worker, ClaimStep(policy, db, worker, now))
  {
    hide TablesInv, MoveOk, Safe, ClaimSubmission, SendInv, ClaimTaken;
    QuietlyOk(policy, db, worker, Idle);
    if now < worker.row.intent.deadline && ClaimSubmission(policy, db, worker.id, now).Ok? {
      var r := ClaimSubmission(policy, db, worker.id, now).value;
      if r.value.acquired {
        ClaimedOk(policy, db, worker, worker.id, now, LookingUp(worker.id, r.value.row));
      } else {
        ClaimOutcome(policy, db, worker.id, now);
        EndOk(policy, db, worker, r.db);
      }
    }
  }

  lemma LookupOk(policy: Policy, db: Db, worker: Worker, found: bool, now: int)
    requires TablesInv(policy, db) && WorkerInv(policy, db, worker) && worker.LookingUp?
    ensures MoveOk(policy, db, worker, LookupStep(db, worker, found, now))
  {
    hide TablesInv, MoveOk, Safe, MarkSubmitted;
    if found {
      WritingSafe(policy, db, worker.id, MarksSubmitted(now), None);
      EndOk(policy, db, worker, After(db, MarkSubmitted(db, worker.id, now)));
    } else {
      QuietlyOk(policy, db, worker, LookupStep(db, worker, found, now).worker);
    }
  }

  lemma SendOk(policy: Policy, db: Db, worker: Worker, answer: RpcAnswer)
    requires TablesInv(policy, db) && WorkerInv(policy, db, worker) && worker.Sending?
    ensures MoveOk(policy, db, worker, SendStep(db, worker, answer))
  {
    hide TablesInv, Advances;
    NothingAdvances(db, None);
  }

  lemma SettleOk(policy: Policy, db: Db, worker: Worker)
    requires TablesInv(policy, db) && worker.Settling?
    ensures MoveOk(policy, db, worker, SettleStep(db, worker))
  {
    hide TablesInv, MoveOk, Safe, MarkSubmitted, MarkSubmissionUnknown, MarkSubmissionRejected, After;
    var id, now := worker.id, worker.now;
    NothingSafe(policy, db, None);
    WritingSafe(policy, db, id, MarksSubmitted(now), None);
    WritingSafe(policy, db, id, MarksUnknown(now), None);
    if worker.answer.SubmissionRejectedAnswer? {
      WritingSafe(policy, db, id, MarksRejected(worker.answer.reason, now), None);
    }
    EndOk(policy, db, worker, SettleStep(db, worker).db);
  }

  lemma InspectOk(policy: Policy, db: Db, worker: Worker, found: bool, now: int)
    requires TablesInv(policy, db) && worker.Inspecting?
    ensures MoveOk(policy, db, worker, InspectStep(db, worker, found, now))
  {
    hide TablesInv, MoveOk, Safe, MarkSubmitted, After;
    NothingSafe(policy, db, None);
    WritingSafe(policy, db, worker.id, MarksSubmitted(now), None);
    var m := InspectStep(db, worker, found, now);
    QuietMoveOk(policy, db, worker, m.db, m.worker);
  }

  /** A rebroadcast counts one attempt and hands out the row's own bytes. */
  lemma RebroadcastOutcome(policy: Policy, db: Db, id: ExecutionId, now: int)
    requires TablesInv(policy, db) && RebroadcastRaw(policy, db, id, None, now).Ok?
    ensures var r := RebroadcastRaw(policy, db, id, None, now).value;
            && Safe(policy, db, r.db, None)
            && id in db.records
            && id in r.db.records
            && SendInv(r.db, id, Some(r.value), r.db.records[id].row.broadcastAttempts)
            && r.db.records[id].row.broadcastAttempts > db.records[id].row.broadcastAttempts
  {
    hide TablesInv, Safe, RecordInv, RelayedInv, LocalChange, LeavesClaim, Unsigning, Settles, EnsureGas;
    TablesRecord(policy, db, id);
    WritingSafe(policy, db, id, Rebroadcasts(None, now), None);
  }

  lemma RebroadcastOk(policy: Policy, db: Db, worker: Worker, now: int)
    requires TablesInv(policy, db) && worker.Rebroadcasting?
    ensures MoveOk(policy, db, worker, RebroadcastStep(policy, db, worker, now))
  {
    hide TablesInv, MoveOk, Safe, ClaimSubmission, RebroadcastRaw, ClaimTaken;
    var id := worker.id;
    QuietlyOk(policy, db, worker, Idle);
    if worker.row.status == Signed {
      if ClaimSubmission(policy, db, id, now).Ok? {
        ClaimOutcome(policy, db, id, now);
        var r := ClaimSubmission(policy, db, id, now).value;
        if r.value.acquired {
          ClaimedOk(
            policy, db, worker, id, now,
            Sending(id, r.value.row.rawTransaction.value, r.value.row.broadcastAttempts, now, true));
        } else {
          QuietMoveOk(policy, db, worker, r.db, BeginInspection(r.db, id, false));
        }
      }
    } else if RebroadcastRaw(policy, db, id, None, now).Ok? {
      RebroadcastOutcome(policy, db, id, now);
      var r := RebroadcastRaw(policy, db, id, None, now).value;
      QuietMoveOk(policy, db, worker, r.db, MarkingUnknown(id, r.value, r.db.records[id].row.broadcastAttempts, now));
    }
  }

  lemma SendInvKept(
    policy: Policy, before: Db, after: Db, own: Option<Token>, id: ExecutionId, raw: RawTransaction, number: nat)
    requires Safe(policy, before, after, own) && SendInv(before, id, Some(raw), number)
    ensures SendInv(after, id, Some(raw), number)
  {
    hide TablesInv, Advances;
    AdvancesGrows(before, after, own, None);
  }

  lemma MarkUnknownOk(policy: Policy, db: Db, worker: Worker)
    requires TablesInv(policy, db) && WorkerInv(policy, db, worker) && worker.MarkingUnknown?
    ensures MoveOk(policy, db, worker, MarkUnknownStep(db, worker))
  {
    hide TablesInv, MoveOk, Safe, MarkSubmissionUnknown, SendInv;
    QuietlyOk(policy, db, worker, Idle);
    WritingSafe(policy, db, worker.id, MarksUnknown(worker.now), None);
    var after := After(db, MarkSubmissionUnknown(db, worker.id, worker.now));
    SendInvKept(policy, db, after, None, worker.id, worker.raw, worker.number);
    var m := MarkUnknownStep(db, worker);
    QuietMoveOk(policy, db, worker, m.db, m.worker);
  }

  lemma SignerMoveOk(policy: Policy, db: Db, worker: Worker, input: Input)
    requires TablesInv(policy, db) && WorkerInv(policy, db, worker)
    requires input.StartExecute? || input.StartInspect? || input.Allocate? || input.Quote? || input.ReserveAt? || input.GasSigned?
    ensures MoveOk(policy, db, worker, WorkerMove(policy, db, worker, input))
  {
    hide TablesInv, MoveOk, Begin, AllocateStep, QuoteStep, ReserveStep, PersistStep;
    QuietlyOk(policy, db, worker, worker);
    match input
    case StartExecute(intent, limits, approved, now) =>
      if worker.Idle? { BeginOk(policy, db, intent, limits, approved, now); }
    case StartInspect(id, rebroadcast) =>
      if worker.Idle? { QuietlyOk(policy, db, worker, BeginInspection(db, id, rebroadcast)); }
    case Allocate(pending, confirmed, newId) =>
      if worker.Allocating? { AllocateOk(policy, db, worker, pending, confirmed, newId); }
    case Quote(estimate, priority, gasPrice, additional, signature) =>
      if worker.Quoting? { QuoteOk(policy, db, worker, estimate, priority, gasPrice, additional, signature); }
    case ReserveAt(now) =>
      if worker.Reserving? { ReserveOk(policy, db, worker, now); }
    case GasSigned(gasSignature, digest, now) =>
      if worker.Persisting? { PersistOk(policy, db, worker, gasSignature, digest, now); }
  }

  /** Every step of every worker is a right move. */
  lemma WorkerMoveOk(policy: Policy, db: Db, worker: Worker, input: Input)
    requires TablesInv(policy, db) && WorkerInv(policy, db, worker)
    ensures MoveOk(policy, db, worker, WorkerMove(policy, db, worker, input))
  {
    hide TablesInv, MoveOk, Decide, MarkUnknownStep, SettleStep, ClaimStep, RebroadcastStep, LookupStep, InspectStep, SendStep,
         Begin, AllocateStep, QuoteStep, ReserveStep, PersistStep;
    match input
    case Stop => QuietlyOk(policy, db, worker, Idle);
    case Proceed =>
      if worker.Deciding? { DecideOk(policy, db, worker); }
      else if worker.MarkingUnknown? { MarkUnknownOk(policy, db, worker); }
      else if worker.Settling? { SettleOk(policy, db, worker); }
      else { QuietlyOk(policy, db, worker, worker); }
    case ClaimAt(now) =>
      if worker.Claiming? { ClaimOk(policy, db, worker, now); } else { QuietlyOk(policy, db, worker, worker); }
    case RebroadcastAt(now) =>
      if worker.Rebroadcasting? { RebroadcastOk(policy, db, worker, now); } else { QuietlyOk(policy, db, worker, worker); }
    case Lookup(found, now) =>
      if worker.LookingUp? { LookupOk(policy, db, worker, found, now); }
      else if worker.Inspecting? { InspectOk(policy, db, worker, found, now); }
      else { QuietlyOk(policy, db, worker, worker); }
    case Answer(answer) =>
      if worker.Sending? { SendOk(policy, db, worker, answer); } else { QuietlyOk(policy, db, worker, worker); }
    case _ => SignerMoveOk(policy, db, worker, input);
  }

  // ---------------------------------------------------------------- the system

  lemma InitialInv(policy: Policy)
    ensures SystemInv(policy, INITIAL)
  {
  }

  lemma CallKeepsInv(policy: Policy, s: System, call: Call)
    requires SystemInv(policy, s)
    ensures SystemInv(policy, Step(policy, s, Environment(call)))
  {
    hide TablesInv, WorkerInv, Advances, CallResult, LeaseHolds, SigningToken, SendToken;
    var after := CallResult(policy, s.db, call);
    CallSafe(policy, s.db, call);
    AdvancesGrows(s.db, after, None, None);
    TablesRecords(policy, s.db);
    forall v | v in s.workers
      ensures WorkerInv(policy, after, s.workers[v])
    {
      OtherWorkerKept(policy, s.db, after, None, None, s.workers[v]);
    }
    SentsKept(s.db, after, s.wire);
    forall k | 0 <= k < |s.leases|
      ensures s.leases[k].id in after.records && LeaseHolds(after.records[s.leases[k].id], s.leases[k])
    {
      OldLeasesHold(s.db, after, None, None, s.leases[k]);
    }
    forall k | 0 <= k < |s.claims|
      ensures ClaimTaken(after, s.claims[k])
    {
      assert ClaimTaken(s.db, s.claims[k]);
    }
  }

  lemma TablesRecords(policy: Policy, db: Db)
    requires TablesInv(policy, db)
    ensures RecordsInv(policy, db)
  {
    hide RecordInv, RelayedInv;
  }

  lemma StepKeepsInv(policy: Policy, s: System, action: Action)
    requires SystemInv(policy, s)
    ensures SystemInv(policy, Step(policy, s, action))
  {
    hide TablesInv, MoveOk, WorkerMove, WorkerInv, WorkerAt, WireInv, ClaimsInv, LeasesInv;
    match action
    case Work(w, input) =>
      IdleInv(policy, s, w);
      WorkerMoveOk(policy, s.db, WorkerAt(s, w), input);
      ApplyKeepsInv(policy, s, w, WorkerMove(policy, s.db, WorkerAt(s, w), input));
    case Environment(call) => CallKeepsInv(policy, s, call);
  }

  lemma {:induction false} RunKeepsInv(policy: Policy, s: System, actions: seq<Action>)
    requires SystemInv(policy, s)
    ensures SystemInv(policy, Run(policy, s, actions))
    decreases |actions|
  {
    hide SystemInv, Step;
    if actions != [] {
      StepKeepsInv(policy, s, actions[0]);
      RunKeepsInv(policy, Step(policy, s, actions[0]), actions[1..]);
    }
  }
}
