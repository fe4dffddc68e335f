/** `ExecutionRepository`: the durable tables and the methods that change them
    (apps/facilitator/execution_repository.py). One method call is one transaction. Each method is
    proved to commit exactly what `RepositoryModel` says, to keep the invariant of the tables, to move no row
    but the one it names, and to leave the tables alone when it raises. */
module ExecutionRepository {
  import opened Wrappers
  import opened Sums
  import opened PilotGate
  import opened ExecutionModels
  import opened RepositoryModel
  import opened RepositoryInvariants
  import opened RepositoryAllocation
  import opened RepositoryWriting
  import opened RepositoryContracts
  import opened RepositoryConditions
  import opened WatchQueue
  import Model = RepositoryModel

  /** The call returned `result`, and the tables moved from `before` to `after`, as the model says. */
  ghost predicate Committed<T(!new)>(before: Db, after: Db, result: Result<T, RepoError>, expected: Outcome<T>) {
    match expected
    case Ok(applied) => result == Ok(applied.value) && after == applied.db
    case Err(error) => result == Err(error) && after == before
  }

  function Restrict(records: map<ExecutionId, Record>, ids: set<ExecutionId>): map<ExecutionId, Record> {
    map id | id in records && id in ids :: records[id]
  }

  lemma RestrictSplit(records: map<ExecutionId, Record>, ids: set<ExecutionId>, id: ExecutionId, measure: Measure)
    requires id in ids && id in records
    ensures Total(Restrict(records, ids), measure)
            == Weight(measure, records[id]) + Total(Restrict(records, ids - {id}), measure)
  {
    hide Weight;
    SumSplit(Weights(Restrict(records, ids), measure), id);
    assert Weights(Restrict(records, ids), measure) - {id} == Weights(Restrict(records, ids - {id}), measure);
  }

  /** When the watcher last attempted the row. */
  function LastAttempt(record: Record): int {
    match record.row.watcherAttemptedAt
    case Some(attempted) => attempted
    case None => 0
  }

  /** Least attempted first; a row never attempted counts as attempted at 0, and equal attempts go by identifier. */
  predicate InRetryOrder(db: Db, ids: seq<ExecutionId>) {
    forall i, j :: 0 <= i < j < |ids| ==>
      && ids[i] in db.records
      && ids[j] in db.records
      && LastAttempt(db.records[ids[i]]) <= LastAttempt(db.records[ids[j]])
      && (LastAttempt(db.records[ids[i]]) == LastAttempt(db.records[ids[j]]) ==> IdLess(ids[i], ids[j]))
  }

  lemma ListedInOrder(db: Db, all: set<ExecutionId>, todo: set<ExecutionId>, ids: seq<ExecutionId>)
    requires Leads(db, all, todo, ids)
    ensures InRetryOrder(db, ids)
  {
    hide IdLess;
  }

  class ExecutionRepository {
    const policy: Policy
    var records: map<ExecutionId, Record>
    var nextNonces: map<NonceKey, nat>
    var paused: map<ControlScope, bool>

    constructor (policy: Policy)
      ensures this.policy == policy && Tables() == EMPTY_DB && Valid()
    {
      this.policy := policy;
      records, nextNonces, paused := map[], map[], map[];
      new;
      EmptyInv(policy);
    }

    /** Every row's invariant, exclusive nonces, unique keys, and all counts and charges within the limits. */
    ghost predicate Valid()
      reads this
    {
      Inv(policy, Tables())
    }

    ghost function Tables(): Db
      reads this
    {
      Db(records, nextNonces, paused)
    }

    // -------------------------------------------------------------- queries

    /** `SELECT SUM(...)` or `COUNT(*)` over the reservations, without the excluded execution. */
    method Aggregate(measure: Measure, excluding: set<ExecutionId>) returns (total: nat)
      ensures total == Total(records - excluding, measure)
    {
      hide Total, Weight;
      total := 0;
      var todo := records.Keys - excluding;
      assert Restrict(records, todo) == records - excluding;
      while todo != {}
        invariant todo <= records.Keys - excluding
        invariant total + Total(Restrict(records, todo), measure) == Total(records - excluding, measure)
        decreases |todo|
      {
        var id :| id in todo;
        RestrictSplit(records, todo, id, measure);
        total := total + Weight(measure, records[id]);
        todo := todo - {id};
      }
      EmptyTotal(Restrict(records, {}), measure);
    }

    /** The executions that hold one of the intent's four unique keys. */
    method SelectSharing(intent: ExecutionIntent) returns (ids: set<ExecutionId>)
      ensures ids == SharingIds(Tables(), intent)
    {
      ids := {};
      var todo := records.Keys;
      while todo != {}
        invariant todo <= records.Keys
        invariant ids == set id | id in records.Keys - todo && SharesKey(records[id].row.intent, intent)
        decreases |todo|
      {
        var id :| id in todo;
        if SharesKey(records[id].row.intent, intent) {
          ids := ids + {id};
        }
        todo := todo - {id};
      }
    }

    method FindForIntent(intent: ExecutionIntent) returns (result: Result<Option<ExecutionId>, RepoError>)
      requires Valid()
      ensures result == Model.FindForIntent(Tables(), intent)
      ensures result == Ok(None) <==> forall id :: id in records ==> KeysDiffer(records[id].row.intent, intent)
      ensures forall id :: id in records && records[id].row.intent == intent ==> result == Ok(Some(id))
      ensures result.Err? <==>
                exists id :: id in records && !KeysDiffer(records[id].row.intent, intent) && records[id].row.intent != intent
      ensures result.Ok? && result.value.Some? ==>
                result.value.value in records && records[result.value.value].row.intent == intent
    {
      hide Inv;
      SharingIsTaken(policy, Tables(), intent);
      var ids := SelectSharing(intent);
      if ids == {} {
        return Ok(None);
      }
      var id :| id in ids;
      if ids != {id} {
        return Err(Conflict(UniquenessInconsistent));
      }
      if records[id].row.intent != intent {
        return Err(Conflict(ScopeChanged));
      }
      return Ok(Some(id));
    }

    /** `SELECT MIN(relayer_nonce)` over the recyclable rows. */
    method SelectRecyclable(key: NonceKey, confirmed: nat) returns (least: Option<nat>)
      ensures least.None? <==> RecyclableNonces(Tables(), key, confirmed) == {}
      ensures least.Some? ==> least.value == Least(RecyclableNonces(Tables(), key, confirmed))
    {
      hide RecyclableNonces;
      var all := RecyclableNonces(Db(records, nextNonces, paused), key, confirmed);
      var todo := all;
      least := None;
      while todo != {}
        invariant todo <= all
        invariant least.None? ==> todo == all
        invariant least.Some? ==> least.value in all && forall n :: n in all && n !in todo ==> least.value <= n
        decreases |todo|
      {
        var n :| n in todo;
        if least.None? || n < least.value {
          least := Some(n);
        }
        todo := todo - {n};
      }
    }

    /** The daily quotas of a new execution. */
    method AdmissionDenial(
      gate: PilotGatePolicy, intent: ExecutionIntent, day: nat)
      returns (denial: Option<DenialReason>)
      ensures denial == Model.AdmissionDenial(gate, Tables(), intent, day)
    {
      hide Total;
      assert records - {} == records;
      denial := PauseDenial(Db(records, nextNonces, paused), intent.tenantId, intent.nodeId);
      if denial.Some? {
        return;
      }
      var inFlight := Aggregate(NodeInFlight(intent.tenantId, intent.nodeId), {});
      if inFlight >= gate.maxInFlightPerNode {
        return Some(NodeInFlightLimit);
      }
      var today := Aggregate(NodeAcceptedOn(intent.tenantId, intent.nodeId, day), {});
      if today >= gate.maxAcceptedPerNodeUtcDay {
        return Some(NodeDailyLimit);
      }
      var lifetime := Aggregate(NodeAcceptedEver(intent.tenantId, intent.nodeId), {});
      if lifetime >= gate.maxAcceptedPerNodeLifetime {
        return Some(NodeLifetimeLimit);
      }
    }

    /** Both daily gas caps, with the execution's own earlier charge excluded. */
    method GasDenial(
      gate: PilotGatePolicy, id: ExecutionId, record: Record, cost: nat, day: nat)
      returns (denial: Option<DenialReason>)
      requires record.gate.Some?
      ensures var charged := Charge(gate, Tables(), id, record, cost, day);
              if denial.Some? then charged == Err(Denied(denial.value))
              else charged == Ok(record.(gate := Some(record.gate.value.(gasCost := cost, gasDay := Some(day)))))
    {
      hide Total;
      var intent := record.row.intent;
      var node := Aggregate(NodeGasOn(intent.tenantId, intent.nodeId, day), {id});
      if node + cost > gate.maxGasUsdMicrosPerNodeUtcDay {
        return Some(NodeDailyGasLimit);
      }
      var platform := Aggregate(PlatformGasOn(day), {id});
      if platform + cost > gate.maxGasUsdMicrosPlatformUtcDay {
        return Some(PlatformDailyGasLimit);
      }
      return None;
    }

    /** `_ensure_pilot_gas_reservation`: the reservation as it stands for a broadcast at `now`. */
    method EnsureGas(id: ExecutionId, record: Record, now: Positive) returns (result: Result<Record, RepoError>)
      ensures result == Model.EnsureGas(policy, Tables(), id, record, now)
      ensures result.Ok? ==> result.value == record.(gate := result.value.gate)
      ensures policy.None? ==> result == Ok(record)
      ensures result.Ok? && policy.Some? && record.gate.Some? && record.gate.value.gasCost > 0 ==>
                ChargedToday(policy, record, result.value, now)
    {
      hide Charge;
      if policy.None? {
        return Ok(record);
      }
      if record.gate.None? || record.gate.value.state != Reserved {
        return Err(Conflict(GateReservationUnavailable));
      }
      var gate := record.gate.value;
      var day := UtcDay(now);
      var cost := policy.value.maxGasUsdMicrosPerNodeUtcDay;
      if gate.gasCost > 0 {
        if gate.gasDay.None? {
          return Err(Conflict(GasReservationInvalid));
        }
        if gate.gasDay.value == day {
          return Ok(record);
        }
        cost := gate.gasCost;
      } else if gate.gasDay.Some? {
        return Err(Conflict(GasReservationInvalid));
      }
      var denial := GasDenial(policy.value, id, record, cost, day);
      if denial.Some? {
        return Err(Denied(denial.value));
      }
      return Ok(record.(gate := Some(gate.(gasCost := cost, gasDay := Some(day)))));
    }

    // -------------------------------------------------------------- allocation

    method AllocateRelayerNonce(key: NonceKey, pending: nat, confirmed: nat) returns (nonce: nat)
      requires Valid()
      modifies this`nextNonces
      ensures if exists n :: Reusable(old(Tables()), key, confirmed, n) then
                && Reusable(old(Tables()), key, confirmed, nonce)
                && (forall n :: Reusable(old(Tables()), key, confirmed, n) ==> nonce <= n)
                && nextNonces == old(nextNonces)
              else
                && nonce >= pending
                && NeverAllocated(old(Tables()), key, nonce)
                && (nonce == pending
                    || exists id :: id in old(records) && HoldsNonce(old(records[id].row), key, nonce - 1))
                && nextNonces == old(nextNonces)[key := nonce + 1]
      ensures var choice := AllocateNonce(old(Tables()), key, pending, confirmed);
              nonce == choice.nonce && nextNonces == old(nextNonces)[key := choice.next]
    {
      hide Inv, RecyclableNonces, Reusable, HoldsNonce;
      NonceChoiceIs(policy, Tables(), key, pending, confirmed);
      if key !in nextNonces {
        nextNonces := nextNonces[key := pending + 1];
        return pending;
      }
      var recyclable := SelectRecyclable(key, confirmed);
      if recyclable.Some? {
        assert nextNonces[key := nextNonces[key]] == nextNonces;
        return recyclable.value;
      }
      nonce := nextNonces[key];
      if nonce < pending {
        nonce := pending;
      }
      nextNonces := nextNonces[key := nonce + 1];
    }

    method AllocateOrReturn(intent: ExecutionIntent, pending: nat, confirmed: nat, newId: ExecutionId, now: int)
      returns (result: Result<ExecutionId, RepoError>)
      requires Valid()
      modifies this
      ensures Valid()
      ensures Committed(
                old(Tables()), Tables(), result,
                Model.AllocateOrReturn(policy, old(Tables()), intent, pending, confirmed, newId, now))
      ensures result.Ok? <==> old(MayAllocate(policy, Tables(), intent, pending, confirmed, newId, now))
      ensures forall j :: j in old(records) ==> j in records && records[j] == old(records[j])
      ensures result.Ok? ==>
                && result.value in records
                && records[result.value].row.intent == intent
                && (result.value in old(records) ==> Tables() == old(Tables()))
                && (result.value !in old(records) ==> IsNew(policy, records[result.value], intent, now))
                && (result.value in old(records)
                    <==> exists id :: id in old(records) && !KeysDiffer(old(records[id].row.intent), intent))
    {
      hide Inv, Model.FindForIntent, Model.AdmissionDenial, AllocateNonce, Reusable, NeverAllocated, HoldsNonce,
           KeysDiffer, MayAllocate;
      AllocateOrReturnIff(policy, Tables(), intent, pending, confirmed, newId, now);
      if Model.AllocateOrReturn(policy, Tables(), intent, pending, confirmed, newId, now).Ok? {
        AllocationKeepsInv(policy, Tables(), intent, pending, confirmed, newId, now);
      }
      if !intent.Valid() {
        return Err(Conflict(IntentInvalid));
      }
      if pending > MAX_RELAYER_NONCE || confirmed > MAX_RELAYER_NONCE {
        return Err(Conflict(NonceInvalid));
      }
      if confirmed > pending {
        return Err(Conflict(NonceObservationsInconsistent));
      }
      if now <= 0 {
        return Err(Conflict(ClockInvalid));
      }
      var existing := FindForIntent(intent);
      if existing.Err? {
        return Err(existing.error);
      }
      if existing.value.Some? {
        return Ok(existing.value.value);
      }
      if policy.Some? {
        var denial := AdmissionDenial(policy.value, intent, UtcDay(now));
        if denial.Some? {
          return Err(Denied(denial.value));
        }
      }
      if newId in records {
        return Err(Conflict(AllocationUncommitted));
      }
      var nonce := AllocateRelayerNonce(intent.Key(), pending, confirmed);
      var gate := None;
      if policy.Some? {
        gate := Some(GateReservation(intent.tenantId, intent.nodeId, UtcDay(now), Reserved, 0, None));
      }
      records := records[newId := Record(NewRow(intent, nonce, now), gate, [], [])];
      return Ok(newId);
    }

    // -------------------------------------------------------------- signing

    method ClaimSigning(id: ExecutionId, now: int) returns (result: Result<Claimed, RepoError>)
      requires Valid()
      modifies this`records
      ensures Valid() && Moves(old(Tables()), Tables(), id)
      ensures result.Ok? <==> old(MayClaimSigning(policy, Tables(), id, now))
      ensures Committed(old(Tables()), Tables(), result, Model.ClaimSigning(policy, old(Tables()), id, now))
      ensures result.Ok? ==>
                && id in old(records)
                && result.value.row == records[id].row
                && (result.value.acquired <==> old(Leasable(records[id].row, now)))
                && (result.value.acquired ==> Leased(old(records[id]), records[id], now))
                && (!result.value.acquired ==> records == old(records))
    {
      hide Inv, RecordStep, RecordsInv, MayClaimSigning;
      InvOfRecords(policy, Tables());
      ClaimSigningIff(policy, Tables(), id, now);
      WritingKeeps(policy, Tables(), id, ClaimsSigning(now));
      if now <= 0 {
        return Err(Conflict(ClockInvalid));
      }
      if id !in records {
        return Err(NotFound);
      }
      var row := records[id].row;
      var open := GateOpen(policy, Db(records, nextNonces, paused), row);
      if open.Fails? {
        return Err(open.error);
      }
      if row.status != Signing && row.status != PreflightApproved {
        return Err(Conflict(NotClaimableForSigning));
      }
      if now >= row.intent.deadline {
        return Err(Conflict(DeadlineExpired));
      }
      if row.status == Signing {
        if row.signingGeneration == 0 || row.signingExpiresAt.None? {
          return Err(Conflict(ClaimInvalid));
        }
        if now < row.signingExpiresAt.value {
          return Ok(Claimed(row, false));
        }
      }
      var end := now + SIGNING_CLAIM_LEASE_SECONDS;
      if row.intent.deadline < end {
        end := row.intent.deadline;
      }
      row := row.(status := Signing, signingGeneration := row.signingGeneration + 1, signingExpiresAt := Some(end));
      records := records[id := records[id].(row := row)];
      return Ok(Claimed(row, true));
    }

    method ReservePilotGas(
      id: ExecutionId, cost: int, generation: int, now: int)
      returns (result: Result<int, RepoError>)
      requires Valid()
      modifies this`records
      ensures Valid() && Moves(old(Tables()), Tables(), id)
      ensures result.Ok? <==> old(MayReserveGas(policy, Tables(), id, cost, generation, now))
      ensures Committed(
                old(Tables()), Tables(), result,
                Model.ReservePilotGas(policy, old(Tables()), id, cost, generation, now))
      ensures result.Ok? ==>
                && id in old(records)
                && ChargedWith(old(records[id]), records[id], cost, now)
    {
      hide Inv, RecordStep, Charge, RecordsInv, MayReserveGas;
      InvOfRecords(policy, Tables());
      ReservePilotGasIff(policy, Tables(), id, cost, generation, now);
      WritingKeeps(policy, Tables(), id, ReservesGas(cost, generation, now));
      if policy.None? {
        return Err(Conflict(PolicyUnavailable));
      }
      if cost <= 0 {
        return Err(Conflict(GasInvalid));
      }
      if generation <= 0 {
        return Err(Conflict(ClaimInvalid));
      }
      if now <= 0 {
        return Err(Conflict(ClockInvalid));
      }
      if id !in records {
        return Err(NotFound);
      }
      var record := records[id];
      if record.row.status != Signing {
        return Err(Conflict(NotAwaitingGas));
      }
      if record.row.signingGeneration != generation {
        return Err(Conflict(ClaimStale));
      }
      if record.gate.None? || record.gate.value.state != Reserved {
        return Err(Conflict(GateReservationUnavailable));
      }
      var open := GateOpen(policy, Db(records, nextNonces, paused), record.row);
      if open.Fails? {
        return Err(open.error);
      }
      var day := UtcDay(now);
      var denial := GasDenial(policy.value, id, record, cost, day);
      if denial.Some? {
        return Err(Denied(denial.value));
      }
      records := records[id := record.(gate := Some(record.gate.value.(gasCost := cost, gasDay := Some(day))))];
      return Ok(cost);
    }

    method PersistSigned(
      id: ExecutionId, signature: Signature, raw: RawTransaction, generation: int, unsignedHash: Option<string>, now: int)
      returns (result: Result<Execution, RepoError>)
      requires Valid()
      modifies this`records
      ensures Valid() && Moves(old(Tables()), Tables(), id)
      ensures result.Ok? <==> old(MayPersist(policy, Tables(), id, signature, raw, generation, now))
      ensures Committed(
                old(Tables()), Tables(), result,
                Model.PersistSigned(policy, old(Tables()), id, signature, raw, generation, unsignedHash, now))
      ensures result.Ok? ==>
                && id in old(records)
                && result.value == records[id].row
                && records[id].row.signature == Some(signature)
                && records[id].row.rawTransaction == Some(raw)
                && (if old(records[id].row.status) == Signed then records == old(records)
                    else SignedWith(old(records[id]), records[id], signature, raw, unsignedHash, now))
    {
      hide Inv, RecordStep, HasAttempt, RecordsInv, MayPersist;
      InvOfRecords(policy, Tables());
      PersistSignedIff(policy, Tables(), id, signature, raw, generation, unsignedHash, now);
      WritingKeeps(policy, Tables(), id, Persists(signature, raw, generation, unsignedHash, now));
      if generation <= 0 {
        return Err(Conflict(ClaimInvalid));
      }
      if now <= 0 {
        return Err(Conflict(ClockInvalid));
      }
      if id !in records {
        return Err(NotFound);
      }
      var record := records[id];
      var row := record.row;
      if row.signingGeneration != generation {
        return Err(Conflict(ClaimStale));
      }
      if row.status == Signed {
        if row.signature != Some(signature) || row.rawTransaction != Some(raw) {
          return Err(Conflict(SignedImmutable));
        }
        return Ok(row);
      }
      if row.status != Signing {
        return Err(Conflict(NotAwaitingSigning));
      }
      if now >= row.intent.deadline {
        return Err(Conflict(DeadlineExpired));
      }
      var open := GateOpen(policy, Db(records, nextNonces, paused), row);
      if open.Fails? {
        return Err(open.error);
      }
      if policy.Some? && !GasReserved(record) {
        return Err(Conflict(GasReservationUnavailable));
      }
      if HasAttempt(record.attempts, 0) {
        return Err(Conflict(AttemptDuplicated));
      }
      row := row.(
        signature := Some(signature), rawTransaction := Some(raw), rawTransactionHash := Some(TxHash(raw)),
        unsignedTransactionHash := unsignedHash, signingExpiresAt := None, status := Signed);
      var attempts := record.attempts + [Attempt(0, SignedAttempt, TxHash(raw), now)];
      records := records[id := record.(row := row, attempts := attempts)];
      return Ok(row);
    }

    // -------------------------------------------------------------- submission

    method ClaimSubmission(id: ExecutionId, now: int) returns (result: Result<Claimed, RepoError>)
      requires Valid()
      modifies this`records
      ensures Valid() && Moves(old(Tables()), Tables(), id)
      ensures result.Ok? <==> old(MayClaimSubmission(policy, Tables(), id, now))
      ensures Committed(old(Tables()), Tables(), result, Model.ClaimSubmission(policy, old(Tables()), id, now))
      ensures result.Ok? ==>
                && now > 0
                && id in old(records)
                && id in records
                && records[id].row.status == SubmissionUnknown
                && records[id].row.rawTransaction.Some?
                && result.value.row == records[id].row
                && (result.value.acquired <==> old(records[id].row.status) == Signed)
                && ChargedToday(policy, old(records[id]), records[id], now)
                && (if result.value.acquired then
                      Counted(
                        old(records[id]), records[id], SubmissionUnknown, old(records[id].row.submissionFailureCode),
                        BroadcastClaimed, now)
                    else records[id] == old(records[id]).(gate := records[id].gate))
    {
      hide Inv, RecordStep, HasAttempt, Model.EnsureGas, RecordsInv, MayClaimSubmission;
      InvOfRecords(policy, Tables());
      ClaimSubmissionIff(policy, Tables(), id, now);
      WritingKeeps(policy, Tables(), id, ClaimsSubmission(now));
      if now <= 0 {
        return Err(Conflict(ClockInvalid));
      }
      if id !in records {
        return Err(NotFound);
      }
      var row := records[id].row;
      var open := GateOpen(policy, Db(records, nextNonces, paused), row);
      if open.Fails? {
        return Err(open.error);
      }
      var ensured := EnsureGas(id, records[id], now);
      if ensured.Err? {
        return Err(ensured.error);
      }
      var charged := ensured.value;
      if row.status != SubmissionUnknown && row.status != Signed {
        return Err(Conflict(NotClaimableForSubmission));
      }
      var raw := RequireRaw(row);
      if raw.Err? {
        return Err(raw.error);
      }
      if row.status == SubmissionUnknown {
        SubmissionIsSound(policy, Tables(), id);
        records := records[id := charged];
        return Ok(Claimed(row, false));
      }
      var number := row.broadcastAttempts + 1;
      if HasAttempt(records[id].attempts, number) {
        return Err(Conflict(AttemptDuplicated));
      }
      SubmissionIsSound(policy, Tables(), id);
      row := row.(broadcastAttempts := number, broadcastedAt := Some(now), status := SubmissionUnknown);
      var attempts := charged.attempts + [Attempt(number, BroadcastClaimed, TxHash(raw.value), now)];
      records := records[id := charged.(row := row, attempts := attempts)];
      return Ok(Claimed(row, true));
    }

    /** The common end of the three `mark_*` methods. */
    method StoreSubmission(
      id: ExecutionId, status: ExecutionState, failureCode: Option<string>, kind: AttemptKind, now: int)
      returns (result: Result<Execution, RepoError>)
      requires id in records && records[id].row.rawTransaction.Some?
      modifies this`records
      ensures match MoveSubmission(old(records[id]), status, failureCode, kind, now)
              case Ok(moved) => result == Ok(moved.row) && records == old(records)[id := moved]
              case Err(error) => result == Err(error) && records == old(records)
      ensures result.Ok? ==>
                && result.value == records[id].row
                && Marked(old(records[id]), records[id], status, failureCode, kind, now)
    {
      hide HasAttempt;
      var record := records[id];
      var row := record.row.(status := status, submissionFailureCode := failureCode);
      if record.row.status == Signed {
        var number := row.broadcastAttempts + 1;
        if HasAttempt(record.attempts, number) {
          return Err(Conflict(AttemptDuplicated));
        }
        row := row.(broadcastAttempts := number, broadcastedAt := Some(now));
        var attempt := Attempt(number, kind, TxHash(row.rawTransaction.value), now);
        record := record.(attempts := record.attempts + [attempt]);
      }
      records := records[id := record.(row := row)];
      return Ok(row);
    }

    method MarkSubmitted(id: ExecutionId, now: int) returns (result: Result<Execution, RepoError>)
      requires Valid()
      modifies this`records
      ensures Valid() && Moves(old(Tables()), Tables(), id)
      ensures result.Ok? <==> old(MayMark(Tables(), id, now))
      ensures Committed(old(Tables()), Tables(), result, Model.MarkSubmitted(old(Tables()), id, now))
      ensures result.Ok? ==>
                && now > 0
                && id in old(records)
                && id in records
                && result.value == records[id].row
                && records[id].row.status == Submitted
                && (if old(records[id].row.status) == Submitted then records == old(records)
                    else Marked(old(records[id]), records[id], Submitted, None, Broadcast, now))
    {
      hide Inv, RecordStep, MoveSubmission, RecordsInv, MayMark;
      InvOfRecords(policy, Tables());
      MarkSubmittedIff(policy, Tables(), id, now);
      WritingKeeps(policy, Tables(), id, MarksSubmitted(now));
      if now <= 0 {
        return Err(Conflict(ClockInvalid));
      }
      if id !in records {
        return Err(NotFound);
      }
      var row := records[id].row;
      if row.status != Signed && !AwaitingReceipt(row.status) {
        return Err(Conflict(NotSubmittable));
      }
      var raw := RequireRaw(row);
      if raw.Err? {
        return Err(raw.error);
      }
      if row.status == Submitted {
        return Ok(row);
      }
      result := StoreSubmission(id, Submitted, None, Broadcast, now);
    }

    method MarkSubmissionUnknown(id: ExecutionId, now: int) returns (result: Result<Execution, RepoError>)
      requires Valid()
      modifies this`records
      ensures Valid() && Moves(old(Tables()), Tables(), id)
      ensures result.Ok? <==> old(MayMark(Tables(), id, now))
      ensures Committed(old(Tables()), Tables(), result, Model.MarkSubmissionUnknown(old(Tables()), id, now))
      ensures result.Ok? ==>
                && now > 0
                && id in old(records)
                && id in records
                && records[id].row.rawTransaction == old(records[id].row.rawTransaction)
                && result.value == records[id].row
                && records[id].row.status == SubmissionUnknown
                && (if old(records[id].row.status) == SubmissionUnknown then records == old(records)
                    else
                      Marked(
                        old(records[id]), records[id], SubmissionUnknown,
                        if old(records[id].row.status) == SubmissionRejected then None
                        else old(records[id].row.submissionFailureCode),
                        BroadcastUnknown, now))
    {
      hide Inv, RecordStep, MoveSubmission, RecordsInv, MayMark;
      InvOfRecords(policy, Tables());
      MarkSubmissionUnknownIff(policy, Tables(), id, now);
      WritingKeeps(policy, Tables(), id, MarksUnknown(now));
      if now <= 0 {
        return Err(Conflict(ClockInvalid));
      }
      if id !in records {
        return Err(NotFound);
      }
      var row := records[id].row;
      if row.status != Signed && !AwaitingReceipt(row.status) {
        return Err(Conflict(NotSubmittable));
      }
      var raw := RequireRaw(row);
      if raw.Err? {
        return Err(raw.error);
      }
      if row.status == SubmissionUnknown {
        return Ok(row);
      }
      var failureCode := row.submissionFailureCode;
      if row.status == SubmissionRejected {
        failureCode := None;
      }
      result := StoreSubmission(id, SubmissionUnknown, failureCode, BroadcastUnknown, now);
    }

    method MarkSubmissionRejected(
      id: ExecutionId, reason: string, now: int)
      returns (result: Result<Execution, RepoError>)
      requires Valid()
      modifies this`records
      ensures Valid() && Moves(old(Tables()), Tables(), id)
      ensures result.Ok? <==> old(MayReject(Tables(), id, reason, now))
      ensures Committed(old(Tables()), Tables(), result, Model.MarkSubmissionRejected(old(Tables()), id, reason, now))
      ensures result.Ok? ==>
                && now > 0
                && id in old(records)
                && id in records
                && result.value == records[id].row
                && records[id].row.submissionFailureCode == Some(reason)
                && records[id].row.status == SubmissionRejected
                && (if old(records[id].row.status) == SubmissionRejected then records == old(records)
                    else Marked(old(records[id]), records[id], SubmissionRejected, Some(reason), BroadcastRejected, now))
    {
      hide Inv, RecordStep, MoveSubmission, RecordsInv, MayReject;
      InvOfRecords(policy, Tables());
      MarkSubmissionRejectedIff(policy, Tables(), id, reason, now);
      WritingKeeps(policy, Tables(), id, MarksRejected(reason, now));
      if now <= 0 {
        return Err(Conflict(ClockInvalid));
      }
      if id !in records {
        return Err(NotFound);
      }
      var row := records[id].row;
      if row.status != SubmissionRejected && row.status != Signed && row.status != SubmissionUnknown {
        return Err(Conflict(NotSubmittable));
      }
      var raw := RequireRaw(row);
      if raw.Err? {
        return Err(raw.error);
      }
      if row.status == SubmissionRejected {
        if row.submissionFailureCode != Some(reason) {
          return Err(Conflict(RejectionConflicts));
        }
        return Ok(row);
      }
      result := StoreSubmission(id, SubmissionRejected, Some(reason), BroadcastRejected, now);
    }

    method RebroadcastRaw(id: ExecutionId, replacement: Option<RawTransaction>, now: int)
      returns (result: Result<RawTransaction, RepoError>)
      requires Valid()
      modifies this`records
      ensures Valid() && Moves(old(Tables()), Tables(), id)
      ensures result.Ok? <==> old(MayRebroadcast(policy, Tables(), id, replacement, now))
      ensures Committed(
                old(Tables()), Tables(), result, Model.RebroadcastRaw(policy, old(Tables()), id, replacement, now))
      ensures result.Ok? ==>
                && now > 0
                && id in old(records)
                && id in records
                && records[id].row.rawTransaction == Some(result.value)
                && records[id].row.status == old(records[id].row.status)
                && Some(result.value) == old(records[id].row.rawTransaction)
                && Recounted(old(records[id]), records[id], now)
                && ChargedToday(policy, old(records[id]), records[id], now)
    {
      hide Inv, RecordStep, HasAttempt, Model.EnsureGas, RecordsInv, MayRebroadcast;
      InvOfRecords(policy, Tables());
      RebroadcastRawIff(policy, Tables(), id, replacement, now);
      WritingKeeps(policy, Tables(), id, Rebroadcasts(replacement, now));
      if now <= 0 {
        return Err(Conflict(ClockInvalid));
      }
      if id !in records {
        return Err(NotFound);
      }
      var row := records[id].row;
      if !AwaitingReceipt(row.status) {
        return Err(Conflict(RebroadcastForbidden));
      }
      var stored := RequireRaw(row);
      if stored.Err? {
        return Err(stored.error);
      }
      if replacement.Some? && replacement.value != stored.value {
        return Err(Conflict(ReplacementForbidden));
      }
      var open := GateOpen(policy, Db(records, nextNonces, paused), row);
      if open.Fails? {
        return Err(open.error);
      }
      var ensured := EnsureGas(id, records[id], now);
      if ensured.Err? {
        return Err(ensured.error);
      }
      var charged := ensured.value;
      var number := row.broadcastAttempts + 1;
      if HasAttempt(records[id].attempts, number) {
        return Err(Conflict(AttemptDuplicated));
      }
      SubmissionIsSound(policy, Tables(), id);
      row := row.(broadcastAttempts := number);
      var attempts := charged.attempts + [Attempt(number, Rebroadcast, TxHash(stored.value), now)];
      records := records[id := charged.(row := row, attempts := attempts)];
      return Ok(stored.value);
    }

    // -------------------------------------------------------------- outcomes

    method ReleaseExpired(id: ExecutionId, now: int) returns (result: Result<Execution, RepoError>)
      requires Valid()
      modifies this`records
      ensures Valid() && Moves(old(Tables()), Tables(), id)
      ensures result.Ok? <==> old(MayReleaseExpired(Tables(), id, now))
      ensures Committed(old(Tables()), Tables(), result, Model.ReleaseExpired(policy, old(Tables()), id, now))
      ensures result.Ok? ==>
                && id in old(records)
                && result.value == records[id].row
                && (if old(records[id].row.status) in {Released, Expired} then records == old(records)
                    else EndedAs(policy, old(records[id]), records[id], Released, now))
    {
      hide Inv, RecordStep, RecordsInv, MayReleaseExpired;
      InvOfRecords(policy, Tables());
      ReleaseExpiredIff(policy, Tables(), id, now);
      WritingKeeps(policy, Tables(), id, ReleasesExpired(now));
      if now <= 0 {
        return Err(Conflict(ClockInvalid));
      }
      if id !in records {
        return Err(NotFound);
      }
      var row := records[id].row;
      if row.status == Released || row.status == Expired {
        return Ok(row);
      }
      if row.status != PreflightApproved && row.status != Signing {
        return Err(Conflict(SignedCannotBeReleased));
      }
      if now < row.intent.deadline {
        return Err(Conflict(DeadlineNotExpired));
      }
      if row.signature.Some? || row.rawTransaction.Some? {
        return Err(Conflict(SignedCannotBeReleased));
      }
      row := row.(status := Released, signingExpiresAt := None, releasedAt := Some(now));
      var closed := MarkGateTerminal(policy, records[id].(row := row), ReleasedGate, true);
      if closed.Err? {
        return Err(closed.error);
      }
      UnsignedIsSound(policy, Tables(), id);
      records := records[id := closed.value];
      return Ok(row);
    }

    method Transition(id: ExecutionId, target: ExecutionState, expected: Option<ExecutionState>, now: int)
      returns (result: Result<Execution, RepoError>)
      requires Valid()
      modifies this`records
      ensures Valid() && Moves(old(Tables()), Tables(), id)
      ensures result.Ok? <==> old(MayTransition(Tables(), id, target, expected, now))
      ensures Committed(
                old(Tables()), Tables(), result, Model.Transition(policy, old(Tables()), id, target, expected, now))
      ensures result.Ok? ==>
                && id in old(records)
                && result.value == records[id].row
                && (if target in {Released, Expired} then EndedAs(policy, old(records[id]), records[id], target, now)
                    else records[id] == old(records[id]).(row := old(records[id].row).(status := target)))
    {
      hide Inv, RecordStep, RecordsInv, MayTransition, AllowedTransitions;
      if id in records {
        GenericTargets(records[id].row.status, target);
      }
      InvOfRecords(policy, Tables());
      TransitionIff(policy, Tables(), id, target, expected, now);
      WritingKeeps(policy, Tables(), id, Transitions(target, expected, now));
      if now <= 0 {
        return Err(Conflict(ClockInvalid));
      }
      if id !in records {
        return Err(NotFound);
      }
      var row := records[id].row;
      if expected.Some? && expected.value != row.status {
        return Err(Conflict(StateChanged));
      }
      if target !in AllowedTransitions(row.status) {
        return Err(Conflict(TransitionNotAllowed));
      }
      if target in {Signing, Signed, Submitted, SubmissionUnknown, Confirmed, Reverted, ReorgReview} {
        return Err(Conflict(DedicatedMethodRequired));
      }
      var ending := target == Expired || target == Released;
      if ending && (row.signature.Some? || row.rawTransaction.Some?) {
        return Err(Conflict(SignedCannotBeReleased));
      }
      if ending && now < row.intent.deadline {
        return Err(Conflict(DeadlineNotExpired));
      }
      row := row.(status := target);
      if target == Released {
        row := row.(releasedAt := Some(now));
      } else if target == Expired {
        row := row.(expiredAt := Some(now));
      }
      var record := records[id].(row := row);
      if ending {
        row := row.(signingExpiresAt := None);
        var closed := MarkGateTerminal(policy, record.(row := row), ReleasedGate, true);
        if closed.Err? {
          return Err(closed.error);
        }
        UnsignedIsSound(policy, Tables(), id);
        record := closed.value;
      }
      records := records[id := record];
      return Ok(row);
    }

    method RecordObservation(id: ExecutionId, target: ExecutionState, seen: Finality, evidence: string, now: int)
      returns (result: Result<Execution, RepoError>)
      requires target == Confirmed || target == Reverted
      requires Valid()
      requires seen.receiptStatus == (if target == Confirmed then 1 else 0)
      modifies this`records
      ensures Valid() && Moves(old(Tables()), Tables(), id)
      ensures result.Ok? <==> old(MayObserve(Tables(), id, target, seen, evidence, now))
      ensures Committed(
                old(Tables()), Tables(), result,
                Model.RecordObservation(policy, old(Tables()), id, target, seen, evidence, now))
      ensures result.Ok? ==>
                && id in old(records)
                && result.value == records[id].row
                && (if old(records[id].row.status) == target then records == old(records)
                    else ObservedAs(policy, old(records[id]), records[id], target, seen, evidence, now))
    {
      hide Inv, RecordStep, RecordsInv, MayObserve;
      InvOfRecords(policy, Tables());
      RecordObservationIff(policy, Tables(), id, target, seen, evidence, now);
      ghost var call := if target == Confirmed then Confirms(seen, evidence, now) else Reverts(seen, false, evidence, now);
      WritingKeeps(policy, Tables(), id, call);
      if now <= 0 {
        return Err(Conflict(ClockInvalid));
      }
      if id !in records {
        return Err(NotFound);
      }
      var record := records[id];
      var row := record.row;
      if !seen.DeepEnough(row.intent.chain) {
        return Err(Conflict(FinalityInsufficient));
      }
      if row.status == target {
        var raw := RequireRaw(row);
        if raw.Err? {
          return Err(raw.error);
        }
        if |record.observations| != 1 {
          return Err(Conflict(ReplayInconsistent));
        }
        var first := record.observations[0];
        var same := first.txHash == TxHash(raw.value) && first.finality == seen && first.evidence == evidence;
        if !same || row.finality != Some(seen) {
          return Err(Conflict(ReplayInconsistent));
        }
        return Ok(row);
      }
      if !AwaitingReceipt(row.status) {
        return Err(Conflict(NotAwaitingReceipt));
      }
      if row.rawTransactionHash.None? {
        return Err(Conflict(RawMissing));
      }
      row := row.(finality := Some(seen), status := target);
      if target == Reverted {
        row := row.(revertedAt := Some(now));
      } else {
        row := row.(confirmedAt := Some(now));
      }
      var observation := Observation(row.rawTransactionHash.value, seen, evidence, now);
      record := record.(row := row, observations := record.observations + [observation]);
      if target == Reverted {
        var settled := MarkGateTerminal(policy, record, Settled, false);
        if settled.Err? {
          return Err(settled.error);
        }
        record := settled.value;
      }
      records := records[id := record];
      return Ok(row);
    }

    method Confirm(
      id: ExecutionId, seen: Finality, evidence: string, now: int)
      returns (result: Result<Execution, RepoError>)
      requires Valid()
      modifies this`records
      ensures Valid() && Moves(old(Tables()), Tables(), id)
      ensures result.Ok? <==> seen.receiptStatus == 1 && old(MayObserve(Tables(), id, Confirmed, seen, evidence, now))
      ensures Committed(old(Tables()), Tables(), result, Model.Confirm(policy, old(Tables()), id, seen, evidence, now))
      ensures result.Ok? ==>
                && id in old(records)
                && result.value == records[id].row
                && (if old(records[id].row.status) == Confirmed then records == old(records)
                    else ObservedAs(policy, old(records[id]), records[id], Confirmed, seen, evidence, now))
    {
      hide Inv, RecordStep, Model.RecordObservation, MayObserve;
      if seen.receiptStatus != 1 {
        return Err(Conflict(ReceiptStatusWrong));
      }
      result := RecordObservation(id, Confirmed, seen, evidence, now);
    }

    method Revert(id: ExecutionId, seen: Finality, acceptedTransfer: bool, evidence: string, now: int)
      returns (result: Result<Execution, RepoError>)
      requires Valid()
      modifies this`records
      ensures Valid() && Moves(old(Tables()), Tables(), id)
      ensures result.Ok? <==> seen.receiptStatus == 0 && !acceptedTransfer
                                && old(MayObserve(Tables(), id, Reverted, seen, evidence, now))
      ensures Committed(
                old(Tables()), Tables(), result,
                Model.Revert(policy, old(Tables()), id, seen, acceptedTransfer, evidence, now))
      ensures result.Ok? ==>
                && id in old(records)
                && result.value == records[id].row
                && (if old(records[id].row.status) == Reverted then records == old(records)
                    else ObservedAs(policy, old(records[id]), records[id], Reverted, seen, evidence, now))
    {
      hide Inv, RecordStep, Model.RecordObservation, MayObserve;
      if seen.receiptStatus != 0 || acceptedTransfer {
        return Err(Conflict(ReceiptStatusWrong));
      }
      result := RecordObservation(id, Reverted, seen, evidence, now);
    }

    method Finalize(
      id: ExecutionId, boundary: FinalityBoundary, now: int)
      returns (result: Result<Execution, RepoError>)
      requires Valid()
      modifies this`records
      ensures Valid() && Moves(old(Tables()), Tables(), id)
      ensures result.Ok? <==> old(MayFinalize(Tables(), id, boundary, now))
      ensures Committed(old(Tables()), Tables(), result, Model.Finalize(policy, old(Tables()), id, boundary, now))
      ensures result.Ok? ==>
                && id in old(records)
                && result.value == records[id].row
                && (if old(records[id].row.status) == Finalized then records == old(records)
                    else FinalizedAs(policy, old(records[id]), records[id], now))
    {
      hide Inv, RecordStep, RecordsInv, MayFinalize;
      InvOfRecords(policy, Tables());
      FinalizeIff(policy, Tables(), id, boundary, now);
      WritingKeeps(policy, Tables(), id, Finalizes(boundary, now));
      if now <= 0 {
        return Err(Conflict(ClockInvalid));
      }
      if id !in records {
        return Err(NotFound);
      }
      var row := records[id].row;
      if boundary != Profile(row.intent.chain).boundary {
        return Err(Conflict(BoundaryConflict));
      }
      if row.status != Finalized && row.status != Confirmed {
        return Err(Conflict(NotConfirmed));
      }
      if row.finality.None? || row.finality.value.boundary != boundary {
        return Err(Conflict(BoundaryConflict));
      }
      if row.status == Finalized {
        return Ok(row);
      }
      row := row.(status := Finalized, finalizedAt := Some(now));
      var settled := MarkGateTerminal(policy, records[id].(row := row), Settled, false);
      if settled.Err? {
        return Err(settled.error);
      }
      records := records[id := settled.value];
      return Ok(row);
    }

    method ReleaseReverted(id: ExecutionId, seen: Finality, proof: ReleaseEvidence, now: int)
      returns (result: Result<Execution, RepoError>)
      requires Valid()
      modifies this`records
      ensures Valid() && Moves(old(Tables()), Tables(), id)
      ensures result.Ok? <==> old(MayReleaseReverted(Tables(), id, seen, proof, now))
      ensures Committed(
                old(Tables()), Tables(), result, Model.ReleaseReverted(policy, old(Tables()), id, seen, proof, now))
      ensures result.Ok? ==>
                && id in old(records)
                && result.value == records[id].row
                && (if old(records[id].row.status) == Released then records == old(records)
                    else ReleasedAs(policy, old(records[id]), records[id], seen, proof, now))
    {
      hide Inv, RecordStep, RecordsInv, MayReleaseReverted;
      InvOfRecords(policy, Tables());
      ReleaseRevertedIff(policy, Tables(), id, seen, proof, now);
      WritingKeeps(policy, Tables(), id, ReleasesReverted(seen, proof, now));
      if !proof.ProvesNoTransfer() {
        return Err(Conflict(EvidenceInvalid));
      }
      if seen.receiptStatus != 0 {
        return Err(Conflict(ReceiptStatusWrong));
      }
      if now <= 0 {
        return Err(Conflict(ClockInvalid));
      }
      if id !in records {
        return Err(NotFound);
      }
      var row := records[id].row;
      if !seen.DeepEnough(row.intent.chain) {
        return Err(Conflict(FinalityInsufficient));
      }
      if proof.finalityBoundaryTimestamp < row.intent.deadline {
        return Err(Conflict(BoundaryBeforeDeadline));
      }
      if now < proof.finalityBoundaryTimestamp {
        return Err(Conflict(BoundaryInFuture));
      }
      if row.finality.None? || !row.finality.value.SameReceipt(seen) {
        return Err(Conflict(ReleaseIdentityConflicts));
      }
      var known := row.finality.value;
      if row.status == Released {
        if known != seen || row.releaseEvidence != Some(proof) {
          return Err(Conflict(ReleaseChanged));
        }
        return Ok(row);
      }
      if row.status != Reverted {
        return Err(Conflict(NotReverted));
      }
      if row.releaseEvidence.Some? {
        return Err(Conflict(ReleaseAlreadyRecorded));
      }
      if row.revertedAt.None? || now < row.revertedAt.value {
        return Err(Conflict(ReleaseTimeInvalid));
      }
      if seen.confirmations < known.confirmations || seen.safeBlockNumber < known.safeBlockNumber {
        return Err(Conflict(ReleaseBoundaryRegressed));
      }
      if seen.safeBlockNumber == known.safeBlockNumber && seen.safeBlockHash != known.safeBlockHash {
        return Err(Conflict(ReleaseBoundaryChanged));
      }
      row := row.(releaseEvidence := Some(proof), finality := Some(seen), status := Released, releasedAt := Some(now));
      var closed := ReleaseGateReservation(policy, records[id].(row := row));
      if closed.Err? {
        return Err(closed.error);
      }
      records := records[id := closed.value];
      return Ok(row);
    }

    method MarkReorgReview(id: ExecutionId, evidence: string, canonical: bool, now: int)
      returns (result: Result<Execution, RepoError>)
      requires Valid()
      modifies this`records
      ensures Valid() && Moves(old(Tables()), Tables(), id)
      ensures Committed(
                old(Tables()), Tables(), result, Model.MarkReorgReview(old(Tables()), id, evidence, canonical, now))
      ensures result.Ok? <==> !canonical && now > 0 && id in old(records) && old(records[id].row.status) == Finalized
      ensures result.Ok? ==>
                && result.value == records[id].row
                && records[id]
                   == old(records[id]).(row := old(records[id].row).(
                        status := ReorgReview, reorg := Some(ReorgRecord(evidence, now))))
    {
      hide Inv, RecordStep;
      WritingKeeps(policy, Tables(), id, Reviews(evidence, canonical, now));
      if canonical {
        return Err(Conflict(EvidenceInvalid));
      }
      if now <= 0 {
        return Err(Conflict(ClockInvalid));
      }
      if id !in records {
        return Err(NotFound);
      }
      var row := records[id].row;
      if row.status != Finalized {
        return Err(Conflict(NotFinalized));
      }
      row := row.(status := ReorgReview, reorg := Some(ReorgRecord(evidence, now)));
      records := records[id := records[id].(row := row)];
      return Ok(row);
    }

    // -------------------------------------------------------------- operator and watcher

    method SetPilotPause(scope: ControlScope, paused: bool)
      requires Valid()
      modifies this`paused
      ensures Valid()
      ensures Tables() == SetPause(old(Tables()), scope, paused)
      ensures PausedScope(Tables(), scope) == paused
      ensures forall other :: other != scope ==> PausedScope(Tables(), other) == old(PausedScope(Tables(), other))
    {
      hide Inv;
      SetPauseKeeps(policy, Tables(), scope, paused);
      this.paused := this.paused[scope := paused];
    }

    /** The row that waited longest, of those given. */
    method SelectLongestWaiting(todo: set<ExecutionId>) returns (first: ExecutionId)
      requires todo != {} && todo <= records.Keys
      ensures first in todo && forall id :: id in todo && id != first ==> Ahead(Tables(), first, id)
    {
      hide Ahead;
      first :| first in todo;
      var rest := todo - {first};
      while rest != {}
        invariant rest <= todo && first in todo && first !in rest
        invariant forall id :: id in todo && id !in rest && id != first ==> Ahead(Tables(), first, id)
        decreases |rest|
      {
        var id :| id in rest;
        AheadOrder(Tables(), id, first, id);
        if Ahead(Db(records, nextNonces, paused), id, first) {
          forall j | j in todo && j !in rest && j != first ensures Ahead(Tables(), id, j) {
            AheadOrder(Tables(), id, first, j);
          }
          first := id;
        }
        rest := rest - {id};
      }
    }

    /** The first `limit` watchable executions by last attempt, then identifier. */
    method ListWatchableIds(chain: Chain, after: Option<ExecutionId>, limit: int)
      returns (result: Result<seq<ExecutionId>, ListError>)
      ensures result.Ok? <==>
                && (after.Some? ==>
                    && 1 <= |after.value| <= 96
                    && forall i :: 0 <= i < |after.value| ==> 33 <= after.value[i] as int <= 126)
                && 1 <= limit <= 1000
      ensures result.Ok? ==> IsListing(Tables(), chain, after, limit, result.value)
      ensures result.Ok? ==> InRetryOrder(Tables(), result.value)
    {
      hide Ahead, Leads, IsListing, Watchable, InRetryOrder;
      if !CursorValid(after) {
        return Err(CursorInvalid);
      }
      if limit < 1 || limit > MAX_WATCH_LIMIT {
        return Err(LimitUnsafe);
      }
      var all := Candidates(Db(records, nextNonces, paused), chain, after);
      var todo, ids := all, [];
      LeadsNone(Tables(), all);
      while todo != {} && |ids| < limit
        invariant |ids| <= limit && Leads(Tables(), all, todo, ids)
        decreases |todo|
      {
        LeadsSubset(Tables(), all, todo, ids);
        var first := SelectLongestWaiting(todo);
        LeadsNext(Tables(), all, todo, ids, first);
        ids := ids + [first];
        todo := todo - {first};
      }
      LeadsList(Tables(), chain, after, limit, todo, ids);
      ListedInOrder(Tables(), all, todo, ids);
      return Ok(ids);
    }

    method RecordWatcherAttempt(id: ExecutionId, nowNs: Positive) returns (result: Result<(), RepoError>)
      requires Valid()
      modifies this`records
      ensures Valid() && Moves(old(Tables()), Tables(), id)
      ensures Committed(old(Tables()), Tables(), result, Model.RecordWatcherAttempt(old(Tables()), id, nowNs))
      ensures result.Ok? <==> id in old(records)
      ensures result.Ok? ==>
                records[id] == old(records[id]).(row := old(records[id].row).(watcherAttemptedAt := Some(nowNs)))
    {
      hide Inv, RecordStep;
      WritingKeeps(policy, Tables(), id, RecordsAttempt(nowNs));
      if id !in records {
        return Err(NotFound);
      }
      records := records[id := records[id].(row := records[id].row.(watcherAttemptedAt := Some(nowNs)))];
      return Ok(());
    }
  }

  lemma EmptyTotal(records: map<ExecutionId, Record>, measure: Measure)
    requires records.Keys == {}
    ensures Total(records, measure) == 0
  {
    assert Weights(records, measure) == map[];
  }
}
