/** Every call keeps the invariant of the tables, and at most the row it names moves, along the state relation. */
module RepositoryContracts {
  import opened Wrappers
  import opened PilotGate
  import opened ExecutionModels
  import opened RepositoryModel
  import opened RepositoryInvariants
  import opened RepositorySteps
  import opened RepositoryWriting

  /** The tables are as before, or the one row moved forward and all else is as before. */
  ghost predicate Moves(before: Db, after: Db, id: ExecutionId) {
    || after == before
    || (&& id in before.records
        && id in after.records
        && after == Put(before, id, after.records[id])
        && RecordStep(before.records[id], after.records[id]))
  }

  lemma InvOfRecord(policy: Policy, db: Db, id: ExecutionId)
    requires Inv(policy, db) && id in db.records
    ensures RecordInv(policy, db.records[id])
  {
    hide RecordInv, NonceInv, KeysUnique, WithinLimits;
  }

  lemma InvOfRecords(policy: Policy, db: Db)
    requires Inv(policy, db)
    ensures RecordsInv(policy, db)
  {
    hide RecordInv, NonceInv, KeysUnique, WithinLimits;
  }

  lemma ChangeMoves(policy: Policy, before: Db, after: Db, id: ExecutionId)
    requires LocalChange(policy, before, after, id)
    ensures Moves(before, after, id)
  {
    hide RecordInv, RecordStep, Fits;
  }

  /** Every writing call, with whatever arguments. */
  lemma WritingKeeps(policy: Policy, db: Db, id: ExecutionId, call: Writing)
    requires Inv(policy, db)
    ensures Inv(policy, Written(policy, db, id, call))
    ensures Moves(db, Written(policy, db, id, call), id)
  {
    hide Inv, Moves, Written, RecordInv, LocalChange, LeavesClaim, Unsigning, Settles;
    if id in db.records {
      InvOfRecord(policy, db, id);
      if IsSigning(call) {
        SigningLands(policy, db, id, call);
      } else {
        WritingLands(policy, db, id, call);
      }
      LocalChangeKeepsInv(policy, db, Written(policy, db, id, call), id);
      ChangeMoves(policy, db, Written(policy, db, id, call), id);
    } else {
      UnknownIsUnwritten(policy, db, id, call);
      NothingMoves(db, id);
    }
  }

  lemma NothingMoves(db: Db, id: ExecutionId)
    ensures Moves(db, db, id)
  {
  }

  /** A pause switch touches nothing but itself. */
  lemma SetPauseKeeps(policy: Policy, db: Db, scope: ControlScope, paused: bool)
    requires Inv(policy, db)
    ensures Inv(policy, SetPause(db, scope, paused))
  {
  }

  // ---------------------------------------------------------------- the whole record a call leaves

  /** An approved row with nothing signed, sent or observed, and a reservation of its day without a charge. */
  predicate IsNew(policy: Policy, record: Record, intent: ExecutionIntent, now: int) {
    var row := record.row;
    && row == Execution(
      intent, row.relayerNonce, PreflightApproved, 0, None, None, None, None, None, 0, None, None, None, None, None, None,
      None, None, None, None, None, now)
    && record.attempts == []
    && record.observations == []
    && now > 0
    && record.gate
       == (if policy.None? then None
           else Some(GateReservation(intent.tenantId, intent.nodeId, now / 86_400, Reserved, 0, None)))
  }

  /** A signing claim can be taken of an approved row, and of a signing one whose lease has run out. */
  predicate Leasable(row: Execution, now: int) {
    || row.status == PreflightApproved
    || (row.status == Signing && row.signingExpiresAt.Some? && row.signingExpiresAt.value <= now)
  }

  /** The next generation holds the row for 15 seconds, or to the deadline if that is earlier. */
  predicate Leased(before: Record, after: Record, now: int) {
    var end := if before.row.intent.deadline < now + 15 then before.row.intent.deadline else now + 15;
    after == before.(row := before.row.(
      status := Signing, signingGeneration := before.row.signingGeneration + 1, signingExpiresAt := Some(end)))
  }

  predicate ChargedWith(before: Record, after: Record, cost: int, now: int) {
    && before.gate.Some?
    && cost >= 0
    && now >= 0
    && after == before.(gate := Some(before.gate.value.(gasCost := cost, gasDay := Some(now / 86_400))))
  }

  /** The signed bytes come together, with attempt 0 in the journal. */
  predicate SignedWith(
    before: Record, after: Record, signature: Signature, raw: RawTransaction, unsignedHash: Option<string>, now: int)
  {
    after == before.(
      row := before.row.(
        status := Signed, signature := Some(signature), rawTransaction := Some(raw), rawTransactionHash := Some(TxHash(raw)),
        unsignedTransactionHash := unsignedHash, signingExpiresAt := None),
      attempts := before.attempts + [Attempt(0, SignedAttempt, TxHash(raw), now)])
  }

  /** The charge stays what it was, and is on the day of the broadcast. */
  predicate ChargedToday(policy: Policy, before: Record, after: Record, now: int) {
    if policy.None? then after.gate == before.gate else
      && before.gate.Some?
      && now >= 0
      && after.gate == Some(before.gate.value.(gasDay := Some(now / 86_400)))
  }

  /** One more broadcast of the row's bytes, counted and journaled under the next number. */
  predicate Counted(
    before: Record, after: Record, status: ExecutionState, failureCode: Option<string>, kind: AttemptKind, now: int)
  {
    && before.row.rawTransaction.Some?
    && var number := before.row.broadcastAttempts + 1;
    && after == before.(
      row := before.row.(
        status := status, submissionFailureCode := failureCode, broadcastAttempts := number, broadcastedAt := Some(now)),
      attempts := before.attempts + [Attempt(number, kind, TxHash(before.row.rawTransaction.value), now)],
      gate := after.gate)
  }

  /** A rebroadcast leaves status and time of the broadcast as they are. */
  predicate Recounted(before: Record, after: Record, now: int) {
    && before.row.rawTransaction.Some?
    && var number := before.row.broadcastAttempts + 1;
    && after == before.(
      row := before.row.(broadcastAttempts := number),
      attempts := before.attempts + [Attempt(number, Rebroadcast, TxHash(before.row.rawTransaction.value), now)],
      gate := after.gate)
  }

  /** A mark counts a broadcast exactly when it takes the row out of `signed`. */
  predicate Marked(
    before: Record, after: Record, status: ExecutionState, failureCode: Option<string>, kind: AttemptKind, now: int)
  {
    if before.row.status == Signed then Counted(before, after, status, failureCode, kind, now) && after.gate == before.gate
    else after == before.(row := before.row.(status := status, submissionFailureCode := failureCode))
  }

  /** The reservation goes to `state`, and keeps its charge. */
  predicate GateGoes(policy: Policy, before: Record, after: Record, state: GateState) {
    if policy.None? then after.gate == before.gate
    else before.gate.Some? && after.gate == Some(before.gate.value.(state := state))
  }

  /** An unsigned end: no lease, and the reservation released without its charge. */
  predicate EndedAs(policy: Policy, before: Record, after: Record, status: ExecutionState, now: int) {
    && after == before.(
      row := before.row.(
        status := status, signingExpiresAt := None,
        releasedAt := if status == Released then Some(now) else before.row.releasedAt,
        expiredAt := if status == Expired then Some(now) else before.row.expiredAt),
      gate := after.gate)
    && (if policy.None? then after.gate == before.gate else
          && before.gate.Some?
          && after.gate == Some(before.gate.value.(state := ReleasedGate, gasCost := 0, gasDay := None)))
  }

  /** The receipt on the row, and one observation of it. */
  predicate ObservedAs(
    policy: Policy, before: Record, after: Record, target: ExecutionState, seen: Finality, evidence: string, now: int)
  {
    && before.row.rawTransactionHash.Some?
    && after == before.(
      row := before.row.(
        status := target, finality := Some(seen),
        confirmedAt := if target == Confirmed then Some(now) else before.row.confirmedAt,
        revertedAt := if target == Reverted then Some(now) else before.row.revertedAt),
      observations := before.observations + [Observation(before.row.rawTransactionHash.value, seen, evidence, now)],
      gate := after.gate)
    && (if target == Reverted then GateGoes(policy, before, after, Settled) else after.gate == before.gate)
  }

  predicate FinalizedAs(policy: Policy, before: Record, after: Record, now: int) {
    && after == before.(row := before.row.(status := Finalized, finalizedAt := Some(now)), gate := after.gate)
    && GateGoes(policy, before, after, Settled)
  }

  predicate ReleasedAs(
    policy: Policy, before: Record, after: Record, seen: Finality, proof: ReleaseEvidence, now: int)
  {
    && after == before.(
      row := before.row.(
        status := Released, finality := Some(seen), releaseEvidence := Some(proof), releasedAt := Some(now)),
      gate := after.gate)
    && GateGoes(policy, before, after, ReleasedGate)
  }
}
