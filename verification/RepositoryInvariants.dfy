/** The invariants of the Hosted tables, and the two shapes every repository call has: a change
    of one existing record, or the insertion of one new record. */
module RepositoryInvariants {
  import opened Wrappers
  import opened Sums
  import opened PilotGate
  import opened ExecutionModels
  import opened RepositoryModel

  // ---------------------------------------------------------------- one record

  predicate HasMaterial(row: Execution) {
    row.rawTransaction.Some?
  }

  /** Signature, bytes and hash come together, exactly from `signed` on and never on an
      execution that ended unsigned. */
  predicate MaterialInv(row: Execution) {
    && (row.signature.Some? <==> HasMaterial(row))
    && (row.rawTransactionHash.Some? <==> HasMaterial(row))
    && (HasMaterial(row) ==> row.rawTransactionHash.value == TxHash(row.rawTransaction.value))
    && (HasMaterial(row) <==>
        || (Phase(row.status) >= Phase(Signed) && Active(row.status))
        || (row.status == Released && row.releaseEvidence.Some?))
  }

  predicate LeaseInv(row: Execution) {
    && (row.signingExpiresAt.Some? <==> row.status == Signing)
    && (row.status == Signing ==> row.signingGeneration > 0 && 0 < row.signingExpiresAt.value <= row.intent.deadline)
    && (Phase(row.status) < Phase(Signing) ==> row.signingGeneration == 0)
  }

  /** An unsigned row shows no trace of signing, broadcast or observation. */
  predicate UnsignedInv(row: Execution) {
    !HasMaterial(row) ==>
      && row.broadcastAttempts == 0
      && row.broadcastedAt.None?
      && row.unsignedTransactionHash.None?
      && row.submissionFailureCode.None?
      && row.finality.None?
      && row.releaseEvidence.None?
      && row.reorg.None?
      && row.confirmedAt.None?
      && row.finalizedAt.None?
      && row.revertedAt.None?
  }

  predicate EndInv(row: Execution) {
    && (row.releasedAt.Some? <==> row.status == Released)
    && (row.expiredAt.Some? <==> row.status == Expired)
    && (row.releasedAt.Some? ==> row.releasedAt.value >= row.intent.deadline)
    && (row.expiredAt.Some? ==> row.expiredAt.value >= row.intent.deadline)
  }

  /** Outcomes rest on a receipt at the chain's finality depth; success and revert exclude each other. */
  predicate OutcomeInv(row: Execution) {
    && (row.finality.Some? <==>
        || SuccessObserved(row.status)
        || row.status == Reverted
        || (row.status == Released && HasMaterial(row)))
    && (row.finality.Some? ==>
        && row.finality.value.DeepEnough(row.intent.chain)
        && row.finality.value.receiptStatus == (if SuccessObserved(row.status) then 1 else 0))
    && (row.finalizedAt.Some? ==> row.status == Finalized || row.status == ReorgReview)
    && (row.releaseEvidence.Some? ==>
        && row.status == Released
        && row.releaseEvidence.value.ProvesNoTransfer()
        && row.releaseEvidence.value.finalityBoundaryTimestamp >= row.intent.deadline)
  }

  /** Each outcome is stamped with its time, and no row has the stamp of an outcome it did not come to. */
  predicate StampsInv(row: Execution) {
    && (row.confirmedAt.Some? <==> SuccessObserved(row.status))
    && (row.revertedAt.Some? <==> row.status == Reverted || (row.status == Released && HasMaterial(row)))
    && (row.reorg.Some? <==> row.status == ReorgReview)
    && (row.releaseEvidence.Some? && row.releasedAt.Some? ==>
        row.releaseEvidence.value.finalityBoundaryTimestamp <= row.releasedAt.value)
  }

  /** The attempt numbers are 0, 1, ..., `broadcast_attempts`, each once, all for the stored bytes. */
  predicate JournalInv(record: Record) {
    && |record.attempts| == (if HasMaterial(record.row) then record.row.broadcastAttempts + 1 else 0)
    && forall i :: 0 <= i < |record.attempts| ==>
         && record.attempts[i].number == i
         && Some(record.attempts[i].rawTransactionHash) == record.row.rawTransactionHash
  }

  /** A row still `signed` has no broadcast: count, stamp and failure code come with the state change. */
  predicate UnsentInv(row: Execution) {
    row.status == Signed ==> row.broadcastAttempts == 0 && row.broadcastedAt.None? && row.submissionFailureCode.None?
  }

  predicate ObservationInv(record: Record) {
    if record.row.finality.None? then record.observations == [] else
      && |record.observations| == 1
      && Some(record.observations[0].txHash) == record.row.rawTransactionHash
      && record.observations[0].finality.DeepEnough(record.row.intent.chain)
      && record.observations[0].finality.receiptStatus == record.row.finality.value.receiptStatus
  }

  function ExpectedGate(status: ExecutionState): GateState {
    match status
    case Finalized => Settled
    case Reverted => Settled
    case ReorgReview => Settled
    case Released => ReleasedGate
    case Expired => ReleasedGate
    case _ => Reserved
  }

  /** Finalized by the generic `transition`, which neither settles the reservation nor stamps the row. */
  predicate Bypassed(row: Execution) {
    (row.status == Finalized || row.status == ReorgReview) && row.finalizedAt.None?
  }

  /** Past `signed` without a counted broadcast, as the generic `transition` to `submission_rejected` leaves it. */
  predicate Unjournaled(row: Execution) {
    HasMaterial(row) && row.status != Signed && row.broadcastAttempts == 0
  }

  /** The reservation follows the execution's outcome, except on a bypassed row. */
  predicate CouplingInv(record: Record) {
    record.gate.Some? ==>
      record.gate.value.state == if Bypassed(record.row) then Reserved else ExpectedGate(record.row.status)
  }

  predicate GateInv(policy: Policy, record: Record) {
    && (policy.Some? <==> record.gate.Some?)
    && CouplingInv(record)
    && (record.gate.Some? ==>
        var gate, row := record.gate.value, record.row;
        && Scoped(gate, row.intent.tenantId, row.intent.nodeId)
        && gate.utcDay == row.createdAt / 86_400
        && (gate.gasCost == 0 <==> gate.gasDay.None?)
        && (HasMaterial(row) ==> gate.gasCost > 0)
        && (!Active(row.status) && !HasMaterial(row) ==> gate.gasCost == 0))
  }

  predicate RecordInv(policy: Policy, record: Record) {
    && record.row.intent.Valid()
    && record.row.TimesPositive()
    && MaterialInv(record.row)
    && LeaseInv(record.row)
    && UnsignedInv(record.row)
    && EndInv(record.row)
    && OutcomeInv(record.row)
    && StampsInv(record.row)
    && JournalInv(record)
    && UnsentInv(record.row)
    && ObservationInv(record)
    && GateInv(policy, record)
  }

  // ---------------------------------------------------------------- one record over time

  /** What no call ever undoes. Reflexive and transitive. */
  predicate Evolves(before: Record, after: Record) {
    && after.row.intent == before.row.intent
    && after.row.relayerNonce == before.row.relayerNonce
    && after.row.createdAt == before.row.createdAt
    && Phase(before.row.status) <= Phase(after.row.status)
    && (SuccessObserved(before.row.status) ==> SuccessObserved(after.row.status))
    && (!Active(before.row.status) ==> EndedSame(before, after))
    && (Bypassed(before.row) ==> Bypassed(after.row))
    && before.row.signingGeneration <= after.row.signingGeneration
    && before.row.broadcastAttempts <= after.row.broadcastAttempts
    && before.attempts <= after.attempts
    && before.observations <= after.observations
    && (HasMaterial(before.row) ==> SameMaterial(before, after))
    && StampsStay(before.row, after.row)
    && (before.gate.Some? <==> after.gate.Some?)
    && (before.gate.Some? ==>
        && after.gate.value.utcDay == before.gate.value.utcDay
        && Scoped(after.gate.value, before.gate.value.tenantId, before.gate.value.nodeId)
        && (after.gate.value.state == Reserved ==> before.gate.value.state == Reserved))
  }

  /** Past `signed`: in submission, observed, or released on proof. */
  predicate Past(row: Execution) {
    HasMaterial(row) && Phase(row.status) > Phase(Signed)
  }

  /** The time of a broadcast is settled when the row leaves `signed`, that of an outcome when it is stamped. */
  predicate StampsStay(before: Execution, after: Execution) {
    && (Past(before) ==> after.broadcastedAt == before.broadcastedAt)
    && (before.confirmedAt.Some? ==> after.confirmedAt == before.confirmedAt)
    && (before.finalizedAt.Some? ==> after.finalizedAt == before.finalizedAt)
    && (before.revertedAt.Some? ==> after.revertedAt == before.revertedAt)
    && (before.releasedAt.Some? ==> after.releasedAt == before.releasedAt)
    && (before.reorg.Some? ==> after.reorg == before.reorg)
  }

  /** An ended execution is frozen, but for the watcher's attempt stamp. */
  predicate EndedSame(before: Record, after: Record) {
    && after.row == before.row.(watcherAttemptedAt := after.row.watcherAttemptedAt)
    && after.gate == before.gate
    && after.attempts == before.attempts
    && after.observations == before.observations
  }

  predicate SameMaterial(before: Record, after: Record) {
    && after.row.signature == before.row.signature
    && after.row.rawTransaction == before.row.rawTransaction
    && after.row.rawTransactionHash == before.row.rawTransactionHash
    && after.row.unsignedTransactionHash == before.row.unsignedTransactionHash
    && after.row.signingGeneration == before.row.signingGeneration
    && (before.gate.Some? && after.gate.Some? ==> after.gate.value.gasCost == before.gate.value.gasCost)
  }

  /** One call's effect on the record it names. */
  predicate RecordStep(before: Record, after: Record) {
    && Evolves(before, after)
    && (after.row.status == before.row.status || Edge(before.row.status, after.row.status))
    && after.row.broadcastAttempts <= before.row.broadcastAttempts + 1
    && after.row.signingGeneration <= before.row.signingGeneration + 1
  }

  /** While one signing generation lasts, its lease end stays and nothing but its own gas
      reservation moves the charge. */
  predicate LeavesClaim(before: Record, after: Record) {
    (before.row.status == Signing && after.row.status == Signing && after.row.signingGeneration == before.row.signingGeneration)
    ==> after.gate == before.gate && after.row.signingExpiresAt == before.row.signingExpiresAt
  }

  lemma EvolvesTransitive(a: Record, b: Record, c: Record)
    requires Evolves(a, b) && Evolves(b, c)
    ensures Evolves(a, c)
  {
  }

  // ---------------------------------------------------------------- all records

  predicate SameNonce(a: Execution, b: Execution) {
    a.intent.Key() == b.intent.Key() && a.relayerNonce == b.relayerNonce
  }

  /** Of two executions with one relayer nonce at most one is active, and a signed one leaves the
      other ended and unsigned. */
  predicate NonceExclusive(a: Execution, b: Execution) {
    SameNonce(a, b) ==>
      && !(Active(a.status) && Active(b.status))
      && (HasMaterial(a) ==> !Active(b.status) && !HasMaterial(b))
  }

  /** The row holds the highest nonce of its relayer. */
  predicate Tops(row: Execution, key: NonceKey, next: nat) {
    row.intent.Key() == key && row.relayerNonce + 1 == next
  }

  ghost predicate NonceInv(db: Db) {
    && (forall i, j :: i in db.records && j in db.records && i != j ==>
          NonceExclusive(db.records[i].row, db.records[j].row))
    && (forall id :: id in db.records ==>
          && db.records[id].row.intent.Key() in db.nextNonces
          && db.records[id].row.relayerNonce < db.nextNonces[db.records[id].row.intent.Key()])
    && (forall key :: key in db.nextNonces ==> TopHeld(db, key))
  }

  /** The next nonce of an allocator is the successor of one that some row holds. */
  ghost predicate TopHeld(db: Db, key: NonceKey)
    requires key in db.nextNonces
  {
    exists id :: id in db.records && Tops(db.records[id].row, key, db.nextNonces[key])
  }

  ghost predicate KeysUnique(db: Db) {
    forall i, j :: i in db.records && j in db.records && i != j ==>
      !SharesKey(db.records[i].row.intent, db.records[j].row.intent)
  }

  ghost predicate WithinLimits(policy: Policy, db: Db) {
    policy.Some? ==> forall measure :: Total(db.records, measure) <= Limit(policy.value, measure)
  }

  ghost predicate RecordsInv(policy: Policy, db: Db) {
    forall id :: id in db.records ==> RecordInv(policy, db.records[id])
  }

  ghost predicate Inv(policy: Policy, db: Db) {
    && RecordsInv(policy, db)
    && NonceInv(db)
    && KeysUnique(db)
    && WithinLimits(policy, db)
  }

  lemma EmptyInv(policy: Policy)
    ensures Inv(policy, EMPTY_DB)
  {
    forall measure ensures Total(EMPTY_DB.records, measure) == 0 {
      assert Weights(EMPTY_DB.records, measure) == map[];
    }
  }

  // ---------------------------------------------------------------- changing one record

  /** The new weights are no larger, or were checked against the limit beside the other records. */
  ghost predicate Fits(policy: Policy, db: Db, id: ExecutionId, record: Record)
    requires id in db.records
  {
    policy.Some? ==> forall measure ::
      || Weight(measure, record) <= Weight(measure, db.records[id])
      || Total(db.records - {id}, measure) + Weight(measure, record) <= Limit(policy.value, measure)
  }

  ghost predicate LocalChange(policy: Policy, before: Db, after: Db, id: ExecutionId) {
    && id in before.records
    && id in after.records
    && after == Put(before, id, after.records[id])
    && RecordStep(before.records[id], after.records[id])
    && RecordInv(policy, after.records[id])
    && Fits(policy, before, id, after.records[id])
  }

  lemma TotalSplit(records: map<ExecutionId, Record>, id: ExecutionId, measure: Measure)
    requires id in records
    ensures Total(records, measure) == Weight(measure, records[id]) + Total(records - {id}, measure)
  {
    SumSplit(Weights(records, measure), id);
    assert Weights(records, measure) - {id} == Weights(records - {id}, measure);
  }

  lemma TotalPut(records: map<ExecutionId, Record>, id: ExecutionId, record: Record, measure: Measure)
    ensures Total(records[id := record], measure) == Weight(measure, record) + Total(records - {id}, measure)
  {
    TotalSplit(records[id := record], id, measure);
    assert records[id := record] - {id} == records - {id};
  }

  lemma LocalChangeKeepsLimits(policy: Policy, before: Db, after: Db, id: ExecutionId)
    requires WithinLimits(policy, before) && LocalChange(policy, before, after, id)
    ensures WithinLimits(policy, after)
  {
    if policy.Some? {
      forall measure ensures Total(after.records, measure) <= Limit(policy.value, measure) {
        TotalSplit(before.records, id, measure);
        TotalPut(before.records, id, after.records[id], measure);
        assert Total(before.records, measure) <= Limit(policy.value, measure);
      }
    }
  }

  lemma StepKeepsNonceExclusive(policy: Policy, before: Record, after: Record, other: Record)
    requires RecordInv(policy, before) && RecordInv(policy, after) && RecordInv(policy, other)
    requires RecordStep(before, after)
    requires NonceExclusive(before.row, other.row) && NonceExclusive(other.row, before.row)
    ensures NonceExclusive(after.row, other.row) && NonceExclusive(other.row, after.row)
  {
  }

  lemma LocalChangeKeepsExclusion(
    policy: Policy, before: Db, after: Db, id: ExecutionId, i: ExecutionId, j: ExecutionId)
    requires RecordsInv(policy, before) && NonceInv(before) && LocalChange(policy, before, after, id)
    requires i in after.records && j in after.records && i != j
    ensures NonceExclusive(after.records[i].row, after.records[j].row)
  {
    hide RecordInv, NonceExclusive, Fits, RecordStep;
    assert NonceExclusive(before.records[i].row, before.records[j].row);
    assert NonceExclusive(before.records[j].row, before.records[i].row);
    if i == id {
      StepKeepsNonceExclusive(policy, before.records[i], after.records[i], before.records[j]);
    } else if j == id {
      StepKeepsNonceExclusive(policy, before.records[j], after.records[j], before.records[i]);
    }
  }

  lemma LocalChangeKeepsIdentity(policy: Policy, before: Db, after: Db, id: ExecutionId, j: ExecutionId)
    requires LocalChange(policy, before, after, id) && j in after.records
    ensures j in before.records
    ensures after.records[j].row.intent == before.records[j].row.intent
    ensures after.records[j].row.relayerNonce == before.records[j].row.relayerNonce
  {
    hide RecordInv, Fits;
  }

  lemma LocalChangeKeepsTop(policy: Policy, before: Db, after: Db, id: ExecutionId, key: NonceKey)
    requires LocalChange(policy, before, after, id) && key in before.nextNonces && TopHeld(before, key)
    ensures key in after.nextNonces && TopHeld(after, key)
  {
    hide RecordInv, Fits, RecordStep;
    var top :| top in before.records && Tops(before.records[top].row, key, before.nextNonces[key]);
    LocalChangeKeepsIdentity(policy, before, after, id, top);
    assert Tops(after.records[top].row, key, after.nextNonces[key]);
  }

  lemma LocalChangeKeepsNonces(policy: Policy, before: Db, after: Db, id: ExecutionId)
    requires RecordsInv(policy, before)
    requires NonceInv(before) && LocalChange(policy, before, after, id)
    ensures NonceInv(after)
  {
    hide RecordsInv, RecordInv, NonceExclusive, Fits, RecordStep, TopHeld;
    forall i, j | i in after.records && j in after.records && i != j
      ensures NonceExclusive(after.records[i].row, after.records[j].row)
    {
      LocalChangeKeepsExclusion(policy, before, after, id, i, j);
    }
    forall j | j in after.records
      ensures after.records[j].row.intent.Key() in after.nextNonces
      ensures after.records[j].row.relayerNonce < after.nextNonces[after.records[j].row.intent.Key()]
    {
      LocalChangeKeepsIdentity(policy, before, after, id, j);
    }
    forall key | key in after.nextNonces ensures TopHeld(after, key) {
      LocalChangeKeepsTop(policy, before, after, id, key);
    }
  }

  lemma LocalChangeKeepsKeys(policy: Policy, before: Db, after: Db, id: ExecutionId)
    requires KeysUnique(before) && LocalChange(policy, before, after, id)
    ensures KeysUnique(after)
  {
    assert forall j :: j in after.records ==> after.records[j].row.intent == before.records[j].row.intent;
  }

  lemma LocalChangeKeepsRecords(policy: Policy, before: Db, after: Db, id: ExecutionId)
    requires RecordsInv(policy, before)
    requires id in after.records && after == Put(before, id, after.records[id]) && RecordInv(policy, after.records[id])
    ensures RecordsInv(policy, after)
  {
    forall j | j in after.records
      ensures RecordInv(policy, after.records[j])
    {
      if j != id {
        assert after.records[j] == before.records[j];
      }
    }
  }

  lemma LocalChangeKeepsInv(policy: Policy, before: Db, after: Db, id: ExecutionId)
    requires Inv(policy, before) && LocalChange(policy, before, after, id)
    ensures Inv(policy, after)
  {
    LocalChangeKeepsRecords(policy, before, after, id);
    LocalChangeKeepsLimits(policy, before, after, id);
    LocalChangeKeepsNonces(policy, before, after, id);
    LocalChangeKeepsKeys(policy, before, after, id);
  }
}
