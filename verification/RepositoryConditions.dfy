/** Exactly when each call goes through, in the columns of the row it names. On rows that satisfy the invariant the
    other guards of the methods never fire: no stored transaction is missing or inconsistent, no attempt number is
    taken, no reservation is lost. */
module RepositoryConditions {
  import opened Wrappers
  import opened PilotGate
  import opened ExecutionModels
  import opened RepositoryModel
  import opened RepositoryInvariants
  import opened RepositoryAllocation
  import opened RepositoryQuotas

  predicate NotPaused(policy: Policy, db: Db, intent: ExecutionIntent) {
    policy.None? || Unpaused(db, intent.tenantId, intent.nodeId)
  }

  // ---------------------------------------------------------------- allocation

  /** No switch over the node is paused, and all three counts are below their limits. */
  predicate MayAdmit(policy: Policy, db: Db, intent: ExecutionIntent, now: int)
    requires now > 0
  {
    policy.Some? ==>
      var tenant, node := intent.tenantId, intent.nodeId;
      && Unpaused(db, tenant, node)
      && |InFlight(db.records, tenant, node)| < policy.value.maxInFlightPerNode
      && |AcceptedOn(db.records, tenant, node, now / 86_400)| < policy.value.maxAcceptedPerNodeUtcDay
      && |AcceptedEver(db.records, tenant, node)| < policy.value.maxAcceptedPerNodeLifetime
  }

  /** The intent has its execution, or none of its keys is taken and a new one is admitted. */
  ghost predicate MayAllocate(
    policy: Policy, db: Db, intent: ExecutionIntent, pending: nat, confirmed: nat, newId: ExecutionId, now: int)
  {
    && intent.deadline > 0
    && confirmed <= pending <= 9_223_372_036_854_775_806
    && now > 0
    && (|| (exists id :: id in db.records && db.records[id].row.intent == intent)
        || (&& (forall id :: id in db.records ==> KeysDiffer(db.records[id].row.intent, intent))
            && newId !in db.records
            && MayAdmit(policy, db, intent, now)))
  }

  lemma AdmitIff(policy: Policy, db: Db, intent: ExecutionIntent, now: Positive)
    requires RecordsInv(policy, db)
    ensures Admit(policy, db, intent, now).Holds? <==> MayAdmit(policy, db, intent, now)
  {
    hide RecordsInv;
    if policy.Some? {
      AdmittedIff(policy.value, db, intent, now);
    }
  }

  lemma FoundIff(policy: Policy, db: Db, intent: ExecutionIntent)
    requires Inv(policy, db)
    ensures FindForIntent(db, intent) == Ok(None) <==>
            forall id :: id in db.records ==> KeysDiffer(db.records[id].row.intent, intent)
    ensures FindForIntent(db, intent).Ok? && FindForIntent(db, intent).value.Some? <==>
            exists id :: id in db.records && db.records[id].row.intent == intent
  {
    hide Inv, KeysDiffer, SharingIds;
    SharingIsTaken(policy, db, intent);
    if id :| id in db.records && db.records[id].row.intent == intent {
      SameKeys(intent);
    }
  }

  lemma SameKeys(intent: ExecutionIntent)
    ensures !KeysDiffer(intent, intent)
  {
  }

  lemma AllocateOrReturnIff(
    policy: Policy, db: Db, intent: ExecutionIntent, pending: nat, confirmed: nat, newId: ExecutionId, now: int)
    requires Inv(policy, db)
    ensures AllocateOrReturn(policy, db, intent, pending, confirmed, newId, now).Ok?
            <==> MayAllocate(policy, db, intent, pending, confirmed, newId, now)
  {
    hide RecordsInv, NonceInv, KeysUnique, WithinLimits, FindForIntent, Admit, MayAdmit, AllocateNonce, KeysDiffer;
    FoundIff(policy, db, intent);
    if now > 0 {
      AdmitIff(policy, db, intent, now);
    }
  }

  // What the guards that never fire would look for, by what the call is about.

  predicate IsUnsigned(status: ExecutionState) {
    status == Requested || status == PreflightApproved || status == Signing
  }

  predicate HasSubmission(status: ExecutionState) {
    status == Signed || status == Submitted || status == SubmissionUnknown || status == SubmissionRejected
  }

  lemma UnsignedIsSound(policy: Policy, db: Db, id: ExecutionId)
    requires RecordsInv(policy, db) && id in db.records && IsUnsigned(db.records[id].row.status)
    ensures var record := db.records[id];
            && record.row.signature.None?
            && record.row.rawTransaction.None?
            && !HasAttempt(record.attempts, 0)
            && (record.row.status == Signing ==> record.row.signingGeneration > 0 && record.row.signingExpiresAt.Some?)
            && (policy.Some? ==>
                && record.gate.Some?
                && record.gate.value.state == Reserved
                && (record.gate.value.gasCost == 0 <==> record.gate.value.gasDay.None?))
  {
    hide JournalInv, ObservationInv, GateInv;
    GateIsSound(policy, db.records[id]);
    JournalIsSound(policy, db.records[id]);
  }

  lemma SubmissionIsSound(policy: Policy, db: Db, id: ExecutionId)
    requires RecordsInv(policy, db) && id in db.records && HasSubmission(db.records[id].row.status)
    ensures var record := db.records[id];
            && record.row.rawTransaction.Some?
            && record.row.rawTransactionHash == Some(TxHash(record.row.rawTransaction.value))
            && !HasAttempt(record.attempts, record.row.broadcastAttempts + 1)
            && (policy.Some? ==>
                && record.gate.Some?
                && record.gate.value.state == Reserved
                && record.gate.value.gasCost > 0
                && record.gate.value.gasDay.Some?)
  {
    hide JournalInv, ObservationInv, GateInv;
    GateIsSound(policy, db.records[id]);
    JournalIsSound(policy, db.records[id]);
  }

  lemma OutcomeIsSound(policy: Policy, db: Db, id: ExecutionId)
    requires RecordsInv(policy, db) && id in db.records && db.records[id].row.finality.Some?
    ensures var record := db.records[id];
            && record.row.rawTransaction.Some?
            && record.row.rawTransactionHash == Some(TxHash(record.row.rawTransaction.value))
            && |record.observations| == 1
            && Some(record.observations[0].txHash) == record.row.rawTransactionHash
            && record.row.finality.value.boundary == Profile(record.row.intent.chain).boundary
            && (record.row.status == Reverted ==> record.row.releaseEvidence.None? && record.row.revertedAt.Some?)
            && (policy.Some? ==> record.gate.Some?)
            && (record.row.status == Confirmed && policy.Some? ==> record.gate.value.state == Reserved)
  {
    hide JournalInv, ObservationInv, GateInv;
    GateIsSound(policy, db.records[id]);
    JournalIsSound(policy, db.records[id]);
  }

  /** Whether a row has been observed shows in its status, but for a release. */
  lemma ObservedIff(policy: Policy, db: Db, id: ExecutionId)
    requires RecordsInv(policy, db) && id in db.records
    ensures var row := db.records[id].row;
            && (row.status == Confirmed || row.status == Finalized || row.status == Reverted ==> row.finality.Some?)
            && (IsUnsigned(row.status) || HasSubmission(row.status) ==> row.finality.None?)
  {
    hide JournalInv, ObservationInv, GateInv;
  }

  lemma GateIsSound(policy: Policy, record: Record)
    requires RecordInv(policy, record)
    ensures record.gate.Some? <==> policy.Some?
    ensures record.gate.Some? ==>
              && record.gate.value.state == (if Bypassed(record.row) then Reserved else ExpectedGate(record.row.status))
              && (record.gate.value.gasCost == 0 <==> record.gate.value.gasDay.None?)
              && (record.row.rawTransaction.Some? ==> record.gate.value.gasCost > 0)
  {
    hide JournalInv, ObservationInv;
  }

  lemma JournalIsSound(policy: Policy, record: Record)
    requires RecordInv(policy, record)
    ensures record.row.rawTransaction.None? ==> record.attempts == []
    ensures !HasAttempt(record.attempts, record.row.broadcastAttempts + 1)
    ensures record.row.finality.Some? ==>
              && |record.observations| == 1
              && Some(record.observations[0].txHash) == record.row.rawTransactionHash
  {
    hide GateInv;
  }

  // ---------------------------------------------------------------- signing

  predicate MayClaimSigning(policy: Policy, db: Db, id: ExecutionId, now: int) {
    && id in db.records
    && var row := db.records[id].row;
    && row.status in {PreflightApproved, Signing}
    && 0 < now < row.intent.deadline
    && NotPaused(policy, db, row.intent)
  }

  lemma ClaimSigningIff(policy: Policy, db: Db, id: ExecutionId, now: int)
    requires RecordsInv(policy, db)
    ensures ClaimSigning(policy, db, id, now).Ok? <==> MayClaimSigning(policy, db, id, now)
  {
    hide RecordsInv;
    if id in db.records && IsUnsigned(db.records[id].row.status) {
      UnsignedIsSound(policy, db, id);
    }
  }

  ghost predicate MayReserveGas(policy: Policy, db: Db, id: ExecutionId, cost: int, generation: int, now: int) {
    && policy.Some?
    && id in db.records
    && var row := db.records[id].row;
    && row.status == Signing
    && row.signingGeneration == generation
    && cost > 0
    && now > 0
    && NotPaused(policy, db, row.intent)
    && FitsCaps(policy.value, db.records - {id}, row.intent, cost, now / 86_400)
  }

  lemma ReservePilotGasIff(policy: Policy, db: Db, id: ExecutionId, cost: int, generation: int, now: int)
    requires RecordsInv(policy, db)
    ensures ReservePilotGas(policy, db, id, cost, generation, now).Ok?
            <==> MayReserveGas(policy, db, id, cost, generation, now)
  {
    hide RecordsInv, Charge, FitsCaps, HasAttempt;
    if id in db.records && IsUnsigned(db.records[id].row.status) {
      UnsignedIsSound(policy, db, id);
    }
    if policy.Some? && id in db.records && cost > 0 && now > 0 && db.records[id].gate.Some? {
      ChargedIff(policy.value, db, id, cost, now / 86_400);
    }
  }

  predicate MayPersist(
    policy: Policy, db: Db, id: ExecutionId, signature: Signature, raw: RawTransaction, generation: int, now: int)
  {
    && id in db.records
    && var row := db.records[id].row;
    && generation > 0
    && row.signingGeneration == generation
    && now > 0
    && (if row.status == Signed then row.signature == Some(signature) && row.rawTransaction == Some(raw)
        else
          && row.status == Signing
          && now < row.intent.deadline
          && NotPaused(policy, db, row.intent)
          && (policy.Some? ==> db.records[id].gate.Some? && db.records[id].gate.value.gasCost > 0))
  }

  lemma PersistSignedIff(
    policy: Policy, db: Db, id: ExecutionId, signature: Signature, raw: RawTransaction, generation: int,
    unsignedHash: Option<string>, now: int)
    requires RecordsInv(policy, db)
    ensures PersistSigned(policy, db, id, signature, raw, generation, unsignedHash, now).Ok?
            <==> MayPersist(policy, db, id, signature, raw, generation, now)
  {
    hide RecordsInv, HasAttempt;
    if id in db.records && IsUnsigned(db.records[id].row.status) {
      UnsignedIsSound(policy, db, id);
    }
  }

  // ---------------------------------------------------------------- submission

  /** The charge is on the day of the reading, or fits there. */
  ghost predicate MayMoveCharge(policy: Policy, db: Db, id: ExecutionId, now: int)
    requires id in db.records && now > 0
  {
    policy.Some? && db.records[id].gate.Some? ==>
      || db.records[id].gate.value.gasDay == Some(now / 86_400)
      || FitsCaps(
           policy.value, db.records - {id}, db.records[id].row.intent, db.records[id].gate.value.gasCost, now / 86_400)
  }

  lemma EnsureGasIff(policy: Policy, db: Db, id: ExecutionId, now: Positive)
    requires RecordsInv(policy, db) && id in db.records
    requires db.records[id].row.status in {Signed, Submitted, SubmissionUnknown, SubmissionRejected}
    ensures EnsureGas(policy, db, id, db.records[id], now).Ok? <==> MayMoveCharge(policy, db, id, now)
  {
    hide RecordsInv, Charge, FitsCaps, HasAttempt;
    SubmissionIsSound(policy, db, id);
    if policy.Some? {
      ChargedIff(policy.value, db, id, db.records[id].gate.value.gasCost, now / 86_400);
    }
  }

  ghost predicate MayClaimSubmission(policy: Policy, db: Db, id: ExecutionId, now: int) {
    && id in db.records
    && db.records[id].row.status in {Signed, SubmissionUnknown}
    && now > 0
    && NotPaused(policy, db, db.records[id].row.intent)
    && MayMoveCharge(policy, db, id, now)
  }

  lemma ClaimSubmissionIff(policy: Policy, db: Db, id: ExecutionId, now: int)
    requires RecordsInv(policy, db)
    ensures ClaimSubmission(policy, db, id, now).Ok? <==> MayClaimSubmission(policy, db, id, now)
  {
    hide RecordsInv, EnsureGas, MayMoveCharge, HasAttempt;
    if id in db.records && HasSubmission(db.records[id].row.status) {
      SubmissionIsSound(policy, db, id);
      if now > 0 {
        EnsureGasIff(policy, db, id, now);
      }
    }
  }

  predicate MayMark(db: Db, id: ExecutionId, now: int) {
    && id in db.records
    && db.records[id].row.status in {Signed, Submitted, SubmissionUnknown, SubmissionRejected}
    && now > 0
  }

  lemma MarkSubmittedIff(policy: Policy, db: Db, id: ExecutionId, now: int)
    requires RecordsInv(policy, db)
    ensures MarkSubmitted(db, id, now).Ok? <==> MayMark(db, id, now)
  {
    hide RecordsInv, HasAttempt;
    if id in db.records && HasSubmission(db.records[id].row.status) {
      SubmissionIsSound(policy, db, id);
    }
  }

  lemma MarkSubmissionUnknownIff(policy: Policy, db: Db, id: ExecutionId, now: int)
    requires RecordsInv(policy, db)
    ensures MarkSubmissionUnknown(db, id, now).Ok? <==> MayMark(db, id, now)
  {
    hide RecordsInv, HasAttempt;
    if id in db.records && HasSubmission(db.records[id].row.status) {
      SubmissionIsSound(policy, db, id);
    }
  }

  predicate MayReject(db: Db, id: ExecutionId, reason: string, now: int) {
    && id in db.records
    && var row := db.records[id].row;
    && (|| row.status in {Signed, SubmissionUnknown}
        || (row.status == SubmissionRejected && row.submissionFailureCode == Some(reason)))
    && now > 0
  }

  lemma MarkSubmissionRejectedIff(policy: Policy, db: Db, id: ExecutionId, reason: string, now: int)
    requires RecordsInv(policy, db)
    ensures MarkSubmissionRejected(db, id, reason, now).Ok? <==> MayReject(db, id, reason, now)
  {
    hide RecordsInv, HasAttempt;
    if id in db.records && HasSubmission(db.records[id].row.status) {
      SubmissionIsSound(policy, db, id);
    }
  }

  ghost predicate MayRebroadcast(policy: Policy, db: Db, id: ExecutionId, replacement: Option<RawTransaction>, now: int) {
    && id in db.records
    && var row := db.records[id].row;
    && row.status in {Submitted, SubmissionUnknown, SubmissionRejected}
    && (replacement.None? || replacement == row.rawTransaction)
    && now > 0
    && NotPaused(policy, db, row.intent)
    && MayMoveCharge(policy, db, id, now)
  }

  lemma RebroadcastRawIff(policy: Policy, db: Db, id: ExecutionId, replacement: Option<RawTransaction>, now: int)
    requires RecordsInv(policy, db)
    ensures RebroadcastRaw(policy, db, id, replacement, now).Ok? <==> MayRebroadcast(policy, db, id, replacement, now)
  {
    hide RecordsInv, EnsureGas, MayMoveCharge, HasAttempt;
    if id in db.records && HasSubmission(db.records[id].row.status) {
      SubmissionIsSound(policy, db, id);
      if now > 0 {
        EnsureGasIff(policy, db, id, now);
      }
    }
  }

  // ---------------------------------------------------------------- ends

  predicate MayReleaseExpired(db: Db, id: ExecutionId, now: int) {
    && id in db.records
    && var row := db.records[id].row;
    && (row.status in {Released, Expired} || (row.status in {PreflightApproved, Signing} && now >= row.intent.deadline))
    && now > 0
  }

  lemma ReleaseExpiredIff(policy: Policy, db: Db, id: ExecutionId, now: int)
    requires RecordsInv(policy, db)
    ensures ReleaseExpired(policy, db, id, now).Ok? <==> MayReleaseExpired(db, id, now)
  {
    hide RecordsInv, HasAttempt;
    if id in db.records && IsUnsigned(db.records[id].row.status) {
      UnsignedIsSound(policy, db, id);
    }
  }

  /** The edges the generic `transition` takes. */
  predicate MayTransition(db: Db, id: ExecutionId, target: ExecutionState, expected: Option<ExecutionState>, now: int) {
    && id in db.records
    && var row := db.records[id].row;
    && (expected.None? || expected.value == row.status)
    && (|| (row.status == Requested && target == PreflightApproved)
        || (row.status == Signed && target == SubmissionRejected)
        || (row.status == Confirmed && target == Finalized)
        || (row.status in {Requested, PreflightApproved, Signing} && target in {Expired, Released}
            && now >= row.intent.deadline))
    && now > 0
  }

  lemma TransitionIff(
    policy: Policy, db: Db, id: ExecutionId, target: ExecutionState, expected: Option<ExecutionState>, now: int)
    requires RecordsInv(policy, db)
    ensures Transition(policy, db, id, target, expected, now).Ok? <==> MayTransition(db, id, target, expected, now)
  {
    hide RecordsInv, HasAttempt, AllowedTransitions;
    if id in db.records && IsUnsigned(db.records[id].row.status) {
      UnsignedIsSound(policy, db, id);
    }
    if id in db.records {
      GenericTargets(db.records[id].row.status, target);
    }
  }

  /** What the declared table and the list of dedicated targets leave to the generic call. */
  lemma GenericTargets(from: ExecutionState, target: ExecutionState)
    ensures target in AllowedTransitions(from)
            && target !in {Signing, Signed, Submitted, SubmissionUnknown, Confirmed, Reverted, ReorgReview}
            <==> || (from == Requested && target == PreflightApproved)
                 || (from == Signed && target == SubmissionRejected)
                 || (from == Confirmed && target == Finalized)
                 || (from in {Requested, PreflightApproved, Signing} && target in {Expired, Released})
  {
  }

  // ---------------------------------------------------------------- outcomes

  /** Base settles on the safe block at depth 2, Polygon on the finalized block at depth 3. */
  predicate IsFinal(seen: Finality, chain: Chain) {
    && seen.boundary == (if chain in {Base, BaseSepolia} then SafeBoundary else FinalizedBoundary)
    && seen.confirmations >= (if chain in {Base, BaseSepolia} then 2 else 3)
    && seen.safeBlockNumber >= seen.blockNumber
    && seen.safeBlockHash != ""
  }

  /** The receipt is new to an awaiting row, or the very one the row shows. */
  predicate MayObserve(db: Db, id: ExecutionId, target: ExecutionState, seen: Finality, evidence: string, now: int) {
    && id in db.records
    && var record := db.records[id];
    && IsFinal(seen, record.row.intent.chain)
    && (|| record.row.status in {Submitted, SubmissionUnknown, SubmissionRejected}
        || (&& record.row.status == target
            && record.row.finality == Some(seen)
            && |record.observations| == 1
            && record.observations[0].finality == seen
            && record.observations[0].evidence == evidence))
    && now > 0
  }

  lemma RecordObservationIff(
    policy: Policy, db: Db, id: ExecutionId, target: ExecutionState, seen: Finality, evidence: string, now: int)
    requires RecordsInv(policy, db) && target in {Confirmed, Reverted}
    ensures RecordObservation(policy, db, id, target, seen, evidence, now).Ok?
            <==> MayObserve(db, id, target, seen, evidence, now)
  {
    hide RecordsInv, HasAttempt;
    if id in db.records && HasSubmission(db.records[id].row.status) {
      SubmissionIsSound(policy, db, id);
    }
    if id in db.records {
      ObservedIff(policy, db, id);
      if db.records[id].row.finality.Some? {
        OutcomeIsSound(policy, db, id);
      }
    }
  }

  predicate MayFinalize(db: Db, id: ExecutionId, boundary: FinalityBoundary, now: int) {
    && id in db.records
    && var row := db.records[id].row;
    && row.status in {Confirmed, Finalized}
    && boundary == (if row.intent.chain in {Base, BaseSepolia} then SafeBoundary else FinalizedBoundary)
    && now > 0
  }

  lemma FinalizeIff(policy: Policy, db: Db, id: ExecutionId, boundary: FinalityBoundary, now: int)
    requires RecordsInv(policy, db)
    ensures Finalize(policy, db, id, boundary, now).Ok? <==> MayFinalize(db, id, boundary, now)
  {
    hide RecordsInv, HasAttempt;
    if id in db.records {
      ObservedIff(policy, db, id);
      if db.records[id].row.finality.Some? {
        OutcomeIsSound(policy, db, id);
      }
    }
  }

  /** The seven fields that together prove that nothing was transferred. */
  predicate ProvesNothingMoved(proof: ReleaseEvidence) {
    && proof.receiptStatus == 0
    && proof.canonicalReceipt == true
    && proof.finalityBoundaryTimestamp > 0
    && proof.capabilityUsed == false
    && proof.ownerNonceUsed == false
    && proof.paymentEventFound == false
    && proof.transferEventFound == false
  }

  /** A deeper look at one and the same receipt: no boundary goes back, and none changes its block. */
  predicate Deepens(known: Finality, seen: Finality) {
    && seen.confirmations >= known.confirmations
    && seen.safeBlockNumber >= known.safeBlockNumber
    && (seen.safeBlockNumber == known.safeBlockNumber ==> seen.safeBlockHash == known.safeBlockHash)
  }

  predicate MayReleaseReverted(db: Db, id: ExecutionId, seen: Finality, proof: ReleaseEvidence, now: int) {
    && id in db.records
    && var row := db.records[id].row;
    && ProvesNothingMoved(proof)
    && row.intent.deadline <= proof.finalityBoundaryTimestamp <= now
    && IsFinal(seen, row.intent.chain)
    && row.finality.Some?
    && var known := row.finality.value;
    && seen.receiptStatus == known.receiptStatus == 0
    && seen.blockNumber == known.blockNumber
    && seen.blockHash == known.blockHash
    && seen.watcherVersion == known.watcherVersion
    && (if row.status == Released then seen == known && row.releaseEvidence == Some(proof)
        else row.status == Reverted && row.revertedAt.Some? && row.revertedAt.value <= now && Deepens(known, seen))
  }

  lemma ReleaseRevertedIff(policy: Policy, db: Db, id: ExecutionId, seen: Finality, proof: ReleaseEvidence, now: int)
    requires RecordsInv(policy, db)
    ensures ReleaseReverted(policy, db, id, seen, proof, now).Ok? <==> MayReleaseReverted(db, id, seen, proof, now)
  {
    hide RecordsInv, HasAttempt;
    if id in db.records {
      ObservedIff(policy, db, id);
      if db.records[id].row.finality.Some? {
        OutcomeIsSound(policy, db, id);
      }
    }
  }
}
