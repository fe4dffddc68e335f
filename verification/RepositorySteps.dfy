/** Every successful call that names an existing execution is a change of that one record which
    keeps the record's invariant, follows the state relation and respects the gas limits. */
module RepositorySteps {
  import opened Wrappers
  import opened Sums
  import opened PilotGate
  import opened ExecutionModels
  import opened RepositoryModel
  import opened RepositoryInvariants

  // ---------------------------------------------------------------- edits of one record

  /** All calls but the generic `transition` settle what they finalize. */
  predicate Settles(before: Record, after: Record) {
    Bypassed(after.row) ==> Bypassed(before.row)
  }

  /** All calls but the two of the signer: no new generation, no new signature. */
  predicate Unsigning(before: Record, after: Record) {
    && after.row.signingGeneration == before.row.signingGeneration
    && (HasMaterial(after.row) ==> HasMaterial(before.row))
  }

  ghost predicate GoodEdit(policy: Policy, before: Record, after: Record) {
    && RecordStep(before, after)
    && RecordInv(policy, after)
    && LeavesClaim(before, after)
  }

  ghost predicate Good(policy: Policy, before: Record, after: Record) {
    GoodEdit(policy, before, after) && Unsigning(before, after) && Settles(before, after)
  }

  lemma LeaseGood(policy: Policy, record: Record, now: int)
    requires RecordInv(policy, record)
    requires record.row.status == PreflightApproved || record.row.status == Signing
    requires 0 < now < record.row.intent.deadline
    ensures GoodEdit(policy, record, record.(row := Lease(record.row, now)))
  {
  }

  lemma SignGood(
    policy: Policy, record: Record, signature: Signature, raw: RawTransaction, unsignedHash: Option<string>, now: int)
    requires RecordInv(policy, record) && record.row.status == Signing
    requires policy.Some? ==> GasReserved(record)
    ensures GoodEdit(policy, record, SignRecord(record, signature, raw, unsignedHash, now))
  {
  }

  /** The charge may move to another day, but never changes its amount once the row is signed. */
  predicate GateMoves(before: Record, after: Record) {
    && after == before.(gate := after.gate)
    && (after.gate == before.gate
        || (&& before.gate.Some?
            && after.gate.Some?
            && after.gate.value.gasDay.Some?
            && after.gate.value == before.gate.value.(gasDay := after.gate.value.gasDay)))
  }

  /** A signed row leaves `signed` by counting its first broadcast, whoever counts it. */
  lemma CountGood(
    policy: Policy, record: Record, charged: Record, status: ExecutionState, failureCode: Option<string>,
    kind: AttemptKind, now: Positive)
    requires RecordInv(policy, record) && record.row.status == Signed
    requires GateMoves(record, charged) && AwaitingReceipt(status)
    ensures Good(
              policy, record,
              CountBroadcast(charged.(row := record.row.(status := status, submissionFailureCode := failureCode)), kind, now))
  {
  }

  lemma RebroadcastGood(policy: Policy, record: Record, charged: Record, now: int)
    requires RecordInv(policy, record) && AwaitingReceipt(record.row.status)
    requires GateMoves(record, charged)
    ensures var number := record.row.broadcastAttempts + 1;
            Good(
              policy, record,
              AddAttempt(charged.(row := record.row.(broadcastAttempts := number)), Rebroadcast, number, now))
  {
  }

  lemma MoveGood(policy: Policy, record: Record, status: ExecutionState, failureCode: Option<string>)
    requires RecordInv(policy, record) && AwaitingReceipt(record.row.status)
    requires AwaitingReceipt(status) && Edge(record.row.status, status)
    ensures Good(policy, record, record.(row := record.row.(status := status, submissionFailureCode := failureCode)))
  {
  }

  lemma MoveSubmissionGood(
    policy: Policy, record: Record, status: ExecutionState, failureCode: Option<string>, kind: AttemptKind, now: Positive)
    requires RecordInv(policy, record) && record.row.rawTransaction.Some?
    requires record.row.status == Signed || AwaitingReceipt(record.row.status)
    requires AwaitingReceipt(status) && Edge(record.row.status, status)
    requires MoveSubmission(record, status, failureCode, kind, now).Ok?
    ensures var moved := MoveSubmission(record, status, failureCode, kind, now).value;
            Good(policy, record, moved) && moved.gate == record.gate
  {
    hide RecordInv, Good, Edge;
    if record.row.status == Signed {
      CountGood(policy, record, record, status, failureCode, kind, now);
    } else {
      MoveGood(policy, record, status, failureCode);
    }
  }

  lemma EndUnsignedGood(policy: Policy, record: Record, status: ExecutionState, now: int)
    requires RecordInv(policy, record) && !HasMaterial(record.row) && Active(record.row.status)
    requires status == Released || status == Expired
    requires now >= record.row.intent.deadline
    requires EndUnsigned(policy, record, status, now).Ok?
    ensures var ended := EndUnsigned(policy, record, status, now).value;
            Good(policy, record, ended) && GateCloses(record.gate, ended.gate)
  {
  }

  lemma ConfirmGood(policy: Policy, record: Record, seen: Finality, evidence: string, now: Positive)
    requires RecordInv(policy, record) && AwaitingReceipt(record.row.status)
    requires seen.receiptStatus == 1 && seen.DeepEnough(record.row.intent.chain)
    ensures Good(policy, record, Observe(record, Confirmed, seen, evidence, now))
  {
  }

  lemma RevertKeepsRecord(policy: Policy, record: Record, seen: Finality, evidence: string, now: Positive)
    requires RecordInv(policy, record) && AwaitingReceipt(record.row.status)
    requires seen.receiptStatus == 0 && seen.DeepEnough(record.row.intent.chain)
    ensures var settled := MarkGateTerminal(policy, Observe(record, Reverted, seen, evidence, now), Settled, false);
            settled.Ok? ==> RecordInv(policy, settled.value)
  {
  }

  lemma RevertGood(policy: Policy, record: Record, seen: Finality, evidence: string, now: Positive)
    requires RecordInv(policy, record) && AwaitingReceipt(record.row.status)
    requires seen.receiptStatus == 0 && seen.DeepEnough(record.row.intent.chain)
    ensures var settled := MarkGateTerminal(policy, Observe(record, Reverted, seen, evidence, now), Settled, false);
            settled.Ok? ==> Good(policy, record, settled.value) && GateCloses(record.gate, settled.value.gate)
  {
    RevertKeepsRecord(policy, record, seen, evidence, now);
    hide RecordInv, Finality.DeepEnough;
  }

  lemma FinalizeGood(policy: Policy, record: Record, now: Positive)
    requires RecordInv(policy, record) && record.row.status == Confirmed
    ensures var finalized := record.(row := record.row.(status := Finalized, finalizedAt := Some(now)));
            var settled := MarkGateTerminal(policy, finalized, Settled, false);
            settled.Ok? ==> Good(policy, record, settled.value) && GateCloses(record.gate, settled.value.gate)
  {
  }

  lemma EndRevertedGood(policy: Policy, record: Record, seen: Finality, proof: ReleaseEvidence, now: int)
    requires RecordInv(policy, record) && record.row.status == Reverted
    requires proof.ProvesNoTransfer() && record.row.intent.deadline <= proof.finalityBoundaryTimestamp <= now
    requires seen.DeepEnough(record.row.intent.chain) && seen.receiptStatus == 0
    ensures var closed := ReleaseGateReservation(policy, EndReverted(record, seen, proof, now));
            closed.Ok? ==> Good(policy, record, closed.value) && GateCloses(record.gate, closed.value.gate)
  {
  }

  lemma ReorgGood(policy: Policy, record: Record, evidence: string, now: Positive)
    requires RecordInv(policy, record) && record.row.status == Finalized
    ensures Good(policy, record, record.(row := record.row.(status := ReorgReview, reorg := Some(ReorgRecord(evidence, now)))))
  {
  }

  lemma StampGood(policy: Policy, record: Record, nowNs: Positive)
    requires RecordInv(policy, record)
    ensures Good(policy, record, record.(row := record.row.(watcherAttemptedAt := Some(nowNs))))
  {
  }

  // ---------------------------------------------------------------- from one record to the tables

  /** The reservation is left alone, or leaves the reserved state, keeping or dropping its charge. */
  predicate GateCloses(before: Option<GateReservation>, after: Option<GateReservation>) {
    || after == before
    || (&& before.Some?
        && after.Some?
        && after.value.state != Reserved
        && (after.value == before.value.(state := after.value.state)
            || after.value == before.value.(state := after.value.state, gasCost := 0, gasDay := None)))
  }

  /** What all but the three charging calls do: one record changes, and its reservation at most closes. */
  ghost predicate Steps(policy: Policy, before: Db, after: Db, id: ExecutionId) {
    && id in before.records
    && id in after.records
    && after == Put(before, id, after.records[id])
    && Good(policy, before.records[id], after.records[id])
    && GateCloses(before.records[id].gate, after.records[id].gate)
  }

  /** What every call on one execution does. */
  ghost predicate Lands(policy: Policy, before: Db, after: Db, id: ExecutionId) {
    && LocalChange(policy, before, after, id)
    && LeavesClaim(before.records[id], after.records[id])
    && Unsigning(before.records[id], after.records[id])
    && Settles(before.records[id], after.records[id])
  }

  lemma ClosingFits(policy: Policy, db: Db, id: ExecutionId, record: Record)
    requires id in db.records
    requires GateCloses(db.records[id].gate, record.gate)
    ensures Fits(policy, db, id, record)
  {
    forall measure ensures Weight(measure, record) <= Weight(measure, db.records[id]) {
    }
  }

  lemma StepsLand(policy: Policy, before: Db, after: Db, id: ExecutionId)
    requires Steps(policy, before, after, id)
    ensures Lands(policy, before, after, id)
  {
    ClosingFits(policy, before, id, after.records[id]);
  }

  lemma Unmoved(policy: Policy, db: Db, id: ExecutionId)
    requires id in db.records && RecordInv(policy, db.records[id])
    ensures Steps(policy, db, db, id)
  {
    assert db.records[id := db.records[id]] == db.records;
  }

  lemma ClaimSigningSteps(policy: Policy, db: Db, id: ExecutionId, now: int)
    requires id in db.records ==> RecordInv(policy, db.records[id])
    requires ClaimSigning(policy, db, id, now).Ok?
    ensures var r := ClaimSigning(policy, db, id, now).value;
            && (r.value.acquired ==>
                && LocalChange(policy, db, r.db, id)
                && Settles(db.records[id], r.db.records[id])
                && r.db == Put(db, id, db.records[id].(row := Lease(db.records[id].row, now)))
                && r.value.row == r.db.records[id].row)
            && (!r.value.acquired ==> r.db == db)
  {
    var leased := db.records[id].(row := Lease(db.records[id].row, now));
    LeaseGood(policy, db.records[id], now);
    ClosingFits(policy, db, id, leased);
  }

  lemma PersistSignedSteps(
    policy: Policy, db: Db, id: ExecutionId, signature: Signature, raw: RawTransaction,
    generation: int, unsignedHash: Option<string>, now: int)
    requires id in db.records ==> RecordInv(policy, db.records[id])
    requires PersistSigned(policy, db, id, signature, raw, generation, unsignedHash, now).Ok?
    ensures var after := PersistSigned(policy, db, id, signature, raw, generation, unsignedHash, now).value.db;
            && id in db.records
            && id in after.records
            && PersistSigned(policy, db, id, signature, raw, generation, unsignedHash, now).value.value == after.records[id].row
            && (if db.records[id].row.status == Signed then after == db else
                  && db.records[id].row.status == Signing
                  && db.records[id].row.signingGeneration == generation
                  && (policy.Some? ==> GasReserved(db.records[id]))
                  && LocalChange(policy, db, after, id)
                  && after == Put(db, id, SignRecord(db.records[id], signature, raw, unsignedHash, now)))
  {
    if db.records[id].row.status == Signing {
      SignGood(policy, db.records[id], signature, raw, unsignedHash, now);
      ClosingFits(policy, db, id, SignRecord(db.records[id], signature, raw, unsignedHash, now));
    }
  }

  lemma MarkSubmittedSteps(policy: Policy, db: Db, id: ExecutionId, now: int)
    requires id in db.records ==> RecordInv(policy, db.records[id])
    requires MarkSubmitted(db, id, now).Ok?
    ensures Steps(policy, db, MarkSubmitted(db, id, now).value.db, id)
  {
    Unmoved(policy, db, id);
    if db.records[id].row.status != Submitted {
      MoveSubmissionGood(policy, db.records[id], Submitted, None, Broadcast, now);
    }
  }

  lemma MarkSubmissionUnknownSteps(policy: Policy, db: Db, id: ExecutionId, now: int)
    requires id in db.records ==> RecordInv(policy, db.records[id])
    requires MarkSubmissionUnknown(db, id, now).Ok?
    ensures Steps(policy, db, MarkSubmissionUnknown(db, id, now).value.db, id)
  {
    Unmoved(policy, db, id);
    var row := db.records[id].row;
    if row.status != SubmissionUnknown {
      MoveSubmissionGood(
        policy, db.records[id], SubmissionUnknown,
        if row.status == SubmissionRejected then None else row.submissionFailureCode, BroadcastUnknown, now);
    }
  }

  lemma MarkSubmissionRejectedSteps(policy: Policy, db: Db, id: ExecutionId, reason: string, now: int)
    requires id in db.records ==> RecordInv(policy, db.records[id])
    requires MarkSubmissionRejected(db, id, reason, now).Ok?
    ensures Steps(policy, db, MarkSubmissionRejected(db, id, reason, now).value.db, id)
  {
    Unmoved(policy, db, id);
    if db.records[id].row.status != SubmissionRejected {
      MoveSubmissionGood(policy, db.records[id], SubmissionRejected, Some(reason), BroadcastRejected, now);
    }
  }

  lemma ReleaseExpiredSteps(policy: Policy, db: Db, id: ExecutionId, now: int)
    requires id in db.records ==> RecordInv(policy, db.records[id])
    requires ReleaseExpired(policy, db, id, now).Ok?
    ensures Steps(policy, db, ReleaseExpired(policy, db, id, now).value.db, id)
  {
    Unmoved(policy, db, id);
    if Active(db.records[id].row.status) {
      EndUnsignedGood(policy, db.records[id], Released, now);
    }
  }

  /** The targets the generic guard lets through without a deadline. */
  lemma PlainTransitionGood(policy: Policy, record: Record, target: ExecutionState)
    requires RecordInv(policy, record)
    requires target in AllowedTransitions(record.row.status)
    requires target == PreflightApproved || target == SubmissionRejected || target == Finalized
    ensures GoodEdit(policy, record, record.(row := record.row.(status := target)))
  {
  }

  lemma TransitionSteps(
    policy: Policy, db: Db, id: ExecutionId, target: ExecutionState, expected: Option<ExecutionState>, now: int)
    requires id in db.records ==> RecordInv(policy, db.records[id])
    requires Transition(policy, db, id, target, expected, now).Ok?
    ensures var after := Transition(policy, db, id, target, expected, now).value.db;
            && LocalChange(policy, db, after, id)
            && LeavesClaim(db.records[id], after.records[id])
            && Unsigning(db.records[id], after.records[id])
            && (target != Finalized ==> Settles(db.records[id], after.records[id]))
  {
    var after := Transition(policy, db, id, target, expected, now).value.db;
    if target == Expired || target == Released {
      EndUnsignedGood(policy, db.records[id], target, now);
    } else {
      PlainTransitionGood(policy, db.records[id], target);
    }
    ClosingFits(policy, db, id, after.records[id]);
  }

  lemma RecordObservationSteps(
    policy: Policy, db: Db, id: ExecutionId, target: ExecutionState, seen: Finality, evidence: string, now: int)
    requires id in db.records ==> RecordInv(policy, db.records[id])
    requires target == Confirmed || target == Reverted
    requires seen.receiptStatus == (if target == Confirmed then 1 else 0)
    requires RecordObservation(policy, db, id, target, seen, evidence, now).Ok?
    ensures Steps(policy, db, RecordObservation(policy, db, id, target, seen, evidence, now).value.db, id)
  {
    Unmoved(policy, db, id);
    if db.records[id].row.status != target {
      if target == Confirmed {
        ConfirmGood(policy, db.records[id], seen, evidence, now);
      } else {
        RevertGood(policy, db.records[id], seen, evidence, now);
      }
    }
  }

  lemma FinalizeSteps(policy: Policy, db: Db, id: ExecutionId, boundary: FinalityBoundary, now: int)
    requires id in db.records ==> RecordInv(policy, db.records[id])
    requires Finalize(policy, db, id, boundary, now).Ok?
    ensures Steps(policy, db, Finalize(policy, db, id, boundary, now).value.db, id)
  {
    Unmoved(policy, db, id);
    if db.records[id].row.status == Confirmed {
      FinalizeGood(policy, db.records[id], now);
    }
  }

  lemma ReleaseRevertedSteps(
    policy: Policy, db: Db, id: ExecutionId, seen: Finality, proof: ReleaseEvidence, now: int)
    requires id in db.records ==> RecordInv(policy, db.records[id])
    requires ReleaseReverted(policy, db, id, seen, proof, now).Ok?
    ensures Steps(policy, db, ReleaseReverted(policy, db, id, seen, proof, now).value.db, id)
  {
    Unmoved(policy, db, id);
    if db.records[id].row.status == Reverted {
      EndRevertedGood(policy, db.records[id], seen, proof, now);
    }
  }

  lemma MarkReorgReviewSteps(
    policy: Policy, db: Db, id: ExecutionId, evidence: string, canonical: bool, now: int)
    requires id in db.records ==> RecordInv(policy, db.records[id])
    requires MarkReorgReview(db, id, evidence, canonical, now).Ok?
    ensures Steps(policy, db, MarkReorgReview(db, id, evidence, canonical, now).value.db, id)
  {
    hide RecordInv, Good;
    ReorgGood(policy, db.records[id], evidence, now);
  }

  lemma RecordWatcherAttemptSteps(policy: Policy, db: Db, id: ExecutionId, nowNs: Positive)
    requires id in db.records ==> RecordInv(policy, db.records[id])
    requires RecordWatcherAttempt(db, id, nowNs).Ok?
    ensures Steps(policy, db, RecordWatcherAttempt(db, id, nowNs).value.db, id)
  {
    hide RecordInv, Good;
    StampGood(policy, db.records[id], nowNs);
  }

  // ---------------------------------------------------------------- the charging calls

  lemma ChargeFits(policy: PilotGatePolicy, db: Db, id: ExecutionId, cost: nat, day: nat)
    requires id in db.records && GateInv(Some(policy), db.records[id])
    requires Charge(policy, db, id, db.records[id], cost, day).Ok?
    ensures Fits(Some(policy), db, id, Charge(policy, db, id, db.records[id], cost, day).value)
  {
    var record := db.records[id];
    var charged := Charge(policy, db, id, record, cost, day).value;
    forall measure
      ensures Weight(measure, charged) <= Weight(measure, db.records[id])
           || Total(db.records - {id}, measure) + Weight(measure, charged) <= Limit(policy, measure)
    {
      match measure
      case NodeInFlight(t, n) => assert Weight(measure, charged) == Weight(measure, record);
      case NodeAcceptedOn(t, n, d) => assert Weight(measure, charged) == Weight(measure, record);
      case NodeAcceptedEver(t, n) => assert Weight(measure, charged) == Weight(measure, record);
      case NodeGasOn(t, n, d) =>
      case PlatformGasOn(d) =>
    }
  }

  lemma SameGateFits(policy: Policy, db: Db, id: ExecutionId, record: Record, other: Record)
    requires id in db.records && Fits(policy, db, id, record) && other.gate == record.gate
    ensures Fits(policy, db, id, other)
  {
    assert forall measure :: Weight(measure, other) == Weight(measure, record);
  }

  lemma ReservePilotGasLands(policy: Policy, db: Db, id: ExecutionId, cost: int, generation: int, now: int)
    requires id in db.records ==> RecordInv(policy, db.records[id])
    requires ReservePilotGas(policy, db, id, cost, generation, now).Ok?
    ensures var after := ReservePilotGas(policy, db, id, cost, generation, now).value.db;
            && LocalChange(policy, db, after, id)
            && after.records[id].row == db.records[id].row
            && after.records[id].gate.Some?
            && after.records[id].gate.value.gasCost == cost
  {
    ChargeFits(policy.value, db, id, cost, UtcDay(now));
  }

  /** Only a signed row's charge moves to another day; its amount stays. */
  lemma EnsureGasMoves(policy: Policy, db: Db, id: ExecutionId, now: Positive)
    requires id in db.records && RecordInv(policy, db.records[id])
    requires EnsureGas(policy, db, id, db.records[id], now).Ok?
    requires HasMaterial(db.records[id].row)
    ensures var charged := EnsureGas(policy, db, id, db.records[id], now).value;
            && Fits(policy, db, id, charged)
            && GateMoves(db.records[id], charged)
            && (policy.Some? ==> charged.gate.value.gasDay == Some(UtcDay(now)))
  {
    var record := db.records[id];
    if policy.Some? && record.gate.value.gasDay != Some(UtcDay(now)) {
      ChargeFits(policy.value, db, id, record.gate.value.gasCost, UtcDay(now));
    } else {
      ClosingFits(policy, db, id, record);
    }
  }

  lemma ClaimSubmissionLands(policy: Policy, db: Db, id: ExecutionId, now: int)
    requires id in db.records ==> RecordInv(policy, db.records[id])
    requires ClaimSubmission(policy, db, id, now).Ok?
    ensures Lands(policy, db, ClaimSubmission(policy, db, id, now).value.db, id)
  {
    hide Fits, EnsureGas, HasAttempt;
    var record := db.records[id];
    EnsureGasMoves(policy, db, id, now);
    var charged := EnsureGas(policy, db, id, record, now).value;
    if record.row.status == Signed {
      CountGood(policy, record, charged, SubmissionUnknown, record.row.submissionFailureCode, BroadcastClaimed, now);
    }
    SameGateFits(policy, db, id, charged, ClaimSubmission(policy, db, id, now).value.db.records[id]);
  }

  lemma RebroadcastRawLands(policy: Policy, db: Db, id: ExecutionId, replacement: Option<RawTransaction>, now: int)
    requires id in db.records ==> RecordInv(policy, db.records[id])
    requires RebroadcastRaw(policy, db, id, replacement, now).Ok?
    ensures Lands(policy, db, RebroadcastRaw(policy, db, id, replacement, now).value.db, id)
  {
    hide RecordInv, GateMoves, Fits, EnsureGas, Evolves, HasAttempt;
    var record := db.records[id];
    EnsureGasMoves(policy, db, id, now);
    var charged := EnsureGas(policy, db, id, record, now).value;
    RebroadcastGood(policy, record, charged, now);
    SameGateFits(policy, db, id, charged, RebroadcastRaw(policy, db, id, replacement, now).value.db.records[id]);
  }
}
