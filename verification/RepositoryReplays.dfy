/** Repeating a call: the repository takes the exact repetition of a call for done and refuses one
    that says something else, so what it stored is what the first call said. */
module RepositoryReplays {
  import opened Wrappers
  import opened PilotGate
  import opened ExecutionModels
  import opened RepositoryModel
  import opened RepositoryInvariants
  import opened RepositorySteps

  /** The call changed nothing and returned `value`. */
  predicate Unchanged<T(==)>(outcome: Outcome<T>, db: Db, value: T) {
    outcome == Ok(Applied(db, value))
  }

  /** Signed bytes are stored once: the same signature and bytes are accepted again, any others refused. */
  lemma PersistIsReplayed(
    policy: Policy, db: Db, id: ExecutionId, signature: Signature, raw: RawTransaction, generation: int,
    unsignedHash: Option<string>, now: int,
    signature2: Signature, raw2: RawTransaction, unsignedHash2: Option<string>, later: Positive)
    requires PersistSigned(policy, db, id, signature, raw, generation, unsignedHash, now).Ok?
    ensures var first := PersistSigned(policy, db, id, signature, raw, generation, unsignedHash, now).value;
            var second := PersistSigned(policy, first.db, id, signature2, raw2, generation, unsignedHash2, later);
            && (second.Ok? <==> signature2 == signature && raw2 == raw)
            && (second.Ok? ==> Unchanged(second, first.db, first.value))
  {
    hide HasAttempt;
  }

  /** The record holds exactly this observation. */
  predicate Holds(record: Record, target: ExecutionState, seen: Finality, evidence: string) {
    && record.row.status == target
    && record.row.finality == Some(seen)
    && RequireRaw(record.row).Ok?
    && |record.observations| == 1
    && record.observations[0].txHash == TxHash(RequireRaw(record.row).value)
    && record.observations[0].finality == seen
    && record.observations[0].evidence == evidence
    && seen.DeepEnough(record.row.intent.chain)
  }

  lemma ObservationIsHeld(
    policy: Policy, db: Db, id: ExecutionId, target: ExecutionState, seen: Finality, evidence: string, now: int)
    requires target == Confirmed || target == Reverted
    requires id in db.records ==> RecordInv(policy, db.records[id])
    requires RecordObservation(policy, db, id, target, seen, evidence, now).Ok?
    ensures var first := RecordObservation(policy, db, id, target, seen, evidence, now).value;
            && id in first.db.records
            && first.db.records[id].row == first.value
            && Holds(first.db.records[id], target, seen, evidence)
  {
    hide LeaseInv, UnsignedInv, EndInv, JournalInv, UnsentInv, GateInv, Finality.DeepEnough, Execution.TimesPositive;
  }

  lemma HeldIsReplayed(
    policy: Policy, db: Db, id: ExecutionId, target: ExecutionState, seen: Finality, evidence: string,
    seen2: Finality, evidence2: string, later: Positive)
    requires target == Confirmed || target == Reverted
    requires id in db.records && Holds(db.records[id], target, seen, evidence)
    ensures var second := RecordObservation(policy, db, id, target, seen2, evidence2, later);
            && (second.Ok? <==> seen2 == seen && evidence2 == evidence)
            && (second.Ok? ==> Unchanged(second, db, db.records[id].row))
  {
    hide Finality.DeepEnough;
  }

  /** A receipt is recorded once: the same receipt and evidence are accepted again, any others refused. */
  lemma ObservationIsReplayed(
    policy: Policy, db: Db, id: ExecutionId, target: ExecutionState, seen: Finality, evidence: string, now: int,
    seen2: Finality, evidence2: string, later: Positive)
    requires target == Confirmed || target == Reverted
    requires id in db.records ==> RecordInv(policy, db.records[id])
    requires RecordObservation(policy, db, id, target, seen, evidence, now).Ok?
    ensures var first := RecordObservation(policy, db, id, target, seen, evidence, now).value;
            var second := RecordObservation(policy, first.db, id, target, seen2, evidence2, later);
            && (second.Ok? <==> seen2 == seen && evidence2 == evidence)
            && (second.Ok? ==> Unchanged(second, first.db, first.value))
  {
    hide RecordObservation, RecordInv, Holds;
    ObservationIsHeld(policy, db, id, target, seen, evidence, now);
    HeldIsReplayed(
      policy, RecordObservation(policy, db, id, target, seen, evidence, now).value.db, id, target, seen, evidence,
      seen2, evidence2, later);
  }

  /** Success and revert exclude each other: once one is recorded the other is refused. */
  lemma OutcomesExclude(
    policy: Policy, db: Db, id: ExecutionId, target: ExecutionState, seen: Finality, evidence: string, now: int,
    other: ExecutionState, seen2: Finality, evidence2: string, later: int)
    requires {target, other} == {Confirmed, Reverted}
    requires RecordObservation(policy, db, id, target, seen, evidence, now).Ok?
    ensures var first := RecordObservation(policy, db, id, target, seen, evidence, now).value;
            RecordObservation(policy, first.db, id, other, seen2, evidence2, later).Err?
  {
    assert target in {target, other} && other in {target, other};
    assert Confirmed in {target, other} && Reverted in {target, other};
  }

  /** A revert is released once, on one proof and one boundary. */
  lemma ReleaseIsReplayed(
    policy: Policy, db: Db, id: ExecutionId, seen: Finality, proof: ReleaseEvidence, now: int,
    seen2: Finality, proof2: ReleaseEvidence, later: int)
    requires ReleaseReverted(policy, db, id, seen, proof, now).Ok? && later >= now
    ensures var first := ReleaseReverted(policy, db, id, seen, proof, now).value;
            var second := ReleaseReverted(policy, first.db, id, seen2, proof2, later);
            && (second.Ok? <==> seen2 == seen && proof2 == proof)
            && (second.Ok? ==> Unchanged(second, first.db, first.value))
  {
  }

  /** A rejection keeps its reason. */
  lemma RejectionIsReplayed(
    policy: Policy, db: Db, id: ExecutionId, reason: string, now: int, reason2: string, later: Positive)
    requires MarkSubmissionRejected(db, id, reason, now).Ok?
    ensures var first := MarkSubmissionRejected(db, id, reason, now).value;
            var second := MarkSubmissionRejected(first.db, id, reason2, later);
            && (second.Ok? <==> reason2 == reason)
            && (second.Ok? ==> Unchanged(second, first.db, first.value))
  {
    hide HasAttempt;
  }

  /** The other calls are repeated without effect, whenever that is. */
  lemma MarksAreReplayed(db: Db, id: ExecutionId, now: int, later: Positive)
    ensures MarkSubmitted(db, id, now).Ok? ==>
              var first := MarkSubmitted(db, id, now).value;
              Unchanged(MarkSubmitted(first.db, id, later), first.db, first.value)
    ensures MarkSubmissionUnknown(db, id, now).Ok? ==>
              var first := MarkSubmissionUnknown(db, id, now).value;
              Unchanged(MarkSubmissionUnknown(first.db, id, later), first.db, first.value)
  {
    hide HasAttempt;
  }

  lemma EndsAreReplayed(policy: Policy, db: Db, id: ExecutionId, boundary: FinalityBoundary, now: int, later: Positive)
    ensures Finalize(policy, db, id, boundary, now).Ok? ==>
              var first := Finalize(policy, db, id, boundary, now).value;
              Unchanged(Finalize(policy, first.db, id, boundary, later), first.db, first.value)
    ensures ReleaseExpired(policy, db, id, now).Ok? ==>
              var first := ReleaseExpired(policy, db, id, now).value;
              Unchanged(ReleaseExpired(policy, first.db, id, later), first.db, first.value)
  {
  }

  /** A submission claim is spent when it is acquired: whoever asks next does not get it. */
  lemma ClaimIsSpent(policy: Policy, db: Db, id: ExecutionId, now: int, later: int)
    requires ClaimSubmission(policy, db, id, now).Ok? && ClaimSubmission(policy, db, id, now).value.value.acquired
    ensures var first := ClaimSubmission(policy, db, id, now).value;
            var second := ClaimSubmission(policy, first.db, id, later);
            && first.value.row == first.db.records[id].row
            && (second.Ok? ==> !second.value.value.acquired && second.value.value.row == first.value.row)
  {
    hide HasAttempt, Total;
  }

  /** A live lease excludes: until it ends nobody else acquires the signing claim. */
  lemma LeaseExcludes(policy: Policy, db: Db, id: ExecutionId, now: int, later: Positive)
    requires ClaimSigning(policy, db, id, now).Ok? && ClaimSigning(policy, db, id, now).value.value.acquired
    ensures var first := ClaimSigning(policy, db, id, now).value;
            var second := ClaimSigning(policy, first.db, id, later);
            && first.value.row == first.db.records[id].row
            && (second.Ok? ==>
                (second.value.value.acquired <==> later >= first.value.row.signingExpiresAt.value)
                && (!second.value.value.acquired ==> Unchanged(second, first.db, first.value.(acquired := false))))
  {
  }

  // ---------------------------------------------------------------- pauses

  /** While a scope of the execution is paused no claim, charge, signature, submission claim or
      rebroadcast of it goes through, for that very reason or an earlier one; outcomes still do. */
  lemma PauseStopsFunding(
    policy: PilotGatePolicy, db: Db, id: ExecutionId, cost: int, generation: int, signature: Signature, raw: RawTransaction,
    digest: Option<string>, replacement: Option<RawTransaction>, now: int)
    requires id in db.records
    requires PauseDenial(db, db.records[id].row.intent.tenantId, db.records[id].row.intent.nodeId).Some?
    ensures ClaimSigning(Some(policy), db, id, now).Err?
    ensures ReservePilotGas(Some(policy), db, id, cost, generation, now).Err?
    ensures db.records[id].row.status != Signed ==>
              PersistSigned(Some(policy), db, id, signature, raw, generation, digest, now).Err?
    ensures ClaimSubmission(Some(policy), db, id, now).Err?
    ensures RebroadcastRaw(Some(policy), db, id, replacement, now).Err?
  {
    hide Charge, EnsureGas, HasAttempt;
  }

  /** A new intent of a paused scope is refused, and nothing changes. */
  lemma PauseStopsAllocation(
    policy: PilotGatePolicy, db: Db, intent: ExecutionIntent, pending: nat, confirmed: nat, newId: ExecutionId, now: int)
    requires PauseDenial(db, intent.tenantId, intent.nodeId).Some?
    requires SharingIds(db, intent) == {}
    ensures AllocateOrReturn(Some(policy), db, intent, pending, confirmed, newId, now).Err?
  {
    hide Total, AllocateNonce;
  }

  /** Setting a pause is what pauses, and clearing it reopens, that scope only. */
  lemma PauseIsScoped(db: Db, scope: ControlScope, paused: bool, tenantId: string, nodeId: string)
    ensures var scopes := {PlatformScope, TenantScope(tenantId), NodeScope(tenantId, nodeId)};
            var after := SetPause(db, scope, paused);
            && (scope in scopes && paused ==> PauseDenial(after, tenantId, nodeId).Some?)
            && (scope !in scopes ==> PauseDenial(after, tenantId, nodeId) == PauseDenial(db, tenantId, nodeId))
            && (PauseDenial(after, tenantId, nodeId).None? <==> forall other :: other in scopes ==> !PausedScope(after, other))
  {
  }
}
