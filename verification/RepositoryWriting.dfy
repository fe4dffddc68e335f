/** All calls of the repository that write one existing execution, as one value, and what they have in common. */
module RepositoryWriting {
  import opened Wrappers
  import opened PilotGate
  import opened ExecutionModels
  import opened RepositoryModel
  import opened RepositoryInvariants
  import opened RepositorySteps

  /** A writing call with its arguments, but for the execution it names. */
  datatype Writing =
    | ClaimsSigning(now: int)
    | ReservesGas(cost: int, generation: int, now: int)
    | Persists(signature: Signature, raw: RawTransaction, generation: int, unsignedHash: Option<string>, now: int)
    | ClaimsSubmission(now: int)
    | MarksSubmitted(now: int)
    | MarksUnknown(now: int)
    | MarksRejected(reason: string, now: int)
    | Rebroadcasts(replacement: Option<RawTransaction>, now: int)
    | ReleasesExpired(now: int)
    | Transitions(target: ExecutionState, expected: Option<ExecutionState>, now: int)
    | Confirms(seen: Finality, evidence: string, now: int)
    | Reverts(seen: Finality, acceptedTransfer: bool, evidence: string, now: int)
    | Finalizes(boundary: FinalityBoundary, now: int)
    | ReleasesReverted(seen: Finality, proof: ReleaseEvidence, now: int)
    | Reviews(evidence: string, canonical: bool, now: int)
    | RecordsAttempt(nowNs: Positive)

  /** The tables after the call. */
  ghost function Written(policy: Policy, db: Db, id: ExecutionId, call: Writing): Db {
    match call
    case ClaimsSigning(now) => After(db, ClaimSigning(policy, db, id, now))
    case ReservesGas(cost, generation, now) => After(db, ReservePilotGas(policy, db, id, cost, generation, now))
    case Persists(signature, raw, generation, hash, now) =>
      After(db, PersistSigned(policy, db, id, signature, raw, generation, hash, now))
    case ClaimsSubmission(now) => After(db, ClaimSubmission(policy, db, id, now))
    case MarksSubmitted(now) => After(db, MarkSubmitted(db, id, now))
    case MarksUnknown(now) => After(db, MarkSubmissionUnknown(db, id, now))
    case MarksRejected(reason, now) => After(db, MarkSubmissionRejected(db, id, reason, now))
    case Rebroadcasts(replacement, now) => After(db, RebroadcastRaw(policy, db, id, replacement, now))
    case ReleasesExpired(now) => After(db, ReleaseExpired(policy, db, id, now))
    case Transitions(target, expected, now) => After(db, Transition(policy, db, id, target, expected, now))
    case Confirms(seen, evidence, now) => After(db, Confirm(policy, db, id, seen, evidence, now))
    case Reverts(seen, accepted, evidence, now) => After(db, Revert(policy, db, id, seen, accepted, evidence, now))
    case Finalizes(boundary, now) => After(db, Finalize(policy, db, id, boundary, now))
    case ReleasesReverted(seen, proof, now) => After(db, ReleaseReverted(policy, db, id, seen, proof, now))
    case Reviews(evidence, canonical, now) => After(db, MarkReorgReview(db, id, evidence, canonical, now))
    case RecordsAttempt(nowNs) => After(db, RecordWatcherAttempt(db, id, nowNs))
  }

  /** The calls of a signer. */
  predicate IsSigning(call: Writing) {
    call.ClaimsSigning? || call.ReservesGas? || call.Persists?
  }

  /** The calls that charge the day of a broadcast. */
  predicate IsBroadcast(call: Writing) {
    call.ClaimsSubmission? || call.Rebroadcasts?
  }

  /** No call writes an execution that does not exist. */
  lemma UnknownIsUnwritten(policy: Policy, db: Db, id: ExecutionId, call: Writing)
    requires id !in db.records
    ensures Written(policy, db, id, call) == db
  {
    hide Total, EnsureGas, GateOpen;
  }

  /** Moving a charge to the day of the broadcast leaves the rest of the record alone. */
  lemma EnsureGasKeepsRest(policy: Policy, db: Db, id: ExecutionId, record: Record, now: Positive)
    ensures var charged := EnsureGas(policy, db, id, record, now);
            charged.Ok? ==> charged.value == record.(gate := charged.value.gate)
  {
    hide Total;
  }

  lemma OutcomeSteps(policy: Policy, db: Db, id: ExecutionId, call: Writing)
    requires id in db.records && RecordInv(policy, db.records[id])
    requires || call.Confirms? || call.Reverts? || call.Finalizes? || call.ReleasesReverted? || call.Reviews?
             || call.ReleasesExpired?
    ensures Steps(policy, db, Written(policy, db, id, call), id)
  {
    hide RecordInv, Steps, RecordObservation, Finalize, ReleaseReverted, MarkReorgReview, ReleaseExpired;
    Unmoved(policy, db, id);
    match call
    case Confirms(seen, evidence, now) =>
      if Confirm(policy, db, id, seen, evidence, now).Ok? {
        RecordObservationSteps(policy, db, id, Confirmed, seen, evidence, now);
      }
    case Reverts(seen, accepted, evidence, now) =>
      if Revert(policy, db, id, seen, accepted, evidence, now).Ok? {
        RecordObservationSteps(policy, db, id, Reverted, seen, evidence, now);
      }
    case Finalizes(boundary, now) =>
      if Finalize(policy, db, id, boundary, now).Ok? { FinalizeSteps(policy, db, id, boundary, now); }
    case ReleasesReverted(seen, proof, now) =>
      if ReleaseReverted(policy, db, id, seen, proof, now).Ok? { ReleaseRevertedSteps(policy, db, id, seen, proof, now); }
    case Reviews(evidence, canonical, now) =>
      if MarkReorgReview(db, id, evidence, canonical, now).Ok? {
        MarkReorgReviewSteps(policy, db, id, evidence, canonical, now);
      }
    case ReleasesExpired(now) =>
      if ReleaseExpired(policy, db, id, now).Ok? { ReleaseExpiredSteps(policy, db, id, now); }
  }

  lemma MarkSteps(policy: Policy, db: Db, id: ExecutionId, call: Writing)
    requires id in db.records && RecordInv(policy, db.records[id])
    requires call.MarksSubmitted? || call.MarksUnknown? || call.MarksRejected? || call.RecordsAttempt?
    ensures Steps(policy, db, Written(policy, db, id, call), id)
  {
    hide RecordInv, Steps, MarkSubmitted, MarkSubmissionUnknown, MarkSubmissionRejected, RecordWatcherAttempt;
    Unmoved(policy, db, id);
    match call
    case MarksSubmitted(now) =>
      if MarkSubmitted(db, id, now).Ok? { MarkSubmittedSteps(policy, db, id, now); }
    case MarksUnknown(now) =>
      if MarkSubmissionUnknown(db, id, now).Ok? { MarkSubmissionUnknownSteps(policy, db, id, now); }
    case MarksRejected(reason, now) =>
      if MarkSubmissionRejected(db, id, reason, now).Ok? { MarkSubmissionRejectedSteps(policy, db, id, reason, now); }
    case RecordsAttempt(nowNs) =>
      if RecordWatcherAttempt(db, id, nowNs).Ok? { RecordWatcherAttemptSteps(policy, db, id, nowNs); }
  }

  /** What every call but a signer's does: one record changes along the state relation, keeping its invariant, the
      limits, the current signing claim and generation; and all but a `transition` settle what they finalize. */
  lemma WritingLands(policy: Policy, db: Db, id: ExecutionId, call: Writing)
    requires id in db.records && RecordInv(policy, db.records[id]) && !IsSigning(call)
    ensures var after := Written(policy, db, id, call);
            && LocalChange(policy, db, after, id)
            && LeavesClaim(db.records[id], after.records[id])
            && Unsigning(db.records[id], after.records[id])
            && (!(call.Transitions? && call.target == Finalized) ==> Settles(db.records[id], after.records[id]))
  {
    hide RecordInv, LocalChange, LeavesClaim, Unsigning, Settles, Steps, ClaimSubmission, RebroadcastRaw, Transition;
    if IsBroadcast(call) || call.Transitions? {
      Unmoved(policy, db, id);
      StepsLand(policy, db, db, id);
      match call
      case ClaimsSubmission(now) =>
        if ClaimSubmission(policy, db, id, now).Ok? { ClaimSubmissionLands(policy, db, id, now); }
      case Rebroadcasts(replacement, now) =>
        if RebroadcastRaw(policy, db, id, replacement, now).Ok? { RebroadcastRawLands(policy, db, id, replacement, now); }
      case Transitions(target, expected, now) =>
        if Transition(policy, db, id, target, expected, now).Ok? {
          TransitionSteps(policy, db, id, target, expected, now);
        }
    } else {
      hide Written;
      if call.MarksSubmitted? || call.MarksUnknown? || call.MarksRejected? || call.RecordsAttempt? {
        MarkSteps(policy, db, id, call);
      } else {
        OutcomeSteps(policy, db, id, call);
      }
      StepsLand(policy, db, Written(policy, db, id, call), id);
    }
  }

  /** What a signer's call does: the same, but for its own claim, charge and signature. */
  lemma SigningLands(policy: Policy, db: Db, id: ExecutionId, call: Writing)
    requires id in db.records && RecordInv(policy, db.records[id]) && IsSigning(call)
    ensures LocalChange(policy, db, Written(policy, db, id, call), id)
  {
    hide RecordInv, LocalChange, LeavesClaim, Unsigning, Settles, Steps, ClaimSigning, ReservePilotGas, PersistSigned,
         GasReserved, Lease, SignRecord;
    Unmoved(policy, db, id);
    StepsLand(policy, db, db, id);
    match call
    case ClaimsSigning(now) =>
      if ClaimSigning(policy, db, id, now).Ok? { ClaimSigningSteps(policy, db, id, now); }
    case ReservesGas(cost, generation, now) =>
      if ReservePilotGas(policy, db, id, cost, generation, now).Ok? {
        ReservePilotGasLands(policy, db, id, cost, generation, now);
      }
    case Persists(signature, raw, generation, hash, now) =>
      if PersistSigned(policy, db, id, signature, raw, generation, hash, now).Ok? {
        PersistSignedSteps(policy, db, id, signature, raw, generation, hash, now);
      }
  }
}
