/** Exactly which calls leave the declared state table of apps/facilitator/execution_models.py. */
module RepositoryEdges {
  import opened Wrappers
  import opened PilotGate
  import opened ExecutionModels
  import opened RepositoryModel
  import opened RepositoryWriting

  function StatusOf(db: Db, id: ExecutionId): ExecutionState
    requires id in db.records
  {
    db.records[id].row.status
  }

  /** The calls that leave the table, and the state each leaves it from. */
  predicate OffTable(from: ExecutionState, call: Writing) {
    || ((call.MarksSubmitted? || call.MarksRejected?) && from == SubmissionUnknown)
    || ((call.Confirms? || call.Reverts?) && from == SubmissionRejected)
    || (call.ReleasesReverted? && from == Reverted)
  }

  /** What a successful call of each kind makes of a status it changes. */
  predicate Makes(from: ExecutionState, call: Writing, to: ExecutionState) {
    match call
    case ClaimsSigning(_) => from == PreflightApproved && to == Signing
    case Persists(_, _, _, _, _) => from == Signing && to == Signed
    case ClaimsSubmission(_) => from == Signed && to == SubmissionUnknown
    case MarksSubmitted(_) => from in {Signed, SubmissionUnknown, SubmissionRejected} && to == Submitted
    case MarksUnknown(_) => from in {Signed, Submitted, SubmissionRejected} && to == SubmissionUnknown
    case MarksRejected(_, _) => from in {Signed, SubmissionUnknown} && to == SubmissionRejected
    case ReleasesExpired(_) => from in {PreflightApproved, Signing} && to == Released
    case Transitions(_, _, _) => to in AllowedTransitions(from)
    case Confirms(_, _, _) => AwaitingReceipt(from) && to == Confirmed
    case Reverts(_, _, _, _) => AwaitingReceipt(from) && to == Reverted
    case Finalizes(_, _) => from == Confirmed && to == Finalized
    case ReleasesReverted(_, _, _) => from == Reverted && to == Released
    case Reviews(_, _, _) => from == Finalized && to == ReorgReview
    case _ => false
  }

  lemma SigningMakes(policy: Policy, db: Db, id: ExecutionId, call: Writing)
    requires call.ClaimsSigning? || call.ReservesGas? || call.Persists? || call.RecordsAttempt?
    requires id in db.records
    ensures var after := Written(policy, db, id, call);
            && id in after.records
            && (StatusOf(after, id) != StatusOf(db, id) ==> Makes(StatusOf(db, id), call, StatusOf(after, id)))
  {
    hide Total, HasAttempt;
  }

  lemma SubmissionMakes(policy: Policy, db: Db, id: ExecutionId, call: Writing)
    requires || call.ClaimsSubmission? || call.MarksSubmitted? || call.MarksUnknown? || call.MarksRejected?
             || call.Rebroadcasts?
    requires id in db.records
    ensures var after := Written(policy, db, id, call);
            && id in after.records
            && (StatusOf(after, id) != StatusOf(db, id) ==> Makes(StatusOf(db, id), call, StatusOf(after, id)))
  {
    hide EnsureGas, HasAttempt, GateOpen;
    if (call.ClaimsSubmission? || call.Rebroadcasts?) && call.now > 0 {
      EnsureGasKeepsRest(policy, db, id, db.records[id], call.now);
    }
  }

  lemma ReceiptMakes(policy: Policy, db: Db, id: ExecutionId, call: Writing)
    requires call.Confirms? || call.Reverts?
    requires id in db.records
    ensures var after := Written(policy, db, id, call);
            && id in after.records
            && (StatusOf(after, id) != StatusOf(db, id) ==> Makes(StatusOf(db, id), call, StatusOf(after, id)))
  {
  }

  lemma OutcomeMakes(policy: Policy, db: Db, id: ExecutionId, call: Writing)
    requires call.Finalizes? || call.ReleasesReverted? || call.Reviews?
    requires id in db.records
    ensures var after := Written(policy, db, id, call);
            && id in after.records
            && (StatusOf(after, id) != StatusOf(db, id) ==> Makes(StatusOf(db, id), call, StatusOf(after, id)))
  {
  }

  lemma EndMakes(policy: Policy, db: Db, id: ExecutionId, call: Writing)
    requires call.ReleasesExpired? || call.Transitions?
    requires id in db.records
    ensures var after := Written(policy, db, id, call);
            && id in after.records
            && (StatusOf(after, id) != StatusOf(db, id) ==> Makes(StatusOf(db, id), call, StatusOf(after, id)))
  {
  }

  /** The exact condition: a call that changes the status leaves the declared table if and only if it marks an
      unknown submission submitted or rejected, observes a receipt of a rejected one, or releases a reverted one. */
  lemma LeavesTableIff(policy: Policy, db: Db, id: ExecutionId, call: Writing)
    requires id in db.records
    ensures id in Written(policy, db, id, call).records
    ensures var from, to := StatusOf(db, id), StatusOf(Written(policy, db, id, call), id);
            from != to ==> (to !in AllowedTransitions(from) <==> OffTable(from, call))
  {
    hide Written, StatusOf;
    if call.ClaimsSigning? || call.ReservesGas? || call.Persists? || call.RecordsAttempt? {
      SigningMakes(policy, db, id, call);
    } else if call.ReleasesExpired? || call.Transitions? {
      EndMakes(policy, db, id, call);
    } else if call.Confirms? || call.Reverts? {
      ReceiptMakes(policy, db, id, call);
    } else if call.Finalizes? || call.ReleasesReverted? || call.Reviews? {
      OutcomeMakes(policy, db, id, call);
    } else {
      SubmissionMakes(policy, db, id, call);
    }
  }
}
