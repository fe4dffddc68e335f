/** Which rows can be shown. A stored row is not always one that the response's validator accepts: this says
    exactly which reachable rows are, which calls keep a row so, and which runs never break it. */
module ExecutionProjectionSafety {
  import opened Wrappers
  import opened PilotGate
  import opened ExecutionModels
  import opened RepositoryModel
  import opened RepositoryInvariants
  import opened RepositorySteps
  import opened RepositoryWriting
  import opened HostedRelayer
  import opened HostedRelayerInvariants
  import opened HostedRelayerCalls
  import opened HostedRelayerSteps
  import opened HostedRelayerSafety
  import opened ExecutionProjection

  // ---------------------------------------------------------------- one row

  /** Every number the response shows is one JSON carries safely. */
  predicate NumbersSafe(row: Execution) {
    && SafeInteger(row.intent.deadline)
    && SafeReceipt(row.finality)
    && SafeTime(row.broadcastedAt)
    && SafeTime(row.confirmedAt)
    && SafeTime(row.finalizedAt)
    && SafeTime(row.revertedAt)
    && SafeTime(ReviewedAt(row))
    && SafeTime(row.releasedAt)
    && SafeTime(row.expiredAt)
  }

  predicate NotBefore(later: Option<int>, earlier: Option<int>) {
    later.Some? && earlier.Some? ==> earlier.value <= later.value
  }

  /** Each time of a row past `signed` is at or after those of the steps it follows. */
  predicate InSequence(row: Execution) {
    && NotBefore(row.broadcastedAt, Some(row.createdAt))
    && NotBefore(row.confirmedAt, Some(row.createdAt))
    && NotBefore(row.confirmedAt, row.broadcastedAt)
    && NotBefore(row.finalizedAt, row.confirmedAt)
    && NotBefore(ReviewedAt(row), row.confirmedAt)
    && NotBefore(ReviewedAt(row), row.finalizedAt)
    && NotBefore(row.revertedAt, Some(row.createdAt))
    && NotBefore(row.revertedAt, row.broadcastedAt)
    && NotBefore(row.releasedAt, row.revertedAt)
  }

  /** What is wrong with a row whose numbers are safe: the first thing its response is refused for. */
  function RowError(row: Execution): Option<ResponseError> {
    if !Past(row) then None
    else if row.status == SubmissionRejected && Attests(CodeOr(row.submissionFailureCode, "submission_rejected")) then
      Some(AttestationMisplaced)
    else if !InSequence(row) then Some(TimesUnordered)
    else if row.broadcastedAt.None? then Some(SubmissionTimeMissing)
    else if row.status == Finalized && row.finalizedAt.None? then Some(FinalizedTimeMissing)
    else None
  }

  predicate Shown(row: Execution) {
    NumbersSafe(row) && RowError(row).None?
  }

  function Later(previous: int, time: Option<int>): int {
    if time.Some? then time.value else previous
  }

  lemma {:induction false} InOrderNext(previous: int, times: seq<Option<int>>)
    requires times != []
    ensures InOrder(previous, times)
            <==> NotBefore(times[0], Some(previous)) && InOrder(Later(previous, times[0]), times[1..])
  {
  }

  predicate SevenInOrder(
    p: int, a: Option<int>, b: Option<int>, c: Option<int>, d: Option<int>, e: Option<int>, f: Option<int>, g: Option<int>)
  {
    var pa := Later(p, a);
    var pb := Later(pa, b);
    var pc := Later(pb, c);
    var pd := Later(pc, d);
    var pe := Later(pd, e);
    var pf := Later(pe, f);
    && NotBefore(a, Some(p))
    && NotBefore(b, Some(pa))
    && NotBefore(c, Some(pb))
    && NotBefore(d, Some(pc))
    && NotBefore(e, Some(pd))
    && NotBefore(f, Some(pe))
    && NotBefore(g, Some(pf))
  }

  lemma InOrderUnrolled(
    p: int, a: Option<int>, b: Option<int>, c: Option<int>, d: Option<int>, e: Option<int>, f: Option<int>, g: Option<int>)
    ensures InOrder(p, [a, b, c, d, e, f, g]) <==> SevenInOrder(p, a, b, c, d, e, f, g)
  {
    hide InOrder, NotBefore, Later;
    var pa := Later(p, a);
    var pb := Later(pa, b);
    var pc := Later(pb, c);
    var pd := Later(pc, d);
    var pe := Later(pd, e);
    var pf := Later(pe, f);
    InOrderNext(p, [a, b, c, d, e, f, g]);
    assert [a, b, c, d, e, f, g][1..] == [b, c, d, e, f, g];
    InOrderNext(pa, [b, c, d, e, f, g]);
    assert [b, c, d, e, f, g][1..] == [c, d, e, f, g];
    InOrderNext(pb, [c, d, e, f, g]);
    assert [c, d, e, f, g][1..] == [d, e, f, g];
    InOrderNext(pc, [d, e, f, g]);
    assert [d, e, f, g][1..] == [e, f, g];
    InOrderNext(pd, [e, f, g]);
    assert [e, f, g][1..] == [f, g];
    InOrderNext(pe, [f, g]);
    assert [f, g][1..] == [g];
    InOrderNext(pf, [g]);
    assert [g][1..] == [];
    EmptyInOrder(Later(pf, g));
  }

  lemma EmptyInOrder(p: int)
    ensures InOrder(p, [])
  {
  }

  /** The response's times are in order exactly when the row's are in sequence; before a submission and after an
      unsigned end they always are. */
  lemma TimesFollowRow(policy: Policy, record: Record, attested: Option<int>, response: Response)
    requires RecordInv(policy, record) && RelayedInv(policy, record)
    requires UnsignedExpiryTimestamp(record.row) == Ok(attested) && Projects(record.row, attested, response)
    ensures InOrder(response.issuedAt, response.Times()) <==> (Past(record.row) ==> InSequence(record.row))
  {
    InOrderUnrolled(
      response.issuedAt, response.submittedAt, response.confirmedAt, response.finalizedAt, response.revertedAt,
      response.reorgReviewedAt, response.releasedAt, response.expiredAt);
    hide InOrder, JournalInv, ObservationInv, GateInv;
  }

  lemma FieldsFollowRow(policy: Policy, record: Record, attested: Option<int>, response: Response)
    requires RecordInv(policy, record) && RelayedInv(policy, record)
    requires UnsignedExpiryTimestamp(record.row) == Ok(attested) && Projects(record.row, attested, response)
    ensures CheckFields(response) == if NumbersSafe(record.row) then Ok(()) else Err(IntegerUnsafe)
  {
    hide JournalInv, ObservationInv, GateInv;
    assert response.Times()[0] == response.submittedAt && response.Times()[1] == response.confirmedAt;
    assert response.Times()[2] == response.finalizedAt && response.Times()[3] == response.revertedAt;
    assert response.Times()[4] == response.reorgReviewedAt && response.Times()[5] == response.releasedAt;
    assert response.Times()[6] == response.expiredAt;
  }

  lemma AttestationFollowsRow(policy: Policy, record: Record, attested: Option<int>, response: Response)
    requires RecordInv(policy, record) && RelayedInv(policy, record)
    requires UnsignedExpiryTimestamp(record.row) == Ok(attested) && Projects(record.row, attested, response)
    ensures CheckAttestation(response)
            == if Past(record.row) && record.row.status == SubmissionRejected
                  && Attests(CodeOr(record.row.submissionFailureCode, "submission_rejected"))
               then Err(AttestationMisplaced) else Ok(())
    ensures CheckReceipt(response) == Ok(())
  {
    hide JournalInv, ObservationInv, GateInv, Attests, CodeOr;
  }

  lemma StateFollowsRow(policy: Policy, record: Record, attested: Option<int>, response: Response)
    requires RecordInv(policy, record) && RelayedInv(policy, record)
    requires UnsignedExpiryTimestamp(record.row) == Ok(attested) && Projects(record.row, attested, response)
    ensures CheckState(response)
            == if Past(record.row) && record.row.broadcastedAt.None? then Err(SubmissionTimeMissing)
               else if Past(record.row) && record.row.status == Finalized && record.row.finalizedAt.None?
               then Err(FinalizedTimeMissing)
               else Ok(())
  {
    hide JournalInv, ObservationInv, GateInv, Attests, CodeOr;
  }

  /** The attestation does not raise, and the evidence of a signed release is valid unless its time is unsafe. */
  lemma RowIsAttested(policy: Policy, record: Record)
    requires RecordInv(policy, record) && RelayedInv(policy, record)
    ensures UnsignedExpiryTimestamp(record.row).Ok?
    ensures NeedsEvidence(record.row) && NumbersSafe(record.row) ==> EvidenceValid(record.row.releaseEvidence)
  {
    hide JournalInv, ObservationInv, GateInv;
  }

  lemma RowIsProjectedIff(policy: Policy, record: Record, result: Result<Response, ProjectionError>)
    requires RecordInv(policy, record) && RelayedInv(policy, record) && IsProjection(record.row, result)
    ensures result.Ok? <==> Shown(record.row)
    ensures NumbersSafe(record.row) && RowError(record.row).Some? ==> result == Err(Invalid(RowError(record.row).value))
  {
    hide RecordInv, RelayedInv, NumbersSafe, InSequence, InOrder, CheckFields, CheckAttestation, CheckReceipt, CheckState,
         EvidenceValid, UnsignedExpiryTimestamp, Projects, Attests, CodeOr;
    RowIsAttested(policy, record);
    var attested := UnsignedExpiryTimestamp(record.row).value;
    if NeedsEvidence(record.row) ==> EvidenceValid(record.row.releaseEvidence) {
      var response :| Projects(record.row, attested, response) && IsValidated(response, result);
      FieldsFollowRow(policy, record, attested, response);
      AttestationFollowsRow(policy, record, attested, response);
      TimesFollowRow(policy, record, attested, response);
      StateFollowsRow(policy, record, attested, response);
    }
  }

  // ---------------------------------------------------------------- reachable rows

  /** A reachable row is projected exactly when its numbers are safe, it has the times of its state, they are in
      sequence, and its failure code is not that of an attestation. Otherwise the validator raises. */
  lemma ProjectedIff(policy: Policy, actions: seq<Action>, id: ExecutionId, result: Result<Response, ProjectionError>)
    requires id in Reached(policy, actions).db.records
    requires IsProjection(Reached(policy, actions).db.records[id].row, result)
    ensures var row := Reached(policy, actions).db.records[id].row;
            && (result.Ok? <==> Shown(row))
            && (NumbersSafe(row) && RowError(row).Some? ==> result == Err(Invalid(RowError(row).value)))
  {
    hide Run, RecordInv, RelayedInv, Shown, NumbersSafe, RowError, IsProjection;
    ReachableRecord(policy, actions, id);
    RowIsProjectedIff(policy, Reached(policy, actions).db.records[id], result);
  }

  /** What a response to a reachable row says: the state `expired` with its time exactly for rows that ended
      unsigned; the row's hash exactly when its bytes exist and it has left `signed`, and then the time of its
      submission; a finalization time for `finalized`; release evidence that proves no transfer, at a boundary past
      the deadline and not after the release, exactly for released rows that were signed; and never the bare reason
      `AUTHORIZATION_EXPIRED`. */
  lemma ReachableProjection(policy: Policy, actions: seq<Action>, id: ExecutionId, result: Result<Response, ProjectionError>)
    requires id in Reached(policy, actions).db.records
    requires IsProjection(Reached(policy, actions).db.records[id].row, result) && result.Ok?
    ensures var row, response := Reached(policy, actions).db.records[id].row, result.value;
            var ended := !Active(row.status) && row.signature.None?;
            && (response.state == Public(Expired) <==> ended)
            && (response.expiredAt.Some? <==> ended)
            && (ended ==> response.expiredAt.value >= row.intent.deadline)
            && (response.failureReason == Some(UnsignedExecutionExpired) <==> ended)
            && (response.transactionHash.Some? <==> row.rawTransaction.Some? && row.status != Signed)
            && (response.transactionHash.Some? ==> response.transactionHash == row.rawTransactionHash)
            && (response.submittedAt.Some? <==> response.transactionHash.Some?)
            && (response.state == Public(Finalized) ==> response.finalizedAt.Some?)
            && (response.releaseEvidence.Some? <==> row.status == Released && row.signature.Some?)
            && (response.releaseEvidence.Some? ==>
                && response.releaseEvidence.value.ProvesNoTransfer()
                && response.releasedAt.Some?
                && row.intent.deadline <= response.releaseEvidence.value.finalityBoundaryTimestamp
                && response.releaseEvidence.value.finalityBoundaryTimestamp <= response.releasedAt.value
                && response.failureReason == Some(SafeRevertRelease))
            && response.failureReason != Some(AuthorizationExpired)
  {
    hide Run, JournalInv, ObservationInv, GateInv, InSequence, NumbersSafe, ValidResponse, EvidenceValid;
    ReachableRecord(policy, actions, id);
    ProjectedIff(policy, actions, id, result);
  }

  // ---------------------------------------------------------------- what a call keeps

  predicate Follows(now: int, earlier: Option<int>) {
    earlier.Some? ==> earlier.value <= now
  }

  /** A reading that stamps the broadcast of a row that is still `signed` is not before its allocation. */
  predicate LeavesInTime(row: Execution, now: int) {
    row.status == Signed ==> row.createdAt <= now <= MAX_SAFE_INTEGER
  }

  predicate SafeReading(now: int) {
    now <= MAX_SAFE_INTEGER
  }

  /** What a call must be like to leave a row that is shown one that is shown. */
  predicate KeepsShown(row: Execution, call: Writing) {
    match call
    case ClaimsSubmission(now) => LeavesInTime(row, now)
    case MarksSubmitted(now) => LeavesInTime(row, now)
    case MarksUnknown(now) => LeavesInTime(row, now)
    case MarksRejected(reason, now) =>
      LeavesInTime(row, now) && !Attests(CodeOr(Some(reason), "submission_rejected"))
    case ReleasesExpired(now) => SafeReading(now)
    case Transitions(target, _, now) =>
      target != SubmissionRejected && target != Finalized && (target in {Released, Expired} ==> SafeReading(now))
    case Confirms(seen, _, now) => SafeReading(now) && SafeReceipt(Some(seen)) && Follows(now, row.broadcastedAt)
    case Reverts(seen, _, _, now) => SafeReading(now) && SafeReceipt(Some(seen)) && Follows(now, row.broadcastedAt)
    case Finalizes(_, now) => SafeReading(now) && Follows(now, row.confirmedAt)
    case ReleasesReverted(seen, _, now) => SafeReading(now) && SafeReceipt(Some(seen))
    case Reviews(_, _, now) => SafeReading(now) && Follows(now, row.confirmedAt) && Follows(now, row.finalizedAt)
    case _ => true
  }

  ghost predicate ShownIff(policy: Policy, db: Db, id: ExecutionId, call: Writing)
    requires id in db.records
  {
    var row, after := db.records[id].row, Written(policy, db, id, call);
    && id in after.records
    && (Shown(after.records[id].row) <==> after.records[id].row == row || KeepsShown(row, call))
  }

  // The row a call makes, and whether it is shown.

  lemma SentRowShown(policy: Policy, record: Record, after: Execution)
    requires RecordInv(policy, record) && record.row.status == Signed && Shown(record.row)
    requires AwaitingReceipt(after.status) && after.broadcastedAt.Some? && after.broadcastedAt.value > 0
    requires after == record.row.(
               status := after.status, broadcastAttempts := after.broadcastAttempts, broadcastedAt := after.broadcastedAt,
               submissionFailureCode := after.submissionFailureCode)
    ensures Shown(after)
            <==> LeavesInTime(record.row, after.broadcastedAt.value)
                 && (after.status == SubmissionRejected ==>
                       !Attests(CodeOr(after.submissionFailureCode, "submission_rejected")))
  {
    hide JournalInv, ObservationInv, GateInv, Attests, CodeOr;
  }

  lemma MarkedRowShown(policy: Policy, record: Record, after: Execution)
    requires RecordInv(policy, record) && AwaitingReceipt(record.row.status) && Shown(record.row)
    requires AwaitingReceipt(after.status)
    requires after == record.row.(
               status := after.status, broadcastAttempts := after.broadcastAttempts,
               submissionFailureCode := after.submissionFailureCode)
    ensures Shown(after)
            <==> (after.status == SubmissionRejected ==>
                    !Attests(CodeOr(after.submissionFailureCode, "submission_rejected")))
  {
    hide JournalInv, ObservationInv, GateInv, Attests, CodeOr;
  }

  lemma ObservedRowShown(
    policy: Policy, record: Record, target: ExecutionState, seen: Finality, evidence: string, now: Positive)
    requires RecordInv(policy, record) && AwaitingReceipt(record.row.status) && Shown(record.row)
    requires target == Confirmed || target == Reverted
    ensures record.row.rawTransactionHash.Some?
    ensures Shown(Observe(record, target, seen, evidence, now).row)
            <==> SafeReading(now) && SafeReceipt(Some(seen)) && Follows(now, record.row.broadcastedAt)
  {
    hide JournalInv, ObservationInv, GateInv, Attests, CodeOr;
  }

  lemma EndedRowShown(policy: Policy, record: Record, after: Execution, now: Positive)
    requires RecordInv(policy, record) && !HasMaterial(record.row) && Active(record.row.status) && Shown(record.row)
    requires || after == record.row.(status := Released, signingExpiresAt := None, releasedAt := Some(now))
             || after == record.row.(status := Expired, signingExpiresAt := None, expiredAt := Some(now))
    ensures Shown(after) <==> SafeReading(now)
  {
    hide JournalInv, ObservationInv, GateInv, Attests, CodeOr;
  }

  lemma SkippedRowNotShown(policy: Policy, record: Record, after: Execution)
    requires RecordInv(policy, record) && Shown(record.row)
    requires || (record.row.status == Signed && after == record.row.(status := SubmissionRejected))
             || (record.row.status == Confirmed && after == record.row.(status := Finalized))
    ensures !Shown(after)
  {
    hide JournalInv, ObservationInv, GateInv, Attests, CodeOr;
  }

  lemma ClaimKeepsShown(policy: Policy, db: Db, id: ExecutionId, call: Writing)
    requires call.ClaimsSigning? || call.ReservesGas?
    requires id in db.records && RecordInv(policy, db.records[id]) && Shown(db.records[id].row)
    ensures ShownIff(policy, db, id, call)
  {
    hide Total, GateOpen, JournalInv, ObservationInv, GateInv, Attests, CodeOr;
  }

  lemma PersistKeepsShown(policy: Policy, db: Db, id: ExecutionId, call: Writing)
    requires call.Persists? || call.RecordsAttempt?
    requires id in db.records && RecordInv(policy, db.records[id]) && Shown(db.records[id].row)
    ensures ShownIff(policy, db, id, call)
  {
    hide HasAttempt, GateOpen, GasReserved, JournalInv, ObservationInv, GateInv, Attests, CodeOr;
  }

  lemma UncountedRowShown(record: Record, after: Execution)
    requires Shown(record.row)
    requires after == record.row.(broadcastAttempts := after.broadcastAttempts)
    ensures Shown(after)
  {
    hide Attests, CodeOr;
  }

  lemma RebroadcastKeepsShown(policy: Policy, db: Db, id: ExecutionId, call: Writing)
    requires call.Rebroadcasts?
    requires id in db.records && RecordInv(policy, db.records[id]) && Shown(db.records[id].row)
    ensures ShownIff(policy, db, id, call)
  {
    hide EnsureGas, HasAttempt, RecordInv, GateOpen, Shown;
    if call.now > 0 {
      EnsureGasKeepsRest(policy, db, id, db.records[id], call.now);
    }
    UncountedRowShown(db.records[id], Written(policy, db, id, call).records[id].row);
  }

  lemma ClaimedKeepsShown(policy: Policy, db: Db, id: ExecutionId, call: Writing)
    requires call.ClaimsSubmission?
    requires id in db.records && RecordInv(policy, db.records[id]) && Shown(db.records[id].row)
    ensures ShownIff(policy, db, id, call)
  {
    hide EnsureGas, HasAttempt, RecordInv, GateOpen, Shown;
    var record, after := db.records[id], Written(policy, db, id, call);
    if call.now > 0 {
      EnsureGasKeepsRest(policy, db, id, record, call.now);
    }
    if after.records[id].row != record.row {
      SentRowShown(policy, record, after.records[id].row);
    }
  }

  lemma MarkKeepsShown(policy: Policy, db: Db, id: ExecutionId, call: Writing)
    requires call.MarksSubmitted? || call.MarksUnknown? || call.MarksRejected?
    requires id in db.records && RecordInv(policy, db.records[id]) && Shown(db.records[id].row)
    ensures ShownIff(policy, db, id, call)
  {
    hide HasAttempt, RecordInv, Shown, Attests;
    var record, after := db.records[id], Written(policy, db, id, call);
    if after.records[id].row != record.row {
      if record.row.status == Signed {
        SentRowShown(policy, record, after.records[id].row);
      } else {
        MarkedRowShown(policy, record, after.records[id].row);
      }
    }
  }

  lemma ReleaseKeepsShown(policy: Policy, db: Db, id: ExecutionId, call: Writing)
    requires call.ReleasesExpired?
    requires id in db.records && RecordInv(policy, db.records[id]) && Shown(db.records[id].row)
    ensures ShownIff(policy, db, id, call)
  {
    hide RecordInv, Shown;
    UnsignedRow(policy, db.records[id]);
    var record, after := db.records[id], Written(policy, db, id, call);
    if after.records[id].row != record.row {
      EndedRowShown(policy, record, after.records[id].row, call.now);
    }
  }

  lemma UnsignedRow(policy: Policy, record: Record)
    requires RecordInv(policy, record)
    ensures record.row.status in {Requested, PreflightApproved, Signing} ==> !HasMaterial(record.row)
    ensures record.row.releasedAt.Some? ==> record.row.status == Released
    ensures record.row.expiredAt.Some? ==> record.row.status == Expired
  {
  }

  lemma TransitionRow(policy: Policy, db: Db, id: ExecutionId, call: Writing)
    requires call.Transitions? && id in db.records
    ensures var row, after := db.records[id].row, Written(policy, db, id, call);
            && id in after.records
            && (after.records[id].row == row
                || (&& call.target == Released && call.now > 0 && Active(row.status)
                    && after.records[id].row
                       == row.(status := Released, signingExpiresAt := None, releasedAt := Some(call.now)))
                || (&& call.target == Expired && call.now > 0 && Active(row.status)
                    && after.records[id].row
                       == row.(status := Expired, signingExpiresAt := None, expiredAt := Some(call.now)))
                || (&& call.target == PreflightApproved && row.status == Requested
                    && after.records[id].row == row.(status := PreflightApproved))
                || (&& call.target == SubmissionRejected && row.status == Signed
                    && after.records[id].row == row.(status := SubmissionRejected))
                || (&& call.target == Finalized && row.status == Confirmed
                    && after.records[id].row == row.(status := Finalized)))
            && (after.records[id].row != row && !Active(call.target) ==>
                  row.status in {Requested, PreflightApproved, Signing})
  {
  }

  lemma TransitionKeepsShown(policy: Policy, db: Db, id: ExecutionId, call: Writing)
    requires call.Transitions?
    requires id in db.records && RecordInv(policy, db.records[id]) && Shown(db.records[id].row)
    ensures ShownIff(policy, db, id, call)
  {
    hide RecordInv, Shown, Written;
    UnsignedRow(policy, db.records[id]);
    TransitionRow(policy, db, id, call);
    var record, after := db.records[id], Written(policy, db, id, call).records[id].row;
    if after != record.row {
      if call.target == Expired || call.target == Released {
        EndedRowShown(policy, record, after, call.now);
      } else if call.target == PreflightApproved {
        ApprovedRowShown(record, after);
      } else {
        SkippedRowNotShown(policy, record, after);
      }
    }
  }

  lemma ApprovedRowShown(record: Record, after: Execution)
    requires Shown(record.row) && record.row.status == Requested && after == record.row.(status := PreflightApproved)
    ensures Shown(after)
  {
  }

  lemma ConfirmKeepsShown(policy: Policy, db: Db, id: ExecutionId, call: Writing)
    requires call.Confirms?
    requires id in db.records && RecordInv(policy, db.records[id]) && Shown(db.records[id].row)
    ensures ShownIff(policy, db, id, call)
  {
    hide RecordInv, Shown, Finality.DeepEnough, SafeReceipt, Follows;
    var record := db.records[id];
    if call.now > 0 && AwaitingReceipt(record.row.status) {
      ObservedRowShown(policy, record, Confirmed, call.seen, call.evidence, call.now);
    }
  }

  lemma RevertKeepsShown(policy: Policy, db: Db, id: ExecutionId, call: Writing)
    requires call.Reverts?
    requires id in db.records && RecordInv(policy, db.records[id]) && Shown(db.records[id].row)
    ensures ShownIff(policy, db, id, call)
  {
    hide RecordInv, Shown, Finality.DeepEnough, SafeReceipt, Follows;
    var record := db.records[id];
    if call.now > 0 && AwaitingReceipt(record.row.status) {
      ObservedRowShown(policy, record, Reverted, call.seen, call.evidence, call.now);
    }
  }

  lemma FinalizeKeepsShown(policy: Policy, db: Db, id: ExecutionId, call: Writing)
    requires call.Finalizes?
    requires id in db.records && RecordInv(policy, db.records[id]) && Shown(db.records[id].row)
    ensures ShownIff(policy, db, id, call)
  {
    hide JournalInv, ObservationInv, GateInv, Attests, CodeOr;
  }

  lemma EndRevertedKeepsShown(policy: Policy, db: Db, id: ExecutionId, call: Writing)
    requires call.ReleasesReverted?
    requires id in db.records && RecordInv(policy, db.records[id]) && Shown(db.records[id].row)
    ensures ShownIff(policy, db, id, call)
  {
    hide JournalInv, ObservationInv, GateInv, Attests, CodeOr, Finality.DeepEnough, Finality.SameReceipt;
  }

  lemma ReviewKeepsShown(policy: Policy, db: Db, id: ExecutionId, call: Writing)
    requires call.Reviews?
    requires id in db.records && RecordInv(policy, db.records[id]) && Shown(db.records[id].row)
    ensures ShownIff(policy, db, id, call)
  {
    hide JournalInv, ObservationInv, GateInv, Attests, CodeOr;
  }

  /** The exact condition for one call: a row that is shown stays so if and only if the call leaves it alone or is
      one that `KeepsShown`. */
  lemma CallKeepsShownIff(policy: Policy, db: Db, id: ExecutionId, call: Writing)
    requires id in db.records && RecordInv(policy, db.records[id]) && Shown(db.records[id].row)
    ensures var row, after := db.records[id].row, Written(policy, db, id, call);
            && id in after.records
            && (Shown(after.records[id].row) <==> after.records[id].row == row || KeepsShown(row, call))
  {
    hide RecordInv, Shown, Written, KeepsShown;
    match call
    case ClaimsSubmission(_) => ClaimedKeepsShown(policy, db, id, call);
    case Rebroadcasts(_, _) => RebroadcastKeepsShown(policy, db, id, call);
    case MarksSubmitted(_) => MarkKeepsShown(policy, db, id, call);
    case MarksUnknown(_) => MarkKeepsShown(policy, db, id, call);
    case MarksRejected(_, _) => MarkKeepsShown(policy, db, id, call);
    case ReleasesExpired(_) => ReleaseKeepsShown(policy, db, id, call);
    case Transitions(_, _, _) => TransitionKeepsShown(policy, db, id, call);
    case Confirms(_, _, _) => ConfirmKeepsShown(policy, db, id, call);
    case Reverts(_, _, _, _) => RevertKeepsShown(policy, db, id, call);
    case Finalizes(_, _) => FinalizeKeepsShown(policy, db, id, call);
    case ReleasesReverted(_, _, _) => EndRevertedKeepsShown(policy, db, id, call);
    case Reviews(_, _, _) => ReviewKeepsShown(policy, db, id, call);
    case Persists(_, _, _, _, _) => PersistKeepsShown(policy, db, id, call);
    case RecordsAttempt(_) => PersistKeepsShown(policy, db, id, call);
    case _ => ClaimKeepsShown(policy, db, id, call);
  }
}
