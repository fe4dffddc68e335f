/** The public projection of one execution row (apps/facilitator/app.py). */
module ExecutionProjection {
  import opened Wrappers
  import opened ExecutionModels
  import opened RepositoryModel
  import opened RepositoryInvariants
  import opened RepositorySteps
  import opened HostedRelayer
  import opened HostedRelayerInvariants
  import opened HostedRelayerSafety

  // ---------------------------------------------------------------- unsigned expiry

  /** The durable columns an expired row must not have, in the order they are checked. */
  datatype DurableField =
    | SignatureField | RawTransactionField | RawTransactionHashField | UnsignedTransactionHashField
    | BroadcastAttemptsField | BroadcastedAtField | SigningClaimField | FinalityField
    | ConfirmedAtField | FinalizedAtField | RevertedAtField | ReorgField | ReleaseEvidenceField

  datatype ExpiryError =
    | Durable(field: DurableField)
    | TerminalMissing | TerminalBeforeDeadline | TerminalBeforeIssue | ExpiredAtConflicts | ReleasedAtConflicts

  function Absent(present: bool, field: DurableField): Guard<ExpiryError> {
    Check(!present, Durable(field))
  }

  /** `_unsigned_expiry_timestamp`. The receipt columns are one option in the model, as they are
      written together; so are the three reorg columns. */
  function UnsignedExpiryTimestamp(row: Execution): Result<Option<int>, ExpiryError> {
    if row.status != Expired && row.status != Released then Ok(None)
    else if row.status == Released && row.rawTransactionHash.Some? then Ok(None)
    else
      :- Absent(row.signature.Some?, SignatureField);
      :- Absent(row.rawTransaction.Some?, RawTransactionField);
      :- Absent(row.rawTransactionHash.Some?, RawTransactionHashField);
      :- Absent(row.unsignedTransactionHash.Some?, UnsignedTransactionHashField);
      :- Absent(row.broadcastAttempts != 0, BroadcastAttemptsField);
      :- Absent(row.broadcastedAt.Some?, BroadcastedAtField);
      :- Absent(row.signingExpiresAt.Some?, SigningClaimField);
      :- Absent(row.finality.Some?, FinalityField);
      :- Absent(row.confirmedAt.Some?, ConfirmedAtField);
      :- Absent(row.finalizedAt.Some?, FinalizedAtField);
      :- Absent(row.revertedAt.Some?, RevertedAtField);
      :- Absent(row.reorg.Some?, ReorgField);
      :- Absent(row.releaseEvidence.Some?, ReleaseEvidenceField);
      var terminal := if row.status == Expired then row.expiredAt else row.releasedAt;
      :- Check(terminal.Some?, TerminalMissing);
      :- Check(terminal.value >= row.intent.deadline, TerminalBeforeDeadline);
      :- Check(terminal.value >= row.createdAt, TerminalBeforeIssue);
      :- Check(row.expiredAt.None? || row.expiredAt == terminal, ExpiredAtConflicts);
      :- Check(row.releasedAt.None? || row.releasedAt == terminal, ReleasedAtConflicts);
      Ok(terminal)
  }

  /** No reachable row makes the attestation raise. It attests exactly the rows that ended unsigned,
      at the time they ended, which is at or after the deadline and after the row was created. */
  lemma ExpiryNeverRaises(policy: Policy, actions: seq<Action>, id: ExecutionId)
    requires id in Reached(policy, actions).db.records
    ensures var row := Reached(policy, actions).db.records[id].row;
            var attested := UnsignedExpiryTimestamp(row);
            && attested.Ok?
            && (attested.value.Some? <==> row.status == Expired || (row.status == Released && row.signature.None?))
            && (attested.value.Some? ==>
                && attested.value == (if row.status == Expired then row.expiredAt else row.releasedAt)
                && attested.value.value >= row.intent.deadline
                && attested.value.value > row.createdAt)
  {
    hide Run;
    ReachableRecord(policy, actions, id);
  }

  /** The row shows no trace of signing, broadcast or observation, and no open signing claim. */
  predicate Untouched(row: Execution) {
    && row.signature.None?
    && row.rawTransaction.None?
    && row.rawTransactionHash.None?
    && row.unsignedTransactionHash.None?
    && row.broadcastAttempts == 0
    && row.broadcastedAt.None?
    && row.signingExpiresAt.None?
    && row.finality.None?
    && row.confirmedAt.None?
    && row.finalizedAt.None?
    && row.revertedAt.None?
    && row.reorg.None?
    && row.releaseEvidence.None?
  }

  /** An expiry is attested exactly of a row that ended untouched, at the one time that it ended, at or after its
      deadline and its creation. */
  lemma AttestedIff(row: Execution, time: int)
    ensures UnsignedExpiryTimestamp(row) == Ok(Some(time))
            <==> && (row.status == Expired || row.status == Released)
                 && Untouched(row)
                 && Some(time) == (if row.status == Expired then row.expiredAt else row.releasedAt)
                 && time >= row.intent.deadline
                 && time >= row.createdAt
                 && (row.expiredAt.Some? ==> row.expiredAt.value == time)
                 && (row.releasedAt.Some? ==> row.releasedAt.value == time)
    ensures UnsignedExpiryTimestamp(row) == Ok(None)
            <==> row.status != Expired && (row.status == Released ==> row.rawTransactionHash.Some?)
  {
  }

  // ---------------------------------------------------------------- the response

  datatype PublicState = Preparing | Public(state: ExecutionState)

  /** `SubmissionFailure` carries the code that the response shows in upper case. */
  datatype FailureReason =
    | UnsignedExecutionExpired
    | SubmissionFailure(code: string)
    | SafeRevertRelease
    | AuthorizationExpired
    | OnchainRevert
    | ReorgDetected

  /** The fields the validator reads; the projection copies all others from the row. */
  datatype Response = Response(
    chain: Chain,
    deadline: int,
    state: PublicState,
    transactionHash: Option<TxHash>,
    receipt: Option<Finality>,
    failureReason: Option<FailureReason>,
    issuedAt: int,
    submittedAt: Option<int>,
    confirmedAt: Option<int>,
    finalizedAt: Option<int>,
    revertedAt: Option<int>,
    reorgReviewedAt: Option<int>,
    releasedAt: Option<int>,
    expiredAt: Option<int>,
    releaseEvidence: Option<ReleaseEvidence>)
  {
    /** In the order in which they must have passed. */
    function Times(): seq<Option<int>> {
      [submittedAt, confirmedAt, finalizedAt, revertedAt, reorgReviewedAt, releasedAt, expiredAt]
    }
  }

  function CodeOr(code: Option<string>, fallback: string): string {
    if code.Some? && code.value != "" then code.value else fallback
  }

  function ReviewedAt(row: Execution): Option<int> {
    if row.reorg.Some? then Some(row.reorg.value.reviewedAt) else None
  }

  // ---------------------------------------------------------------- the response's validator

  datatype ResponseError =
    | StateUnknown
    | IntegerUnsafe
    | AttestationMisplaced | EvidenceMisplaced
    | AttestationTimeMissing | AttestationBeforeDeadline | AttestationConflicts | AttestationHasEvidence
    | BoundaryConflicts | SafeBlockBehind
    | TimesUnordered
    | WatcherMissing
    | PreparingHasEvidence
    | ExpiredHasEvidence
    | HashMissing | SubmissionTimeMissing | SubmittedHasEvidence
    | ReleaseIncomplete | ReleaseBeforeDeadline | ReleaseBeforeBoundary
    | DepthInsufficient
    | ConfirmedTimeMissing | FinalizedTimeMissing | RevertedTimeMissing | ReviewTimeMissing
    | ReasonUnexpected | ReasonMissing

  type Validity = Result<(), ResponseError>

  /** The largest integer that JSON carries safely. */
  const MAX_SAFE_INTEGER: nat := 0x1F_FFFF_FFFF_FFFF

  predicate SafeInteger(n: int) {
    0 <= n <= MAX_SAFE_INTEGER
  }

  predicate SafeTime(time: Option<int>) {
    time.Some? ==> SafeInteger(time.value)
  }

  predicate SafeReceipt(receipt: Option<Finality>) {
    receipt.Some? ==>
      && SafeInteger(receipt.value.blockNumber)
      && SafeInteger(receipt.value.confirmations)
      && SafeInteger(receipt.value.safeBlockNumber)
  }

  function UpperChar(c: char): char {
    if 'a' <= c <= 'z' then c - 'a' + 'A' else c
  }

  function Upper(text: string): string {
    seq(|text|, i requires 0 <= i < |text| => UpperChar(text[i]))
  }

  /** The code reads as the attestation of an unsigned expiry. */
  predicate Attests(code: string) {
    Upper(code) == "UNSIGNED_EXECUTION_EXPIRED"
  }

  predicate IsAttestation(reason: Option<FailureReason>) {
    reason.Some? &&
    match reason.value
    case UnsignedExecutionExpired => true
    case SubmissionFailure(code) => Attests(code)
    case _ => false
  }

  predicate ShowsEvidence(r: Response) {
    || r.transactionHash.Some?
    || r.submittedAt.Some?
    || r.receipt.Some?
  }

  predicate ShowsOutcomeTime(r: Response) {
    r.confirmedAt.Some? || r.finalizedAt.Some? || r.revertedAt.Some? || r.reorgReviewedAt.Some?
  }

  predicate IsSubmission(state: PublicState) {
    state in {Public(Submitted), Public(SubmissionUnknown), Public(SubmissionRejected)}
  }

  /** The states that rest on a receipt. */
  predicate IsWatched(state: PublicState) {
    state in {Public(Confirmed), Public(Finalized), Public(Reverted), Public(Released), Public(ReorgReview)}
  }

  /** The field validators: the literal states, and integers in range. */
  function CheckFields(r: Response): Validity {
    var known := r.state == Preparing || r.state == Public(Expired) || IsSubmission(r.state) || IsWatched(r.state);
    :- Check(known, StateUnknown);
    :- Check(r.issuedAt > 0 && r.deadline > 0 && SafeInteger(r.issuedAt) && SafeInteger(r.deadline), IntegerUnsafe);
    :- Check(SafeReceipt(r.receipt), IntegerUnsafe);
    :- Check(forall i :: 0 <= i < |r.Times()| ==> SafeTime(r.Times()[i]), IntegerUnsafe);
    Ok(())
  }

  /** The attestation of an unsigned expiry shows nothing else. */
  function CheckAttestation(r: Response): Validity {
    var attests := IsAttestation(r.failureReason);
    :- Check(attests ==> r.state == Public(Expired), AttestationMisplaced);
    :- Check(r.state != Public(Released) ==> r.releaseEvidence.None?, EvidenceMisplaced);
    if !attests then Ok(()) else
      :- Check(r.expiredAt.Some?, AttestationTimeMissing);
      :- Check(r.expiredAt.value >= r.deadline, AttestationBeforeDeadline);
      :- Check(r.releasedAt.Some? ==> r.releasedAt == r.expiredAt, AttestationConflicts);
      :- Check(!ShowsEvidence(r) && !ShowsOutcomeTime(r), AttestationHasEvidence);
      Ok(())
  }

  function CheckReceipt(r: Response): Validity {
    if r.receipt.None? then Ok(()) else
      :- Check(r.receipt.value.boundary == Profile(r.chain).boundary, BoundaryConflicts);
      :- Check(r.receipt.value.safeBlockNumber >= r.receipt.value.blockNumber, SafeBlockBehind);
      Ok(())
  }

  /** No time before the one before it. */
  predicate InOrder(previous: int, times: seq<Option<int>>)
    decreases |times|
  {
    if times == [] then true
    else if times[0].None? then InOrder(previous, times[1..])
    else previous <= times[0].value && InOrder(times[0].value, times[1..])
  }

  function CheckDepth(r: Response): Validity
    requires r.receipt.Some?
  {
    var depth := Profile(r.chain).minConfirmationDepth;
    :- Check(r.receipt.value.confirmations >= depth, DepthInsufficient);
    Ok(())
  }

  function CheckRelease(r: Response): Validity
    requires r.receipt.Some?
  {
    var complete := r.releasedAt.Some? && r.revertedAt.Some? && r.failureReason.Some?;
    :- Check(complete, ReleaseIncomplete);
    :- Check(r.releaseEvidence.Some?, ReleaseIncomplete);
    var _ :- CheckDepth(r);
    :- Check(r.releaseEvidence.value.finalityBoundaryTimestamp >= r.deadline, ReleaseBeforeDeadline);
    :- Check(r.releaseEvidence.value.finalityBoundaryTimestamp <= r.releasedAt.value, ReleaseBeforeBoundary);
    Ok(())
  }

  /** What each state must show, and what it must not. */
  function CheckState(r: Response): Validity {
    var watched := IsWatched(r.state);
    :- Check(watched ==> r.receipt.Some?, WatcherMissing);
    if r.state == Preparing then
      :- Check(
        && !ShowsEvidence(r) && !ShowsOutcomeTime(r)
        && r.releasedAt.None? && r.expiredAt.None? && r.failureReason.None?,
        PreparingHasEvidence);
      Ok(())
    else if r.state == Public(Expired) then
      :- Check(!ShowsEvidence(r) && r.expiredAt.Some?, ExpiredHasEvidence);
      :- Check(r.failureReason.Some?, ReasonMissing);
      Ok(())
    else
      :- Check(r.transactionHash.Some?, HashMissing);
      :- Check(r.submittedAt.Some?, SubmissionTimeMissing);
      var _ :- CheckOutcome(r);
      :- Check(
        r.state in {Public(Submitted), Public(SubmissionUnknown), Public(Confirmed), Public(Finalized)} ==>
          r.failureReason.None?,
        ReasonUnexpected);
      :- Check(
        r.state in {Public(SubmissionRejected), Public(Reverted), Public(Released), Public(ReorgReview)} ==>
          r.failureReason.Some?,
        ReasonMissing);
      Ok(())
  }

  function CheckOutcome(r: Response): Validity
    requires IsWatched(r.state) ==> r.receipt.Some?
  {
    if IsSubmission(r.state) then
      :- Check(
        r.receipt.None? && !ShowsOutcomeTime(r) && r.releasedAt.None? && r.expiredAt.None?, SubmittedHasEvidence);
      :- Check(r.state == Public(SubmissionRejected) ==> r.failureReason.Some?, ReasonMissing);
      Ok(())
    else if r.state == Public(Released) then
      CheckRelease(r)
    else if r.state == Public(Confirmed) then
      :- Check(r.confirmedAt.Some?, ConfirmedTimeMissing);
      :- Check(r.receipt.value.confirmations >= 1, DepthInsufficient);
      Ok(())
    else if r.state == Public(Finalized) then
      :- Check(r.confirmedAt.Some?, ConfirmedTimeMissing);
      :- Check(r.finalizedAt.Some?, FinalizedTimeMissing);
      CheckDepth(r)
    else if r.state == Public(Reverted) then
      :- Check(r.revertedAt.Some?, RevertedTimeMissing);
      CheckDepth(r)
    else
      :- Check(r.state == Public(ReorgReview) ==> r.reorgReviewedAt.Some?, ReviewTimeMissing);
      Ok(())
  }

  /** The validating constructor `HostedExecutionResponse`
      (apps/core/shared/hosted_facilitator_protocol.py). */
  function ValidResponse(r: Response): Validity {
    var _ :- CheckFields(r);
    var _ :- CheckAttestation(r);
    var _ :- CheckReceipt(r);
    :- Check(InOrder(r.issuedAt, r.Times()), TimesUnordered);
    CheckState(r)
  }

  /** Base settles on the safe block at depth 2, Polygon on the finalized block at depth 3. */
  predicate OnBase(chain: Chain) {
    chain == Base || chain == BaseSepolia
  }

  predicate NoReceipt(r: Response) {
    && r.receipt.None?
    && r.confirmedAt.None?
    && r.finalizedAt.None?
    && r.revertedAt.None?
    && r.reorgReviewedAt.None?
  }

  predicate IsDeep(r: Response) {
    r.receipt.Some? && r.receipt.value.confirmations >= if OnBase(r.chain) then 2 else 3
  }

  /** What a response in each public state must show, and what it must not. */
  predicate StateHolds(r: Response) {
    var sent := r.transactionHash.Some? && r.submittedAt.Some?;
    match r.state
    case Preparing =>
      && r.transactionHash.None? && r.submittedAt.None? && NoReceipt(r) && r.releasedAt.None? && r.expiredAt.None?
      && r.failureReason.None?
    case Public(state) =>
      match state
      case Expired =>
        && r.transactionHash.None? && r.submittedAt.None? && r.receipt.None? && r.expiredAt.Some?
        && r.failureReason.Some?
        && (IsAttestation(r.failureReason) ==>
            && NoReceipt(r)
            && r.expiredAt.value >= r.deadline
            && (r.releasedAt.Some? ==> r.releasedAt == r.expiredAt))
      case Submitted => sent && NoReceipt(r) && r.releasedAt.None? && r.expiredAt.None? && r.failureReason.None?
      case SubmissionUnknown => sent && NoReceipt(r) && r.releasedAt.None? && r.expiredAt.None? && r.failureReason.None?
      case SubmissionRejected => sent && NoReceipt(r) && r.releasedAt.None? && r.expiredAt.None? && r.failureReason.Some?
      case Confirmed =>
        && sent && r.receipt.Some? && r.receipt.value.confirmations >= 1 && r.confirmedAt.Some? && r.failureReason.None?
      case Finalized => sent && IsDeep(r) && r.confirmedAt.Some? && r.finalizedAt.Some? && r.failureReason.None?
      case Reverted => sent && IsDeep(r) && r.revertedAt.Some? && r.failureReason.Some?
      case Released =>
        && sent && IsDeep(r) && r.revertedAt.Some? && r.releasedAt.Some? && r.failureReason.Some?
        && r.releaseEvidence.Some?
        && r.deadline <= r.releaseEvidence.value.finalityBoundaryTimestamp <= r.releasedAt.value
      case ReorgReview => sent && r.receipt.Some? && r.reorgReviewedAt.Some? && r.failureReason.Some?
      case _ => false
  }

  /** No integer that JSON cannot carry, no receipt of another chain's finality, times in order, an attestation only
      of an expiry and release evidence only of a release. */
  predicate Showable(r: Response) {
    && 0 < r.issuedAt <= 9_007_199_254_740_991
    && 0 < r.deadline <= 9_007_199_254_740_991
    && (forall i :: 0 <= i < |r.Times()| && r.Times()[i].Some? ==> 0 <= r.Times()[i].value <= 9_007_199_254_740_991)
    && (r.receipt.Some? ==>
        && r.receipt.value.blockNumber <= r.receipt.value.safeBlockNumber <= 9_007_199_254_740_991
        && r.receipt.value.confirmations <= 9_007_199_254_740_991
        && r.receipt.value.boundary == if OnBase(r.chain) then SafeBoundary else FinalizedBoundary)
    && InOrder(r.issuedAt, r.Times())
    && (IsAttestation(r.failureReason) ==> r.state == Public(Expired))
    && (r.releaseEvidence.Some? ==> r.state == Public(Released))
    && StateHolds(r)
  }

  /** The validator accepts exactly the responses that can be shown. */
  lemma AcceptedIff(r: Response)
    ensures ValidResponse(r).Ok? <==> Showable(r)
  {
    hide InOrder, IsAttestation;
  }

  /** The validator's loop over the times. */
  method TimesOrdered(issuedAt: int, times: seq<Option<int>>) returns (ordered: bool)
    ensures ordered <==> InOrder(issuedAt, times)
  {
    var previous, i := issuedAt, 0;
    while i < |times|
      invariant 0 <= i <= |times|
      invariant InOrder(issuedAt, times) <==> InOrder(previous, times[i..])
    {
      if times[i].Some? {
        if times[i].value < previous {
          return false;
        }
        previous := times[i].value;
      }
      i := i + 1;
    }
    return true;
  }

  /** Which is: none before the start, and no later one before an earlier one. */
  lemma {:induction false} InOrderPairwise(start: int, times: seq<Option<int>>)
    ensures InOrder(start, times) <==>
            && (forall i :: 0 <= i < |times| && times[i].Some? ==> start <= times[i].value)
            && (forall i, j :: 0 <= i < j < |times| && times[i].Some? && times[j].Some? ==>
                  times[i].value <= times[j].value)
    decreases |times|
  {
    if times != [] {
      var rest := times[1..];
      InOrderPairwise(if times[0].Some? then times[0].value else start, rest);
      assert forall i :: 0 <= i < |rest| ==> rest[i] == times[i + 1];
      assert forall i :: 1 <= i < |times| ==> times[i] == rest[i - 1];
    }
  }

  method Validate(r: Response) returns (validity: Validity)
    ensures validity == ValidResponse(r)
  {
    hide InOrder, CheckFields, CheckAttestation, CheckReceipt, CheckState;
    validity := CheckFields(r);
    if validity.Err? {
      return;
    }
    validity := CheckAttestation(r);
    if validity.Err? {
      return;
    }
    validity := CheckReceipt(r);
    if validity.Err? {
      return;
    }
    var ordered := TimesOrdered(r.issuedAt, r.Times());
    if !ordered {
      return Err(TimesUnordered);
    }
    return CheckState(r);
  }

  // ---------------------------------------------------------------- the projection

  datatype ProjectionError =
    | Attestation(cause: ExpiryError)
    | ReleaseEvidenceInvalid
    | Invalid(error: ResponseError)

  /** `HostedRevertReleaseEvidence.model_validate`. */
  predicate EvidenceValid(evidence: Option<ReleaseEvidence>) {
    && evidence.Some?
    && evidence.value.ProvesNoTransfer()
    && evidence.value.finalityBoundaryTimestamp <= MAX_SAFE_INTEGER
  }

  predicate NeedsEvidence(row: Execution) {
    row.status == Released && row.rawTransactionHash.Some?
  }

  /** What the projection of a row is: its error, or the response it describes if that is valid. */
  ghost predicate IsProjection(row: Execution, result: Result<Response, ProjectionError>) {
    match UnsignedExpiryTimestamp(row)
    case Err(error) => result == Err(Attestation(error))
    case Ok(attested) =>
      if NeedsEvidence(row) && !EvidenceValid(row.releaseEvidence) then result == Err(ReleaseEvidenceInvalid)
      else exists response :: Projects(row, attested, response) && IsValidated(response, result)
  }

  predicate IsValidated(response: Response, result: Result<Response, ProjectionError>) {
    match ValidResponse(response)
    case Ok(_) => result == Ok(response)
    case Err(error) => result == Err(Invalid(error))
  }

  /** `_execution_projection`. */
  method ProjectExecution(row: Execution) returns (result: Result<Response, ProjectionError>)
    ensures IsProjection(row, result)
  {
    hide UnsignedExpiryTimestamp, ValidResponse, EvidenceValid;
    var expiry := UnsignedExpiryTimestamp(row);
    if expiry.Err? {
      return Err(Attestation(expiry.error));
    }
    var unsignedExpiryAt := expiry.value;
    var publicState := Public(row.status);
    if row.status == PreflightApproved || row.status == Signing || row.status == Signed {
      publicState := Preparing;
    } else if unsignedExpiryAt.Some? {
      publicState := Public(Expired);
    }
    var failureReason := None;
    if unsignedExpiryAt.Some? {
      failureReason := Some(UnsignedExecutionExpired);
    } else if row.status == SubmissionRejected {
      failureReason := Some(SubmissionFailure(CodeOr(row.submissionFailureCode, "submission_rejected")));
    } else if row.status == Released {
      if row.rawTransactionHash.Some? {
        failureReason := Some(SafeRevertRelease);
      } else {
        failureReason := Some(SubmissionFailure(CodeOr(row.submissionFailureCode, "authorization_expired")));
      }
    } else if row.status == Expired {
      failureReason := Some(AuthorizationExpired);
    } else if row.status == Reverted {
      failureReason := Some(OnchainRevert);
    } else if row.status == ReorgReview {
      failureReason := Some(ReorgDetected);
    }
    var transactionHash, submittedAt := row.rawTransactionHash, row.broadcastedAt;
    if publicState == Preparing || publicState == Public(Expired) {
      transactionHash, submittedAt := None, None;
    }
    var releaseEvidence := None;
    if row.status == Released && row.rawTransactionHash.Some? {
      if !EvidenceValid(row.releaseEvidence) {
        return Err(ReleaseEvidenceInvalid);
      }
      releaseEvidence := row.releaseEvidence;
    }
    var expiredAt := unsignedExpiryAt;
    if expiredAt.None? {
      expiredAt := row.expiredAt;
      if expiredAt.None? && publicState == Public(Expired) {
        expiredAt := row.releasedAt;
      }
    }
    var response := Response(
      row.intent.chain, row.intent.deadline, publicState, transactionHash, row.finality, failureReason, row.createdAt,
      submittedAt, row.confirmedAt, row.finalizedAt, row.revertedAt, ReviewedAt(row), row.releasedAt, expiredAt,
      releaseEvidence);
    assert Projects(row, unsignedExpiryAt, response);
    var valid := Validate(response);
    if valid.Err? {
      return Err(Invalid(valid.error));
    }
    return Ok(response);
  }

  /** What a caller may read off a response to a row whose unsigned expiry is `attested`. */
  predicate Projects(row: Execution, attested: Option<int>, response: Response) {
    // One public state: in preparation, expired, or the row's own.
    && (response.state == Preparing <==> row.status in {PreflightApproved, Signing, Signed})
    && (response.state == Public(Expired) <==> response.state != Preparing && (attested.Some? || row.status == Expired))
    && (response.state.Public? && attested.None? ==> response.state.state == row.status)
    // Nothing of the transaction shows before a submission or after an unsigned end.
    && (response.state in {Preparing, Public(Expired)} ==> response.transactionHash.None? && response.submittedAt.None?)
    && (response.state !in {Preparing, Public(Expired)} ==>
        response.transactionHash == row.rawTransactionHash && response.submittedAt == row.broadcastedAt)
    // A reason exactly for the outcomes that did not pay.
    && (response.failureReason.Some? <==>
        attested.Some? || row.status in {SubmissionRejected, Released, Expired, Reverted, ReorgReview})
    && (response.failureReason == Some(UnsignedExecutionExpired) <==> attested.Some?)
    && (response.failureReason == Some(SafeRevertRelease) <==>
        attested.None? && row.status == Released && row.rawTransactionHash.Some?)
    && (response.failureReason == Some(OnchainRevert) <==> attested.None? && row.status == Reverted)
    && (response.failureReason == Some(ReorgDetected) <==> attested.None? && row.status == ReorgReview)
    && (response.failureReason == Some(AuthorizationExpired) <==> attested.None? && row.status == Expired)
    && (attested.None? && row.status == SubmissionRejected ==>
        response.failureReason == Some(SubmissionFailure(CodeOr(row.submissionFailureCode, "submission_rejected"))))
    && (attested.None? && row.status == Released && row.rawTransactionHash.None? ==>
        response.failureReason == Some(SubmissionFailure(CodeOr(row.submissionFailureCode, "authorization_expired"))))
    // The time of expiry, and the evidence of a safe release.
    && (attested.Some? ==> response.expiredAt == attested)
    && (attested.None? && row.status != Expired ==> response.expiredAt == row.expiredAt)
    && (attested.None? && row.status == Expired ==>
        response.expiredAt == if row.expiredAt.Some? then row.expiredAt else row.releasedAt)
    && response.releaseEvidence == (if NeedsEvidence(row) then row.releaseEvidence else None)
    && Copies(row, response)
  }

  /** The columns that are shown as they are. */
  predicate Copies(row: Execution, response: Response) {
    && response.chain == row.intent.chain
    && response.deadline == row.intent.deadline
    && response.receipt == row.finality
    && response.issuedAt == row.createdAt
    && response.confirmedAt == row.confirmedAt
    && response.finalizedAt == row.finalizedAt
    && response.revertedAt == row.revertedAt
    && response.reorgReviewedAt == ReviewedAt(row)
    && response.releasedAt == row.releasedAt
  }

  /** The clauses leave one response. */
  lemma ResponseIsDetermined(row: Execution, attested: Option<int>, a: Response, b: Response)
    requires Projects(row, attested, a) && Projects(row, attested, b)
    ensures a == b
  {
  }

  /** And so one projection. */
  lemma ProjectionIsDetermined(row: Execution, a: Result<Response, ProjectionError>, b: Result<Response, ProjectionError>)
    requires IsProjection(row, a) && IsProjection(row, b)
    ensures a == b
  {
    hide UnsignedExpiryTimestamp, ValidResponse, EvidenceValid, Projects;
    var attested := UnsignedExpiryTimestamp(row);
    if attested.Ok? && (NeedsEvidence(row) ==> EvidenceValid(row.releaseEvidence)) {
      var x :| Projects(row, attested.value, x) && IsValidated(x, a);
      var y :| Projects(row, attested.value, y) && IsValidated(y, b);
      ResponseIsDetermined(row, attested.value, x, y);
    }
  }
}
