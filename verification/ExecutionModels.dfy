/** Hosted execution values and the declared state table (apps/facilitator/execution_models.py). */
module ExecutionModels {
  import opened Wrappers

  datatype ExecutionState =
    | Requested
    | PreflightApproved
    | Signing
    | Signed
    | Submitted
    | SubmissionUnknown
    | SubmissionRejected
    | Confirmed
    | Finalized
    | Reverted
    | Expired
    | Released
    | ReorgReview

  /** The declared table. It is smaller than the relation the repository implements. */
  function AllowedTransitions(state: ExecutionState): set<ExecutionState> {
    match state
    case Requested => {PreflightApproved, Expired, Released}
    case PreflightApproved => {Signing, Expired, Released}
    case Signing => {Signed, Expired, Released}
    case Signed => {Submitted, SubmissionUnknown, SubmissionRejected}
    case SubmissionRejected => {Submitted, SubmissionUnknown}
    case Submitted => {SubmissionUnknown, Confirmed, Reverted}
    case SubmissionUnknown => {Confirmed, Reverted}
    case Confirmed => {Finalized}
    case Finalized => {ReorgReview}
    case Reverted => {}
    case Expired => {}
    case Released => {}
    case ReorgReview => {}
  }

  /** The five edges the repository takes beside the declared table. */
  predicate ExtraEdge(from: ExecutionState, to: ExecutionState) {
    || (from == SubmissionUnknown && to == Submitted)
    || (from == SubmissionUnknown && to == SubmissionRejected)
    || (from == SubmissionRejected && to == Confirmed)
    || (from == SubmissionRejected && to == Reverted)
    || (from == Reverted && to == Released)
  }

  predicate Edge(from: ExecutionState, to: ExecutionState) {
    to in AllowedTransitions(from) || ExtraEdge(from, to)
  }

  /** How far a payment has come; the three submission states are one phase. */
  function Phase(state: ExecutionState): nat {
    match state
    case Requested => 0
    case PreflightApproved => 1
    case Signing => 2
    case Signed => 3
    case Submitted => 4
    case SubmissionUnknown => 4
    case SubmissionRejected => 4
    case Confirmed => 5
    case Finalized => 6
    case ReorgReview => 7
    case Reverted => 8
    case Expired => 9
    case Released => 9
  }

  /** States that hold a relayer nonce: the partial unique index on active rows. */
  predicate Active(state: ExecutionState) {
    state != Expired && state != Released
  }

  predicate AwaitingReceipt(state: ExecutionState) {
    state == Submitted || state == SubmissionUnknown || state == SubmissionRejected
  }

  predicate SuccessObserved(state: ExecutionState) {
    state == Confirmed || state == Finalized || state == ReorgReview
  }

  datatype Chain = Base | Polygon | BaseSepolia | PolygonAmoy

  datatype FinalityBoundary = SafeBoundary | FinalizedBoundary

  datatype ChainProfile = ChainProfile(boundary: FinalityBoundary, minConfirmationDepth: nat)

  function Profile(chain: Chain): ChainProfile {
    match chain
    case Base => ChainProfile(SafeBoundary, 2)
    case BaseSepolia => ChainProfile(SafeBoundary, 2)
    case Polygon => ChainProfile(FinalizedBoundary, 3)
    case PolygonAmoy => ChainProfile(FinalizedBoundary, 3)
  }

  /** A relayer address on one chain: the owner of one nonce sequence. */
  datatype NonceKey = NonceKey(chain: Chain, relayer: string)

  /** The Core-bound scope of one payment. `scope` stands for the remaining fields of
      the canonical payload (payee, token, amount, owner nonce, hashes and so on), which
      the repository stores and compares but never inspects. */
  datatype ExecutionIntent = ExecutionIntent(
    tenantId: string,
    nodeId: string,
    capabilityId: string,
    reservationId: string,
    purchaseId: string,
    idempotencyKey: string,
    chain: Chain,
    relayerAddress: string,
    deadline: int,
    scope: string)
  {
    function Key(): NonceKey {
      NonceKey(chain, relayerAddress)
    }

    predicate Valid() {
      deadline > 0
    }
  }

  datatype Signature = Signature(scalar: nat)

  /** A signed EIP-1559 transaction. The record itself stands for its encoding. */
  datatype RawTransaction = RawTransaction(
    nonce: nat,
    maxPriorityFeePerGas: nat,
    maxFeePerGas: nat,
    gasLimit: nat,
    authorization: ExecutionIntent,
    executionSignature: Signature,
    gasSignature: Signature)

  /** Transaction hashes are collision free. */
  datatype TxHash = TxHash(preimage: RawTransaction)

  /** The receipt and finality columns, which the repository writes together. */
  datatype Finality = Finality(
    receiptStatus: int,
    blockNumber: nat,
    blockHash: string,
    confirmations: nat,
    safeBlockNumber: nat,
    safeBlockHash: string,
    watcherVersion: string,
    boundary: FinalityBoundary)
  {
    /** The bounded part of `_require_finality_boundary` for one chain. */
    predicate DeepEnough(chain: Chain) {
      && boundary == Profile(chain).boundary
      && confirmations >= Profile(chain).minConfirmationDepth
      && safeBlockNumber >= blockNumber
      && safeBlockHash != ""
    }

    predicate SameReceipt(other: Finality) {
      && receiptStatus == other.receiptStatus
      && blockNumber == other.blockNumber
      && blockHash == other.blockHash
      && watcherVersion == other.watcherVersion
      && boundary == other.boundary
    }
  }

  datatype ReleaseEvidence = ReleaseEvidence(
    receiptStatus: int,
    canonicalReceipt: bool,
    finalityBoundaryTimestamp: int,
    capabilityUsed: bool,
    ownerNonceUsed: bool,
    paymentEventFound: bool,
    transferEventFound: bool)
  {
    predicate ProvesNoTransfer() {
      && receiptStatus == 0
      && canonicalReceipt
      && !capabilityUsed
      && !ownerNonceUsed
      && !paymentEventFound
      && !transferEventFound
      && finalityBoundaryTimestamp > 0
    }
  }

  datatype ReorgRecord = ReorgRecord(evidence: string, reviewedAt: int)

  /** One row of `hosted_executions`. */
  datatype Execution = Execution(
    intent: ExecutionIntent,
    relayerNonce: nat,
    status: ExecutionState,
    signingGeneration: nat,
    signingExpiresAt: Option<int>,
    signature: Option<Signature>,
    rawTransaction: Option<RawTransaction>,
    rawTransactionHash: Option<TxHash>,
    unsignedTransactionHash: Option<string>,
    broadcastAttempts: nat,
    broadcastedAt: Option<int>,
    submissionFailureCode: Option<string>,
    finality: Option<Finality>,
    releaseEvidence: Option<ReleaseEvidence>,
    reorg: Option<ReorgRecord>,
    confirmedAt: Option<int>,
    finalizedAt: Option<int>,
    revertedAt: Option<int>,
    releasedAt: Option<int>,
    expiredAt: Option<int>,
    watcherAttemptedAt: Option<int>,
    createdAt: int)
  {
    predicate TimesPositive() {
      && createdAt > 0
      && (broadcastedAt.Some? ==> broadcastedAt.value > 0)
      && (confirmedAt.Some? ==> confirmedAt.value > 0)
      && (finalizedAt.Some? ==> finalizedAt.value > 0)
      && (revertedAt.Some? ==> revertedAt.value > 0)
      && (releasedAt.Some? ==> releasedAt.value > 0)
      && (expiredAt.Some? ==> expiredAt.value > 0)
      && (reorg.Some? ==> reorg.value.reviewedAt > 0)
    }
  }
}
