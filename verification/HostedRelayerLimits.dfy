/** The operator's fee limits, over every run of relayers that are configured with them. */
module HostedRelayerLimits {
  import opened Wrappers
  import opened PilotGate
  import opened ExecutionModels
  import opened RepositoryModel
  import opened RepositorySteps
  import opened RepositoryWriting
  import opened HostedRelayer
  import opened HostedRelayerCalls
  import opened HostedRelayerFrames
  import opened HostedRelayerSafety

  predicate FeesWithin(limits: RelayerLimits, gasLimit: nat, maxFee: nat, priority: nat) {
    && gasLimit <= limits.maxGasLimit
    && priority <= maxFee <= limits.maxFeePerGasWei
    && priority <= limits.maxPriorityFeePerGasWei
    && (limits.maxTotalFeeWei.Some? ==> gasLimit * maxFee <= limits.maxTotalFeeWei.value)
  }

  predicate TransactionWithin(limits: RelayerLimits, transaction: UnsignedTransaction) {
    FeesWithin(limits, transaction.gasLimit, transaction.fees.maxFee, transaction.fees.priority)
  }

  predicate BytesWithin(limits: RelayerLimits, raw: RawTransaction) {
    FeesWithin(limits, raw.gasLimit, raw.maxFeePerGas, raw.maxPriorityFeePerGas)
  }

  /** A worker under these limits carries no transaction beyond them. */
  predicate WorkerWithin(limits: RelayerLimits, worker: Worker) {
    match worker
    case Allocating(_, own, _) => own == limits
    case Deciding(_, _, own, _) => own == limits
    case Quoting(_, _, own) => own == limits
    case Reserving(_, _, transaction, _) => TransactionWithin(limits, transaction)
    case Persisting(_, _, transaction) => TransactionWithin(limits, transaction)
    case _ => true
  }

  predicate TablesWithin(limits: RelayerLimits, db: Db) {
    forall id :: id in db.records && db.records[id].row.rawTransaction.Some? ==>
      BytesWithin(limits, db.records[id].row.rawTransaction.value)
  }

  predicate SystemWithin(limits: RelayerLimits, s: System) {
    && TablesWithin(limits, s.db)
    && forall w :: w in s.workers ==> WorkerWithin(limits, s.workers[w])
  }

  /** Every `execute` of the run is by a relayer with these limits. */
  predicate Configured(limits: RelayerLimits, action: Action) {
    action.Work? && action.input.StartExecute? ==> action.input.limits == limits
  }

  /** Under a total limit a signer goes on exactly when gas and fees were quoted and their product, with the fees that
      are not in the transaction, is within it; without one, exactly when they were quoted. */
  lemma QuoteGoesOnIff(policy: Policy, db: Db, worker: Worker, input: Input)
    requires worker.Quoting? && input.Quote?
    ensures var next := WorkerMove(policy, db, worker, input).worker;
            var gasLimit := GasLimit(worker.limits, input.estimate);
            var fees := FeeQuote(worker.limits, input.priority, input.gasPrice);
            var total := if gasLimit.Some? && fees.Some? then gasLimit.value * fees.value.maxFee + input.additional else 0;
            && (next.Reserving? <==>
                && gasLimit.Some?
                && fees.Some?
                && (worker.limits.maxTotalFeeWei.Some? ==> total <= worker.limits.maxTotalFeeWei.value))
            && (next.Reserving? ==>
                && next.id == worker.id
                && next.row == worker.row
                && next.transaction.gasLimit == gasLimit.value
                && next.transaction.fees == fees.value
                && next.transaction.nonce == worker.row.relayerNonce
                && next.transaction.authorization == worker.row.intent
                && next.totalFee == (if worker.limits.maxTotalFeeWei.Some? then Some(total) else None))
            && (!next.Reserving? ==> next.Idle?)
  {
  }

  /** What the signer reserves is the least number of micro-units that covers its spend at the price ceiling: the
      total with the further fees if a total is limited, else gas limit times fee. */
  lemma ReservedChargeIs(policy: PilotGatePolicy, worker: Worker, now: int)
    requires worker.Reserving?
    ensures var call := WorkerCall(Some(policy), worker, ReserveAt(now));
            var wei := if worker.totalFee.Some? then worker.totalFee.value
                       else worker.transaction.gasLimit * worker.transaction.fees.maxFee;
            var spend := wei * policy.nativeAssetUsdPriceCeilingMicros;
            call != Nothing ==>
              && call.Writes?
              && call.id == worker.id
              && call.call.ReservesGas?
              && call.call.generation == worker.row.signingGeneration
              && (call.call.cost - 1) * 1_000_000_000_000_000_000 < spend <= call.call.cost * 1_000_000_000_000_000_000
  {
    hide WorstCaseGasUsdMicros;
  }

  lemma QuoteWithin(limits: RelayerLimits, db: Db, worker: Worker, input: Input)
    requires worker.Quoting? && worker.limits == limits && input.Quote?
    ensures WorkerWithin(
              limits,
              QuoteStep(
                db, worker, input.estimate, input.priority, input.gasPrice, input.additional, input.executionSignature).worker)
  {
  }

  lemma WorkerStaysWithin(policy: Policy, limits: RelayerLimits, db: Db, worker: Worker, input: Input)
    requires WorkerWithin(limits, worker)
    requires input.StartExecute? ==> input.limits == limits
    ensures WorkerWithin(limits, WorkerMove(policy, db, worker, input).worker)
  {
    hide TransactionWithin, QuoteStep, GasCharge, FindForIntent, AllocateOrReturn, ClaimSigning, ReservePilotGas,
         PersistSigned, ClaimSubmission, RebroadcastRaw, MarkSubmissionUnknown, ReleaseExpired;
    if worker.Quoting? && input.Quote? {
      QuoteWithin(limits, db, worker, input);
    }
  }

  lemma BytesStayWithin(limits: RelayerLimits, before: Db, after: Db, signed: Option<RawTransaction>)
    requires TablesWithin(limits, before) && BytesFrom(before, after, signed)
    requires signed.Some? ==> BytesWithin(limits, signed.value)
    ensures TablesWithin(limits, after)
  {
    hide BytesWithin;
  }

  lemma SignedWithin(limits: RelayerLimits, worker: Worker, input: Input)
    requires WorkerWithin(limits, worker)
    ensures SignedBytes(worker, input).Some? ==> BytesWithin(limits, SignedBytes(worker, input).value)
  {
    hide FeesWithin;
  }

  lemma StepStaysWithin(policy: Policy, limits: RelayerLimits, s: System, action: Action)
    requires SystemWithin(limits, s) && Configured(limits, action)
    ensures SystemWithin(limits, Step(policy, s, action))
  {
    hide TablesWithin, BytesFrom, StampsKept, NextNoncesGrow, WorkerWithin, SignedBytes, BytesWithin;
    StepKeepsFrame(policy, s, action);
    IdleWithin(limits);
    match action
    case Work(w, input) =>
      SignedWithin(limits, WorkerAt(s, w), input);
      WorkerStaysWithin(policy, limits, s.db, WorkerAt(s, w), input);
      hide WorkerMove;
      BytesStayWithin(limits, s.db, Step(policy, s, action).db, SignedBy(s, action));
    case Environment(_) =>
      hide CallResult;
      BytesStayWithin(limits, s.db, Step(policy, s, action).db, SignedBy(s, action));
  }

  lemma IdleWithin(limits: RelayerLimits)
    ensures WorkerWithin(limits, Idle)
  {
  }

  lemma {:induction false} RunStaysWithin(policy: Policy, limits: RelayerLimits, s: System, actions: seq<Action>)
    requires SystemWithin(limits, s)
    requires forall k :: 0 <= k < |actions| ==> Configured(limits, actions[k])
    ensures SystemWithin(limits, Run(policy, s, actions))
    decreases |actions|
  {
    hide SystemWithin, Step, Configured;
    if actions != [] {
      StepStaysWithin(policy, limits, s, actions[0]);
      RunStaysWithin(policy, limits, Step(policy, s, actions[0]), actions[1..]);
    }
  }

  /** Whatever is persisted or sent keeps the operator's limits on gas, fee, priority fee and total fee. */
  lemma OperatorLimitsHold(policy: Policy, limits: RelayerLimits, actions: seq<Action>)
    requires forall k :: 0 <= k < |actions| ==> Configured(limits, actions[k])
    ensures TablesWithin(limits, Reached(policy, actions).db)
    ensures forall k :: 0 <= k < |Reached(policy, actions).wire| ==> BytesWithin(limits, Reached(policy, actions).wire[k].raw)
  {
    hide Run, Configured, BytesWithin;
    InitialWithin(limits);
    RunStaysWithin(policy, limits, INITIAL, actions);
    forall k | 0 <= k < |Reached(policy, actions).wire|
      ensures BytesWithin(limits, Reached(policy, actions).wire[k].raw)
    {
      OnlyJournaledBytesAreSent(policy, actions, k);
    }
  }

  lemma InitialWithin(limits: RelayerLimits)
    ensures SystemWithin(limits, INITIAL)
  {
  }
}
