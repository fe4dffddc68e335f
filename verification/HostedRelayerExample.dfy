/** One payment from end to end, for any intent and any policy that can afford it: the runs the
    safety theorems speak about include paying ones, and ones that reach the `transition` gap. */
module HostedRelayerExample {
  import opened Wrappers
  import opened Sums
  import opened PilotGate
  import opened ExecutionModels
  import opened RepositoryModel
  import opened RepositoryInvariants
  import opened RepositorySteps
  import opened HostedRelayer
  import opened HostedRelayerSteps
  import opened HostedRelayerSafety

  const LIMITS := RelayerLimits(2, 2, 1, None)
  const SIGNATURE := Signature(1)
  const FEES := Fees(0, 2)

  predicate Affordable(policy: PilotGatePolicy, intent: ExecutionIntent) {
    && intent.deadline > 1
    && var cost := WorstCaseGasUsdMicros(2, 2, policy.nativeAssetUsdPriceCeilingMicros);
       cost.Ok? && cost.value <= policy.maxGasUsdMicrosPerNodeUtcDay && cost.value <= policy.maxGasUsdMicrosPlatformUtcDay
  }

  function Cost(policy: PilotGatePolicy): nat
    requires WorstCaseGasUsdMicros(2, 2, policy.nativeAssetUsdPriceCeilingMicros).Ok?
  {
    WorstCaseGasUsdMicros(2, 2, policy.nativeAssetUsdPriceCeilingMicros).value
  }

  function Sole(id: ExecutionId, record: Record): Db {
    Db(map[id := record], map[record.row.intent.Key() := 1], map[])
  }

  function Unsent(intent: ExecutionIntent): UnsignedTransaction {
    UnsignedTransaction(0, FEES, 2, intent, SIGNATURE)
  }

  function Bytes(intent: ExecutionIntent): RawTransaction {
    Sign(Unsent(intent), SIGNATURE)
  }

  // ---------------------------------------------------------------- the record, step by step

  function Allocated(policy: PilotGatePolicy, intent: ExecutionIntent): Record {
    NewRecord(Some(policy), intent, 0, 1)
  }

  function Leased(policy: PilotGatePolicy, intent: ExecutionIntent): Record {
    var r := Allocated(policy, intent);
    r.(row := Lease(r.row, 1))
  }

  function ChargedRecord(policy: PilotGatePolicy, intent: ExecutionIntent): Record
    requires Affordable(policy, intent)
  {
    var r := Leased(policy, intent);
    r.(gate := Some(r.gate.value.(gasCost := Cost(policy), gasDay := Some(0))))
  }

  function SignedRecord(policy: PilotGatePolicy, intent: ExecutionIntent): Record
    requires Affordable(policy, intent)
  {
    SignRecord(ChargedRecord(policy, intent), SIGNATURE, Bytes(intent), Some(""), 1)
  }

  function ClaimedRecord(policy: PilotGatePolicy, intent: ExecutionIntent): Record
    requires Affordable(policy, intent)
  {
    var r := SignedRecord(policy, intent);
    CountBroadcast(r.(row := r.row.(status := SubmissionUnknown)), BroadcastClaimed, 1)
  }

  function SubmittedRecord(policy: PilotGatePolicy, intent: ExecutionIntent): Record
    requires Affordable(policy, intent)
  {
    var r := ClaimedRecord(policy, intent);
    r.(row := r.row.(status := Submitted, submissionFailureCode := None))
  }

  function Seen(chain: Chain): Finality {
    Finality(1, 0, "", 3, 0, "safe", "", Profile(chain).boundary)
  }

  function ConfirmedRecord(policy: PilotGatePolicy, intent: ExecutionIntent): Record
    requires Affordable(policy, intent)
  {
    Observe(SubmittedRecord(policy, intent), Confirmed, Seen(intent.chain), "", 1)
  }

  // ---------------------------------------------------------------- the run

  /** Worker 0 is at `worker`, and the only execution is `record`. */
  function At(
    id: ExecutionId, record: Record, worker: Worker, wire: seq<Sent>, claims: seq<ExecutionId>,
    leases: seq<LeaseSpan>): System
  {
    System(Sole(id, record), map[0 := worker], wire, claims, leases)
  }

  function Lent(intent: ExecutionIntent, id: ExecutionId): LeaseSpan {
    LeaseSpan(id, 1, 1, LeaseEnd(intent.deadline, 1))
  }

  function OnWire(intent: ExecutionIntent, id: ExecutionId): Sent {
    Sent(id, Bytes(intent), 1, 1, false)
  }

  lemma AllocationStep(policy: PilotGatePolicy, intent: ExecutionIntent, id: ExecutionId)
    requires Affordable(policy, intent)
    ensures var started := Step(Some(policy), INITIAL, Work(0, StartExecute(intent, LIMITS, true, 1)));
            && started == System(EMPTY_DB, map[0 := Allocating(intent, LIMITS, 1)], [], [], [])
            && Step(Some(policy), started, Work(0, Allocate(0, 0, id)))
               == At(id, Allocated(policy, intent), Deciding(id, Allocated(policy, intent).row, LIMITS, 1), [], [], [])
  {
    assert SharingIds(EMPTY_DB, intent) == {};
    forall measure: Measure ensures Total(EMPTY_DB.records, measure) == 0 {
      assert Weights(EMPTY_DB.records, measure) == map[];
    }
    hide Total, RecyclableNonces;
    assert AdmissionDenial(policy, EMPTY_DB, intent, 0).None?;
    assert AllocateNonce(EMPTY_DB, intent.Key(), 0, 0) == NonceChoice(0, 1);
  }

  lemma LeaseStep(policy: PilotGatePolicy, intent: ExecutionIntent, id: ExecutionId)
    requires Affordable(policy, intent)
    ensures Step(
              Some(policy),
              At(id, Allocated(policy, intent), Deciding(id, Allocated(policy, intent).row, LIMITS, 1), [], [], []),
              Work(0, Proceed))
            == At(id, Leased(policy, intent), Quoting(id, Leased(policy, intent).row, LIMITS), [], [], [Lent(intent, id)])
  {
    hide Total;
  }

  lemma QuotedStep(policy: PilotGatePolicy, intent: ExecutionIntent, id: ExecutionId)
    requires Affordable(policy, intent)
    ensures var row := Leased(policy, intent).row;
            Step(
              Some(policy), At(id, Leased(policy, intent), Quoting(id, row, LIMITS), [], [], [Lent(intent, id)]),
              Work(0, Quote(1, 0, 1, 0, SIGNATURE)))
            == At(id, Leased(policy, intent), Reserving(id, row, Unsent(intent), None), [], [], [Lent(intent, id)])
  {
    hide Total, WorstCaseGasUsdMicros, NativeSpend;
  }

  lemma ChargeStep(policy: PilotGatePolicy, intent: ExecutionIntent, id: ExecutionId)
    requires Affordable(policy, intent)
    ensures var row := Leased(policy, intent).row;
            Step(
              Some(policy),
              At(id, Leased(policy, intent), Reserving(id, row, Unsent(intent), None), [], [], [Lent(intent, id)]),
              Work(0, ReserveAt(1)))
            == At(id, ChargedRecord(policy, intent), Persisting(id, row, Unsent(intent)), [], [], [Lent(intent, id)])
  {
    var db := Sole(id, Leased(policy, intent));
    assert db.records - {id} == map[];
    forall measure: Measure ensures Total(db.records - {id}, measure) == 0 {
      assert Weights(db.records - {id}, measure) == map[];
    }
    hide Total, WorstCaseGasUsdMicros, NativeSpend;
  }

  lemma SignStep(policy: PilotGatePolicy, intent: ExecutionIntent, id: ExecutionId)
    requires Affordable(policy, intent)
    ensures Step(
              Some(policy),
              At(
                id, ChargedRecord(policy, intent), Persisting(id, Leased(policy, intent).row, Unsent(intent)),
                [], [], [Lent(intent, id)]),
              Work(0, GasSigned(SIGNATURE, "", 1)))
            == At(id, SignedRecord(policy, intent), Claiming(id, SignedRecord(policy, intent).row), [], [], [Lent(intent, id)])
  {
    hide Total, NativeSpend;
  }

  lemma SubmissionClaimStep(policy: PilotGatePolicy, intent: ExecutionIntent, id: ExecutionId)
    requires Affordable(policy, intent)
    ensures Step(
              Some(policy),
              At(id, SignedRecord(policy, intent), Claiming(id, SignedRecord(policy, intent).row), [], [], [Lent(intent, id)]),
              Work(0, ClaimAt(1)))
            == At(
                 id, ClaimedRecord(policy, intent), LookingUp(id, ClaimedRecord(policy, intent).row),
                 [], [id], [Lent(intent, id)])
  {
    hide Total, NativeSpend;
  }

  lemma LookedUpStep(policy: PilotGatePolicy, intent: ExecutionIntent, id: ExecutionId)
    requires Affordable(policy, intent)
    ensures var r, lent := ClaimedRecord(policy, intent), [Lent(intent, id)];
            Step(Some(policy), At(id, r, LookingUp(id, r.row), [], [id], lent), Work(0, Lookup(false, 1)))
            == At(id, r, Sending(id, Bytes(intent), 1, 1, false), [], [id], lent)
  {
    hide Total, NativeSpend;
  }

  lemma SentStep(policy: PilotGatePolicy, intent: ExecutionIntent, id: ExecutionId, answer: RpcAnswer)
    requires Affordable(policy, intent)
    ensures var r, lent := ClaimedRecord(policy, intent), [Lent(intent, id)];
            Step(Some(policy), At(id, r, Sending(id, Bytes(intent), 1, 1, false), [], [id], lent), Work(0, Answer(answer)))
            == At(id, r, Settling(id, Bytes(intent), 1, false, answer), [OnWire(intent, id)], [id], lent)
  {
    hide ClaimedRecord;
  }

  lemma SettledStep(policy: PilotGatePolicy, intent: ExecutionIntent, id: ExecutionId)
    requires Affordable(policy, intent)
    ensures var r, lent, answer := ClaimedRecord(policy, intent), [Lent(intent, id)], Accepted(TxHash(Bytes(intent)));
            Step(
              Some(policy), At(id, r, Settling(id, Bytes(intent), 1, false, answer), [OnWire(intent, id)], [id], lent),
              Work(0, Proceed))
            == At(id, SubmittedRecord(policy, intent), Idle, [OnWire(intent, id)], [id], lent)
  {
    hide Total, NativeSpend;
  }

  lemma ConfirmStep(policy: PilotGatePolicy, intent: ExecutionIntent, id: ExecutionId)
    requires Affordable(policy, intent)
    ensures var lent := [Lent(intent, id)];
            Step(
              Some(policy), At(id, SubmittedRecord(policy, intent), Idle, [OnWire(intent, id)], [id], lent),
              Environment(WatchConfirm(id, Seen(intent.chain), "", 1)))
            == At(id, ConfirmedRecord(policy, intent), Idle, [OnWire(intent, id)], [id], lent)
  {
    hide Total, NativeSpend;
  }

  /** Some run, by the dedicated methods only, leads from `s` to `t`. */
  ghost predicate Leads(policy: Policy, s: System, t: System) {
    exists actions :: UsesDedicatedMethods(actions) && Run(policy, s, actions) == t
  }

  lemma LeadsInOne(policy: Policy, s: System, action: Action)
    requires !(action.Environment? && Bypass(action.call))
    ensures Leads(policy, s, Step(policy, s, action))
  {
    hide Step, Bypass;
    OneStepRun(policy, s, action);
    assert UsesDedicatedMethods([action]);
  }

  lemma LeadsOn(policy: Policy, s: System, t: System, u: System)
    requires Leads(policy, s, t) && Leads(policy, t, u)
    ensures Leads(policy, s, u)
  {
    hide Run, Bypass;
    var a :| UsesDedicatedMethods(a) && Run(policy, s, a) == t;
    var b :| UsesDedicatedMethods(b) && Run(policy, t, b) == u;
    RunConcat(policy, s, a, b);
    assert UsesDedicatedMethods(a + b);
  }

  /** One more step of worker 0. */
  lemma LeadsByWork(policy: Policy, s: System, t: System, input: Input)
    requires Leads(policy, s, t)
    ensures Leads(policy, s, Step(policy, t, Work(0, input)))
  {
    hide Leads, Step;
    LeadsInOne(policy, t, Work(0, input));
    LeadsOn(policy, s, t, Step(policy, t, Work(0, input)));
  }

  function ConfirmedSystem(policy: PilotGatePolicy, intent: ExecutionIntent, id: ExecutionId): System
    requires Affordable(policy, intent)
  {
    At(id, ConfirmedRecord(policy, intent), Idle, [OnWire(intent, id)], [id], [Lent(intent, id)])
  }

  lemma PaymentIsSigned(policy: PilotGatePolicy, intent: ExecutionIntent, id: ExecutionId)
    requires Affordable(policy, intent)
    ensures Leads(
              Some(policy), INITIAL,
              At(id, SignedRecord(policy, intent), Claiming(id, SignedRecord(policy, intent).row), [], [], [Lent(intent, id)]))
  {
    hide *;
    var p, lent := Some(policy), [Lent(intent, id)];
    var row := Leased(policy, intent).row;
    LeadsInOne(p, INITIAL, Work(0, StartExecute(intent, LIMITS, true, 1)));
    AllocationStep(policy, intent, id);
    LeadsByWork(p, INITIAL, System(EMPTY_DB, map[0 := Allocating(intent, LIMITS, 1)], [], [], []), Allocate(0, 0, id));
    LeaseStep(policy, intent, id);
    LeadsByWork(
      p, INITIAL, At(id, Allocated(policy, intent), Deciding(id, Allocated(policy, intent).row, LIMITS, 1), [], [], []),
      Proceed);
    QuotedStep(policy, intent, id);
    LeadsByWork(
      p, INITIAL, At(id, Leased(policy, intent), Quoting(id, row, LIMITS), [], [], lent), Quote(1, 0, 1, 0, SIGNATURE));
    ChargeStep(policy, intent, id);
    LeadsByWork(
      p, INITIAL, At(id, Leased(policy, intent), Reserving(id, row, Unsent(intent), None), [], [], lent), ReserveAt(1));
    SignStep(policy, intent, id);
    LeadsByWork(
      p, INITIAL, At(id, ChargedRecord(policy, intent), Persisting(id, row, Unsent(intent)), [], [], lent),
      GasSigned(SIGNATURE, "", 1));
  }

  /** The worker is past its claim, and about to send. */
  lemma PaymentIsSending(policy: PilotGatePolicy, intent: ExecutionIntent, id: ExecutionId)
    requires Affordable(policy, intent)
    ensures Leads(
              Some(policy), INITIAL,
              At(id, ClaimedRecord(policy, intent), Sending(id, Bytes(intent), 1, 1, false), [], [id], [Lent(intent, id)]))
  {
    hide *;
    var p, lent, claimed := Some(policy), [Lent(intent, id)], ClaimedRecord(policy, intent);
    PaymentIsSigned(policy, intent, id);
    SubmissionClaimStep(policy, intent, id);
    LeadsByWork(
      p, INITIAL, At(id, SignedRecord(policy, intent), Claiming(id, SignedRecord(policy, intent).row), [], [], lent),
      ClaimAt(1));
    LookedUpStep(policy, intent, id);
    LeadsByWork(p, INITIAL, At(id, claimed, LookingUp(id, claimed.row), [], [id], lent), Lookup(false, 1));
  }

  /** The transaction was sent, with whatever answer. */
  lemma PaymentIsAnswered(policy: PilotGatePolicy, intent: ExecutionIntent, id: ExecutionId, answer: RpcAnswer)
    requires Affordable(policy, intent)
    ensures Leads(
              Some(policy), INITIAL,
              At(
                id, ClaimedRecord(policy, intent), Settling(id, Bytes(intent), 1, false, answer),
                [OnWire(intent, id)], [id], [Lent(intent, id)]))
  {
    hide *;
    var lent, claimed := [Lent(intent, id)], ClaimedRecord(policy, intent);
    PaymentIsSending(policy, intent, id);
    SentStep(policy, intent, id, answer);
    LeadsByWork(
      Some(policy), INITIAL, At(id, claimed, Sending(id, Bytes(intent), 1, 1, false), [], [id], lent), Answer(answer));
  }

  lemma PaymentIsConfirmed(policy: PilotGatePolicy, intent: ExecutionIntent, id: ExecutionId)
    requires Affordable(policy, intent)
    ensures Leads(Some(policy), INITIAL, ConfirmedSystem(policy, intent, id))
  {
    hide Leads, Step, At, ClaimedRecord, SubmittedRecord, ConfirmedRecord, Bytes, Lent, OnWire;
    var p, lent, wire := Some(policy), [Lent(intent, id)], [OnWire(intent, id)];
    var claimed, raw := ClaimedRecord(policy, intent), Bytes(intent);
    PaymentIsAnswered(policy, intent, id, Accepted(TxHash(raw)));
    SettledStep(policy, intent, id);
    LeadsByWork(p, INITIAL, At(id, claimed, Settling(id, raw, 1, false, Accepted(TxHash(raw))), wire, [id], lent), Proceed);
    ConfirmStep(policy, intent, id);
    var submitted := At(id, SubmittedRecord(policy, intent), Idle, wire, [id], lent);
    var seen := Environment(WatchConfirm(id, Seen(intent.chain), "", 1));
    LeadsInOne(p, submitted, seen);
    LeadsOn(p, INITIAL, submitted, Step(p, submitted, seen));
  }

  lemma LastStep(policy: PilotGatePolicy, intent: ExecutionIntent, id: ExecutionId, call: Call)
    requires Affordable(policy, intent)
    requires || call == WatchFinalize(id, Profile(intent.chain).boundary, 1)
             || call == OperatorTransition(id, Finalized, None, 1)
    ensures var t := Step(Some(policy), ConfirmedSystem(policy, intent, id), Environment(call));
            && id in t.db.records
            && t.db.records[id].row.status == Finalized
            && t.db.records[id].gate.Some?
            && t.db.records[id].gate.value.state == (if call.WatchFinalize? then RepositoryModel.Settled else Reserved)
            && t.wire == [OnWire(intent, id)]
            && t.claims == [id]
  {
    hide Total, NativeSpend;
  }

  /** Any affordable payment can run to its end: one claim, one send, finalized and settled. */
  lemma PaymentCanFinalize(policy: PilotGatePolicy, intent: ExecutionIntent, id: ExecutionId)
    requires Affordable(policy, intent)
    ensures exists actions ::
              && UsesDedicatedMethods(actions)
              && var s := Reached(Some(policy), actions);
                 && id in s.db.records
                 && s.db.records[id].row.status == Finalized
                 && s.db.records[id].gate.Some?
                 && s.db.records[id].gate.value.state == RepositoryModel.Settled
                 && s.wire == [OnWire(intent, id)]
                 && s.claims == [id]
  {
    hide Affordable, Step, Run, UsesDedicatedMethods, ConfirmedSystem, OnWire;
    var s, call := ConfirmedSystem(policy, intent, id), WatchFinalize(id, Profile(intent.chain).boundary, 1);
    PaymentIsConfirmed(policy, intent, id);
    LeadsInOne(Some(policy), s, Environment(call));
    LeadsOn(Some(policy), INITIAL, s, Step(Some(policy), s, Environment(call)));
    LastStep(policy, intent, id, call);
    var last := Step(Some(policy), s, Environment(call));
    var actions :| UsesDedicatedMethods(actions) && Run(Some(policy), INITIAL, actions) == last;
    assert Reached(Some(policy), actions) == Step(Some(policy), s, Environment(call));
  }

  /** The `transition` gap is within reach of a run: finalized, with the reservation still in flight. */
  lemma GapIsReachable(policy: PilotGatePolicy, intent: ExecutionIntent, id: ExecutionId)
    requires Affordable(policy, intent)
    ensures exists actions ::
              var s := Reached(Some(policy), actions);
              && id in s.db.records
              && s.db.records[id].row.status == Finalized
              && s.db.records[id].gate.Some?
              && s.db.records[id].gate.value.state == Reserved
  {
    hide Affordable, Step, ConfirmedSystem, UsesDedicatedMethods;
    var s, call := ConfirmedSystem(policy, intent, id), OperatorTransition(id, Finalized, None, 1);
    PaymentIsConfirmed(policy, intent, id);
    var actions :| UsesDedicatedMethods(actions) && Run(Some(policy), INITIAL, actions) == s;
    LastStep(policy, intent, id, call);
    RunConcat(Some(policy), INITIAL, actions, [Environment(call)]);
    OneStepRun(Some(policy), s, Environment(call));
    hide Run;
    assert Reached(Some(policy), actions + [Environment(call)]) == Step(Some(policy), s, Environment(call));
  }

  lemma OneStepRun(policy: Policy, s: System, action: Action)
    ensures Run(policy, s, [action]) == Step(policy, s, action)
  {
    hide Step;
    assert [action][1..] == [];
    assert Run(policy, Step(policy, s, action), []) == Step(policy, s, action);
  }
}
