/** What the pilot gate's aggregates add up, in the columns themselves. */
module RepositoryQuotas {
  import opened Wrappers
  import opened Sums
  import opened PilotGate
  import opened ExecutionModels
  import opened RepositoryModel
  import opened RepositoryInvariants

  type Records = map<ExecutionId, Record>

  predicate OfNode(record: Record, tenantId: string, nodeId: string) {
    record.row.intent.tenantId == tenantId && record.row.intent.nodeId == nodeId
  }

  /** Reservations of the node that are neither settled nor released. */
  function InFlight(records: Records, tenantId: string, nodeId: string): set<ExecutionId> {
    set id | && id in records && OfNode(records[id], tenantId, nodeId)
             && records[id].gate.Some? && records[id].gate.value.state == Reserved
  }

  /** Executions of the node that were allocated on the day. */
  function AcceptedOn(records: Records, tenantId: string, nodeId: string, day: nat): set<ExecutionId> {
    set id | && id in records && OfNode(records[id], tenantId, nodeId)
             && records[id].gate.Some? && records[id].row.createdAt / 86_400 == day
  }

  /** All executions of the node, whatever became of them. */
  function AcceptedEver(records: Records, tenantId: string, nodeId: string): set<ExecutionId> {
    set id | id in records && OfNode(records[id], tenantId, nodeId) && records[id].gate.Some?
  }

  /** The executions whose gas is charged to the day, whatever became of them. */
  function ChargedOn(records: Records, day: nat): set<ExecutionId> {
    set id | id in records && records[id].gate.Some? && records[id].gate.value.gasDay == Some(day)
  }

  function NodeChargedOn(records: Records, tenantId: string, nodeId: string, day: nat): set<ExecutionId> {
    set id | id in ChargedOn(records, day) && OfNode(records[id], tenantId, nodeId)
  }

  /** What each of them is charged. */
  function Charges(records: Records, ids: set<ExecutionId>): map<ExecutionId, int> {
    map id | id in ids && id in records && records[id].gate.Some? :: records[id].gate.value.gasCost
  }

  /** Every aggregate, over rows whose reservation is their node's own: two counts and a sum. */
  lemma TotalIs(policy: Policy, records: Records, measure: Measure)
    requires forall id :: id in records ==> RecordInv(policy, records[id])
    ensures match measure
            case NodeInFlight(t, n) => Total(records, measure) == |InFlight(records, t, n)|
            case NodeAcceptedOn(t, n, day) => Total(records, measure) == |AcceptedOn(records, t, n, day)|
            case NodeAcceptedEver(t, n) => Total(records, measure) == |AcceptedEver(records, t, n)|
            case NodeGasOn(t, n, day) => Total(records, measure) == Sum(Charges(records, NodeChargedOn(records, t, n, day)))
            case PlatformGasOn(day) => Total(records, measure) == Sum(Charges(records, ChargedOn(records, day)))
  {
    hide RecordInv, Sum;
    var weights := Weights(records, measure);
    forall id | id in records && records[id].gate.Some?
      ensures Scoped(records[id].gate.value, records[id].row.intent.tenantId, records[id].row.intent.nodeId)
      ensures records[id].gate.value.utcDay == records[id].row.createdAt / 86_400
    {
      GateFacts(policy, records[id]);
    }
    match measure
    case NodeInFlight(t, n) => SumOfOnes(weights, InFlight(records, t, n));
    case NodeAcceptedOn(t, n, day) => SumOfOnes(weights, AcceptedOn(records, t, n, day));
    case NodeAcceptedEver(t, n) => SumOfOnes(weights, AcceptedEver(records, t, n));
    case NodeGasOn(t, n, day) => SumOfPart(weights, Charges(records, NodeChargedOn(records, t, n, day)));
    case PlatformGasOn(day) => SumOfPart(weights, Charges(records, ChargedOn(records, day)));
  }

  lemma GateFacts(policy: Policy, record: Record)
    requires RecordInv(policy, record) && record.gate.Some?
    ensures Scoped(record.gate.value, record.row.intent.tenantId, record.row.intent.nodeId)
    ensures record.gate.value.utcDay == record.row.createdAt / 86_400
  {
  }

  // ---------------------------------------------------------------- the two decisions

  /** The charge fits under both caps of its day, beside what the other executions are charged that day, settled and
      released ones included. */
  ghost predicate FitsCaps(policy: PilotGatePolicy, others: Records, intent: ExecutionIntent, cost: int, day: nat) {
    && Sum(Charges(others, NodeChargedOn(others, intent.tenantId, intent.nodeId, day))) + cost
       <= policy.maxGasUsdMicrosPerNodeUtcDay
    && Sum(Charges(others, ChargedOn(others, day))) + cost <= policy.maxGasUsdMicrosPlatformUtcDay
  }

  /** A charge is accepted exactly when it fits. */
  lemma ChargedIff(policy: PilotGatePolicy, db: Db, id: ExecutionId, cost: nat, day: nat)
    requires RecordsInv(Some(policy), db) && id in db.records
    requires db.records[id].gate.Some?
    ensures var r := Charge(policy, db, id, db.records[id], cost, day);
            && (r.Ok? <==> FitsCaps(policy, db.records - {id}, db.records[id].row.intent, cost, day))
            && (r.Ok? ==>
                && r.value.row == db.records[id].row
                && r.value.gate
                   == Some(db.records[id].gate.value.(gasCost := cost, gasDay := Some(day))))
  {
    hide RecordInv, Total;
    var others, intent := db.records - {id}, db.records[id].row.intent;
    assert forall j :: j in others ==> others[j] == db.records[j];
    TotalIs(Some(policy), others, NodeGasOn(intent.tenantId, intent.nodeId, day));
    TotalIs(Some(policy), others, PlatformGasOn(day));
  }

  /** A new execution is admitted exactly when no switch over its node is paused and all three counts are below their
      limits. */
  lemma AdmittedIff(policy: PilotGatePolicy, db: Db, intent: ExecutionIntent, now: Positive)
    requires RecordsInv(Some(policy), db)
    ensures var t, n := intent.tenantId, intent.nodeId;
            Admit(Some(policy), db, intent, now).Holds?
            <==> && Unpaused(db, t, n)
                 && |InFlight(db.records, t, n)| < policy.maxInFlightPerNode
                 && |AcceptedOn(db.records, t, n, now / 86_400)| < policy.maxAcceptedPerNodeUtcDay
                 && |AcceptedEver(db.records, t, n)| < policy.maxAcceptedPerNodeLifetime
  {
    hide RecordInv, Total;
    var t, n := intent.tenantId, intent.nodeId;
    TotalIs(Some(policy), db.records, NodeInFlight(t, n));
    TotalIs(Some(policy), db.records, NodeAcceptedOn(t, n, UtcDay(now)));
    TotalIs(Some(policy), db.records, NodeAcceptedEver(t, n));
  }

  /** And the reason it is refused for is the first of these. */
  lemma AdmissionDenialIs(policy: PilotGatePolicy, db: Db, intent: ExecutionIntent, day: nat)
    requires RecordsInv(Some(policy), db)
    ensures var t, n := intent.tenantId, intent.nodeId;
            AdmissionDenial(policy, db, intent, day)
            == if IsSet(db, PlatformScope) then Some(PlatformPaused)
               else if IsSet(db, TenantScope(t)) then Some(TenantPaused)
               else if IsSet(db, NodeScope(t, n)) then Some(NodePaused)
               else if |InFlight(db.records, t, n)| >= policy.maxInFlightPerNode then Some(NodeInFlightLimit)
               else if |AcceptedOn(db.records, t, n, day)| >= policy.maxAcceptedPerNodeUtcDay then Some(NodeDailyLimit)
               else if |AcceptedEver(db.records, t, n)| >= policy.maxAcceptedPerNodeLifetime then Some(NodeLifetimeLimit)
               else None
  {
    hide RecordInv, Total;
    var t, n := intent.tenantId, intent.nodeId;
    TotalIs(Some(policy), db.records, NodeInFlight(t, n));
    TotalIs(Some(policy), db.records, NodeAcceptedOn(t, n, day));
    TotalIs(Some(policy), db.records, NodeAcceptedEver(t, n));
  }

  predicate IsSet(db: Db, scope: ControlScope) {
    scope in db.paused && db.paused[scope]
  }

  /** None of the three switches over the node is set. */
  predicate Unpaused(db: Db, tenantId: string, nodeId: string) {
    !IsSet(db, PlatformScope) && !IsSet(db, TenantScope(tenantId)) && !IsSet(db, NodeScope(tenantId, nodeId))
  }

  lemma OpenIff(policy: Policy, db: Db, row: Execution)
    ensures GateOpen(policy, db, row).Holds? <==> policy.None? || Unpaused(db, row.intent.tenantId, row.intent.nodeId)
  {
  }
}
