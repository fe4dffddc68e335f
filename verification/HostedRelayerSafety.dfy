/** What holds in every run: any number of workers in any interleaving, crashing anywhere, with any
    clock readings and RPC answers, beside any watcher and operator calls. */
module HostedRelayerSafety {
  import opened Wrappers
  import opened Sums
  import opened PilotGate
  import opened ExecutionModels
  import opened RepositoryModel
  import opened RepositoryInvariants
  import opened RepositorySteps
  import opened RepositoryAllocation
  import opened RepositoryQuotas
  import opened RepositoryConditions
  import opened RepositoryWriting
  import opened HostedRelayer
  import opened HostedRelayerCalls
  import opened HostedRelayerInvariants
  import opened HostedRelayerSteps
  import opened HostedRelayerFrames

  ghost function Reached(policy: Policy, actions: seq<Action>): System {
    Run(policy, INITIAL, actions)
  }

  lemma {:induction false} RunConcat(policy: Policy, s: System, a: seq<Action>, b: seq<Action>)
    ensures Run(policy, s, a + b) == Run(policy, Run(policy, s, a), b)
    decreases |a|
  {
    hide Step;
    if a == [] {
      assert a + b == b;
    } else {
      assert (a + b)[1..] == a[1..] + b;
      RunConcat(policy, Step(policy, s, a[0]), a[1..], b);
    }
  }

  lemma Reachable(policy: Policy, actions: seq<Action>)
    ensures SystemInv(policy, Reached(policy, actions))
  {
    InitialInv(policy);
    RunKeepsInv(policy, INITIAL, actions);
  }

  /** Every reachable record satisfies its invariant. */
  lemma ReachableRecord(policy: Policy, actions: seq<Action>, id: ExecutionId)
    requires id in Reached(policy, actions).db.records
    ensures RecordInv(policy, Reached(policy, actions).db.records[id])
    ensures RelayedInv(policy, Reached(policy, actions).db.records[id])
  {
    hide RecordInv, RelayedInv, WorkersInv, WireInv, ClaimsInv, LeasesInv, Run;
    Reachable(policy, actions);
    TablesRecord(policy, Reached(policy, actions).db, id);
  }

  // ---------------------------------------------------------------- submission

  /** The submission claim of an execution is acquired at most once, ever. */
  lemma SubmissionClaimedOnce(policy: Policy, actions: seq<Action>, j: nat, k: nat)
    requires j < k < |Reached(policy, actions).claims|
    ensures Reached(policy, actions).claims[j] != Reached(policy, actions).claims[k]
  {
    hide TablesInv, WorkersInv, WireInv, LeasesInv, Run;
    Reachable(policy, actions);
  }

  /** Whatever is sent is the row's persisted transaction, under a journaled attempt of its own:
      no two sends of an execution share an attempt. */
  lemma OnlyJournaledBytesAreSent(policy: Policy, actions: seq<Action>, k: nat)
    requires k < |Reached(policy, actions).wire|
    ensures var s := Reached(policy, actions);
            var sent := s.wire[k];
            && sent.id in s.db.records
            && var record := s.db.records[sent.id];
            && record.row.rawTransaction == Some(sent.raw)
            && 1 <= sent.number < |record.attempts|
            && record.attempts[sent.number].number == sent.number
            && record.attempts[sent.number].rawTransactionHash == TxHash(sent.raw)
            && (forall j :: 0 <= j < |s.wire| && j != k && s.wire[j].id == sent.id ==> s.wire[j].number != sent.number)
  {
    hide TablesInv, WorkersInv, ClaimsInv, LeasesInv, Run;
    Reachable(policy, actions);
    var s := Reached(policy, actions);
    assert SentInv(s.db, s.wire[k]);
    ReachableRecord(policy, actions, s.wire[k].id);
    forall j | 0 <= j < |s.wire| && j != k && s.wire[j].id == s.wire[k].id
      ensures s.wire[j].number != s.wire[k].number
    {
      assert SentToken(s.wire[if j < k then j else k]) != SentToken(s.wire[if j < k then k else j]);
    }
  }

  /** Whatever `execute` sends is sent at a reading before the deadline that its bytes are authorized to. */
  lemma SentBeforeDeadline(policy: Policy, actions: seq<Action>, k: nat)
    requires k < |Reached(policy, actions).wire| && !Reached(policy, actions).wire[k].rebroadcast
    ensures var sent := Reached(policy, actions).wire[k];
            sent.sentAt < sent.raw.authorization.deadline
  {
    hide TablesInv, WorkersInv, ClaimsInv, LeasesInv, Run;
    Reachable(policy, actions);
    var s := Reached(policy, actions);
    assert SentInv(s.db, s.wire[k]);
    BytesBelongToRow(policy, actions, s.wire[k].id);
  }

  /** Which calls of a worker are made before the deadline of the row they name: all that allocate, claim or sign,
      and the submission claim of `execute`. A release is at or after it. */
  lemma CallsHeedDeadline(policy: Policy, actions: seq<Action>, w: WorkerId, input: Input)
    requires w in Reached(policy, actions).workers
    ensures var s := Reached(policy, actions);
            match WorkerCall(policy, s.workers[w], input)
            case Nothing => true
            case Pauses(_, _) => false
            case Allocates(intent, _, _, _, now) => now < intent.deadline
            case Writes(id, call) =>
              && (call.ClaimsSigning? || call.ReservesGas? || call.Persists? || (call.ClaimsSubmission? && input.ClaimAt?) ==>
                  id in s.db.records && call.now < s.db.records[id].row.intent.deadline)
              && (call.ReleasesExpired? ==> id in s.db.records && s.db.records[id].row.intent.deadline <= call.now)
  {
    hide TablesInv, WireInv, ClaimsInv, LeasesInv, Run, GasCharge, TransactionFor, ChargeInv;
    Reachable(policy, actions);
    assert WorkerInv(policy, Reached(policy, actions).db, Reached(policy, actions).workers[w]);
  }

  function Sends(wire: seq<Sent>, id: ExecutionId): nat {
    if wire == [] then 0
    else Sends(wire[..|wire| - 1], id) + if wire[|wire| - 1].id == id then 1 else 0
  }

  ghost function Numbers(wire: seq<Sent>, id: ExecutionId): set<nat> {
    set k | 0 <= k < |wire| && wire[k].id == id :: wire[k].number
  }

  lemma NumbersOfLast(wire: seq<Sent>, id: ExecutionId)
    requires wire != []
    requires forall j :: 0 <= j < |wire| - 1 ==> SentToken(wire[j]) != SentToken(wire[|wire| - 1])
    ensures var init, last := Numbers(wire[..|wire| - 1], id), wire[|wire| - 1];
            && (last.id == id ==> Numbers(wire, id) == init + {last.number} && last.number !in init)
            && (last.id != id ==> Numbers(wire, id) == init)
  {
    var n := |wire| - 1;
    assert forall k :: 0 <= k < n ==> wire[..n][k] == wire[k];
    forall number
      ensures number in Numbers(wire, id) <==>
              number in Numbers(wire[..n], id) || (wire[n].id == id && number == wire[n].number)
    {
      if number in Numbers(wire[..n], id) {
        var k :| 0 <= k < n && wire[..n][k].id == id && wire[..n][k].number == number;
        assert wire[k].id == id && wire[k].number == number;
      }
    }
  }

  lemma {:induction false} SendsAreCounted(wire: seq<Sent>, id: ExecutionId)
    requires forall j, k :: 0 <= j < k < |wire| ==> SentToken(wire[j]) != SentToken(wire[k])
    ensures |Numbers(wire, id)| == Sends(wire, id)
  {
    if wire == [] {
      assert Numbers(wire, id) == {};
    } else {
      hide Numbers, SentToken;
      NumbersOfLast(wire, id);
      SendsAreCounted(wire[..|wire| - 1], id);
    }
  }

  lemma {:induction false} NumbersBounded(numbers: set<nat>, bound: nat)
    requires forall n :: n in numbers ==> 1 <= n <= bound
    ensures |numbers| <= bound
  {
    if bound > 0 {
      NumbersBounded(numbers - {bound}, bound - 1);
    } else {
      assert numbers == {};
    }
  }

  /** The number of sends never exceeds `broadcast_attempts`. */
  lemma SendsNeverExceedAttempts(policy: Policy, actions: seq<Action>, id: ExecutionId)
    requires id in Reached(policy, actions).db.records
    ensures Sends(Reached(policy, actions).wire, id) <= Reached(policy, actions).db.records[id].row.broadcastAttempts
  {
    hide TablesInv, WorkersInv, ClaimsInv, LeasesInv, Run, Sends;
    Reachable(policy, actions);
    var s := Reached(policy, actions);
    SendsAreCounted(s.wire, id);
    forall n | n in Numbers(s.wire, id)
      ensures 1 <= n <= s.db.records[id].row.broadcastAttempts
    {
      var k :| 0 <= k < |s.wire| && s.wire[k].id == id && s.wire[k].number == n;
      assert SentInv(s.db, s.wire[k]);
    }
    NumbersBounded(Numbers(s.wire, id), s.db.records[id].row.broadcastAttempts);
  }

  // ---------------------------------------------------------------- nonces

  /** Over the whole history at most one execution per (chain, relayer, nonce) carries a signature,
      and at most one that is not expired or released holds the nonce. */
  lemma NonceHasOneSignature(policy: Policy, actions: seq<Action>, i: ExecutionId, j: ExecutionId)
    requires i in Reached(policy, actions).db.records && j in Reached(policy, actions).db.records && i != j
    requires var a, b := Reached(policy, actions).db.records[i].row, Reached(policy, actions).db.records[j].row;
             && a.intent.chain == b.intent.chain
             && a.intent.relayerAddress == b.intent.relayerAddress
             && a.relayerNonce == b.relayerNonce
    ensures var records := Reached(policy, actions).db.records;
            && !(records[i].row.signature.Some? && records[j].row.signature.Some?)
            && (records[j].row.status !in {Expired, Released} ==>
                records[i].row.signature.None? && records[i].row.status in {Expired, Released})
  {
    hide RecordsInv, KeysUnique, WithinLimits, RelayedInv, WorkersInv, WireInv, ClaimsInv, LeasesInv, Run;
    Reachable(policy, actions);
    ReachableRecord(policy, actions, i);
    ReachableRecord(policy, actions, j);
    assert NonceExclusive(Reached(policy, actions).db.records[i].row, Reached(policy, actions).db.records[j].row);
    assert NonceExclusive(Reached(policy, actions).db.records[j].row, Reached(policy, actions).db.records[i].row);
  }

  /** Some execution of the relayer has been allocated the nonce. */
  ghost predicate Allocated(db: Db, key: NonceKey, nonce: int) {
    exists id :: id in db.records &&
      var row := db.records[id].row;
      row.intent.chain == key.chain && row.intent.relayerAddress == key.relayer && row.relayerNonce == nonce
  }

  /** No gaps, in any run: a new execution takes the least nonce that can be used again, if there is one; if not,
      the least that is neither below the pending nonce nor at or below any ever allocated to the relayer, which is
      the pending one itself or the successor of an allocated one. */
  lemma AllocatedNonceIsLeast(
    policy: Policy, actions: seq<Action>, intent: ExecutionIntent, pending: nat, confirmed: nat, newId: ExecutionId,
    now: int)
    requires var db := Reached(policy, actions).db;
             var r := AllocateOrReturn(policy, db, intent, pending, confirmed, newId, now);
             r.Ok? && r.value.value !in db.records
    ensures var db, key := Reached(policy, actions).db, NonceKey(intent.chain, intent.relayerAddress);
            var r := AllocateOrReturn(policy, db, intent, pending, confirmed, newId, now).value;
            && r.value in r.db.records
            && key in r.db.nextNonces
            && var nonce, next := r.db.records[r.value].row.relayerNonce, r.db.nextNonces[key];
               if exists n :: Reusable(db, key, confirmed, n) then
                 && Reusable(db, key, confirmed, nonce)
                 && (forall n :: Reusable(db, key, confirmed, n) ==> nonce <= n)
                 && key in db.nextNonces
                 && next == db.nextNonces[key]
               else
                 && nonce >= pending
                 && (forall n :: Allocated(db, key, n) ==> n < nonce)
                 && (nonce == pending || Allocated(db, key, nonce - 1))
                 && next == nonce + 1
  {
    hide RecordsInv, KeysUnique, WithinLimits, RelayedInv, WorkersInv, WireInv, ClaimsInv, LeasesInv, Run, AllocateOrReturn,
         AllocateNonce, Reusable;
    Reachable(policy, actions);
    var db, key := Reached(policy, actions).db, intent.Key();
    AllocationOutcome(policy, db, intent, pending, confirmed, newId, now);
    hide NonceInv;
    AllocatorRefinesSpecification(db, key, pending, confirmed);
  }

  /** End to end: the wire never carries two different transactions of one relayer and nonce. */
  lemma OneTransactionPerNonce(policy: Policy, actions: seq<Action>, j: nat, k: nat)
    requires j < |Reached(policy, actions).wire| && k < |Reached(policy, actions).wire|
    requires var wire := Reached(policy, actions).wire;
             && wire[j].raw.authorization.chain == wire[k].raw.authorization.chain
             && wire[j].raw.authorization.relayerAddress == wire[k].raw.authorization.relayerAddress
             && wire[j].raw.nonce == wire[k].raw.nonce
    ensures Reached(policy, actions).wire[j].raw == Reached(policy, actions).wire[k].raw
    ensures Reached(policy, actions).wire[j].id == Reached(policy, actions).wire[k].id
  {
    hide TablesInv, WorkersInv, ClaimsInv, LeasesInv, Run, RecordInv;
    Reachable(policy, actions);
    var s := Reached(policy, actions);
    var a, b := s.wire[j], s.wire[k];
    assert SentInv(s.db, a) && SentInv(s.db, b);
    ReachableRecord(policy, actions, a.id);
    ReachableRecord(policy, actions, b.id);
    if a.id != b.id {
      NonceHasOneSignature(policy, actions, a.id, b.id);
    }
  }

  /** Execution rows never share a capability, reservation, purchase or idempotency key. */
  lemma KeysStayUnique(policy: Policy, actions: seq<Action>, i: ExecutionId, j: ExecutionId)
    requires i in Reached(policy, actions).db.records && j in Reached(policy, actions).db.records && i != j
    ensures var a, b := Reached(policy, actions).db.records[i].row.intent, Reached(policy, actions).db.records[j].row.intent;
            && a.capabilityId != b.capabilityId
            && a.reservationId != b.reservationId
            && a.purchaseId != b.purchaseId
            && (a.tenantId, a.nodeId, a.idempotencyKey) != (b.tenantId, b.nodeId, b.idempotencyKey)
  {
    hide RecordsInv, NonceInv, WithinLimits, RelayedInv, WorkersInv, WireInv, ClaimsInv, LeasesInv, Run;
    Reachable(policy, actions);
  }

  // ---------------------------------------------------------------- quotas and gas

  lemma TotalsWithinLimits(policy: PilotGatePolicy, actions: seq<Action>, measure: Measure)
    ensures Total(Reached(Some(policy), actions).db.records, measure) <= Limit(policy, measure)
  {
    hide RecordsInv, NonceInv, KeysUnique, RelayedInv, WorkersInv, WireInv, ClaimsInv, LeasesInv, Run, Total, Limit;
    Reachable(Some(policy), actions);
  }

  lemma ReachableRecords(policy: Policy, actions: seq<Action>)
    ensures RecordsInv(policy, Reached(policy, actions).db)
  {
    hide RecordInv, Run;
    forall id | id in Reached(policy, actions).db.records ensures RecordInv(policy, Reached(policy, actions).db.records[id]) {
      ReachableRecord(policy, actions, id);
    }
  }

  /** In every run, for every node and every day: the reservations in flight, the executions allocated on the day
      and all ever allocated stay within the policy, and so does the gas charged to the day, for the node and for
      the platform, by all executions, settled and released ones included. */
  lemma LimitsHold(policy: PilotGatePolicy, actions: seq<Action>, tenantId: string, nodeId: string, day: nat)
    ensures var records := Reached(Some(policy), actions).db.records;
            && |InFlight(records, tenantId, nodeId)| <= policy.maxInFlightPerNode
            && |AcceptedOn(records, tenantId, nodeId, day)| <= policy.maxAcceptedPerNodeUtcDay
            && |AcceptedEver(records, tenantId, nodeId)| <= policy.maxAcceptedPerNodeLifetime
            && Sum(Charges(records, NodeChargedOn(records, tenantId, nodeId, day))) <= policy.maxGasUsdMicrosPerNodeUtcDay
            && Sum(Charges(records, ChargedOn(records, day))) <= policy.maxGasUsdMicrosPlatformUtcDay
  {
    hide RecordInv, Run, Total;
    var records := Reached(Some(policy), actions).db.records;
    ReachableRecords(Some(policy), actions);
    forall measure | measure in {NodeInFlight(tenantId, nodeId), NodeAcceptedOn(tenantId, nodeId, day),
                                 NodeAcceptedEver(tenantId, nodeId), NodeGasOn(tenantId, nodeId, day), PlatformGasOn(day)}
      ensures Total(records, measure) <= Limit(policy, measure)
    {
      TotalsWithinLimits(policy, actions, measure);
    }
    TotalIs(Some(policy), records, NodeInFlight(tenantId, nodeId));
    TotalIs(Some(policy), records, NodeAcceptedOn(tenantId, nodeId, day));
    TotalIs(Some(policy), records, NodeAcceptedEver(tenantId, nodeId));
    TotalIs(Some(policy), records, NodeGasOn(tenantId, nodeId, day));
    TotalIs(Some(policy), records, PlatformGasOn(day));
  }

  /** The charge of a signed execution covers the worst native spend of the bytes it persisted. */
  lemma ChargeCoversPersistedBytes(policy: PilotGatePolicy, actions: seq<Action>, id: ExecutionId)
    requires id in Reached(Some(policy), actions).db.records
    requires Reached(Some(policy), actions).db.records[id].row.rawTransaction.Some?
    ensures var record := Reached(Some(policy), actions).db.records[id];
            var raw := record.row.rawTransaction.value;
            && record.gate.Some?
            && record.gate.value.gasCost > 0
            && record.gate.value.gasDay.Some?
            && record.gate.value.gasCost * 1_000_000_000_000_000_000
               >= raw.gasLimit * raw.maxFeePerGas * policy.nativeAssetUsdPriceCeilingMicros
  {
    hide Run;
    ReachableRecord(Some(policy), actions, id);
  }

  /** The worst native spend, in wei times USD micro-units, of the bytes that a record has. */
  function WorstSpend(policy: PilotGatePolicy, record: Record): int {
    if record.row.rawTransaction.None? then 0 else
      var raw := record.row.rawTransaction.value;
      raw.gasLimit * raw.maxFeePerGas * policy.nativeAssetUsdPriceCeilingMicros
  }

  function Spends(policy: PilotGatePolicy, records: Records, ids: set<ExecutionId>): map<ExecutionId, int> {
    map id | id in ids && id in records && records[id].gate.Some? :: WorstSpend(policy, records[id])
  }

  lemma SpendScaled(policy: PilotGatePolicy, actions: seq<Action>, id: ExecutionId)
    requires id in Reached(Some(policy), actions).db.records
    requires Reached(Some(policy), actions).db.records[id].gate.Some?
    ensures var record := Reached(Some(policy), actions).db.records[id];
            WorstSpend(policy, record) <= Scale(record.gate.value.gasCost, 1_000_000_000_000_000_000)
  {
    hide Run;
    if Reached(Some(policy), actions).db.records[id].row.rawTransaction.Some? {
      ChargeCoversPersistedBytes(policy, actions, id);
    }
  }

  lemma SpendsWithinCharges(policy: PilotGatePolicy, actions: seq<Action>, ids: set<ExecutionId>)
    ensures var records := Reached(Some(policy), actions).db.records;
            Sum(Spends(policy, records, ids)) <= Sum(Charges(records, ids)) * 1_000_000_000_000_000_000
  {
    hide Run, Sum, WorstSpend, Scale;
    var records, wei := Reached(Some(policy), actions).db.records, 1_000_000_000_000_000_000;
    var charges := Charges(records, ids);
    forall id | id in Spends(policy, records, ids)
      ensures Spends(policy, records, ids)[id] <= Times(charges, wei)[id]
    {
      SpendScaled(policy, actions, id);
    }
    SumBounded(Spends(policy, records, ids), Times(charges, wei));
    SumTimes(charges, wei);
    ScaleIs(Sum(charges), wei);
  }

  /** Hence the signed transactions of the executions charged to one day spend at most the day's cap, per node and
      for the platform, at the price ceiling. */
  lemma DailySpendWithinCap(policy: PilotGatePolicy, actions: seq<Action>, tenantId: string, nodeId: string, day: nat)
    ensures var records := Reached(Some(policy), actions).db.records;
            && Sum(Spends(policy, records, NodeChargedOn(records, tenantId, nodeId, day)))
               <= policy.maxGasUsdMicrosPerNodeUtcDay * 1_000_000_000_000_000_000
            && Sum(Spends(policy, records, ChargedOn(records, day)))
               <= policy.maxGasUsdMicrosPlatformUtcDay * 1_000_000_000_000_000_000
  {
    hide Run, Sum, NodeChargedOn, ChargedOn, Charges, Spends;
    var records := Reached(Some(policy), actions).db.records;
    LimitsHold(policy, actions, tenantId, nodeId, day);
    SpendsWithinCharges(policy, actions, NodeChargedOn(records, tenantId, nodeId, day));
    SpendsWithinCharges(policy, actions, ChargedOn(records, day));
  }

  lemma ScaleIs(n: int, factor: nat)
    ensures Scale(n, factor) == n * factor
  {
  }

  // ---------------------------------------------------------------- signing fences

  /** A claim is acquired exactly while no switch over the node is paused, before the deadline, on an approved row or
      an expired lease; each acquisition raises the generation by one and leases for 15 seconds, or to the deadline
      if that is earlier. */
  lemma AcquisitionRaisesGeneration(policy: Policy, db: Db, id: ExecutionId, now: int)
    requires id in db.records && RecordInv(policy, db.records[id])
    ensures var row, r := db.records[id].row, ClaimSigning(policy, db, id, now);
            && (r.Ok? && r.value.value.acquired <==>
                && 0 < now < row.intent.deadline
                && (policy.None? || Unpaused(db, row.intent.tenantId, row.intent.nodeId))
                && (row.status == PreflightApproved || (row.status == Signing && row.signingExpiresAt.value <= now)))
            && (r.Ok? && r.value.value.acquired ==>
                var leased := r.value.db.records[id].row;
                && leased.signingGeneration == row.signingGeneration + 1
                && leased.signingExpiresAt
                   == Some(if row.intent.deadline < now + 15 then row.intent.deadline else now + 15))
  {
    OpenIff(policy, db, db.records[id].row);
  }

  /** The leases of an execution never overlap, rise in generation and end by the deadline, by the
      clock readings that were used, whatever clock gave them. */
  lemma LeasesNeverOverlap(policy: Policy, actions: seq<Action>, j: nat, k: nat)
    requires j < k < |Reached(policy, actions).leases|
    requires Reached(policy, actions).leases[j].id == Reached(policy, actions).leases[k].id
    ensures var s := Reached(policy, actions);
            var a, b := s.leases[j], s.leases[k];
            && a.generation < b.generation
            && a.start < a.end <= b.start < b.end
            && a.id in s.db.records
            && b.end <= s.db.records[a.id].row.intent.deadline
  {
    hide TablesInv, WorkersInv, WireInv, ClaimsInv, Run;
    Reachable(policy, actions);
    var s := Reached(policy, actions);
    assert LeaseHolds(s.db.records[s.leases[j].id], s.leases[j]);
    assert LeaseHolds(s.db.records[s.leases[k].id], s.leases[k]);
  }

  lemma StaleStepIsFenced(policy: Policy, db: Db, worker: Worker, input: Input)
    requires SigningToken(worker).Some?
    requires SigningToken(worker).value.id in db.records
    requires SigningToken(worker).value.number != db.records[SigningToken(worker).value.id].row.signingGeneration
    ensures WorkerMove(policy, db, worker, input).db == db
    ensures WorkerMove(policy, db, worker, input).sent.None?
  {
  }

  /** A signer whose generation has been superseded is fenced for good: however the run goes on, as long as
      it acts under that generation, no step of it changes the tables or sends anything. */
  lemma StaleSignerIsFenced(
    policy: Policy, before: seq<Action>, after: seq<Action>, w: WorkerId, token: Token, input: Input)
    requires token.id in Reached(policy, before).db.records
    requires token.number < Reached(policy, before).db.records[token.id].row.signingGeneration
    requires w in Reached(policy, before + after).workers
    requires SigningToken(Reached(policy, before + after).workers[w]) == Some(token)
    ensures var s := Reached(policy, before + after);
            var t := Step(policy, s, Work(w, input));
            t.db == s.db && t.wire == s.wire
  {
    hide Run, WorkerMove;
    RecordsEvolve(policy, before, after, token.id);
    StaleStepIsFenced(policy, Reached(policy, before + after).db, Reached(policy, before + after).workers[w], input);
  }

  lemma StepGrowsGeneration(policy: Policy, s: System, action: Action, id: ExecutionId)
    requires SystemInv(policy, s) && id in s.db.records
    ensures id in Step(policy, s, action).db.records
    ensures s.db.records[id].row.signingGeneration <= Step(policy, s, action).db.records[id].row.signingGeneration
  {
    hide SystemInv, Step;
    StepFollowsEdges(policy, s, action, id);
  }

  /** The generation was acquired, and no worker but `v` signs under it. */
  ghost predicate SignsAlone(s: System, token: Token, v: WorkerId) {
    && token.id in s.db.records
    && token.number <= s.db.records[token.id].row.signingGeneration
    && forall w :: w in s.workers && w != v ==> SigningToken(s.workers[w]) != Some(token)
  }

  /** A worker comes to no generation that was acquired before. */
  lemma TokenIsNotReissued(policy: Policy, db: Db, worker: Worker, input: Input, token: Token)
    requires TablesInv(policy, db) && WorkerInv(policy, db, worker)
    requires token.id in db.records && token.number <= db.records[token.id].row.signingGeneration
    requires SigningToken(worker) != Some(token)
    ensures SigningToken(WorkerMove(policy, db, worker, input).worker) != Some(token)
  {
    hide TablesInv, WorkerMove, WorkerInv, Advances, SettlesAll, FreshSend, SendsOwn, ClaimsOnce, SigningToken;
    WorkerMoveOk(policy, db, worker, input);
  }

  lemma StepSignsAlone(policy: Policy, s: System, action: Action, token: Token, v: WorkerId)
    requires SystemInv(policy, s) && SignsAlone(s, token, v)
    ensures SignsAlone(Step(policy, s, action), token, v)
  {
    StepGrowsGeneration(policy, s, action, token.id);
    hide SystemInv, WorkerMove, CallResult, SigningToken;
    forall w | w in Step(policy, s, action).workers && w != v
      ensures SigningToken(Step(policy, s, action).workers[w]) != Some(token)
    {
      if action.Work? && action.worker == w {
        WorkerIsNotReissued(policy, s, w, action.input, token);
      }
    }
  }

  lemma WorkerIsNotReissued(policy: Policy, s: System, w: WorkerId, input: Input, token: Token)
    requires SystemInv(policy, s)
    requires token.id in s.db.records && token.number <= s.db.records[token.id].row.signingGeneration
    requires w in s.workers ==> SigningToken(s.workers[w]) != Some(token)
    ensures SigningToken(WorkerMove(policy, s.db, WorkerAt(s, w), input).worker) != Some(token)
  {
    hide TablesInv, WorkerMove, WorkerInv, WireInv, ClaimsInv, LeasesInv;
    IdleInv(policy, s, w);
    TokenIsNotReissued(policy, s.db, WorkerAt(s, w), input, token);
  }

  lemma {:induction false} RunSignsAlone(policy: Policy, s: System, actions: seq<Action>, token: Token, v: WorkerId)
    requires SystemInv(policy, s) && SignsAlone(s, token, v)
    ensures SignsAlone(Run(policy, s, actions), token, v)
    decreases |actions|
  {
    hide SystemInv, Step, SignsAlone;
    if actions != [] {
      StepKeepsInv(policy, s, actions[0]);
      StepSignsAlone(policy, s, actions[0], token, v);
      RunSignsAlone(policy, Step(policy, s, actions[0]), actions[1..], token, v);
    }
  }

  /** No two workers ever sign under one generation of one execution, at one time or at different times. */
  lemma GenerationHasOneSigner(policy: Policy, before: seq<Action>, after: seq<Action>, v: WorkerId, w: WorkerId)
    requires v in Reached(policy, before).workers && w in Reached(policy, before + after).workers && v != w
    requires SigningToken(Reached(policy, before).workers[v]).Some?
    ensures SigningToken(Reached(policy, before).workers[v]) != SigningToken(Reached(policy, before + after).workers[w])
  {
    hide TablesInv, WireInv, ClaimsInv, LeasesInv, Run;
    var s := Reached(policy, before);
    var token := SigningToken(s.workers[v]).value;
    Reachable(policy, before);
    TokensBounded(policy, s.db, s.workers[v]);
    assert SignsAlone(s, token, v);
    RunSignsAlone(policy, s, after, token, v);
    RunConcat(policy, INITIAL, before, after);
  }

  // ---------------------------------------------------------------- outcomes

  lemma StepAdvances(policy: Policy, s: System, action: Action)
    requires SystemInv(policy, s)
    ensures exists own, lease :: Advances(s.db, Step(policy, s, action).db, own, lease)
    ensures !(action.Environment? && Bypass(action.call)) ==> SettlesAll(s.db, Step(policy, s, action).db)
  {
    hide TablesInv, WorkerMove, CallResult, WorkerInv, Advances, SettlesAll, Bypass;
    match action
    case Work(w, input) =>
      IdleInv(policy, s, w);
      WorkerMoveOk(policy, s.db, WorkerAt(s, w), input);
      var move := WorkerMove(policy, s.db, WorkerAt(s, w), input);
      assert Advances(s.db, Step(policy, s, action).db, SigningToken(WorkerAt(s, w)), move.lease);
    case Environment(call) =>
      CallSafe(policy, s.db, call);
      assert Advances(s.db, Step(policy, s, action).db, None, None);
  }

  lemma StepFollowsEdges(policy: Policy, s: System, action: Action, id: ExecutionId)
    requires SystemInv(policy, s) && id in s.db.records
    ensures id in Step(policy, s, action).db.records
    ensures var before, after := s.db.records[id], Step(policy, s, action).db.records[id];
            && RecordStep(before, after)
            && (before.row.status == after.row.status || Edge(before.row.status, after.row.status))
  {
    hide SystemInv, Step, RecordStep, LeavesClaim, LeaseKept, LeaseGranted;
    StepAdvances(policy, s, action);
    var own, lease :| Advances(s.db, Step(policy, s, action).db, own, lease);
    KeptStep(id, s.db.records[id], Step(policy, s, action).db.records[id]);
  }

  /** Each step of a run changes a status only along the declared table or one of the five extra edges,
      and adds at most one attempt and one generation to a row. */
  lemma StatusFollowsEdges(policy: Policy, actions: seq<Action>, action: Action, id: ExecutionId)
    requires id in Reached(policy, actions).db.records
    ensures id in Step(policy, Reached(policy, actions), action).db.records
    ensures var s := Reached(policy, actions);
            var before, after := s.db.records[id], Step(policy, s, action).db.records[id];
            && (before.row.status == after.row.status || Edge(before.row.status, after.row.status))
            && before.row.broadcastAttempts <= after.row.broadcastAttempts <= before.row.broadcastAttempts + 1
            && before.row.signingGeneration <= after.row.signingGeneration <= before.row.signingGeneration + 1
  {
    hide SystemInv, Step, Run, Edge;
    Reachable(policy, actions);
    StepFollowsEdges(policy, Reached(policy, actions), action, id);
  }

  lemma KeptStep(id: ExecutionId, before: Record, after: Record)
    requires RecordStep(before, after)
    ensures before.row.status == after.row.status || Edge(before.row.status, after.row.status)
  {
  }

  lemma EvolvesReflexive(record: Record)
    ensures Evolves(record, record)
  {
  }

  lemma {:induction false} RunEvolves(policy: Policy, s: System, actions: seq<Action>, id: ExecutionId)
    requires SystemInv(policy, s) && id in s.db.records
    ensures id in Run(policy, s, actions).db.records
    ensures Evolves(s.db.records[id], Run(policy, s, actions).db.records[id])
    decreases |actions|
  {
    hide SystemInv, Step, Evolves;
    EvolvesReflexive(s.db.records[id]);
    if actions != [] {
      var t := Step(policy, s, actions[0]);
      StepKeepsInv(policy, s, actions[0]);
      StepFollowsEdges(policy, s, actions[0], id);
      RunEvolves(policy, t, actions[1..], id);
      EvolvesTransitive(s.db.records[id], t.db.records[id], Run(policy, t, actions[1..]).db.records[id]);
    }
  }

  /** Over any run and any continuation of it: phases never fall, success and release are final, signed
      material and its charge are immutable, journals only grow. */
  lemma RecordsEvolve(policy: Policy, before: seq<Action>, after: seq<Action>, id: ExecutionId)
    requires id in Reached(policy, before).db.records
    ensures id in Reached(policy, before + after).db.records
    ensures Evolves(Reached(policy, before).db.records[id], Reached(policy, before + after).db.records[id])
  {
    hide SystemInv, Run, Evolves;
    Reachable(policy, before);
    RunEvolves(policy, Reached(policy, before), after, id);
    RunConcat(policy, INITIAL, before, after);
  }

  /** Once confirmed, never reverted, expired or released. */
  lemma ConfirmedIsFinal(policy: Policy, before: seq<Action>, after: seq<Action>, id: ExecutionId)
    requires id in Reached(policy, before).db.records
    requires Reached(policy, before).db.records[id].row.status in {Confirmed, Finalized, ReorgReview}
    ensures id in Reached(policy, before + after).db.records
    ensures Reached(policy, before + after).db.records[id].row.status in {Confirmed, Finalized, ReorgReview}
  {
    hide Run;
    RecordsEvolve(policy, before, after, id);
  }

  /** Once expired or released, the row, the reservation, the journal and the observations stay as they are, but
      for the watcher's attempt stamp. What can still be sent is in `HostedRelayerLateSends`. */
  lemma EndedIsFrozen(policy: Policy, before: seq<Action>, after: seq<Action>, id: ExecutionId)
    requires id in Reached(policy, before).db.records
    requires Reached(policy, before).db.records[id].row.status in {Expired, Released}
    ensures id in Reached(policy, before + after).db.records
    ensures var was, now := Reached(policy, before).db.records[id], Reached(policy, before + after).db.records[id];
            && now.row == was.row.(watcherAttemptedAt := now.row.watcherAttemptedAt)
            && now.gate == was.gate
            && now.attempts == was.attempts
            && now.observations == was.observations
  {
    hide Run;
    RecordsEvolve(policy, before, after, id);
  }

  /** Signature, bytes, hash and charge never change once present. */
  lemma MaterialIsImmutable(policy: Policy, before: seq<Action>, after: seq<Action>, id: ExecutionId)
    requires id in Reached(policy, before).db.records
    requires Reached(policy, before).db.records[id].row.rawTransaction.Some?
    ensures id in Reached(policy, before + after).db.records
    ensures var was, now := Reached(policy, before).db.records[id], Reached(policy, before + after).db.records[id];
            && now.row.signature == was.row.signature
            && now.row.rawTransaction == was.row.rawTransaction
            && now.row.rawTransactionHash == was.row.rawTransactionHash
            && now.row.unsignedTransactionHash == was.row.unsignedTransactionHash
            && now.row.signingGeneration == was.row.signingGeneration
            && (was.gate.Some? <==> now.gate.Some?)
            && (was.gate.Some? ==> now.gate.value.gasCost == was.gate.value.gasCost)
  {
    hide Run;
    RecordsEvolve(policy, before, after, id);
  }

  /** The persisted bytes pay the row's own intent, under its own relayer nonce and signature. */
  lemma BytesBelongToRow(policy: Policy, actions: seq<Action>, id: ExecutionId)
    requires id in Reached(policy, actions).db.records
    requires Reached(policy, actions).db.records[id].row.rawTransaction.Some?
    ensures var row := Reached(policy, actions).db.records[id].row;
            var raw := row.rawTransaction.value;
            raw.authorization == row.intent && raw.nonce == row.relayerNonce && row.signature == Some(raw.executionSignature)
  {
    hide Run, RecordInv;
    ReachableRecord(policy, actions, id);
  }

  /** Every release or expiry is at or after the deadline; a signed row is released only with an
      observed receipt of status 0 at the chain's finality depth, and with proof of no transfer at a
      boundary past the deadline. */
  lemma ReleaseNeedsProof(policy: Policy, actions: seq<Action>, id: ExecutionId)
    requires id in Reached(policy, actions).db.records
    requires !Active(Reached(policy, actions).db.records[id].row.status)
    ensures var record := Reached(policy, actions).db.records[id];
            var row := record.row;
            && (row.status == Released ==> row.releasedAt.Some? && row.releasedAt.value >= row.intent.deadline)
            && (row.status == Expired ==> row.expiredAt.Some? && row.expiredAt.value >= row.intent.deadline)
            && (row.signature.Some? ==>
                && row.status == Released
                && row.releaseEvidence.Some?
                && ProvesNothingMoved(row.releaseEvidence.value)
                && row.releaseEvidence.value.finalityBoundaryTimestamp >= row.intent.deadline
                && |record.observations| == 1
                && record.observations[0].finality.receiptStatus == 0
                && IsFinal(record.observations[0].finality, row.intent.chain)
                && Some(record.observations[0].txHash) == row.rawTransactionHash)
  {
    hide Run;
    ReachableRecord(policy, actions, id);
  }

  /** Signature, bytes and hash are present together, exactly on rows that are signed or later and not
      expired, or released with release evidence. */
  lemma MaterialComesTogether(policy: Policy, actions: seq<Action>, id: ExecutionId)
    requires id in Reached(policy, actions).db.records
    ensures var row := Reached(policy, actions).db.records[id].row;
            && (row.signature.Some? <==> row.rawTransaction.Some?)
            && (row.rawTransactionHash.Some? <==> row.rawTransaction.Some?)
            && (row.rawTransaction.Some? ==> row.rawTransactionHash == Some(TxHash(row.rawTransaction.value)))
            && (row.rawTransaction.Some? <==>
                || row.status in {Signed, Submitted, SubmissionUnknown, SubmissionRejected,
                                  Confirmed, Finalized, Reverted, ReorgReview}
                || (row.status == Released && row.releaseEvidence.Some?))
  {
    hide Run;
    ReachableRecord(policy, actions, id);
  }

  /** The attempt numbers of a signed row are 0 up to `broadcast_attempts`, each once, all with the
      row's hash; an unsigned row has none. */
  lemma JournalIsComplete(policy: Policy, actions: seq<Action>, id: ExecutionId, n: nat)
    requires id in Reached(policy, actions).db.records
    ensures var record := Reached(policy, actions).db.records[id];
            && ((exists i :: 0 <= i < |record.attempts| && record.attempts[i].number == n)
                <==> record.row.rawTransaction.Some? && n <= record.row.broadcastAttempts)
            && (forall i, j :: 0 <= i < j < |record.attempts| ==> record.attempts[i].number != record.attempts[j].number)
            && (forall i :: 0 <= i < |record.attempts| ==>
                  Some(record.attempts[i].rawTransactionHash) == record.row.rawTransactionHash)
  {
    hide Run;
    ReachableRecord(policy, actions, id);
    var record := Reached(policy, actions).db.records[id];
    if n < |record.attempts| {
      assert record.attempts[n].number == n;
    }
  }

  /** No reachable row is one that the validators of `HostedExecution` or the check constraints of the
      table would reject: a row that was stored can always be read. */
  lemma RowsPassValidation(policy: Policy, actions: seq<Action>, id: ExecutionId)
    requires id in Reached(policy, actions).db.records
    ensures var row := Reached(policy, actions).db.records[id].row;
            && row.intent.deadline > 0
            && row.createdAt > 0
            && (row.broadcastedAt.Some? ==> row.broadcastedAt.value > 0)
            && (row.confirmedAt.Some? ==> row.confirmedAt.value > 0)
            && (row.finalizedAt.Some? ==> row.finalizedAt.value > 0)
            && (row.revertedAt.Some? ==> row.revertedAt.value > 0)
            && (row.releasedAt.Some? ==> row.releasedAt.value > 0)
            && (row.expiredAt.Some? ==> row.expiredAt.value > 0)
            && (row.reorg.Some? ==> row.reorg.value.reviewedAt > 0)
            && (row.signingExpiresAt.Some? ==> row.signingGeneration > 0 && row.signingExpiresAt.value > 0)
            && var onBase := row.intent.chain in {Base, BaseSepolia};
               && (row.finality.Some? ==>
                   && row.finality.value.receiptStatus in {0, 1}
                   && row.finality.value.boundary == if onBase then SafeBoundary else FinalizedBoundary)
               && (row.status in {Confirmed, Finalized, Reverted, ReorgReview} ==>
                   && row.finality.Some?
                   && row.finality.value.confirmations >= (if onBase then 2 else 3)
                   && row.finality.value.safeBlockHash != "")
  {
    hide Run;
    ReachableRecord(policy, actions, id);
  }

  // ---------------------------------------------------------------- the gate follows the outcome

  predicate UsesDedicatedMethods(actions: seq<Action>) {
    forall k :: 0 <= k < |actions| && actions[k].Environment? ==> !Bypass(actions[k].call)
  }

  lemma {:induction false} NeverBypassed(policy: Policy, s: System, actions: seq<Action>)
    requires SystemInv(policy, s) && UsesDedicatedMethods(actions)
    requires forall id :: id in s.db.records ==> !Bypassed(s.db.records[id].row)
    ensures forall id :: id in Run(policy, s, actions).db.records ==> !Bypassed(Run(policy, s, actions).db.records[id].row)
    decreases |actions|
  {
    if actions != [] {
      hide SystemInv, Step, Bypassed, Bypass, Run;
      var t := Step(policy, s, actions[0]);
      StepKeepsInv(policy, s, actions[0]);
      StepNeverBypasses(policy, s, actions[0]);
      NeverBypassed(policy, t, actions[1..]);
      RunUnfold(policy, s, actions);
    }
  }

  lemma RunUnfold(policy: Policy, s: System, actions: seq<Action>)
    requires actions != []
    ensures Run(policy, s, actions) == Run(policy, Step(policy, s, actions[0]), actions[1..])
  {
    hide Step;
  }

  lemma StepNeverBypasses(policy: Policy, s: System, action: Action)
    requires SystemInv(policy, s) && !(action.Environment? && Bypass(action.call))
    requires forall id :: id in s.db.records ==> !Bypassed(s.db.records[id].row)
    ensures forall id :: id in Step(policy, s, action).db.records ==> !Bypassed(Step(policy, s, action).db.records[id].row)
  {
    hide SystemInv, Step, Advances, Bypassed, Bypass;
    StepAdvances(policy, s, action);
  }

  /** In every run that finalizes by the dedicated method, a reservation is `reserved` exactly for
      pre-outcome and confirmed rows, `settled` for finalized, reverted and reorg_review rows, and
      `released` for released and expired rows. */
  lemma GateFollowsOutcome(policy: PilotGatePolicy, actions: seq<Action>, id: ExecutionId)
    requires UsesDedicatedMethods(actions)
    requires id in Reached(Some(policy), actions).db.records
    ensures var record := Reached(Some(policy), actions).db.records[id];
            && record.gate.Some?
            && (record.gate.value.state == Settled <==> record.row.status in {Finalized, Reverted, ReorgReview})
            && (record.gate.value.state == ReleasedGate <==> record.row.status in {Released, Expired})
  {
    hide Run;
    InitialInv(Some(policy));
    NeverBypassed(Some(policy), INITIAL, actions);
    ReachableRecord(Some(policy), actions, id);
  }

  /** The generic `transition` keeps the coupling exactly when its target is not `finalized`: its guard
      lets `finalized` through without settling the reservation. */
  lemma TransitionKeepsCouplingIff(
    policy: PilotGatePolicy, db: Db, id: ExecutionId, target: ExecutionState, expected: Option<ExecutionState>, now: int)
    requires id in db.records && RecordInv(Some(policy), db.records[id]) && !Bypassed(db.records[id].row)
    requires Transition(Some(policy), db, id, target, expected, now).Ok?
    ensures var record := Transition(Some(policy), db, id, target, expected, now).value.db.records[id];
            record.gate.Some? && (record.gate.value.state == ExpectedGate(record.row.status) <==> target != Finalized)
  {
    hide JournalInv, ObservationInv;
    TransitionSteps(Some(policy), db, id, target, expected, now);
  }

  // ---------------------------------------------------------------- every broadcast is journaled

  predicate CountsBroadcasts(actions: seq<Action>) {
    forall k :: 0 <= k < |actions| && actions[k].Environment? ==> !SkipsJournal(actions[k].call)
  }

  lemma {:induction false} NeverUnjournaled(policy: Policy, s: System, actions: seq<Action>)
    requires CountsBroadcasts(actions)
    requires forall id :: id in s.db.records ==> !Unjournaled(s.db.records[id].row)
    ensures forall id :: id in Run(policy, s, actions).db.records ==> !Unjournaled(Run(policy, s, actions).db.records[id].row)
    decreases |actions|
  {
    if actions != [] {
      hide Step, Unjournaled, SkipsJournal, Run, NextNoncesGrow, BytesFrom, StampsKept;
      StepKeepsFrame(policy, s, actions[0]);
      NeverUnjournaled(policy, Step(policy, s, actions[0]), actions[1..]);
      RunUnfold(policy, s, actions);
    }
  }

  /** In every run without a generic `transition` to `submission_rejected`, a row past `signed` has at least
      one counted broadcast, journaled as attempt 1 with the row's hash. */
  lemma BroadcastsAreJournaled(policy: Policy, actions: seq<Action>, id: ExecutionId)
    requires CountsBroadcasts(actions)
    requires id in Reached(policy, actions).db.records
    requires var row := Reached(policy, actions).db.records[id].row; row.rawTransaction.Some? && row.status != Signed
    ensures var record := Reached(policy, actions).db.records[id];
            && record.row.broadcastAttempts >= 1
            && |record.attempts| >= 2
            && record.attempts[1].number == 1
            && Some(record.attempts[1].rawTransactionHash) == record.row.rawTransactionHash
  {
    hide Run;
    NeverUnjournaled(policy, INITIAL, actions);
    ReachableRecord(policy, actions, id);
    assert !Unjournaled(Run(policy, INITIAL, actions).db.records[id].row);
  }

  /** The exact condition for one call: the generic `transition` keeps a row journaled exactly when its target
      is not `submission_rejected`. */
  lemma TransitionKeepsJournalIff(
    policy: Policy, db: Db, id: ExecutionId, target: ExecutionState, expected: Option<ExecutionState>, now: int)
    requires id in db.records && RecordInv(policy, db.records[id]) && !Unjournaled(db.records[id].row)
    requires Transition(policy, db, id, target, expected, now).Ok?
    ensures var after := Transition(policy, db, id, target, expected, now).value.db;
            id in after.records && (!Unjournaled(after.records[id].row) <==> target != SubmissionRejected)
  {
    hide JournalInv, ObservationInv, GateInv, OutcomeInv, LeaseInv;
  }

  // ---------------------------------------------------------------- the transition gap

  /** The gap, on every confirmed row: `transition` to `finalized` succeeds, the reservation goes on
      counting as in flight, and a later `finalize` takes the row for done and settles nothing. */
  lemma TransitionSkipsSettlement(policy: PilotGatePolicy, db: Db, id: ExecutionId, now: Positive, later: Positive)
    requires id in db.records && RecordInv(Some(policy), db.records[id]) && db.records[id].row.status == Confirmed
    ensures var intent := db.records[id].row.intent;
            var r := Transition(Some(policy), db, id, Finalized, None, now);
            && r.Ok?
            && id in InFlight(r.value.db.records, intent.tenantId, intent.nodeId)
            && Finalize(Some(policy), r.value.db, id, Profile(intent.chain).boundary, later)
               == Ok(Applied(r.value.db, r.value.db.records[id].row))
  {
    hide JournalInv, ObservationInv;
  }

  /** Nothing that happens afterwards settles such a row: its reservation stays in flight in every
      continuation of the run. */
  lemma BypassIsPermanent(policy: PilotGatePolicy, before: seq<Action>, after: seq<Action>, id: ExecutionId)
    requires id in Reached(Some(policy), before).db.records
    requires var row := Reached(Some(policy), before).db.records[id].row;
             row.status in {Finalized, ReorgReview} && row.finalizedAt.None?
    ensures id in Reached(Some(policy), before + after).db.records
    ensures var record := Reached(Some(policy), before + after).db.records[id];
            && record.gate.Some?
            && record.gate.value.state == Reserved
            && record.row.status in {Finalized, ReorgReview}
            && record.row.finalizedAt.None?
  {
    hide Run;
    RecordsEvolve(Some(policy), before, after, id);
    ReachableRecord(Some(policy), before + after, id);
  }

  /** The same guard lets a signed row become `submission_rejected` with no broadcast counted or journaled. */
  lemma TransitionSkipsJournal(policy: Policy, db: Db, id: ExecutionId, now: Positive)
    requires id in db.records && RecordInv(policy, db.records[id]) && db.records[id].row.status == Signed
    ensures var r := Transition(policy, db, id, SubmissionRejected, None, now);
            && r.Ok?
            && r.value.value.status == SubmissionRejected
            && r.value.value.broadcastAttempts == 0
            && r.value.value.submissionFailureCode.None?
            && r.value.db.records[id].attempts == db.records[id].attempts
  {
    hide ObservationInv, GateInv, OutcomeInv;
  }
}
