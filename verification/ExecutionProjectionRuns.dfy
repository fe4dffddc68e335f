/** Runs in which every row can be shown, and runs that reach one that cannot. */
module ExecutionProjectionRuns {
  import opened Wrappers
  import opened PilotGate
  import opened ExecutionModels
  import opened RepositoryModel
  import opened RepositoryInvariants
  import opened RepositorySteps
  import opened RepositoryAllocation
  import opened RepositoryWriting
  import opened RepositoryContracts
  import opened HostedRelayer
  import opened HostedRelayerInvariants
  import opened HostedRelayerCalls
  import opened HostedRelayerSteps
  import opened HostedRelayerSafety
  import opened HostedRelayerProgress
  import opened HostedRelayerExample
  import opened HostedRelayerDetours
  import opened ExecutionProjection
  import opened ExecutionProjectionSafety

  ghost predicate AllShown(db: Db) {
    forall id :: id in db.records ==> Shown(db.records[id].row)
  }

  /** The step's call leaves each row alone, or keeps it shown; a new row has a deadline that can be shown. */
  ghost predicate StepKeepsShown(policy: Policy, db: Db, transaction: Transaction) {
    match transaction
    case Nothing => true
    case Pauses(_, _) => true
    case Allocates(intent, _, _, _, _) =>
      Commits(policy, db, transaction).records == db.records || SafeInteger(intent.deadline)
    case Writes(id, call) =>
      id in db.records ==>
        var after := Written(policy, db, id, call);
        && id in after.records
        && (after.records[id].row == db.records[id].row || KeepsShown(db.records[id].row, call))
  }

  lemma AllocationShownIff(
    policy: Policy, db: Db, intent: ExecutionIntent, pending: nat, confirmed: nat, newId: ExecutionId, now: int)
    requires AllShown(db)
    ensures var after := After(db, AllocateOrReturn(policy, db, intent, pending, confirmed, newId, now));
            AllShown(after) <==> after.records == db.records || SafeInteger(intent.deadline)
  {
    hide AllocateOrReturn, Shown, SharingIds, AllocateNonce, AdmissionDenial, NewRecord;
    var r := AllocateOrReturn(policy, db, intent, pending, confirmed, newId, now);
    if r.Ok? {
      AllocationOutcome(policy, db, intent, pending, confirmed, newId, now);
      if SharingIds(db, intent) == {} {
        NewRowShownIff(policy, intent, r.value.db.records[newId], now);
        forall j | j in db.records ensures j in r.value.db.records && r.value.db.records[j] == db.records[j] {
        }
      }
    }
  }

  lemma NewRowShownIff(policy: Policy, intent: ExecutionIntent, record: Record, now: Positive)
    requires intent.Valid() && record == NewRecord(policy, intent, record.row.relayerNonce, now)
    ensures Shown(record.row) <==> SafeInteger(intent.deadline)
  {
  }

  lemma WritingShownIff(policy: Policy, db: Db, id: ExecutionId, call: Writing)
    requires Inv(policy, db) && AllShown(db) && id in db.records
    ensures AllShown(Written(policy, db, id, call)) <==> StepKeepsShown(policy, db, Writes(id, call))
  {
    hide Inv, RecordInv, Shown, Written, KeepsShown, RecordStep;
    InvOfRecord(policy, db, id);
    CallKeepsShownIff(policy, db, id, call);
    WritingKeeps(policy, db, id, call);
    var after := Written(policy, db, id, call);
    forall j | j in after.records && j != id ensures j in db.records && after.records[j] == db.records[j] {
    }
  }

  /** From a state in which every row can be shown, a step keeps it so exactly when its call does. */
  lemma CommitShownIff(policy: Policy, db: Db, transaction: Transaction)
    requires Inv(policy, db) && AllShown(db)
    ensures AllShown(Commits(policy, db, transaction)) <==> StepKeepsShown(policy, db, transaction)
  {
    hide Inv, Shown, KeepsShown, Written, AllocateOrReturn;
    match transaction
    case Nothing =>
    case Pauses(_, _) =>
    case Allocates(intent, pending, confirmed, newId, now) =>
      AllocationShownIff(policy, db, intent, pending, confirmed, newId, now);
    case Writes(id, call) =>
      if id in db.records {
        WritingShownIff(policy, db, id, call);
      } else {
        UnknownIsUnwritten(policy, db, id, call);
      }
  }

  lemma SystemTables(policy: Policy, s: System)
    requires SystemInv(policy, s)
    ensures Inv(policy, s.db)
  {
    hide Inv, WorkersInv, WireInv, ClaimsInv, LeasesInv, RelayedInv;
  }

  /** Every step of the run keeps what it finds. */
  ghost predicate RunKeepsShown(policy: Policy, s: System, actions: seq<Action>)
    decreases |actions|
  {
    actions == [] ||
    (&& StepKeepsShown(policy, s.db, StepCall(policy, s, actions[0]))
     && RunKeepsShown(policy, Step(policy, s, actions[0]), actions[1..]))
  }

  /** In every state the run comes through, every row can be shown. */
  ghost predicate AlwaysShown(policy: Policy, s: System, actions: seq<Action>)
    decreases |actions|
  {
    AllShown(s.db) && (actions == [] || AlwaysShown(policy, Step(policy, s, actions[0]), actions[1..]))
  }

  lemma {:induction false} RunShownIff(policy: Policy, s: System, actions: seq<Action>)
    requires SystemInv(policy, s) && AllShown(s.db)
    ensures AlwaysShown(policy, s, actions) <==> RunKeepsShown(policy, s, actions)
    decreases |actions|
  {
    if actions != [] {
      hide SystemInv, Inv, AllShown, Step, StepKeepsShown, Commits, StepCall;
      var t := Step(policy, s, actions[0]);
      SystemTables(policy, s);
      StepCommits(policy, s, actions[0]);
      CommitShownIff(policy, s.db, StepCall(policy, s, actions[0]));
      StepKeepsInv(policy, s, actions[0]);
      if AllShown(t.db) {
        RunShownIff(policy, t, actions[1..]);
      } else {
        NotShownNow(policy, t, actions[1..]);
      }
    }
  }

  lemma NotShownNow(policy: Policy, s: System, actions: seq<Action>)
    requires !AllShown(s.db)
    ensures !AlwaysShown(policy, s, actions)
  {
    hide AllShown, Step;
  }

  /** The exact condition for a run: the projection never raises, on no row of no state the run comes through, if
      and only if every step keeps what it finds. */
  lemma AlwaysShownIff(policy: Policy, actions: seq<Action>)
    ensures AlwaysShown(policy, INITIAL, actions) <==> RunKeepsShown(policy, INITIAL, actions)
  {
    hide SystemInv, AlwaysShown, RunKeepsShown;
    InitialInv(policy);
    RunShownIff(policy, INITIAL, actions);
  }

  lemma {:induction false} ShownAtEnd(policy: Policy, s: System, actions: seq<Action>)
    requires AlwaysShown(policy, s, actions)
    ensures AllShown(Run(policy, s, actions).db)
    decreases |actions|
  {
    hide AllShown, Step;
    if actions != [] {
      ShownAtEnd(policy, Step(policy, s, actions[0]), actions[1..]);
    }
  }

  // ---------------------------------------------------------------- timely runs

  /** The clock reading of a call that may stamp a row. */
  function Reading(call: Writing): Option<int> {
    match call
    case RecordsAttempt(_) => None
    case _ => Some(call.now)
  }

  /** At or after everything that is stamped on the row. */
  predicate AfterAll(row: Execution, now: int) {
    && row.createdAt <= now
    && Follows(now, row.broadcastedAt)
    && Follows(now, row.confirmedAt)
    && Follows(now, row.finalizedAt)
    && Follows(now, row.revertedAt)
    && Follows(now, ReviewedAt(row))
  }

  /** What a careful caller sees to: a clock that does not run backwards past the row's stamps nor out of range,
      receipts with numbers in range, a failure code of its own, and no generic `transition` to the two targets that
      have a method. */
  predicate IsCareful(row: Execution, call: Writing) {
    && (Reading(call).Some? ==> AfterAll(row, Reading(call).value) && SafeReading(Reading(call).value))
    && (call.Transitions? ==> call.target != SubmissionRejected && call.target != Finalized)
    && (call.Confirms? || call.Reverts? || call.ReleasesReverted? ==> SafeReceipt(Some(call.seen)))
    && (call.MarksRejected? ==> !Attests(CodeOr(Some(call.reason), "submission_rejected")))
  }

  lemma CarefulKeepsShown(row: Execution, call: Writing)
    requires IsCareful(row, call)
    ensures KeepsShown(row, call)
  {
    hide Attests, CodeOr;
  }

  predicate StepIsCareful(db: Db, transaction: Transaction) {
    match transaction
    case Writes(id, call) => id in db.records ==> IsCareful(db.records[id].row, call)
    case Allocates(intent, _, _, _, _) => SafeInteger(intent.deadline)
    case _ => true
  }

  ghost predicate RunIsCareful(policy: Policy, s: System, actions: seq<Action>)
    decreases |actions|
  {
    actions == [] ||
    (&& StepIsCareful(s.db, StepCall(policy, s, actions[0]))
     && RunIsCareful(policy, Step(policy, s, actions[0]), actions[1..]))
  }

  lemma CarefulStepKeepsShown(policy: Policy, db: Db, transaction: Transaction)
    requires Inv(policy, db) && StepIsCareful(db, transaction)
    ensures StepKeepsShown(policy, db, transaction)
  {
    hide Inv, IsCareful, KeepsShown, Written, AllocateOrReturn, RecordStep;
    if transaction.Writes? && transaction.id in db.records {
      CarefulKeepsShown(db.records[transaction.id].row, transaction.call);
      WritingKeeps(policy, db, transaction.id, transaction.call);
    }
  }

  lemma {:induction false} CarefulRunKeepsShown(policy: Policy, s: System, actions: seq<Action>)
    requires SystemInv(policy, s) && RunIsCareful(policy, s, actions)
    ensures RunKeepsShown(policy, s, actions)
    decreases |actions|
  {
    if actions != [] {
      hide SystemInv, Inv, Step, StepIsCareful, StepKeepsShown, StepCall;
      SystemTables(policy, s);
      CarefulStepKeepsShown(policy, s.db, StepCall(policy, s, actions[0]));
      StepKeepsInv(policy, s, actions[0]);
      CarefulRunKeepsShown(policy, Step(policy, s, actions[0]), actions[1..]);
    }
  }

  /** With careful callers, no projection of a reachable row raises. */
  lemma CarefulRunsAreShown(policy: Policy, actions: seq<Action>, id: ExecutionId, result: Result<Response, ProjectionError>)
    requires RunIsCareful(policy, INITIAL, actions)
    requires id in Reached(policy, actions).db.records
    requires IsProjection(Reached(policy, actions).db.records[id].row, result)
    ensures result.Ok?
  {
    hide SystemInv, RunIsCareful, RunKeepsShown, AlwaysShown, Run, Shown, IsProjection;
    InitialInv(policy);
    CarefulRunKeepsShown(policy, INITIAL, actions);
    AlwaysShownIff(policy, actions);
    ShownAtEnd(policy, INITIAL, actions);
    ProjectedIff(policy, actions, id, result);
  }

  // ---------------------------------------------------------------- rows that are lost

  /** A row past `signed` that has no broadcast time, or times out of sequence, is never shown again: no continuation
      repairs it. */
  lemma LostRowStaysLost(
    policy: Policy, before: seq<Action>, after: seq<Action>, id: ExecutionId, result: Result<Response, ProjectionError>)
    requires id in Reached(policy, before).db.records
    requires var row := Reached(policy, before).db.records[id].row;
             Past(row) && (row.broadcastedAt.None? || !InSequence(row))
    ensures id in Reached(policy, before + after).db.records
    ensures IsProjection(Reached(policy, before + after).db.records[id].row, result) ==> result.Err?
  {
    hide Run, IsProjection;
    RecordsEvolve(policy, before, after, id);
    LostStays(Reached(policy, before).db.records[id], Reached(policy, before + after).db.records[id]);
    if IsProjection(Reached(policy, before + after).db.records[id].row, result) {
      ProjectedIff(policy, before + after, id, result);
    }
  }

  lemma LostStays(before: Record, after: Record)
    requires Evolves(before, after) && Past(before.row)
    requires before.row.broadcastedAt.None? || !InSequence(before.row)
    ensures !Shown(after.row)
  {
  }

  // ---------------------------------------------------------------- inputs on which the projection raises

  lemma AttestingCodeIsLong(code: string)
    requires Attests(code)
    ensures |code| == 26
  {
    assert |Upper(code)| == |code|;
  }

  /** The generic `transition` to `submission_rejected`, on any signed row that is shown: no submission time. */
  lemma SkippedBroadcastRaises(
    policy: Policy, record: Record, after: Record, result: Result<Response, ProjectionError>)
    requires RecordInv(policy, record) && RelayedInv(policy, record) && record.row.status == Signed && Shown(record.row)
    requires after == record.(row := record.row.(status := SubmissionRejected)) && IsProjection(after.row, result)
    ensures result == Err(Invalid(SubmissionTimeMissing))
  {
    hide JournalInv, ObservationInv, GateInv, Attests, IsProjection;
    if Attests("submission_rejected") {
      AttestingCodeIsLong("submission_rejected");
    }
    PlainTransitionGood(policy, record, SubmissionRejected);
    SignedKept(policy, record, after);
    RowIsProjectedIff(policy, after, result);
  }

  /** The generic `transition` to `finalized`, on any confirmed row that is shown: no finalization time. */
  lemma SkippedSettlementRaises(
    policy: Policy, record: Record, after: Record, result: Result<Response, ProjectionError>)
    requires RecordInv(policy, record) && RelayedInv(policy, record) && record.row.status == Confirmed && Shown(record.row)
    requires after == record.(row := record.row.(status := Finalized)) && IsProjection(after.row, result)
    ensures result == Err(Invalid(FinalizedTimeMissing))
  {
    hide JournalInv, ObservationInv, GateInv, Attests, IsProjection;
    PlainTransitionGood(policy, record, Finalized);
    SignedKept(policy, record, after);
    RowIsProjectedIff(policy, after, result);
  }

  /** A receipt observed at a reading before the broadcast, on any awaiting row that is shown: times out of order. */
  lemma EarlyReceiptRaises(
    policy: Policy, record: Record, seen: Finality, evidence: string, now: Positive,
    result: Result<Response, ProjectionError>)
    requires RecordInv(policy, record) && RelayedInv(policy, record) && Shown(record.row)
    requires AwaitingReceipt(record.row.status)
    requires seen.receiptStatus == 1 && seen.DeepEnough(record.row.intent.chain) && SafeReceipt(Some(seen))
    requires record.row.rawTransactionHash.Some?
    requires record.row.broadcastedAt.Some? && now < record.row.broadcastedAt.value
    requires IsProjection(Observe(record, Confirmed, seen, evidence, now).row, result)
    ensures result == Err(Invalid(TimesUnordered))
  {
    hide JournalInv, ObservationInv, GateInv, Attests, IsProjection;
    var after := Observe(record, Confirmed, seen, evidence, now);
    ConfirmGood(policy, record, seen, evidence, now);
    SignedKept(policy, record, after);
    RowIsProjectedIff(policy, after, result);
  }

  const ATTESTING_CODE := "unsigned_execution_expired"

  lemma CodeAttests()
    ensures Attests(ATTESTING_CODE)
  {
    var shown := "UNSIGNED_EXECUTION_EXPIRED";
    assert |ATTESTING_CODE| == |shown| == 26;
    assert forall i :: 0 <= i < 26 ==> UpperChar(ATTESTING_CODE[i]) == shown[i];
    assert Upper(ATTESTING_CODE) == shown;
  }

  /** A rejection whose code is that of an attestation, on any unknown row that is shown: the response reads as an
      attestation of an unsigned expiry. */
  lemma AttestingRejectionRaises(policy: Policy, record: Record, after: Record, result: Result<Response, ProjectionError>)
    requires RecordInv(policy, record) && RelayedInv(policy, record) && Shown(record.row)
    requires record.row.status == SubmissionUnknown
    requires after == record.(row := record.row.(status := SubmissionRejected, submissionFailureCode := Some(ATTESTING_CODE)))
    requires IsProjection(after.row, result)
    ensures result == Err(Invalid(AttestationMisplaced))
  {
    hide JournalInv, ObservationInv, GateInv, Attests, IsProjection;
    CodeAttests();
    MoveGood(policy, record, SubmissionRejected, Some(ATTESTING_CODE));
    SignedKept(policy, record, after);
    RowIsProjectedIff(policy, after, result);
  }

  /** The execution is there, and no projection of it succeeds. */
  ghost predicate CannotBeShown(policy: Policy, actions: seq<Action>, id: ExecutionId) {
    && id in Reached(policy, actions).db.records
    && forall result :: IsProjection(Reached(policy, actions).db.records[id].row, result) ==> result.Err?
  }

  lemma UnshownCannotBeShown(policy: Policy, actions: seq<Action>, id: ExecutionId)
    requires id in Reached(policy, actions).db.records && !Shown(Reached(policy, actions).db.records[id].row)
    ensures CannotBeShown(policy, actions, id)
  {
    hide Run, Shown, IsProjection;
    forall result | IsProjection(Reached(policy, actions).db.records[id].row, result) ensures result.Err? {
      ProjectedIff(policy, actions, id, result);
    }
  }

  /** A run reaches a confirmed row without a submission time, and so without a response. */
  lemma UncountedRowIsLost(policy: PilotGatePolicy, intent: ExecutionIntent, id: ExecutionId)
    requires Affordable(policy, intent)
    ensures exists actions ::
              && CannotBeShown(Some(policy), actions, id)
              && Reached(Some(policy), actions).db.records[id].row.status == Confirmed
  {
    hide Affordable, Run, CannotBeShown;
    UnjournaledIsReachable(policy, intent, id);
    var actions :|
      var s := Reached(Some(policy), actions);
      && id in s.db.records
      && s.db.records[id].row.status == Confirmed
      && Unjournaled(s.db.records[id].row)
      && s.db.records[id].row.broadcastedAt.None?
      && |s.db.records[id].attempts| == 1;
    UnshownCannotBeShown(Some(policy), actions, id);
  }

  /** A run reaches a finalized row without a finalization time, and so without a response. */
  lemma BypassedRowIsNotShown(policy: PilotGatePolicy, intent: ExecutionIntent, id: ExecutionId)
    requires Affordable(policy, intent)
    ensures exists actions ::
              && CannotBeShown(Some(policy), actions, id)
              && Reached(Some(policy), actions).db.records[id].row.status == Finalized
  {
    hide Affordable, Run, CannotBeShown;
    GapIsReachable(policy, intent, id);
    var actions :|
      var s := Reached(Some(policy), actions);
      && id in s.db.records
      && s.db.records[id].row.status == Finalized
      && s.db.records[id].gate.Some?
      && s.db.records[id].gate.value.state == Reserved;
    ReachableRecord(Some(policy), actions, id);
    UnshownCannotBeShown(Some(policy), actions, id);
  }

  /** Confirmed at reading 2. */
  function ConfirmedLate(policy: PilotGatePolicy, intent: ExecutionIntent): Record
    requires Affordable(policy, intent)
  {
    Observe(SubmittedRecord(policy, intent), Confirmed, Seen(intent.chain), "", 2)
  }

  lemma ConfirmedAtTwo(policy: PilotGatePolicy, intent: ExecutionIntent, id: ExecutionId, s: System)
    requires Affordable(policy, intent) && s.db == Sole(id, SubmittedRecord(policy, intent))
    ensures Step(Some(policy), s, Environment(WatchConfirm(id, Seen(intent.chain), "", 2)))
            == s.(db := Sole(id, ConfirmedLate(policy, intent)))
  {
    hide WorstCaseGasUsdMicros, NativeSpend;
  }

  lemma FinalizedAtOne(policy: PilotGatePolicy, intent: ExecutionIntent, id: ExecutionId, s: System)
    requires Affordable(policy, intent) && s.db == Sole(id, ConfirmedLate(policy, intent))
    ensures var t := Step(Some(policy), s, Environment(WatchFinalize(id, Profile(intent.chain).boundary, 1)));
            && id in t.db.records
            && t.db.records[id].row.status == Finalized
            && t.db.records[id].row.confirmedAt == Some(2)
            && t.db.records[id].row.finalizedAt == Some(1)
            && t.db.records[id].row.rawTransaction.Some?
  {
    hide WorstCaseGasUsdMicros, NativeSpend;
  }

  /** A run by the dedicated methods alone reaches a row whose times are out of order, as one clock is behind
      another, and so without a response. */
  lemma UnorderedRowIsLost(policy: PilotGatePolicy, intent: ExecutionIntent, id: ExecutionId)
    requires Affordable(policy, intent)
    ensures exists actions ::
              && UsesDedicatedMethods(actions)
              && CannotBeShown(Some(policy), actions, id)
              && Reached(Some(policy), actions).db.records[id].row.status == Finalized
  {
    hide Affordable, Leads, Step, Run, CannotBeShown, UsesDedicatedMethods, SubmittedRecord, ConfirmedLate;
    var p, raw, accepted := Some(policy), Bytes(intent), Accepted(TxHash(Bytes(intent)));
    PaymentIsAnswered(policy, intent, id, accepted);
    SettledStep(policy, intent, id);
    LeadsByWork(
      p, INITIAL,
      At(
        id, ClaimedRecord(policy, intent), Settling(id, raw, 1, false, accepted), [OnWire(intent, id)], [id],
        [Lent(intent, id)]),
      Proceed);
    var s := At(id, SubmittedRecord(policy, intent), Idle, [OnWire(intent, id)], [id], [Lent(intent, id)]);
    var confirm := WatchConfirm(id, Seen(intent.chain), "", 2);
    var finalize := WatchFinalize(id, Profile(intent.chain).boundary, 1);
    LeadsByCall(p, INITIAL, s, confirm);
    LeadsByCall(p, INITIAL, Step(p, s, Environment(confirm)), finalize);
    ConfirmedAtTwo(policy, intent, id, s);
    FinalizedAtOne(policy, intent, id, Step(p, s, Environment(confirm)));
    var t := Step(p, Step(p, s, Environment(confirm)), Environment(finalize));
    DedicatedRunTo(p, t);
    var actions :| UsesDedicatedMethods(actions) && Run(p, INITIAL, actions) == t;
    assert Reached(p, actions) == t;
    UnshownCannotBeShown(p, actions, id);
  }

  lemma DedicatedRunTo(policy: Policy, s: System)
    requires Leads(policy, INITIAL, s)
    ensures exists actions :: UsesDedicatedMethods(actions) && Run(policy, INITIAL, actions) == s
  {
    hide Run, UsesDedicatedMethods;
  }
}
