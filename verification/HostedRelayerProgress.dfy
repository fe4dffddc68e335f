/** No reachable execution is stuck: what release needs, and which outcomes every row can still come to,
    whatever the workers do and whatever is paused. */
module HostedRelayerProgress {
  import opened Wrappers
  import opened PilotGate
  import opened ExecutionModels
  import opened RepositoryModel
  import opened RepositoryInvariants
  import opened RepositorySteps
  import opened RepositoryWriting
  import opened RepositoryEdges
  import opened HostedRelayer
  import opened HostedRelayerCalls
  import opened HostedRelayerInvariants
  import opened HostedRelayerSteps
  import opened HostedRelayerSafety
  import opened HostedRelayerExample
  import opened HostedRelayerDetours
  import opened WatchQueue

  /** The deadline release of a reachable row succeeds exactly on one that has ended, and on an unsigned one at
      or after its deadline. No pause switch, quota or worker prevents it. */
  lemma ReleaseExpiredIff(policy: Policy, actions: seq<Action>, id: ExecutionId, now: int)
    requires id in Reached(policy, actions).db.records
    ensures var db := Reached(policy, actions).db;
            var row := db.records[id].row;
            var r := ReleaseExpired(policy, db, id, now);
            && (r.Ok? <==> now > 0 && (!Active(row.status) || (row.signature.None? && now >= row.intent.deadline)))
            && (r.Ok? && Active(row.status) ==>
                  r.value.value.status == Released && r.value.db.records[id].row == r.value.value)
            && (r.Ok? && !Active(row.status) ==> r.value.db == db)
  {
    hide Run, JournalInv, ObservationInv;
    ReachableRecord(policy, actions, id);
  }

  // ---------------------------------------------------------------- single steps

  ghost predicate Is(s: System, id: ExecutionId, status: ExecutionState) {
    id in s.db.records && s.db.records[id].row.status == status
  }

  /** Some continuation by the dedicated methods takes the execution to `status`. */
  ghost predicate CanBecome(policy: Policy, s: System, id: ExecutionId, status: ExecutionState) {
    exists actions :: UsesDedicatedMethods(actions) && Is(Run(policy, s, actions), id, status)
  }

  lemma BecomesAtOnce(policy: Policy, s: System, id: ExecutionId, status: ExecutionState)
    requires Is(s, id, status)
    ensures CanBecome(policy, s, id, status)
  {
    hide Is;
    assert Run(policy, s, []) == s;
    assert UsesDedicatedMethods([]);
  }

  lemma BecomesNext(policy: Policy, s: System, action: Action, id: ExecutionId, status: ExecutionState)
    requires !(action.Environment? && Bypass(action.call))
    requires CanBecome(policy, Step(policy, s, action), id, status)
    ensures CanBecome(policy, s, id, status)
  {
    hide Is, Step, Bypass, Run;
    var rest :| UsesDedicatedMethods(rest) && Is(Run(policy, Step(policy, s, action), rest), id, status);
    var actions := [action] + rest;
    RunUnfold(policy, s, actions);
    assert actions[1..] == rest;
  }

  lemma FreshWorker(taken: set<WorkerId>) returns (w: WorkerId)
    ensures w !in taken && forall v :: v in taken ==> v < w
    decreases |taken|
  {
    if taken == {} {
      w := 0;
    } else {
      var v :| v in taken;
      var u := FreshWorker(taken - {v});
      assert forall x :: x in taken ==> x == v || x in taken - {v};
      w := if u <= v then v + 1 else u;
    }
  }

  lemma SignedIsMarked(policy: Policy, db: Db, id: ExecutionId)
    requires id in db.records && RecordInv(policy, db.records[id]) && db.records[id].row.status == Signed
    ensures var r := MarkSubmitted(db, id, 1);
            r.Ok? && id in r.value.db.records && r.value.db.records[id].row.status == Submitted
  {
    hide ObservationInv, GateInv, OutcomeInv, LeaseInv, UnsignedInv, EndInv;
  }

  lemma InspectionSteps(policy: Policy, s: System, w: WorkerId, id: ExecutionId)
    requires w !in s.workers && Is(s, id, Signed)
    ensures var t := Step(policy, s, Work(w, StartInspect(id, false)));
            && t.db == s.db
            && Step(policy, t, Work(w, Lookup(true, 1))).db == After(s.db, MarkSubmitted(s.db, id, 1))
  {
    hide MarkSubmitted;
  }

  lemma ConfirmStep(policy: Policy, s: System, id: ExecutionId)
    requires id in s.db.records && Receivable(policy, s.db.records[id])
    ensures var call := WatchConfirm(id, Seen(s.db.records[id].row.intent.chain), "", 1);
            Is(Step(policy, s, Environment(call)), id, Confirmed)
  {
  }

  lemma FinalizeStep(policy: Policy, s: System, id: ExecutionId)
    requires id in s.db.records && RecordInv(policy, s.db.records[id]) && Is(s, id, Confirmed)
    ensures var call := WatchFinalize(id, Profile(s.db.records[id].row.intent.chain).boundary, 1);
            Is(Step(policy, s, Environment(call)), id, Finalized)
  {
    hide JournalInv, ObservationInv;
  }

  predicate Receivable(policy: Policy, record: Record) {
    && AwaitingReceipt(record.row.status)
    && record.row.rawTransactionHash.Some?
    && (policy.Some? ==> record.gate.Some? && record.gate.value.state == Reserved)
  }

  lemma AwaitingIsReceivable(policy: Policy, record: Record)
    requires RecordInv(policy, record) && AwaitingReceipt(record.row.status)
    ensures Receivable(policy, record)
  {
    hide JournalInv, ObservationInv, LeaseInv, UnsignedInv;
  }

  lemma RevertedStep(policy: Policy, s: System, id: ExecutionId)
    requires id in s.db.records && Receivable(policy, s.db.records[id])
    ensures var call := WatchRevert(id, SeenFailed(s.db.records[id].row.intent.chain), false, "", 1);
            Is(Step(policy, s, Environment(call)), id, Reverted)
  {
  }

  /** The release of a reverted row, once its deadline and its revert lie behind. */
  function Releasing(id: ExecutionId, row: Execution): Call
    requires row.finality.Some? && row.revertedAt.Some?
  {
    WatchReleaseReverted(
      id, row.finality.value, NoTransfer(row.intent.deadline),
      if row.revertedAt.value < row.intent.deadline then row.intent.deadline else row.revertedAt.value)
  }

  predicate Releasable(policy: Policy, record: Record) {
    && record.row.finality.Some?
    && record.row.finality.value.DeepEnough(record.row.intent.chain)
    && record.row.finality.value.receiptStatus == 0
    && record.row.revertedAt.Some?
    && record.row.releaseEvidence.None?
    && record.row.intent.deadline > 0
    && (policy.Some? ==> record.gate.Some?)
  }

  lemma RevertedIsReleasable(policy: Policy, record: Record)
    requires RecordInv(policy, record) && record.row.status == Reverted
    ensures Releasable(policy, record)
  {
    hide JournalInv, ObservationInv, LeaseInv, UnsignedInv;
  }

  lemma ReleasedStep(policy: Policy, s: System, id: ExecutionId)
    requires Is(s, id, Reverted) && Releasable(policy, s.db.records[id])
    ensures Is(Step(policy, s, Environment(Releasing(id, s.db.records[id].row))), id, Released)
  {
  }

  // ---------------------------------------------------------------- from any state

  lemma InvRecord(policy: Policy, s: System, id: ExecutionId)
    requires SystemInv(policy, s) && id in s.db.records
    ensures RecordInv(policy, s.db.records[id]) && RelayedInv(policy, s.db.records[id])
  {
    hide WorkersInv, WireInv, ClaimsInv, LeasesInv, RecordInv, RelayedInv;
    TablesRecord(policy, s.db, id);
  }

  lemma ConfirmedCanFinalize(policy: Policy, s: System, id: ExecutionId)
    requires SystemInv(policy, s) && Is(s, id, Confirmed)
    ensures CanBecome(policy, s, id, Finalized)
  {
    hide SystemInv, RecordInv, RelayedInv, Step, CanBecome;
    InvRecord(policy, s, id);
    FinalizeStep(policy, s, id);
    var action := Environment(WatchFinalize(id, Profile(s.db.records[id].row.intent.chain).boundary, 1));
    BecomesAtOnce(policy, Step(policy, s, action), id, Finalized);
    BecomesNext(policy, s, action, id, Finalized);
  }

  lemma RevertedCanRelease(policy: Policy, s: System, id: ExecutionId)
    requires SystemInv(policy, s) && Is(s, id, Reverted)
    ensures CanBecome(policy, s, id, Released)
  {
    hide SystemInv, RecordInv, RelayedInv, Step, CanBecome;
    InvRecord(policy, s, id);
    RevertedIsReleasable(policy, s.db.records[id]);
    ReleasedStep(policy, s, id);
    var action := Environment(Releasing(id, s.db.records[id].row));
    BecomesAtOnce(policy, Step(policy, s, action), id, Released);
    BecomesNext(policy, s, action, id, Released);
  }

  lemma AwaitingCanBecomeEither(policy: Policy, s: System, id: ExecutionId)
    requires SystemInv(policy, s) && id in s.db.records && AwaitingReceipt(s.db.records[id].row.status)
    ensures CanBecome(policy, s, id, Finalized) && CanBecome(policy, s, id, Released)
  {
    hide SystemInv, RecordInv, RelayedInv, Step, CanBecome, AwaitingReceipt, SeenFailed, Seen, Receivable;
    InvRecord(policy, s, id);
    AwaitingIsReceivable(policy, s.db.records[id]);
    var chain := s.db.records[id].row.intent.chain;
    var confirm := Environment(WatchConfirm(id, Seen(chain), "", 1));
    ConfirmStep(policy, s, id);
    StepKeepsInv(policy, s, confirm);
    ConfirmedCanFinalize(policy, Step(policy, s, confirm), id);
    BecomesNext(policy, s, confirm, id, Finalized);
    var revert := Environment(WatchRevert(id, SeenFailed(chain), false, "", 1));
    RevertedStep(policy, s, id);
    StepKeepsInv(policy, s, revert);
    RevertedCanRelease(policy, Step(policy, s, revert), id);
    BecomesNext(policy, s, revert, id, Released);
  }

  lemma SignedCanBecomeEither(policy: Policy, s: System, id: ExecutionId)
    requires SystemInv(policy, s) && Is(s, id, Signed)
    ensures CanBecome(policy, s, id, Finalized) && CanBecome(policy, s, id, Released)
  {
    hide SystemInv, RecordInv, RelayedInv, Step, CanBecome, MarkSubmitted;
    var w := FreshWorker(s.workers.Keys);
    var start, found := Work(w, StartInspect(id, false)), Work(w, Lookup(true, 1));
    var t := Step(policy, s, start);
    var u := Step(policy, t, found);
    InvRecord(policy, s, id);
    SignedIsMarked(policy, s.db, id);
    InspectionSteps(policy, s, w, id);
    StepKeepsInv(policy, s, start);
    StepKeepsInv(policy, t, found);
    AwaitingCanBecomeEither(policy, u, id);
    forall status | status in {Finalized, Released} ensures CanBecome(policy, s, id, status) {
      BecomesNext(policy, t, found, id, status);
      BecomesNext(policy, s, start, id, status);
    }
  }

  lemma UnsignedCanRelease(policy: Policy, s: System, id: ExecutionId)
    requires SystemInv(policy, s) && id in s.db.records
    requires s.db.records[id].row.signature.None? && Active(s.db.records[id].row.status)
    ensures CanBecome(policy, s, id, Released)
  {
    hide SystemInv, Step, CanBecome, RecordInv, RelayedInv;
    InvRecord(policy, s, id);
    var action := Environment(WatchReleaseExpired(id, s.db.records[id].row.intent.deadline));
    UnsignedReleases(policy, s, id);
    BecomesAtOnce(policy, Step(policy, s, action), id, Released);
    BecomesNext(policy, s, action, id, Released);
  }

  lemma UnsignedReleases(policy: Policy, s: System, id: ExecutionId)
    requires id in s.db.records && RecordInv(policy, s.db.records[id]) && RelayedInv(policy, s.db.records[id])
    requires s.db.records[id].row.signature.None? && Active(s.db.records[id].row.status)
    ensures Is(Step(policy, s, Environment(WatchReleaseExpired(id, s.db.records[id].row.intent.deadline))), id, Released)
  {
    hide JournalInv, ObservationInv;
  }

  /** What the statuses of a signed row allow from any state of the system. */
  lemma SignedCanBecome(policy: Policy, s: System, id: ExecutionId)
    requires SystemInv(policy, s) && id in s.db.records && HasMaterial(s.db.records[id].row)
    ensures Phase(s.db.records[id].row.status) <= Phase(Finalized) ==> CanBecome(policy, s, id, Finalized)
    ensures !SuccessObserved(s.db.records[id].row.status) ==> CanBecome(policy, s, id, Released)
  {
    hide SystemInv, CanBecome, RelayedInv, JournalInv, ObservationInv, GateInv, OutcomeInv, LeaseInv;
    InvRecord(policy, s, id);
    match s.db.records[id].row.status
    case Signed => SignedCanBecomeEither(policy, s, id);
    case Submitted => AwaitingCanBecomeEither(policy, s, id);
    case SubmissionUnknown => AwaitingCanBecomeEither(policy, s, id);
    case SubmissionRejected => AwaitingCanBecomeEither(policy, s, id);
    case Confirmed => ConfirmedCanFinalize(policy, s, id);
    case Finalized => BecomesAtOnce(policy, s, id, Finalized);
    case Reverted => RevertedCanRelease(policy, s, id);
    case Released => BecomesAtOnce(policy, s, id, Released);
    case _ =>
  }

  // ---------------------------------------------------------------- from every reachable state

  /** A signed execution can still be finalized exactly when it is not reverted, released or in review. */
  lemma SignedCanFinalizeIff(policy: Policy, before: seq<Action>, id: ExecutionId)
    requires id in Reached(policy, before).db.records && Reached(policy, before).db.records[id].row.rawTransaction.Some?
    ensures Reached(policy, before).db.records[id].row.status !in {Reverted, Released, ReorgReview}
            <==> exists after :: Is(Reached(policy, before + after), id, Finalized)
  {
    hide SystemInv, Run, CanBecome;
    var s := Reached(policy, before);
    Reachable(policy, before);
    SignedNotExpired(policy, before, id);
    SignedCanBecome(policy, s, id);
    if s.db.records[id].row.status !in {Reverted, Released, ReorgReview} {
      ContinuesTo(policy, before, id, Finalized);
    }
    forall after | Is(Reached(policy, before + after), id, Finalized)
      ensures s.db.records[id].row.status !in {Reverted, Released, ReorgReview}
    {
      RecordsEvolve(policy, before, after, id);
    }
  }

  /** It can still be released exactly when no successful receipt has been observed. */
  lemma SignedCanReleaseIff(policy: Policy, before: seq<Action>, id: ExecutionId)
    requires id in Reached(policy, before).db.records && Reached(policy, before).db.records[id].row.rawTransaction.Some?
    ensures Reached(policy, before).db.records[id].row.status !in {Confirmed, Finalized, ReorgReview}
            <==> exists after :: Is(Reached(policy, before + after), id, Released)
  {
    hide SystemInv, Run, CanBecome;
    var s := Reached(policy, before);
    Reachable(policy, before);
    SignedCanBecome(policy, s, id);
    if !SuccessObserved(s.db.records[id].row.status) {
      ContinuesTo(policy, before, id, Released);
    }
    forall after | Is(Reached(policy, before + after), id, Released)
      ensures s.db.records[id].row.status !in {Confirmed, Finalized, ReorgReview}
    {
      RecordsEvolve(policy, before, after, id);
    }
  }

  lemma SignedNotExpired(policy: Policy, actions: seq<Action>, id: ExecutionId)
    requires id in Reached(policy, actions).db.records && HasMaterial(Reached(policy, actions).db.records[id].row)
    ensures Reached(policy, actions).db.records[id].row.status !in {Expired, Requested, PreflightApproved, Signing}
  {
    hide Run;
    ReachableRecord(policy, actions, id);
  }

  /** Some continuation of the run takes the execution to `status`, by the dedicated methods. */
  ghost predicate Continues(policy: Policy, before: seq<Action>, id: ExecutionId, status: ExecutionState) {
    exists after :: UsesDedicatedMethods(after) && Is(Reached(policy, before + after), id, status)
  }

  lemma ContinuesTo(policy: Policy, before: seq<Action>, id: ExecutionId, status: ExecutionState)
    requires CanBecome(policy, Reached(policy, before), id, status)
    ensures Continues(policy, before, id, status)
  {
    hide Run, Is;
    var after :| UsesDedicatedMethods(after) && Is(Run(policy, Reached(policy, before), after), id, status);
    RunConcat(policy, INITIAL, before, after);
    assert Is(Reached(policy, before + after), id, status);
  }

  predicate IsOutcome(status: ExecutionState) {
    status in {Finalized, ReorgReview, Released, Expired}
  }

  /** No reachable execution is stuck: by the dedicated methods each can come to an outcome. */
  lemma OutcomeIsReachable(policy: Policy, before: seq<Action>, id: ExecutionId)
    requires id in Reached(policy, before).db.records
    ensures exists status :: IsOutcome(status) && Continues(policy, before, id, status)
  {
    hide SystemInv, Run, CanBecome, Continues;
    var s := Reached(policy, before);
    var status := s.db.records[id].row.status;
    Reachable(policy, before);
    InvRecord(policy, s, id);
    hide RecordInv, RelayedInv;
    var to;
    if IsOutcome(status) {
      to := status;
      BecomesAtOnce(policy, s, id, to);
    } else if !HasMaterial(s.db.records[id].row) {
      to := Released;
      UnsignedSignature(policy, s.db.records[id]);
      UnsignedCanRelease(policy, s, id);
    } else {
      to := if SuccessObserved(status) then Finalized else Released;
      SignedCanBecome(policy, s, id);
    }
    ContinuesTo(policy, before, id, to);
  }

  lemma UnsignedSignature(policy: Policy, record: Record)
    requires RecordInv(policy, record) && !HasMaterial(record.row)
    ensures record.row.signature.None?
  {
  }

  // ---------------------------------------------------------------- what the watcher must look at

  /** The calls by which a watcher moves an execution. */
  predicate IsWatcherCall(call: Call) {
    || call.WatchConfirm? || call.WatchRevert? || call.WatchFinalize? || call.WatchReleaseReverted? || call.WatchReorg?
    || call.WatchReleaseExpired?
  }

  /** The call, whatever its arguments, changes the status of the execution it names. */
  ghost predicate MovesBy(policy: Policy, s: System, id: ExecutionId, call: Call) {
    && IsWatcherCall(call)
    && call.id == id
    && id in s.db.records
    && !Is(Step(policy, s, Environment(call)), id, s.db.records[id].row.status)
  }

  lemma WatchedCallMoves(policy: Policy, s: System, id: ExecutionId)
    requires SystemInv(policy, s) && id in s.db.records
    requires s.db.records[id].row.status !in {Requested, Signed, Expired, Released, ReorgReview}
    ensures exists call :: MovesBy(policy, s, id, call)
  {
    hide SystemInv, Step, Seen, RecordInv, RelayedInv, Receivable;
    InvRecord(policy, s, id);
    var record := s.db.records[id];
    var row := record.row;
    if row.status == Confirmed {
      FinalizeStep(policy, s, id);
      assert MovesBy(policy, s, id, WatchFinalize(id, Profile(row.intent.chain).boundary, 1));
    } else if row.status == Reverted {
      RevertedIsReleasable(policy, record);
      ReleasedStep(policy, s, id);
      assert MovesBy(policy, s, id, Releasing(id, row));
    } else if row.status == Finalized {
      ReviewStep(policy, s, id);
      assert MovesBy(policy, s, id, WatchReorg(id, "", false, 1));
    } else if row.status == PreflightApproved || row.status == Signing {
      UnsignedMoves(policy, s, id);
    } else {
      AwaitingIsReceivable(policy, record);
      ConfirmStep(policy, s, id);
      assert MovesBy(policy, s, id, WatchConfirm(id, Seen(row.intent.chain), "", 1));
    }
  }

  lemma UnsignedMoves(policy: Policy, s: System, id: ExecutionId)
    requires id in s.db.records && RecordInv(policy, s.db.records[id]) && RelayedInv(policy, s.db.records[id])
    requires s.db.records[id].row.status in {PreflightApproved, Signing}
    ensures exists call :: MovesBy(policy, s, id, call)
  {
    hide JournalInv, ObservationInv, GateInv, OutcomeInv;
    var call := WatchReleaseExpired(id, s.db.records[id].row.intent.deadline);
    UnsignedReleases(policy, s, id);
    hide Step;
    assert MovesBy(policy, s, id, call);
  }

  lemma ReviewStep(policy: Policy, s: System, id: ExecutionId)
    requires Is(s, id, Finalized)
    ensures Is(Step(policy, s, Environment(WatchReorg(id, "", false, 1))), id, ReorgReview)
  {
  }

  lemma MovedIsWatched(policy: Policy, s: System, id: ExecutionId, call: Call)
    requires SystemInv(policy, s) && MovesBy(policy, s, id, call)
    ensures s.db.records[id].row.status !in {Requested, Signed, Expired, Released, ReorgReview}
  {
    hide SystemInv, Written, CallResult;
    EnvironmentCommits(policy, s.db, call);
    var writing := EnvironmentCall(call).call;
    if writing.Confirms? || writing.Reverts? {
      ReceiptMakes(policy, s.db, id, writing);
    } else if writing.ReleasesExpired? {
      EndMakes(policy, s.db, id, writing);
    } else {
      OutcomeMakes(policy, s.db, id, writing);
    }
  }

  /** The listing passes over no row that the watcher could still move, and lists no other: a reachable row of the
      chain is watchable if and only if some call of a watcher, with some arguments, changes its status. */
  lemma WatchableIff(policy: Policy, actions: seq<Action>, id: ExecutionId, chain: Chain)
    requires id in Reached(policy, actions).db.records
    ensures var s := Reached(policy, actions);
            Watchable(s.db.records[id], chain)
            <==> s.db.records[id].row.intent.chain == chain && exists call :: MovesBy(policy, s, id, call)
  {
    hide Run, SystemInv, MovesBy;
    var s := Reached(policy, actions);
    Reachable(policy, actions);
    RevertedHasNoEvidence(policy, s, id);
    if s.db.records[id].row.status !in {Requested, Signed, Expired, Released, ReorgReview} {
      WatchedCallMoves(policy, s, id);
    }
    forall call | MovesBy(policy, s, id, call)
      ensures s.db.records[id].row.status !in {Requested, Signed, Expired, Released, ReorgReview}
    {
      MovedIsWatched(policy, s, id, call);
    }
  }

  lemma RevertedHasNoEvidence(policy: Policy, s: System, id: ExecutionId)
    requires SystemInv(policy, s) && id in s.db.records
    ensures s.db.records[id].row.status == Reverted ==> s.db.records[id].row.releaseEvidence.None?
    ensures s.db.records[id].row.status != Requested
  {
    InvRecord(policy, s, id);
  }
}
