/** Runs off the straight path: each of the five edges beside the declared table is taken, a transaction is
    sent again after its row was released, and a row is confirmed without a journaled broadcast. */
module HostedRelayerDetours {
  import opened Wrappers
  import opened Sums
  import opened PilotGate
  import opened ExecutionModels
  import opened RepositoryModel
  import opened RepositoryInvariants
  import opened RepositorySteps
  import opened HostedRelayer
  import opened HostedRelayerSteps
  import opened HostedRelayerSafety
  import opened HostedRelayerExample

  const CODE := "nonce_too_low"

  function SeenFailed(chain: Chain): Finality {
    Seen(chain).(receiptStatus := 0)
  }

  /** Proof of no transfer at a boundary on the deadline. */
  function NoTransfer(deadline: int): ReleaseEvidence {
    ReleaseEvidence(0, true, deadline, false, false, false, false)
  }

  function InState(record: Record, state: GateState): Record
    requires record.gate.Some?
  {
    record.(gate := Some(record.gate.value.(state := state)))
  }

  // ---------------------------------------------------------------- records

  function RejectedRecord(policy: PilotGatePolicy, intent: ExecutionIntent): Record
    requires Affordable(policy, intent)
  {
    var r := ClaimedRecord(policy, intent);
    r.(row := r.row.(status := SubmissionRejected, submissionFailureCode := Some(CODE)))
  }

  /** A record in submission, open to a receipt. */
  predicate Awaiting(record: Record, intent: ExecutionIntent) {
    && record.row.intent == intent
    && AwaitingReceipt(record.row.status)
    && record.row.rawTransaction.Some?
    && record.row.rawTransactionHash == Some(TxHash(record.row.rawTransaction.value))
    && record.row.releaseEvidence.None?
    && record.gate.Some?
    && record.gate.value.state == Reserved
    && record.observations == []
  }

  function RevertedFrom(record: Record, intent: ExecutionIntent): Record
    requires Awaiting(record, intent)
  {
    InState(Observe(record, Reverted, SeenFailed(intent.chain), "", 1), RepositoryModel.Settled)
  }

  function ReleasedFrom(record: Record, intent: ExecutionIntent): Record
    requires Awaiting(record, intent)
  {
    InState(
      EndReverted(RevertedFrom(record, intent), SeenFailed(intent.chain), NoTransfer(intent.deadline), intent.deadline),
      ReleasedGate)
  }

  // ---------------------------------------------------------------- steps from any such record

  lemma RevertStep(policy: PilotGatePolicy, intent: ExecutionIntent, id: ExecutionId, r: Record, s: System)
    requires Awaiting(r, intent) && s.db == Sole(id, r)
    ensures Step(Some(policy), s, Environment(WatchRevert(id, SeenFailed(intent.chain), false, "", 1)))
            == s.(db := Sole(id, RevertedFrom(r, intent)))
  {
  }

  lemma ConfirmsStep(policy: PilotGatePolicy, intent: ExecutionIntent, id: ExecutionId, r: Record, s: System)
    requires Awaiting(r, intent) && s.db == Sole(id, r)
    ensures Step(Some(policy), s, Environment(WatchConfirm(id, Seen(intent.chain), "", 1)))
            == s.(db := Sole(id, Observe(r, Confirmed, Seen(intent.chain), "", 1)))
  {
  }

  lemma ReleaseStep(policy: PilotGatePolicy, intent: ExecutionIntent, id: ExecutionId, r: Record, s: System)
    requires Awaiting(r, intent) && intent.deadline > 1 && s.db == Sole(id, RevertedFrom(r, intent))
    ensures Step(
              Some(policy), s,
              Environment(
                WatchReleaseReverted(id, SeenFailed(intent.chain), NoTransfer(intent.deadline), intent.deadline)))
            == s.(db := Sole(id, ReleasedFrom(r, intent)))
  {
  }

  lemma SkipStep(policy: PilotGatePolicy, intent: ExecutionIntent, id: ExecutionId, s: System)
    requires Affordable(policy, intent) && s.db == Sole(id, SignedRecord(policy, intent))
    ensures var r := SignedRecord(policy, intent);
            Step(Some(policy), s, Environment(OperatorTransition(id, SubmissionRejected, None, 1)))
            == s.(db := Sole(id, r.(row := r.row.(status := SubmissionRejected))))
  {
    hide WorstCaseGasUsdMicros, NativeSpend;
  }

  lemma RejectedStep(policy: PilotGatePolicy, intent: ExecutionIntent, id: ExecutionId)
    requires Affordable(policy, intent)
    ensures var lent, wire := [Lent(intent, id)], [OnWire(intent, id)];
            Step(
              Some(policy),
              At(
                id, ClaimedRecord(policy, intent), Settling(id, Bytes(intent), 1, false, SubmissionRejectedAnswer(CODE)),
                wire, [id], lent),
              Work(0, Proceed))
            == At(id, RejectedRecord(policy, intent), Idle, wire, [id], lent)
  {
    hide Total, NativeSpend;
  }

  lemma AwaitingRecords(policy: PilotGatePolicy, intent: ExecutionIntent)
    requires Affordable(policy, intent)
    ensures Awaiting(ClaimedRecord(policy, intent), intent) && ClaimedRecord(policy, intent).row.status == SubmissionUnknown
    ensures Awaiting(SubmittedRecord(policy, intent), intent) && SubmittedRecord(policy, intent).row.status == Submitted
    ensures Awaiting(RejectedRecord(policy, intent), intent) && RejectedRecord(policy, intent).row.status == SubmissionRejected
    ensures var r := SignedRecord(policy, intent);
            && r.row.broadcastAttempts == 0
            && Awaiting(r.(row := r.row.(status := SubmissionRejected)), intent)
  {
    hide WorstCaseGasUsdMicros, NativeSpend;
  }

  // ---------------------------------------------------------------- runs

  lemma LeadsByCall(policy: Policy, s: System, t: System, call: Call)
    requires Leads(policy, s, t) && !Bypass(call)
    ensures Leads(policy, s, Step(policy, t, Environment(call)))
  {
    hide Leads, Step, Bypass;
    LeadsInOne(policy, t, Environment(call));
    LeadsOn(policy, s, t, Step(policy, t, Environment(call)));
  }

  /** In some run the execution is in state `from`, and the next step takes it to `to`. */
  ghost predicate Taken(policy: Policy, id: ExecutionId, from: ExecutionState, to: ExecutionState) {
    exists actions, action :: TakenBy(policy, id, from, to, actions, action)
  }

  ghost predicate TakenBy(
    policy: Policy, id: ExecutionId, from: ExecutionState, to: ExecutionState, actions: seq<Action>, action: Action)
  {
    var s := Reached(policy, actions);
    var t := Step(policy, s, action);
    && id in s.db.records
    && s.db.records[id].row.status == from
    && id in t.db.records
    && t.db.records[id].row.status == to
  }

  lemma TakenFrom(policy: Policy, id: ExecutionId, s: System, action: Action, from: ExecutionState, to: ExecutionState)
    requires Leads(policy, INITIAL, s)
    requires id in s.db.records && s.db.records[id].row.status == from
    requires var t := Step(policy, s, action); id in t.db.records && t.db.records[id].row.status == to
    ensures Taken(policy, id, from, to)
  {
    hide Step, Run;
    var actions :| UsesDedicatedMethods(actions) && Run(policy, INITIAL, actions) == s;
    assert Reached(policy, actions) == s;
    assert TakenBy(policy, id, from, to, actions, action);
  }

  lemma PaymentIsRejected(policy: PilotGatePolicy, intent: ExecutionIntent, id: ExecutionId)
    requires Affordable(policy, intent)
    ensures Leads(
              Some(policy), INITIAL,
              At(id, RejectedRecord(policy, intent), Idle, [OnWire(intent, id)], [id], [Lent(intent, id)]))
  {
    hide *;
    var answer := SubmissionRejectedAnswer(CODE);
    PaymentIsAnswered(policy, intent, id, answer);
    RejectedStep(policy, intent, id);
    LeadsByWork(
      Some(policy), INITIAL,
      At(
        id, ClaimedRecord(policy, intent), Settling(id, Bytes(intent), 1, false, answer),
        [OnWire(intent, id)], [id], [Lent(intent, id)]),
      Proceed);
  }

  lemma UnknownEdgesAreTaken(policy: PilotGatePolicy, intent: ExecutionIntent, id: ExecutionId)
    requires Affordable(policy, intent)
    ensures Taken(Some(policy), id, SubmissionUnknown, Submitted)
    ensures Taken(Some(policy), id, SubmissionUnknown, SubmissionRejected)
  {
    hide Affordable, Leads, Step, Taken, ClaimedRecord, SubmittedRecord, RejectedRecord, Awaiting;
    var p, claimed := Some(policy), ClaimedRecord(policy, intent);
    var accepted, rejected := Accepted(TxHash(Bytes(intent))), SubmissionRejectedAnswer(CODE);
    AwaitingRecords(policy, intent);
    PaymentIsAnswered(policy, intent, id, accepted);
    SettledStep(policy, intent, id);
    TakenFrom(
      p, id,
      At(id, claimed, Settling(id, Bytes(intent), 1, false, accepted), [OnWire(intent, id)], [id], [Lent(intent, id)]),
      Work(0, Proceed), SubmissionUnknown, Submitted);
    PaymentIsAnswered(policy, intent, id, rejected);
    RejectedStep(policy, intent, id);
    TakenFrom(
      p, id,
      At(id, claimed, Settling(id, Bytes(intent), 1, false, rejected), [OnWire(intent, id)], [id], [Lent(intent, id)]),
      Work(0, Proceed), SubmissionUnknown, SubmissionRejected);
  }

  lemma RejectedEdgesAreTaken(policy: PilotGatePolicy, intent: ExecutionIntent, id: ExecutionId)
    requires Affordable(policy, intent)
    ensures Taken(Some(policy), id, SubmissionRejected, Confirmed)
    ensures Taken(Some(policy), id, SubmissionRejected, Reverted)
    ensures Taken(Some(policy), id, Reverted, Released)
  {
    AwaitingRecords(policy, intent);
    assert intent.deadline > 1;
    hide Affordable, Leads, Step, Taken, RejectedRecord, Awaiting, TakenBy;
    var p, r := Some(policy), RejectedRecord(policy, intent);
    var s := At(id, r, Idle, [OnWire(intent, id)], [id], [Lent(intent, id)]);
    PaymentIsRejected(policy, intent, id);
    ConfirmsStep(policy, intent, id, r, s);
    TakenFrom(p, id, s, Environment(WatchConfirm(id, Seen(intent.chain), "", 1)), SubmissionRejected, Confirmed);
    RevertStep(policy, intent, id, r, s);
    var revert := WatchRevert(id, SeenFailed(intent.chain), false, "", 1);
    TakenFrom(p, id, s, Environment(revert), SubmissionRejected, Reverted);
    LeadsByCall(p, INITIAL, s, revert);
    var t := s.(db := Sole(id, RevertedFrom(r, intent)));
    ReleaseStep(policy, intent, id, r, t);
    var release := WatchReleaseReverted(id, SeenFailed(intent.chain), NoTransfer(intent.deadline), intent.deadline);
    TakenFrom(p, id, t, Environment(release), Reverted, Released);
  }

  /** Each of the five edges beside the declared table is taken in some run, for any affordable payment. */
  lemma ExtraEdgeIsTaken(
    policy: PilotGatePolicy, intent: ExecutionIntent, id: ExecutionId, from: ExecutionState, to: ExecutionState)
    requires Affordable(policy, intent) && ExtraEdge(from, to)
    ensures to !in AllowedTransitions(from)
    ensures Taken(Some(policy), id, from, to)
  {
    hide Taken, Affordable;
    UnknownEdgesAreTaken(policy, intent, id);
    RejectedEdgesAreTaken(policy, intent, id);
  }

  // ---------------------------------------------------------------- a send after the release

  /** Worker 0 is about to send the claimed transaction; worker 1 does what it does. */
  function Beside(intent: ExecutionIntent, id: ExecutionId, record: Record, other: Worker, wire: seq<Sent>): System {
    System(
      Sole(id, record), map[0 := Sending(id, Bytes(intent), 1, 1, false), 1 := other], wire, [id], [Lent(intent, id)])
  }

  function SentAgain(intent: ExecutionIntent, id: ExecutionId): Sent {
    Sent(id, Bytes(intent), 2, 1, true)
  }

  /** The record after another worker's rebroadcast was counted. */
  function Recounted(policy: PilotGatePolicy, intent: ExecutionIntent): Record
    requires Affordable(policy, intent)
  {
    var r := ClaimedRecord(policy, intent);
    AddAttempt(r.(row := r.row.(broadcastAttempts := 2)), AttemptKind.Rebroadcast, 2, 1)
  }

  lemma LookStep(policy: PilotGatePolicy, intent: ExecutionIntent, id: ExecutionId)
    requires Affordable(policy, intent)
    ensures var p, r := Some(policy), ClaimedRecord(policy, intent);
            var s := At(id, r, Sending(id, Bytes(intent), 1, 1, false), [], [id], [Lent(intent, id)]);
            && Step(p, s, Work(1, StartInspect(id, true))) == Beside(intent, id, r, Inspecting(id, r.row, true), [])
            && Step(p, Beside(intent, id, r, Inspecting(id, r.row, true), []), Work(1, Lookup(false, 1)))
               == Beside(intent, id, r, Rebroadcasting(id, r.row), [])
  {
    hide WorstCaseGasUsdMicros, NativeSpend;
  }

  lemma RecountStep(policy: PilotGatePolicy, intent: ExecutionIntent, id: ExecutionId)
    requires Affordable(policy, intent)
    ensures var r := ClaimedRecord(policy, intent);
            Step(Some(policy), Beside(intent, id, r, Rebroadcasting(id, r.row), []), Work(1, RebroadcastAt(1)))
            == Beside(intent, id, Recounted(policy, intent), MarkingUnknown(id, Bytes(intent), 2, 1), [])
  {
    hide WorstCaseGasUsdMicros, NativeSpend, Total;
  }

  lemma ResendStep(policy: PilotGatePolicy, intent: ExecutionIntent, id: ExecutionId)
    requires Affordable(policy, intent)
    ensures var p, r, raw := Some(policy), Recounted(policy, intent), Bytes(intent);
            && Step(p, Beside(intent, id, r, MarkingUnknown(id, raw, 2, 1), []), Work(1, Proceed))
               == Beside(intent, id, r, Sending(id, raw, 2, 1, true), [])
            && Step(p, Beside(intent, id, r, Sending(id, raw, 2, 1, true), []), Work(1, Answer(TransportFailure)))
               == Beside(intent, id, r, Settling(id, raw, 1, true, TransportFailure), [SentAgain(intent, id)])
  {
    hide WorstCaseGasUsdMicros, NativeSpend;
  }

  lemma LeadsByWorker(policy: Policy, s: System, t: System, w: WorkerId, input: Input)
    requires Leads(policy, s, t)
    ensures Leads(policy, s, Step(policy, t, Work(w, input)))
  {
    hide Leads, Step;
    LeadsInOne(policy, t, Work(w, input));
    LeadsOn(policy, s, t, Step(policy, t, Work(w, input)));
  }

  /** Another worker's rebroadcast is on the wire while worker 0 is about to send. */
  lemma PaymentIsResent(policy: PilotGatePolicy, intent: ExecutionIntent, id: ExecutionId)
    requires Affordable(policy, intent)
    ensures Leads(
              Some(policy), INITIAL,
              Beside(
                intent, id, Recounted(policy, intent), Settling(id, Bytes(intent), 1, true, TransportFailure),
                [SentAgain(intent, id)]))
  {
    hide *;
    var p, r, raw := Some(policy), ClaimedRecord(policy, intent), Bytes(intent);
    PaymentIsSending(policy, intent, id);
    LookStep(policy, intent, id);
    LeadsByWorker(
      p, INITIAL, At(id, r, Sending(id, raw, 1, 1, false), [], [id], [Lent(intent, id)]), 1, StartInspect(id, true));
    LeadsByWorker(p, INITIAL, Beside(intent, id, r, Inspecting(id, r.row, true), []), 1, Lookup(false, 1));
    RecountStep(policy, intent, id);
    LeadsByWorker(p, INITIAL, Beside(intent, id, r, Rebroadcasting(id, r.row), []), 1, RebroadcastAt(1));
    ResendStep(policy, intent, id);
    var again := Recounted(policy, intent);
    LeadsByWorker(p, INITIAL, Beside(intent, id, again, MarkingUnknown(id, raw, 2, 1), []), 1, Proceed);
    LeadsByWorker(
      p, INITIAL, Beside(intent, id, again, Sending(id, raw, 2, 1, true), []), 1, Answer(TransportFailure));
  }

  lemma RecountedAwaits(policy: PilotGatePolicy, intent: ExecutionIntent)
    requires Affordable(policy, intent)
    ensures Awaiting(Recounted(policy, intent), intent)
  {
    hide WorstCaseGasUsdMicros, NativeSpend;
  }

  /** The rebroadcast is mined and reverts, and the row is released, while worker 0 is about to send. */
  lemma ResentPaymentIsReleased(policy: PilotGatePolicy, intent: ExecutionIntent, id: ExecutionId)
    requires Affordable(policy, intent)
    ensures Awaiting(Recounted(policy, intent), intent)
    ensures Leads(
              Some(policy), INITIAL,
              Beside(
                intent, id, ReleasedFrom(Recounted(policy, intent), intent),
                Settling(id, Bytes(intent), 1, true, TransportFailure), [SentAgain(intent, id)]))
  {
    RecountedAwaits(policy, intent);
    assert intent.deadline > 1;
    hide Affordable, Leads, Step, Recounted, Awaiting, RevertedFrom, ReleasedFrom, Bytes, SentAgain;
    var p, r, other := Some(policy), Recounted(policy, intent), Settling(id, Bytes(intent), 1, true, TransportFailure);
    var s := Beside(intent, id, r, other, [SentAgain(intent, id)]);
    PaymentIsResent(policy, intent, id);
    RevertStep(policy, intent, id, r, s);
    LeadsByCall(p, INITIAL, s, WatchRevert(id, SeenFailed(intent.chain), false, "", 1));
    var t := s.(db := Sole(id, RevertedFrom(r, intent)));
    ReleaseStep(policy, intent, id, r, t);
    var release := WatchReleaseReverted(id, SeenFailed(intent.chain), NoTransfer(intent.deadline), intent.deadline);
    LeadsByCall(p, INITIAL, t, release);
    SameSole(intent, id, RevertedFrom(r, intent), ReleasedFrom(r, intent));
  }

  lemma SameSole(intent: ExecutionIntent, id: ExecutionId, a: Record, b: Record)
    ensures forall other, wire :: Beside(intent, id, a, other, wire).(db := Sole(id, b)) == Beside(intent, id, b, other, wire)
  {
  }

  /** A released payment is sent. A worker pauses between its claim and its send; another one's rebroadcast goes
      out, is mined and reverts; the row is released; and then the first worker sends the same bytes again, as it
      does not read the row once more. */
  lemma ReleasedPaymentIsSent(policy: PilotGatePolicy, intent: ExecutionIntent, id: ExecutionId)
    requires Affordable(policy, intent)
    ensures exists actions ::
              var s := Reached(Some(policy), actions);
              && id in s.db.records
              && s.db.records[id].row.status == Released
              && s.wire == [SentAgain(intent, id)]
              && Step(Some(policy), s, Work(0, Answer(TransportFailure))).wire
                 == [SentAgain(intent, id), OnWire(intent, id)]
  {
    hide Affordable, Leads, Step, Recounted, Awaiting, Run, RevertedFrom, Bytes, SentAgain, OnWire;
    ResentPaymentIsReleased(policy, intent, id);
    var u := Beside(
      intent, id, ReleasedFrom(Recounted(policy, intent), intent),
      Settling(id, Bytes(intent), 1, true, TransportFailure), [SentAgain(intent, id)]);
    AnswerStep(policy, intent, id, u);
    RunTo(Some(policy), u);
    var actions :| Run(Some(policy), INITIAL, actions) == u;
    assert Reached(Some(policy), actions) == u;
  }

  lemma RunTo(policy: Policy, s: System)
    requires Leads(policy, INITIAL, s)
    ensures exists actions :: Run(policy, INITIAL, actions) == s
  {
    hide Run;
  }

  lemma AnswerStep(policy: PilotGatePolicy, intent: ExecutionIntent, id: ExecutionId, s: System)
    requires 0 in s.workers && s.workers[0] == Sending(id, Bytes(intent), 1, 1, false)
    ensures Step(Some(policy), s, Work(0, Answer(TransportFailure))).wire == s.wire + [OnWire(intent, id)]
  {
  }

  /** The uncounted rejection is within reach of a run, and goes on: confirmed, with bytes on the chain, no
      counted broadcast and no journaled one. */
  lemma UnjournaledIsReachable(policy: PilotGatePolicy, intent: ExecutionIntent, id: ExecutionId)
    requires Affordable(policy, intent)
    ensures exists actions ::
              var s := Reached(Some(policy), actions);
              && id in s.db.records
              && s.db.records[id].row.status == Confirmed
              && Unjournaled(s.db.records[id].row)
              && s.db.records[id].row.broadcastedAt.None?
              && |s.db.records[id].attempts| == 1
  {
    AwaitingRecords(policy, intent);
    SignedAttempts(policy, intent);
    hide Affordable, Leads, Step, SignedRecord, Awaiting, Run, Unjournaled;
    var p, r := Some(policy), SignedRecord(policy, intent);
    var s := At(id, r, Claiming(id, r.row), [], [], [Lent(intent, id)]);
    PaymentIsSigned(policy, intent, id);
    SkipStep(policy, intent, id, s);
    LeadsByCall(p, INITIAL, s, OperatorTransition(id, SubmissionRejected, None, 1));
    var skipped := r.(row := r.row.(status := SubmissionRejected));
    var t := s.(db := Sole(id, skipped));
    ConfirmsStep(policy, intent, id, skipped, t);
    LeadsByCall(p, INITIAL, t, WatchConfirm(id, Seen(intent.chain), "", 1));
    var u := t.(db := Sole(id, Observe(skipped, Confirmed, Seen(intent.chain), "", 1)));
    RunTo(p, u);
    var actions :| Run(p, INITIAL, actions) == u;
    assert Reached(p, actions) == u;
  }

  lemma SignedAttempts(policy: PilotGatePolicy, intent: ExecutionIntent)
    requires Affordable(policy, intent)
    ensures var r := SignedRecord(policy, intent);
            var skipped := r.(row := r.row.(status := SubmissionRejected));
            && skipped.row.rawTransactionHash.Some?
            && |skipped.attempts| == 1
            && skipped.row.broadcastedAt.None?
            && Unjournaled(Observe(skipped, Confirmed, Seen(intent.chain), "", 1).row)
  {
    hide WorstCaseGasUsdMicros, NativeSpend;
  }
}
