/** What can still be sent of an execution after it has ended. A worker that holds a submission claim does
    not read the row again before it sends, so a released row is not the end of its bytes. */
module HostedRelayerLateSends {
  import opened Wrappers
  import opened ExecutionModels
  import opened RepositoryModel
  import opened RepositoryInvariants
  import opened RepositorySteps
  import opened HostedRelayer
  import opened HostedRelayerInvariants
  import opened HostedRelayerSteps
  import opened HostedRelayerSafety

  /** A worker that will send the execution's bytes without asking the repository again. */
  predicate MaySend(worker: Worker, id: ExecutionId) {
    (worker.LookingUp? || worker.Sending?) && worker.id == id
  }

  ghost predicate SomeMaySend(s: System, id: ExecutionId) {
    exists w :: w in s.workers && MaySend(s.workers[w], id)
  }

  predicate Ended(db: Db, id: ExecutionId) {
    id in db.records && !Active(db.records[id].row.status)
  }

  // ---------------------------------------------------------------- one step

  predicate IsSend(s: System, action: Action) {
    action.Work? && action.input.Answer? && WorkerAt(s, action.worker).Sending?
  }

  function SentBy(s: System, action: Action): Sent
    requires IsSend(s, action)
  {
    var worker := WorkerAt(s, action.worker);
    Sent(worker.id, worker.raw, worker.number, worker.now, worker.rebroadcast)
  }

  /** A step sends an execution's bytes exactly when it is the send of a worker that is about to. */
  lemma StepSendsIff(policy: Policy, s: System, action: Action, id: ExecutionId)
    ensures (exists sent: Sent :: Step(policy, s, action).wire == s.wire + [sent] && sent.id == id)
            <==> IsSend(s, action) && WorkerAt(s, action.worker).id == id
    ensures Step(policy, s, action).wire == if IsSend(s, action) then s.wire + [SentBy(s, action)] else s.wire
  {
    hide Begin, AllocateStep, Decide, QuoteStep, ReserveStep, PersistStep, ClaimStep, LookupStep, SettleStep,
         InspectStep, RebroadcastStep, MarkUnknownStep, CallResult;
    if action.Work? {
      OnlyAnswersSend(policy, s.db, WorkerAt(s, action.worker), action.input);
      hide WorkerMove;
      if IsSend(s, action) {
        assert Step(policy, s, action).wire == s.wire + [SentBy(s, action)];
        forall sent | s.wire + [sent] == s.wire + [SentBy(s, action)] ensures sent == SentBy(s, action) {
          assert (s.wire + [sent])[|s.wire|] == sent;
        }
      }
    }
  }

  lemma OnlyAnswersSend(policy: Policy, db: Db, worker: Worker, input: Input)
    ensures WorkerMove(policy, db, worker, input).sent
            == if worker.Sending? && input.Answer?
               then Some(Sent(worker.id, worker.raw, worker.number, worker.now, worker.rebroadcast)) else None
  {
    hide FindForIntent, AllocateOrReturn, ReleaseExpired, ClaimSigning, GasCharge, ReservePilotGas, PersistSigned,
         ClaimSubmission, MarkSubmitted, MarkSubmissionUnknown, MarkSubmissionRejected, RebroadcastRaw;
  }

  /** The repository hands out no bytes of an ended row: its three calls before a send refuse it. */
  lemma EndedIsRefused(policy: Policy, db: Db, id: ExecutionId, replacement: Option<RawTransaction>, now: int)
    requires Ended(db, id)
    ensures ClaimSubmission(policy, db, id, now).Err?
    ensures RebroadcastRaw(policy, db, id, replacement, now).Err?
    ensures MarkSubmissionUnknown(db, id, now).Err?
  {
    hide EnsureGas, GateOpen, RequireRaw;
  }

  /** So a worker that may send an ended row's bytes after a step was about to before it, with the same bytes
      and attempt. */
  lemma MaySendIsOld(policy: Policy, db: Db, worker: Worker, input: Input, id: ExecutionId)
    requires Ended(db, id)
    requires MaySend(WorkerMove(policy, db, worker, input).worker, id)
    ensures var next := WorkerMove(policy, db, worker, input).worker;
            MaySend(worker, id) && SendToken(worker) == SendToken(next) && CarriedRaw(worker) == CarriedRaw(next)
  {
    hide FindForIntent, AllocateOrReturn, ReleaseExpired, ClaimSigning, GasCharge, ReservePilotGas, PersistSigned,
         ClaimSubmission, MarkSubmitted, MarkSubmissionUnknown, MarkSubmissionRejected, RebroadcastRaw, Active;
    match input
    case ClaimAt(now) => EndedIsRefused(policy, db, id, None, now);
    case RebroadcastAt(now) => EndedIsRefused(policy, db, id, None, now);
    case Proceed => if worker.MarkingUnknown? { EndedIsRefused(policy, db, id, None, worker.now); }
    case _ =>
  }

  lemma StepKeepsEnded(policy: Policy, s: System, action: Action, id: ExecutionId)
    requires SystemInv(policy, s) && Ended(s.db, id)
    ensures Ended(Step(policy, s, action).db, id)
  {
    hide SystemInv, Step;
    StepFollowsEdges(policy, s, action, id);
  }

  // ---------------------------------------------------------------- continuations

  /** The worker in `s` that a late send of `id` goes back to. */
  ghost predicate Owed(s: System, sent: Sent) {
    exists w :: w in s.workers && MaySend(s.workers[w], sent.id) && SendToken(s.workers[w]) == Some(SentToken(sent))
                && CarriedRaw(s.workers[w]) == Some(sent.raw)
  }

  lemma StepKeepsOwed(policy: Policy, s: System, action: Action, sent: Sent)
    requires Ended(s.db, sent.id) && Owed(Step(policy, s, action), sent)
    ensures Owed(s, sent)
  {
    hide WorkerMove, CallResult, MaySend, SendToken, CarriedRaw, Ended;
    var w :| w in Step(policy, s, action).workers && MaySend(Step(policy, s, action).workers[w], sent.id)
             && SendToken(Step(policy, s, action).workers[w]) == Some(SentToken(sent))
             && CarriedRaw(Step(policy, s, action).workers[w]) == Some(sent.raw);
    if action.Work? && action.worker == w {
      MaySendIsOld(policy, s.db, WorkerAt(s, w), action.input, sent.id);
      IdleMaySendNothing(sent.id);
    }
    assert w in s.workers;
  }

  lemma IdleMaySendNothing(id: ExecutionId)
    ensures !MaySend(Idle, id)
  {
  }

  lemma SendIsOwed(policy: Policy, s: System, action: Action)
    requires Step(policy, s, action).wire != s.wire
    ensures |Step(policy, s, action).wire| == |s.wire| + 1
    ensures Owed(s, Step(policy, s, action).wire[|s.wire|])
  {
    hide Step;
    StepSendsIff(policy, s, action, "");
    assert MaySend(s.workers[action.worker], WorkerAt(s, action.worker).id);
  }

  lemma {:induction false} RunGrowsWire(policy: Policy, s: System, actions: seq<Action>)
    ensures s.wire <= Run(policy, s, actions).wire
    decreases |actions|
  {
    if actions != [] {
      hide Step;
      StepSendsIff(policy, s, actions[0], "");
      RunGrowsWire(policy, Step(policy, s, actions[0]), actions[1..]);
    }
  }

  lemma {:induction false} LateSendIsOwed(policy: Policy, s: System, actions: seq<Action>, k: nat)
    requires SystemInv(policy, s)
    requires |s.wire| <= k < |Run(policy, s, actions).wire|
    requires Ended(s.db, Run(policy, s, actions).wire[k].id)
    ensures Owed(s, Run(policy, s, actions).wire[k])
    decreases |actions|
  {
    hide SystemInv, Step, Owed, Ended;
    var t := Step(policy, s, actions[0]);
    RunUnfold(policy, s, actions);
    RunGrowsWire(policy, t, actions[1..]);
    hide Run;
    var sent := Run(policy, s, actions).wire[k];
    StepSendsIff(policy, s, actions[0], sent.id);
    if k < |t.wire| {
      SendIsOwed(policy, s, actions[0]);
    } else {
      StepKeepsInv(policy, s, actions[0]);
      StepKeepsEnded(policy, s, actions[0], sent.id);
      LateSendIsOwed(policy, t, actions[1..], k);
      StepKeepsOwed(policy, s, actions[0], sent);
    }
  }

  /** Whatever is sent of an execution after it has ended was owed when it ended: a worker was already past its
      claim, with these bytes and this attempt. The repository hands out nothing new. */
  lemma LateSendsWereClaimed(policy: Policy, before: seq<Action>, after: seq<Action>, k: nat)
    requires |Reached(policy, before).wire| <= k < |Reached(policy, before + after).wire|
    requires Ended(Reached(policy, before).db, Reached(policy, before + after).wire[k].id)
    ensures Owed(Reached(policy, before), Reached(policy, before + after).wire[k])
  {
    hide SystemInv, Run, Owed;
    Reachable(policy, before);
    RunConcat(policy, INITIAL, before, after);
    LateSendIsOwed(policy, Reached(policy, before), after, k);
  }

  /** An execution that ended unsigned is never on the wire, in no continuation. */
  lemma EndedUnsignedIsNeverSent(policy: Policy, before: seq<Action>, after: seq<Action>, id: ExecutionId, k: nat)
    requires Ended(Reached(policy, before).db, id) && Reached(policy, before).db.records[id].row.signature.None?
    requires k < |Reached(policy, before + after).wire|
    ensures Reached(policy, before + after).wire[k].id != id
  {
    hide Run;
    EndedIsFrozen(policy, before, after, id);
    ReachableRecord(policy, before, id);
    OnlyJournaledBytesAreSent(policy, before + after, k);
  }

  /** All sends of an ended execution, late ones included, stay within the attempts it ended with. */
  lemma LateSendsAreCounted(policy: Policy, before: seq<Action>, after: seq<Action>, id: ExecutionId)
    requires Ended(Reached(policy, before).db, id)
    ensures Sends(Reached(policy, before + after).wire, id) <= Reached(policy, before).db.records[id].row.broadcastAttempts
  {
    hide Run, Sends;
    EndedIsFrozen(policy, before, after, id);
    SendsNeverExceedAttempts(policy, before + after, id);
  }

  // ---------------------------------------------------------------- nothing new is claimed

  lemma EndedIsNotAcquired(policy: Policy, db: Db, worker: Worker, input: Input, id: ExecutionId)
    requires Ended(db, id)
    ensures var move := WorkerMove(policy, db, worker, input);
            && move.claim != Some(id)
            && (move.lease.Some? ==> move.lease.value.id != id)
  {
    hide FindForIntent, AllocateOrReturn, ReleaseExpired, GasCharge, ReservePilotGas, PersistSigned,
         ClaimSubmission, MarkSubmitted, MarkSubmissionUnknown, MarkSubmissionRejected, RebroadcastRaw;
    match input
    case ClaimAt(now) => EndedIsRefused(policy, db, id, None, now);
    case RebroadcastAt(now) => EndedIsRefused(policy, db, id, None, now);
    case _ =>
  }

  /** No entry of the claim and lease logs from these lengths on is about the execution. */
  predicate Unacquired(s: System, id: ExecutionId, claims: nat, leases: nat) {
    && claims <= |s.claims|
    && leases <= |s.leases|
    && (forall k :: claims <= k < |s.claims| ==> s.claims[k] != id)
    && (forall k :: leases <= k < |s.leases| ==> s.leases[k].id != id)
  }

  lemma StepKeepsUnacquired(policy: Policy, s: System, action: Action, id: ExecutionId, claims: nat, leases: nat)
    requires Ended(s.db, id) && Unacquired(s, id, claims, leases)
    ensures Unacquired(Step(policy, s, action), id, claims, leases)
  {
    hide WorkerMove, CallResult, Ended;
    if action.Work? {
      EndedIsNotAcquired(policy, s.db, WorkerAt(s, action.worker), action.input, id);
    }
  }

  lemma {:induction false} RunKeepsUnacquired(
    policy: Policy, s: System, actions: seq<Action>, id: ExecutionId, claims: nat, leases: nat)
    requires SystemInv(policy, s) && Ended(s.db, id) && Unacquired(s, id, claims, leases)
    ensures Unacquired(Run(policy, s, actions), id, claims, leases)
    decreases |actions|
  {
    hide SystemInv, Step, Ended, Unacquired;
    if actions != [] {
      StepKeepsInv(policy, s, actions[0]);
      StepKeepsEnded(policy, s, actions[0], id);
      StepKeepsUnacquired(policy, s, actions[0], id, claims, leases);
      RunKeepsUnacquired(policy, Step(policy, s, actions[0]), actions[1..], id, claims, leases);
    }
  }

  /** An ended execution is never claimed again, neither for signing nor for submission. */
  lemma EndedIsNeverClaimed(policy: Policy, before: seq<Action>, after: seq<Action>, id: ExecutionId, k: nat)
    requires Ended(Reached(policy, before).db, id)
    ensures |Reached(policy, before).claims| <= k < |Reached(policy, before + after).claims|
            ==> Reached(policy, before + after).claims[k] != id
    ensures |Reached(policy, before).leases| <= k < |Reached(policy, before + after).leases|
            ==> Reached(policy, before + after).leases[k].id != id
  {
    hide SystemInv, Run, Ended;
    var s := Reached(policy, before);
    Reachable(policy, before);
    RunKeepsUnacquired(policy, s, after, id, |s.claims|, |s.leases|);
    RunConcat(policy, INITIAL, before, after);
  }

  // ---------------------------------------------------------------- the exact condition

  /** The rest of a worker's way to its send. */
  function SendOff(w: WorkerId, worker: Worker): seq<Action> {
    if worker.Sending? then [Work(w, Answer(TransportFailure))]
    else [Work(w, Lookup(false, 1)), Work(w, Answer(TransportFailure))]
  }

  lemma CanStillSend(policy: Policy, s: System, w: WorkerId, id: ExecutionId)
    requires SystemInv(policy, s) && w in s.workers && MaySend(s.workers[w], id)
    ensures exists sent: Sent :: sent.id == id && Run(policy, s, SendOff(w, s.workers[w])).wire == s.wire + [sent]
  {
    hide WireInv, ClaimsInv, LeasesInv, RecordInv, Run, Step;
    var worker := s.workers[w];
    assert WorkerInv(policy, s.db, worker);
    var answer := Work(w, Answer(TransportFailure));
    if worker.Sending? {
      OneStep(policy, s, answer);
      StepSendsIff(policy, s, answer, id);
    } else {
      TablesRecord(policy, s.db, id);
      DeadlinePastOne(policy, s.db.records[id]);
      LooksBeforeDeadline(policy, s, w);
      var t := Step(policy, s, Work(w, Lookup(false, 1)));
      TwoSteps(policy, s, Work(w, Lookup(false, 1)), answer);
      StepSendsIff(policy, s, Work(w, Lookup(false, 1)), id);
      StepSendsIff(policy, t, answer, id);
    }
  }

  lemma LooksBeforeDeadline(policy: Policy, s: System, w: WorkerId)
    requires w in s.workers && s.workers[w].LookingUp? && s.workers[w].row.rawTransaction.Some?
    requires s.workers[w].row.intent.deadline > 1
    ensures var next := WorkerAt(Step(policy, s, Work(w, Lookup(false, 1))), w);
            next.Sending? && next.id == s.workers[w].id
  {
  }

  lemma DeadlinePastOne(policy: Policy, record: Record)
    requires RecordInv(policy, record) && RelayedInv(policy, record)
    ensures record.row.intent.deadline > 1
  {
  }

  lemma OneStep(policy: Policy, s: System, a: Action)
    ensures Run(policy, s, [a]) == Step(policy, s, a)
  {
    hide Step;
    RunUnfold(policy, s, [a]);
    assert [a][1..] == [];
  }

  lemma TwoSteps(policy: Policy, s: System, a: Action, b: Action)
    ensures Run(policy, s, [a, b]) == Step(policy, Step(policy, s, a), b)
  {
    hide Step, Run;
    RunUnfold(policy, s, [a, b]);
    assert [a, b][1..] == [b];
    OneStep(policy, Step(policy, s, a), b);
  }

  /** Exactly when something of an ended execution can still be sent: when a worker holds its claim. */
  lemma LateSendIff(policy: Policy, before: seq<Action>, id: ExecutionId)
    requires Ended(Reached(policy, before).db, id)
    ensures SomeMaySend(Reached(policy, before), id)
            <==> exists after, k ::
                   |Reached(policy, before).wire| <= k < |Reached(policy, before + after).wire|
                   && Reached(policy, before + after).wire[k].id == id
  {
    hide SystemInv, Run, Ended;
    var s := Reached(policy, before);
    Reachable(policy, before);
    if SomeMaySend(s, id) {
      var w :| w in s.workers && MaySend(s.workers[w], id);
      var after := SendOff(w, s.workers[w]);
      CanStillSend(policy, s, w, id);
      RunConcat(policy, INITIAL, before, after);
      assert Reached(policy, before + after).wire[|s.wire|].id == id;
    }
    forall after, k: nat
      | |s.wire| <= k < |Reached(policy, before + after).wire| && Reached(policy, before + after).wire[k].id == id
      ensures SomeMaySend(s, id)
    {
      LateSendsWereClaimed(policy, before, after, k);
    }
  }
}
