/** `execute`, `inspect_submission` and `rebroadcast_identical` as the calls they are
    (apps/facilitator/relayer.py), driving the repository step by step. Each call that runs without
    interruption is proved to be a run of one worker of the concurrent system. */
module RelayerCalls {
  import opened Wrappers
  import opened PilotGate
  import opened ExecutionModels
  import opened RepositoryModel
  import opened RepositoryInvariants
  import opened RepositoryAllocation
  import opened RepositoryContracts
  import opened RepositoryConditions
  import opened HostedRelayer
  import opened HostedRelayerSafety
  import opened ExecutionRepository
  import Model = RepositoryModel
  import Steps = HostedRelayer

  // ---------------------------------------------------------------- one worker's steps in a row

  /** The tables, the worker, and what it has put on the wire. */
  datatype Course = Course(db: Db, worker: Worker, wire: seq<Sent>)

  ghost function Next(policy: Policy, course: Course, input: Input): Course {
    var move := WorkerMove(policy, course.db, course.worker, input);
    Course(move.db, move.worker, Logged(course.wire, move.sent))
  }

  ghost function Pursue(policy: Policy, course: Course, inputs: seq<Input>): Course
    decreases |inputs|
  {
    if inputs == [] then course else Pursue(policy, Next(policy, course, inputs[0]), inputs[1..])
  }

  lemma PursueOne(policy: Policy, course: Course, input: Input)
    ensures Pursue(policy, course, [input]) == Next(policy, course, input)
  {
    hide Next;
    assert [input][1..] == [];
    assert Pursue(policy, Next(policy, course, input), []) == Next(policy, course, input);
  }

  lemma {:induction false} PursueOn(policy: Policy, course: Course, a: seq<Input>, b: seq<Input>)
    ensures Pursue(policy, course, a + b) == Pursue(policy, Pursue(policy, course, a), b)
    decreases |a|
  {
    hide Next;
    if a == [] {
      assert a + b == b;
    } else {
      assert (a + b)[1..] == a[1..] + b;
      PursueOn(policy, Next(policy, course, a[0]), a[1..], b);
    }
  }

  lemma PursueTwo(policy: Policy, course: Course, a: Input, b: Input)
    ensures Pursue(policy, course, [a, b]) == Next(policy, Next(policy, course, a), b)
  {
    hide Next, Pursue;
    PursueOn(policy, course, [a], [b]);
    PursueOne(policy, course, a);
    PursueOne(policy, Next(policy, course, a), b);
    assert [a] + [b] == [a, b];
  }

  predicate Starts(input: Input) {
    input.StartExecute? || input.StartInspect?
  }

  /** A worker that is done stays so until it is started again. */
  lemma {:induction false} IdleStays(policy: Policy, db: Db, wire: seq<Sent>, inputs: seq<Input>)
    requires forall i :: 0 <= i < |inputs| ==> !Starts(inputs[i])
    ensures Pursue(policy, Course(db, Idle, wire), inputs) == Course(db, Idle, wire)
    decreases |inputs|
  {
    if inputs != [] {
      IdleStays(policy, db, wire, inputs[1..]);
    }
  }

  function Works(w: WorkerId, inputs: seq<Input>): seq<Action> {
    seq(|inputs|, i requires 0 <= i < |inputs| => Work(w, inputs[i]))
  }

  /** A worker's course is what the system does when only that worker moves, so whatever holds of every
      run of the system holds of every call. */
  lemma {:induction false} CourseIsRun(policy: Policy, s: System, w: WorkerId, inputs: seq<Input>)
    ensures var t := Run(policy, s, Works(w, inputs));
            Course(t.db, WorkerAt(t, w), t.wire) == Pursue(policy, Course(s.db, WorkerAt(s, w), s.wire), inputs)
    decreases |inputs|
  {
    hide WorkerMove;
    if inputs != [] {
      var action := Work(w, inputs[0]);
      assert Works(w, inputs)[0] == action && Works(w, inputs)[1..] == Works(w, inputs[1..]);
      CourseIsRun(policy, Step(policy, s, action), w, inputs[1..]);
    } else {
      assert Works(w, inputs) == [];
    }
  }

  /** A call made in a reachable state leaves a reachable state: the tables it commits and the bytes it
      sends are those of a run, so every theorem about runs is one about calls. */
  lemma CallContinuesRun(policy: Policy, actions: seq<Action>, w: WorkerId, inputs: seq<Input>)
    ensures var s, t := Reached(policy, actions), Reached(policy, actions + Works(w, inputs));
            Course(t.db, WorkerAt(t, w), t.wire) == Pursue(policy, Course(s.db, WorkerAt(s, w), s.wire), inputs)
  {
    hide Run, Pursue, WorkerMove, Works;
    RunConcat(policy, INITIAL, actions, Works(w, inputs));
    CourseIsRun(policy, Reached(policy, actions), w, inputs);
  }

  // ---------------------------------------------------------------- execute

  /** What approval, clock, RPC and signers answer during one `execute`, in the order they are asked. */
  datatype ExecuteScript = ExecuteScript(
    approved: bool, startedAt: int,
    pending: nat, confirmed: nat, newId: ExecutionId,
    executionSignature: Signature, estimate: nat, priority: nat, gasPrice: nat, additional: nat,
    reservedAt: int, gasSignature: Signature, digest: string, persistedAt: int,
    claimedAt: int, found: bool, sentAt: int, answer: RpcAnswer)

  /** The steps of `_sign`. */
  function SignInputs(script: ExecuteScript): seq<Input> {
    [Quote(script.estimate, script.priority, script.gasPrice, script.additional, script.executionSignature),
     ReserveAt(script.reservedAt),
     GasSigned(script.gasSignature, script.digest, script.persistedAt)]
  }

  /** The steps from the signed row on: the claim, and then `_submit_signed`. */
  function SubmitInputs(script: ExecuteScript): seq<Input> {
    [Lookup(script.found, script.sentAt), Answer(script.answer), Proceed]
  }

  function ClaimInputs(script: ExecuteScript): seq<Input> {
    [ClaimAt(script.claimedAt)] + SubmitInputs(script)
  }

  function AdvanceInputs(script: ExecuteScript): seq<Input> {
    [Proceed] + SignInputs(script) + ClaimInputs(script)
  }

  /** The steps of one `execute`, in order, each with what the script answers. A step that does not fit
      where the worker is does nothing, so one list serves every way through the call. */
  function ExecuteInputs(intent: ExecutionIntent, limits: RelayerLimits, script: ExecuteScript): seq<Input> {
    [StartExecute(intent, limits, script.approved, script.startedAt),
     Allocate(script.pending, script.confirmed, script.newId)]
    + AdvanceInputs(script)
  }

  lemma SignUnrolled(policy: Policy, course: Course, script: ExecuteScript)
    ensures var i := SignInputs(script);
            Pursue(policy, course, i) == Next(policy, Next(policy, Next(policy, course, i[0]), i[1]), i[2])
  {
    hide Next, Pursue;
    var i := SignInputs(script);
    assert i == [i[0]] + [i[1], i[2]];
    PursueOn(policy, course, [i[0]], [i[1], i[2]]);
    PursueOne(policy, course, i[0]);
    PursueTwo(policy, Next(policy, course, i[0]), i[1], i[2]);
  }

  lemma SubmitUnrolled(policy: Policy, course: Course, script: ExecuteScript)
    ensures var i := SubmitInputs(script);
            Pursue(policy, course, i) == Next(policy, Next(policy, Next(policy, course, i[0]), i[1]), i[2])
  {
    hide Next, Pursue;
    var i := SubmitInputs(script);
    assert i == [i[0]] + [i[1], i[2]];
    PursueOn(policy, course, [i[0]], [i[1], i[2]]);
    PursueOne(policy, course, i[0]);
    PursueTwo(policy, Next(policy, course, i[0]), i[1], i[2]);
  }

  lemma ClaimUnrolled(policy: Policy, course: Course, script: ExecuteScript)
    ensures Pursue(policy, course, ClaimInputs(script))
            == Pursue(policy, Next(policy, course, ClaimAt(script.claimedAt)), SubmitInputs(script))
  {
    hide Next, Pursue;
    PursueOn(policy, course, [ClaimAt(script.claimedAt)], SubmitInputs(script));
    PursueOne(policy, course, ClaimAt(script.claimedAt));
  }

  lemma AdvanceUnrolled(policy: Policy, course: Course, script: ExecuteScript)
    ensures Pursue(policy, course, AdvanceInputs(script))
            == Pursue(policy, Pursue(policy, Next(policy, course, Proceed), SignInputs(script)), ClaimInputs(script))
  {
    hide Next, Pursue, SignInputs, ClaimInputs;
    PursueOn(policy, course, [Proceed] + SignInputs(script), ClaimInputs(script));
    PursueOn(policy, course, [Proceed], SignInputs(script));
    PursueOne(policy, course, Proceed);
  }

  /** With the call over before it signs, or at its claim, the steps in between do nothing. */
  lemma NothingToSign(policy: Policy, db: Db, worker: Worker, wire: seq<Sent>, script: ExecuteScript)
    requires worker.Idle? || worker.Claiming?
    ensures Pursue(policy, Course(db, worker, wire), SignInputs(script)) == Course(db, worker, wire)
  {
    SignUnrolled(policy, Course(db, worker, wire), script);
  }

  lemma NothingToClaim(policy: Policy, db: Db, wire: seq<Sent>, script: ExecuteScript)
    ensures Pursue(policy, Course(db, Idle, wire), ClaimInputs(script)) == Course(db, Idle, wire)
  {
    IdleStays(policy, db, wire, ClaimInputs(script));
  }

  lemma NothingToSubmit(policy: Policy, db: Db, wire: seq<Sent>, script: ExecuteScript)
    ensures Pursue(policy, Course(db, Idle, wire), SubmitInputs(script)) == Course(db, Idle, wire)
  {
    IdleStays(policy, db, wire, SubmitInputs(script));
  }

  lemma NothingToAdvance(policy: Policy, db: Db, wire: seq<Sent>, script: ExecuteScript)
    ensures Pursue(policy, Course(db, Idle, wire), AdvanceInputs(script)) == Course(db, Idle, wire)
  {
    IdleStays(policy, db, wire, AdvanceInputs(script));
  }

  lemma ExecuteUnrolled(
    policy: Policy, course: Course, intent: ExecutionIntent, limits: RelayerLimits, script: ExecuteScript)
    ensures var start := StartExecute(intent, limits, script.approved, script.startedAt);
            var allocate := Allocate(script.pending, script.confirmed, script.newId);
            Pursue(policy, course, ExecuteInputs(intent, limits, script))
            == Pursue(policy, Next(policy, Next(policy, course, start), allocate), AdvanceInputs(script))
  {
    hide Next, Pursue, AdvanceInputs;
    var start := StartExecute(intent, limits, script.approved, script.startedAt);
    var allocate := Allocate(script.pending, script.confirmed, script.newId);
    PursueOn(policy, course, [start, allocate], AdvanceInputs(script));
    PursueTwo(policy, course, start, allocate);
  }

  /** The call went through exactly if it might, and left the row in this status. */
  ghost predicate Leaves(before: Db, after: Db, id: ExecutionId, might: bool, status: ExecutionState) {
    if might then id in after.records && after.records[id].row.status == status else after == before
  }

  /** What an answer to a send makes of the row: an accepted transaction is submitted only under its own hash, and an
      answer that says nothing leaves the row alone, but for a rebroadcast, which marks it unknown. */
  ghost predicate AnswerIsSettled(
    before: Db, after: Db, id: ExecutionId, raw: RawTransaction, answer: RpcAnswer, now: int, rebroadcast: bool)
  {
    match answer
    case TransportFailure => after == before
    case SubmissionUnknownAnswer =>
      if rebroadcast then Leaves(before, after, id, MayMark(before, id, now), SubmissionUnknown) else after == before
    case SubmissionRejectedAnswer(reason) =>
      && Leaves(before, after, id, MayReject(before, id, reason, now), SubmissionRejected)
      && (MayReject(before, id, reason, now) ==> after.records[id].row.submissionFailureCode == Some(reason))
    case Accepted(hash) =>
      Leaves(before, after, id, MayMark(before, id, now), if hash == TxHash(raw) then Submitted else SubmissionUnknown)
  }

  /** The status a send leaves, by its answer. */
  function AnswerStatus(raw: RawTransaction, answer: RpcAnswer): ExecutionState {
    match answer
    case TransportFailure => SubmissionUnknown
    case SubmissionUnknownAnswer => SubmissionUnknown
    case SubmissionRejectedAnswer(_) => SubmissionRejected
    case Accepted(hash) => if hash == TxHash(raw) then Submitted else SubmissionUnknown
  }

  /** The answer to the one send of the call, if it made one, is what the row shows. */
  ghost predicate SentAs(before: seq<Sent>, after: seq<Sent>, db: Db, answer: RpcAnswer) {
    |after| == |before| + 1 ==>
      && after[|before|].id in db.records
      && db.records[after[|before|].id].row.status == AnswerStatus(after[|before|].raw, answer)
  }

  /** The one send of the call, if it made one, was for this intent. */
  ghost predicate SentFor(before: seq<Sent>, after: seq<Sent>, db: Db, intent: ExecutionIntent) {
    |after| == |before| + 1 ==>
      after[|before|].id in db.records && db.records[after[|before|].id].row.intent == intent
  }

  /** From an unknown row, an answer is settled as its status says. */
  lemma UnknownIsSettled(
    before: Db, after: Db, id: ExecutionId, raw: RawTransaction, answer: RpcAnswer, now: Positive, rebroadcast: bool)
    requires id in before.records && before.records[id].row.status == SubmissionUnknown
    requires AnswerIsSettled(before, after, id, raw, answer, now, rebroadcast)
    ensures id in after.records && after.records[id].row.status == AnswerStatus(raw, answer)
  {
  }

  /** The row was read from the tables: whatever has moved since, it is for this intent. */
  predicate IsRow(db: Db, id: ExecutionId, row: Execution) {
    id in db.records && db.records[id].row.intent == row.intent
  }

  /** Rows stay, each with its intent. */
  ghost predicate IntentsStay(before: Db, after: Db) {
    forall id :: id in before.records ==> id in after.records && after.records[id].row.intent == before.records[id].row.intent
  }

  lemma MovesKeepIntents(before: Db, after: Db, id: ExecutionId)
    requires Moves(before, after, id)
    ensures IntentsStay(before, after)
  {
  }

  /** The call sends the row's bytes once, under the journaled number, or nothing. */
  ghost predicate SendsAtMostOnce(before: seq<Sent>, after: seq<Sent>, sentAt: int, rebroadcast: bool) {
    || after == before
    || (&& |after| == |before| + 1
        && after[..|before|] == before
        && after[|before|].sentAt == sentAt
        && after[|before|].rebroadcast == rebroadcast)
  }

  /** `HostedRelayer`. */
  class Relayer {
    const repository: ExecutionRepository
    const limits: RelayerLimits
    var wire: seq<Sent>

    constructor (repository: ExecutionRepository, limits: RelayerLimits)
      ensures this.repository == repository && this.limits == limits && wire == []
    {
      this.repository, this.limits := repository, limits;
      wire := [];
    }

    ghost function Now(worker: Worker): Course
      reads this, repository
    {
      Course(repository.Tables(), worker, wire)
    }

    /** `execute`. */
    method Execute(intent: ExecutionIntent, script: ExecuteScript)
      requires repository.Valid()
      modifies repository, this`wire
      ensures repository.Valid()
      ensures Now(Idle) == Pursue(repository.policy, old(Now(Idle)), ExecuteInputs(intent, limits, script))
      ensures !script.approved ==> Now(Idle) == old(Now(Idle))
      ensures SendsAtMostOnce(old(wire), wire, script.sentAt, false)
      ensures SentFor(old(wire), wire, repository.Tables(), intent)
      ensures script.sentAt > 0 ==> SentAs(old(wire), wire, repository.Tables(), script.answer)
      ensures wire != old(wire) ==>
                !script.found && script.claimedAt < intent.deadline && script.sentAt < intent.deadline
      // An execution that was signed before is submitted, one that is past its deadline unsigned is released.
      ensures forall id :: old(id in repository.records && repository.records[id].row.intent == intent) && script.approved ==>
                && (old(repository.records[id].row.status) == Signed
                    && old(MayClaimSubmission(repository.policy, repository.Tables(), id, script.claimedAt))
                    && script.startedAt < intent.deadline && script.claimedAt < intent.deadline
                    && !script.found && script.sentAt < intent.deadline ==>
                      wire != old(wire))
                && (old(repository.records[id].row.status) in {PreflightApproved, Signing}
                    && script.startedAt >= intent.deadline && script.startedAt > 0 ==>
                      id in repository.records && repository.records[id].row.status in {Released, Expired})
    {
      hide Model.FindForIntent, Model.AllocateOrReturn, Pursue, AdvanceInputs, Inv, KeysDiffer, MayClaimSubmission, AnswerStatus;
      ghost var policy := repository.policy;
      ExecuteUnrolled(policy, Now(Idle), intent, limits, script);
      NothingToAdvance(policy, repository.Tables(), wire, script);
      var now := script.startedAt;
      var found := repository.FindForIntent(intent);
      if found.Err? {
        return;
      }
      var id, row;
      if found.value.Some? {
        id := found.value.value;
        row := repository.records[id].row;
        if !Unsigned(row.status) && row.status != Signed {
          return;
        }
      }
      if !script.approved {
        return;
      }
      if found.value.None? {
        if now >= intent.deadline {
          return;
        }
        var added := repository.AllocateOrReturn(intent, script.pending, script.confirmed, script.newId, now);
        if added.Err? {
          return;
        }
        NothingToAdvance(policy, repository.Tables(), wire, script);
        if added.value !in repository.records {
          return;
        }
        id := added.value;
        row := repository.records[id].row;
      }
      Advance(id, row, now, script);
    }

    /** The rest of `execute`, with the execution in hand. */
    method Advance(id: ExecutionId, row: Execution, now: int, script: ExecuteScript)
      requires repository.Valid() && IsRow(repository.Tables(), id, row)
      modifies repository, this`wire
      ensures repository.Valid()
      ensures Now(Idle)
              == Pursue(repository.policy, old(Now(Deciding(id, row, limits, now))), AdvanceInputs(script))
      ensures SendsAtMostOnce(old(wire), wire, script.sentAt, false)
      ensures IsRow(repository.Tables(), id, row)
      ensures SentFor(old(wire), wire, repository.Tables(), row.intent)
      ensures script.sentAt > 0 ==> SentAs(old(wire), wire, repository.Tables(), script.answer)
      ensures wire != old(wire) ==>
                !script.found && script.claimedAt < row.intent.deadline && script.sentAt < row.intent.deadline
      // A row that is signed is submitted without signing again.
      ensures row.status == Signed ==>
                (wire != old(wire) <==>
                 && now < row.intent.deadline
                 && script.claimedAt < row.intent.deadline
                 && old(MayClaimSubmission(repository.policy, repository.Tables(), id, script.claimedAt))
                 && old(repository.records[id].row.status) == Signed
                 && !script.found
                 && script.sentAt < row.intent.deadline)
      // At its deadline an unsigned execution is released, unless it has ended, and nothing else happens.
      ensures now >= row.intent.deadline && row.status in {PreflightApproved, Signing} ==>
                && wire == old(wire)
                && id in repository.records
                && (repository.Tables() == old(repository.Tables()) || repository.records[id].row.status == Released)
                && (old(MayReleaseExpired(repository.Tables(), id, now)) ==>
                      repository.records[id].row.status in {Released, Expired})
      ensures now >= row.intent.deadline && row.status !in {PreflightApproved, Signing} ==> Now(Idle) == old(Now(Idle))
    {
      hide Model.ReleaseExpired, Model.ClaimSigning, Pursue, SignInputs, ClaimInputs, Inv, RecordStep, Moves, Leasable, Leased,
           MayClaimSigning, MayReleaseExpired, MayClaimSubmission, AnswerStatus;
      ghost var before := repository.Tables();
      ghost var policy := repository.policy;
      AdvanceUnrolled(policy, Now(Deciding(id, row, limits, now)), script);
      if now >= row.intent.deadline {
        if Unsigned(row.status) {
          var _ := repository.ReleaseExpired(id, now);
          MovesKeepIntents(before, repository.Tables(), id);
        }
        NothingToSign(policy, repository.Tables(), Idle, wire, script);
        NothingToClaim(policy, repository.Tables(), wire, script);
        return;
      }
      var current := row;
      if Unsigned(row.status) {
        var claimed := repository.ClaimSigning(id, now);
        MovesKeepIntents(before, repository.Tables(), id);
        if claimed.Err? || !claimed.value.acquired {
          NothingToSign(policy, repository.Tables(), Idle, wire, script);
          NothingToClaim(policy, repository.Tables(), wire, script);
          return;
        }
        var signed := Sign(id, claimed.value.row, script);
        if signed.None? {
          NothingToClaim(policy, repository.Tables(), wire, script);
          return;
        }
        current := signed.value;
      } else {
        var next := if row.status == Signed then Claiming(id, row) else Idle;
        NothingToSign(policy, repository.Tables(), next, wire, script);
      }
      if current.status == Signed {
        SubmitClaimed(id, current, script);
      } else {
        NothingToClaim(policy, repository.Tables(), wire, script);
      }
    }

    /** `_sign`: the signed row, or nothing when any step of it raises. */
    method Sign(id: ExecutionId, row: Execution, script: ExecuteScript) returns (signed: Option<Execution>)
      requires repository.Valid() && IsRow(repository.Tables(), id, row)
      modifies repository
      ensures repository.Valid() && IsRow(repository.Tables(), id, row)
      ensures Now(if signed.Some? then Claiming(id, signed.value) else Idle)
              == Pursue(repository.policy, old(Now(Quoting(id, row, limits))), SignInputs(script))
      ensures signed.Some? ==> signed.value.status == Signed
      ensures signed.Some? ==> signed.value.intent == row.intent && IsRow(repository.Tables(), id, signed.value)
      // What is signed keeps the operator's total, with the fees that are not in the transaction.
      ensures signed.Some? ==>
                && signed.value.rawTransaction.Some?
                && var raw := signed.value.rawTransaction.value;
                && (limits.maxTotalFeeWei.Some? ==>
                      raw.gasLimit * raw.maxFeePerGas + script.additional <= limits.maxTotalFeeWei.value)
                && script.persistedAt < row.intent.deadline
                && (repository.policy.Some? ==> script.reservedAt < row.intent.deadline)
    {
      hide Model.ReservePilotGas, WorstCaseGasUsdMicros, Pursue, PersistStep, Inv, RecordStep, Moves, MayReserveGas;
      ghost var before := repository.Tables();
      var policy := repository.policy;
      SignUnrolled(policy, Now(Quoting(id, row, limits)), script);
      var gasLimit := GasLimit(limits, script.estimate);
      if gasLimit.None? {
        return None;
      }
      var fees := FeeQuote(limits, script.priority, script.gasPrice);
      if fees.None? {
        return None;
      }
      var transaction := UnsignedTransaction(
        row.relayerNonce, fees.value, gasLimit.value, row.intent, script.executionSignature);
      var totalFee := TotalFee(limits, transaction, script.additional);
      if totalFee.Some? && totalFee.value > limits.maxTotalFeeWei.value {
        return None;
      }
      if policy.Some? {
        if script.reservedAt >= row.intent.deadline {
          return None;
        }
        var cost := GasCharge(policy.value, transaction, totalFee);
        if cost.Err? {
          return None;
        }
        var reserved := repository.ReservePilotGas(id, cost.value, row.signingGeneration, script.reservedAt);
        MovesKeepIntents(before, repository.Tables(), id);
        if reserved.Err? {
          return None;
        }
      }
      signed := Persist(id, row, transaction, script);
    }

    /** The end of `_sign`: sign the transaction and persist it. */
    method Persist(id: ExecutionId, row: Execution, transaction: UnsignedTransaction, script: ExecuteScript)
      returns (signed: Option<Execution>)
      requires repository.Valid() && IsRow(repository.Tables(), id, row)
      modifies repository
      ensures repository.Valid() && IsRow(repository.Tables(), id, row)
      ensures Now(if signed.Some? then Claiming(id, signed.value) else Idle)
              == Next(
                   repository.policy, old(Now(Persisting(id, row, transaction))),
                   GasSigned(script.gasSignature, script.digest, script.persistedAt))
      ensures signed.Some? ==> signed.value.status == Signed
      ensures signed.Some? ==>
                && signed.value.intent == row.intent
                && IsRow(repository.Tables(), id, signed.value)
                && signed.value.rawTransaction == Some(Steps.Sign(transaction, script.gasSignature))
                && script.persistedAt < row.intent.deadline
    {
      hide HasAttempt, GasReserved, Inv, RecordStep, Moves, MayPersist, Model.PersistSigned;
      ghost var before := repository.Tables();
      if script.persistedAt >= row.intent.deadline {
        return None;
      }
      var raw := Steps.Sign(transaction, script.gasSignature);
      var persisted := repository.PersistSigned(
        id, transaction.executionSignature, raw, row.signingGeneration, Some(script.digest), script.persistedAt);
      MovesKeepIntents(before, repository.Tables(), id);
      if persisted.Err? {
        return None;
      }
      return Some(persisted.value);
    }

    /** `execute` from the signed row on. */
    method SubmitClaimed(id: ExecutionId, row: Execution, script: ExecuteScript)
      requires repository.Valid() && IsRow(repository.Tables(), id, row)
      modifies repository, this`wire
      ensures repository.Valid()
      ensures Now(Idle) == Pursue(repository.policy, old(Now(Claiming(id, row))), ClaimInputs(script))
      ensures SendsAtMostOnce(old(wire), wire, script.sentAt, false)
      ensures IsRow(repository.Tables(), id, row)
      ensures SentFor(old(wire), wire, repository.Tables(), row.intent)
      ensures script.sentAt > 0 ==> SentAs(old(wire), wire, repository.Tables(), script.answer)
      // It sends exactly when it acquires the claim in time and then does not find the transaction, in time.
      ensures wire != old(wire) <==>
                && script.claimedAt < row.intent.deadline
                && old(MayClaimSubmission(repository.policy, repository.Tables(), id, script.claimedAt))
                && old(repository.records[id].row.status) == Signed
                && !script.found
                && script.sentAt < row.intent.deadline
    {
      hide Model.ClaimSubmission, Pursue, SubmitInputs, Inv, RecordStep, Moves, Counted, ChargedToday,
           MayClaimSubmission, AnswerIsSettled, Leaves, AnswerStatus;
      ghost var before := repository.Tables();
      ClaimUnrolled(repository.policy, Now(Claiming(id, row)), script);
      if script.claimedAt >= row.intent.deadline {
        NothingToSubmit(repository.policy, repository.Tables(), wire, script);
        return;
      }
      var claimed := repository.ClaimSubmission(id, script.claimedAt);
      MovesKeepIntents(before, repository.Tables(), id);
      if claimed.Err? || !claimed.value.acquired {
        NothingToSubmit(repository.policy, repository.Tables(), wire, script);
        return;
      }
      before := repository.Tables();
      SubmitSigned(id, claimed.value.row, script);
      if script.sentAt > 0 && wire != old(wire) {
        UnknownIsSettled(
          before, repository.Tables(), id, claimed.value.row.rawTransaction.value, script.answer, script.sentAt, false);
      }
    }

    /** `_submit_signed`. */
    method SubmitSigned(id: ExecutionId, row: Execution, script: ExecuteScript)
      requires repository.Valid() && IsRow(repository.Tables(), id, row)
      modifies repository, this`wire
      ensures repository.Valid() && IsRow(repository.Tables(), id, row)
      ensures Now(Idle) == Pursue(repository.policy, old(Now(LookingUp(id, row))), SubmitInputs(script))
      // The bytes go out exactly when they were not found, are stored, and the deadline lies ahead.
      ensures var sends := !script.found && row.rawTransaction.Some? && script.sentAt < row.intent.deadline;
              && wire
                 == (if sends
                     then old(wire) + [Sent(id, row.rawTransaction.value, row.broadcastAttempts, script.sentAt, false)]
                     else old(wire))
              && (script.found ==>
                    Leaves(
                      old(repository.Tables()), repository.Tables(), id,
                      old(MayMark(repository.Tables(), id, script.sentAt)), Submitted))
              && (sends ==>
                    AnswerIsSettled(
                      old(repository.Tables()), repository.Tables(), id, row.rawTransaction.value, script.answer,
                      script.sentAt, false))
              && (!script.found && !sends ==> repository.Tables() == old(repository.Tables()))
    {
      hide Model.MarkSubmitted, Model.MarkSubmissionUnknown, Model.MarkSubmissionRejected, Pursue, Inv, RecordStep, Moves,
           IntentsStay, Marked, MayMark, MayReject;
      ghost var before := repository.Tables();
      SubmitUnrolled(repository.policy, Now(LookingUp(id, row)), script);
      if script.found {
        var _ := repository.MarkSubmitted(id, script.sentAt);
        MovesKeepIntents(before, repository.Tables(), id);
        return;
      }
      if row.rawTransaction.None? || script.sentAt >= row.intent.deadline {
        return;
      }
      var raw := row.rawTransaction.value;
      wire := wire + [Sent(id, raw, row.broadcastAttempts, script.sentAt, false)];
      match script.answer {
        case TransportFailure =>
        case SubmissionUnknownAnswer =>
        case SubmissionRejectedAnswer(reason) => var _ := repository.MarkSubmissionRejected(id, reason, script.sentAt);
        case Accepted(hash) =>
          if hash != TxHash(raw) {
            var _ := repository.MarkSubmissionUnknown(id, script.sentAt);
          } else {
            var _ := repository.MarkSubmitted(id, script.sentAt);
          }
      }
      MovesKeepIntents(before, repository.Tables(), id);
    }
  }

  // ---------------------------------------------------------------- reconciliation

  /** What RPC and clock answer during one `rebroadcast_identical`. */
  datatype RebroadcastScript = RebroadcastScript(
    found: bool, foundAt: int, now: int, answer: RpcAnswer, foundLater: bool, foundLaterAt: int)

  function InspectInputs(id: ExecutionId, found: bool, now: int): seq<Input> {
    [StartInspect(id, false), Lookup(found, now)]
  }

  /** The steps of one `rebroadcast_identical`: inspect, claim or count the rebroadcast, mark the row unknown
      or look again after a lost claim, send, and settle. */
  function RebroadcastInputs(id: ExecutionId, script: RebroadcastScript): seq<Input> {
    [StartInspect(id, true), Lookup(script.found, script.foundAt)] + ResendInputs(script)
  }

  function ResendInputs(script: RebroadcastScript): seq<Input> {
    [RebroadcastAt(script.now), Proceed] + LastInputs(script)
  }

  function LastInputs(script: RebroadcastScript): seq<Input> {
    [Lookup(script.foundLater, script.foundLaterAt)] + [Answer(script.answer), Proceed]
  }

  lemma RebroadcastUnrolled(
    policy: Policy, course: Course, id: ExecutionId, script: RebroadcastScript)
    ensures var begun := Next(policy, Next(policy, course, StartInspect(id, true)), Lookup(script.found, script.foundAt));
            Pursue(policy, course, RebroadcastInputs(id, script)) == Pursue(policy, begun, ResendInputs(script))
  {
    hide Next, Pursue, ResendInputs;
    PursueOn(policy, course, [StartInspect(id, true), Lookup(script.found, script.foundAt)], ResendInputs(script));
    PursueTwo(policy, course, StartInspect(id, true), Lookup(script.found, script.foundAt));
  }

  lemma ResendUnrolled(policy: Policy, course: Course, script: RebroadcastScript)
    ensures var counted := Next(policy, Next(policy, course, RebroadcastAt(script.now)), Proceed);
            Pursue(policy, course, ResendInputs(script)) == Pursue(policy, counted, LastInputs(script))
  {
    hide Next, Pursue, LastInputs;
    PursueOn(policy, course, [RebroadcastAt(script.now), Proceed], LastInputs(script));
    PursueTwo(policy, course, RebroadcastAt(script.now), Proceed);
  }

  lemma LastUnrolled(policy: Policy, course: Course, script: RebroadcastScript)
    ensures var looked := Next(policy, course, Lookup(script.foundLater, script.foundLaterAt));
            Pursue(policy, course, LastInputs(script))
            == Next(policy, Next(policy, looked, Answer(script.answer)), Proceed)
  {
    hide Next, Pursue;
    var lookup := Lookup(script.foundLater, script.foundLaterAt);
    PursueOn(policy, course, [lookup], [Answer(script.answer), Proceed]);
    PursueOne(policy, course, lookup);
    PursueTwo(policy, Next(policy, course, lookup), Answer(script.answer), Proceed);
  }

  lemma LastIdle(policy: Policy, course: Course, script: RebroadcastScript)
    requires Next(policy, course, Lookup(script.foundLater, script.foundLaterAt)).worker.Idle?
    ensures Pursue(policy, course, LastInputs(script))
            == Next(policy, course, Lookup(script.foundLater, script.foundLaterAt))
  {
    LastUnrolled(policy, course, script);
  }

  lemma NothingToResend(policy: Policy, db: Db, wire: seq<Sent>, script: RebroadcastScript)
    ensures Pursue(policy, Course(db, Idle, wire), ResendInputs(script)) == Course(db, Idle, wire)
    ensures Pursue(policy, Course(db, Idle, wire), LastInputs(script)) == Course(db, Idle, wire)
  {
    IdleStays(policy, db, wire, ResendInputs(script));
    IdleStays(policy, db, wire, LastInputs(script));
  }

  /** `HostedSubmissionReconciler`. */
  class SubmissionReconciler {
    const repository: ExecutionRepository
    var wire: seq<Sent>

    constructor (repository: ExecutionRepository)
      ensures this.repository == repository && wire == []
    {
      this.repository := repository;
      wire := [];
    }

    ghost function Now(worker: Worker): Course
      reads this, repository
    {
      Course(repository.Tables(), worker, wire)
    }

    /** `_inspect_submission`: the row to go on with, unless the call is over. */
    method Inspect(id: ExecutionId, rebroadcast: bool, found: bool, now: int) returns (missing: Option<Execution>)
      requires repository.Valid()
      modifies repository
      ensures repository.Valid()
      ensures Now(if missing.Some? && rebroadcast then Rebroadcasting(id, missing.value) else Idle)
              == Next(
                   repository.policy, old(Now(BeginInspection(repository.Tables(), id, rebroadcast))), Lookup(found, now))
      ensures missing.Some? <==>
                !found && old(id in repository.records && InSubmission(repository.records[id].row.status))
      ensures missing.Some? ==> id in repository.records && missing.value == repository.records[id].row
      ensures missing.Some? ==> repository.Tables() == old(repository.Tables())
      ensures old(id in repository.records && repository.records[id].row.status in {Signed, Submitted, SubmissionUnknown, SubmissionRejected})
              && found && now > 0 ==>
                id in repository.records && repository.records[id].row.status == Submitted
    {
      hide Model.MarkSubmitted, Inv, RecordStep, Moves;
      if id !in repository.records {
        return None;
      }
      var row := repository.records[id].row;
      if !InSubmission(row.status) {
        return None;
      }
      if !found {
        return Some(row);
      }
      if row.status != Submitted {
        ghost var before := repository.Tables();
        var _ := repository.MarkSubmitted(id, now);
        MovesKeepIntents(before, repository.Tables(), id);
      }
      return None;
    }

    /** `inspect_submission`. */
    method InspectSubmission(id: ExecutionId, found: bool, now: int)
      requires repository.Valid()
      modifies repository
      ensures repository.Valid()
      ensures Now(Idle) == Pursue(repository.policy, old(Now(Idle)), InspectInputs(id, found, now))
    {
      hide Pursue;
      PursueTwo(repository.policy, Now(Idle), StartInspect(id, false), Lookup(found, now));
      var _ := Inspect(id, false, found, now);
    }

    /** `rebroadcast_identical`. */
    method RebroadcastIdentical(id: ExecutionId, script: RebroadcastScript)
      requires repository.Valid()
      modifies repository, this`wire
      ensures repository.Valid()
      ensures Now(Idle) == Pursue(repository.policy, old(Now(Idle)), RebroadcastInputs(id, script))
      ensures SendsAtMostOnce(old(wire), wire, script.now, true)
      ensures SentAs(old(wire), wire, repository.Tables(), script.answer)
      // It sends exactly when the row is in submission, the transaction is not found, and a first broadcast may be
      // claimed or a later one counted.
      ensures wire != old(wire) <==>
                && !script.found
                && old(id in repository.records)
                && (if old(repository.records[id].row.status) == Signed
                    then old(MayClaimSubmission(repository.policy, repository.Tables(), id, script.now))
                    else old(MayRebroadcast(repository.policy, repository.Tables(), id, None, script.now)))
    {
      hide Pursue, ResendInputs, AnswerStatus, MayClaimSubmission;
      RebroadcastUnrolled(repository.policy, Now(Idle), id, script);
      var missing := Inspect(id, true, script.found, script.foundAt);
      if missing.None? {
        NothingToResend(repository.policy, repository.Tables(), wire, script);
        return;
      }
      Resend(id, missing.value, script);
    }

    /** The rest of `rebroadcast_identical`, for a row whose transaction was not found. */
    method Resend(id: ExecutionId, row: Execution, script: RebroadcastScript)
      requires repository.Valid()
      modifies repository, this`wire
      ensures repository.Valid()
      ensures Now(Idle) == Pursue(repository.policy, old(Now(Rebroadcasting(id, row))), ResendInputs(script))
      ensures SendsAtMostOnce(old(wire), wire, script.now, true)
      ensures wire != old(wire) <==>
                if row.status == Signed
                then old(MayClaimSubmission(repository.policy, repository.Tables(), id, script.now))
                     && old(id in repository.records && repository.records[id].row.status == Signed)
                else old(MayRebroadcast(repository.policy, repository.Tables(), id, None, script.now))
      ensures SentAs(old(wire), wire, repository.Tables(), script.answer)
    {
      hide Model.ClaimSubmission, Model.RebroadcastRaw, Model.MarkSubmissionUnknown, Pursue, LastInputs,
           Inv, Moves, Counted, Recounted, Marked, MayClaimSubmission, ChargedToday,
           AnswerIsSettled, AnswerStatus, IntentsStay;
      ghost var policy := repository.policy;
      ResendUnrolled(policy, Now(Rebroadcasting(id, row)), script);
      var raw, number;
      if row.status == Signed {
        var claimed := repository.ClaimSubmission(id, script.now);
        NothingToResend(policy, repository.Tables(), wire, script);
        if claimed.Err? {
          return;
        }
        if !claimed.value.acquired {
          LookAgain(id, script);
          return;
        }
        if claimed.value.row.rawTransaction.None? {
          return;
        }
        raw, number := claimed.value.row.rawTransaction.value, claimed.value.row.broadcastAttempts;
      } else {
        var counted := repository.RebroadcastRaw(id, None, script.now);
        NothingToResend(policy, repository.Tables(), wire, script);
        if counted.Err? || id !in repository.records {
          return;
        }
        raw, number := counted.value, repository.records[id].row.broadcastAttempts;
        var expected := repository.MarkSubmissionUnknown(id, script.now);
        NothingToResend(policy, repository.Tables(), wire, script);
        if expected.Err? || expected.value.rawTransaction != Some(raw) {
          return;
        }
      }
      ghost var before := repository.Tables();
      Send(id, raw, number, script);
      UnknownIsSettled(before, repository.Tables(), id, raw, script.answer, script.now, true);
    }

    /** After a lost claim: inspect once more, and stop. */
    method LookAgain(id: ExecutionId, script: RebroadcastScript)
      requires repository.Valid()
      modifies repository
      ensures repository.Valid()
      ensures Now(Idle)
              == Pursue(repository.policy, old(Now(BeginInspection(repository.Tables(), id, false))), LastInputs(script))
    {
      hide Pursue, Next, Inv, InSubmission, BeginInspection;
      ghost var begun := Now(BeginInspection(repository.Tables(), id, false));
      var _ := Inspect(id, false, script.foundLater, script.foundLaterAt);
      LastIdle(repository.policy, begun, script);
    }

    /** The send of `rebroadcast_identical`, and what its answer means. */
    method Send(id: ExecutionId, raw: RawTransaction, number: nat, script: RebroadcastScript)
      requires repository.Valid()
      modifies repository, this`wire
      ensures repository.Valid()
      ensures Now(Idle)
              == Pursue(repository.policy, old(Now(Sending(id, raw, number, script.now, true))), LastInputs(script))
      ensures wire == old(wire) + [Sent(id, raw, number, script.now, true)]
      ensures AnswerIsSettled(old(repository.Tables()), repository.Tables(), id, raw, script.answer, script.now, true)
    {
      hide Model.MarkSubmitted, Model.MarkSubmissionUnknown, Model.MarkSubmissionRejected, Pursue, Inv, RecordStep, Moves,
           IntentsStay, Marked, MayMark, MayReject;
      LastUnrolled(repository.policy, Now(Sending(id, raw, number, script.now, true)), script);
      wire := wire + [Sent(id, raw, number, script.now, true)];
      match script.answer {
        case TransportFailure =>
        case SubmissionUnknownAnswer => var _ := repository.MarkSubmissionUnknown(id, script.now);
        case SubmissionRejectedAnswer(reason) => var _ := repository.MarkSubmissionRejected(id, reason, script.now);
        case Accepted(hash) =>
          if hash != TxHash(raw) {
            var _ := repository.MarkSubmissionUnknown(id, script.now);
          } else {
            var _ := repository.MarkSubmitted(id, script.now);
          }
      }
    }
  }
}
