/** What steps of the system leave alone: attempt stamps, the nonce allocators' direction, stored bytes,
    and, but for one call, the counting of broadcasts. */
module HostedRelayerFrames {
  import opened Wrappers
  import opened PilotGate
  import opened ExecutionModels
  import opened RepositoryModel
  import opened RepositoryInvariants
  import opened RepositorySteps
  import opened RepositoryWriting
  import opened HostedRelayer
  import opened HostedRelayerCalls
  import opened WatchQueue

  /** No row vanishes and no attempt stamp moves. */
  ghost predicate StampsKept(before: Db, after: Db) {
    forall id :: id in before.records ==> id in after.records && Stamp(after.records[id]) == Stamp(before.records[id])
  }

  ghost predicate NextNoncesGrow(before: Db, after: Db) {
    forall key :: key in before.nextNonces ==> key in after.nextNonces && before.nextNonces[key] <= after.nextNonces[key]
  }

  /** Every row has the bytes it had, or none, or those just signed. */
  ghost predicate BytesFrom(before: Db, after: Db, signed: Option<RawTransaction>) {
    forall id :: id in after.records ==>
      var raw := after.records[id].row.rawTransaction;
      || raw.None?
      || (id in before.records && raw == before.records[id].row.rawTransaction)
      || raw == signed
  }

  ghost predicate Framed(before: Db, after: Db, signed: Option<RawTransaction>) {
    StampsKept(before, after) && NextNoncesGrow(before, after) && BytesFrom(before, after, signed)
  }

  /** The bytes a worker's step may store: those of a signer that persists. */
  function SignedBytes(worker: Worker, input: Input): Option<RawTransaction> {
    if worker.Persisting? && input.GasSigned? then Some(Sign(worker.transaction, input.gasSignature)) else None
  }

  /** No row comes to be past `signed` without a counted broadcast. */
  ghost predicate JournalsKept(before: Db, after: Db) {
    forall id :: id in after.records && Unjournaled(after.records[id].row) ==>
      id in before.records && Unjournaled(before.records[id].row)
  }

  /** The call that takes a signed row out of `signed` without counting. */
  predicate SkipsJournal(call: Call) {
    call.OperatorTransition? && call.target == SubmissionRejected
  }

  predicate Stamps(action: Action) {
    action.Environment? && action.call.WatchAttempt?
  }

  // ---------------------------------------------------------------- repository calls

  /** At most one row changes, and not its stamp nor its bytes. */
  predicate Touches(before: Db, after: Db, id: ExecutionId) {
    || after == before
    || (&& id in before.records
        && id in after.records
        && after == Put(before, id, after.records[id])
        && Stamp(after.records[id]) == Stamp(before.records[id])
        && after.records[id].row.rawTransaction == before.records[id].row.rawTransaction)
  }

  predicate Counts(before: Db, after: Db, id: ExecutionId) {
    || after == before
    || (&& id in before.records
        && id in after.records
        && (Unjournaled(after.records[id].row) ==> Unjournaled(before.records[id].row)))
  }

  lemma CountsKeepJournals(before: Db, after: Db, id: ExecutionId)
    requires Touches(before, after, id) && Counts(before, after, id)
    ensures JournalsKept(before, after)
  {
    hide Unjournaled, Stamp;
  }

  lemma TouchFrames(before: Db, after: Db, id: ExecutionId, signed: Option<RawTransaction>)
    requires Touches(before, after, id)
    ensures Framed(before, after, signed)
  {
    hide Stamp;
  }

  /** What any call does that stores no bytes and writes no attempt stamp. */
  ghost predicate TouchesBy(policy: Policy, db: Db, id: ExecutionId, call: Writing) {
    && Touches(db, Written(policy, db, id, call), id)
    && (!(call.Transitions? && call.target == SubmissionRejected) ==> Counts(db, Written(policy, db, id, call), id))
  }

  lemma SignerTouches(policy: Policy, db: Db, id: ExecutionId, call: Writing)
    requires call.ClaimsSigning? || call.ReservesGas?
    ensures TouchesBy(policy, db, id, call)
  {
    hide Total;
  }

  lemma BroadcastTouches(policy: Policy, db: Db, id: ExecutionId, call: Writing)
    requires IsBroadcast(call)
    ensures TouchesBy(policy, db, id, call)
  {
    hide EnsureGas, HasAttempt, GateOpen;
    if call.now > 0 && id in db.records {
      EnsureGasKeepsRest(policy, db, id, db.records[id], call.now);
    }
  }

  lemma MarkTouches(policy: Policy, db: Db, id: ExecutionId, call: Writing)
    requires call.MarksSubmitted? || call.MarksUnknown? || call.MarksRejected?
    ensures TouchesBy(policy, db, id, call)
  {
    hide HasAttempt;
  }

  lemma EndTouches(policy: Policy, db: Db, id: ExecutionId, call: Writing)
    requires call.ReleasesExpired? || call.Transitions?
    ensures TouchesBy(policy, db, id, call)
  {
  }

  lemma ReceiptTouches(policy: Policy, db: Db, id: ExecutionId, call: Writing)
    requires call.Confirms? || call.Reverts?
    ensures TouchesBy(policy, db, id, call)
  {
    hide Finality.DeepEnough;
  }

  lemma OutcomeTouches(policy: Policy, db: Db, id: ExecutionId, call: Writing)
    requires call.Finalizes? || call.ReleasesReverted? || call.Reviews?
    ensures TouchesBy(policy, db, id, call)
  {
    hide Finality.DeepEnough, Finality.SameReceipt, ReleaseEvidence.ProvesNoTransfer;
  }

  lemma WritingTouches(policy: Policy, db: Db, id: ExecutionId, call: Writing)
    requires !call.Persists? && !call.RecordsAttempt?
    ensures TouchesBy(policy, db, id, call)
  {
    hide TouchesBy;
    match call
    case ClaimsSigning(_) => SignerTouches(policy, db, id, call);
    case ReservesGas(_, _, _) => SignerTouches(policy, db, id, call);
    case ClaimsSubmission(_) => BroadcastTouches(policy, db, id, call);
    case Rebroadcasts(_, _) => BroadcastTouches(policy, db, id, call);
    case MarksSubmitted(_) => MarkTouches(policy, db, id, call);
    case MarksUnknown(_) => MarkTouches(policy, db, id, call);
    case MarksRejected(_, _) => MarkTouches(policy, db, id, call);
    case ReleasesExpired(_) => EndTouches(policy, db, id, call);
    case Transitions(_, _, _) => EndTouches(policy, db, id, call);
    case Confirms(_, _, _) => ReceiptTouches(policy, db, id, call);
    case Reverts(_, _, _, _) => ReceiptTouches(policy, db, id, call);
    case _ => OutcomeTouches(policy, db, id, call);
  }

  lemma AttemptKeepsFrame(db: Db, id: ExecutionId, nowNs: Positive)
    ensures JournalsKept(db, After(db, RecordWatcherAttempt(db, id, nowNs)))
    ensures NextNoncesGrow(db, After(db, RecordWatcherAttempt(db, id, nowNs)))
    ensures BytesFrom(db, After(db, RecordWatcherAttempt(db, id, nowNs)), None)
  {
  }

  // ---------------------------------------------------------------- steps

  lemma NextIsNotLower(db: Db, key: NonceKey, pending: nat, confirmed: nat)
    requires key in db.nextNonces
    ensures AllocateNonce(db, key, pending, confirmed).next >= db.nextNonces[key]
  {
    hide RecyclableNonces;
  }

  lemma AllocationKeepsFrame(
    policy: Policy, db: Db, intent: ExecutionIntent, pending: nat, confirmed: nat, newId: ExecutionId, now: int)
    ensures var after := After(db, AllocateOrReturn(policy, db, intent, pending, confirmed, newId, now));
            Framed(db, after, None) && JournalsKept(db, after)
  {
    hide FindForIntent, AdmissionDenial, AllocateNonce, SharesKey;
    if intent.Key() in db.nextNonces {
      NextIsNotLower(db, intent.Key(), pending, confirmed);
    }
  }

  lemma PersistKeepsFrame(
    policy: Policy, db: Db, id: ExecutionId, signature: Signature, raw: RawTransaction, generation: int,
    unsignedHash: Option<string>, now: int)
    ensures var after := After(db, PersistSigned(policy, db, id, signature, raw, generation, unsignedHash, now));
            Framed(db, after, Some(raw)) && JournalsKept(db, after)
  {
    hide HasAttempt;
  }

  lemma PauseFrames(db: Db, scope: ControlScope, paused: bool)
    ensures Framed(db, SetPause(db, scope, paused), None)
    ensures JournalsKept(db, SetPause(db, scope, paused))
  {
  }

  /** The bytes a call stores. */
  function Stored(transaction: Transaction): Option<RawTransaction> {
    if transaction.Writes? && transaction.call.Persists? then Some(transaction.call.raw) else None
  }

  lemma CommitKeepsFrame(policy: Policy, db: Db, transaction: Transaction)
    ensures var after := Commits(policy, db, transaction);
            && NextNoncesGrow(db, after)
            && BytesFrom(db, after, Stored(transaction))
            && (!(transaction.Writes? && transaction.call.RecordsAttempt?) ==> StampsKept(db, after))
            && (!(transaction.Writes? && transaction.call.Transitions? && transaction.call.target == SubmissionRejected) ==>
                  JournalsKept(db, after))
  {
    hide NextNoncesGrow, BytesFrom, StampsKept, JournalsKept, AllocateOrReturn, PersistSigned, RecordWatcherAttempt,
         Touches, Counts;
    match transaction
    case Nothing =>
      Untouched(db, "");
      TouchFrames(db, db, "", None);
      CountsKeepJournals(db, db, "");
    case Allocates(intent, pending, confirmed, newId, now) =>
      AllocationKeepsFrame(policy, db, intent, pending, confirmed, newId, now);
    case Pauses(scope, paused) => PauseFrames(db, scope, paused);
    case Writes(id, call) =>
      if call.Persists? {
        PersistKeepsFrame(
          policy, db, id, call.signature, call.raw, call.generation, call.unsignedHash, call.now);
      } else if call.RecordsAttempt? {
        AttemptKeepsFrame(db, id, call.nowNs);
      } else {
        hide Written;
        WritingTouches(policy, db, id, call);
        TouchFrames(db, Written(policy, db, id, call), id, None);
        if !(call.Transitions? && call.target == SubmissionRejected) {
          CountsKeepJournals(db, Written(policy, db, id, call), id);
        }
      }
  }

  lemma Untouched(db: Db, id: ExecutionId)
    ensures Touches(db, db, id) && Counts(db, db, id)
  {
  }

  function SignedBy(s: System, action: Action): Option<RawTransaction> {
    if action.Work? then SignedBytes(WorkerAt(s, action.worker), action.input) else None
  }

  /** No step lowers a next nonce, none but a persisting signer's stores bytes, only
      `record_watcher_attempt` writes a stamp, and only the generic `transition` to
      `submission_rejected` takes a row past `signed` uncounted. */
  lemma StepKeepsFrame(policy: Policy, s: System, action: Action)
    ensures NextNoncesGrow(s.db, Step(policy, s, action).db)
    ensures BytesFrom(s.db, Step(policy, s, action).db, SignedBy(s, action))
    ensures !Stamps(action) ==> StampsKept(s.db, Step(policy, s, action).db)
    ensures !(action.Environment? && SkipsJournal(action.call)) ==> JournalsKept(s.db, Step(policy, s, action).db)
  {
    hide Step, Commits, JournalsKept, NextNoncesGrow, StampsKept, GasCharge;
    StepCommits(policy, s, action);
    CommitKeepsFrame(policy, s.db, StepCall(policy, s, action));
  }

  lemma KeptTwice(a: Db, b: Db, c: Db)
    requires StampsKept(a, b) && StampsKept(b, c)
    ensures StampsKept(a, c)
  {
  }

  lemma {:induction false} RunKeepsStamps(policy: Policy, s: System, actions: seq<Action>)
    requires forall k :: 0 <= k < |actions| ==> !Stamps(actions[k])
    ensures StampsKept(s.db, Run(policy, s, actions).db)
    decreases |actions|
  {
    hide Step, Stamp, BytesFrom;
    if actions != [] {
      var t := Step(policy, s, actions[0]);
      StepKeepsFrame(policy, s, actions[0]);
      RunKeepsStamps(policy, t, actions[1..]);
      KeptTwice(s.db, t.db, Run(policy, t, actions[1..]).db);
    }
  }

  /** Over any continuation of a run, `next_nonce` never decreases. */
  lemma {:induction false} NextNonceNeverDecreases(policy: Policy, s: System, actions: seq<Action>, key: NonceKey)
    requires key in s.db.nextNonces
    ensures key in Run(policy, s, actions).db.nextNonces
    ensures s.db.nextNonces[key] <= Run(policy, s, actions).db.nextNonces[key]
    decreases |actions|
  {
    hide Step, BytesFrom, StampsKept;
    if actions != [] {
      StepKeepsFrame(policy, s, actions[0]);
      NextNonceNeverDecreases(policy, Step(policy, s, actions[0]), actions[1..], key);
    }
  }
}
