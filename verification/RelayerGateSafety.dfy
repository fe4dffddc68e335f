/** The relayer gate over every run: any number of processes, each dying anywhere, including between
    the decision and the journal write and between the write and the return. */
module RelayerGateSafety {
  import opened Wrappers
  import opened Decimals
  import opened RelayerGate

  // ---------------------------------------------------------------- the system

  type LeaseId = nat

  /** What was durably decided, in order. */
  datatype Event =
    | Admitted(pair: Pair)
    | CompletedEvent(completion: Completion)
    | ReconciledEvent(completion: Completion)
    | AbortedEvent(pair: Pair)

  /** The journal file, the lock's holder, the living lease objects and a log of the decisions. */
  datatype GateSystem = GateSystem(
    journal: Journal, holder: Option<LeaseId>, leases: map<LeaseId, Lease>, log: seq<Event>)

  const INITIAL := GateSystem(EMPTY_JOURNAL, None, map[], [])

  /** Whether the acting process survives the call, dies before its journal write, or after it. */
  datatype Fate = Survives | DiesBeforeWrite | DiesAfterWrite

  datatype Action =
    | Open(id: LeaseId, pair: Pair)
    | EnterLease(id: LeaseId, fate: Fate)
    | ExitLease(id: LeaseId)
    | CompleteLease(id: LeaseId, proof: PaymentProof, fate: Fate)
    | AbortLease(id: LeaseId, denial: AbortProof, fate: Fate)
    | ReconcilePayment(proof: PaymentProof, fate: Fate)
    | Die(id: LeaseId)

  /** The lease's process is gone, and its lock with it. */
  function Gone(s: GateSystem, id: LeaseId): GateSystem {
    s.(leases := s.leases - {id}, holder := if s.holder == Some(id) then None else s.holder)
  }

  function Surviving(s: GateSystem, id: LeaseId, fate: Fate): GateSystem {
    if fate == Survives then s else Gone(s, id)
  }

  function EnterStep(s: GateSystem, id: LeaseId, fate: Fate): GateSystem
    requires id in s.leases
  {
    var lease := s.leases[id];
    match EnterWith(s.journal, s.holder.Some?, lease)
    case Err(_) => Surviving(s, id, fate)
    case Ok(next) =>
      if fate == DiesBeforeWrite then Gone(s, id) else
        Surviving(
          GateSystem(
            next, Some(id), s.leases[id := lease.(holding := true)],
            if s.journal.active.None? then s.log + [Admitted(lease.pair)] else s.log),
          id, fate)
  }

  function ExitStep(s: GateSystem, id: LeaseId): GateSystem
    requires id in s.leases
  {
    s.(leases := s.leases[id := s.leases[id].(holding := false)],
       holder := if s.leases[id].holding then None else s.holder)
  }

  function CompleteStep(network: Network, s: GateSystem, id: LeaseId, proof: PaymentProof, fate: Fate): GateSystem
    requires id in s.leases
  {
    var lease := s.leases[id];
    match CompleteWith(network, s.journal, lease, proof)
    case Err(_) => Surviving(s, id, fate)
    case Ok(next) =>
      if fate == DiesBeforeWrite then Gone(s, id) else
        Surviving(
          s.(journal := next, leases := s.leases[id := lease.(completed := true)],
             log := s.log + [CompletedEvent(next.lastCompleted.value)]),
          id, fate)
  }

  function AbortStep(s: GateSystem, id: LeaseId, denial: AbortProof, fate: Fate): GateSystem
    requires id in s.leases
  {
    var lease := s.leases[id];
    match AbortWith(s.journal, lease, denial)
    case Err(_) => Surviving(s, id, fate)
    case Ok(next) =>
      if fate == DiesBeforeWrite then Gone(s, id) else
        Surviving(
          s.(journal := next, leases := s.leases[id := lease.(aborted := true)], log := s.log + [AbortedEvent(lease.pair)]),
          id, fate)
  }

  function ReconcileStep(network: Network, s: GateSystem, proof: PaymentProof, fate: Fate): GateSystem {
    match ReconcileWith(network, s.journal, s.holder.Some?, proof)
    case Ok(Reconciled(completion)) =>
      if fate == DiesBeforeWrite then s else
        s.(journal := Journal(None, Some(completion)), log := s.log + [ReconciledEvent(completion)])
    case _ => s
  }

  function Step(network: Network, s: GateSystem, action: Action): GateSystem {
    match action
    case Open(id, pair) =>
      if id in s.leases || !PairValid(pair) then s
      else s.(leases := s.leases[id := Lease(pair, false, false, false)])
    case EnterLease(id, fate) => if id in s.leases then EnterStep(s, id, fate) else s
    case ExitLease(id) => if id in s.leases then ExitStep(s, id) else s
    case CompleteLease(id, proof, fate) => if id in s.leases then CompleteStep(network, s, id, proof, fate) else s
    case AbortLease(id, denial, fate) => if id in s.leases then AbortStep(s, id, denial, fate) else s
    case ReconcilePayment(proof, fate) => ReconcileStep(network, s, proof, fate)
    case Die(id) => Gone(s, id)
  }

  function Run(network: Network, s: GateSystem, actions: seq<Action>): GateSystem
    decreases |actions|
  {
    if actions == [] then s else Run(network, Step(network, s, actions[0]), actions[1..])
  }

  // ---------------------------------------------------------------- what the log says

  /** The pair that is admitted and not yet resolved. */
  function Pending(log: seq<Event>): Option<Pair> {
    if log != [] && log[|log| - 1].Admitted? then Some(log[|log| - 1].pair) else None
  }

  function LastCompletion(log: seq<Event>): Option<Completion> {
    if log == [] then None
    else
      match log[|log| - 1]
      case CompletedEvent(c) => Some(c)
      case ReconciledEvent(c) => Some(c)
      case _ => LastCompletion(log[..|log| - 1])
  }

  predicate Resolves(event: Event, pair: Pair) {
    match event
    case Admitted(_) => false
    case CompletedEvent(c) => c.pair == pair
    case ReconciledEvent(c) => c.pair == pair
    case AbortedEvent(p) => p == pair
  }

  predicate Completes(event: Event, pair: Pair) {
    (event.CompletedEvent? || event.ReconciledEvent?) && SamePurchase(event.completion.pair, pair)
  }

  /** An admission finds no pair pending and no equal last completion; anything else resolves the
      pending pair. */
  predicate Follows(log: seq<Event>, event: Event) {
    if event.Admitted? then
      && Pending(log).None?
      && PairValid(event.pair)
      && (LastCompletion(log).Some? ==> !SamePurchase(LastCompletion(log).value.pair, event.pair))
    else
      && Pending(log).Some?
      && Resolves(event, Pending(log).value)
      && (!event.AbortedEvent? ==> CompletionValid(event.completion))
  }

  predicate Bracketed(log: seq<Event>) {
    log != [] ==> Bracketed(log[..|log| - 1]) && Follows(log[..|log| - 1], log[|log| - 1])
  }

  // ---------------------------------------------------------------- the invariant

  predicate HolderInv(s: GateSystem) {
    && (s.holder.Some? ==> s.holder.value in s.leases)
    && (forall id :: id in s.leases ==> (s.leases[id].holding <==> s.holder == Some(id)))
    && (forall id :: id in s.leases ==> PairValid(s.leases[id].pair))
    // A lease that holds the lock unclosed is the lease of the active pair.
    && (forall id :: id in s.leases && s.leases[id].holding && !s.leases[id].completed && !s.leases[id].aborted ==>
          s.journal.active == Some(s.leases[id].pair))
  }

  /** The journal is what the log says it is. */
  predicate JournalInv(s: GateSystem) {
    && ValidJournal(s.journal)
    && Bracketed(s.log)
    && s.journal.active == Pending(s.log)
    && s.journal.lastCompleted == LastCompletion(s.log)
  }

  predicate SystemInv(s: GateSystem) {
    HolderInv(s) && JournalInv(s)
  }

  lemma Appended(log: seq<Event>, event: Event)
    requires Bracketed(log) && Follows(log, event)
    ensures Bracketed(log + [event])
    ensures Pending(log + [event]) == if event.Admitted? then Some(event.pair) else None
    ensures LastCompletion(log + [event]) ==
            if event.CompletedEvent? || event.ReconciledEvent? then Some(event.completion) else LastCompletion(log)
  {
    assert (log + [event])[..|log|] == log;
  }

  lemma GoneKeepsInv(s: GateSystem, id: LeaseId)
    requires SystemInv(s)
    ensures SystemInv(Gone(s, id))
  {
    hide ValidJournal, Bracketed, Pending, LastCompletion, PairValid;
  }

  lemma SurvivingKeepsInv(s: GateSystem, id: LeaseId, fate: Fate)
    requires SystemInv(s)
    ensures SystemInv(Surviving(s, id, fate))
  {
    GoneKeepsInv(s, id);
  }

  lemma EnterKeepsInv(s: GateSystem, id: LeaseId, fate: Fate)
    requires SystemInv(s) && id in s.leases
    ensures SystemInv(EnterStep(s, id, fate))
  {
    hide PairValid, CompletionValid, Bracketed, Pending, LastCompletion;
    GoneKeepsInv(s, id);
    var lease := s.leases[id];
    var entered := EnterWith(s.journal, s.holder.Some?, lease);
    if entered.Ok? {
      if s.journal.active.None? {
        Appended(s.log, Admitted(lease.pair));
      }
      var t := EnterStep(s, id, Survives);
      assert SystemInv(t);
      SurvivingKeepsInv(t, id, fate);
    }
  }

  lemma CompleteKeepsInv(network: Network, s: GateSystem, id: LeaseId, proof: PaymentProof, fate: Fate)
    requires SystemInv(s) && id in s.leases
    ensures SystemInv(CompleteStep(network, s, id, proof, fate))
  {
    hide PairValid, Bracketed, Pending, LastCompletion;
    GoneKeepsInv(s, id);
    var completed := CompleteWith(network, s.journal, s.leases[id], proof);
    if completed.Ok? {
      Appended(s.log, CompletedEvent(completed.value.lastCompleted.value));
      var t := CompleteStep(network, s, id, proof, Survives);
      assert SystemInv(t);
      SurvivingKeepsInv(t, id, fate);
    }
  }

  lemma AbortKeepsInv(s: GateSystem, id: LeaseId, denial: AbortProof, fate: Fate)
    requires SystemInv(s) && id in s.leases
    ensures SystemInv(AbortStep(s, id, denial, fate))
  {
    hide PairValid, CompletionValid, Bracketed, Pending, LastCompletion;
    GoneKeepsInv(s, id);
    var aborted := AbortWith(s.journal, s.leases[id], denial);
    if aborted.Ok? {
      Appended(s.log, AbortedEvent(s.leases[id].pair));
      var t := AbortStep(s, id, denial, Survives);
      assert SystemInv(t);
      SurvivingKeepsInv(t, id, fate);
    }
  }

  lemma ReconcileKeepsInv(network: Network, s: GateSystem, proof: PaymentProof, fate: Fate)
    requires SystemInv(s)
    ensures SystemInv(ReconcileStep(network, s, proof, fate))
  {
    hide PairValid, Bracketed, Pending, LastCompletion;
    var answer := ReconcileWith(network, s.journal, s.holder.Some?, proof);
    if answer.Ok? && answer.value.Reconciled? {
      Appended(s.log, ReconciledEvent(answer.value.completion));
    }
  }

  lemma StepKeepsInv(network: Network, s: GateSystem, action: Action)
    requires SystemInv(s)
    ensures SystemInv(Step(network, s, action))
  {
    hide PairValid, ValidJournal, Bracketed, Pending, LastCompletion, EnterStep, CompleteStep, AbortStep, ReconcileStep;
    match action
    case Open(_, _) =>
    case EnterLease(id, fate) => if id in s.leases { EnterKeepsInv(s, id, fate); }
    case ExitLease(_) =>
    case CompleteLease(id, proof, fate) => if id in s.leases { CompleteKeepsInv(network, s, id, proof, fate); }
    case AbortLease(id, denial, fate) => if id in s.leases { AbortKeepsInv(s, id, denial, fate); }
    case ReconcilePayment(proof, fate) => ReconcileKeepsInv(network, s, proof, fate);
    case Die(id) => GoneKeepsInv(s, id);
  }

  lemma {:induction false} RunKeepsInv(network: Network, s: GateSystem, actions: seq<Action>)
    requires SystemInv(s)
    ensures SystemInv(Run(network, s, actions))
    decreases |actions|
  {
    hide SystemInv, Step;
    if actions != [] {
      StepKeepsInv(network, s, actions[0]);
      RunKeepsInv(network, Step(network, s, actions[0]), actions[1..]);
    }
  }

  // ---------------------------------------------------------------- theorems

  function Reached(network: Network, actions: seq<Action>): GateSystem {
    Run(network, INITIAL, actions)
  }

  lemma Reachable(network: Network, actions: seq<Action>)
    ensures SystemInv(Reached(network, actions))
  {
    RunKeepsInv(network, INITIAL, actions);
  }

  /** The gate never leaves a journal that its own validator rejects; the log is well bracketed; and
      the journal is exactly what the log says. */
  lemma JournalMatchesLog(network: Network, actions: seq<Action>)
    ensures var s := Reached(network, actions);
            && ValidJournal(s.journal)
            && Bracketed(s.log)
            && s.journal == Journal(Pending(s.log), LastCompletion(s.log))
  {
    hide Run;
    Reachable(network, actions);
  }

  /** At most one lease is inside the gate. */
  lemma OneLeaseHolds(network: Network, actions: seq<Action>, i: LeaseId, j: LeaseId)
    requires i in Reached(network, actions).leases && j in Reached(network, actions).leases
    requires Reached(network, actions).leases[i].holding && Reached(network, actions).leases[j].holding
    ensures i == j
  {
    hide Run;
    Reachable(network, actions);
  }

  lemma {:induction false} BracketedPrefix(log: seq<Event>, k: nat)
    requires Bracketed(log) && k < |log|
    ensures Bracketed(log[..k]) && Follows(log[..k], log[k])
  {
    var n := |log| - 1;
    if k < n {
      BracketedPrefix(log[..n], k);
      assert log[..n][..k] == log[..k];
    }
  }

  lemma {:induction false} ResolvedBetween(log: seq<Event>, j: nat, k: nat)
    requires Bracketed(log) && j < k <= |log| && log[j].Admitted?
    requires k < |log| && log[k].Admitted?
    ensures j + 1 < k && Resolves(log[j + 1], log[j].pair)
  {
    hide Bracketed;
    BracketedPrefix(log, j + 1);
    assert log[..j + 1][|log[..j + 1]| - 1] == log[j];
  }

  /** After a pair is admitted, nothing is admitted until a completion, a reconciliation or an abort of
      that very pair: it is the next event in the log. */
  lemma AdmissionWaitsForResolution(network: Network, actions: seq<Action>, j: nat, k: nat)
    requires j < k < |Reached(network, actions).log|
    requires Reached(network, actions).log[j].Admitted? && Reached(network, actions).log[k].Admitted?
    ensures j + 1 < k && Resolves(Reached(network, actions).log[j + 1], Reached(network, actions).log[j].pair)
  {
    hide Run, Bracketed;
    JournalMatchesLog(network, actions);
    ResolvedBetween(Reached(network, actions).log, j, k);
  }

  /** The active pair stays through every step, crashes included, but for a completion or reconciliation
      with a proof that checks out for this pair, or an abort by its lease holder. */
  lemma ActivePairIsRetained(network: Network, actions: seq<Action>, action: Action)
    requires Reached(network, actions).journal.active.Some?
    ensures var s := Reached(network, actions);
            var pair := s.journal.active.value;
            || Step(network, s, action).journal.active == Some(pair)
            || ((action.CompleteLease? || action.ReconcilePayment?) && ChecksOut(network, action.proof, pair))
            || (action.AbortLease? && Denies(action.denial, pair) && s.holder == Some(action.id))
  {
    var pair := Reached(network, actions).journal.active.value;
    if action.CompleteLease? || action.ReconcilePayment? {
      ValidatePaymentIff(network, action.proof, pair);
    }
    if action.AbortLease? {
      ValidateAbortIff(action.denial, pair);
    }
    hide Run, PairValid, Bracketed, Pending, LastCompletion, ValidatePayment, ValidateAbort, SafeIdentifier, ChecksOut, Denies;
    Reachable(network, actions);
  }

  /** A lease inside the gate is never told that the journal has another pair: its first completion
      succeeds exactly when the proof checks out for its pair. */
  lemma CompletionSucceedsIff(network: Network, actions: seq<Action>, id: LeaseId, proof: PaymentProof)
    requires id in Reached(network, actions).leases
    requires var lease := Reached(network, actions).leases[id]; lease.holding && !lease.completed && !lease.aborted
    ensures var s := Reached(network, actions);
            var completed := CompleteWith(network, s.journal, s.leases[id], proof);
            && (completed.Ok? <==> ChecksOut(network, proof, s.leases[id].pair))
            && (completed.Ok? ==>
                completed.value
                == Journal(None, Some(Completion(s.leases[id].pair, proof.transactionHash, proof.amountAtomic))))
  {
    hide Run, ValidatePayment, ChecksOut, PairValid, Bracketed;
    Reachable(network, actions);
    ValidatePaymentIff(network, proof, Reached(network, actions).leases[id].pair);
  }

  /** Likewise its first abort succeeds exactly on a denial of broadcast for its pair, and clears the pair. */
  lemma AbortSucceedsIff(network: Network, actions: seq<Action>, id: LeaseId, denial: AbortProof)
    requires id in Reached(network, actions).leases
    requires var lease := Reached(network, actions).leases[id]; lease.holding && !lease.completed && !lease.aborted
    ensures var s := Reached(network, actions);
            var aborted := AbortWith(s.journal, s.leases[id], denial);
            && (aborted.Ok? <==> Denies(denial, s.leases[id].pair))
            && (aborted.Ok? ==> aborted.value == s.journal.(active := None))
  {
    hide Run, ValidateAbort, Denies, PairValid, CompletionValid, Bracketed;
    Reachable(network, actions);
    ValidateAbortIff(denial, Reached(network, actions).leases[id].pair);
  }

  /** A reconciliation closes the active pair exactly when nobody holds the lock and the proof checks out for that
      pair. */
  lemma ReconciledIff(network: Network, actions: seq<Action>, proof: PaymentProof, pair: Pair)
    requires Reached(network, actions).journal.active == Some(pair)
    ensures var s := Reached(network, actions);
            var answer := ReconcileWith(network, s.journal, s.holder.Some?, proof);
            answer == Ok(Reconciled(Completion(pair, proof.transactionHash, proof.amountAtomic)))
            <==> s.holder.None? && ChecksOut(network, proof, pair)
  {
    hide Run, ValidatePayment, ChecksOut, PairValid, Bracketed;
    Reachable(network, actions);
    ValidatePaymentIff(network, proof, pair);
  }

  /** A lease enters exactly when it is not inside, nobody holds the lock, and the slot has its own pair or is empty
      and its purchase was not the last one completed. */
  lemma EntersIff(network: Network, actions: seq<Action>, id: LeaseId)
    requires id in Reached(network, actions).leases
    ensures var s := Reached(network, actions);
            var lease, last := s.leases[id], s.journal.lastCompleted;
            var entered := EnterWith(s.journal, s.holder.Some?, lease);
            && (entered.Ok? <==>
                && !lease.holding
                && s.holder.None?
                && (s.journal.active == Some(lease.pair)
                    || (&& s.journal.active.None?
                        && !(last.Some? && last.value.pair.tenantId == lease.pair.tenantId
                             && last.value.pair.purchaseId == lease.pair.purchaseId))))
            && (entered.Ok? ==> entered.value == s.journal.(active := Some(lease.pair)))
  {
    hide Run, PairValid, CompletionValid, Bracketed;
    Reachable(network, actions);
  }

  /** With the lock free and no pair active, exactly the pair of the last completion is refused. */
  lemma AdmittedIff(network: Network, actions: seq<Action>, pair: Pair)
    requires PairValid(pair) && Reached(network, actions).journal.active.None?
    ensures var s := Reached(network, actions);
            Admit(s.journal, pair).Ok?
            <==> !(&& LastCompletion(s.log).Some?
                   && LastCompletion(s.log).value.pair.tenantId == pair.tenantId
                   && LastCompletion(s.log).value.pair.purchaseId == pair.purchaseId)
  {
    hide Run, PairValid, Bracketed;
    Reachable(network, actions);
  }

  lemma {:induction false} CompletedUntilReplaced(log: seq<Event>, j: nat, k: nat, pair: Pair)
    requires Bracketed(log) && j < k <= |log| && Completes(log[j], pair)
    requires forall i :: j < i < k ==> log[i].Admitted? || log[i].AbortedEvent? || Completes(log[i], pair)
    ensures LastCompletion(log[..k]).Some? && SamePurchase(LastCompletion(log[..k]).value.pair, pair)
    decreases k
  {
    assert log[..k][..k - 1] == log[..k - 1];
    if j < k - 1 {
      CompletedUntilReplaced(log, j, k - 1, pair);
    }
  }

  /** A completed purchase is admitted again only after some other purchase completed in between. */
  lemma ReadmissionNeedsAnotherCompletion(network: Network, actions: seq<Action>, j: nat, k: nat, pair: Pair)
    requires j < k < |Reached(network, actions).log|
    requires Completes(Reached(network, actions).log[j], pair)
    requires Reached(network, actions).log[k] == Admitted(pair)
    ensures var log := Reached(network, actions).log;
            exists i :: j < i < k && (log[i].CompletedEvent? || log[i].ReconciledEvent?) && !Completes(log[i], pair)
  {
    hide Run;
    JournalMatchesLog(network, actions);
    var log := Reached(network, actions).log;
    BracketedPrefix(log, k);
    if forall i :: j < i < k ==> log[i].Admitted? || log[i].AbortedEvent? || Completes(log[i], pair) {
      CompletedUntilReplaced(log, j, k, pair);
      assert false;
    }
  }

  // ---------------------------------------------------------------- only the last completion is remembered

  lemma {:induction false} RunConcat(network: Network, s: GateSystem, a: seq<Action>, b: seq<Action>)
    ensures Run(network, s, a + b) == Run(network, Run(network, s, a), b)
    decreases |a|
  {
    hide Step;
    if a == [] {
      assert a + b == b;
    } else {
      assert (a + b)[1..] == a[1..] + b;
      RunConcat(network, Step(network, s, a[0]), a[1..], b);
    }
  }

  /** One whole payment, by a process that lives through it. */
  function Payment(id: LeaseId, pair: Pair, proof: PaymentProof): seq<Action> {
    [Open(id, pair), EnterLease(id, Survives), CompleteLease(id, proof, Survives), ExitLease(id)]
  }

  lemma RunFour(network: Network, s: GateSystem, a: Action, b: Action, c: Action, d: Action)
    ensures Run(network, s, [a, b, c, d]) == Step(network, Step(network, Step(network, Step(network, s, a), b), c), d)
  {
    hide Step;
    var t := Step(network, Step(network, s, a), b);
    assert [a, b, c, d][1..] == [b, c, d] && [b, c, d][1..] == [c, d];
    assert Run(network, s, [a, b, c, d]) == Run(network, t, [c, d]);
    assert [c, d][1..] == [d] && [d][1..] == [];
    assert Run(network, t, [c, d]) == Run(network, Step(network, t, c), [d]);
  }

  predicate Quiet(s: GateSystem) {
    s.holder.None? && s.journal.active.None? && ValidJournal(s.journal)
  }

  /** From a quiet gate a payment goes through unless its purchase was the last one completed. */
  lemma PaymentGoesThrough(network: Network, s: GateSystem, id: LeaseId, pair: Pair, proof: PaymentProof)
    requires Quiet(s) && id !in s.leases && PairValid(pair)
    requires ValidatePayment(network, proof).Ok? && ValidatePayment(network, proof).value.pair == pair
    requires s.journal.lastCompleted.Some? ==> !SamePurchase(s.journal.lastCompleted.value.pair, pair)
    ensures var completion := ValidatePayment(network, proof).value;
            var t := Run(network, s, Payment(id, pair, proof));
            && Quiet(t)
            && t.journal == Journal(None, Some(completion))
            && t.leases.Keys == s.leases.Keys + {id}
            && t.log == s.log + [Admitted(pair), CompletedEvent(completion)]
  {
    hide ValidatePayment, PairValid;
    var actions := Payment(id, pair, proof);
    RunFour(network, s, actions[0], actions[1], actions[2], actions[3]);
    var open := Step(network, s, actions[0]);
    var entered := Step(network, open, actions[1]);
    assert entered.holder == Some(id) && entered.journal.active == Some(pair);
    assert entered.log == s.log + [Admitted(pair)];
    var completed := Step(network, entered, actions[2]);
    assert completed.journal == Journal(None, Some(ValidatePayment(network, proof).value));
  }

  /** The gate is not a record of all payments: of any two purchases the first can be paid, then the
      second, and then the first again. */
  lemma EarlierPurchaseIsAdmittedAgain(network: Network, a: Pair, b: Pair, proofA: PaymentProof, proofB: PaymentProof)
    requires PairValid(a) && PairValid(b) && !SamePurchase(a, b)
    requires ValidatePayment(network, proofA).Ok? && ValidatePayment(network, proofA).value.pair == a
    requires ValidatePayment(network, proofB).Ok? && ValidatePayment(network, proofB).value.pair == b
    ensures var first, second := ValidatePayment(network, proofA).value, ValidatePayment(network, proofB).value;
            Reached(network, Payment(0, a, proofA) + Payment(1, b, proofB) + Payment(2, a, proofA)).log
            == [Admitted(a), CompletedEvent(first), Admitted(b), CompletedEvent(second), Admitted(a), CompletedEvent(first)]
  {
    hide ValidatePayment, PairValid, Run, Payment;
    var p, q, r := Payment(0, a, proofA), Payment(1, b, proofB), Payment(2, a, proofA);
    RunConcat(network, INITIAL, p + q, r);
    RunConcat(network, INITIAL, p, q);
    PaymentGoesThrough(network, INITIAL, 0, a, proofA);
    var s := Run(network, INITIAL, p);
    PaymentGoesThrough(network, s, 1, b, proofB);
    PaymentGoesThrough(network, Run(network, s, q), 2, a, proofA);
  }
}
