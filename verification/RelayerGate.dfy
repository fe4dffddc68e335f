/** Durable single-relayer admission (agentonomy_commerce/relayer_gate.py): a journal with one slot,
    guarded by an exclusive lock that the operating system frees when its holder dies. */
module RelayerGate {
  import opened Wrappers
  import opened Decimals

  // ---------------------------------------------------------------- values

  datatype Pair = Pair(tenantId: string, purchaseId: string, owner: string)

  datatype Completion = Completion(pair: Pair, transactionHash: string, amountAtomic: string)

  /** The journal's two variable fields; schema version, network and relayer are constant. */
  datatype Journal = Journal(active: Option<Pair>, lastCompleted: Option<Completion>)

  const EMPTY_JOURNAL := Journal(None, None)

  datatype GateError =
    | IdentifierInvalid | OwnerInvalid | HashInvalid | AmountInvalid
    | NotVerified | WrongChain | ReceiptNotSuccessful | WrongTokenOrPayee
    | BroadcastNotDenied | SourceUntrusted
    | Busy | JournalInvalid
    | AlreadyEntered | DifferentActive | AlreadyCompleted
    | NotActive | AlreadyClosed | ActiveMismatch | ProofMismatch

  predicate AlphaNumeric(c: char) {
    IsDigit(c) || 'a' <= c <= 'z' || 'A' <= c <= 'Z'
  }

  predicate SafeIdentifier(s: string) {
    && 1 <= |s| <= 128
    && AlphaNumeric(s[0])
    && forall i :: 0 <= i < |s| ==> AlphaNumeric(s[i]) || s[i] == '_' || s[i] == '-'
  }

  predicate LowerHex(c: char) {
    IsDigit(c) || 'a' <= c <= 'f'
  }

  predicate CanonicalHash(s: string) {
    && |s| == 66
    && s[..2] == "0x"
    && forall i :: 2 <= i < 66 ==> LowerHex(s[i])
  }

  function Lower(c: char): char {
    if 'A' <= c <= 'Z' then c - 'A' + 'a' else c
  }

  function Lowered(s: string): string {
    seq(|s|, i requires 0 <= i < |s| => Lower(s[i]))
  }

  predicate Address(s: string) {
    && |s| == 42
    && s[..2] == "0x"
    && (forall i :: 2 <= i < 42 ==> LowerHex(Lower(s[i])))
    && (exists i :: 2 <= i < 42 && s[i] != '0')
  }

  /** `_canonical_owner`. */
  function CanonicalOwner(s: string): Result<string, GateError> {
    if Address(s) then Ok(Lowered(s)) else Err(OwnerInvalid)
  }

  const MAX_PAYMENT_ATOMIC: nat := 500_000

  predicate CanonicalAmount(s: string) {
    Canonical(s) && 0 < Value(s) <= MAX_PAYMENT_ATOMIC
  }

  predicate PairValid(pair: Pair) {
    && SafeIdentifier(pair.tenantId)
    && SafeIdentifier(pair.purchaseId)
    && CanonicalOwner(pair.owner) == Ok(pair.owner)
  }

  predicate CompletionValid(completion: Completion) {
    && PairValid(completion.pair)
    && CanonicalHash(completion.transactionHash)
    && CanonicalAmount(completion.amountAtomic)
  }

  predicate SamePurchase(a: Pair, b: Pair) {
    a.tenantId == b.tenantId && a.purchaseId == b.purchaseId
  }

  /** `_validate_journal`. */
  predicate ValidJournal(journal: Journal) {
    && (journal.active.Some? ==> PairValid(journal.active.value))
    && (journal.lastCompleted.Some? ==> CompletionValid(journal.lastCompleted.value))
    && (journal.active.Some? && journal.lastCompleted.Some? ==>
        !SamePurchase(journal.active.value, journal.lastCompleted.value.pair))
  }

  lemma LoweringIsIdempotent(s: string)
    requires Address(s)
    ensures CanonicalOwner(Lowered(s)) == Ok(Lowered(s))
  {
    var i :| 2 <= i < 42 && s[i] != '0';
    assert Lowered(s)[i] != '0';
    assert Lowered(Lowered(s)) == Lowered(s);
  }

  // ---------------------------------------------------------------- proofs

  datatype Network = Network(chainId: int, token: string, payee: string)

  const MONAD_CHAIN_ID := 10143

  datatype PaymentProof = PaymentProof(
    pair: Pair, verified: bool, twoRpcVerified: bool, chainId: int, receiptStatus: int,
    transactionHash: string, token: string, payee: string, amountAtomic: string)

  datatype AbortProof = AbortProof(pair: Pair, noBroadcast: bool, source: string)

  function CheckedPair(pair: Pair): Result<Pair, GateError> {
    var safe := SafeIdentifier(pair.tenantId) && SafeIdentifier(pair.purchaseId);
    :- Check(safe, IdentifierInvalid);
    var owner :- CanonicalOwner(pair.owner);
    Ok(pair.(owner := owner))
  }

  /** `_validate_payment_proof`. */
  function ValidatePayment(network: Network, proof: PaymentProof): (checked: Result<Completion, GateError>)
    ensures checked.Ok? ==> CompletionValid(checked.value)
  {
    var verified := proof.verified && proof.twoRpcVerified;
    :- Check(verified, NotVerified);
    :- Check(proof.chainId == MONAD_CHAIN_ID, WrongChain);
    :- Check(proof.receiptStatus == 1, ReceiptNotSuccessful);
    var pair :- CheckedPair(proof.pair);
    var token :- CanonicalOwner(proof.token);
    var payee :- CanonicalOwner(proof.payee);
    :- Check(CanonicalHash(proof.transactionHash), HashInvalid);
    :- Check(CanonicalAmount(proof.amountAtomic), AmountInvalid);
    :- Check(token == network.token && payee == network.payee, WrongTokenOrPayee);
    LoweringIsIdempotent(proof.pair.owner);
    Ok(Completion(pair, proof.transactionHash, proof.amountAtomic))
  }

  /** At most 128 letters, digits, `_` and `-`, the first of them a letter or a digit. */
  predicate IsIdentifier(s: string) {
    && 0 < |s| <= 128
    && s[0] != '_' && s[0] != '-'
    && forall c :: c in s ==> '0' <= c <= '9' || 'A' <= c <= 'Z' || 'a' <= c <= 'z' || c == '_' || c == '-'
  }

  /** `lower` is the lower-case text of a nonzero 20-byte address in hexadecimal. */
  predicate IsAddressOf(s: string, lower: string) {
    && |s| == |lower| == 42
    && s[0] == lower[0] == '0'
    && s[1] == lower[1] == 'x'
    && (forall i :: 2 <= i < 42 ==>
          && ('0' <= lower[i] <= '9' || 'a' <= lower[i] <= 'f')
          && (s[i] == lower[i] || (lower[i] >= 'a' && s[i] as int == lower[i] as int - 32)))
    && (exists i :: 2 <= i < 42 && lower[i] != '0')
  }

  lemma CanonicalOwnerIff(s: string, lower: string)
    ensures CanonicalOwner(s) == Ok(lower) <==> IsAddressOf(s, lower)
  {
    if CanonicalOwner(s) == Ok(lower) {
      assert s[..2][0] == '0' && s[..2][1] == 'x';
      var i :| 2 <= i < 42 && s[i] != '0';
      assert lower[i] != '0';
    }
    if IsAddressOf(s, lower) {
      assert s[..2] == "0x";
      assert Lowered(s) == lower;
      var i :| 2 <= i < 42 && lower[i] != '0';
      assert s[i] != '0';
    }
  }

  lemma SafeIdentifierIff(s: string)
    ensures SafeIdentifier(s) <==> IsIdentifier(s)
  {
    if IsIdentifier(s) {
      forall i | 0 <= i < |s| ensures AlphaNumeric(s[i]) || s[i] == '_' || s[i] == '-' {
        assert s[i] in s;
      }
      assert s[0] in s;
    }
  }

  /** 32 bytes in lower-case hexadecimal. */
  predicate IsHash(s: string) {
    && |s| == 66
    && s[0] == '0' && s[1] == 'x'
    && forall i :: 2 <= i < 66 ==> '0' <= s[i] <= '9' || 'a' <= s[i] <= 'f'
  }

  lemma CanonicalHashIff(s: string)
    ensures CanonicalHash(s) <==> IsHash(s)
  {
    if |s| == 66 {
      assert s[..2][0] == s[0] && s[..2][1] == s[1];
      if s[0] == '0' && s[1] == 'x' {
        assert s[..2] == "0x";
      }
    }
  }

  /** A number without leading zeros, from 1 to half a million atomic units. */
  predicate IsAmount(s: string) {
    && s != "" && s[0] != '0'
    && (forall i :: 0 <= i < |s| ==> '0' <= s[i] <= '9')
    && Value(s) <= 500_000
  }

  lemma CanonicalAmountIff(s: string)
    ensures CanonicalAmount(s) <==> IsAmount(s)
  {
    if AllDigits(s) && s != "" {
      if s[0] != '0' {
        NumeralOfValue(s);
      } else if |s| == 1 {
        assert s[..0] == [];
      }
    }
  }

  /** A payment proof, field by field: verified twice, on Monad testnet, with a successful receipt, for this very
      pair, in the network's token to the network's payee. */
  predicate ChecksOut(network: Network, proof: PaymentProof, pair: Pair) {
    && proof.verified == true
    && proof.twoRpcVerified == true
    && proof.chainId == 10143
    && proof.receiptStatus == 1
    && proof.pair.tenantId == pair.tenantId
    && proof.pair.purchaseId == pair.purchaseId
    && IsIdentifier(pair.tenantId)
    && IsIdentifier(pair.purchaseId)
    && IsAddressOf(proof.pair.owner, pair.owner)
    && IsAddressOf(proof.token, network.token)
    && IsAddressOf(proof.payee, network.payee)
    && IsHash(proof.transactionHash)
    && IsAmount(proof.amountAtomic)
  }

  lemma ValidatePaymentIff(network: Network, proof: PaymentProof, pair: Pair)
    ensures ValidatePayment(network, proof).Ok? && ValidatePayment(network, proof).value.pair == pair
            <==> ChecksOut(network, proof, pair)
    ensures ValidatePayment(network, proof).Ok? ==>
              && ValidatePayment(network, proof).value.transactionHash == proof.transactionHash
              && ValidatePayment(network, proof).value.amountAtomic == proof.amountAtomic
  {
    hide SafeIdentifier, IsIdentifier, CanonicalOwner, IsAddressOf, CanonicalHash, IsHash, CanonicalAmount, IsAmount,
         CompletionValid;
    SafeIdentifierIff(proof.pair.tenantId);
    SafeIdentifierIff(proof.pair.purchaseId);
    CanonicalOwnerIff(proof.pair.owner, pair.owner);
    CanonicalOwnerIff(proof.token, network.token);
    CanonicalOwnerIff(proof.payee, network.payee);
    CanonicalHashIff(proof.transactionHash);
    CanonicalAmountIff(proof.amountAtomic);
  }

  /** A denial of broadcast, field by field. */
  predicate Denies(proof: AbortProof, pair: Pair) {
    && proof.noBroadcast == true
    && proof.source == "core_funding_ledger"
    && proof.pair.tenantId == pair.tenantId
    && proof.pair.purchaseId == pair.purchaseId
    && IsIdentifier(pair.tenantId)
    && IsIdentifier(pair.purchaseId)
    && IsAddressOf(proof.pair.owner, pair.owner)
  }

  lemma ValidateAbortIff(proof: AbortProof, pair: Pair)
    ensures ValidateAbort(proof) == Ok(pair) <==> Denies(proof, pair)
  {
    hide SafeIdentifier, IsIdentifier, CanonicalOwner, IsAddressOf;
    SafeIdentifierIff(proof.pair.tenantId);
    SafeIdentifierIff(proof.pair.purchaseId);
    CanonicalOwnerIff(proof.pair.owner, pair.owner);
  }

  /** `_validate_abort_proof`. */
  function ValidateAbort(proof: AbortProof): Result<Pair, GateError> {
    var trusted := proof.source == "core_funding_ledger";
    :- Check(proof.noBroadcast, BroadcastNotDenied);
    :- Check(trusted, SourceUntrusted);
    CheckedPair(proof.pair)
  }

  // ---------------------------------------------------------------- operations on the journal

  /** A lease object: the pair it is for, whether it holds the lock, and how it was closed. */
  datatype Lease = Lease(pair: Pair, holding: bool, completed: bool, aborted: bool)

  function Write(journal: Journal): Result<Journal, GateError> {
    if ValidJournal(journal) then Ok(journal) else Err(JournalInvalid)
  }

  /** `RelayerLease.__enter__` once the lock is there: the journal as it is left. */
  function Admit(journal: Journal, pair: Pair): Result<Journal, GateError> {
    var valid := ValidJournal(journal);
    :- Check(valid, JournalInvalid);
    match journal.active
    case Some(active) => if active == pair then Ok(journal) else Err(DifferentActive)
    case None =>
      :- Check(
        !(journal.lastCompleted.Some? && SamePurchase(journal.lastCompleted.value.pair, pair)), AlreadyCompleted);
      Write(journal.(active := Some(pair)))
  }

  function EnterWith(journal: Journal, locked: bool, lease: Lease): Result<Journal, GateError> {
    var entered := lease.holding;
    :- Check(!entered, AlreadyEntered);
    :- Check(!locked, Busy);
    Admit(journal, lease.pair)
  }

  /** `complete_verified_payment`. */
  function CompleteWith(
    network: Network, journal: Journal, lease: Lease, proof: PaymentProof): Result<Journal, GateError>
  {
    var closed := lease.completed || lease.aborted;
    :- Check(lease.holding, NotActive);
    :- Check(!closed, AlreadyClosed);
    var checked :- ValidatePayment(network, proof);
    :- Check(ValidJournal(journal), JournalInvalid);
    :- Check(journal.active == Some(lease.pair), ActiveMismatch);
    :- Check(checked.pair == lease.pair, ProofMismatch);
    Write(Journal(None, Some(checked)))
  }

  /** `abort_unsubmitted`. */
  function AbortWith(journal: Journal, lease: Lease, proof: AbortProof): Result<Journal, GateError> {
    var closed := lease.completed || lease.aborted;
    :- Check(lease.holding, NotActive);
    :- Check(!closed, AlreadyClosed);
    var pair :- ValidateAbort(proof);
    :- Check(pair == lease.pair, ProofMismatch);
    :- Check(ValidJournal(journal), JournalInvalid);
    :- Check(journal.active == Some(lease.pair), ActiveMismatch);
    Write(journal.(active := None))
  }

  datatype Reconciliation = AlreadyClear | OtherActive | Reconciled(completion: Completion)

  /** `reconcile_verified_payment`: what it answers. */
  function ReconcileWith(
    network: Network, journal: Journal, locked: bool, proof: PaymentProof): Result<Reconciliation, GateError>
  {
    var checked :- ValidatePayment(network, proof);
    :- Check(!locked, Busy);
    :- Check(ValidJournal(journal), JournalInvalid);
    match journal.active
    case None => Ok(AlreadyClear)
    case Some(active) =>
      if checked.pair != active then Ok(OtherActive) else
        :- Check(ValidJournal(Journal(None, Some(checked))), JournalInvalid);
        Ok(Reconciled(checked))
  }

  function Settled(journal: Journal, answer: Result<Reconciliation, GateError>): Journal {
    if answer.Ok? && answer.value.Reconciled? then Journal(None, Some(answer.value.completion)) else journal
  }

  // ---------------------------------------------------------------- the classes

  class RelayerGate {
    const network: Network
    var journal: Journal
    var locked: bool

    /** Over a state directory that has a valid journal, or none yet. */
    constructor (network: Network, stored: Option<Journal>)
      requires stored.Some? ==> ValidJournal(stored.value)
      ensures this.network == network && !locked && ValidJournal(journal)
      ensures journal == if stored.Some? then stored.value else EMPTY_JOURNAL
    {
      this.network := network;
      locked := false;
      journal := if stored.Some? then stored.value else EMPTY_JOURNAL;
    }

    method AcquireLock() returns (result: Result<(), GateError>)
      modifies this`locked
      ensures result == (if old(locked) then Err(Busy) else Ok(())) && locked
    {
      if locked {
        return Err(Busy);
      }
      locked := true;
      return Ok(());
    }

    method ReleaseLock()
      modifies this`locked
      ensures !locked
    {
      locked := false;
    }

    method WriteJournal(next: Journal) returns (result: Result<(), GateError>)
      modifies this`journal
      ensures if ValidJournal(next) then result == Ok(()) && journal == next
              else result == Err(JournalInvalid) && journal == old(journal)
    {
      if !ValidJournal(next) {
        return Err(JournalInvalid);
      }
      journal := next;
      return Ok(());
    }

    method ReconcileVerifiedPayment(proof: PaymentProof) returns (result: Result<Reconciliation, GateError>)
      modifies this
      ensures result == ReconcileWith(network, old(journal), old(locked), proof)
      ensures journal == Settled(old(journal), result) && locked == old(locked)
    {
      hide ValidJournal;
      var checked := ValidatePayment(network, proof);
      if checked.Err? {
        return Err(checked.error);
      }
      var acquired := AcquireLock();
      if acquired.Err? {
        return Err(acquired.error);
      }
      if !ValidJournal(journal) {
        ReleaseLock();
        return Err(JournalInvalid);
      }
      if journal.active.None? {
        ReleaseLock();
        return Ok(AlreadyClear);
      }
      if checked.value.pair != journal.active.value {
        ReleaseLock();
        return Ok(OtherActive);
      }
      var written := WriteJournal(Journal(None, Some(checked.value)));
      ReleaseLock();
      if written.Err? {
        return Err(written.error);
      }
      return Ok(Reconciled(checked.value));
    }
  }

  class RelayerLease {
    const gate: RelayerGate
    const pair: Pair
    var holding: bool
    var completed: bool
    var aborted: bool

    constructor (gate: RelayerGate, pair: Pair)
      ensures this.gate == gate && State() == Lease(pair, false, false, false)
    {
      this.gate, this.pair := gate, pair;
      holding, completed, aborted := false, false, false;
    }

    function State(): Lease
      reads this
    {
      Lease(pair, holding, completed, aborted)
    }

    method Enter() returns (result: Result<(), GateError>)
      modifies this`holding, gate
      ensures match EnterWith(old(gate.journal), old(gate.locked), old(State()))
              case Ok(next) =>
                result == Ok(()) && gate.journal == next && gate.locked && State() == old(State()).(holding := true)
              case Err(error) =>
                && result == Err(error)
                && gate.journal == old(gate.journal)
                && gate.locked == old(gate.locked)
                && State() == old(State())
    {
      hide ValidJournal;
      if holding {
        return Err(AlreadyEntered);
      }
      var acquired := gate.AcquireLock();
      if acquired.Err? {
        return Err(acquired.error);
      }
      if !ValidJournal(gate.journal) {
        gate.ReleaseLock();
        return Err(JournalInvalid);
      }
      if gate.journal.active.Some? {
        if gate.journal.active.value != pair {
          gate.ReleaseLock();
          return Err(DifferentActive);
        }
      } else {
        var last := gate.journal.lastCompleted;
        if last.Some? && SamePurchase(last.value.pair, pair) {
          gate.ReleaseLock();
          return Err(AlreadyCompleted);
        }
        var written := gate.WriteJournal(gate.journal.(active := Some(pair)));
        if written.Err? {
          gate.ReleaseLock();
          return Err(written.error);
        }
      }
      holding := true;
      return Ok(());
    }

    method Exit()
      modifies this`holding, gate`locked
      ensures State() == old(State()).(holding := false)
      ensures gate.locked == (old(gate.locked) && !old(holding))
    {
      if holding {
        gate.ReleaseLock();
      }
      holding := false;
    }

    method CompleteVerifiedPayment(proof: PaymentProof) returns (result: Result<Completion, GateError>)
      modifies this`completed, gate`journal
      ensures match CompleteWith(gate.network, old(gate.journal), old(State()), proof)
              case Ok(next) =>
                result == Ok(next.lastCompleted.value) && gate.journal == next && State() == old(State()).(completed := true)
              case Err(error) => result == Err(error) && gate.journal == old(gate.journal) && State() == old(State())
    {
      hide ValidJournal;
      if !holding {
        return Err(NotActive);
      }
      if completed || aborted {
        return Err(AlreadyClosed);
      }
      var checked := ValidatePayment(gate.network, proof);
      if checked.Err? {
        return Err(checked.error);
      }
      if !ValidJournal(gate.journal) {
        return Err(JournalInvalid);
      }
      if gate.journal.active != Some(pair) {
        return Err(ActiveMismatch);
      }
      if checked.value.pair != pair {
        return Err(ProofMismatch);
      }
      var written := gate.WriteJournal(Journal(None, Some(checked.value)));
      if written.Err? {
        return Err(written.error);
      }
      completed := true;
      return Ok(checked.value);
    }

    method AbortUnsubmitted(proof: AbortProof) returns (result: Result<(), GateError>)
      modifies this`aborted, gate`journal
      ensures match AbortWith(old(gate.journal), old(State()), proof)
              case Ok(next) => result == Ok(()) && gate.journal == next && State() == old(State()).(aborted := true)
              case Err(error) => result == Err(error) && gate.journal == old(gate.journal) && State() == old(State())
    {
      hide ValidJournal;
      if !holding {
        return Err(NotActive);
      }
      if completed || aborted {
        return Err(AlreadyClosed);
      }
      var checked := ValidateAbort(proof);
      if checked.Err? {
        return Err(checked.error);
      }
      if checked.value != pair {
        return Err(ProofMismatch);
      }
      if !ValidJournal(gate.journal) {
        return Err(JournalInvalid);
      }
      if gate.journal.active != Some(pair) {
        return Err(ActiveMismatch);
      }
      var written := gate.WriteJournal(gate.journal.(active := None));
      if written.Err? {
        return Err(written.error);
      }
      aborted := true;
      return Ok(());
    }
  }
}
