/** Allocation: the nonce allocator against its simple specification, the four unique keys, the
    admission quotas, and the preservation of the table invariants by a new execution. */
module RepositoryAllocation {
  import opened Wrappers
  import opened Sums
  import opened PilotGate
  import opened ExecutionModels
  import opened RepositoryModel
  import opened RepositoryInvariants

  // ---------------------------------------------------------------- nonces

  predicate HoldsNonce(row: Execution, key: NonceKey, nonce: nat) {
    row.intent.chain == key.chain && row.intent.relayerAddress == key.relayer && row.relayerNonce == nonce
  }

  /** A nonce that was allocated before, whose every holder has ended without a signature. */
  ghost predicate Reusable(db: Db, key: NonceKey, confirmed: nat, nonce: nat) {
    && nonce >= confirmed
    && (exists id :: id in db.records && HoldsNonce(db.records[id].row, key, nonce))
    && (forall id :: id in db.records && HoldsNonce(db.records[id].row, key, nonce) ==>
          && db.records[id].row.status in {Expired, Released}
          && db.records[id].row.signature.None?
          && db.records[id].row.rawTransaction.None?)
  }

  ghost predicate NeverAllocated(db: Db, key: NonceKey, nonce: nat) {
    forall id :: id in db.records ==>
      var row := db.records[id].row;
      row.intent.chain == key.chain && row.intent.relayerAddress == key.relayer ==> row.relayerNonce < nonce
  }

  /** The query with its two sub-selects finds exactly the reusable nonces. */
  lemma RecyclableIsReusable(db: Db, key: NonceKey, confirmed: nat, nonce: nat)
    ensures nonce in RecyclableNonces(db, key, confirmed) <==> Reusable(db, key, confirmed, nonce)
  {
    if Reusable(db, key, confirmed, nonce) {
      var id :| id in db.records && HoldsNonce(db.records[id].row, key, nonce);
      assert nonce !in ActiveNonces(db, key) && nonce !in TaintedNonces(db, key);
      assert db.records[id].row.relayerNonce in RecyclableNonces(db, key, confirmed);
    }
    forall id | id in db.records && HoldsNonce(db.records[id].row, key, nonce)
      ensures Active(db.records[id].row.status) ==> nonce in ActiveNonces(db, key)
      ensures Tainted(db.records[id].row) ==> nonce in TaintedNonces(db, key)
    {
    }
  }

  /** The allocator: the least reusable nonce if there is one, and then the next nonce stays; else the least nonce
      that is at least the pending one and above every nonce ever allocated, which is the pending one or the
      successor of an allocated one, and then the next nonce is its successor. */
  lemma AllocatorRefinesSpecification(db: Db, key: NonceKey, pending: nat, confirmed: nat)
    requires NonceInv(db)
    ensures var choice := AllocateNonce(db, key, pending, confirmed);
            if exists n :: Reusable(db, key, confirmed, n) then
              && Reusable(db, key, confirmed, choice.nonce)
              && (forall n :: Reusable(db, key, confirmed, n) ==> choice.nonce <= n)
              && key in db.nextNonces
              && choice.next == db.nextNonces[key]
            else
              && choice.nonce >= pending
              && NeverAllocated(db, key, choice.nonce)
              && (choice.nonce == pending || exists id :: id in db.records && HoldsNonce(db.records[id].row, key, choice.nonce - 1))
              && choice.next == choice.nonce + 1
  {
    forall n ensures n in RecyclableNonces(db, key, confirmed) <==> Reusable(db, key, confirmed, n) {
      RecyclableIsReusable(db, key, confirmed, n);
    }
    hide RecyclableNonces, NonceExclusive, TopHeld;
    if n :| Reusable(db, key, confirmed, n) {
      var id :| id in db.records && HoldsNonce(db.records[id].row, key, n);
      assert key in db.nextNonces && n in RecyclableNonces(db, key, confirmed);
    } else {
      hide Reusable;
      FreshNonceIs(db, key, pending, confirmed);
    }
  }

  lemma FreshNonceIs(db: Db, key: NonceKey, pending: nat, confirmed: nat)
    requires NonceInv(db) && RecyclableNonces(db, key, confirmed) == {}
    ensures var choice := AllocateNonce(db, key, pending, confirmed);
            && choice.nonce >= pending
            && NeverAllocated(db, key, choice.nonce)
            && (choice.nonce == pending || exists id :: id in db.records && HoldsNonce(db.records[id].row, key, choice.nonce - 1))
            && choice.next == choice.nonce + 1
  {
    hide RecyclableNonces, NonceExclusive;
    if key in db.nextNonces {
      assert TopHeld(db, key);
      var top :| top in db.records && Tops(db.records[top].row, key, db.nextNonces[key]);
      assert HoldsNonce(db.records[top].row, key, db.nextNonces[key] - 1);
    }
  }

  lemma NonceChoiceIs(policy: Policy, db: Db, key: NonceKey, pending: nat, confirmed: nat)
    requires Inv(policy, db)
    ensures var choice := AllocateNonce(db, key, pending, confirmed);
            if exists n :: Reusable(db, key, confirmed, n) then
              && Reusable(db, key, confirmed, choice.nonce)
              && (forall n :: Reusable(db, key, confirmed, n) ==> choice.nonce <= n)
              && key in db.nextNonces
              && choice.next == db.nextNonces[key]
            else
              && choice.nonce >= pending
              && NeverAllocated(db, key, choice.nonce)
              && (choice.nonce == pending || exists id :: id in db.records && HoldsNonce(db.records[id].row, key, choice.nonce - 1))
              && choice.next == choice.nonce + 1
  {
    hide RecordsInv, KeysUnique, WithinLimits, NonceInv, AllocateNonce, Reusable;
    AllocatorRefinesSpecification(db, key, pending, confirmed);
  }

  lemma AllocatorAdvances(db: Db, key: NonceKey, pending: nat, confirmed: nat)
    requires NonceInv(db)
    ensures var choice := AllocateNonce(db, key, pending, confirmed);
            && choice.nonce < choice.next
            && (key in db.nextNonces ==> db.nextNonces[key] <= choice.next)
            && (choice.next == choice.nonce + 1 || (key in db.nextNonces && choice.next == db.nextNonces[key]))
  {
    hide NonceExclusive;
    AllocatorRefinesSpecification(db, key, pending, confirmed);
    var choice := AllocateNonce(db, key, pending, confirmed);
    if Reusable(db, key, confirmed, choice.nonce) {
      var id :| id in db.records && HoldsNonce(db.records[id].row, key, choice.nonce);
      assert db.records[id].row.intent.Key() == key;
    }
  }

  /** The partial unique index on active nonces is never violated by an allocated nonce. */
  lemma AllocatedNonceIsFree(db: Db, key: NonceKey, pending: nat, confirmed: nat, id: ExecutionId)
    requires NonceInv(db)
    requires id in db.records && HoldsNonce(db.records[id].row, key, AllocateNonce(db, key, pending, confirmed).nonce)
    ensures db.records[id].row.status in {Expired, Released} && db.records[id].row.rawTransaction.None?
  {
    AllocatorRefinesSpecification(db, key, pending, confirmed);
  }

  // ---------------------------------------------------------------- the four keys

  /** Resubmitting an allocated intent returns its execution and changes nothing, whatever the
      pause switches, quotas and chain observations say. */
  lemma AllocationIsIdempotent(
    policy: Policy, db: Db, id: ExecutionId, pending: nat, confirmed: nat, newId: ExecutionId, now: int)
    requires KeysUnique(db) && id in db.records && db.records[id].row.intent.Valid()
    requires confirmed <= pending <= MAX_RELAYER_NONCE && now > 0
    ensures AllocateOrReturn(policy, db, db.records[id].row.intent, pending, confirmed, newId, now) == Ok(Applied(db, id))
  {
    assert SharingIds(db, db.records[id].row.intent) == {id};
  }

  /** The four unique constraints, column by column. */
  predicate KeysDiffer(a: ExecutionIntent, b: ExecutionIntent) {
    && a.capabilityId != b.capabilityId
    && a.reservationId != b.reservationId
    && a.purchaseId != b.purchaseId
    && (a.tenantId, a.nodeId, a.idempotencyKey) != (b.tenantId, b.nodeId, b.idempotencyKey)
  }

  /** The rows with a key of the intent; the row of the intent itself, if there is one, is the only one. */
  lemma SharingIsTaken(policy: Policy, db: Db, intent: ExecutionIntent)
    requires Inv(policy, db)
    ensures forall id :: id in SharingIds(db, intent) <==> id in db.records && !KeysDiffer(db.records[id].row.intent, intent)
    ensures forall id :: id in SharingIds(db, intent) && db.records[id].row.intent == intent ==> SharingIds(db, intent) == {id}
  {
    hide RecordsInv, NonceInv, WithinLimits;
    forall id | id in SharingIds(db, intent) && db.records[id].row.intent == intent
      ensures SharingIds(db, intent) == {id}
    {
      forall j | j in SharingIds(db, intent) ensures j == id {
        assert SharesKey(db.records[j].row.intent, db.records[id].row.intent);
      }
    }
  }

  /** An intent none of whose keys is taken is new: it is never answered with another execution, nor refused for
      one. */
  lemma UntakenIntentIsNew(
    policy: Policy, db: Db, intent: ExecutionIntent, pending: nat, confirmed: nat, newId: ExecutionId, now: int)
    requires forall id :: id in db.records ==> KeysDiffer(db.records[id].row.intent, intent)
    ensures FindForIntent(db, intent) == Ok(None)
    ensures var r := AllocateOrReturn(policy, db, intent, pending, confirmed, newId, now);
            && (r.Ok? ==> r.value.value == newId && newId !in db.records)
            && (r.Err? ==> r.error !in {Conflict(ScopeChanged), Conflict(UniquenessInconsistent)})
  {
    assert SharingIds(db, intent) == {};
    hide AllocateNonce, AdmissionDenial;
  }

  /** An intent with a taken key is answered with the row that has it, if it is that row's own intent, and
      refused otherwise. */
  lemma TakenIntentIs(policy: Policy, db: Db, id: ExecutionId, intent: ExecutionIntent)
    requires KeysUnique(db) && id in db.records && !KeysDiffer(db.records[id].row.intent, intent)
    ensures FindForIntent(db, intent).Ok? <==> db.records[id].row.intent == intent
    ensures FindForIntent(db, intent).Ok? ==> FindForIntent(db, intent) == Ok(Some(id))
    ensures FindForIntent(db, intent).Err? ==> FindForIntent(db, intent).error.Conflict?
  {
    assert id in SharingIds(db, intent);
    if db.records[id].row.intent == intent {
      assert SharingIds(db, intent) == {id};
    }
  }

  /** An intent that shares one of the four keys with an execution but differs from it is refused. */
  lemma ConflictingIntentIsRefused(
    policy: Policy, db: Db, id: ExecutionId, intent: ExecutionIntent, pending: nat, confirmed: nat,
    newId: ExecutionId, now: int)
    requires KeysUnique(db) && id in db.records
    requires var known := db.records[id].row.intent;
             || known.capabilityId == intent.capabilityId
             || known.reservationId == intent.reservationId
             || known.purchaseId == intent.purchaseId
             || (known.tenantId == intent.tenantId && known.nodeId == intent.nodeId
                 && known.idempotencyKey == intent.idempotencyKey)
    requires db.records[id].row.intent != intent
    ensures AllocateOrReturn(policy, db, intent, pending, confirmed, newId, now).Err?
    ensures intent.Valid() && confirmed <= pending <= MAX_RELAYER_NONCE && now > 0 ==>
              AllocateOrReturn(policy, db, intent, pending, confirmed, newId, now).error.Conflict?
  {
    assert id in SharingIds(db, intent);
  }

  // ---------------------------------------------------------------- a new execution

  ghost predicate Inserts(
    policy: Policy, before: Db, after: Db, intent: ExecutionIntent, newId: ExecutionId, now: Positive)
  {
    && newId !in before.records
    && newId in after.records
    && after.records == before.records[newId := after.records[newId]]
    && after.records[newId] == NewRecord(policy, intent, after.records[newId].row.relayerNonce, now)
    && after.paused == before.paused
  }

  lemma NewRecordInv(policy: Policy, intent: ExecutionIntent, nonce: nat, now: Positive)
    requires intent.Valid()
    ensures RecordInv(policy, NewRecord(policy, intent, nonce, now))
  {
  }

  lemma AdmittedFits(
    policy: PilotGatePolicy, db: Db, intent: ExecutionIntent, newId: ExecutionId, record: Record, day: nat,
    measure: Measure)
    requires newId !in db.records
    requires WithinLimits(Some(policy), db)
    requires AdmissionDenial(policy, db, intent, day).None?
    requires record.gate == Some(GateReservation(intent.tenantId, intent.nodeId, day, Reserved, 0, None))
    ensures Total(db.records[newId := record], measure) <= Limit(policy, measure)
  {
    TotalPut(db.records, newId, record, measure);
    assert db.records - {newId} == db.records;
    assert Total(db.records, measure) <= Limit(policy, measure);
  }

  lemma NewNonceIsExclusive(db: Db, intent: ExecutionIntent, row: Execution, pending: nat, confirmed: nat, id: ExecutionId)
    requires NonceInv(db) && id in db.records
    requires row.intent == intent && row.relayerNonce == AllocateNonce(db, intent.Key(), pending, confirmed).nonce
    requires !HasMaterial(row)
    ensures NonceExclusive(row, db.records[id].row) && NonceExclusive(db.records[id].row, row)
  {
    hide AllocateNonce, NonceInv;
    if SameNonce(row, db.records[id].row) {
      AllocatedNonceIsFree(db, intent.Key(), pending, confirmed, id);
    }
  }

  lemma InsertKeepsExclusion(
    before: Db, after: Db, intent: ExecutionIntent, newId: ExecutionId, pending: nat, confirmed: nat, i: ExecutionId,
    j: ExecutionId)
    requires NonceInv(before) && newId !in before.records && newId in after.records
    requires after.records == before.records[newId := after.records[newId]]
    requires var row := after.records[newId].row;
             && row.intent == intent
             && !HasMaterial(row)
             && row.relayerNonce == AllocateNonce(before, intent.Key(), pending, confirmed).nonce
    requires i in after.records && j in after.records && i != j
    ensures NonceExclusive(after.records[i].row, after.records[j].row)
  {
    hide NonceExclusive, AllocateNonce, TopHeld, HasMaterial;
    if i != newId && j != newId {
      assert NonceExclusive(before.records[i].row, before.records[j].row);
    } else {
      NewNonceIsExclusive(before, intent, after.records[newId].row, pending, confirmed, if i == newId then j else i);
    }
  }

  lemma InsertKeepsNonces(
    policy: Policy, before: Db, after: Db, intent: ExecutionIntent, newId: ExecutionId, now: Positive,
    pending: nat, confirmed: nat)
    requires NonceInv(before)
    requires Inserts(policy, before, after, intent, newId, now)
    requires after.records[newId].row.relayerNonce == AllocateNonce(before, intent.Key(), pending, confirmed).nonce
    requires after.nextNonces == before.nextNonces[intent.Key() := AllocateNonce(before, intent.Key(), pending, confirmed).next]
    ensures NonceInv(after)
  {
    var key := intent.Key();
    AllocatorAdvances(before, key, pending, confirmed);
    assert !HasMaterial(after.records[newId].row) && after.records[newId].row.intent == intent;
    hide NonceExclusive, AllocateNonce, TopHeld, NewRecord, HasMaterial;
    forall i, j | i in after.records && j in after.records && i != j
      ensures NonceExclusive(after.records[i].row, after.records[j].row)
    {
      InsertKeepsExclusion(before, after, intent, newId, pending, confirmed, i, j);
    }
    forall id | id in after.records
      ensures after.records[id].row.intent.Key() in after.nextNonces
      ensures after.records[id].row.relayerNonce < after.nextNonces[after.records[id].row.intent.Key()]
    {
      InsertKeepsBound(before, after, newId, key, id);
    }
    forall k | k in after.nextNonces ensures TopHeld(after, k) {
      assert k != key ==> TopHeld(before, k);
      InsertKeepsTop(before, after, newId, key, k);
    }
  }

  lemma InsertKeepsBound(before: Db, after: Db, newId: ExecutionId, key: NonceKey, id: ExecutionId)
    requires NonceInv(before) && newId in after.records
    requires after.records == before.records[newId := after.records[newId]]
    requires after.records[newId].row.intent.Key() == key && key in after.nextNonces
    requires after.nextNonces == before.nextNonces[key := after.nextNonces[key]]
    requires after.records[newId].row.relayerNonce < after.nextNonces[key]
    requires key in before.nextNonces ==> before.nextNonces[key] <= after.nextNonces[key]
    requires id in after.records
    ensures after.records[id].row.intent.Key() in after.nextNonces
    ensures after.records[id].row.relayerNonce < after.nextNonces[after.records[id].row.intent.Key()]
  {
    hide NonceExclusive, TopHeld;
  }

  lemma InsertKeepsTop(before: Db, after: Db, newId: ExecutionId, key: NonceKey, k: NonceKey)
    requires newId !in before.records && newId in after.records
    requires after.records == before.records[newId := after.records[newId]]
    requires after.records[newId].row.intent.Key() == key && k in after.nextNonces
    requires if k == key && after.nextNonces[key] == after.records[newId].row.relayerNonce + 1 then true
             else k in before.nextNonces && after.nextNonces[k] == before.nextNonces[k] && TopHeld(before, k)
    ensures TopHeld(after, k)
  {
    if k == key && after.nextNonces[key] == after.records[newId].row.relayerNonce + 1 {
      assert Tops(after.records[newId].row, key, after.nextNonces[key]);
    } else {
      var top :| top in before.records && Tops(before.records[top].row, k, before.nextNonces[k]);
      assert Tops(after.records[top].row, k, after.nextNonces[k]);
    }
  }

  lemma InsertKeepsLimits(
    policy: Policy, before: Db, after: Db, intent: ExecutionIntent, newId: ExecutionId, now: Positive)
    requires WithinLimits(policy, before)
    requires Inserts(policy, before, after, intent, newId, now)
    requires policy.Some? ==> AdmissionDenial(policy.value, before, intent, UtcDay(now)).None?
    ensures WithinLimits(policy, after)
  {
    if policy.Some? {
      forall measure ensures Total(after.records, measure) <= Limit(policy.value, measure) {
        AdmittedFits(policy.value, before, intent, newId, after.records[newId], UtcDay(now), measure);
      }
    }
  }

  /** What a successful allocation returns: the earlier row of the same intent, or a new row. */
  lemma AllocationOutcome(
    policy: Policy, db: Db, intent: ExecutionIntent, pending: nat, confirmed: nat, newId: ExecutionId, now: int)
    requires AllocateOrReturn(policy, db, intent, pending, confirmed, newId, now).Ok?
    ensures var r := AllocateOrReturn(policy, db, intent, pending, confirmed, newId, now).value;
            var choice := AllocateNonce(db, intent.Key(), pending, confirmed);
            && now > 0
            && intent.Valid()
            && (if SharingIds(db, intent) != {} then
                  r.db == db && r.value in db.records && db.records[r.value].row.intent == intent
                else
                  && r.value == newId
                  && Inserts(policy, db, r.db, intent, newId, now)
                  && r.db.records[newId].row.relayerNonce == choice.nonce
                  && r.db.nextNonces == db.nextNonces[intent.Key() := choice.next]
                  && (policy.Some? ==> AdmissionDenial(policy.value, db, intent, UtcDay(now)).None?))
  {
  }

  /** A new execution keeps every table invariant. */
  lemma AllocationKeepsInv(
    policy: Policy, db: Db, intent: ExecutionIntent, pending: nat, confirmed: nat, newId: ExecutionId, now: int)
    requires Inv(policy, db)
    requires AllocateOrReturn(policy, db, intent, pending, confirmed, newId, now).Ok?
    ensures Inv(policy, AllocateOrReturn(policy, db, intent, pending, confirmed, newId, now).value.db)
  {
    AllocationOutcome(policy, db, intent, pending, confirmed, newId, now);
    if SharingIds(db, intent) == {} {
      var after := AllocateOrReturn(policy, db, intent, pending, confirmed, newId, now).value.db;
      InsertKeepsNonces(policy, db, after, intent, newId, now, pending, confirmed);
      NewRecordInv(policy, intent, after.records[newId].row.relayerNonce, now);
      InsertKeepsRecords(policy, db, after, newId);
      InsertKeepsKeys(db, after, newId, intent);
      InsertKeepsLimits(policy, db, after, intent, newId, now);
    }
  }

  lemma InsertKeepsRecords(policy: Policy, before: Db, after: Db, newId: ExecutionId)
    requires RecordsInv(policy, before) && newId in after.records
    requires after.records == before.records[newId := after.records[newId]] && RecordInv(policy, after.records[newId])
    ensures RecordsInv(policy, after)
  {
    forall j | j in after.records
      ensures RecordInv(policy, after.records[j])
    {
      if j != newId {
        assert after.records[j] == before.records[j];
      }
    }
  }

  lemma InsertKeepsKeys(before: Db, after: Db, newId: ExecutionId, intent: ExecutionIntent)
    requires KeysUnique(before) && newId !in before.records && newId in after.records
    requires after.records == before.records[newId := after.records[newId]]
    requires after.records[newId].row.intent == intent && SharingIds(before, intent) == {}
    ensures KeysUnique(after)
  {
    forall j | j in before.records
      ensures !SharesKey(before.records[j].row.intent, intent) && !SharesKey(intent, before.records[j].row.intent)
    {
      assert j !in SharingIds(before, intent);
    }
  }
}
