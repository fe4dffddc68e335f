/** How long a row waits for the watcher while the whole system runs beside it. */
module WatcherFairness {
  import opened Wrappers
  import opened ExecutionModels
  import opened RepositoryModel
  import opened RepositorySteps
  import opened HostedRelayer
  import opened HostedRelayerFrames
  import opened WatchQueue

  // ---------------------------------------------------------------- rounds beside the system

  /** One polling round and what the system does until the next one. */
  datatype Turn = Turn(batch: seq<ExecutionId>, script: seq<Visit>, time: nat, between: seq<Action>)

  /** The batch is listed at `s`; all its visits are made and stamped, later than every stamp at `s`;
      then workers, operators and `watch` itself act, and the system is at `t`. */
  ghost predicate Played(policy: Policy, chain: Chain, limit: nat, s: System, turn: Turn, t: System) {
    && IsListing(s.db, chain, None, limit, turn.batch)
    && |turn.script| == |turn.batch|
    && (forall id :: id in s.db.records ==> Stamp(s.db.records[id]) <= turn.time)
    && Undisturbed(turn.script, turn.time)
    && (forall k :: 0 <= k < |turn.between| ==> !Stamps(turn.between[k]))
    && t == Run(policy, s.(db := Visits(Round(s.db, None, [], []), turn.batch, turn.script).db), turn.between)
  }

  lemma PlayedPasses(policy: Policy, chain: Chain, limit: nat, s: System, turn: Turn, t: System)
    requires Played(policy, chain, limit, s, turn, t)
    ensures Passes(chain, limit, s.db, turn.batch, t.db)
  {
    hide Run, Visits, Undisturbed, Ahead, Stamp;
    var stamped := Visits(Round(s.db, None, [], []), turn.batch, turn.script).db;
    WholeBatchIsAttempted(Round(s.db, None, [], []), turn.batch, turn.script, turn.time);
    RunKeepsStamps(policy, s.(db := stamped), turn.between);
    StampedPasses(chain, limit, s.db, turn.batch, turn.time, stamped, t.db);
  }

  lemma StampedPasses(chain: Chain, limit: nat, before: Db, ids: seq<ExecutionId>, time: nat, stamped: Db, after: Db)
    requires IsListing(before, chain, None, limit, ids)
    requires forall id :: id in before.records ==> Stamp(before.records[id]) <= time
    requires Stamped(before, stamped, ids, time) && StampsKept(stamped, after)
    ensures Passes(chain, limit, before, ids, after)
  {
    hide Ahead, Stamp;
    forall id | id in before.records
      ensures id in after.records
      ensures if id in ids then Stamp(after.records[id]) > time else Stamp(after.records[id]) == Stamp(before.records[id])
    {
      assert StampedRecord(before.records[id], stamped.records[id], id in ids, time);
    }
  }

  ghost function Tables(systems: seq<System>): seq<Db> {
    seq(|systems|, k requires 0 <= k < |systems| => systems[k].db)
  }

  ghost function Batches(turns: seq<Turn>): seq<seq<ExecutionId>> {
    seq(|turns|, k requires 0 <= k < |turns| => turns[k].batch)
  }

  /** Beside the running system: in `n` consecutive rounds a row that stays watchable is attempted,
      unless the rows ahead of it and those that become watchable meanwhile fill all `n` batches. */
  lemma WaitBesideTheSystem(
    policy: Policy, chain: Chain, limit: nat, systems: seq<System>, turns: seq<Turn>, x: ExecutionId)
    requires |systems| == |turns| + 1
    requires forall k :: 0 <= k < |turns| ==> Played(policy, chain, limit, systems[k], turns[k], systems[k + 1])
    requires forall k :: 0 <= k < |systems| ==> x in WatchableIds(systems[k].db, chain)
    requires |AheadOf(systems[0].db, chain, x)| + TotalArrivals(chain, Tables(systems)) < |turns| * limit
    ensures exists k :: 0 <= k < |turns| && x in turns[k].batch
  {
    hide Played, Passes, WatchableIds, AheadOf, TotalArrivals;
    var dbs, batches := Tables(systems), Batches(turns);
    forall k | 0 <= k < |turns| ensures Passes(chain, limit, dbs[k], batches[k], dbs[k + 1]) {
      PlayedPasses(policy, chain, limit, systems[k], turns[k], systems[k + 1]);
    }
    if forall k :: 0 <= k < |turns| ==> x !in turns[k].batch {
      WaitIsBounded(chain, limit, dbs, batches, x);
      assert false;
    }
  }

  /** With no arrivals and departures: any ceil(N / B) consecutive rounds attempt every one of N rows. */
  lemma WatcherIsFair(policy: Policy, chain: Chain, limit: nat, systems: seq<System>, turns: seq<Turn>, x: ExecutionId)
    requires |systems| == |turns| + 1
    requires forall k :: 0 <= k < |turns| ==> Played(policy, chain, limit, systems[k], turns[k], systems[k + 1])
    requires forall k :: 0 <= k < |systems| ==> WatchableIds(systems[k].db, chain) == WatchableIds(systems[0].db, chain)
    requires x in WatchableIds(systems[0].db, chain)
    requires |turns| * limit >= |WatchableIds(systems[0].db, chain)|
    ensures exists k :: 0 <= k < |turns| && x in turns[k].batch
  {
    hide Played, Passes, WatchableIds;
    var dbs, batches := Tables(systems), Batches(turns);
    forall k | 0 <= k < |turns| ensures Passes(chain, limit, dbs[k], batches[k], dbs[k + 1]) {
      PlayedPasses(policy, chain, limit, systems[k], turns[k], systems[k + 1]);
    }
    EveryRowIsAttempted(chain, limit, dbs, batches, x);
    var k :| 0 <= k < |batches| && x in batches[k];
    assert x in turns[k].batch;
  }
}
