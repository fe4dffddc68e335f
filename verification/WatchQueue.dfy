/** The retry queue of the chain watcher: `list_watchable_ids` and `record_watcher_attempt`
    (apps/facilitator/execution_repository.py), and how long a row can wait in it. */
module WatchQueue {
  import opened Wrappers
  import opened ExecutionModels
  import opened RepositoryModel

  // ---------------------------------------------------------------- order

  /** Identifiers compare character by character. */
  predicate IdLess(a: string, b: string) {
    b != [] && (a == [] || a[0] < b[0] || (a[0] == b[0] && IdLess(a[1..], b[1..])))
  }

  lemma {:induction false} IdOrder(a: string, b: string, c: string)
    ensures IdLess(a, b) && IdLess(b, c) ==> IdLess(a, c)
    ensures !(IdLess(a, b) && IdLess(b, a))
    ensures a != b ==> IdLess(a, b) || IdLess(b, a)
  {
    if a != [] && b != [] {
      IdOrder(a[1..], b[1..], if c == [] then [] else c[1..]);
      assert a == [a[0]] + a[1..] && b == [b[0]] + b[1..];
    }
  }

  /** One is a proper beginning of the other, or has the smaller character where they first differ. */
  lemma {:induction false} IdLessIff(a: string, b: string)
    ensures IdLess(a, b) <==>
            exists k :: 0 <= k <= |a| && k < |b| && a[..k] == b[..k] && (k == |a| || a[k] < b[k])
  {
    if a != [] && b != [] {
      IdLessIff(a[1..], b[1..]);
      if a[0] == b[0] {
        if IdLess(a[1..], b[1..]) {
          var k :| 0 <= k <= |a| - 1 && k < |b| - 1 && a[1..][..k] == b[1..][..k] && (k == |a| - 1 || a[1..][k] < b[1..][k]);
          assert a[..k + 1] == [a[0]] + a[1..][..k] && b[..k + 1] == [b[0]] + b[1..][..k];
        }
        if k :| 0 < k <= |a| && k < |b| && a[..k] == b[..k] && (k == |a| || a[k] < b[k]) {
          assert a[1..][..k - 1] == a[..k][1..] && b[1..][..k - 1] == b[..k][1..];
        }
      }
      if a[0] < b[0] {
        assert a[..0] == b[..0];
      }
    } else if b != [] {
      assert a[..0] == b[..0];
    }
  }

  /** `coalesce(watcher_attempted_at, 0)`. */
  function Stamp(record: Record): int {
    if record.row.watcherAttemptedAt.Some? then record.row.watcherAttemptedAt.value else 0
  }

  /** `ORDER BY` the last attempt, then the identifier. */
  predicate Ahead(db: Db, a: ExecutionId, b: ExecutionId)
    requires a in db.records && b in db.records
  {
    var s, t := Stamp(db.records[a]), Stamp(db.records[b]);
    s < t || (s == t && IdLess(a, b))
  }

  lemma AheadOrder(db: Db, a: ExecutionId, b: ExecutionId, c: ExecutionId)
    requires a in db.records && b in db.records && c in db.records
    ensures Ahead(db, a, b) && Ahead(db, b, c) ==> Ahead(db, a, c)
    ensures !(Ahead(db, a, b) && Ahead(db, b, a))
    ensures a != b ==> Ahead(db, a, b) || Ahead(db, b, a)
  {
    hide IdLess;
    IdOrder(a, b, c);
  }

  // ---------------------------------------------------------------- listing

  predicate Watchable(record: Record, chain: Chain) {
    && record.row.intent.chain == chain
    && (|| record.row.status in {PreflightApproved, Signing, Submitted, SubmissionUnknown, SubmissionRejected,
                                 Confirmed, Finalized}
        || (record.row.status == Reverted && record.row.releaseEvidence.None?))
  }

  function WatchableIds(db: Db, chain: Chain): set<ExecutionId> {
    set id | id in db.records && Watchable(db.records[id], chain)
  }

  function Candidates(db: Db, chain: Chain, after: Option<ExecutionId>): set<ExecutionId> {
    set id | id in db.records && Watchable(db.records[id], chain) && (after.Some? ==> IdLess(after.value, id))
  }

  /** `ids` are the first `limit` candidates, in order. */
  ghost predicate IsListing(db: Db, chain: Chain, after: Option<ExecutionId>, limit: nat, ids: seq<ExecutionId>) {
    && (forall i :: 0 <= i < |ids| ==> ids[i] in Candidates(db, chain, after))
    && (forall i, j :: 0 <= i < j < |ids| ==> Ahead(db, ids[i], ids[j]))
    && (forall i, id :: 0 <= i < |ids| && id in Candidates(db, chain, after) && id !in ids ==> Ahead(db, ids[i], id))
    && |ids| <= limit
    && (|ids| < limit ==> forall id :: id in Candidates(db, chain, after) ==> id in ids)
  }

  /** `ids` are the first rows of `all`, in order, and `todo` the others. */
  ghost predicate Leads(db: Db, all: set<ExecutionId>, todo: set<ExecutionId>, ids: seq<ExecutionId>) {
    && all <= db.records.Keys
    && todo <= all
    && (forall i :: 0 <= i < |ids| ==> ids[i] in all - todo)
    && (forall id :: id in all - todo ==> id in ids)
    && (forall i, j :: 0 <= i < j < |ids| ==> Ahead(db, ids[i], ids[j]))
    && (forall i, id :: 0 <= i < |ids| && id in todo ==> Ahead(db, ids[i], id))
  }

  lemma LeadsSubset(db: Db, all: set<ExecutionId>, todo: set<ExecutionId>, ids: seq<ExecutionId>)
    requires Leads(db, all, todo, ids)
    ensures todo <= db.records.Keys
  {
  }

  lemma LeadsNext(db: Db, all: set<ExecutionId>, todo: set<ExecutionId>, ids: seq<ExecutionId>, first: ExecutionId)
    requires Leads(db, all, todo, ids)
    requires first in todo && forall id :: id in todo && id != first ==> Ahead(db, first, id)
    ensures Leads(db, all, todo - {first}, ids + [first])
  {
    hide Ahead;
    assert forall id :: id in all - (todo - {first}) ==> id in ids || id == first;
  }

  lemma LeadsNone(db: Db, all: set<ExecutionId>)
    requires all <= db.records.Keys
    ensures Leads(db, all, all, [])
  {
  }

  lemma LeadsList(
    db: Db, chain: Chain, after: Option<ExecutionId>, limit: nat, todo: set<ExecutionId>, ids: seq<ExecutionId>)
    requires Leads(db, Candidates(db, chain, after), todo, ids)
    requires |ids| <= limit && (todo == {} || |ids| == limit)
    ensures IsListing(db, chain, after, limit, ids)
  {
    hide Ahead, Watchable;
  }

  datatype ListError = CursorInvalid | LimitUnsafe

  const MAX_WATCH_LIMIT: nat := 1000

  predicate CursorValid(after: Option<ExecutionId>) {
    after.Some? ==> 0 < |after.value| <= 96 && forall i :: 0 <= i < |after.value| ==> '!' <= after.value[i] <= '~'
  }

  lemma ListingDistinct(
    db: Db, chain: Chain, after: Option<ExecutionId>, limit: nat, ids: seq<ExecutionId>, i: nat, j: nat)
    requires IsListing(db, chain, after, limit, ids)
    requires i < j < |ids|
    ensures ids[i] != ids[j]
  {
    AheadOrder(db, ids[i], ids[j], ids[i]);
  }

  /** A candidate that is not among the first `n` rows comes after the next one, or is it. */
  lemma BehindNext(
    db: Db, chain: Chain, after: Option<ExecutionId>, limit: nat, ids: seq<ExecutionId>, n: nat, x: ExecutionId)
    requires IsListing(db, chain, after, limit, ids)
    requires x in Candidates(db, chain, after) && x !in ids[..if n < |ids| then n else |ids|]
    requires n < limit
    ensures n < |ids| && (ids[n] == x || Ahead(db, ids[n], x))
  {
    hide Ahead, Candidates;
    if x in ids {
      var i :| 0 <= i < |ids| && ids[i] == x;
      assert n <= i;
    }
  }

  lemma NotYetListed(db: Db, chain: Chain, after: Option<ExecutionId>, limit: nat, ids: seq<ExecutionId>, n: nat)
    requires IsListing(db, chain, after, limit, ids) && n < |ids|
    ensures ids[n] !in ids[..n]
  {
    forall i | 0 <= i < n ensures ids[..n][i] != ids[n] {
      ListingDistinct(db, chain, after, limit, ids, i, n);
    }
  }

  /** The order and the limit leave one listing: two of them agree on every prefix. */
  lemma {:induction false} ListingIsDetermined(
    db: Db, chain: Chain, after: Option<ExecutionId>, limit: nat, a: seq<ExecutionId>, b: seq<ExecutionId>, n: nat)
    requires IsListing(db, chain, after, limit, a) && IsListing(db, chain, after, limit, b)
    requires n <= |a|
    ensures n <= |b| && a[..n] == b[..n]
  {
    if n > 0 {
      var m := n - 1;
      ListingIsDetermined(db, chain, after, limit, a, b, m);
      NotYetListed(db, chain, after, limit, a, m);
      BehindNext(db, chain, after, limit, b, m, a[m]);
      NotYetListed(db, chain, after, limit, b, m);
      BehindNext(db, chain, after, limit, a, m, b[m]);
      AheadOrder(db, a[m], b[m], a[m]);
      hide *;
      assert a[..n] == a[..m] + [a[m]] && b[..n] == b[..m] + [b[m]];
    }
  }

  // ---------------------------------------------------------------- one round

  datatype Answer = Raised | Returned(result: Option<string>)

  /** What the environment decides at one item of a batch: whether a stop was asked for before it, the
      time of its attempt stamp (none when the stamp cannot be written), and what `watch` does. */
  datatype Visit = Visit(stop: bool, stampedAt: Option<int>, answer: Answer)

  datatype Round = Round(db: Db, cursor: Option<ExecutionId>, results: seq<string>, attempted: seq<ExecutionId>)

  function Collected(results: seq<string>, answer: Answer): seq<string> {
    if answer.Returned? && answer.result.Some? then results + [answer.result.value] else results
  }

  /** One batch of `run_once`, item by item. */
  function Visits(round: Round, ids: seq<ExecutionId>, script: seq<Visit>): Round
    requires |ids| == |script|
    decreases |ids|
  {
    if ids == [] || script[0].stop then round else
      Visits(VisitOne(round, ids[0], script[0]), ids[1..], script[1..])
  }

  function VisitOne(round: Round, id: ExecutionId, visit: Visit): Round {
    if visit.stampedAt.None? || visit.stampedAt.value <= 0 then round else
      match RecordWatcherAttempt(round.db, id, visit.stampedAt.value)
      case Err(_) => round
      case Ok(stamped) =>
        Round(stamped.db, Some(id), Collected(round.results, visit.answer), round.attempted + [id])
  }

  /** Every visit of the batch is made and stamped later than `time`, whatever `watch` does. */
  predicate Undisturbed(script: seq<Visit>, time: int) {
    forall i :: 0 <= i < |script| ==> !script[i].stop && script[i].stampedAt.Some? && script[i].stampedAt.value > time
  }

  /** Of the rows of `before`, exactly those in `ids` are stamped anew, later than `time`; nothing else moves. */
  ghost predicate Stamped(before: Db, after: Db, ids: seq<ExecutionId>, time: int) {
    && after == before.(records := after.records)
    && after.records.Keys == before.records.Keys
    && forall id :: id in before.records ==> StampedRecord(before.records[id], after.records[id], id in ids, time)
  }

  predicate StampedRecord(before: Record, after: Record, attempted: bool, time: int) {
    if attempted then
      Stamp(after) > time && after == before.(row := before.row.(watcherAttemptedAt := after.row.watcherAttemptedAt))
    else
      after == before
  }

  lemma StampedTwice(before: Db, middle: Db, after: Db, id: ExecutionId, ids: seq<ExecutionId>, time: int)
    requires Stamped(before, middle, [id], time) && Stamped(middle, after, ids, time)
    ensures Stamped(before, after, [id] + ids, time)
  {
    forall j | j in before.records
      ensures StampedRecord(before.records[j], after.records[j], j in [id] + ids, time)
    {
      assert StampedRecord(before.records[j], middle.records[j], j in [id], time);
      assert StampedRecord(middle.records[j], after.records[j], j in ids, time);
    }
  }

  lemma StampedNone(db: Db, time: int)
    ensures Stamped(db, db, [], time)
  {
  }

  lemma SameRows(before: Db, after: Db, ids: seq<ExecutionId>, time: int)
    requires Stamped(before, after, ids, time)
    ensures before.records.Keys == after.records.Keys
  {
  }

  lemma VisitStamps(round: Round, id: ExecutionId, visit: Visit, time: nat)
    requires id in round.db.records && visit.stampedAt.Some? && visit.stampedAt.value > time
    ensures Stamped(round.db, VisitOne(round, id, visit).db, [id], time)
    ensures VisitOne(round, id, visit).attempted == round.attempted + [id]
    ensures VisitOne(round, id, visit).cursor == Some(id)
    ensures VisitOne(round, id, visit).results == round.results + ResultsOf([visit])
  {
    assert [visit][1..] == [];
  }

  /** What `watch` returned, in order; an exception and an empty answer leave nothing. */
  function ResultsOf(script: seq<Visit>): seq<string> {
    if script == [] then [] else
      (match script[0].answer
       case Returned(Some(result)) => [result]
       case _ => [])
      + ResultsOf(script[1..])
  }

  /** Then the whole batch is attempted, in order, and stamped, and no other row changes. */
  lemma {:induction false} WholeBatchIsAttempted(round: Round, ids: seq<ExecutionId>, script: seq<Visit>, time: nat)
    requires |ids| == |script| && Undisturbed(script, time)
    requires forall i :: 0 <= i < |ids| ==> ids[i] in round.db.records
    ensures Stamped(round.db, Visits(round, ids, script).db, ids, time)
    ensures Visits(round, ids, script).attempted == round.attempted + ids
    ensures Visits(round, ids, script).cursor == if ids == [] then round.cursor else Some(ids[|ids| - 1])
    ensures Visits(round, ids, script).results == round.results + ResultsOf(script)
    decreases |ids|
  {
    hide VisitOne, Stamped, StampedRecord, Stamp;
    StampedNone(round.db, time);
    if ids != [] {
      var next, rest := VisitOne(round, ids[0], script[0]), script[1..];
      VisitStamps(round, ids[0], script[0], time);
      assert Undisturbed(rest, time);
      assert Visits(round, ids, script) == Visits(next, ids[1..], rest);
      SameRows(round.db, next.db, [ids[0]], time);
      assert ResultsOf(script) == ResultsOf([script[0]]) + ResultsOf(rest) by {
        assert [script[0]][1..] == [];
      }
      hide *;
      WholeBatchIsAttempted(next, ids[1..], rest, time);
      assert ids == [ids[0]] + ids[1..];
      StampedTwice(round.db, next.db, Visits(next, ids[1..], rest).db, ids[0], ids[1..], time);
    }
  }

  // ---------------------------------------------------------------- fairness

  /** Between two listings: the batch was stamped later than every row of the first listing, no other
      stamp moved, and no row vanished. Anything else may have changed, new rows included. */
  ghost predicate Passes(chain: Chain, limit: nat, before: Db, ids: seq<ExecutionId>, after: Db) {
    && IsListing(before, chain, None, limit, ids)
    && before.records.Keys <= after.records.Keys
    && (forall i, id :: 0 <= i < |ids| && id in before.records ==> Stamp(after.records[ids[i]]) > Stamp(before.records[id]))
    && (forall id :: id in before.records && id !in ids ==> Stamp(after.records[id]) == Stamp(before.records[id]))
  }

  function AheadOf(db: Db, chain: Chain, x: ExecutionId): set<ExecutionId> {
    set id | id in WatchableIds(db, chain) && x in db.records && Ahead(db, id, x)
  }

  /** Rows that became watchable between two listings. */
  function Arrivals(before: Db, after: Db, chain: Chain): set<ExecutionId> {
    WatchableIds(after, chain) - WatchableIds(before, chain)
  }

  lemma {:induction false} DistinctSize(ids: seq<ExecutionId>)
    requires forall i, j :: 0 <= i < j < |ids| ==> ids[i] != ids[j]
    ensures |set id | id in ids| == |ids|
  {
    if ids != [] {
      var n := |ids| - 1;
      DistinctSize(ids[..n]);
      assert ids == ids[..n] + [ids[n]];
      assert (set id | id in ids) == (set id | id in ids[..n]) + {ids[n]};
    }
  }

  lemma SubsetSize<T>(a: set<T>, b: set<T>)
    requires a <= b
    ensures |a| <= |b|
  {
    assert |b| == |a| + |b - a| by {
      assert b == a + (b - a);
    }
  }

  /** A row that a round passes over: the whole batch was ahead of it, and is behind it afterwards. */
  lemma RoundAdvances(chain: Chain, limit: nat, before: Db, ids: seq<ExecutionId>, after: Db, x: ExecutionId)
    requires Passes(chain, limit, before, ids, after)
    requires x in WatchableIds(before, chain) && x !in ids
    ensures |AheadOf(after, chain, x)| + limit <= |AheadOf(before, chain, x)| + |Arrivals(before, after, chain)|
  {
    hide IdLess, Watchable;
    var batch := set id | id in ids;
    assert WatchableIds(before, chain) == Candidates(before, chain, None);
    forall i, j | 0 <= i < j < |ids| ensures ids[i] != ids[j] {
      ListingDistinct(before, chain, None, limit, ids, i, j);
    }
    DistinctSize(ids);
    assert |batch| == limit;
    var ahead, still := AheadOf(before, chain, x), AheadOf(after, chain, x);
    assert batch <= ahead;
    forall id | id in still && id !in Arrivals(before, after, chain)
      ensures id in ahead - batch
    {
    }
    SubsetSize(still, (ahead - batch) + Arrivals(before, after, chain));
    assert |(ahead - batch) + Arrivals(before, after, chain)| <= |ahead - batch| + |Arrivals(before, after, chain)|;
  }

  /** Consecutive rounds: `dbs[k]` is what round `k` lists and `batches[k]` what it attempts. */
  ghost predicate Rounds(chain: Chain, limit: nat, dbs: seq<Db>, batches: seq<seq<ExecutionId>>) {
    && |dbs| == |batches| + 1
    && forall k :: 0 <= k < |batches| ==> Passes(chain, limit, dbs[k], batches[k], dbs[k + 1])
  }

  lemma RoundsPrefix(chain: Chain, limit: nat, dbs: seq<Db>, batches: seq<seq<ExecutionId>>)
    requires Rounds(chain, limit, dbs, batches) && batches != []
    ensures Rounds(chain, limit, dbs[..|batches|], batches[..|batches| - 1])
  {
    hide Passes;
  }

  function TotalArrivals(chain: Chain, dbs: seq<Db>): nat
    requires dbs != []
  {
    if |dbs| == 1 then 0
    else TotalArrivals(chain, dbs[..|dbs| - 1]) + |Arrivals(dbs[|dbs| - 2], dbs[|dbs| - 1], chain)|
  }

  /** A row that stays watchable and is passed over `k` times in a row had, with the rows that arrived
      meanwhile, at least `k` full batches ahead of it. */
  lemma {:induction false} WaitIsBounded(
    chain: Chain, limit: nat, dbs: seq<Db>, batches: seq<seq<ExecutionId>>, x: ExecutionId)
    requires Rounds(chain, limit, dbs, batches)
    requires forall k :: 0 <= k < |dbs| ==> x in WatchableIds(dbs[k], chain)
    requires forall k :: 0 <= k < |batches| ==> x !in batches[k]
    ensures |AheadOf(dbs[|batches|], chain, x)| + |batches| * limit
            <= |AheadOf(dbs[0], chain, x)| + TotalArrivals(chain, dbs)
  {
    hide Passes, AheadOf, WatchableIds, Arrivals;
    if batches == [] {
      assert |batches| * limit == 0;
    } else {
      var n := |batches|;
      var earlier := dbs[..n];
      RoundsPrefix(chain, limit, dbs, batches);
      RoundAdvances(chain, limit, dbs[n - 1], batches[n - 1], dbs[n], x);
      assert TotalArrivals(chain, dbs) == TotalArrivals(chain, earlier) + |Arrivals(dbs[n - 1], dbs[n], chain)|;
      hide *;
      WaitIsBounded(chain, limit, earlier, batches[..n - 1], x);
      assert n * limit == (n - 1) * limit + limit;
    }
  }

  lemma {:induction false} NoArrivals(chain: Chain, dbs: seq<Db>)
    requires dbs != []
    requires forall k :: 0 <= k < |dbs| ==> WatchableIds(dbs[k], chain) == WatchableIds(dbs[0], chain)
    ensures TotalArrivals(chain, dbs) == 0
  {
    if |dbs| > 1 {
      hide WatchableIds;
      NoArrivals(chain, dbs[..|dbs| - 1]);
    }
  }

  /** For a fixed watchable set, any ceil(N / B) consecutive rounds attempt every row. */
  lemma EveryRowIsAttempted(chain: Chain, limit: nat, dbs: seq<Db>, batches: seq<seq<ExecutionId>>, x: ExecutionId)
    requires Rounds(chain, limit, dbs, batches)
    requires forall k :: 0 <= k < |dbs| ==> WatchableIds(dbs[k], chain) == WatchableIds(dbs[0], chain)
    requires x in WatchableIds(dbs[0], chain)
    requires |batches| * limit >= |WatchableIds(dbs[0], chain)|
    ensures exists k :: 0 <= k < |batches| && x in batches[k]
  {
    if forall k :: 0 <= k < |batches| ==> x !in batches[k] {
      hide Passes, Watchable, IdLess;
      WaitIsBounded(chain, limit, dbs, batches, x);
      NoArrivals(chain, dbs);
      AheadOrder(dbs[0], x, x, x);
      assert x !in AheadOf(dbs[0], chain, x);
      SubsetSize(AheadOf(dbs[0], chain, x) + {x}, WatchableIds(dbs[0], chain));
      assert false;
    }
  }
}
