/** The polling loop of the chain watcher (apps/facilitator/watcher_worker.py). */
module WatcherWorker {
  import opened Wrappers
  import opened ExecutionModels
  import opened RepositoryModel
  import opened RepositoryInvariants
  import opened RepositoryContracts
  import opened WatchQueue
  import opened ExecutionRepository

  class WatcherWorker {
    const repository: ExecutionRepository
    const chain: Chain
    const batchSize: int
    var cursor: Option<ExecutionId>
    var stopped: bool

    constructor (repository: ExecutionRepository, chain: Chain, batchSize: int)
      requires 1 <= batchSize <= MAX_WATCH_LIMIT
      ensures this.repository == repository && this.chain == chain && this.batchSize == batchSize
      ensures cursor == None && !stopped
    {
      this.repository, this.chain, this.batchSize := repository, chain, batchSize;
      cursor, stopped := None, false;
    }

    method Stop()
      modifies this`stopped
      ensures stopped
    {
      stopped := true;
    }

    /** `run_once`. `script` is what the environment does at each item of the batch. The batch that was
        listed is returned beside the results, for the specification's sake. */
    method RunOnce(script: seq<Visit>) returns (results: seq<string>, batch: seq<ExecutionId>)
      requires 1 <= batchSize <= MAX_WATCH_LIMIT
      requires |script| == batchSize
      requires repository.Valid()
      modifies this, repository`records
      ensures repository.Valid()
      ensures old(stopped) ==>
                && repository.Tables() == old(repository.Tables())
                && cursor == old(cursor)
                && results == []
                && batch == []
      ensures !old(stopped) ==>
                && IsListing(old(repository.Tables()), chain, None, batchSize, batch)
                && var start := Round(old(repository.Tables()), if batch == [] then None else old(cursor), [], []);
                   var end := Visits(start, batch, script[..|batch|]);
                   repository.Tables() == end.db && cursor == end.cursor && results == end.results
    {
      hide Inv, Moves;
      results, batch := [], [];
      if stopped {
        return;
      }
      var listed := repository.ListWatchableIds(chain, None, batchSize);
      batch := listed.value;
      if batch == [] {
        cursor := None;
        return;
      }
      hide IsListing;
      ghost var attempted := [];
      ghost var start := Round(repository.Tables(), cursor, [], []);
      var i := 0;
      while i < |batch|
        invariant i <= |batch| <= |script|
        invariant repository.Valid()
        invariant stopped == old(stopped)
        invariant Visits(Round(repository.Tables(), cursor, results, attempted), batch[i..], script[i..|batch|])
                  == Visits(start, batch, script[..|batch|])
      {
        var id, visit := batch[i], script[i];
        assert batch[i..][1..] == batch[i + 1..] && script[i..|batch|][1..] == script[i + 1..|batch|];
        if visit.stop {
          stopped := true;
          break;
        }
        i := i + 1;
        if visit.stampedAt.None? || visit.stampedAt.value <= 0 {
          continue;
        }
        var recorded := repository.RecordWatcherAttempt(id, visit.stampedAt.value);
        if recorded.Err? {
          continue;
        }
        match visit.answer {
          case Raised =>
          case Returned(result) =>
            if result.Some? {
              results := results + [result.value];
            }
        }
        cursor := Some(id);
        attempted := attempted + [id];
      }
    }
  }
}
