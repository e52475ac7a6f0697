/**
 * One scheduled cycle end to end: singleRun of the lifecycle with the
 * fetcher's answers and RdsDataPersister.persist over a file system.  What
 * the cycle leaves at the target follows from the run's events.
 */
module Cycle {
  import opened Wrappers
  import opened Json
  import opened Exceptions
  import opened Paths
  import opened Files
  import opened Persister
  import opened Fetcher
  import opened Lifecycle

  /** A fetcher.fetch() result as singleRun receives it. */
  function Attempt(r: Result<Json, Exc>): FetchAttempt {
    match r
    case Ok(v) => Returned(Some(v))
    case Err(e) => Threw(e)
  }

  /** persister.persist on the entries `fs`, with the data serialised by `serialize`. */
  function PersistOn(l: Layout, fs: FsMap, serialize: Json -> seq<byte>): Json -> Completion {
    d => ToCompletion(PersistRun(l, fs, serialize(d)).result)
  }

  /** The run of one cycle. */
  function CycleTrace(l: Layout, fs: FsMap, serialize: Json -> seq<byte>,
                      first: FetchAttempt, second: FetchAttempt): RunTrace {
    SingleRunSpec(first, second, PersistOn(l, fs, serialize))
  }

  /** The entries after one cycle: only a persist call changes them. */
  function CycleEntries(l: Layout, fs: FsMap, serialize: Json -> seq<byte>,
                        first: FetchAttempt, second: FetchAttempt): FsMap {
    var f := FetchSpec(first, second);
    if f.outcome.FetchReturned? && f.outcome.data.Some?
    then FinalState(fs, PersistRun(l, fs, serialize(f.outcome.data.value)).steps)
    else fs
  }

  /**
   * Two failed fetches in a row: no persist call, the entries unchanged,
   * one WARNING and then FAULTY, the last push being the null result's.
   */
  lemma TwoFailuresKeepEntries(l: Layout, fs: FsMap, serialize: Json -> seq<byte>,
                               first: FetchAttempt, second: FetchAttempt)
    requires Retries(first) && Retries(second)
    ensures CycleEntries(l, fs, serialize, first, second) == fs
    ensures var r := CycleTrace(l, fs, serialize, first, second);
            r == RunTrace([FetchCalled, StatePushed(Warning, Some(RetryMessage())), Slept(RetryPauseMillis), FetchCalled,
                           StatePushed(Faulty, Some(TwoFailuresMessage)), StatePushed(Faulty, Some(NoDataMessage))], None)
  {
  }

  /**
   * A cycle ends with READY exactly when data was fetched and persisted, and
   * then the target holds exactly that data serialised.
   */
  lemma ReadyMeansPublished(l: Layout, fs: FsMap, serialize: Json -> seq<byte>,
                            first: FetchAttempt, second: FetchAttempt)
    ensures var r := CycleTrace(l, fs, serialize, first, second);
            var f := FetchSpec(first, second);
            (r.events[|r.events| - 1] == StatePushed(Ready, None))
            <==> (f.outcome.FetchReturned? && f.outcome.data.Some?
                  && PersistRun(l, fs, serialize(f.outcome.data.value)).result.Done?)
    ensures var r := CycleTrace(l, fs, serialize, first, second);
            var f := FetchSpec(first, second);
            r.events[|r.events| - 1] == StatePushed(Ready, None) ==>
              Lookup(CycleEntries(l, fs, serialize, first, second), l.target)
              == Some(File(serialize(f.outcome.data.value)))
  {
    var f := FetchSpec(first, second);
    var r := CycleTrace(l, fs, serialize, first, second);
    FetchEventsPlain(first, second);
    RunCatchesExceptions(first, second, PersistOn(l, fs, serialize));
    if f.outcome.FetchReturned? && f.outcome.data.Some? {
      PersistPublishes(l, fs, serialize(f.outcome.data.value));
    }
  }

  /**
   * With the staging file apart from the target, a cycle leaves the target
   * as it was or holding the fetched data; a cycle that does not end with
   * READY leaves it as it was.
   */
  lemma TargetOldOrNew(l: Layout, fs: FsMap, serialize: Json -> seq<byte>,
                       first: FetchAttempt, second: FetchAttempt)
    requires Consistent(l) && Separated(l)
    ensures var r := CycleTrace(l, fs, serialize, first, second);
            r.events[|r.events| - 1] != StatePushed(Ready, None) ==>
              Lookup(CycleEntries(l, fs, serialize, first, second), l.target) == Lookup(fs, l.target)
  {
    var f := FetchSpec(first, second);
    ReadyMeansPublished(l, fs, serialize, first, second);
    if f.outcome.FetchReturned? && f.outcome.data.Some? {
      PersistFailureKeepsTarget(l, fs, serialize(f.outcome.data.value));
    }
  }

  /**
   * Recovery within a cycle: the first fetch throws a CallErrorException,
   * the retry fetches the categories, and the persist succeeds.  There is
   * one WARNING, then READY, and the target holds the fetched array, one
   * wrapped answer per category in order.
   */
  lemma RecoveryPublishesCategories(l: Layout, fs: FsMap, serialize: Json -> seq<byte>,
                                    names: seq<string>, client: Client)
    requires FetchResult(names, client).Ok?
    requires PersistRun(l, fs, serialize(FetchResult(names, client).value)).result.Done?
    ensures var d := FetchResult(names, client).value;
            var r := CycleTrace(l, fs, serialize, Threw(CallError("catch me")), Attempt(FetchResult(names, client)));
            r == RunTrace([FetchCalled, StatePushed(Warning, Some(RetryMessage())), Slept(180000), FetchCalled,
                           PersistCalled(d), StatePushed(Ready, None)], None)
            && Lookup(CycleEntries(l, fs, serialize, Threw(CallError("catch me")), Attempt(FetchResult(names, client))),
                      l.target) == Some(File(serialize(d)))
            && d.JsonArray? && |d.elements| == |names|
            && forall i :: 0 <= i < |names| ==> d.elements[i] == Wrap(names[i], client(i, names[i]).value)
  {
    var d := FetchResult(names, client).value;
    FetchShape(names, client);
    FetchRetryScenario(d, PersistOn(l, fs, serialize));
    PersistPublishes(l, fs, serialize(d));
  }
}
