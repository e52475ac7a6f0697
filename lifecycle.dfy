/**
 * The lifecycle: one scheduled run fetches the data, retrying once after a
 * fixed pause, persists it and reports the application state; start and stop
 * manage the scheduler.  The fetcher's and the persister's answers are
 * parameters, and everything the run does that others can see is recorded
 * as a trace of events.
 */
module Lifecycle {
  import opened Wrappers
  import opened Json
  import opened Exceptions

  datatype AppState = Ready | Warning | Faulty

  /** One visible effect of a run, in the order the run makes them. */
  datatype Event =
    | FetchCalled                                         // fetcher.fetch()
    | StatePushed(state: AppState, message: Option<string>)  // facet.setAppState
    | Slept(millis: nat)                                  // timeUtils.sleepForMillis
    | PersistCalled(data: Json)                           // persister.persist

  /** How one call of fetcher.fetch() ends: data (or null), or a throw. */
  datatype FetchAttempt = Returned(data: Option<Json>) | Threw(exc: Exc)

  /** How the lifecycle's own fetch() ends: data (or null), or a throw it does not catch. */
  datatype FetchOutcome = FetchReturned(data: Option<Json>) | FetchThrew(exc: Exc)

  datatype FetchRun = FetchRun(events: seq<Event>, outcome: FetchOutcome)

  /** The events of one run, and the throwable that escapes it, if one does. */
  datatype RunTrace = RunTrace(events: seq<Event>, escaped: Option<Exc>)

  /** retryPauseMillis: three minutes. */
  const RetryPauseMillis: nat := 3 * 60 * 1000

  const DefaultInterval: int := 3600
  const DefaultIntervalUnit: string := "SECONDS"

  function DigitChar(d: nat): char
    requires d < 10
  {
    (48 + d) as char
  }

  /** Long.toString for a non-negative value. */
  function DecimalString(n: nat): (s: string)
    ensures |s| >= 1 && forall i :: 0 <= i < |s| ==> '0' <= s[i] <= '9'
    ensures n >= 10 ==> s[0] != '0'
  {
    if n < 10 then [DigitChar(n)] else DecimalString(n / 10) + [DigitChar(n % 10)]
  }

  /** The value of a string of decimal digits. */
  function DecimalValue(s: string): nat
    requires forall i :: 0 <= i < |s| ==> '0' <= s[i] <= '9'
  {
    if s == [] then 0 else 10 * DecimalValue(s[..|s| - 1]) + (s[|s| - 1] as int - 48)
  }

  /** Reading the digits back gives the number. */
  lemma {:induction false} DecimalRoundTrip(n: nat)
    ensures DecimalValue(DecimalString(n)) == n
  {
    var s := DecimalString(n);
    if n >= 10 {
      DecimalRoundTrip(n / 10);
      assert s[..|s| - 1] == DecimalString(n / 10);
    }
  }

  function RetryMessage(): string {
    "Fetching RDS data failed. Will rertry in " + DecimalString(RetryPauseMillis / 1000) + " seconds"
  }

  const TwoFailuresMessage: string := "Fetching RDS data failed two times in a row"
  const NoDataMessage: string := "Failed to receive good RDS data"

  function RunFailedMessage(e: Exc): string {
    "Downloading/Persisting data failed: " + Describe(e)
  }

  lemma RetryPauseDigits()
    ensures DecimalString(RetryPauseMillis / 1000) == "180"
  {
    assert DecimalString(1) == "1";
    assert DecimalString(18) == DecimalString(1) + "8";
    assert DecimalString(180) == DecimalString(18) + "0";
  }

  /**
   * fetch(): one call of the fetcher; when it throws an IOException or a
   * CallErrorException, a WARNING, the pause and exactly one more call; when
   * that one throws such an exception too, FAULTY and null.  Other
   * throwables leave fetch() as they are.
   */
  function FetchSpec(first: FetchAttempt, second: FetchAttempt): FetchRun {
    match first
    case Returned(d) => FetchRun([FetchCalled], FetchReturned(d))
    case Threw(e) =>
      if !IsIoOrCallError(e) then FetchRun([FetchCalled], FetchThrew(e))
      else
        var retried := [FetchCalled, StatePushed(Warning, Some(RetryMessage())), Slept(RetryPauseMillis), FetchCalled];
        match second
        case Returned(d) => FetchRun(retried, FetchReturned(d))
        case Threw(e2) =>
          if !IsIoOrCallError(e2) then FetchRun(retried, FetchThrew(e2))
          else FetchRun(retried + [StatePushed(Faulty, Some(TwoFailuresMessage))], FetchReturned(None))
  }

  /** `catch (Exception e)` of singleRun: a FAULTY report, or the throwable passes on. */
  function CatchAll(events: seq<Event>, e: Exc): RunTrace {
    if IsException(e) then RunTrace(events + [StatePushed(Faulty, Some(RunFailedMessage(e)))], None)
    else RunTrace(events, Some(e))
  }

  /**
   * singleRun(): fetch(); null is reported FAULTY; data is persisted and
   * then READY is reported; anything thrown on the way is caught by CatchAll.
   */
  function SingleRunSpec(first: FetchAttempt, second: FetchAttempt, persist: Json -> Completion): RunTrace {
    var f := FetchSpec(first, second);
    match f.outcome
    case FetchThrew(e) => CatchAll(f.events, e)
    case FetchReturned(None) => RunTrace(f.events + [StatePushed(Faulty, Some(NoDataMessage))], None)
    case FetchReturned(Some(d)) =>
      var called := f.events + [PersistCalled(d)];
      match persist(d)
      case Normal => RunTrace(called + [StatePushed(Ready, None)], None)
      case Thrown(e) => CatchAll(called, e)
  }

  /** Whether the first call's failure makes fetch() try again. */
  predicate Retries(first: FetchAttempt) {
    first.Threw? && IsIoOrCallError(first.exc)
  }

  /** One run calls the fetcher once, or twice exactly when the first call failed with a retried exception. */
  lemma FetchCalledOnceOrTwice(first: FetchAttempt, second: FetchAttempt)
    ensures var n := multiset(FetchSpec(first, second).events)[FetchCalled];
            1 <= n <= 2 && (n == 2 <==> Retries(first))
    ensures FetchSpec(first, second).events[0] == FetchCalled
  {
  }

  /** A first call that returns needs no WARNING and no pause, and its result is returned as it is. */
  lemma FirstSuccessPassesThrough(first: FetchAttempt, second: FetchAttempt)
    requires first.Returned?
    ensures var f := FetchSpec(first, second);
            f.outcome == FetchReturned(first.data)
            && forall i :: 0 <= i < |f.events| ==> !f.events[i].Slept? && !f.events[i].StatePushed?
  {
  }

  /**
   * After a retried failure the run reports WARNING with the pause in
   * seconds, then sleeps the pause, then calls the fetcher once more, whose
   * result decides the outcome.
   */
  lemma RetryFollowsWarningAndPause(first: FetchAttempt, second: FetchAttempt)
    requires Retries(first)
    ensures var f := FetchSpec(first, second);
            4 <= |f.events| <= 5
            && f.events[..4] == [FetchCalled, StatePushed(Warning, Some(RetryMessage())), Slept(180000), FetchCalled]
            && (second.Returned? ==> f.outcome == FetchReturned(second.data))
            && (second.Threw? && !IsIoOrCallError(second.exc) ==> f.outcome == FetchThrew(second.exc))
    ensures RetryMessage() == "Fetching RDS data failed. Will rertry in " + "180" + " seconds"
  {
    RetryPauseDigits();
    var f := FetchSpec(first, second);
    assert f.events[..4] == [FetchCalled, StatePushed(Warning, Some(RetryMessage())), Slept(RetryPauseMillis), FetchCalled];
  }

  /** Two retried failures in a row: FAULTY is reported and fetch() returns null. */
  lemma TwoFailuresReportFaulty(first: FetchAttempt, second: FetchAttempt)
    requires Retries(first) && Retries(second)
    ensures var f := FetchSpec(first, second);
            f.outcome == FetchReturned(None) && |f.events| == 5
            && f.events[4] == StatePushed(Faulty, Some(TwoFailuresMessage))
  {
  }

  /** fetch() neither persists nor reports READY. */
  lemma FetchEventsPlain(first: FetchAttempt, second: FetchAttempt)
    ensures var f := FetchSpec(first, second);
            forall i :: 0 <= i < |f.events| ==> !f.events[i].PersistCalled? && f.events[i] != StatePushed(Ready, None)
                                                && !(f.events[i].StatePushed? && f.events[i].state == Ready)
  {
  }

  /**
   * The persister is called at most once, only with the data fetch()
   * returned, and always when fetch() returned data: right after fetch()'s
   * own events.
   */
  lemma PersistAtMostOnce(first: FetchAttempt, second: FetchAttempt, persist: Json -> Completion)
    ensures var r := SingleRunSpec(first, second, persist);
            var n := |FetchSpec(first, second).events|;
            forall d :: FetchSpec(first, second).outcome == FetchReturned(Some(d)) ==>
              |r.events| > n && r.events[n] == PersistCalled(d)
    ensures var r := SingleRunSpec(first, second, persist);
            forall i, j :: (0 <= i < |r.events| && 0 <= j < |r.events| && r.events[i].PersistCalled?
                            && r.events[j].PersistCalled?) ==> i == j
    ensures var r := SingleRunSpec(first, second, persist);
            forall i :: 0 <= i < |r.events| && r.events[i].PersistCalled? ==>
              FetchSpec(first, second).outcome == FetchReturned(Some(r.events[i].data))
  {
    FetchEventsPlain(first, second);
    var f := FetchSpec(first, second);
    var r := SingleRunSpec(first, second, persist);
    var n := |f.events|;
    if f.outcome.FetchReturned? && f.outcome.data.Some? {
      var d := f.outcome.data.value;
      var push := if persist(d).Normal? then StatePushed(Ready, None) else StatePushed(Faulty, Some(RunFailedMessage(persist(d).exc)));
      if persist(d).Normal? || IsException(persist(d).exc) {
        assert r.events == f.events + [PersistCalled(d), push];
      } else {
        assert r.events == f.events + [PersistCalled(d)];
      }
      assert forall i :: 0 <= i < |r.events| && r.events[i].PersistCalled? ==> i == n;
    } else {
      assert forall i :: n <= i < |r.events| ==> r.events[i].StatePushed?;
    }
  }

  /** A null result is reported FAULTY and the persister is not called. */
  lemma NullDataNotPersisted(first: FetchAttempt, second: FetchAttempt, persist: Json -> Completion)
    requires FetchSpec(first, second).outcome == FetchReturned(None)
    ensures var r := SingleRunSpec(first, second, persist);
            r.escaped == None && r.events[|r.events| - 1] == StatePushed(Faulty, Some(NoDataMessage))
            && forall i :: 0 <= i < |r.events| ==> !r.events[i].PersistCalled?
  {
    FetchEventsPlain(first, second);
  }

  predicate NoReady(events: seq<Event>) {
    forall i :: 0 <= i < |events| ==> !(events[i].StatePushed? && events[i].state == Ready)
  }

  /** READY appears only as the last event, right after a persister call that returned normally. */
  predicate ReadyAfterPersist(events: seq<Event>, persist: Json -> Completion) {
    forall i :: 0 <= i < |events| && events[i].StatePushed? && events[i].state == Ready ==>
      i == |events| - 1 && 1 <= i && events[i - 1].PersistCalled? && persist(events[i - 1].data) == Normal
  }

  lemma ReadyAfterPersistAppend(prefix: seq<Event>, tail: seq<Event>, persist: Json -> Completion)
    requires NoReady(prefix)
    requires NoReady(tail) || (|tail| == 2 && tail[0].PersistCalled? && persist(tail[0].data) == Normal
                               && tail[1] == StatePushed(Ready, None))
    ensures ReadyAfterPersist(prefix + tail, persist)
  {
    var ev := prefix + tail;
    assert forall k :: 0 <= k < |prefix| ==> ev[k] == prefix[k];
    forall i | 0 <= i < |ev| && ev[i].StatePushed? && ev[i].state == Ready
      ensures i == |ev| - 1 && 1 <= i && ev[i - 1].PersistCalled? && persist(ev[i - 1].data) == Normal
    {
      if i >= |prefix| {
        assert ev[i] == tail[i - |prefix|];
        assert ev[i - 1] == tail[0];
      }
    }
  }

  /** Where READY can appear: only as the last event, right after a persister call that returned normally. */
  lemma ReadyOnlyAfterPersist(first: FetchAttempt, second: FetchAttempt, persist: Json -> Completion)
    ensures ReadyAfterPersist(SingleRunSpec(first, second, persist).events, persist)
  {
    FetchEventsPlain(first, second);
    var f := FetchSpec(first, second);
    assert NoReady(f.events);
    var r := SingleRunSpec(first, second, persist);
    var tail: seq<Event>;
    match f.outcome {
      case FetchThrew(e) =>
        tail := if IsException(e) then [StatePushed(Faulty, Some(RunFailedMessage(e)))] else [];
      case FetchReturned(None) =>
        tail := [StatePushed(Faulty, Some(NoDataMessage))];
      case FetchReturned(Some(d)) =>
        match persist(d) {
          case Normal =>
            tail := [PersistCalled(d), StatePushed(Ready, None)];
          case Thrown(e) =>
            tail := [PersistCalled(d)] + (if IsException(e) then [StatePushed(Faulty, Some(RunFailedMessage(e)))] else []);
        }
    }
    assert r.events == f.events + tail;
    ReadyAfterPersistAppend(f.events, tail, persist);
  }

  /** READY is reported exactly when the fetched data was persisted and the persister returned normally. */
  lemma ReadyIffPersisted(first: FetchAttempt, second: FetchAttempt, persist: Json -> Completion)
    ensures var r := SingleRunSpec(first, second, persist);
            (exists i :: 0 <= i < |r.events| && r.events[i] == StatePushed(Ready, None))
            <==> (FetchSpec(first, second).outcome.FetchReturned? && FetchSpec(first, second).outcome.data.Some?
                  && persist(FetchSpec(first, second).outcome.data.value) == Normal)
  {
    FetchEventsPlain(first, second);
    var f := FetchSpec(first, second);
    var r := SingleRunSpec(first, second, persist);
    var n := |f.events|;
    if f.outcome.FetchReturned? && f.outcome.data.Some? && persist(f.outcome.data.value) == Normal {
      assert r.events == f.events + [PersistCalled(f.outcome.data.value), StatePushed(Ready, None)];
      assert r.events[n + 1] == StatePushed(Ready, None);
    } else {
      assert forall i :: n <= i < |r.events| ==> r.events[i] != StatePushed(Ready, None);
    }
  }

  /**
   * Every exception is caught: only a java.lang.Error escapes a run; a run
   * that does not end by a throw ends with a state report; an exception is
   * reported FAULTY with its description.
   */
  lemma RunCatchesExceptions(first: FetchAttempt, second: FetchAttempt, persist: Json -> Completion)
    ensures var r := SingleRunSpec(first, second, persist);
            (r.escaped.Some? ==> !IsException(r.escaped.value))
            && (r.escaped.None? ==> |r.events| >= 1 && r.events[|r.events| - 1].StatePushed?)
    ensures var f := FetchSpec(first, second);
            f.outcome.FetchThrew? && IsException(f.outcome.exc) ==>
              SingleRunSpec(first, second, persist).events
              == f.events + [StatePushed(Faulty, Some(RunFailedMessage(f.outcome.exc)))]
    ensures var f := FetchSpec(first, second);
            forall d :: f.outcome == FetchReturned(Some(d)) && persist(d).Thrown? && IsException(persist(d).exc) ==>
              SingleRunSpec(first, second, persist).events
              == f.events + [PersistCalled(d), StatePushed(Faulty, Some(RunFailedMessage(persist(d).exc)))]
  {
  }

  /**
   * The retry scenario: the first call throws a CallErrorException, the
   * second returns data, the persister returns normally.  The run is one
   * WARNING, the pause, the second call, one persist and one READY.
   */
  lemma FetchRetryScenario(d: Json, persist: Json -> Completion)
    requires persist(d) == Normal
    ensures SingleRunSpec(Threw(CallError("catch me")), Returned(Some(d)), persist)
            == RunTrace([FetchCalled, StatePushed(Warning, Some(RetryMessage())), Slept(180000), FetchCalled,
                         PersistCalled(d), StatePushed(Ready, None)], None)
  {
  }

  /** java.util.concurrent.TimeUnit. */
  datatype TimeUnit = Nanoseconds | Microseconds | Milliseconds | Seconds | Minutes | Hours | Days

  function TimeUnitName(u: TimeUnit): string {
    match u
    case Nanoseconds => "NANOSECONDS"
    case Microseconds => "MICROSECONDS"
    case Milliseconds => "MILLISECONDS"
    case Seconds => "SECONDS"
    case Minutes => "MINUTES"
    case Hours => "HOURS"
    case Days => "DAYS"
  }

  /** TimeUnit.valueOf: the constant with that exact name, if there is one. */
  function TimeUnitValueOf(name: string): Option<TimeUnit> {
    if name == "NANOSECONDS" then Some(Nanoseconds)
    else if name == "MICROSECONDS" then Some(Microseconds)
    else if name == "MILLISECONDS" then Some(Milliseconds)
    else if name == "SECONDS" then Some(Seconds)
    else if name == "MINUTES" then Some(Minutes)
    else if name == "HOURS" then Some(Hours)
    else if name == "DAYS" then Some(Days)
    else None
  }

  /** valueOf and the names are inverse: each name gives its constant, and only names give one. */
  lemma TimeUnitNamesRoundTrip(u: TimeUnit, name: string)
    ensures TimeUnitValueOf(TimeUnitName(u)) == Some(u)
    ensures TimeUnitValueOf(name) == Some(u) ==> name == TimeUnitName(u)
  {
  }

  datatype Schedule = Schedule(interval: int, unit: TimeUnit)

  /**
   * The constructor's reads of "interval" (an integer, 3600 when missing)
   * and "intervalUnit" (a TimeUnit name, "SECONDS" when missing); an unknown
   * name makes TimeUnit.valueOf throw.
   */
  function ReadSchedule(intervalConfig: Option<int>, intervalUnitConfig: Option<string>): Result<Schedule, Exc> {
    var name := intervalUnitConfig.GetOr(DefaultIntervalUnit);
    match TimeUnitValueOf(name)
    case None => Err(IllegalArgument("No enum constant java.util.concurrent.TimeUnit." + name))
    case Some(u) => Ok(Schedule(intervalConfig.GetOr(DefaultInterval), u))
  }

  /** Without configuration a run is scheduled every 3600 seconds; a configured name is used as it is. */
  lemma ScheduleDefaults(intervalConfig: Option<int>, u: TimeUnit)
    ensures ReadSchedule(None, None) == Ok(Schedule(3600, Seconds))
    ensures ReadSchedule(intervalConfig, Some(TimeUnitName(u))) == Ok(Schedule(intervalConfig.GetOr(3600), u))
  {
    TimeUnitNamesRoundTrip(u, TimeUnitName(u));
    TimeUnitNamesRoundTrip(Seconds, DefaultIntervalUnit);
  }

  /** The scheduler: the current executor, if any, and the executors not shut down. */
  datatype Scheduler = Scheduler(current: Option<nat>, live: set<nat>, created: nat)

  /** start(): a new executor becomes the current one; a previous one is not shut down. */
  function StartScheduler(s: Scheduler): Scheduler {
    Scheduler(Some(s.created), s.live + {s.created}, s.created + 1)
  }

  /** stop(): shuts the current executor down; without one it throws a NullPointerException. */
  function StopScheduler(s: Scheduler): (Scheduler, Completion) {
    match s.current
    case None => (s, Thrown(NullPointer()))
    case Some(x) => (Scheduler(None, s.live - {x}, s.created), Normal)
  }

  /** Executors only come from start(), so every live one was created before. */
  predicate SchedulerValid(s: Scheduler) {
    (forall x :: x in s.live ==> x < s.created) && (s.current.Some? ==> s.current.value in s.live)
  }

  /** start and stop keep the scheduler valid; stop after start leaves what was live before. */
  lemma StartStopPreserve(s: Scheduler)
    requires SchedulerValid(s)
    ensures SchedulerValid(StartScheduler(s)) && SchedulerValid(StopScheduler(s).0)
    ensures StopScheduler(StartScheduler(s)) == (Scheduler(None, s.live, s.created + 1), Normal)
  {
    var t := StartScheduler(s);
    assert s.created !in s.live;
    assert t.live - {s.created} == s.live;
  }

  /** Starting twice and stopping once leaves the first executor running. */
  lemma StartTwiceLeaks(s: Scheduler)
    requires SchedulerValid(s)
    ensures var after := StopScheduler(StartScheduler(StartScheduler(s))).0;
            s.created in after.live && after.current.None?
  {
  }

  /** RdsDataLifecycle: the run, the pause it waits before the retry, and the scheduler. */
  class RdsDataLifecycle {
    const schedule: Schedule
    const retryPauseMillis: nat := RetryPauseMillis
    /** Every visible effect of the runs so far. */
    var trace: seq<Event>
    var scheduler: Scheduler

    /**
     * Reads the schedule from the configuration values "interval" and
     * "intervalUnit"; initially stopped, with no executor and nothing done.
     * An unknown unit name makes the Java constructor throw, and Create
     * models that path.
     */
    constructor (intervalConfig: Option<int>, intervalUnitConfig: Option<string>)
      requires ReadSchedule(intervalConfig, intervalUnitConfig).Ok?
      ensures schedule == ReadSchedule(intervalConfig, intervalUnitConfig).value
      ensures trace == [] && scheduler == Scheduler(None, {}, 0) && SchedulerValid(scheduler)
    {
      var interval := intervalConfig.GetOr(DefaultInterval);
      var unit := TimeUnitValueOf(intervalUnitConfig.GetOr(DefaultIntervalUnit));
      schedule := Schedule(interval, unit.value);
      trace := [];
      scheduler := Scheduler(None, {}, 0);
    }

    /** fetch(), with the answers of the fetcher's first and second call. */
    method Fetch(first: FetchAttempt, second: FetchAttempt) returns (r: FetchOutcome)
      modifies this
      ensures trace == old(trace) + FetchSpec(first, second).events
      ensures r == FetchSpec(first, second).outcome
      ensures scheduler == old(scheduler)
    {
      var rdsData: Option<Json> := None;
      trace := trace + [FetchCalled];
      if first.Threw? {
        if !IsIoOrCallError(first.exc) {
          r := FetchThrew(first.exc);
          return;
        }
        var msg2 := RetryMessage();
        trace := trace + [StatePushed(Warning, Some(msg2))];
        trace := trace + [Slept(retryPauseMillis)];
        trace := trace + [FetchCalled];
        if second.Threw? {
          if !IsIoOrCallError(second.exc) {
            r := FetchThrew(second.exc);
            return;
          }
          trace := trace + [StatePushed(Faulty, Some(TwoFailuresMessage))];
        } else {
          rdsData := second.data;
        }
      } else {
        rdsData := first.data;
      }
      r := FetchReturned(rdsData);
    }

    /** singleRun(), with the fetcher's answers and the persister. */
    method SingleRun(first: FetchAttempt, second: FetchAttempt, persist: Json -> Completion) returns (escaped: Option<Exc>)
      modifies this
      ensures trace == old(trace) + SingleRunSpec(first, second, persist).events
      ensures escaped == SingleRunSpec(first, second, persist).escaped
      ensures scheduler == old(scheduler)
    {
      var fetched := Fetch(first, second);
      var thrown: Option<Exc> := None;
      if fetched.FetchThrew? {
        thrown := Some(fetched.exc);
      } else if fetched.data.None? {
        trace := trace + [StatePushed(Faulty, Some(NoDataMessage))];
      } else {
        trace := trace + [PersistCalled(fetched.data.value)];
        var c := persist(fetched.data.value);
        if c.Thrown? {
          thrown := Some(c.exc);
        } else {
          trace := trace + [StatePushed(Ready, None)];
        }
      }
      escaped := None;
      if thrown.Some? {
        if IsException(thrown.value) {
          trace := trace + [StatePushed(Faulty, Some(RunFailedMessage(thrown.value)))];
        } else {
          escaped := thrown;
        }
      }
    }

    /** start(). */
    method Start()
      modifies this
      ensures scheduler == StartScheduler(old(scheduler)) && trace == old(trace)
    {
      scheduler := Scheduler(Some(scheduler.created), scheduler.live + {scheduler.created}, scheduler.created + 1);
    }

    /** stop(). */
    method Stop() returns (c: Completion)
      modifies this
      ensures (scheduler, c) == StopScheduler(old(scheduler)) && trace == old(trace)
    {
      if scheduler.current.None? {
        c := Thrown(NullPointer());
        return;
      }
      scheduler := Scheduler(None, scheduler.live - {scheduler.current.value}, scheduler.created);
      c := Normal;
    }
  }

  /**
   * `new RdsDataLifecycle(...)`: the constructed lifecycle, or the
   * IllegalArgumentException TimeUnit.valueOf throws for an unknown unit name.
   */
  method Create(intervalConfig: Option<int>, intervalUnitConfig: Option<string>) returns (r: Result<RdsDataLifecycle, Exc>)
    ensures r.Err? <==> ReadSchedule(intervalConfig, intervalUnitConfig).Err?
    ensures r.Err? ==> r.error == ReadSchedule(intervalConfig, intervalUnitConfig).error
    ensures r.Ok? ==> fresh(r.value) && r.value.schedule == ReadSchedule(intervalConfig, intervalUnitConfig).value
                      && r.value.trace == [] && r.value.scheduler == Scheduler(None, {}, 0)
  {
    var read := ReadSchedule(intervalConfig, intervalUnitConfig);
    if read.Err? {
      r := Err(read.error);
      return;
    }
    var lifecycle := new RdsDataLifecycle(intervalConfig, intervalUnitConfig);
    r := Ok(lifecycle);
  }
}
