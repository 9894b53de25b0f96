/** The conformance harness's job scheduler: bounded parallelism, fail-fast, ordered
    results (conformance/harness/scheduler.go). */
module Scheduler {

  datatype PlanResult = PlanResult(failed: bool, detail: int)

  /** `scheduledResult`. */
  datatype Report = Report(index: nat, result: PlanResult)

  datatype Config = Config(limit: int, failFast: bool)

  /** What happens, in order: the loop starts the next job, a job's goroutine sends its
      report to the buffered channel, the loop receives the oldest report. */
  datatype Event = Launch | Send(report: Report) | Receive

  /** `executing` are the goroutines that have not sent yet; what is in the channel has not been received yet. */
  datatype State = State(next: nat, executing: set<nat>, channel: seq<Report>, received: seq<Report>)

  const START := State(0, {}, [], [])

  function Apply(s: State, e: Event): State {
    match e
    case Launch => s.(next := s.next + 1, executing := s.executing + {s.next})
    case Send(r) => s.(executing := s.executing - {r.index}, channel := s.channel + [r])
    case Receive =>
      if s.channel == [] then s else s.(channel := s.channel[1..], received := s.received + [s.channel[0]])
  }

  /** A failure has been received, and the schedule is to stop at the first. */
  predicate Stopped(c: Config, s: State) {
    c.failFast && exists i :: 0 <= i < |s.received| && s.received[i].result.failed
  }

  /** Jobs launched and not yet received: what the source counts as running. */
  function Running(s: State): nat {
    |s.executing| + |s.channel|
  }

  predicate MayLaunch(c: Config, jobs: nat, s: State) {
    s.next < jobs && Running(s) < c.limit && !Stopped(c, s)
  }

  predicate Legal(c: Config, jobs: nat, s: State, e: Event) {
    match e
    case Launch => MayLaunch(c, jobs, s)
    case Send(r) => r.index in s.executing && |s.channel| < jobs
    case Receive => s.channel != [] && !MayLaunch(c, jobs, s)
  }

  function Replay(trace: seq<Event>): State {
    if trace == [] then START else Apply(Replay(trace[..|trace| - 1]), trace[|trace| - 1])
  }

  ghost predicate LegalTrace(c: Config, jobs: nat, trace: seq<Event>) {
    forall k {:trigger LegalAt(c, jobs, trace, k)} :: 0 <= k < |trace| ==> LegalAt(c, jobs, trace, k)
  }

  predicate LegalAt(c: Config, jobs: nat, trace: seq<Event>, k: nat)
    requires k < |trace|
  {
    Legal(c, jobs, Replay(trace[..k]), trace[k])
  }

  /** The loop waits only when there is nothing it may start: everything has been, or the limit
      is reached, or a failure has stopped it. */
  lemma WaitsOnlyWhenFull(c: Config, jobs: nat, trace: seq<Event>, k: nat)
    requires LegalTrace(c, jobs, trace) && k < |trace| && trace[k] == Receive
    ensures var s := Replay(trace[..k]);
            s.next >= jobs || |s.executing| + |s.channel| >= c.limit
            || (c.failFast && exists i :: 0 <= i < |s.received| && s.received[i].result.failed)
  {
    assert LegalAt(c, jobs, trace, k);
  }

  lemma ReplayStep(trace: seq<Event>, e: Event)
    ensures Replay(trace + [e]) == Apply(Replay(trace), e)
  {}

  lemma LegalStep(c: Config, jobs: nat, trace: seq<Event>, e: Event)
    requires LegalTrace(c, jobs, trace) && Legal(c, jobs, Replay(trace), e)
    ensures LegalTrace(c, jobs, trace + [e])
  {
    var trace' := trace + [e];
    forall k | 0 <= k < |trace'| ensures LegalAt(c, jobs, trace', k) {
      assert trace'[..k] == trace[..k];
      if k < |trace| {
        assert LegalAt(c, jobs, trace, k);
      } else {
        assert trace[..k] == trace;
      }
    }
  }

  /** One step of a legal schedule. */
  lemma PrefixStep(c: Config, jobs: nat, trace: seq<Event>, k: nat)
    requires LegalTrace(c, jobs, trace) && k < |trace|
    ensures Legal(c, jobs, Replay(trace[..k]), trace[k])
    ensures Replay(trace[..k + 1]) == Apply(Replay(trace[..k]), trace[k])
  {
    assert LegalAt(c, jobs, trace, k);
    assert trace[..k + 1] == trace[..k] + [trace[k]];
    ReplayStep(trace[..k], trace[k]);
  }

  function Reports(s: State): seq<Report> {
    s.received + s.channel
  }

  /** Every launched job is either executing or has one report, received or in the channel. */
  ghost predicate Accounted(jobs: nat, s: State) {
    && s.next <= jobs
    && |s.executing| + |Reports(s)| == s.next
    && (forall i :: i in s.executing ==> i < s.next)
    && (forall k :: 0 <= k < |Reports(s)| ==> Reports(s)[k].index < s.next && Reports(s)[k].index !in s.executing)
    && (forall k, k' :: 0 <= k < k' < |Reports(s)| ==> Reports(s)[k].index != Reports(s)[k'].index)
  }

  lemma StepKeepsAccounts(c: Config, jobs: nat, s: State, e: Event)
    requires Accounted(jobs, s) && Running(s) <= c.limit && Legal(c, jobs, s, e)
    ensures Accounted(jobs, Apply(s, e)) && Running(Apply(s, e)) <= c.limit
  {
    var s' := Apply(s, e);
    match e {
      case Launch =>
        assert s.next !in s.executing;
      case Send(r) =>
        assert |s'.executing| == |s.executing| - 1;
        assert Reports(s') == Reports(s) + [r];
      case Receive =>
        assert Reports(s') == Reports(s);
    }
  }

  /** At every point of every schedule at most the limit are running, every launched job is
      accounted for exactly once, and a goroutine about to send finds room in the channel. */
  lemma {:induction false} NeverTooManyNeverBlocked(c: Config, jobs: nat, trace: seq<Event>, k: nat)
    requires 0 <= c.limit && LegalTrace(c, jobs, trace) && k <= |trace|
    ensures Running(Replay(trace[..k])) <= c.limit
    ensures Accounted(jobs, Replay(trace[..k]))
    ensures Replay(trace[..k]).executing != {} ==> |Replay(trace[..k]).channel| < jobs
  {
    if k > 0 {
      NeverTooManyNeverBlocked(c, jobs, trace, k - 1);
      PrefixStep(c, jobs, trace, k - 1);
      StepKeepsAccounts(c, jobs, Replay(trace[..k - 1]), trace[k - 1]);
    }
  }

  /** Work left; every event of a legal schedule uses some up. */
  function Left(jobs: nat, s: State): int {
    3 * (jobs - s.next) + 2 * |s.executing| + |s.channel|
  }

  lemma EventsUseUpWork(c: Config, jobs: nat, s: State, e: Event)
    requires Accounted(jobs, s) && Legal(c, jobs, s, e)
    ensures Left(jobs, Apply(s, e)) < Left(jobs, s)
  {}

  /** So a schedule of n jobs has at most 3n events. */
  lemma {:induction false} SchedulesEnd(c: Config, jobs: nat, trace: seq<Event>, k: nat)
    requires 0 <= c.limit && LegalTrace(c, jobs, trace) && k <= |trace|
    ensures Left(jobs, Replay(trace[..k])) + k <= 3 * jobs
  {
    if k > 0 {
      SchedulesEnd(c, jobs, trace, k - 1);
      NeverTooManyNeverBlocked(c, jobs, trace, k - 1);
      PrefixStep(c, jobs, trace, k - 1);
      EventsUseUpWork(c, jobs, Replay(trace[..k - 1]), trace[k - 1]);
    }
  }

  /** The reports are exactly what the goroutines sent. */
  lemma {:induction false} ReportsWereSent(trace: seq<Event>)
    ensures forall k :: 0 <= k < |Reports(Replay(trace))| ==> Send(Reports(Replay(trace))[k]) in trace
    ensures forall r :: Send(r) in trace ==> r in Reports(Replay(trace))
  {
    if trace != [] {
      var n := |trace| - 1;
      ReportsWereSent(trace[..n]);
      var s, s' := Replay(trace[..n]), Replay(trace);
      assert trace == trace[..n] + [trace[n]];
      if trace[n].Send? {
        assert Reports(s') == Reports(s) + [trace[n].report];
      } else {
        assert Reports(s') == Reports(s);
      }
    }
  }

  /** After a failure has been received a fail-fast schedule launches nothing more. */
  lemma {:induction false} NothingLaunchedAfterFailure(c: Config, jobs: nat, trace: seq<Event>, k: nat, m: nat)
    requires LegalTrace(c, jobs, trace) && k <= m <= |trace| && Stopped(c, Replay(trace[..k]))
    ensures Stopped(c, Replay(trace[..m])) && Replay(trace[..m]).next == Replay(trace[..k]).next
    ensures m < |trace| ==> trace[m] != Launch
    decreases m
  {
    if k < m {
      NothingLaunchedAfterFailure(c, jobs, trace, k, m - 1);
      PrefixStep(c, jobs, trace, m - 1);
      var s, s' := Replay(trace[..m - 1]), Replay(trace[..m]);
      var i :| 0 <= i < |s.received| && s.received[i].result.failed;
      assert s'.received[i] == s.received[i];
    }
    if m < |trace| {
      assert LegalAt(c, jobs, trace, m);
    }
  }

  // ---- Putting the results in order ----

  predicate InOrder(s: seq<Report>) {
    forall i, j :: 0 <= i < j < |s| ==> s[i].index < s[j].index
  }

  predicate DistinctIndices(s: seq<Report>) {
    forall i, j :: 0 <= i < j < |s| ==> s[i].index != s[j].index
  }

  /** `sort.Slice` by index. */
  method SortByIndex(results: seq<Report>) returns (sorted: seq<Report>)
    requires DistinctIndices(results)
    ensures InOrder(sorted) && |sorted| == |results|
    ensures forall r :: r in sorted <==> r in results
  {
    sorted := [];
    for n := 0 to |results|
      invariant InOrder(sorted) && |sorted| == n
      invariant forall r :: r in sorted <==> r in results[..n]
    {
      assert results[..n + 1] == results[..n] + [results[n]];
      forall i | 0 <= i < |sorted| ensures sorted[i].index != results[n].index {
        assert sorted[i] in results[..n];
      }
      sorted := Insert(sorted, results[n]);
    }
    assert results[..|results|] == results;
  }

  method Insert(sorted: seq<Report>, r: Report) returns (longer: seq<Report>)
    requires InOrder(sorted) && forall i :: 0 <= i < |sorted| ==> sorted[i].index != r.index
    ensures InOrder(longer) && |longer| == |sorted| + 1
    ensures forall x :: x in longer <==> x in sorted || x == r
  {
    var at := |sorted|;
    while at > 0 && r.index < sorted[at - 1].index
      invariant 0 <= at <= |sorted|
      invariant forall i :: at <= i < |sorted| ==> r.index < sorted[i].index
    {
      at := at - 1;
    }
    longer := sorted[..at] + [r] + sorted[at..];
    InsertedInOrder(sorted, at, r);
    InsertedMembers(sorted, at, r);
  }

  lemma InsertedInOrder(sorted: seq<Report>, at: nat, r: Report)
    requires InOrder(sorted) && at <= |sorted|
    requires at > 0 ==> sorted[at - 1].index < r.index
    requires at < |sorted| ==> r.index < sorted[at].index
    ensures InOrder(sorted[..at] + [r] + sorted[at..])
  {}

  lemma InsertedMembers(sorted: seq<Report>, at: nat, r: Report)
    requires at <= |sorted|
    ensures forall x :: x in sorted[..at] + [r] + sorted[at..] <==> x in sorted || x == r
  {}

  /** n distinct indices below n, in order, are 0, 1, 2, ... */
  lemma OrderedIndices(s: seq<Report>, i: nat)
    requires InOrder(s) && i < |s| && forall k :: 0 <= k < |s| ==> s[k].index < |s|
    ensures s[i].index == i
  {
    AtLeast(s, i);
    AtMost(s, i);
  }

  lemma {:induction false} AtLeast(s: seq<Report>, i: nat)
    requires InOrder(s) && i < |s|
    ensures i <= s[i].index
  {
    if i > 0 {
      AtLeast(s, i - 1);
    }
  }

  lemma {:induction false} AtMost(s: seq<Report>, i: nat)
    requires InOrder(s) && i < |s| && forall k :: 0 <= k < |s| ==> s[k].index < |s|
    ensures s[i].index <= i
    decreases |s| - i
  {
    if i < |s| - 1 {
      AtMost(s, i + 1);
    }
  }

  // ---- The scheduler ----

  /** `scheduleJobs`. What each job returns, and when, is left entirely open. The result is
      the ordered results and the schedule that took place. */
  method ScheduleJobs(cfg: Config, jobs: nat) returns (ordered: seq<PlanResult>, trace: seq<Event>)
    ensures LegalTrace(Effective(cfg), jobs, trace)
    ensures Replay(trace).executing == {} && Replay(trace).channel == [] && |ordered| == Replay(trace).next
    ensures forall i :: 0 <= i < |ordered| ==> Send(Report(i, ordered[i])) in trace
    ensures |ordered| == jobs || (cfg.failFast && exists i :: 0 <= i < |ordered| && ordered[i].failed)
  {
    var c := cfg;
    if c.limit <= 0 {
      c := c.(limit := 1);
    }
    if jobs == 0 {
      return [], [];
    }
    var results;
    results, trace := RunAll(c, jobs);
    var s := Replay(trace);
    assert Reports(s) == results;
    var sorted := SortByIndex(results);
    ordered := [];
    for i := 0 to |sorted|
      invariant |ordered| == i && forall k :: 0 <= k < i ==> ordered[k] == sorted[k].result
    {
      ordered := ordered + [sorted[i].result];
    }
    ReportsWereSent(trace);
    forall i | 0 <= i < |ordered| ensures Send(Report(i, ordered[i])) in trace {
      forall k | 0 <= k < |sorted| ensures sorted[k].index < |sorted| {
        assert sorted[k] in results;
      }
      assert sorted[i] in results;
      OrderedIndices(sorted, i);
    }
    if |ordered| < jobs {
      var k :| 0 <= k < |results| && results[k].result.failed;
      assert results[k] in sorted;
      var i :| 0 <= i < |sorted| && sorted[i] == results[k];
      assert ordered[i].failed;
    }
  }

  /** The limit asked for holds at every point; one that is not positive means one at a time. */
  lemma LimitHolds(cfg: Config, jobs: nat, trace: seq<Event>, k: nat)
    requires LegalTrace(Effective(cfg), jobs, trace) && k <= |trace|
    ensures Running(Replay(trace[..k])) <= if cfg.limit > 0 then cfg.limit else 1
  {
    NeverTooManyNeverBlocked(Effective(cfg), jobs, trace, k);
  }

  function Effective(cfg: Config): Config {
    if cfg.limit <= 0 then cfg.(limit := 1) else cfg
  }

  /** The loop of `scheduleJobs`: fill up to the limit, wait for a report, repeat. When
      nothing runs any more all senders are done, and the closed channel is empty. */
  method RunAll(c: Config, jobs: nat) returns (results: seq<Report>, trace: seq<Event>)
    requires 0 < c.limit
    ensures LegalTrace(c, jobs, trace) && Accounted(jobs, Replay(trace))
    ensures Replay(trace) == State(|results|, {}, [], results)
    ensures |results| == jobs || Stopped(c, Replay(trace))
  {
    var next, running, stopLaunching := 0, 0, false;
    var channel: seq<Report>, executing: set<nat> := [], {};
    results, trace := [], [];
    while true
      invariant LegalTrace(c, jobs, trace) && Accounted(jobs, Replay(trace))
      invariant Replay(trace) == State(next, executing, channel, results)
      invariant running == Running(Replay(trace)) <= c.limit && (stopLaunching <==> Stopped(c, Replay(trace)))
      decreases jobs - |results|
    {
      if !stopLaunching {
        next, running, executing, channel, trace :=
          LaunchJobs(c, jobs, next, running, executing, channel, results, trace);
      }
      if running == 0 {
        assert executing == {} && channel == [];
        break;
      }
      executing, channel, trace := GoroutinesRun(c, jobs, executing, channel, trace, true);
      var result := channel[0];
      Extend(c, jobs, trace, Receive);
      trace := trace + [Receive];
      StoppedAfter(c, results, result);
      channel, results, running := channel[1..], results + [result], running - 1;
      if c.failFast && result.result.failed {
        stopLaunching := true;
      }
    }
  }

  /** The inner loop: start jobs up to the limit, while goroutines finish as they please. */
  method LaunchJobs(c: Config, jobs: nat, next0: nat, running0: nat, executing0: set<nat>, channel0: seq<Report>,
                    results: seq<Report>, trace0: seq<Event>)
    returns (next: nat, running: nat, executing: set<nat>, channel: seq<Report>, trace: seq<Event>)
    requires LegalTrace(c, jobs, trace0) && Accounted(jobs, Replay(trace0)) && !Stopped(c, Replay(trace0))
    requires Replay(trace0) == State(next0, executing0, channel0, results)
    requires running0 == Running(Replay(trace0)) <= c.limit
    ensures LegalTrace(c, jobs, trace) && Accounted(jobs, Replay(trace)) && !Stopped(c, Replay(trace))
    ensures Replay(trace) == State(next, executing, channel, results)
    ensures running == Running(Replay(trace)) <= c.limit && !(next < jobs && running < c.limit)
  {
    next, running, executing, channel, trace := next0, running0, executing0, channel0, trace0;
    while next < jobs && running < c.limit
      invariant LegalTrace(c, jobs, trace) && Accounted(jobs, Replay(trace)) && !Stopped(c, Replay(trace))
      invariant Replay(trace) == State(next, executing, channel, results)
      invariant running == Running(Replay(trace)) <= c.limit
    {
      executing, channel, trace := GoroutinesRun(c, jobs, executing, channel, trace, false);
      Extend(c, jobs, trace, Launch);
      trace := trace + [Launch];
      executing := executing + {next};
      running, next := running + 1, next + 1;
    }
  }

  lemma StoppedAfter(c: Config, results: seq<Report>, r: Report)
    ensures forall next, executing, channel, channel' ::
              Stopped(c, State(next, executing, channel', results + [r])) <==>
                Stopped(c, State(next, executing, channel, results)) || (c.failFast && r.result.failed)
  {
    var longer := results + [r];
    assert longer[|results|] == r;
    assert forall i :: 0 <= i < |results| ==> longer[i] == results[i];
  }

  /** A legal event keeps the trace legal and the accounts straight. */
  lemma Extend(c: Config, jobs: nat, trace: seq<Event>, e: Event)
    requires LegalTrace(c, jobs, trace) && Accounted(jobs, Replay(trace)) && Running(Replay(trace)) <= c.limit
    requires Legal(c, jobs, Replay(trace), e)
    ensures LegalTrace(c, jobs, trace + [e]) && Replay(trace + [e]) == Apply(Replay(trace), e)
    ensures Accounted(jobs, Replay(trace + [e])) && Running(Replay(trace + [e])) <= c.limit
  {
    ReplayStep(trace, e);
    LegalStep(c, jobs, trace, e);
    StepKeepsAccounts(c, jobs, Replay(trace), e);
  }

  /** Before a launch, and while the loop waits for a report, any of the goroutines finish,
      in any order; a waiting loop goes on when there is something in the channel. */
  method GoroutinesRun(c: Config, jobs: nat, executing: set<nat>, channel: seq<Report>, trace: seq<Event>,
                       waiting: bool)
    returns (executing': set<nat>, channel': seq<Report>, trace': seq<Event>)
    requires LegalTrace(c, jobs, trace) && Accounted(jobs, Replay(trace)) && Running(Replay(trace)) <= c.limit
    requires waiting ==> 0 < Running(Replay(trace))
    requires executing == Replay(trace).executing && channel == Replay(trace).channel
    ensures LegalTrace(c, jobs, trace') && Accounted(jobs, Replay(trace')) && (waiting ==> channel' != [])
    ensures Replay(trace') == Replay(trace).(executing := executing', channel := channel')
    ensures Running(Replay(trace')) == Running(Replay(trace))
  {
    executing', channel', trace' := executing, channel, trace;
    var another: bool := *;
    while executing' != {} && (another || (waiting && channel' == []))
      invariant LegalTrace(c, jobs, trace') && Accounted(jobs, Replay(trace'))
      invariant Replay(trace') == Replay(trace).(executing := executing', channel := channel')
      invariant Running(Replay(trace')) == Running(Replay(trace))
      decreases |executing'|
    {
      var index :| index in executing';
      var result: PlanResult := *;
      var e := Send(Report(index, result));
      Extend(c, jobs, trace', e);
      assert |executing' - {index}| == |executing'| - 1;
      executing', channel', trace' := executing' - {index}, channel' + [Report(index, result)], trace' + [e];
      another := *;
    }
  }
}
