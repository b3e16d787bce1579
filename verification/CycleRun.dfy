/** A region cycle as the scheduler sees it: it makes its requests through the same client, and it
    reports. The sweep and copy run as the state machine, page fetches included. One region, any of
    them, is watched down to its tables. */
module CycleRun {
  import opened Common
  import opened Esi
  import opened Fetch
  import opened Sweep
  import opened SweepInvariant
  import opened SweepTheorems
  import opened Orders
  import Checksum
  import Cycle
  import Delta

  /** What a cycle's error says to the scheduler: the first HTTP error wrapped in it, if any. */
  datatype Cause = Cause(http: Option<Response>)

  datatype Report = Report(err: Option<Cause>, resErr: Option<Cause>, deferred: bool, expires: int)

  predicate IsErrorLimited(c: Cause) {
    c.http.Some? && c.http.value.status == STATUS_ERROR_LIMITED
  }

  function RetryAfter(c: Cause): int {
    if c.http.Some? then c.http.value.retryAfter else 0
  }

  /** The cycle's own error comes before the one in its result. */
  function CauseOf(report: Report): Cause {
    if report.err.Some? then report.err.value
    else if report.resErr.Some? then report.resErr.value
    else Cause(None)
  }

  /** A moment of a run: the time, and how many responses had arrived, requests had been issued and
      cycles had run by then. */
  datatype Mark = Mark(at: nat, log: nat, req: nat, cycles: nat)

  /** Between the two moments only time passed. */
  predicate Idle(m: Mark, n: Mark) {
    m.at <= n.at && m.log == n.log && m.req == n.req && m.cycles == n.cycles
  }

  /** One cycle that ran: of which region and when, the budget its sweep began with, the steps of its
      sweep and copy, the exchanges of its page fetches, what it reported, whether the process had been
      told to end by then, and how it ended for the consumer if its region is the one watched. */
  datatype CycleRecord = CycleRecord(
    region: int, begin: Mark, end: Mark, budget: Option<int>, acts: seq<Action>, fetches: seq<seq<Exchange>>,
    report: Report, stopped: bool, ending: Option<Cycle.CycleEnd>)

  /** The HTTP error that ended a sweep, if one did. */
  function SweepHttp(s: State): Option<Response> {
    if s.sweeper.Returned? && s.sweeper.err.Some? && s.sweeper.err.value.FetchFailed? then s.sweeper.err.value.http
    else None
  }

  /** What a cycle reports, against how its machine ended and how it ended for the consumer. The expiry is
      the sweep's. Unless the process was ending: it is deferred exactly if the sweep was; its own error
      means that sweep and copy succeeded but the row was not refreshed, and is no HTTP error; the error in
      its result means a recorded failure or a deferral, and wraps the HTTP error that ended the sweep. */
  ghost predicate Truthful(report: Report, stopped: bool, e: Cycle.CycleEnd, s: State) {
    && report.expires == s.meta.expires
    && (e.Refreshed? ==> report.err.None? && report.resErr.None?)
    && (e.Refreshed? || e.RefreshUnrecorded? ==> BothSucceeded(s))
    && (!stopped ==>
          && (report.deferred <==> s.sweeper.Returned? && s.sweeper.err == Some(Deferred))
          && (report.err.Some? <==> BothSucceeded(s) && !e.Refreshed?)
          && (report.resErr.Some? <==> !e.Refreshed? && !e.RefreshUnrecorded?)
          && (report.err.Some? ==> report.err.value.http == None)
          && (report.resErr.Some? ==>
                match s.sweeper
                case Returned(Some(FetchFailed(http)), _) => report.resErr.value.http == http
                case _ => report.resErr.value.http == None))
  }

  /** Every cycle of the watched region ended somehow for the consumer, and reported truthfully. */
  ghost predicate Told(c: CycleRecord, watched: int, cfg: Fetch.Config) {
    && (c.ending.Some? <==> c.region == watched)
    && (c.ending.Some? ==>
          && Completed(cfg, c.budget, c.acts)
          && Truthful(c.report, c.stopped, c.ending.value, FinalState(cfg, c.budget, c.acts)))
  }

  ghost predicate AllTold(cycles: seq<CycleRecord>, watched: int, cfg: Fetch.Config) {
    cycles == [] || (AllTold(cycles[..|cycles| - 1], watched, cfg) && Told(cycles[|cycles| - 1], watched, cfg))
  }

  /** How the cycles of the watched region ended. */
  ghost function Endings(cycles: seq<CycleRecord>): seq<Cycle.CycleEnd> {
    if cycles == [] then []
    else
      Endings(cycles[..|cycles| - 1]) +
      if cycles[|cycles| - 1].ending.Some? then [cycles[|cycles| - 1].ending.value] else []
  }

  lemma {:induction false} EveryCycleTold(cycles: seq<CycleRecord>, watched: int, cfg: Fetch.Config, c: CycleRecord)
    requires AllTold(cycles, watched, cfg) && c in cycles
    ensures Told(c, watched, cfg)
  {
    if c != cycles[|cycles| - 1] {
      EveryCycleTold(cycles[..|cycles| - 1], watched, cfg, c);
    }
  }

  /** s is how the machine of a whole run ended. */
  ghost predicate Ended(acts: seq<Action>, cfg: Fetch.Config, budget: Option<int>, s: State) {
    Completed(cfg, budget, acts) && s == FinalState(cfg, budget, acts)
  }

  lemma ToldNow(c: CycleRecord, watched: int, cfg: Fetch.Config, s: State)
    requires Ended(c.acts, cfg, c.budget, s)
    requires c.ending.Some? <==> c.region == watched
    requires c.ending.Some? ==> Truthful(c.report, c.stopped, c.ending.value, s)
    ensures Told(c, watched, cfg)
  {
  }

  lemma ToldPush(cycles: seq<CycleRecord>, watched: int, cfg: Fetch.Config, c: CycleRecord)
    requires AllTold(cycles, watched, cfg) && Told(c, watched, cfg)
    ensures AllTold(cycles + [c], watched, cfg)
    ensures Endings(cycles + [c]) == Endings(cycles) + if c.ending.Some? then [c.ending.value] else []
  {
    assert (cycles + [c])[..|cycles|] == cycles;
  }

  /** The cycle issued no more requests than the page fetches of its sweep made attempts. */
  ghost predicate Counted(c: CycleRecord, cfg: Fetch.Config) {
    && Completed(cfg, c.budget, c.acts)
    && c.fetches == FinalState(cfg, c.budget, c.acts).fetches
    && c.begin.req <= c.end.req
    && c.end.req - c.begin.req <= Requests(c.fetches)
  }

  /** The responses among the exchanges of some page fetches. */
  function AllAnswers(fetches: seq<seq<Exchange>>): seq<Response> {
    if fetches == [] then [] else AllAnswers(fetches[..|fetches| - 1]) + Answers(fetches[|fetches| - 1])
  }

  /** The responses that arrived during the cycle are exactly those its sweep worked on, in order. */
  ghost predicate Answered(c: CycleRecord, log: seq<Arrival>) {
    && c.begin.log <= c.end.log <= |log|
    && Responses(log[c.begin.log..c.end.log]) == AllAnswers(c.fetches)
  }

  ghost predicate AllAnswered(cycles: seq<CycleRecord>, log: seq<Arrival>) {
    cycles == [] ||
    (AllAnswered(cycles[..|cycles| - 1], log) && Answered(cycles[|cycles| - 1], log))
  }

  lemma {:induction false} AllAnsweredLater(cycles: seq<CycleRecord>, log: seq<Arrival>, log': seq<Arrival>)
    requires AllAnswered(cycles, log) && log <= log'
    ensures AllAnswered(cycles, log')
  {
    if cycles != [] {
      var c := cycles[|cycles| - 1];
      AllAnsweredLater(cycles[..|cycles| - 1], log, log');
      SliceOfPrefix(log, log', c.begin.log, c.end.log);
    }
  }

  lemma AllAnsweredPush(cycles: seq<CycleRecord>, log: seq<Arrival>, c: CycleRecord, log': seq<Arrival>)
    requires AllAnswered(cycles, log) && Heard(log, log', AllAnswers(c.fetches))
    requires c.begin.log == |log| && c.end.log == |log'|
    ensures AllAnswered(cycles + [c], log')
  {
    AllAnsweredLater(cycles, log, log');
    AnsweredNow(c, log, log');
    assert (cycles + [c])[..|cycles|] == cycles;
  }

  lemma AnsweredNow(c: CycleRecord, log: seq<Arrival>, log': seq<Arrival>)
    requires Heard(log, log', AllAnswers(c.fetches)) && c.begin.log == |log| && c.end.log == |log'|
    ensures Answered(c, log')
  {
    assert log'[c.begin.log..c.end.log] == log'[|log|..];
  }

  lemma {:induction false} EveryCycleAnswered(cycles: seq<CycleRecord>, log: seq<Arrival>, c: CycleRecord)
    requires AllAnswered(cycles, log) && c in cycles
    ensures Answered(c, log)
  {
    if c != cycles[|cycles| - 1] {
      EveryCycleAnswered(cycles[..|cycles| - 1], log, c);
    }
  }

  function NewAttempts(a: Action): nat {
    match a
    case FirstFetched(exs) => |exs|
    case WorkerFetched(_, exs) => |exs|
    case _ => 0
  }

  function NewAnswers(a: Action): seq<Response> {
    match a
    case FirstFetched(exs) => Answers(exs)
    case WorkerFetched(_, exs) => Answers(exs)
    case _ => []
  }

  lemma AllAnswersPush(fetches: seq<seq<Exchange>>, exs: seq<Exchange>)
    ensures AllAnswers(fetches + [exs]) == AllAnswers(fetches) + Answers(exs)
  {
    assert (fetches + [exs])[..|fetches|] == fetches;
  }

  lemma RequestsPush(fetches: seq<seq<Exchange>>, exs: seq<Exchange>)
    ensures Requests(fetches + [exs]) == Requests(fetches) + |exs|
  {
    assert (fetches + [exs])[..|fetches|] == fetches;
  }

  lemma FetchStepsAppend(a: Action, s: State)
    requires Control(s) && Enabled(a, s) && (a.FirstFetched? || a.WorkerFetched?)
    ensures Apply(a, s).fetches == s.fetches + [a.exs]
  {
  }

  lemma OtherStepsFetchNothing(a: Action, s: State)
    requires Enabled(a, s) && !a.FirstFetched? && !a.WorkerFetched?
    ensures Apply(a, s).fetches == s.fetches
  {
  }

  lemma StepRequests(a: Action, s: State)
    requires Control(s) && Enabled(a, s)
    ensures Requests(Apply(a, s).fetches) == Requests(s.fetches) + NewAttempts(a)
    ensures AllAnswers(Apply(a, s).fetches) == AllAnswers(s.fetches) + NewAnswers(a)
  {
    if a.FirstFetched? || a.WorkerFetched? {
      FetchStepsAppend(a, s);
      RequestsPush(s.fetches, a.exs);
      AllAnswersPush(s.fetches, a.exs);
    } else {
      OtherStepsFetchNothing(a, s);
    }
  }

  /** The machine is in state s after the actions from its beginning. */
  ghost predicate Running(acts: seq<Action>, start: State, s: State) {
    CanRun(acts, start) && s == Sweep.Run(acts, start) && Inv(s) && s.cfg == start.cfg
  }

  lemma RunningStep(acts: seq<Action>, start: State, s: State, a: Action)
    requires Running(acts, start, s) && Enabled(a, s)
    ensures Running(acts + [a], start, Apply(a, s)) && Shrinks(Apply(a, s), s)
    ensures Requests(Apply(a, s).fetches) == Requests(s.fetches) + NewAttempts(a)
    ensures AllAnswers(Apply(a, s).fetches) == AllAnswers(s.fetches) + NewAnswers(a)
  {
    StepKeepsInv(a, s);
    StepShrinks(a, s);
    StepRequests(a, s);
    RunPush(acts, start, a);
    ConfigIsFixed(acts + [a], start);
  }

  lemma AnyAttemptsWillDo(a: Action, s: State, exs: seq<Exchange>)
    requires Enabled(a, s) && (a.FirstFetched? || a.WorkerFetched?) && Attempts(exs, s.cfg.pageAttempts)
    ensures Enabled(if a.FirstFetched? then FirstFetched(exs) else WorkerFetched(a.i, exs), s)
  {
  }

  lemma OnlyShutdownShutsDown(a: Action, s: State)
    requires Enabled(a, s)
    ensures Apply(a, s).shutdown ==> s.shutdown || a.Shutdown?
  {
  }

  class CycleRunner {
    const fetcher: Fetcher
    /** The region whose tables are watched, and its cycles' database half. */
    const watched: int
    const database: Cycle.RegionCycle

    /** Every cycle run so far. */
    ghost var cycles: seq<CycleRecord>

    constructor (fetcher: Fetcher, watched: int, database: Cycle.RegionCycle)
      ensures this.fetcher == fetcher && this.watched == watched && this.database == database && cycles == []
    {
      this.fetcher, this.watched, this.database, cycles := fetcher, watched, database, [];
    }

    ghost predicate Valid()
      reads this, database.store
      reads fetcher.client, fetcher.client.budget, fetcher.client.errorLimit, fetcher.client.outage
    {
      && fetcher.client.Valid() && fetcher.cfg.pageAttempts >= 1
      && Books()
    }

    /** The records: every cycle counted, answered and told, and the watched store in the state its cycles
        left it in. */
    ghost predicate Books()
      reads this, database.store, fetcher.client
    {
      && (forall c <- cycles :: Counted(c, fetcher.cfg))
      && AllAnswered(cycles, fetcher.client.log)
      && AllTold(cycles, watched, fetcher.cfg)
      && database.store.Valid() && database.store.ends == Endings(cycles)
    }

    /** One possible step, any of them; a shutdown only if the process is ending. A page fetch makes its
        requests, and the step records exactly the responses they brought. A page whose context may have
        ended, because a sibling page or the copy failed, may stop early or never be asked for. */
    method TakeStep(world: World, s: State) returns (a: Action)
      requires fetcher.client.Valid() && fetcher.client.Timely(world) && fetcher.cfg.pageAttempts >= 1
      requires Inv(s) && s.cfg == fetcher.cfg && !s.runner.Joined?
      modifies world, fetcher`tries
      modifies fetcher.client, fetcher.client.budget, fetcher.client.errorLimit, fetcher.client.outage
      ensures fetcher.client.Valid() && fetcher.client.Timely(world)
      ensures world.now >= old(world.now) && (old(world.done) ==> world.done)
      ensures Extends(old(fetcher.client.log), fetcher.client.log, old(world.now))
      ensures old(fetcher.client.issued) <= fetcher.client.issued
      ensures Enabled(a, s)
      ensures a.Shutdown? ==> world.done
      ensures |fetcher.client.issued| <= |old(fetcher.client.issued)| + NewAttempts(a)
      ensures Heard(old(fetcher.client.log), fetcher.client.log, NewAnswers(a))
    {
      NeverStuck(s);
      HeardNothing(fetcher.client.log);
      a := *;
      if !Enabled(a, s) || (a.Shutdown? && !world.done) {
        a := NextStep(s);
      }
      if !a.FirstFetched? && !a.WorkerFetched? {
        world.Elapse();
        return;
      }
      var mayEnd := s.cancelled || (s.sweeper.Working? && s.sweeper.crew.failed);
      var _, _, _, exs, _, _, _ := fetcher.FetchPage(world, true, mayEnd);
      AnyAttemptsWillDo(a, s, exs);
      a := if a.FirstFetched? then FirstFetched(exs) else WorkerFetched(a.i, exs);
    }

    /** The sweep and the copy, to the point where the cycle has both results: any of the possible runs
        of the state machine. */
    method RunSweep(world: World, budget: Option<int>) returns (s: State, ghost acts: seq<Action>)
      requires fetcher.client.Valid() && fetcher.client.Timely(world) && fetcher.cfg.pageAttempts >= 1
      modifies world, fetcher`tries
      modifies fetcher.client, fetcher.client.budget, fetcher.client.errorLimit, fetcher.client.outage
      ensures fetcher.client.Valid() && fetcher.client.Timely(world)
      ensures world.now >= old(world.now) && (old(world.done) ==> world.done)
      ensures Extends(old(fetcher.client.log), fetcher.client.log, old(world.now))
      ensures old(fetcher.client.issued) <= fetcher.client.issued
      ensures Ended(acts, fetcher.cfg, budget, s)
      ensures s.shutdown ==> world.done
      ensures |fetcher.client.issued| - |old(fetcher.client.issued)| <= Requests(s.fetches)
      ensures Heard(old(fetcher.client.log), fetcher.client.log, AllAnswers(s.fetches))
    {
      s, acts := Begin(fetcher.cfg, budget), [];
      ghost var start := s;
      HeardNothing(fetcher.client.log);
      while !s.runner.Joined?
        invariant fetcher.client.Valid() && fetcher.client.Timely(world)
        invariant world.now >= old(world.now) && (old(world.done) ==> world.done)
        invariant Extends(old(fetcher.client.log), fetcher.client.log, old(world.now))
        invariant old(fetcher.client.issued) <= fetcher.client.issued
        invariant Running(acts, start, s)
        invariant s.shutdown ==> world.done
        invariant |fetcher.client.issued| - |old(fetcher.client.issued)| <= Requests(s.fetches)
        invariant Heard(old(fetcher.client.log), fetcher.client.log, AllAnswers(s.fetches))
        decreases Rank(s), PagesInFlight(s), Work(s)
      {
        ghost var log, now := fetcher.client.log, world.now;
        var a := TakeStep(world, s);
        ExtendsOn(old(fetcher.client.log), log, fetcher.client.log, old(world.now), now);
        HeardMore(old(fetcher.client.log), log, fetcher.client.log, AllAnswers(s.fetches), NewAnswers(a));
        OnlyShutdownShutsDown(a, s);
        RunningStep(acts, start, s, a);
        acts, s := acts + [a], Apply(a, s);
      }
    }

    /** The database half of a cycle of the watched region: any order of the delta's parts, any verdict
        of the guard, and a failure at any statement. */
    method Store(world: World, s: State, budget: Option<int>, ghost acts: seq<Action>)
      returns (report: Report, ghost ending: Cycle.CycleEnd)
      requires Ended(acts, fetcher.cfg, budget, s) && (s.shutdown ==> world.done)
      requires database.store.Valid()
      modifies world, database.store
      ensures world.now >= old(world.now) && (old(world.done) ==> world.done)
      ensures database.store.Valid() && database.store.ends == old(database.store.ends) + [ending]
      ensures Truthful(report, world.done, ending, s)
    {
      world.Elapse();
      var env := Happens(world, Cycle.StagedRows(s));
      ghost var before := database.store.ends;
      var res, err := database.Run(s, env, fetcher.cfg, budget, acts);
      ending := database.store.ends[|before|];
      report := Report(if err then Some(Cause(None)) else None,
                       if res.failed then Some(Cause(SweepHttp(s))) else None,
                       res.outcome.WasDeferred?, res.meta.expires);
    }

    /** What a cycle reports: of the watched region what its database half makes of the sweep and the
        copy, of any other region anything. */
    method Conclude(world: World, region: int, s: State, budget: Option<int>, ghost acts: seq<Action>)
      returns (report: Report, ghost ending: Option<Cycle.CycleEnd>)
      requires Ended(acts, fetcher.cfg, budget, s) && (s.shutdown ==> world.done)
      requires database.store.Valid()
      modifies world, database.store
      ensures world.now >= old(world.now) && (old(world.done) ==> world.done)
      ensures database.store.Valid()
      ensures database.store.ends == old(database.store.ends) + if ending.Some? then [ending.value] else []
      ensures ending.Some? <==> region == watched
      ensures ending.Some? ==> Truthful(report, world.done, ending.value, s)
    {
      ending := None;
      if region == watched {
        ghost var e;
        report, e := Store(world, s, budget, acts);
        ending := Some(e);
      } else {
        report := *;
        assert database.store.ends + [] == database.store.ends;
      }
    }

    /** What the database and the clock decide during one cycle. */
    method Happens(world: World, rows: seq<Order>) returns (env: Cycle.Env)
      ensures Cycle.Plausible(env, rows, world.done) && (env.shutdown <==> world.done)
    {
      var countFails: bool, markRefreshedFails: bool, markFailedFails: bool := *, *, *;
      var applyFault: Option<Cycle.ApplyStep>, loadFault: Option<Cycle.ResyncStep> := *, *;
      var repairFault: Option<Cycle.ResyncStep> := *;
      var live: Checksum.Sum, staged: Checksum.Sum, fails: bool := *, *, *;
      var verify := if fails then Cycle.VerifyFails else Cycle.Injected(live, staged);
      var parts := [Delta.DeletePart, Delta.UpdatePart, Delta.InsertPart];
      env := Cycle.Env(countFails, rows, parts, applyFault, loadFault, verify, rows, repairFault,
                       markRefreshedFails, markFailedFails, world.done, world.now);
    }

    /** Runs one cycle of a region and records it. */
    method Run(world: World, region: int) returns (report: Report)
      requires Valid() && fetcher.client.Timely(world)
      modifies world, this`cycles, database.store, fetcher`tries
      modifies fetcher.client, fetcher.client.budget, fetcher.client.errorLimit, fetcher.client.outage
      ensures Valid() && fetcher.client.Timely(world)
      ensures world.now >= old(world.now) && (old(world.done) ==> world.done)
      ensures old(fetcher.client.issued) <= fetcher.client.issued
      ensures |cycles| == |old(cycles)| + 1 && cycles == old(cycles) + [cycles[|old(cycles)|]]
      ensures var c := cycles[|old(cycles)|];
              && old(world.now) <= c.begin.at <= c.end.at
              && c.region == region && c.report == report && c.stopped == world.done
              && c.begin == Mark(c.begin.at, |old(fetcher.client.log)|, |old(fetcher.client.issued)|, |old(cycles)|)
              && c.end == Mark(world.now, |fetcher.client.log|, |fetcher.client.issued|, |cycles|)
              && Extends(old(fetcher.client.log), fetcher.client.log, c.begin.at)
              && c.budget == TokensLeft(old(fetcher.client.log))
    {
      world.Elapse();
      ghost var begin := Mark(world.now, |fetcher.client.log|, |fetcher.client.issued|, |cycles|);
      var budget := if fetcher.client.budget.known then Some(fetcher.client.budget.remaining) else None;
      ghost var acts;
      var s;
      s, acts := RunSweep(world, budget);
      report := Book(world, region, begin, old(fetcher.client.log), s, budget, acts);
    }

    /** Concludes a cycle and records it. */
    method Book(world: World, region: int, ghost begin: Mark, ghost log: seq<Arrival>,
                s: State, budget: Option<int>, ghost acts: seq<Action>)
      returns (report: Report)
      requires Ended(acts, fetcher.cfg, budget, s) && (s.shutdown ==> world.done)
      requires (forall x <- cycles :: Counted(x, fetcher.cfg)) && AllAnswered(cycles, log)
      requires AllTold(cycles, watched, fetcher.cfg)
      requires database.store.Valid() && database.store.ends == Endings(cycles)
      requires Heard(log, fetcher.client.log, AllAnswers(s.fetches)) && begin.log == |log|
      requires begin.req <= |fetcher.client.issued| <= begin.req + Requests(s.fetches)
      modifies world, this`cycles, database.store
      ensures world.now >= old(world.now) && (old(world.done) ==> world.done)
      ensures Books()
      ensures |cycles| == |old(cycles)| + 1 && cycles == old(cycles) + [cycles[|old(cycles)|]]
      ensures var c := cycles[|old(cycles)|];
              && c.region == region && c.report == report && c.stopped == world.done && c.budget == budget
              && c.begin == begin
              && c.end == Mark(world.now, |fetcher.client.log|, |fetcher.client.issued|, |cycles|)
    {
      ghost var ending;
      report, ending := Conclude(world, region, s, budget, acts);
      ghost var end := Mark(world.now, |fetcher.client.log|, |fetcher.client.issued|, |cycles| + 1);
      ghost var c := CycleRecord(region, begin, end, budget, acts, s.fetches, report, world.done, ending);
      ToldNow(c, watched, fetcher.cfg, s);
      Record(c, log);
    }

    /** One more record. */
    ghost method Record(c: CycleRecord, log: seq<Arrival>)
      requires (forall x <- cycles :: Counted(x, fetcher.cfg)) && AllAnswered(cycles, log)
      requires AllTold(cycles, watched, fetcher.cfg) && Counted(c, fetcher.cfg) && Told(c, watched, fetcher.cfg)
      requires Heard(log, fetcher.client.log, AllAnswers(c.fetches))
      requires c.begin.log == |log| && c.end.log == |fetcher.client.log|
      requires database.store.Valid()
      requires database.store.ends == Endings(cycles) + if c.ending.Some? then [c.ending.value] else []
      modifies this`cycles
      ensures cycles == old(cycles) + [c] && Books()
    {
      AllAnsweredPush(cycles, log, c, fetcher.client.log);
      ToldPush(cycles, watched, fetcher.cfg, c);
      cycles := cycles + [c];
    }
  }
}
