/** What the concurrent sweep guarantees over whole runs: complete delivery, no deadlock, bounded
    work, and the token accounts. */
module SweepTheorems {
  import opened Common
  import opened Esi
  import opened Fetch
  import opened Orders
  import opened Sweep
  import opened SweepInvariant

  /** A run of one cycle's sweep and copy, from its beginning until the cycle has both results. */
  ghost predicate Completed(cfg: Config, budget: Option<int>, acts: seq<Action>) {
    CanRun(acts, Begin(cfg, budget)) && Run(acts, Begin(cfg, budget)).runner.Joined?
  }

  ghost function FinalState(cfg: Config, budget: Option<int>, acts: seq<Action>): State
    requires Completed(cfg, budget, acts)
  {
    Run(acts, Begin(cfg, budget))
  }

  predicate BothSucceeded(s: State) {
    s.sweeper.Returned? && s.sweeper.err.None? && s.copier.Copied?
  }

  lemma InvFromBegin(cfg: Config, budget: Option<int>, acts: seq<Action>)
    requires CanRun(acts, Begin(cfg, budget))
    ensures Inv(Run(acts, Begin(cfg, budget)))
  {
    RunKeepsInv(acts, Begin(cfg, budget));
  }

  /** Complete delivery. Whatever the interleaving and however large or empty the pages, when the
      sweep and the copy both succeed the pages are one snapshot, each of the pages 1..X-Pages went
      through the channel exactly once, staging holds exactly their rows, and the staged count is
      the sweep's order count. */
  lemma StagingIsThePageSet(cfg: Config, budget: Option<int>, acts: seq<Action>)
    requires Completed(cfg, budget, acts) && BothSucceeded(FinalState(cfg, budget, acts))
    ensures var s := FinalState(cfg, budget, acts);
            && OneSnapshot(s.sweeper.pages, s.meta)
            && EachPageOnce(s.sent, s.sweeper.pages)
            && s.staging == Some(s.copier.rows)
            && multiset(s.copier.rows) == RowsOf(s.sweeper.pages)
            && |s.copier.rows| == s.meta.orderCount
  {
    InvFromBegin(cfg, budget, acts);
    var s := FinalState(cfg, budget, acts);
    assert Flatten(s.channel) == [];
    assert s.copier.rows + [] == s.copier.rows;
    assert |multiset(s.copier.rows)| == |s.copier.rows|;
  }

  /** A sweep that landed every page is rejected as inconsistent exactly when some page disagrees
      with the first about Last-Modified or X-Pages. */
  lemma RejectedExactlyWhenPagesDisagree(s: State)
    requires Inv(s) && Enabled(SweepReturns, s) && !s.sweeper.crew.failed
    ensures Apply(SweepReturns, s).sweeper.err == Some(Inconsistent) <==>
            exists w <- s.sweeper.crew.workers :: DisagreesWith(w, s.sweeper.crew.first)
  {
    AllSentUnlessFailed(s);
  }

  // ----- Two runs that happen -----

  /** A whole run that succeeds: one page with one order, streamed and copied. */
  lemma OneOrderRun(cfg: Config, o: Order) returns (acts: seq<Action>)
    requires cfg.pageAttempts >= 1
    ensures Completed(cfg, None, acts) && BothSucceeded(FinalState(cfg, None, acts))
    ensures FinalState(cfg, None, acts).copier.rows == [o] && !FinalState(cfg, None, acts).shutdown
  {
    var ex := Served(Response(STATUS_OK, None, None, 0, None, 0), Page([o], 1, 0, 0));
    var start := Begin(cfg, None);
    assert Attempts([ex], cfg.pageAttempts);
    var fetched := FetchOne(cfg, o, ex);
    var copied := CopyOne(cfg, o, ex.page, fetched);
    RunPush(copied, start, CopyAwaited);
    RunPush(copied + [CopyAwaited], start, SweepAwaited);
    acts := copied + [CopyAwaited] + [SweepAwaited];
  }

  lemma CopyOne(cfg: Config, o: Order, page: Page, fetched: seq<Action>) returns (acts: seq<Action>)
    requires CanRun(fetched, Begin(cfg, None))
    requires var s := Run(fetched, Begin(cfg, None));
             && s.sweeper == Returned(None, [page]) && s.channel == [Batch(1, [o])] && s.copier.Acquiring?
             && s.runner.AwaitingCopy? && !s.cancelled && !s.shutdown
    ensures CanRun(acts, Begin(cfg, None))
    ensures var s := Run(acts, Begin(cfg, None));
            && s.sweeper == Returned(None, [page]) && s.copier == Copied([o])
            && s.runner.AwaitingCopy? && !s.cancelled && !s.shutdown
  {
    var start := Begin(cfg, None);
    RunPush(fetched, start, Acquired(true));
    var acquired := fetched + [Acquired(true)];
    RunPush(acquired, start, Truncated(true));
    var truncated := acquired + [Truncated(true)];
    RunPush(truncated, start, BatchReceived);
    var received := truncated + [BatchReceived];
    RunPush(received, start, RowStaged);
    var staged := received + [RowStaged];
    RunPush(staged, start, CopyEnds);
    acts := staged + [CopyEnds];
  }

  lemma FetchOne(cfg: Config, o: Order, ex: Exchange) returns (acts: seq<Action>)
    requires ex == Served(Response(STATUS_OK, None, None, 0, None, 0), Page([o], 1, 0, 0))
    requires Attempts([ex], cfg.pageAttempts)
    ensures CanRun(acts, Begin(cfg, None))
    ensures var s := Run(acts, Begin(cfg, None));
            && s.sweeper == Returned(None, [ex.page]) && s.channel == [Batch(1, [o])] && s.copier.Acquiring?
            && s.runner.AwaitingCopy? && !s.cancelled && !s.shutdown
  {
    var start := Begin(cfg, None);
    RunPush([], start, CheckFloor);
    var checked: seq<Action> := [] + [CheckFloor];
    RunPush(checked, start, FirstFetched([ex]));
    var fetched := checked + [FirstFetched([ex])];
    assert BudgetAfter(None, [ex]) == None;
    RunPush(fetched, start, FirstSent);
    acts := fetched + [FirstSent];
  }

  /** A whole run in which the budget is below its floor while the copy gets no connection. */
  lemma DeferredWithoutConnection(cfg: Config, left: int) returns (acts: seq<Action>)
    requires left < cfg.floor
    ensures Completed(cfg, Some(left), acts)
    ensures var s := FinalState(cfg, Some(left), acts);
            s.copier == CopyFailed(false) && s.sweeper == Returned(Some(Deferred), []) && !s.shutdown
  {
    var start := Begin(cfg, Some(left));
    RunPush([], start, CheckFloor);
    var checked: seq<Action> := [] + [CheckFloor];
    RunPush(checked, start, Acquired(false));
    var failed := checked + [Acquired(false)];
    RunPush(failed, start, CopyAwaited);
    RunPush(failed + [CopyAwaited], start, SweepAwaited);
    acts := failed + [CopyAwaited] + [SweepAwaited];
  }

  // ----- Never stuck -----

  function Rank(s: State): nat {
    match s.sweeper
    case Starting => 4
    case FetchingFirst => 3
    case SendingFirst(_) => 2
    case Working(_) => 1
    case Returned(_, _) => 0
  }

  function PagesInFlight(s: State): nat {
    if s.sweeper.Working? then SumOf(s.sweeper.crew.workers, IsFetching) else 0
  }

  function SendWeight(w: Worker): nat {
    if w.Sending? then |w.page.orders| + 3 else 0
  }

  function SendingWork(sweeper: Sweeper): nat {
    if sweeper.Working? then SumOf(sweeper.crew.workers, SendWeight) else 0
  }

  function ChannelWork(channel: seq<Batch>): nat {
    |Flatten(channel)| + 2 * |channel|
  }

  function CopierWork(copier: Copier): nat {
    match copier
    case Acquiring => 4
    case Truncating => 3
    case Copying(_, batch, idx) => 2 + if idx <= |batch| then |batch| - idx else 0
    case Copied(_) => 0
    case CopyFailed(_) => 0
  }

  function RunnerWork(runner: Runner): nat {
    match runner case AwaitingCopy => 2 case AwaitingSweep => 1 case Joined => 0
  }

  /** Work still to be done on pages already fetched. */
  function Work(s: State): nat {
    SendingWork(s.sweeper) + ChannelWork(s.channel) + CopierWork(s.copier) + RunnerWork(s.runner)
    + if s.shutdown then 0 else 1
  }

  ghost predicate Shrinks(s': State, s: State) {
    || Rank(s') < Rank(s)
    || (Rank(s') == Rank(s) && PagesInFlight(s') < PagesInFlight(s))
    || (Rank(s') == Rank(s) && PagesInFlight(s') == PagesInFlight(s) && Work(s') < Work(s))
  }

  lemma WorkerFetchShrinks(i: nat, exs: seq<Exchange>, s: State)
    requires Enabled(WorkerFetched(i, exs), s)
    ensures Shrinks(Apply(WorkerFetched(i, exs), s), s)
  {
    var crew := s.sweeper.crew;
    SumUpdate(crew.workers, i, AfterWorkerFetch(crew, i, exs).workers[i], IsFetching);
  }

  lemma WorkerSendShrinks(i: nat, s: State)
    requires Enabled(WorkerSent(i), s)
    ensures Shrinks(Apply(WorkerSent(i), s), s)
  {
    var crew, s' := s.sweeper.crew, Apply(WorkerSent(i), s);
    var ws, p := crew.workers, crew.workers[i].page;
    SumUpdate(ws, i, Sent(p), IsFetching);
    SumUpdate(ws, i, Sent(p), SendWeight);
    FlattenPush(s.channel, Batch(i + 2, p.orders));
    assert s' == s.(sent := s'.sent, channel := s.channel + [Batch(i + 2, p.orders)],
                    sweeper := Working(crew.(workers := ws[i := Sent(p)])));
    assert SendingWork(s'.sweeper) + |p.orders| + 3 == SendingWork(s.sweeper);
    assert ChannelWork(s'.channel) == ChannelWork(s.channel) + |p.orders| + 2;
  }

  lemma WorkerAbortShrinks(i: nat, s: State)
    requires Enabled(WorkerAborted(i), s)
    ensures Shrinks(Apply(WorkerAborted(i), s), s)
  {
    SumUpdate(s.sweeper.crew.workers, i, Failed, IsFetching);
    SumUpdate(s.sweeper.crew.workers, i, Failed, SendWeight);
  }

  lemma CopyStepShrinks(a: Action, s: State)
    requires Control(s) && Enabled(a, s) && !SweepStep(a)
    ensures Shrinks(Apply(a, s), s)
  {
    OtherStepsLeaveTheSweep(a, s);
    if a.BatchReceived? || a.BatchDrained? {
      FlattenPop(s.channel);
    }
  }

  lemma SweepStepShrinks(a: Action, s: State)
    requires Enabled(a, s) && SweepStep(a)
    ensures Shrinks(Apply(a, s), s)
  {
    match a
    case WorkerFetched(i, exs) => WorkerFetchShrinks(i, exs, s);
    case WorkerSent(i) => WorkerSendShrinks(i, s);
    case WorkerAborted(i) => WorkerAbortShrinks(i, s);
    case _ =>
  }

  lemma StepShrinks(a: Action, s: State)
    requires Control(s) && Enabled(a, s)
    ensures Shrinks(Apply(a, s), s)
  {
    if SweepStep(a) {
      SweepStepShrinks(a, s);
    } else {
      CopyStepShrinks(a, s);
    }
  }

  /** A step the copier can take, unless it has finished or waits on an empty open channel. */
  function CopierStep(c: Copier, channel: seq<Batch>): Option<Action> {
    match c
    case Acquiring => Some(Acquired(true))
    case Truncating => Some(Truncated(true))
    case Copying(_, batch, idx) =>
      if idx < |batch| then Some(RowStaged) else if channel != [] then Some(BatchReceived) else None
    case Copied(_) => None
    case CopyFailed(draining) => if draining && channel != [] then Some(BatchDrained) else None
  }

  /** The first worker that is still fetching, or if there is none the first that is still sending. */
  function Busy(ws: seq<Worker>, fetching: bool): (i: Option<nat>)
    ensures i.Some? ==> i.value < |ws| && if fetching then ws[i.value].Fetching? else ws[i.value].Sending?
    ensures i.None? ==> forall w <- ws :: if fetching then !w.Fetching? else !w.Sending?
  {
    if ws == [] then None
    else
      var i := Busy(ws[..|ws| - 1], fetching);
      var last := ws[|ws| - 1];
      if i.Some? then i
      else if (if fetching then last.Fetching? else last.Sending?) then Some(|ws| - 1)
      else None
  }

  /** A step towards the end, whatever state the cycle is in. */
  function NextStep(s: State): Action {
    var copier := CopierStep(s.copier, s.channel);
    match s.sweeper
    case Starting => CheckFloor
    case FetchingFirst => FirstFetched([Lost(OtherFailure)])
    case SendingFirst(_) => FirstSent
    case Working(crew) =>
      var fetching, sending := Busy(crew.workers, true), Busy(crew.workers, false);
      if fetching.Some? then WorkerFetched(fetching.value, [Lost(OtherFailure)])
      else if sending.None? then SweepReturns
      else if |s.channel| < CHANNEL_CAPACITY then WorkerSent(sending.value)
      else if copier.Some? then copier.value
      else if s.runner.AwaitingCopy? then CopyAwaited
      else WorkerAborted(sending.value)
    case Returned(_, _) =>
      if copier.Some? then copier.value
      else if s.copier.Copying? then CopyEnds
      else if s.runner.AwaitingCopy? then CopyAwaited
      else SweepAwaited
  }

  /** Progress: while the cycle has not joined both halves, something other than a shutdown can
      happen. It includes a copy that failed with the channel full, and one that failed before it
      started, which drains nothing: the cycle then cancels the sweep, and the senders give up. */
  lemma NeverStuck(s: State)
    requires Inv(s) && !s.runner.Joined? && s.cfg.pageAttempts >= 1
    ensures Enabled(NextStep(s), s) && !NextStep(s).Shutdown?
  {
    if s.sweeper.Working? {
      SomeWorkerCanStep(s);
    }
  }

  lemma SomeWorkerCanStep(s: State)
    requires Control(s) && s.sweeper.Working? && s.cfg.pageAttempts >= 1
    ensures Enabled(NextStep(s), s)
  {
    if Busy(s.sweeper.crew.workers, true).None? && Busy(s.sweeper.crew.workers, false).None? {
      AllLanded(s.sweeper.crew.workers);
    }
  }

  lemma AllLanded(ws: seq<Worker>)
    requires Busy(ws, true).None? && Busy(ws, false).None?
    ensures forall w <- ws :: Landed(w)
  {
    forall w <- ws
      ensures Landed(w)
    {
      assert !w.Fetching? && !w.Sending?;
    }
  }

  /** Any way of choosing the next step, with the whole history in view, among those possible. */
  ghost predicate Schedule(s: State, choose: seq<Action> -> Action) {
    forall acts :: CanRun(acts, s) && !Run(acts, s).runner.Joined? ==> Enabled(choose(acts), Run(acts, s))
  }

  /** Schedules exist: one can always take the step NeverStuck names. */
  lemma SchedulesExist(s: State)
    requires Inv(s) && s.cfg.pageAttempts >= 1
    ensures exists choose :: Schedule(s, choose)
  {
    var choose := (acts: seq<Action>) => if CanRun(acts, s) then NextStep(Run(acts, s)) else Shutdown;
    forall acts | CanRun(acts, s) && !Run(acts, s).runner.Joined?
      ensures Enabled(choose(acts), Run(acts, s))
    {
      RunKeepsInv(acts, s);
      ConfigIsFixed(acts, s);
      NeverStuck(Run(acts, s));
    }
    assert Schedule(s, choose);
  }

  /** From position n on, each action is the one the schedule chose with the history before it. */
  ghost predicate FollowsFrom(all: seq<Action>, n: nat, choose: seq<Action> -> Action) {
    forall i :: n <= i < |all| ==> all[i] == choose(all[..i])
  }

  /** The history `acts` of a run from s, continued by a schedule until the cycle has both results. */
  lemma {:induction false} Continue(s: State, choose: seq<Action> -> Action, acts: seq<Action>)
    returns (all: seq<Action>)
    requires Inv(s) && Schedule(s, choose) && CanRun(acts, s)
    ensures acts <= all && CanRun(all, s) && Run(all, s).runner.Joined?
    ensures FollowsFrom(all, |acts|, choose)
    decreases Rank(Run(acts, s)), PagesInFlight(Run(acts, s)), Work(Run(acts, s))
  {
    var now := Run(acts, s);
    RunKeepsInv(acts, s);
    if now.runner.Joined? {
      all := acts;
    } else {
      var a := choose(acts);
      StepShrinks(a, now);
      RunPush(acts, s, a);
      all := Continue(s, choose, acts + [a]);
      FollowsFromEarlier(all, acts, choose);
    }
  }

  lemma FollowsFromEarlier(all: seq<Action>, acts: seq<Action>, choose: seq<Action> -> Action)
    requires acts + [choose(acts)] <= all && FollowsFrom(all, |acts| + 1, choose)
    ensures acts <= all && FollowsFrom(all, |acts|, choose)
  {
    assert all[..|acts|] == acts && all[|acts|] == choose(acts);
  }

  /** Every schedule, fair or not, whatever it remembers, brings every cycle to the point where it has
      both results. */
  lemma EveryScheduleFinishes(s: State, choose: seq<Action> -> Action)
    requires Inv(s) && Schedule(s, choose)
    ensures exists all :: CanRun(all, s) && Run(all, s).runner.Joined? && FollowsFrom(all, 0, choose)
  {
    var all := Continue(s, choose, []);
    assert FollowsFrom(all, 0, choose);
  }

  /** No infinite run: of any endless list of actions only a finite part can be taken. */
  lemma NoEndlessRun(s: State, endless: nat -> Action)
    requires Inv(s)
    ensures exists n: nat :: !CanRun(Prefix(endless, n), s)
  {
    if forall n: nat :: CanRun(Prefix(endless, n), s) {
      Exhausted(s, endless, 0);
      assert false;
    }
  }

  function Prefix(endless: nat -> Action, n: nat): seq<Action> {
    if n == 0 then [] else Prefix(endless, n - 1) + [endless(n - 1)]
  }

  lemma {:induction false} Exhausted(s: State, endless: nat -> Action, n: nat)
    requires Inv(s) && forall k: nat :: CanRun(Prefix(endless, k), s)
    ensures false
    decreases Rank(Run(Prefix(endless, n), s)), PagesInFlight(Run(Prefix(endless, n), s)),
              Work(Run(Prefix(endless, n), s))
  {
    var acts, a := Prefix(endless, n), endless(n);
    RunKeepsInv(acts, s);
    assert CanRun(Prefix(endless, n + 1), s) && Prefix(endless, n + 1)[..|acts|] == acts;
    StepShrinks(a, Run(acts, s));
    Exhausted(s, endless, n + 1);
  }

  // ----- Tokens and requests -----

  function Requests(fetches: seq<seq<Exchange>>): nat {
    if fetches == [] then 0 else Requests(fetches[..|fetches| - 1]) + |fetches[|fetches| - 1]|
  }

  lemma {:induction false} RequestsPerPage(fetches: seq<seq<Exchange>>, attempts: nat)
    requires forall exs <- fetches :: |exs| <= attempts
    ensures Requests(fetches) <= |fetches| * attempts
  {
    if fetches != [] {
      var n := |fetches| - 1;
      RequestsPerPage(fetches[..n], attempts);
      assert fetches[n] in fetches;
      assert (n + 1) * attempts == n * attempts + attempts;
    }
  }

  lemma ProductMonotone(a: nat, b: nat, k: nat)
    requires a <= b
    ensures a * k <= b * k
  {
  }

  /** The sweep reports exactly what its exchanges cost, makes at most PageAttempts requests per
      page, and when the budget governor refuses the region it has spent page 1 at most. */
  lemma SpendingIsAccounted(cfg: Config, budget: Option<int>, acts: seq<Action>)
    requires Completed(cfg, budget, acts)
    ensures var s := FinalState(cfg, budget, acts);
            && s.meta.tokens == SpendAll(s.fetches)
            && Requests(s.fetches) <= Max(1, s.meta.pages) * cfg.pageAttempts
            && s.sweeper.Returned?
            && (s.sweeper.err == Some(Deferred) ==> |s.fetches| <= 1 && s.sent == [])
  {
    InvFromBegin(cfg, budget, acts);
    ConfigIsFixed(acts, Begin(cfg, budget));
    var s := FinalState(cfg, budget, acts);
    RequestsPerPage(s.fetches, cfg.pageAttempts);
    ProductMonotone(|s.fetches|, Max(1, s.meta.pages), cfg.pageAttempts);
  }

  /** The process can only have looked at the budget, or stopped there. */
  ghost predicate Idle(s: State) {
    && s.fetches == [] && s.sent == [] && s.meta.tokens == 0
    && (s.sweeper.Starting? || s.sweeper == Returned(Some(Deferred), []))
    && s.budget.Some? && s.budget.value < s.cfg.floor
  }

  lemma {:induction false} StaysIdle(acts: seq<Action>, s: State)
    requires CanRun(acts, s) && Idle(s)
    ensures Idle(Run(acts, s))
  {
    if acts != [] {
      var front := acts[..|acts| - 1];
      StaysIdle(front, s);
      assert Idle(Apply(acts[|acts| - 1], Run(front, s)));
    }
  }

  /** A cycle that starts with the budget below its floor is deferred without a single request. */
  lemma BelowFloorRequestsNothing(cfg: Config, budget: Option<int>, acts: seq<Action>)
    requires Completed(cfg, budget, acts) && budget.Some? && budget.value < cfg.floor
    ensures var s := FinalState(cfg, budget, acts);
            s.sweeper == Returned(Some(Deferred), []) && Requests(s.fetches) == 0 && s.meta.tokens == 0
  {
    InvFromBegin(cfg, budget, acts);
    StaysIdle(acts, Begin(cfg, budget));
  }

  lemma {:induction false} ConfigIsFixed(acts: seq<Action>, s: State)
    requires CanRun(acts, s)
    ensures Run(acts, s).cfg == s.cfg
  {
    if acts != [] {
      ConfigIsFixed(acts[..|acts| - 1], s);
    }
  }

  function Charged(exs: seq<Exchange>, charge: Exchange -> nat): nat {
    if exs == [] then 0 else Charged(exs[..|exs| - 1], charge) + charge(exs[|exs| - 1])
  }

  function ChargedAll(fetches: seq<seq<Exchange>>, charge: Exchange -> nat): nat {
    if fetches == [] then 0
    else ChargedAll(fetches[..|fetches| - 1], charge) + Charged(fetches[|fetches| - 1], charge)
  }

  function ClientErrorsAll(fetches: seq<seq<Exchange>>): nat {
    if fetches == [] then 0
    else ClientErrorsAll(fetches[..|fetches| - 1]) + ClientErrors(fetches[|fetches| - 1])
  }

  /** ESI charges for an answered request what the documentation says it costs. What it charges for a
      request that never got an answer is not known here. */
  ghost predicate ChargesForAnswers(charge: Exchange -> nat) {
    forall ex: Exchange :: !ex.Lost? ==> charge(ex) == Cost(ex)
  }

  lemma {:induction false} AnsweredCharge(exs: seq<Exchange>, charge: Exchange -> nat)
    requires ChargesForAnswers(charge) && forall ex <- exs :: !ex.Lost?
    ensures Charged(exs, charge) == Spend(exs)
  {
    if exs != [] {
      assert exs[|exs| - 1] in exs;
      AnsweredCharge(exs[..|exs| - 1], charge);
    }
  }

  lemma {:induction false} AnsweredCharges(fetches: seq<seq<Exchange>>, attempts: nat, charge: Exchange -> nat)
    requires ChargesForAnswers(charge)
    requires forall exs <- fetches :: Attempts(exs, attempts) && forall ex <- exs :: !ex.Lost?
    ensures ChargedAll(fetches, charge) <= |fetches| * 2 + 5 * ClientErrorsAll(fetches)
  {
    if fetches != [] {
      var last := fetches[|fetches| - 1];
      assert last in fetches && forall exs <- fetches[..|fetches| - 1] :: exs in fetches;
      AnsweredCharges(fetches[..|fetches| - 1], attempts, charge);
      AnsweredCharge(last, charge);
      PageSpend(last, attempts);
    }
  }

  /** The reserve survives an admitted sweep. In every reachable state in which pages after the first
      have been fetched, if each of those attempts was answered, then what page 1 left in the budget
      minus all that ESI has charged since is at least the reserve, less five per 4xx answer. */
  lemma AdmittedSweepKeepsReserve(s: State, charge: Exchange -> nat)
    requires Inv(s) && |s.fetches| > 1 && s.budget.Some? && ChargesForAnswers(charge)
    requires forall exs <- s.fetches[1..] :: forall ex <- exs :: !ex.Lost?
    ensures s.budget.value - ChargedAll(s.fetches[1..], charge)
            >= s.cfg.reserve - 5 * ClientErrorsAll(s.fetches[1..])
  {
    AnsweredCharges(s.fetches[1..], s.cfg.pageAttempts, charge);
  }
}
