/** The concurrent half of a region cycle: page workers push batches into a bounded channel, a copier
    streams them into staging, and the cycle waits for both. Every interleaving of the atomic steps
    below, with a failure wherever one can happen and a shutdown at any moment, is a run. */
module Sweep {
  import opened Common
  import opened Esi
  import opened Fetch
  import opened Orders

  const CHANNEL_CAPACITY: nat := 8

  datatype Batch = Batch(page: nat, orders: seq<Order>)

  /** A fetch that failed carries the HTTP error it wraps, if any. */
  datatype SweepError = Deferred | FetchFailed(http: Option<Response>) | Inconsistent

  /** The goroutine of one page from 2 upwards. */
  datatype Worker = Fetching | Sending(page: Page) | Sent(page: Page) | Failed

  /** The shared variables of the page workers; worker i fetches page i + 2. `cause` is the HTTP error
      wrapped in the first failure. */
  datatype Crew = Crew(
    first: Page, workers: seq<Worker>, tokens: nat, count: nat, mismatch: bool, pagesGrew: bool,
    failed: bool, cause: Option<Response>)

  /** `pages` of a sweep that returned without error are the pages it fetched, in page order. */
  datatype Sweeper =
    | Starting
    | FetchingFirst
    | SendingFirst(first: Page)
    | Working(crew: Crew)
    | Returned(err: Option<SweepError>, pages: seq<Page>)

  datatype Meta = Meta(pages: nat, expires: int, lastModified: int, orderCount: nat, tokens: nat)

  datatype Copier =
    | Acquiring
    | Truncating
    | Copying(rows: seq<Order>, batch: seq<Order>, idx: nat)
    | Copied(rows: seq<Order>)
    | CopyFailed(draining: bool)

  datatype Runner = AwaitingCopy | AwaitingSweep | Joined

  /** `budget` is the token budget as the last admission check read it, `fetches` the attempts at each
      page fetched so far, `sent` everything ever put into the channel, and `staging` what this cycle
      has made of the staging table, None while it has not touched it. */
  datatype State = State(
    cfg: Config, budget: Option<int>, sweeper: Sweeper, meta: Meta, fetches: seq<seq<Exchange>>,
    sent: seq<Batch>, channel: seq<Batch>, copier: Copier, staging: Option<seq<Order>>,
    runner: Runner, cancelled: bool, shutdown: bool)

  datatype Action =
    | Shutdown
    | CheckFloor
    | FirstFetched(exs: seq<Exchange>)
    | FirstSent
    | FirstAborted
    | WorkerFetched(i: nat, exs: seq<Exchange>)
    | WorkerSent(i: nat)
    | WorkerAborted(i: nat)
    | SweepReturns
    | Acquired(ok: bool)
    | Truncated(ok: bool)
    | BatchReceived
    | RowStaged
    | CopyEnds
    | CopyBreaks
    | BatchDrained
    | CopyAwaited
    | SweepAwaited

  function Begin(cfg: Config, budget: Option<int>): State {
    State(cfg, budget, Starting, Meta(0, 0, 0, 0, 0), [], [], [], Acquiring, None, AwaitingCopy, false, false)
  }

  predicate ContextEnded(s: State) {
    s.cancelled || s.shutdown
  }

  predicate Landed(w: Worker) {
    w.Sent? || w.Failed?
  }

  /** The sweep closes the channel as it returns. */
  predicate Closed(s: State) {
    s.sweeper.Returned?
  }

  function WorkerAt(s: State, i: nat): Option<Worker> {
    if s.sweeper.Working? && i < |s.sweeper.crew.workers| then Some(s.sweeper.crew.workers[i]) else None
  }

  predicate WorkerSending(s: State, i: nat) {
    WorkerAt(s, i).Some? && WorkerAt(s, i).value.Sending?
  }

  predicate Enabled(a: Action, s: State) {
    match a
    case Shutdown => !s.shutdown
    case CheckFloor => s.sweeper.Starting?
    case FirstFetched(exs) => s.sweeper.FetchingFirst? && Attempts(exs, s.cfg.pageAttempts)
    case FirstSent => s.sweeper.SendingFirst? && |s.channel| < CHANNEL_CAPACITY
    case FirstAborted => s.sweeper.SendingFirst? && ContextEnded(s)
    case WorkerFetched(i, exs) => WorkerAt(s, i) == Some(Fetching) && Attempts(exs, s.cfg.pageAttempts)
    case WorkerSent(i) => WorkerSending(s, i) && |s.channel| < CHANNEL_CAPACITY
    case WorkerAborted(i) => WorkerSending(s, i) && (s.sweeper.crew.failed || ContextEnded(s))
    case SweepReturns => s.sweeper.Working? && forall w <- s.sweeper.crew.workers :: Landed(w)
    case Acquired(_) => s.copier.Acquiring?
    case Truncated(_) => s.copier.Truncating?
    case BatchReceived => s.copier.Copying? && s.copier.idx >= |s.copier.batch| && s.channel != []
    case RowStaged => s.copier.Copying? && s.copier.idx < |s.copier.batch|
    case CopyEnds => s.copier.Copying? && s.copier.idx >= |s.copier.batch| && s.channel == [] && Closed(s)
    case CopyBreaks => s.copier.Copying?
    case BatchDrained => s.copier.CopyFailed? && s.copier.draining && s.channel != []
    case CopyAwaited => s.runner.AwaitingCopy? && (s.copier.Copied? || s.copier.CopyFailed?)
    case SweepAwaited => s.runner.AwaitingSweep? && s.sweeper.Returned?
  }

  function BudgetAfter(budget: Option<int>, exs: seq<Exchange>): Option<int> {
    if exs == [] then budget
    else
      var ex := exs[|exs| - 1];
      if !ex.Lost? && ex.resp.remaining.Some? then ex.resp.remaining
      else BudgetAfter(budget, exs[..|exs| - 1])
  }

  predicate Fits(budget: Option<int>, cost: int, reserve: int) {
    budget.Some? ==> budget.value - cost >= reserve
  }

  function HttpErrorOf(ex: Exchange): Option<Response> {
    if ex.Refused? then Some(ex.resp) else None
  }

  function AfterFirstFetch(s: State, exs: seq<Exchange>): State
    requires exs != []
  {
    var s1 := s.(fetches := [exs], budget := BudgetAfter(s.budget, exs),
                 meta := s.meta.(tokens := s.meta.tokens + Spend(exs)));
    var last := exs[|exs| - 1];
    if !last.Served? then s1.(sweeper := Returned(Some(FetchFailed(HttpErrorOf(last))), []))
    else
      var first := last.page;
      var meta := s1.meta.(pages := first.pages, expires := first.expires, lastModified := first.lastModified);
      var s2 := s1.(meta := meta);
      if Fits(s2.budget, (first.pages - 1) * TokenCost(STATUS_OK), s.cfg.reserve)
      then s2.(sweeper := SendingFirst(first))
      else s2.(sweeper := Returned(Some(Deferred), []))
  }

  function Push(s: State, b: Batch): State {
    s.(sent := s.sent + [b], channel := s.channel + [b])
  }

  function AfterFirstSend(s: State, first: Page): State {
    var s1 := Push(s, Batch(1, first.orders)).(meta := s.meta.(orderCount := s.meta.orderCount + |first.orders|));
    if first.pages == 1 then s1.(sweeper := Returned(None, [first]))
    else s1.(sweeper := Working(Crew(first, seq(first.pages - 1, _ => Fetching), 0, 0, false, false, false, None)))
  }

  function AfterWorkerFetch(crew: Crew, i: nat, exs: seq<Exchange>): Crew
    requires i < |crew.workers| && exs != []
  {
    var c := crew.(tokens := crew.tokens + Spend(exs));
    var last := exs[|exs| - 1];
    if !last.Served? then
      c.(workers := c.workers[i := Failed], failed := true,
         cause := if c.failed then c.cause else HttpErrorOf(last))
    else
      var p := last.page;
      c.(workers := c.workers[i := Sending(p)],
         count := c.count + |p.orders|,
         mismatch := c.mismatch || p.lastModified != c.first.lastModified,
         pagesGrew := c.pagesGrew || p.pages != c.first.pages)
  }

  /** The pages the workers delivered, in page order. */
  function DeliveredPages(ws: seq<Worker>): seq<Page> {
    if ws == [] then []
    else DeliveredPages(ws[..|ws| - 1]) + if ws[|ws| - 1].Sent? then [ws[|ws| - 1].page] else []
  }

  function AfterSweepReturn(s: State, crew: Crew): State {
    var err := if crew.failed then Some(FetchFailed(crew.cause))
               else if crew.mismatch || crew.pagesGrew then Some(Inconsistent)
               else None;
    s.(meta := s.meta.(tokens := s.meta.tokens + crew.tokens, orderCount := s.meta.orderCount + crew.count),
       sweeper := Returned(err, if err.None? then [crew.first] + DeliveredPages(crew.workers) else []))
  }

  function Apply(a: Action, s: State): State
    requires Enabled(a, s)
  {
    match a
    case Shutdown => s.(shutdown := true)
    case CheckFloor =>
      if s.budget.Some? && s.budget.value < s.cfg.floor
      then s.(sweeper := Returned(Some(Deferred), []))
      else s.(sweeper := FetchingFirst)
    case FirstFetched(exs) => AfterFirstFetch(s, exs)
    case FirstSent => AfterFirstSend(s, s.sweeper.first)
    case FirstAborted => s.(sweeper := Returned(Some(FetchFailed(None)), []))
    case WorkerFetched(i, exs) =>
      s.(sweeper := Working(AfterWorkerFetch(s.sweeper.crew, i, exs)), fetches := s.fetches + [exs])
    case WorkerSent(i) =>
      var crew := s.sweeper.crew;
      var p := crew.workers[i].page;
      Push(s, Batch(i + 2, p.orders)).(sweeper := Working(crew.(workers := crew.workers[i := Sent(p)])))
    case WorkerAborted(i) =>
      var crew := s.sweeper.crew;
      s.(sweeper := Working(crew.(workers := crew.workers[i := Failed], failed := true)))
    case SweepReturns => AfterSweepReturn(s, s.sweeper.crew)
    case Acquired(ok) => s.(copier := if ok then Truncating else CopyFailed(false))
    case Truncated(ok) =>
      if ok then s.(copier := Copying([], [], 0), staging := Some([])) else s.(copier := CopyFailed(true))
    case BatchReceived =>
      s.(copier := s.copier.(batch := s.channel[0].orders, idx := 0), channel := s.channel[1..])
    case RowStaged =>
      s.(copier := s.copier.(rows := s.copier.rows + [s.copier.batch[s.copier.idx]], idx := s.copier.idx + 1))
    case CopyEnds => s.(copier := Copied(s.copier.rows), staging := Some(s.copier.rows))
    case CopyBreaks => s.(copier := CopyFailed(true))
    case BatchDrained => s.(channel := s.channel[1..])
    case CopyAwaited => s.(runner := AwaitingSweep, cancelled := s.cancelled || s.copier.CopyFailed?)
    case SweepAwaited => s.(runner := Joined)
  }

  /** A history of actions, each of them possible when it was taken. */
  ghost predicate CanRun(acts: seq<Action>, s: State)
    decreases |acts|, 0
  {
    acts == [] ||
    (CanRun(acts[..|acts| - 1], s) && Enabled(acts[|acts| - 1], Run(acts[..|acts| - 1], s)))
  }

  ghost function Run(acts: seq<Action>, s: State): State
    requires CanRun(acts, s)
    decreases |acts|, 1
  {
    if acts == [] then s else Apply(acts[|acts| - 1], Run(acts[..|acts| - 1], s))
  }

  lemma RunPush(acts: seq<Action>, s: State, a: Action)
    requires CanRun(acts, s) && Enabled(a, Run(acts, s))
    ensures CanRun(acts + [a], s) && Run(acts + [a], s) == Apply(a, Run(acts, s))
  {
    assert (acts + [a])[..|acts|] == acts;
  }
}
