/** How a sweep ends, in terms of the exchanges it had: what page 1 decides, when it is deferred, and
    which failure it reports. */
module SweepOutcomes {
  import opened Common
  import opened Esi
  import opened Fetch
  import opened Orders
  import opened Sweep
  import opened SweepInvariant
  import opened SweepTheorems

  // ----- Page 1 -----

  /** The exchange that ended the fetch of page 1, None while there is none. */
  ghost function FirstResult(s: State): Option<Exchange> {
    if s.fetches != [] && s.fetches[0] != [] then Some(s.fetches[0][|s.fetches[0]| - 1]) else None
  }

  ghost predicate ServedFirst(s: State, p: Page) {
    FirstResult(s).Some? && FirstResult(s).value.Served? && FirstResult(s).value.page == p
  }

  /** What the sweep reports of its page set, and the first page it works with, are those of page 1. */
  ghost predicate FromPageOne(s: State) {
    && (s.meta.pages == 0 ==>
          && s.meta.expires == 0 && s.meta.lastModified == 0
          && (FirstResult(s).Some? ==> !FirstResult(s).value.Served?))
    && (s.meta.pages > 0 ==>
          && FirstResult(s).Some? && FirstResult(s).value.Served? && MetaMatches(s.meta, FirstResult(s).value.page))
    && match s.sweeper
       case Starting => s.meta.pages == 0
       case FetchingFirst => s.meta.pages == 0
       case SendingFirst(first) => ServedFirst(s, first)
       case Working(crew) => ServedFirst(s, crew.first)
       case Returned(None, pages) => pages != [] && ServedFirst(s, pages[0])
       case Returned(_, _) => true
  }

  lemma FirstResultStays(a: Action, s: State)
    requires Control(s) && Enabled(a, s) && !a.FirstFetched? && (a.WorkerFetched? ==> FirstResult(s).Some?)
    ensures FirstResult(Apply(a, s)) == FirstResult(s)
  {
  }

  lemma FirstFetchIsPageOne(exs: seq<Exchange>, s: State)
    requires Control(s) && FromPageOne(s) && Enabled(FirstFetched(exs), s)
    ensures FromPageOne(Apply(FirstFetched(exs), s))
  {
    assert FirstResult(Apply(FirstFetched(exs), s)) == Some(exs[|exs| - 1]);
  }

  lemma OtherStepsKeepPageOne(a: Action, s: State)
    requires Control(s) && FromPageOne(s) && Enabled(a, s) && !a.FirstFetched?
    ensures FromPageOne(Apply(a, s))
  {
    FirstResultStays(a, s);
    var m, m' := s.meta, Apply(a, s).meta;
    assert m'.pages == m.pages && m'.expires == m.expires && m'.lastModified == m.lastModified;
  }

  lemma StepKeepsPageOne(a: Action, s: State)
    requires Control(s) && FromPageOne(s) && Enabled(a, s)
    ensures FromPageOne(Apply(a, s))
  {
    if a.FirstFetched? {
      FirstFetchIsPageOne(a.exs, s);
    } else {
      OtherStepsKeepPageOne(a, s);
    }
  }

  lemma {:induction false} RunsFromPageOne(acts: seq<Action>, cfg: Config, budget: Option<int>)
    requires CanRun(acts, Begin(cfg, budget))
    ensures FromPageOne(Run(acts, Begin(cfg, budget)))
  {
    if acts != [] {
      var front := acts[..|acts| - 1];
      RunsFromPageOne(front, cfg, budget);
      RunKeepsInv(front, Begin(cfg, budget));
      StepKeepsPageOne(acts[|acts| - 1], Run(front, Begin(cfg, budget)));
    }
  }

  /** The page set is whole by the header of page 1. When the sweep and the copy both succeed, page 1 was
      served, the pages are as many as its X-Pages said, or one if it said nothing of use, and exactly
      those page numbers were sent, each once and with the orders of its own page. */
  lemma PageSetIsWhatPageOneSaid(cfg: Config, budget: Option<int>, acts: seq<Action>)
    requires Completed(cfg, budget, acts) && BothSucceeded(FinalState(cfg, budget, acts))
    ensures var s := FinalState(cfg, budget, acts);
            && FirstResult(s).Some? && FirstResult(s).value.Served?
            && var ex, pages := FirstResult(s).value, s.sweeper.pages;
               && pages != [] && pages[0] == ex.page
               && (ex.resp.xPages.Some? && ex.resp.xPages.value > 0 ==> |pages| == ex.resp.xPages.value)
               && (ex.resp.xPages.None? || ex.resp.xPages.value <= 0 ==> |pages| == 1)
               && (forall n: nat :: Occurrences(s.sent, n) == if 1 <= n <= |pages| then 1 else 0)
               && (forall b <- s.sent :: 1 <= b.page <= |pages| && b.orders == pages[b.page - 1].orders)
               && s.meta.expires == ex.page.expires && s.meta.lastModified == ex.page.lastModified
               && s.meta.pages == |pages|
  {
    StagingIsThePageSet(cfg, budget, acts);
    RunsFromPageOne(acts, cfg, budget);
    FirstAnswerIsWellFormed(cfg, budget, acts);
    var s := FinalState(cfg, budget, acts);
    forall b <- s.sent
      ensures 1 <= b.page <= |s.sweeper.pages| && b.orders == s.sweeper.pages[b.page - 1].orders
    {
      assert BatchOfPage(b, s.sweeper.pages);
    }
  }

  /** What any sweep reports of its page set is what page 1 said, and nothing at all if page 1 was not
      served. */
  lemma SweepReportsPageOne(cfg: Config, budget: Option<int>, acts: seq<Action>)
    requires Completed(cfg, budget, acts)
    ensures var s := FinalState(cfg, budget, acts);
            if FirstResult(s).Some? && FirstResult(s).value.Served?
            then
              var page := FirstResult(s).value.page;
              s.meta.pages == page.pages && s.meta.expires == page.expires && s.meta.lastModified == page.lastModified
            else s.meta.pages == 0 && s.meta.expires == 0 && s.meta.lastModified == 0
  {
    RunsFromPageOne(acts, cfg, budget);
  }

  lemma FirstAnswerIsWellFormed(cfg: Config, budget: Option<int>, acts: seq<Action>)
    requires CanRun(acts, Begin(cfg, budget))
    ensures var s := Run(acts, Begin(cfg, budget)); FirstResult(s).Some? ==> WellFormed(FirstResult(s).value)
  {
    var s := Run(acts, Begin(cfg, budget));
    RunKeepsInv(acts, Begin(cfg, budget));
    if FirstResult(s).Some? {
      assert s.fetches[0] in s.fetches && Attempts(s.fetches[0], s.cfg.pageAttempts);
    }
  }

  // ----- Deferral -----

  predicate ReportsBudget(ex: Exchange) {
    !ex.Lost? && ex.resp.remaining.Some?
  }

  /** The budget after some attempts is what the last of them to report one said. */
  lemma {:induction false} BudgetIsLastReport(budget: Option<int>, exs: seq<Exchange>, i: nat)
    requires i < |exs| && ReportsBudget(exs[i]) && forall j :: i < j < |exs| ==> !ReportsBudget(exs[j])
    ensures BudgetAfter(budget, exs) == exs[i].resp.remaining
  {
    if i < |exs| - 1 {
      BudgetIsLastReport(budget, exs[..|exs| - 1], i);
    }
  }

  /** Attempts that report none leave the budget as it was. */
  lemma {:induction false} SilenceKeepsBudget(budget: Option<int>, exs: seq<Exchange>)
    requires forall ex <- exs :: !ReportsBudget(ex)
    ensures BudgetAfter(budget, exs) == budget
  {
    if exs != [] {
      assert exs[|exs| - 1] in exs;
      SilenceKeepsBudget(budget, exs[..|exs| - 1]);
    }
  }

  ghost predicate BelowFloor(cfg: Config, budget: Option<int>) {
    budget.Some? && budget.value < cfg.floor
  }

  /** Page 1 was served, and at two tokens each the other pages would eat into the reserve. */
  ghost predicate TooDear(s: State, budget: Option<int>) {
    && FirstResult(s).Some? && FirstResult(s).value.Served?
    && var left := BudgetAfter(budget, s.fetches[0]);
       left.Some? && left.value - 2 * (FirstResult(s).value.page.pages - 1) < s.cfg.reserve
  }

  ghost predicate Judged(s: State, budget: Option<int>) {
    match s.sweeper
    case Starting => s.fetches == [] && s.budget == budget
    case FetchingFirst => s.fetches == [] && s.budget == budget && !BelowFloor(s.cfg, budget)
    case SendingFirst(_) => !BelowFloor(s.cfg, budget) && s.fetches != [] && !TooDear(s, budget)
    case Working(_) => !BelowFloor(s.cfg, budget) && s.fetches != [] && !TooDear(s, budget)
    case Returned(err, _) =>
      && (err == Some(Deferred) <==> BelowFloor(s.cfg, budget) || TooDear(s, budget))
      && (s.fetches == [] <==> BelowFloor(s.cfg, budget))
  }

  lemma FirstFetchIsJudged(exs: seq<Exchange>, s: State, budget: Option<int>)
    requires Control(s) && Judged(s, budget) && Enabled(FirstFetched(exs), s)
    ensures Judged(Apply(FirstFetched(exs), s), budget)
  {
    var s' := Apply(FirstFetched(exs), s);
    assert s'.fetches == [exs] && s'.budget == BudgetAfter(budget, exs) && s'.cfg == s.cfg;
    assert FirstResult(s') == Some(exs[|exs| - 1]);
  }

  /** No other step touches what the fetch of page 1 decided. */
  lemma DecisionStays(a: Action, s: State, budget: Option<int>)
    requires Control(s) && Enabled(a, s) && !a.FirstFetched? && (a.WorkerFetched? ==> s.fetches != [])
    ensures var s' := Apply(a, s);
            && s'.cfg == s.cfg
            && (s'.fetches == [] <==> s.fetches == [])
            && (s.fetches != [] ==> s'.fetches[0] == s.fetches[0] && (TooDear(s', budget) <==> TooDear(s, budget)))
  {
    var s' := Apply(a, s);
    assert s'.cfg == s.cfg;
    assert s.fetches != [] ==> s'.fetches != [] && s'.fetches[0] == s.fetches[0];
  }

  lemma OtherStepsKeepJudged(a: Action, s: State, budget: Option<int>)
    requires Control(s) && Judged(s, budget) && Enabled(a, s) && !a.FirstFetched?
    ensures Judged(Apply(a, s), budget)
  {
    DecisionStays(a, s, budget);
  }

  lemma StepKeepsJudged(a: Action, s: State, budget: Option<int>)
    requires Control(s) && Judged(s, budget) && Enabled(a, s)
    ensures Judged(Apply(a, s), budget)
  {
    if a.FirstFetched? {
      FirstFetchIsJudged(a.exs, s, budget);
    } else {
      OtherStepsKeepJudged(a, s, budget);
    }
  }

  lemma {:induction false} RunsAreJudged(acts: seq<Action>, cfg: Config, budget: Option<int>)
    requires CanRun(acts, Begin(cfg, budget))
    ensures Judged(Run(acts, Begin(cfg, budget)), budget)
  {
    if acts != [] {
      var front := acts[..|acts| - 1];
      RunsAreJudged(front, cfg, budget);
      RunKeepsInv(front, Begin(cfg, budget));
      StepKeepsJudged(acts[|acts| - 1], Run(front, Begin(cfg, budget)), budget);
    }
  }

  /** A sweep is deferred if and only if it began with a budget known to be below the floor, or page 1 was
      served and left a budget that the other pages, at two tokens each, would take below the reserve. It
      makes no request if and only if the budget was below the floor. */
  lemma DeferredExactlyWhen(cfg: Config, budget: Option<int>, acts: seq<Action>)
    requires Completed(cfg, budget, acts)
    ensures var s := FinalState(cfg, budget, acts);
            && s.sweeper.Returned?
            && (s.sweeper.err == Some(Deferred) <==> BelowFloor(cfg, budget) || TooDear(s, budget))
            && (s.fetches == [] <==> BelowFloor(cfg, budget))
  {
    RunsAreJudged(acts, cfg, budget);
    InvFromBegin(cfg, budget, acts);
    ConfigIsFixed(acts, Begin(cfg, budget));
  }

  // ----- Failure -----

  /** The result of the first page fetch to end without its page. */
  ghost function FirstUnserved(fetches: seq<seq<Exchange>>): Option<Exchange> {
    if fetches == [] then None
    else
      var first, exs := FirstUnserved(fetches[..|fetches| - 1]), fetches[|fetches| - 1];
      if first.Some? || exs == [] || exs[|exs| - 1].Served? then first else Some(exs[|exs| - 1])
  }

  lemma FirstUnservedPush(fetches: seq<seq<Exchange>>, exs: seq<Exchange>)
    ensures var first := FirstUnserved(fetches);
            FirstUnserved(fetches + [exs]) ==
            if first.Some? || exs == [] || exs[|exs| - 1].Served? then first else Some(exs[|exs| - 1])
  {
    assert (fetches + [exs])[..|fetches|] == fetches;
  }

  predicate Undisturbed(s: State) {
    !s.cancelled && !s.shutdown
  }

  /** `http` is the HTTP error that the first failed fetch wraps; it may be missing if something else
      disturbed the sweep first. */
  ghost predicate CauseOfFirst(http: Option<Response>, first: Option<Exchange>, undisturbed: bool) {
    && (http.Some? ==> first == Some(Refused(http.value)))
    && (undisturbed ==> first.Some? && (first.value.Refused? ==> http == Some(first.value.resp)))
  }

  ghost predicate CauseIsReal(s: State) {
    var first := FirstUnserved(s.fetches);
    match s.sweeper
    case Working(crew) =>
      && (first.Some? ==> crew.failed)
      && (!crew.failed ==> crew.cause == None)
      && (crew.failed ==> CauseOfFirst(crew.cause, first, Undisturbed(s)))
    case Returned(Some(FetchFailed(http)), _) => CauseOfFirst(http, first, Undisturbed(s))
    case _ => first == None
  }

  lemma FirstFetchKeepsCause(exs: seq<Exchange>, s: State)
    requires Control(s) && CauseIsReal(s) && Enabled(FirstFetched(exs), s)
    ensures CauseIsReal(Apply(FirstFetched(exs), s))
  {
    FirstUnservedPush([], exs);
    assert Apply(FirstFetched(exs), s).fetches == [] + [exs];
  }

  lemma WorkerFetchKeepsCause(i: nat, exs: seq<Exchange>, s: State)
    requires Control(s) && CauseIsReal(s) && Enabled(WorkerFetched(i, exs), s)
    ensures CauseIsReal(Apply(WorkerFetched(i, exs), s))
  {
    FirstUnservedPush(s.fetches, exs);
  }

  lemma OtherStepsKeepCause(a: Action, s: State)
    requires Control(s) && CauseIsReal(s) && Enabled(a, s) && !a.FirstFetched? && !a.WorkerFetched?
    ensures CauseIsReal(Apply(a, s))
  {
    assert Apply(a, s).fetches == s.fetches;
  }

  lemma StepKeepsCause(a: Action, s: State)
    requires Control(s) && CauseIsReal(s) && Enabled(a, s)
    ensures CauseIsReal(Apply(a, s))
  {
    match a
    case FirstFetched(exs) => FirstFetchKeepsCause(exs, s);
    case WorkerFetched(i, exs) => WorkerFetchKeepsCause(i, exs, s);
    case _ => OtherStepsKeepCause(a, s);
  }

  lemma {:induction false} CausesAreReal(acts: seq<Action>, cfg: Config, budget: Option<int>)
    requires CanRun(acts, Begin(cfg, budget))
    ensures CauseIsReal(Run(acts, Begin(cfg, budget)))
  {
    if acts != [] {
      var front := acts[..|acts| - 1];
      CausesAreReal(front, cfg, budget);
      RunKeepsInv(front, Begin(cfg, budget));
      StepKeepsCause(acts[|acts| - 1], Run(front, Begin(cfg, budget)));
    }
  }

  /** A sweep with a page that was not served fails as such, whatever else is wrong with its pages. The
      HTTP error it carries is the refusal of the first fetch to fail; and unless the copy failed or the
      process was ending, it fails only if some page was not served, and if the first of those was refused
      it carries that refusal. */
  lemma FailureCause(cfg: Config, budget: Option<int>, acts: seq<Action>)
    requires Completed(cfg, budget, acts)
    ensures var s := FinalState(cfg, budget, acts);
            var first := FirstUnserved(s.fetches);
            && s.sweeper.Returned?
            && (first.Some? ==> s.sweeper.err.Some? && s.sweeper.err.value.FetchFailed?)
            && (s.sweeper.err.Some? && s.sweeper.err.value.FetchFailed? ==>
                  && var http := s.sweeper.err.value.http;
                     && (http.Some? ==> first == Some(Refused(http.value)))
                     && (!s.cancelled && !s.shutdown ==>
                           first.Some? && (first.value.Refused? ==> http == Some(first.value.resp))))
  {
    CausesAreReal(acts, cfg, budget);
    InvFromBegin(cfg, budget, acts);
  }
}
