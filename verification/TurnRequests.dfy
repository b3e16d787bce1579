/** How many page requests one turn of a region can make, and what its cycles cost, in terms of the
    responses that arrived. */
module TurnRequests {
  import opened Common
  import opened Esi
  import opened Fetch
  import opened Sweep
  import opened SweepInvariant
  import opened SweepTheorems
  import opened SweepOutcomes
  import opened CycleRun
  import Passes

  lemma OneMore(n: nat, k: nat)
    ensures (n + 1) * k == n * k + k
  {
  }

  /** The responses that arrived during the cycle. */
  function During(c: CycleRecord, log: seq<Arrival>): seq<Arrival>
    requires c.begin.log <= c.end.log <= |log|
  {
    log[c.begin.log..c.end.log]
  }

  lemma {:induction false} AnswerOfFetch(fetches: seq<seq<Exchange>>, i: nat, r: Response)
    requires i < |fetches| && r in Answers(fetches[i])
    ensures r in AllAnswers(fetches)
  {
    if i < |fetches| - 1 {
      AnswerOfFetch(fetches[..|fetches| - 1], i, r);
    }
  }

  lemma {:induction false} SpendAllIsPrice(fetches: seq<seq<Exchange>>)
    ensures SpendAll(fetches) == Price(AllAnswers(fetches))
  {
    if fetches != [] {
      var n := |fetches| - 1;
      SpendAllIsPrice(fetches[..n]);
      SpendIsPrice(fetches[n]);
      PriceConcat(AllAnswers(fetches[..n]), Answers(fetches[n]));
    }
  }

  /** The tokens a cycle reports are what the responses that arrived during it cost. */
  lemma CycleTokens(c: CycleRecord, log: seq<Arrival>, cfg: Config)
    requires Counted(c, cfg) && Answered(c, log)
    ensures FinalState(cfg, c.budget, c.acts).meta.tokens == Price(Responses(During(c, log)))
  {
    SpendingIsAccounted(cfg, c.budget, c.acts);
    SpendAllIsPrice(c.fetches);
  }

  /** A page count above one is the X-Pages of a response that arrived during the cycle. */
  lemma PagesWereAnswered(c: CycleRecord, log: seq<Arrival>, cfg: Config)
    requires Counted(c, cfg) && Answered(c, log)
    ensures var pages := FinalState(cfg, c.budget, c.acts).meta.pages;
            pages <= 1 || exists j :: c.begin.log <= j < c.end.log && log[j].resp.xPages == Some(pages)
  {
    var s := FinalState(cfg, c.budget, c.acts);
    if s.meta.pages > 1 {
      RunsFromPageOne(c.acts, cfg, c.budget);
      InvFromBegin(cfg, c.budget, c.acts);
      var exs := c.fetches[0];
      var ex := exs[|exs| - 1];
      assert exs in s.fetches && Attempts(exs, s.cfg.pageAttempts) && WellFormed(ex);
      assert ex.resp in Answers(exs);
      AnswerOfFetch(c.fetches, 0, ex.resp);
      var k := ResponseOf(During(c, log), ex.resp);
      assert log[c.begin.log + k] == During(c, log)[k];
    }
  }

  predicate XPagesWithin(r: Response, largest: nat) {
    r.xPages.Some? ==> r.xPages.value <= largest
  }

  /** One cycle makes at most PageAttempts requests for each page of the largest X-Pages it was told. */
  lemma CycleRequests(c: CycleRecord, log: seq<Arrival>, cfg: Config, largest: nat)
    requires Counted(c, cfg) && Answered(c, log) && 1 <= largest
    requires forall j :: c.begin.log <= j < c.end.log ==> XPagesWithin(log[j].resp, largest)
    ensures c.end.req - c.begin.req <= largest * cfg.pageAttempts
  {
    PagesWereAnswered(c, log, cfg);
    SpendingIsAccounted(cfg, c.budget, c.acts);
    ProductMonotone(Max(1, FinalState(cfg, c.budget, c.acts).meta.pages), largest, cfg.pageAttempts);
  }

  /** Every recorded cycle was counted and answered. */
  ghost predicate Recorded(tr: Passes.Trace, cfg: Config) {
    (forall c <- tr.cycles :: Counted(c, cfg)) && AllAnswered(tr.cycles, tr.log)
  }

  lemma {:induction false} AttemptRequests(
    id: int, begin: Mark, tr: Passes.Trace, upTo: nat, sched: Passes.Config, cfg: Config, largest: nat)
    requires begin.cycles < upTo <= |tr.cycles| && Passes.Attempted(id, begin, tr, upTo, sched)
    requires Recorded(tr, cfg) && 1 <= largest
    requires forall j :: begin.log <= j < tr.cycles[upTo - 1].end.log && j < |tr.log| ==>
                           XPagesWithin(tr.log[j].resp, largest)
    ensures tr.cycles[upTo - 1].end.req - begin.req <= (upTo - begin.cycles) * (largest * cfg.pageAttempts)
    ensures begin.log <= tr.cycles[upTo - 1].end.log <= |tr.log|
    decreases upTo
  {
    var c := tr.cycles[upTo - 1];
    EveryCycleAnswered(tr.cycles, tr.log, c);
    if begin.cycles < upTo - 1 {
      assert Passes.RetryOk(upTo - 1, begin.cycles, tr, sched);
      AttemptRequests(id, begin, tr, upTo - 1, sched, cfg, largest);
      OneMore(upTo - 1 - begin.cycles, largest * cfg.pageAttempts);
    }
    CycleRequests(c, tr.log, cfg, largest);
  }

  /** A recorded turn of a retried region issues at most MaxAttempts x PageAttempts x the largest X-Pages
      among the responses that arrived during it, a turn of any other region at most PageAttempts x the
      largest X-Pages. */
  lemma TurnRequestBound(t: Passes.Turn, tr: Passes.Trace, sched: Passes.Config, cfg: Config, largest: nat)
    requires Passes.TurnOk(t, tr, sched) && Recorded(tr, cfg) && 1 <= largest
    requires forall j :: t.begin.log <= j < t.end.log ==> XPagesWithin(tr.log[j].resp, largest)
    ensures t.end.req - t.begin.req <=
            (if t.region.priority <= Passes.RETRY_MAX_PRIORITY then sched.maxAttempts else 1)
            * (largest * cfg.pageAttempts)
  {
    if Passes.AttemptsOf(t) > 0 {
      AttemptRequests(t.region.id, t.begin, tr, t.end.cycles, sched, cfg, largest);
      ProductMonotone(Passes.AttemptsOf(t), Passes.AttemptsFor(t.region, sched), largest * cfg.pageAttempts);
    }
  }
}
