/** What a whole run of the scheduler means during an upstream outage: no cycle starts against an armed
    gate, each pass makes one request, and the request rate is bounded. */
module OutageSpell {
  import opened Common
  import opened Esi
  import opened CycleRun
  import opened Passes

  /** How many responses had arrived before t, or by t. */
  function ArrivedBefore(log: seq<Arrival>, t: nat): nat {
    if log == [] then 0 else ArrivedBefore(log[..|log| - 1], t) + if log[|log| - 1].at < t then 1 else 0
  }

  function ArrivedBy(log: seq<Arrival>, t: nat): nat {
    if log == [] then 0 else ArrivedBy(log[..|log| - 1], t) + if log[|log| - 1].at <= t then 1 else 0
  }

  lemma {:induction false} CutCounts(log: seq<Arrival>, n: nat, t: nat)
    requires n <= |log|
    requires forall j :: 0 <= j < n ==> log[j].at <= t
    requires forall j :: n <= j < |log| ==> log[j].at >= t
    ensures ArrivedBefore(log, t) <= n <= ArrivedBy(log, t)
  {
    if log != [] {
      CutCounts(log[..|log| - 1], if n == |log| then n - 1 else n, t);
    }
  }

  /** Safety over whole runs: whatever the upstream answers, no region cycle, first attempt or retry,
      ever starts at an instant at which the responses that had arrived by then have the outage gate
      armed. The runner records every cycle it starts, and the client every response; a response that
      arrives at that very instant may count or not. */
  lemma NoCycleStartsWhilePaused(cycles: seq<CycleRecord>, log: seq<Arrival>, c: CycleRecord) returns (n: nat)
    requires AllSafe(cycles, log) && Ordered(log) && c in cycles
    ensures ArrivedBefore(log, c.begin.at) <= n <= ArrivedBy(log, c.begin.at) && n <= |log|
    ensures forall j :: 0 <= j < n ==> log[j].at <= c.begin.at
    ensures forall j :: n <= j < |log| ==> log[j].at >= c.begin.at
    ensures TrailingErrors(log[..n]) >= OUTAGE_THRESHOLD ==>
              forall j :: n - TrailingErrors(log[..n]) + 1 <= j < n ==> PauseEnd(log[j]) <= c.begin.at
  {
    n := c.begin.log;
    AllSafeMeans(cycles, log, c);
    CutMeans(log, n, c.begin.at);
    CutCounts(log, n, c.begin.at);
    PausedUntilIsMaximum(log[..n]);
    forall j | 0 <= j < n && n - TrailingErrors(log[..n]) + 1 <= j
      ensures TrailingErrors(log[..n]) >= OUTAGE_THRESHOLD ==> PauseEnd(log[j]) <= c.begin.at
    {
      assert log[..n][j] == log[j];
    }
  }

  /** A server error without Retry-After and without error-limit headers. */
  predicate Bare(a: Arrival) {
    a.resp.status >= 500 && a.resp.retryAfter <= 0 && a.resp.errorRemain.None?
  }

  /** Every request of passes lo..hi was answered, and every answer is a bare server error. */
  ghost predicate Unbroken(passes: seq<Pass>, log: seq<Arrival>, lo: nat, hi: nat)
    requires hi <= |passes|
  {
    forall i :: lo <= i < hi ==> AnsweredBare(passes[i], log)
  }

  ghost predicate AnsweredBare(p: Pass, log: seq<Arrival>) {
    && p.begin.log <= p.end.log <= |log|
    && p.end.log - p.begin.log == p.end.req - p.begin.req
    && forall j :: p.begin.log <= j < p.end.log ==> Bare(log[j])
  }

  /** The next pass starts at most `slack` after the canary interval that follows a failed probe. */
  ghost predicate Prompt(passes: seq<Pass>, lo: nat, hi: nat, cfg: Config, slack: nat)
    requires hi <= |passes|
  {
    forall i :: lo <= i < hi - 1 && passes[i].kind.Paused? ==> OnTime(passes[i], passes[i + 1], cfg, slack)
  }

  ghost predicate OnTime(p: Pass, q: Pass, cfg: Config, slack: nat)
    requires p.kind.Paused?
  {
    q.begin.at <= p.kind.answered + cfg.canaryInterval + slack
  }

  /** One failed probe keeps the gate armed past the start of the next pass. */
  lemma ProbeRearms(p: Pass, q: Pass, tr: Trace, regions: seq<Region>, cfg: Config, slack: nat, ended: bool)
    requires PassOk(p, tr, regions, cfg, false) && PassOk(q, tr, regions, cfg, ended)
    requires Idle(p.end, q.begin) && p.kind.Paused? && AnsweredBare(p, tr.log) && OnTime(p, q, cfg, slack)
    requires cfg.canaryInterval + slack < DEFAULT_OUTAGE_PAUSE
    ensures q.kind.Paused?
    ensures p.end.req == p.begin.req + 1 && q.begin.at >= tr.issued[p.begin.req] + cfg.canaryInterval
  {
    var log := tr.log;
    var before, a := log[..p.begin.log], log[p.begin.log];
    assert Bare(a);
    assert log[..q.begin.log] == before + [a];
    OutageTracksHistory(before, a);
    OtherGatesTrackHistory(before, a);
    PausedUntilIsMaximum(before);
    assert PausedUntil(log[..q.begin.log]) >= PauseEnd(a);
    assert BlockedUntil(log[..q.begin.log]) == Max(BlockedUntil(before), BlockEnd(a));
  }

  /** Passes lo..hi all find the gate armed and issue exactly one request each, one after the other
      and a canary interval apart; only a last pass in which the process ended may issue none. */
  ghost predicate OneProbeEach(passes: seq<Pass>, issued: seq<nat>, lo: nat, hi: nat, cfg: Config, ended: bool)
    requires lo < hi <= |passes|
  {
    && (forall i :: lo <= i < hi ==>
          && passes[i].kind.Paused?
          && passes[i].begin.req == passes[lo].begin.req + (i - lo)
          && (passes[i].end.req == passes[i].begin.req + 1
              || (ended && i == hi - 1 && passes[i].end.req == passes[i].begin.req)))
    && passes[hi - 1].end.req <= |issued|
    && Spaced(issued, passes[lo].begin.req, passes[hi - 1].end.req, cfg.canaryInterval)
  }

  ghost predicate Spaced(issued: seq<nat>, lo: nat, hi: nat, gap: nat)
    requires lo <= hi <= |issued|
  {
    forall x, y :: lo <= x && x + 1 == y < hi ==> issued[y] >= issued[x] + gap
  }

  /** Pass i of the first hi obeys its gates, unless it is the last of them and the process ended in it. */
  ghost predicate ObeysGates(i: nat, passes: seq<Pass>, tr: Trace, regions: seq<Region>, cfg: Config,
                             hi: nat, ended: bool)
    requires i < |passes|
  {
    PassOk(passes[i], tr, regions, cfg, ended && i == hi - 1)
  }

  ghost predicate GatesObeyed(passes: seq<Pass>, tr: Trace, regions: seq<Region>, cfg: Config,
                              lo: nat, hi: nat, ended: bool)
    requires hi <= |passes|
  {
    forall i :: lo <= i < hi ==> ObeysGates(i, passes, tr, regions, cfg, hi, ended)
  }

  /** The passes lo..hi of a run with the hypotheses of a spell. What the last of them is answered does
      not matter, and the process may end in it. */
  ghost predicate Spell(passes: seq<Pass>, tr: Trace, regions: seq<Region>, cfg: Config,
                        lo: nat, hi: nat, slack: nat, ended: bool)
  {
    && lo < hi <= |passes|
    && GatesObeyed(passes, tr, regions, cfg, lo, hi, ended)
    && (forall i, j :: lo <= i && i + 1 == j < hi ==> Idle(passes[i].end, passes[j].begin))
    && passes[lo].kind.Paused? && Unbroken(passes, tr.log, lo, hi - 1) && Prompt(passes, lo, hi, cfg, slack)
    && cfg.canaryInterval + slack < DEFAULT_OUTAGE_PAUSE
  }

  /** During an unbroken spell, from the first failed probe on, the gate stays armed from pass to pass
      and each pass issues exactly one request, at least a canary interval after the one before. */
  lemma {:induction false} SpellStaysPaused(
    passes: seq<Pass>, tr: Trace, regions: seq<Region>, cfg: Config, lo: nat, hi: nat, slack: nat, ended: bool)
    requires Spell(passes, tr, regions, cfg, lo, hi, slack, ended)
    ensures OneProbeEach(passes, tr.issued, lo, hi, cfg, ended)
    decreases hi
  {
    assert ObeysGates(hi - 1, passes, tr, regions, cfg, hi, ended);
    if hi > lo + 1 {
      SpellBefore(passes, tr, regions, cfg, lo, hi, slack, ended);
      SpellStaysPaused(passes, tr, regions, cfg, lo, hi - 1, slack, false);
      assert ObeysGates(hi - 2, passes, tr, regions, cfg, hi, ended);
      assert OnTime(passes[hi - 2], passes[hi - 1], cfg, slack);
      SpellGoesOn(passes, tr, regions, cfg, lo, hi, slack, ended);
    } else {
      FirstProbe(passes[lo], tr, regions, cfg, ended);
    }
  }

  lemma SpellGoesOn(
    passes: seq<Pass>, tr: Trace, regions: seq<Region>, cfg: Config, lo: nat, hi: nat, slack: nat, ended: bool)
    requires lo + 1 < hi <= |passes| && OneProbeEach(passes, tr.issued, lo, hi - 1, cfg, false)
    requires cfg.canaryInterval + slack < DEFAULT_OUTAGE_PAUSE
    requires var p, q := passes[hi - 2], passes[hi - 1];
             && PassOk(p, tr, regions, cfg, false) && PassOk(q, tr, regions, cfg, ended)
             && Idle(p.end, q.begin) && AnsweredBare(p, tr.log) && p.kind.Paused? && OnTime(p, q, cfg, slack)
    ensures OneProbeEach(passes, tr.issued, lo, hi, cfg, ended)
  {
    var p, q := passes[hi - 2], passes[hi - 1];
    ProbeRearms(p, q, tr, regions, cfg, slack, ended);
    ProbeIsNext(p, q, tr, regions, cfg, ended);
    OneMoreProbe(passes, tr.issued, lo, hi, cfg, ended);
  }

  lemma SpellBefore(passes: seq<Pass>, tr: Trace, regions: seq<Region>, cfg: Config,
                    lo: nat, hi: nat, slack: nat, ended: bool)
    requires Spell(passes, tr, regions, cfg, lo, hi, slack, ended) && lo + 1 < hi
    ensures Spell(passes, tr, regions, cfg, lo, hi - 1, slack, false)
    ensures AnsweredBare(passes[hi - 2], tr.log) && Idle(passes[hi - 2].end, passes[hi - 1].begin)
  {
    assert AnsweredBare(passes[hi - 2], tr.log);
    var last := hi - 1;
    forall i | lo <= i < last
      ensures ObeysGates(i, passes, tr, regions, cfg, last, false)
    {
      assert ObeysGates(i, passes, tr, regions, cfg, hi, ended);
    }
  }

  lemma FirstProbe(q: Pass, tr: Trace, regions: seq<Region>, cfg: Config, ended: bool)
    requires PassOk(q, tr, regions, cfg, ended) && q.kind.Paused?
    ensures q.end.req <= |tr.issued|
    ensures q.end.req == q.begin.req + 1 || (ended && q.end.req == q.begin.req)
  {
  }

  lemma OneMoreProbe(passes: seq<Pass>, issued: seq<nat>, lo: nat, hi: nat, cfg: Config, ended: bool)
    requires lo + 1 < hi <= |passes| && OneProbeEach(passes, issued, lo, hi - 1, cfg, false)
    requires var p, q := passes[hi - 2], passes[hi - 1];
             && q.kind.Paused? && q.begin.req == p.end.req && q.end.req <= |issued|
             && (q.end.req == q.begin.req + 1 || (ended && q.end.req == q.begin.req))
             && (q.end.req > q.begin.req ==> issued[q.begin.req] >= issued[p.begin.req] + cfg.canaryInterval)
    ensures OneProbeEach(passes, issued, lo, hi, cfg, ended)
  {
  }

  lemma ProbeIsNext(p: Pass, q: Pass, tr: Trace, regions: seq<Region>, cfg: Config, ended: bool)
    requires PassOk(q, tr, regions, cfg, ended) && Idle(p.end, q.begin) && q.kind.Paused?
    ensures q.begin.req == p.end.req && q.end.req <= |tr.issued|
    ensures q.end.req == q.begin.req + 1 || (ended && q.end.req == q.begin.req)
    ensures q.end.req > q.begin.req ==> tr.issued[q.begin.req] >= q.begin.at
  {
  }

  // ----- Counting requests in a window -----

  /** How many of the requests lo..hi were issued between `from` and `from + width`. */
  function InWindow(issued: seq<nat>, lo: nat, hi: nat, from: nat, width: nat): nat
    requires lo <= hi <= |issued|
    decreases hi
  {
    if lo == hi then 0
    else InWindow(issued, lo, hi - 1, from, width) + if from <= issued[hi - 1] <= from + width then 1 else 0
  }

  lemma {:induction false} LaterByAGap(issued: seq<nat>, lo: nat, hi: nat, gap: nat, x: nat, y: nat)
    requires lo <= x < y < hi <= |issued| && Spaced(issued, lo, hi, gap)
    ensures issued[y] >= issued[x] + gap
    decreases y
  {
    if x + 1 < y {
      LaterByAGap(issued, lo, hi, gap, x, y - 1);
    }
  }

  /** The last request in the window is at least as many gaps into it as there are others before it. */
  lemma {:induction false} LastInWindow(issued: seq<nat>, lo: nat, hi: nat, gap: nat, from: nat, width: nat)
    returns (last: nat)
    requires lo <= hi <= |issued| && Spaced(issued, lo, hi, gap)
    ensures var n := InWindow(issued, lo, hi, from, width);
            n > 0 ==> lo <= last < hi && from + (n - 1) * gap <= issued[last] <= from + width
    decreases hi
  {
    last := 0;
    if lo < hi {
      last := LastInWindow(issued, lo, hi - 1, gap, from, width);
      var n := InWindow(issued, lo, hi - 1, from, width);
      if from <= issued[hi - 1] <= from + width {
        if n > 0 {
          LaterByAGap(issued, lo, hi, gap, last, hi - 1);
          assert n * gap == (n - 1) * gap + gap;
        }
        last := hi - 1;
      }
    }
  }

  lemma TooManyGaps(steps: nat, gap: nat, width: nat)
    requires gap > 0 && steps > width / gap
    ensures steps * gap > width
  {
    var k := width / gap + 1;
    assert k * gap == (width / gap) * gap + gap > width;
    assert steps * gap == k * gap + (steps - k) * gap;
    assert (steps - k) * gap >= 0;
  }

  /** Requests at least a gap apart: any window holds at most one more than its width in gaps. */
  lemma WindowBound(issued: seq<nat>, lo: nat, hi: nat, gap: nat, from: nat, width: nat)
    requires lo <= hi <= |issued| && gap > 0 && Spaced(issued, lo, hi, gap)
    ensures InWindow(issued, lo, hi, from, width) <= width / gap + 1
  {
    var _ := LastInWindow(issued, lo, hi, gap, from, width);
    var n := InWindow(issued, lo, hi, from, width);
    if n > 0 && n - 1 > width / gap {
      TooManyGaps(n - 1, gap, width);
    }
  }

  lemma SpellOfRun(
    from: Mark, due: map<int, nat>, passes: seq<Pass>, to: Mark, due': map<int, nat>, tr: Trace,
    regions: seq<Region>, cfg: Config, ended: bool, lo: nat, hi: nat)
    requires RunOk(from, due, passes, to, due', tr, regions, cfg, ended) && lo < hi <= |passes|
    ensures GatesObeyed(passes, tr, regions, cfg, lo, hi, ended && hi == |passes|)
    ensures forall i, j :: lo <= i && i + 1 == j < hi ==> Idle(passes[i].end, passes[j].begin)
  {
    var cut := ended && hi == |passes|;
    forall i | lo <= i < hi
      ensures ObeysGates(i, passes, tr, regions, cfg, hi, cut)
      ensures i + 1 < hi ==> Idle(passes[i].end, passes[i + 1].begin)
    {
      PassOfRun(from, due, passes, to, due', tr, regions, cfg, ended, i);
      assert (cut && i == hi - 1) == (ended && i == |passes| - 1);
    }
  }

  /** The rate bound: in any run, the one that ends in a shutdown included, during an unbroken spell of
      bare server errors, from the first failed probe on, any window of width W holds at most
      W / CanaryInterval + 1 requests, provided the canary interval plus one tick is shorter than the
      default pause. */
  lemma SpellRateBound(
    from: Mark, due: map<int, nat>, passes: seq<Pass>, to: Mark, due': map<int, nat>, tr: Trace,
    regions: seq<Region>, cfg: Config, ended: bool, lo: nat, hi: nat, slack: nat, start: nat, width: nat)
    requires RunOk(from, due, passes, to, due', tr, regions, cfg, ended) && lo < hi <= |passes|
    requires passes[lo].kind.Paused? && Unbroken(passes, tr.log, lo, hi - 1) && Prompt(passes, lo, hi, cfg, slack)
    requires 0 < cfg.canaryInterval && cfg.canaryInterval + slack < DEFAULT_OUTAGE_PAUSE
    ensures passes[lo].begin.req <= passes[hi - 1].end.req <= |tr.issued|
    ensures InWindow(tr.issued, passes[lo].begin.req, passes[hi - 1].end.req, start, width)
            <= width / cfg.canaryInterval + 1
  {
    SpellOfRun(from, due, passes, to, due', tr, regions, cfg, ended, lo, hi);
    SpellStaysPaused(passes, tr, regions, cfg, lo, hi, slack, ended && hi == |passes|);
    WindowBound(tr.issued, passes[lo].begin.req, passes[hi - 1].end.req, cfg.canaryInterval, start, width);
  }
}
