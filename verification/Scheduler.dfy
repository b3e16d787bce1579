/** The timed loop over the regions and its gates. */
module Scheduler {
  import opened Common
  import opened Esi
  import opened Reports
  import opened Sorting
  import opened CycleRun
  import opened Passes
  import Fetch

  /** What a turn does to the due times and to the reports. */
  ghost predicate Settled(t: Turn, due: map<int, nat>, due': map<int, nat>, log: seq<Event>, log': seq<Event>) {
    due' == DueAfterTurn(due, t) && log' == AfterTurn(log, t)
  }

  class Scheduler {
    const runner: CycleRunner
    const client: Client
    const reports: Streak
    const regions: seq<Region>
    const cfg: Config
    var due: map<int, nat>

    ghost predicate Valid()
      reads reports, runner, runner.database.store, client, client.budget, client.errorLimit, client.outage
    {
      Safe() && reports.Valid()
    }

    /** The gates are functions of the history, and every cycle so far started safely. */
    ghost predicate Safe()
      reads runner, runner.database.store, client, client.budget, client.errorLimit, client.outage
    {
      runner.fetcher.client == client && runner.Valid() && AllSafe(runner.cycles, client.log)
    }

    /** Neither a response nor a cycle comes from the future. */
    ghost predicate InTime(world: World)
      reads world, client, runner
    {
      client.Timely(world) && LastStart(runner.cycles) <= world.now
    }

    /** At any time: responses are in order, every cycle so far started while the outage gate was open,
        each was counted and answered by the responses that arrived, and every table ever visible of the
        watched region is a whole snapshot, with a status row that counts its cycles' endings. */
    lemma WhatIsValid()
      requires Valid()
      ensures Ordered(client.log) && AllSafe(runner.cycles, client.log)
      ensures forall c <- runner.cycles :: Counted(c, runner.fetcher.cfg)
      ensures AllAnswered(runner.cycles, client.log) && AllTold(runner.cycles, runner.watched, runner.fetcher.cfg)
      ensures runner.database.store.Valid() && runner.database.store.ends == Endings(runner.cycles)
    {
    }

    /** Every region has a due time. */
    ghost predicate Primed()
      reads this`due
    {
      forall r <- regions :: r.id in due
    }

    ghost function Now(world: World): Mark
      reads world, client, runner
    {
      Mark(world.now, |client.log|, |client.issued|, |runner.cycles|)
    }

    ghost function History(): Trace
      reads client, runner
    {
      Trace(client.log, client.issued, runner.cycles)
    }

    constructor (runner: CycleRunner, regions: seq<Region>, cfg: Config)
      ensures this.runner == runner && this.client == runner.fetcher.client && this.cfg == cfg
      ensures due == map[] && fresh(reports) && reports.Valid() && reports.log == []
      ensures multiset(this.regions) == multiset(regions) && SortedBy(this.regions, Before)
    {
      this.runner, this.client, this.cfg := runner, runner.fetcher.client, cfg;
      this.regions := Sort(regions, Before);
      reports := new Streak();
      due := map[];
      new;
      SortIsSorted(regions, Before);
    }

    /** When to fetch a region whose snapshot expires at exp: never less than five seconds ahead. */
    method NextDue(now: nat, exp: int) returns (t: nat)
      ensures t >= now + 5 * SECOND && DueFor(now, exp, t, cfg)
    {
      if exp == 0 {
        return now + 5 * MINUTE;
      }
      var jitter: nat :| jitter <= cfg.maxJitter;
      var due := exp + SECOND + jitter;
      var least := now + 5 * SECOND;
      if due < least {
        return least;
      }
      t := due;
    }

    /** Learns each region's expiry from its first page, without a sweep: one request each, and each
        region is due as its request said. */
    method Prime(world: World) returns (ok: bool, ghost tried: seq<Fetch.Try>)
      requires Valid() && InTime(world)
      modifies world, this`due, runner.fetcher`tries, client, client.budget, client.errorLimit, client.outage
      ensures Valid() && InTime(world)
      ensures if ok then Primed() && |tried| == |regions| && PrimedFrom(tried, regions, due, cfg) else world.done
      ensures world.now >= old(world.now) && (old(world.done) ==> world.done)
      ensures runner.fetcher.tries == old(runner.fetcher.tries) + tried
      ensures |client.issued| <= |old(client.issued)| + |regions|
    {
      tried := [];
      for i := 0 to |regions|
        invariant Valid() && InTime(world)
        invariant world.now >= old(world.now) && (old(world.done) ==> world.done)
        invariant |client.issued| <= |old(client.issued)| + i
        invariant runner.fetcher.tries == old(runner.fetcher.tries) + tried
        invariant |tried| == i && PrimedFrom(tried, regions, due, cfg)
      {
        ghost var due0, earlier := due, tried;
        var ex;
        ghost var t;
        ex, t := Request(world);
        tried := tried + [t];
        ConcatAssociates(old(runner.fetcher.tries), earlier, [t]);
        if !ex.Served? && world.done {
          return false, tried;
        }
        var next := FirstDue(ex, world.now);
        PrimedPush(earlier, regions, due0, cfg, t, next);
        due := due[regions[i].id := next];
      }
      AllPrimed(tried);
      ok := true;
    }

    /** A served page sets the due time by its expiry; otherwise the region is tried again shortly. */
    method FirstDue(ex: Fetch.Exchange, now: nat) returns (t: nat)
      ensures if ex.Served? then DueFor(now, ex.page.expires, t, cfg) else t == now + 30 * SECOND
    {
      if ex.Served? {
        t := NextDue(now, ex.page.expires);
      } else {
        t := now + 30 * SECOND;
      }
    }

    lemma AllPrimed(tried: seq<Fetch.Try>)
      requires |tried| == |regions| && PrimedFrom(tried, regions, due, cfg)
      ensures Primed()
    {
      forall r <- regions
        ensures r.id in due
      {
        var k :| 0 <= k < |regions| && regions[k] == r;
        assert PrimedAt(regions[k].id, tried, regions, due, cfg);
      }
    }

    /** One page request of the scheduler itself, outside any cycle. */
    method Request(world: World) returns (ex: Fetch.Exchange, ghost t: Fetch.Try)
      requires Valid() && InTime(world)
      modifies world, runner.fetcher`tries, client, client.budget, client.errorLimit, client.outage
      ensures Valid() && InTime(world)
      ensures world.now >= old(world.now) && (old(world.done) ==> world.done)
      ensures old(client.log) <= client.log && old(client.issued) <= client.issued
      ensures |client.log| <= |old(client.log)| + 1 && |client.issued| <= |old(client.issued)| + 1
      ensures if client.issued == old(client.issued) then world.done
              else old(world.now) <= client.issued[|old(client.issued)|] <= world.now
      ensures client.log == old(client.log) + Fetch.Arrivals(ex, world.now)
      ensures t.ex == ex && t.at == world.now && Fetch.WellFormed(ex)
      ensures runner.fetcher.tries == old(runner.fetcher.tries) + [t]
    {
      ex, t := runner.fetcher.OrdersPage(world, false);
      AllSafeLater(runner.cycles, old(client.log), client.log, old(world.now));
      AllAnsweredLater(runner.cycles, old(client.log), client.log);
    }

    /** One attempt: a cycle starts while the outage gate is open, and runs. */
    method Attempt(world: World, r: Region) returns (report: Report)
      requires Valid() && InTime(world) && PausedUntil(client.log) <= world.now
      modifies world, runner`cycles, runner.database.store, runner.fetcher`tries
      modifies client, client.budget, client.errorLimit, client.outage
      ensures Valid() && InTime(world)
      ensures world.now >= old(world.now) && (old(world.done) ==> world.done)
      ensures Grows(old(History()), History())
      ensures |runner.cycles| == |old(runner.cycles)| + 1
      ensures var c := runner.cycles[|old(runner.cycles)|];
              && runner.cycles == old(runner.cycles) + [c] && c.report == report
              && c.region == r.id && c.stopped == world.done
              && Idle(old(Now(world)), c.begin) && c.end == Now(world)
    {
      report := runner.Run(world, r.id);
      AllSafePush(old(runner.cycles), old(client.log), old(world.now),
                  runner.cycles[|old(runner.cycles)|], client.log);
    }

    /** One region's turn. The caller has seen the outage gate open. */
    method RunRegion(world: World, r: Region) returns (ghost turn: Turn)
      requires Valid() && InTime(world) && PausedUntil(client.log) <= world.now
      modifies world, this`due, reports
      modifies runner`cycles, runner.database.store, runner.fetcher`tries
      modifies client, client.budget, client.errorLimit, client.outage
      ensures Valid() && InTime(world)
      ensures world.now >= old(world.now) && (old(world.done) ==> world.done)
      ensures Grows(old(History()), History())
      ensures turn.region == r && turn.begin == old(Now(world)) && turn.end == Now(world)
      ensures TurnOk(turn, History(), cfg) && (turn.how.Cut? ==> world.done)
      ensures Settled(turn, old(due), due, old(reports.log), reports.log)
    {
      var attempts := 1;
      if CanRetry(r) {
        attempts := cfg.maxAttempts;
      }
      ghost var begin, decided: nat := Now(world), 0;
      var attempt := 1;
      while attempt <= attempts
        invariant Valid() && InTime(world) && 1 <= attempt
        invariant attempt <= attempts || (attempt == 1 && Now(world) == begin)
        invariant world.now >= old(world.now) && (old(world.done) ==> world.done)
        invariant Grows(old(History()), History())
        invariant PausedUntil(client.log) <= world.now
        invariant Standing(r.id, begin, attempt, decided, History(), Now(world), cfg)
        invariant due == old(due) && reports.log == old(reports.log)
        decreases attempts as int + 1 - attempt
      {
        ghost var before := History();
        var over;
        over, decided, turn := OneAttempt(world, r, begin, attempt, attempts, decided);
        GrowsOn(old(History()), before, History());
        if over {
          return;
        }
        attempt := attempt + 1;
      }
      turn := Turn(r, begin, begin, NoAttempts, 0);
    }

    /** A cycle, and what follows from it. */
    method OneAttempt(world: World, r: Region, ghost begin: Mark, attempt: nat, attempts: nat, ghost decided: nat)
      returns (over: bool, ghost decided': nat, ghost turn: Turn)
      requires Valid() && InTime(world) && PausedUntil(client.log) <= world.now
      requires Standing(r.id, begin, attempt, decided, History(), Now(world), cfg)
      requires attempt <= attempts == AttemptsFor(r, cfg)
      modifies world, this`due, reports
      modifies runner`cycles, runner.database.store, runner.fetcher`tries
      modifies client, client.budget, client.errorLimit, client.outage
      ensures Valid() && InTime(world)
      ensures world.now >= old(world.now) && (old(world.done) ==> world.done)
      ensures Grows(old(History()), History())
      ensures over ==>
                && turn.region == r && turn.begin == begin && turn.end == Now(world)
                && TurnOk(turn, History(), cfg) && (turn.how.Cut? ==> world.done)
                && Settled(turn, old(due), due, old(reports.log), reports.log)
      ensures !over ==>
                && attempt < attempts && Standing(r.id, begin, attempt + 1, decided', History(), Now(world), cfg)
                && PausedUntil(client.log) <= world.now
                && due == old(due) && reports.log == old(reports.log)
    {
      var report := TryCycle(world, r, begin, attempt, decided);
      ghost var tr := History();
      over, decided', turn := Decide(world, r, begin, attempt, attempts, report);
      assert Safe() && History() == tr;
    }

    /** What an attempt's report and the gates make of the turn. Unless it is over, the delay before the
        next attempt is. */
    method Decide(world: World, r: Region, ghost begin: Mark, attempt: nat, attempts: nat, report: Report)
      returns (over: bool, ghost decided: nat, ghost turn: Turn)
      requires client.Valid() && reports.Valid()
      requires Ran(r.id, begin, attempt, report, History(), Now(world), cfg)
      requires attempt <= attempts == AttemptsFor(r, cfg)
      requires runner.cycles[|runner.cycles| - 1].stopped == world.done
      modifies world, this`due, reports
      ensures reports.Valid()
      ensures world.now >= old(world.now) && (old(world.done) ==> world.done)
      ensures over ==>
                && turn.region == r && turn.begin == begin && turn.end == Now(world)
                && TurnOk(turn, History(), cfg) && (turn.how.Cut? ==> world.done)
                && Settled(turn, old(due), due, old(reports.log), reports.log)
      ensures !over ==>
                && attempt < attempts && Standing(r.id, begin, attempt + 1, decided, History(), Now(world), cfg)
                && PausedUntil(client.log) <= world.now
                && due == old(due) && reports.log == old(reports.log)
    {
      over, decided, turn := true, 0, Turn(r, begin, begin, Cut, 0);
      if world.done {
        turn := CutTurn(world, r, begin, attempt, report);
      } else if Settles(report) {
        turn := Settle(world, r, begin, attempt, report);
      } else if attempt == attempts || client.RetriesBlocked(world.now, cfg.errorLimitFloor) {
        turn := GiveUp(world, r, begin, attempt, report);
      } else {
        var ok;
        ok, decided := AwaitRetry(world, r, begin, attempt, report);
        over := !ok;
        if !ok {
          turn := CutTurn(world, r, begin, attempt, report);
        }
      }
    }

    /** The process ends during a turn: it leaves the due time and the reports alone. */
    ghost method CutTurn(world: World, r: Region, begin: Mark, attempt: nat, report: Report) returns (turn: Turn)
      requires Ran(r.id, begin, attempt, report, History(), Now(world), cfg) && attempt <= AttemptsFor(r, cfg)
      requires runner.cycles[|runner.cycles| - 1].stopped || !Settles(report)
      ensures turn == Turn(r, begin, Now(world), Cut, 0) && TurnOk(turn, History(), cfg)
    {
      turn := Turn(r, begin, Now(world), Cut, 0);
      TurnEnds(turn, History(), cfg);
    }

    /** Runs the cycle of one attempt. */
    method TryCycle(world: World, r: Region, ghost begin: Mark, ghost attempt: nat, ghost decided: nat)
      returns (report: Report)
      requires Valid() && InTime(world) && PausedUntil(client.log) <= world.now
      requires Standing(r.id, begin, attempt, decided, History(), Now(world), cfg)
      modifies world, runner`cycles, runner.database.store, runner.fetcher`tries
      modifies client, client.budget, client.errorLimit, client.outage
      ensures Valid() && InTime(world)
      ensures world.now >= old(world.now) && (old(world.done) ==> world.done)
      ensures Grows(old(History()), History())
      ensures Ran(r.id, begin, attempt, report, History(), Now(world), cfg)
      ensures runner.cycles[|runner.cycles| - 1].stopped == world.done
    {
      ghost var before, now := History(), Now(world);
      report := Attempt(world, r);
      StandingThenRan(r.id, begin, attempt, decided, before, now, cfg, runner.cycles[|before.cycles|], History());
    }

    /** Waits for the next attempt, which the gates allow: the server's Retry-After, or else two seconds
        for each attempt made. */
    method AwaitRetry(world: World, r: Region, ghost begin: Mark, attempt: nat, report: Report)
      returns (ok: bool, ghost decided: nat)
      requires Ran(r.id, begin, attempt, report, History(), Now(world), cfg) && !Settles(report)
      requires RetryAllowed(client.log, world.now, cfg.errorLimitFloor)
      modifies world
      ensures world.now >= old(world.now) && (old(world.done) ==> world.done)
      ensures Ran(r.id, begin, attempt, report, History(), Now(world), cfg) && PausedUntil(client.log) <= world.now
      ensures if ok then Standing(r.id, begin, attempt + 1, decided, History(), Now(world), cfg) else world.done
    {
      decided := world.now;
      assert client.log[..|client.log|] == client.log;
      var backoff := attempt * 2 * SECOND;
      if RetryAfter(CauseOf(report)) > 0 {
        backoff := RetryAfter(CauseOf(report));
      }
      ok := world.Sleep(backoff);
    }

    /** A report that ends the turn at once: a success, a deferral or a 420. */
    method Settle(world: World, r: Region, ghost begin: Mark, ghost attempt: nat, report: Report)
      returns (ghost turn: Turn)
      requires reports.Valid() && Settles(report)
      requires Ran(r.id, begin, attempt, report, History(), Now(world), cfg) && attempt <= AttemptsFor(r, cfg)
      requires !runner.cycles[|runner.cycles| - 1].stopped
      modifies this`due, reports
      ensures reports.Valid()
      ensures turn == Turn(r, begin, Now(world), EndOf(report), turn.dueAfter) && TurnOk(turn, History(), cfg)
      ensures Settled(turn, old(due), due, old(reports.log), reports.log)
    {
      ghost var dueAfter := 0;
      if report.err.None? && report.resErr.None? {
        reports.Ends(RegionKey(r.id));
        var t := NextDue(world.now, report.expires);
        due, dueAfter := due[r.id := t], t;
      } else if report.deferred {
        var t := NextDue(world.now, report.expires);
        due, dueAfter := due[r.id := t], t;
      }
      turn := Turn(r, begin, Now(world), EndOf(report), dueAfter);
      TurnEnds(turn, History(), cfg);
    }

    /** A turn out of attempts, or stopped by the gates: the failure is noted, unless the process is
        ending. */
    method GiveUp(world: World, r: Region, ghost begin: Mark, ghost attempt: nat, report: Report)
      returns (ghost turn: Turn)
      requires reports.Valid() && !Settles(report)
      requires Ran(r.id, begin, attempt, report, History(), Now(world), cfg) && attempt <= AttemptsFor(r, cfg)
      requires !runner.cycles[|runner.cycles| - 1].stopped
      requires attempt == AttemptsFor(r, cfg) || !RetryAllowed(client.log, world.now, cfg.errorLimitFloor)
      modifies world, this`due, reports
      ensures reports.Valid()
      ensures world.now >= old(world.now) && (old(world.done) ==> world.done)
      ensures turn == Turn(r, begin, Now(world), if world.done then Cut else GaveUp, turn.dueAfter)
      ensures TurnOk(turn, History(), cfg) && (turn.how.GaveUp? ==> turn.dueAfter == world.now + 30 * SECOND)
      ensures Settled(turn, old(due), due, old(reports.log), reports.log)
    {
      ghost var last, at := runner.cycles[|runner.cycles| - 1], world.now;
      world.Elapse();
      if world.done {
        turn := CutTurn(world, r, begin, attempt, report);
        return;
      }
      var _ := reports.First(RegionKey(r.id));
      due := due[r.id := world.now + 30 * SECOND];
      turn := Turn(r, begin, Now(world), GaveUp, world.now + 30 * SECOND);
      if attempt < AttemptsFor(r, cfg) {
        GatesStop(last, turn.end, client.log, at, cfg.errorLimitFloor);
      }
      TurnEnds(turn, History(), cfg);
    }

    /** The one request that tests whether ESI answers. */
    method Probe(world: World) returns (ok: bool, ghost answered: nat)
      requires Valid() && InTime(world)
      modifies world, runner.fetcher`tries, client, client.budget, client.errorLimit, client.outage
      ensures Valid() && InTime(world)
      ensures answered == world.now >= old(world.now) && (old(world.done) ==> world.done)
      ensures Probed(answered, old(world.now), old(History()), History(), world.done)
      ensures ok ==> |client.log| > |old(client.log)| && client.log[|old(client.log)|].resp.status == STATUS_OK
    {
      var ex, _ := Request(world);
      answered := world.now;
      ok := ex.Served?;
    }

    /** Probes for budget recovery, and always waits. */
    method Canary(world: World) returns (ghost answered: nat)
      requires Valid() && InTime(world)
      modifies world, runner.fetcher`tries, client, client.budget, client.errorLimit, client.outage
      ensures Valid() && InTime(world)
      ensures world.now >= answered >= old(world.now) && (old(world.done) ==> world.done)
      ensures Probed(answered, old(world.now), old(History()), History(), world.done)
      ensures world.done || world.now >= answered + cfg.canaryInterval
    {
      var ok;
      ok, answered := Probe(world);
      var _ := world.Sleep(cfg.canaryInterval);
    }

    /** Waits out an outage, probing for the end of it. */
    method WaitOutage(world: World) returns (ghost recovered: bool, ghost answered: nat)
      requires Valid() && InTime(world)
      modifies world, runner.fetcher`tries, client, client.budget, client.errorLimit, client.outage
      ensures Valid() && InTime(world)
      ensures world.now >= answered >= old(world.now) && (old(world.done) ==> world.done)
      ensures Probed(answered, old(world.now), old(History()), History(), world.done)
      ensures recovered ==> |client.log| > |old(client.log)| && client.log[|old(client.log)|].resp.status == STATUS_OK
      ensures recovered || world.done || world.now >= answered + cfg.canaryInterval
    {
      var ok;
      ok, answered := Probe(world);
      recovered := ok;
      if !ok {
        var _ := world.Sleep(cfg.canaryInterval);
      }
    }

    /** Looks at the regions in order and gives each due one its turn, until the process ends or the
        outage gate arms. */
    method Sweep(world: World) returns (ghost looks: seq<Look>)
      requires Valid() && InTime(world) && Primed() && !world.done
      modifies world, this`due, reports
      modifies runner`cycles, runner.database.store, runner.fetcher`tries
      modifies client, client.budget, client.errorLimit, client.outage
      ensures Valid() && InTime(world) && Primed()
      ensures world.now >= old(world.now)
      ensures Grows(old(History()), History())
      ensures Looked(old(Now(world)), old(due), looks, Now(world), due, History(), regions, cfg, world.done)
      ensures reports.log == AfterLooks(old(reports.log), looks)
      ensures |looks| < |regions| ==> world.done || PausedUntil(client.log) > world.now
    {
      looks := [];
      for i := 0 to |regions|
        invariant Valid() && InTime(world) && Primed() && |looks| == i
        invariant world.now >= old(world.now)
        invariant Grows(old(History()), History())
        invariant Looked(old(Now(world)), old(due), looks, Now(world), due, History(), regions, cfg, world.done)
        invariant reports.log == AfterLooks(old(reports.log), looks)
      {
        ghost var before, now, done := History(), Now(world), world.done;
        world.Elapse();
        LookedLater(old(Now(world)), old(due), looks, now, due, before, regions, cfg, done, Now(world), world.done);
        if world.done || client.outage.PausedFor(world.now) > 0 {
          return;
        }
        ghost var now1, due1 := Now(world), due;
        ghost var look := LookAt(world, regions[i]);
        GrowsOn(old(History()), before, History());
        AfterLooksPush(old(reports.log), looks, look);
        LookedPush(old(Now(world)), old(due), looks, now1, due1, before, regions, cfg, look, History(), world.done);
        looks := looks + [look];
      }
    }

    /** Looks at one region while the outage gate is open, and gives it its turn if it is due. */
    method LookAt(world: World, r: Region) returns (ghost look: Look)
      requires Valid() && InTime(world) && Primed() && r in regions && PausedUntil(client.log) <= world.now
      modifies world, this`due, reports
      modifies runner`cycles, runner.database.store, runner.fetcher`tries
      modifies client, client.budget, client.errorLimit, client.outage
      ensures Valid() && InTime(world) && Primed()
      ensures world.now >= old(world.now) && (old(world.done) ==> world.done)
      ensures Grows(old(History()), History())
      ensures LookOk(look, r, History(), cfg, world.done)
      ensures Idle(old(Now(world)), look.begin) && look.end == Now(world)
      ensures look.due == old(due)[r.id] && due == DueAfterLook(old(due), look)
      ensures reports.log == AfterLook(old(reports.log), look)
    {
      world.Elapse();
      ghost var begin := Now(world);
      assert client.log[..|client.log|] == client.log;
      look := Look(begin, begin, due[r.id], None);
      if due[r.id] <= world.now {
        ghost var turn := RunRegion(world, r);
        assert client.log[..begin.log] == old(client.log);
        look := Look(begin, Now(world), look.due, Some(turn));
      }
    }

    /** One tick: the gates first, then every region that is due, in priority order. */
    method RunPass(world: World) returns (ghost p: Pass)
      requires Valid() && InTime(world) && Primed() && !world.done
      modifies world, this`due, reports
      modifies runner`cycles, runner.database.store, runner.fetcher`tries
      modifies client, client.budget, client.errorLimit, client.outage
      ensures Valid() && InTime(world) && Primed()
      ensures world.now >= old(world.now)
      ensures Grows(old(History()), History())
      ensures p.begin == old(Now(world)) && p.end == Now(world) && p.due == old(due)
      ensures PassOk(p, History(), regions, cfg, world.done) && due == DueAfterPass(p)
      ensures reports.log == AfterPass(old(reports.log), p)
    {
      ghost var begin, before, due0 := Now(world), History(), due;
      var d := client.errorLimit.BlockedFor(world.now);
      if d > 0 {
        var _ := reports.First(ErrorLimitKey);
        var _ := world.Sleep(d);
        p := Pass(begin, Now(world), due0, Blocked);
        BlockedPassOk(p, before, regions, cfg, world.done);
      } else {
        reports.Ends(ErrorLimitKey);
        p := RunUnblocked(world);
      }
    }

    /** The pass, once the error limit is known not to be tripped. */
    method RunUnblocked(world: World) returns (ghost p: Pass)
      requires Valid() && InTime(world) && Primed() && !world.done && BlockedUntil(client.log) <= world.now
      modifies world, this`due, reports
      modifies runner`cycles, runner.database.store, runner.fetcher`tries
      modifies client, client.budget, client.errorLimit, client.outage
      ensures Valid() && InTime(world) && Primed()
      ensures world.now >= old(world.now)
      ensures Grows(old(History()), History())
      ensures p.begin == old(Now(world)) && p.end == Now(world) && p.due == old(due)
      ensures PassOk(p, History(), regions, cfg, world.done) && due == DueAfterPass(p)
      ensures !p.kind.Blocked?
      ensures reports.log == if p.kind.Swept? then AfterLooks(old(reports.log), p.kind.looks) else old(reports.log)
    {
      ghost var begin, before, due0 := Now(world), History(), due;
      if client.outage.PausedFor(world.now) > 0 || client.budget.BelowFloor(cfg.budgetFloor) {
        p := RunProbe(world);
      } else {
        ghost var looks := Sweep(world);
        p := Pass(begin, Now(world), due0, Swept(looks));
        SweptPassOk(p, before, History(), due, regions, cfg, world.done);
      }
    }

    /** A pass that only probes: the outage gate is armed, or the token budget is below its floor. */
    method RunProbe(world: World) returns (ghost p: Pass)
      requires Valid() && InTime(world) && BlockedUntil(client.log) <= world.now
      requires PausedUntil(client.log) > world.now || Below(TokensLeft(client.log), cfg.budgetFloor)
      modifies world, runner.fetcher`tries, client, client.budget, client.errorLimit, client.outage
      ensures Valid() && InTime(world)
      ensures world.now >= old(world.now)
      ensures Grows(old(History()), History())
      ensures p.begin == old(Now(world)) && p.end == Now(world) && p.due == due
      ensures PassOk(p, History(), regions, cfg, world.done) && (p.kind.Paused? || p.kind.LowBudget?)
    {
      ghost var begin, before := Now(world), History();
      ghost var answered;
      if client.outage.PausedFor(world.now) > 0 {
        ghost var recovered;
        recovered, answered := WaitOutage(world);
        p := Pass(begin, Now(world), due, Paused(recovered, answered));
      } else {
        answered := Canary(world);
        p := Pass(begin, Now(world), due, LowBudget(answered));
      }
      ProbePassOk(p, answered, before, History(), regions, cfg, world.done);
    }

    /** Primes, then makes a pass on each tick until the process ends. The passes account for everything
        that happens after priming: every request, every cycle, every change of a due time and every
        report. */
    method Run(world: World, ticks: nat)
      returns (ghost from: Mark, ghost due0: map<int, nat>, ghost passes: seq<Pass>)
      requires Valid() && InTime(world)
      modifies world, this`due, reports, runner`cycles, runner.database.store, runner.fetcher`tries
      modifies client, client.budget, client.errorLimit, client.outage
      ensures Valid() && InTime(world)
      ensures (passes == [] && world.done) || (forall r <- regions :: r.id in due0 && r.id in due)
      ensures from.cycles == |old(runner.cycles)| && from.req <= |old(client.issued)| + |regions|
      ensures RunOk(from, due0, passes, Now(world), due, History(), regions, cfg, world.done)
      ensures reports.log == AfterPasses(old(reports.log), passes)
    {
      var ok, _ := Prime(world);
      from, due0, passes := Now(world), due, [];
      if ok {
        passes := Loop(world, ticks);
      }
    }

    /** The ticks, once every region has a due time. */
    method Loop(world: World, ticks: nat) returns (ghost passes: seq<Pass>)
      requires Valid() && InTime(world) && Primed()
      modifies world, this`due, reports, runner`cycles, runner.database.store, runner.fetcher`tries
      modifies client, client.budget, client.errorLimit, client.outage
      ensures Valid() && InTime(world) && Primed()
      ensures RunOk(old(Now(world)), old(due), passes, Now(world), due, History(), regions, cfg, world.done)
      ensures reports.log == AfterPasses(old(reports.log), passes)
    {
      passes := [];
      ghost var from, due0 := Now(world), due;
      for i := 0 to ticks
        invariant Valid() && InTime(world) && Primed()
        invariant RunOk(from, due0, passes, Now(world), due, History(), regions, cfg, world.done)
        invariant reports.log == AfterPasses(old(reports.log), passes)
      {
        ghost var to, done := Now(world), world.done;
        world.Elapse();
        RunWaits(from, due0, passes, to, Now(world), due, History(), regions, cfg, done, world.done);
        if world.done {
          return;
        }
        ghost var tr, due1 := History(), due;
        ghost var p := RunPass(world);
        RunGrows(from, due0, passes, due1, tr, regions, cfg, p, History(), world.done);
        AfterPassesPush(old(reports.log), passes, p);
        passes := passes + [p];
      }
    }
  }
}
