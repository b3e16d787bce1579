/** What a whole run of the scheduler reports: one report per run of failures of a region, one per trip
    of the error limit. */
module RunReports {
  import opened Reports
  import opened Passes

  /** What a look is for a region: a failure if it gave up, a success if it was refreshed. Deferrals, 420
      exits and cut turns are neither. */
  function LookOutcome(l: Look, id: int): seq<bool> {
    if l.turn.None? || l.turn.value.region.id != id then []
    else
      match l.turn.value.how
      case GaveUp => [true]
      case Refreshed => [false]
      case _ => []
  }

  function LookOutcomes(looks: seq<Look>, id: int): seq<bool> {
    if looks == [] then [] else LookOutcomes(looks[..|looks| - 1], id) + LookOutcome(looks[|looks| - 1], id)
  }

  /** How the turns of one region ended over a run, true for giving up. */
  function RegionOutcomes(passes: seq<Pass>, id: int): seq<bool> {
    if passes == [] then []
    else
      var p := passes[|passes| - 1];
      RegionOutcomes(passes[..|passes| - 1], id) + if p.kind.Swept? then LookOutcomes(p.kind.looks, id) else []
  }

  /** Which passes of a run found the error limit tripped. */
  function Trips(passes: seq<Pass>): seq<bool> {
    if passes == [] then [] else Trips(passes[..|passes| - 1]) + [passes[|passes| - 1].kind.Blocked?]
  }

  /** One more event, honestly reported. */
  lemma EventPush(log: seq<Event>, e: Event, key: Key)
    requires Honest(log) && (e.Failure? ==> e.reported == !InRun(log, e.key))
    ensures Honest(log + [e])
    ensures OutcomesAt(log + [e], key) == OutcomesAt(log, key) + if e.key == key then [e.Failure?] else []
  {
    LogPush(log, e);
    assert (log + [e])[..|log|] == log;
  }

  lemma LookReports(log: seq<Event>, l: Look, id: int)
    requires Honest(log)
    ensures Honest(AfterLook(log, l))
    ensures OutcomesAt(AfterLook(log, l), RegionKey(id)) == OutcomesAt(log, RegionKey(id)) + LookOutcome(l, id)
    ensures OutcomesAt(AfterLook(log, l), ErrorLimitKey) == OutcomesAt(log, ErrorLimitKey)
  {
    if l.turn.Some? && (l.turn.value.how.GaveUp? || l.turn.value.how.Refreshed?) {
      var key := RegionKey(l.turn.value.region.id);
      var e := if l.turn.value.how.GaveUp? then Failure(key, !InRun(log, key)) else Success(key);
      EventPush(log, e, RegionKey(id));
      EventPush(log, e, ErrorLimitKey);
    }
  }

  lemma {:induction false} LooksReport(log: seq<Event>, looks: seq<Look>, id: int)
    requires Honest(log)
    ensures Honest(AfterLooks(log, looks))
    ensures OutcomesAt(AfterLooks(log, looks), RegionKey(id)) ==
            OutcomesAt(log, RegionKey(id)) + LookOutcomes(looks, id)
    ensures OutcomesAt(AfterLooks(log, looks), ErrorLimitKey) == OutcomesAt(log, ErrorLimitKey)
  {
    if looks != [] {
      LooksReport(log, looks[..|looks| - 1], id);
      LookReports(AfterLooks(log, looks[..|looks| - 1]), looks[|looks| - 1], id);
    }
  }

  lemma PassReports(log: seq<Event>, p: Pass, id: int)
    requires Honest(log)
    ensures Honest(AfterPass(log, p))
    ensures OutcomesAt(AfterPass(log, p), RegionKey(id)) ==
            OutcomesAt(log, RegionKey(id)) + if p.kind.Swept? then LookOutcomes(p.kind.looks, id) else []
    ensures OutcomesAt(AfterPass(log, p), ErrorLimitKey) == OutcomesAt(log, ErrorLimitKey) + [p.kind.Blocked?]
  {
    var e := LimitEvent(log, p);
    LimitReports(log, p, id);
    if p.kind.Swept? {
      LooksReport(log + [e], p.kind.looks, id);
    } else {
      assert AfterPass(log, p) == log + [e];
    }
  }

  ghost function LimitEvent(log: seq<Event>, p: Pass): Event {
    if p.kind.Blocked? then Failure(ErrorLimitKey, !InRun(log, ErrorLimitKey)) else Success(ErrorLimitKey)
  }

  lemma LimitReports(log: seq<Event>, p: Pass, id: int)
    requires Honest(log)
    ensures var log' := log + [LimitEvent(log, p)];
            && Honest(log')
            && OutcomesAt(log', RegionKey(id)) == OutcomesAt(log, RegionKey(id))
            && OutcomesAt(log', ErrorLimitKey) == OutcomesAt(log, ErrorLimitKey) + [p.kind.Blocked?]
  {
    EventPush(log, LimitEvent(log, p), RegionKey(id));
    EventPush(log, LimitEvent(log, p), ErrorLimitKey);
  }

  /** What the report log of a run says about one region and about the error limit is exactly how the
      turns and the passes ended. */
  lemma {:induction false} RunOutcomes(log: seq<Event>, passes: seq<Pass>, id: int)
    requires Honest(log)
    ensures Honest(AfterPasses(log, passes))
    ensures OutcomesAt(AfterPasses(log, passes), RegionKey(id)) ==
            OutcomesAt(log, RegionKey(id)) + RegionOutcomes(passes, id)
    ensures OutcomesAt(AfterPasses(log, passes), ErrorLimitKey) == OutcomesAt(log, ErrorLimitKey) + Trips(passes)
  {
    if passes != [] {
      var front := passes[..|passes| - 1];
      RunOutcomes(log, front, id);
      PassReports(AfterPasses(log, front), passes[|passes| - 1], id);
    }
  }

  /** Over a whole run the reports of a region number the maximal runs of turns in which it gave up,
      separated by refreshes: deferrals and 420 exits neither end nor start a run, and no other region
      matters. The reports of the error limit number its trips. */
  lemma ReportsOfRun(passes: seq<Pass>, id: int)
    ensures ReportsAt(AfterPasses([], passes), RegionKey(id)) == |RunStarts(RegionOutcomes(passes, id))|
    ensures ReportsAt(AfterPasses([], passes), ErrorLimitKey) == |RunStarts(Trips(passes))|
  {
    RunOutcomes([], passes, id);
    OneReportPerRun(AfterPasses([], passes), RegionKey(id));
    OneReportPerRun(AfterPasses([], passes), ErrorLimitKey);
    assert [] + RegionOutcomes(passes, id) == RegionOutcomes(passes, id) && [] + Trips(passes) == Trips(passes);
  }
}
