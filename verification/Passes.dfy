/** What a run of the scheduler records, and what the record must satisfy: every turn, look and pass is
    pinned to the responses, requests and cycles that had happened by then. */
module Passes {
  import opened Common
  import opened Esi
  import opened Sorting
  import opened CycleRun
  import opened Reports
  import Fetch
  import Sweep
  import SweepTheorems

  // ----- Regions -----

  const RETRY_MAX_PRIORITY := 4

  datatype Region = Region(id: int, priority: int)

  predicate CanRetry(r: Region) {
    r.priority <= RETRY_MAX_PRIORITY
  }

  predicate Before(a: Region, b: Region) {
    a.priority < b.priority || (a.priority == b.priority && a.id <= b.id)
  }

  /** Sorted regions with distinct ids come in strictly increasing (priority, id) order, the lowest
      priority number first, so a pass that walks along them meets each region once. */
  lemma EachRegionOnce(given: seq<Region>, sorted: seq<Region>)
    requires multiset(given) == multiset(sorted) && SortedBy(sorted, Before)
    requires forall i, j :: 0 <= i < j < |given| ==> given[i].id != given[j].id
    ensures forall i, j :: 0 <= i < j < |sorted| ==>
              || sorted[i].priority < sorted[j].priority
              || (sorted[i].priority == sorted[j].priority && sorted[i].id < sorted[j].id)
  {
    OccursOnce(given);
    forall i, j | 0 <= i < j < |sorted|
      ensures sorted[i].priority < sorted[j].priority
              || (sorted[i].priority == sorted[j].priority && sorted[i].id < sorted[j].id)
    {
      NoRepeats(sorted, i, j);
      assert Before(sorted[i], sorted[j]);
      assert sorted[i] in multiset(given) && sorted[j] in multiset(given);
    }
  }

  lemma {:induction false} OccursOnce(xs: seq<Region>)
    requires forall i, j :: 0 <= i < j < |xs| ==> xs[i].id != xs[j].id
    ensures forall r :: multiset(xs)[r] <= 1
  {
    if xs != [] {
      var n := |xs| - 1;
      OccursOnce(xs[..n]);
      assert xs == xs[..n] + [xs[n]];
      assert xs[n] !in xs[..n];
      assert multiset(xs[..n])[xs[n]] == 0;
    }
  }

  // ----- What a run records -----

  datatype Config = Config(
    maxJitter: nat, canaryInterval: nat, maxAttempts: nat, errorLimitFloor: int, budgetFloor: int)

  /** Everything that has happened: the responses, the instants of the requests, and the cycles. */
  datatype Trace = Trace(log: seq<Arrival>, issued: seq<nat>, cycles: seq<CycleRecord>)

  ghost predicate Grows(tr: Trace, tr': Trace) {
    tr.log <= tr'.log && tr.issued <= tr'.issued && tr.cycles <= tr'.cycles
  }

  lemma GrowsOn(a: Trace, b: Trace, c: Trace)
    requires Grows(a, b) && Grows(b, c)
    ensures Grows(a, c)
  {
  }

  predicate Reaches(tr: Trace, m: Mark) {
    m.log <= |tr.log| && m.req <= |tr.issued| && m.cycles <= |tr.cycles|
  }

  predicate Later(m: Mark, n: Mark) {
    m.at <= n.at && m.log <= n.log && m.req <= n.req && m.cycles <= n.cycles
  }

  /** NoAttempts is the turn of a region that is allowed none. */
  datatype TurnEnd = Refreshed | Deferred | ErrorLimited | GaveUp | Cut | NoAttempts

  /** One region's turn in a pass, how it ended, and when it left the region due again. Its cycles are
      those numbered from begin.cycles to end.cycles. */
  datatype Turn = Turn(region: Region, begin: Mark, end: Mark, how: TurnEnd, dueAfter: nat)

  /** The pass examined a region, due at that time; it took a turn if the time had come. */
  datatype Look = Look(begin: Mark, end: Mark, due: nat, turn: Option<Turn>)

  datatype PassKind =
    | Blocked                                  // the error limit was tripped
    | Paused(recovered: bool, answered: nat)   // the outage gate was armed: one probe
    | LowBudget(answered: nat)                 // the token budget was below its floor: one probe
    | Swept(looks: seq<Look>)

  /** One tick, with the due times at its beginning. */
  datatype Pass = Pass(begin: Mark, end: Mark, due: map<int, nat>, kind: PassKind)

  // ----- Cycles -----

  /** The outage gate, on every response that had arrived, was open when the cycle started. */
  ghost predicate SafeStart(c: CycleRecord, log: seq<Arrival>) {
    CutAt(log, c.begin.log, c.begin.at) && PausedUntil(log[..c.begin.log]) <= c.begin.at
  }

  /** When the last cycle started. */
  function LastStart(cycles: seq<CycleRecord>): nat {
    if cycles == [] then 0 else cycles[|cycles| - 1].begin.at
  }

  /** Every cycle started after the one before it, and safely. */
  ghost predicate AllSafe(cycles: seq<CycleRecord>, log: seq<Arrival>) {
    cycles == [] ||
    (AllSafe(cycles[..|cycles| - 1], log) && LastStart(cycles[..|cycles| - 1]) <= LastStart(cycles)
     && SafeStart(cycles[|cycles| - 1], log))
  }

  lemma {:induction false} AllSafeMeans(cycles: seq<CycleRecord>, log: seq<Arrival>, c: CycleRecord)
    requires AllSafe(cycles, log) && c in cycles
    ensures SafeStart(c, log)
  {
    if c != cycles[|cycles| - 1] {
      AllSafeMeans(cycles[..|cycles| - 1], log, c);
    }
  }

  lemma {:induction false} AllSafeLater(cycles: seq<CycleRecord>, log: seq<Arrival>, log': seq<Arrival>, since: nat)
    requires AllSafe(cycles, log) && Extends(log, log', since) && LastStart(cycles) <= since
    ensures AllSafe(cycles, log')
  {
    if cycles != [] {
      var c := cycles[|cycles| - 1];
      AllSafeLater(cycles[..|cycles| - 1], log, log', since);
      CutStays(log, log', since, c.begin.log, c.begin.at);
    }
  }

  /** A cycle that starts while the gate is open is one more safe cycle. */
  lemma AllSafePush(cycles: seq<CycleRecord>, log: seq<Arrival>, now: nat, c: CycleRecord, log': seq<Arrival>)
    requires AllSafe(cycles, log) && LastStart(cycles) <= now && Latest(log) <= now && PausedUntil(log) <= now
    requires now <= c.begin.at && c.begin.log == |log| && Extends(log, log', c.begin.at)
    ensures AllSafe(cycles + [c], log')
  {
    AllSafeLater(cycles, log, log', now);
    assert log'[..|log|] == log;
    assert (cycles + [c])[..|cycles|] == cycles;
  }

  /** Between attempts: the server's Retry-After, or else two seconds for each attempt made. */
  function RetryDelay(attempt: nat, c: Cause): nat {
    if RetryAfter(c) > 0 then RetryAfter(c) else attempt * 2 * SECOND
  }

  /** A report that ends the turn at once: a success, a deferral or a 420. */
  predicate Settles(report: Report) {
    || (report.err.None? && report.resErr.None?)
    || report.deferred
    || IsErrorLimited(CauseOf(report))
  }

  function EndOf(report: Report): TurnEnd {
    if report.err.None? && report.resErr.None? then Refreshed
    else if report.deferred then Deferred
    else ErrorLimited
  }

  /** At the instant `at` a retry of cycle b was decided: after it ended, with the gates allowing it. */
  ghost predicate RetryDecided(at: nat, b: CycleRecord, log: seq<Arrival>, seen: nat, floor: int) {
    seen <= |log| && b.end.at <= at && RetryAllowed(log[..seen], at, floor)
  }

  /** Cycle i of the trace is a retry within a turn whose first cycle is `first`: the one before it
      failed, nothing happened in between, the gates allowed a retry, and its delay was over. */
  ghost predicate RetryOk(i: nat, first: nat, tr: Trace, cfg: Config)
    requires first < i < |tr.cycles|
  {
    var b, c := tr.cycles[i - 1], tr.cycles[i];
    && !Settles(b.report) && Idle(b.end, c.begin)
    && exists at: nat ::
         && RetryDecided(at, b, tr.log, c.begin.log, cfg.errorLimitFloor)
         && at + RetryDelay(i - first, CauseOf(b.report)) <= c.begin.at
  }

  /** The cycles numbered from begin.cycles to upTo are the attempts of one turn of the region. */
  ghost predicate Attempted(id: int, begin: Mark, tr: Trace, upTo: nat, cfg: Config)
    requires upTo <= |tr.cycles|
  {
    begin.cycles <= upTo &&
    (begin.cycles == upTo ||
     (Attempted(id, begin, tr, upTo - 1, cfg)
      && tr.cycles[upTo - 1].region == id
      && if begin.cycles == upTo - 1 then Idle(begin, tr.cycles[upTo - 1].begin)
         else RetryOk(upTo - 1, begin.cycles, tr, cfg)))
  }

  /** Before attempt number `attempt` of a turn: nothing has happened since its beginning, or since its
      last cycle failed; then the gates allowed a retry, and the delay is over. */
  ghost predicate Standing(id: int, begin: Mark, attempt: nat, decided: nat, tr: Trace, now: Mark, cfg: Config) {
    && 1 <= attempt && |tr.cycles| == begin.cycles + attempt - 1 && Later(begin, now)
    && Attempted(id, begin, tr, |tr.cycles|, cfg)
    && if attempt == 1 then Idle(begin, now) else Pending(attempt - 1, decided, tr, now, cfg)
  }

  ghost predicate Pending(attempt: nat, decided: nat, tr: Trace, now: Mark, cfg: Config)
    requires tr.cycles != []
  {
    var b := tr.cycles[|tr.cycles| - 1];
    && !Settles(b.report) && Idle(b.end, now)
    && RetryDecided(decided, b, tr.log, |tr.log|, cfg.errorLimitFloor)
    && decided + RetryDelay(attempt, CauseOf(b.report)) <= now.at
  }

  /** After attempt number `attempt`: nothing has happened since it reported. */
  ghost predicate Ran(id: int, begin: Mark, attempt: nat, report: Report, tr: Trace, now: Mark, cfg: Config) {
    && 1 <= attempt && |tr.cycles| == begin.cycles + attempt && Later(begin, now)
    && Attempted(id, begin, tr, |tr.cycles|, cfg)
    && tr.cycles[|tr.cycles| - 1].report == report && Idle(tr.cycles[|tr.cycles| - 1].end, now)
  }

  function AttemptsOf(t: Turn): int {
    t.end.cycles - t.begin.cycles
  }

  function AttemptsFor(r: Region, cfg: Config): nat {
    if CanRetry(r) then cfg.maxAttempts else 1
  }

  /** When to fetch a region whose snapshot expires at exp, zero standing for no expiry: never less than
      five seconds ahead, and within the jitter of the expiry. */
  predicate DueFor(now: nat, exp: int, due: nat, cfg: Config) {
    var least := now + 5 * SECOND;
    if exp == 0 then due == now + 5 * MINUTE
    else Max(least, exp + SECOND) <= due <= Max(least, exp + SECOND + cfg.maxJitter)
  }

  /** The first page of a region sets its due time: its expiry if it was served, else half a minute. */
  predicate PrimedBy(t: Fetch.Try, due: nat, cfg: Config) {
    if t.ex.Served? then DueFor(t.at, t.ex.page.expires, due, cfg) else due == t.at + 30 * SECOND
  }

  /** The requests `tried` are for the regions in order, and each region is due as the request for it
      said. */
  ghost predicate PrimedFrom(tried: seq<Fetch.Try>, regions: seq<Region>, due: map<int, nat>, cfg: Config) {
    && |tried| <= |regions|
    && forall k :: 0 <= k < |tried| ==> PrimedAt(regions[k].id, tried, regions, due, cfg)
  }

  ghost predicate PrimedAt(id: int, tried: seq<Fetch.Try>, regions: seq<Region>, due: map<int, nat>, cfg: Config)
    requires |tried| <= |regions|
  {
    id in due && exists i :: 0 <= i < |tried| && regions[i].id == id && PrimedBy(tried[i], due[id], cfg)
  }

  lemma PrimedPush(tried: seq<Fetch.Try>, regions: seq<Region>, due: map<int, nat>, cfg: Config,
                   t: Fetch.Try, d: nat)
    requires PrimedFrom(tried, regions, due, cfg) && |tried| < |regions| && PrimedBy(t, d, cfg)
    ensures PrimedFrom(tried + [t], regions, due[regions[|tried|].id := d], cfg)
  {
    var more, n := tried + [t], |tried|;
    var due' := due[regions[n].id := d];
    forall k | 0 <= k < |more|
      ensures PrimedAt(regions[k].id, more, regions, due', cfg)
    {
      if regions[k].id == regions[n].id {
        assert more[n] == t && PrimedBy(more[n], due'[regions[k].id], cfg);
      } else {
        assert PrimedAt(regions[k].id, tried, regions, due, cfg);
        var i :| 0 <= i < n && regions[i].id == regions[k].id && PrimedBy(tried[i], due[regions[k].id], cfg);
        assert more[i] == tried[i];
      }
    }
  }

  /** The gates stopped the turn at some instant after its last cycle. */
  ghost predicate StoppedByGates(last: CycleRecord, end: Mark, log: seq<Arrival>, floor: int) {
    && end.log <= |log|
    && exists at: nat :: last.end.at <= at <= end.at && !RetryAllowed(log[..end.log], at, floor)
  }

  /** The turn ended as its last cycle, its attempts and the gates told it to; it was cut if the process
      had been told to end by the time its last cycle reported. */
  ghost predicate EndedWell(t: Turn, last: CycleRecord, attempts: nat, log: seq<Arrival>, cfg: Config) {
    && (last.stopped ==> t.how.Cut?)
    && match t.how
       case GaveUp =>
         && !Settles(last.report) && t.dueAfter == t.end.at + 30 * SECOND
         && (attempts == AttemptsFor(t.region, cfg) || StoppedByGates(last, t.end, log, cfg.errorLimitFloor))
       case Cut => last.stopped || !Settles(last.report)
       case NoAttempts => false
       case _ =>
         && Settles(last.report) && t.how == EndOf(last.report)
         && (t.how.ErrorLimited? || DueFor(t.end.at, last.report.expires, t.dueAfter, cfg))
  }

  /** A turn starts at most as many cycles as the region's priority allows, each retry justified; it
      ends as they told it to; and unless it was cut short or ended on a 420, it leaves the region due
      at least five seconds later. */
  ghost predicate TurnOk(t: Turn, tr: Trace, cfg: Config) {
    && Later(t.begin, t.end) && Reaches(tr, t.end)
    && Attempted(t.region.id, t.begin, tr, t.end.cycles, cfg)
    && AttemptsOf(t) <= AttemptsFor(t.region, cfg)
    && (AttemptsOf(t) == 0 <==> AttemptsFor(t.region, cfg) == 0)
    && (AttemptsOf(t) == 0 ==> t.how.NoAttempts? && Idle(t.begin, t.end))
    && (AttemptsOf(t) > 0 ==>
          && Idle(tr.cycles[t.end.cycles - 1].end, t.end)
          && EndedWell(t, tr.cycles[t.end.cycles - 1], AttemptsOf(t), tr.log, cfg))
    && (t.how.Refreshed? || t.how.Deferred? || t.how.GaveUp? ==> t.dueAfter >= t.end.at + 5 * SECOND)
  }

  // ----- Looks and passes -----

  /** A region gets its turn exactly when it is due, and is looked at only while the gate is open. A turn
      is cut only by the end of the process. */
  ghost predicate LookOk(l: Look, r: Region, tr: Trace, cfg: Config, ended: bool) {
    && Later(l.begin, l.end) && Reaches(tr, l.end)
    && PausedUntil(tr.log[..l.begin.log]) <= l.begin.at
    && (l.turn.Some? <==> l.due <= l.begin.at)
    && match l.turn
       case None => l.end == l.begin
       case Some(t) =>
         && t.region == r && t.begin == l.begin && t.end == l.end
         && TurnOk(t, tr, cfg) && (t.how.Cut? ==> ended)
  }

  function EndOfLooks(begin: Mark, looks: seq<Look>): Mark {
    if looks == [] then begin else looks[|looks| - 1].end
  }

  /** The looks follow each other, and nothing happens between them. */
  ghost predicate InOrder(begin: Mark, looks: seq<Look>) {
    looks == [] ||
    (InOrder(begin, looks[..|looks| - 1])
     && Idle(EndOfLooks(begin, looks[..|looks| - 1]), looks[|looks| - 1].begin))
  }

  /** Only a turn moves a due time, and only its region's. */
  function DueAfterTurn(due: map<int, nat>, t: Turn): map<int, nat> {
    if t.how.Cut? || t.how.ErrorLimited? || t.how.NoAttempts? then due else due[t.region.id := t.dueAfter]
  }

  function DueAfterLook(due: map<int, nat>, l: Look): map<int, nat> {
    if l.turn.None? then due else DueAfterTurn(due, l.turn.value)
  }

  function DueThrough(due: map<int, nat>, looks: seq<Look>): map<int, nat> {
    if looks == [] then due else DueAfterLook(DueThrough(due, looks[..|looks| - 1]), looks[|looks| - 1])
  }

  /** Each region was judged by its own due time as it then stood. */
  ghost predicate Judged(due: map<int, nat>, looks: seq<Look>, regions: seq<Region>)
    requires |looks| <= |regions|
  {
    looks == [] ||
    (Judged(due, looks[..|looks| - 1], regions)
     && var before, id := DueThrough(due, looks[..|looks| - 1]), regions[|looks| - 1].id;
        id in before && looks[|looks| - 1].due == before[id])
  }

  /** One request at most, and exactly one unless the process is ending. No cycle starts. */
  ghost predicate OneProbe(p: Pass, answered: nat, tr: Trace, ended: bool)
    requires Later(p.begin, p.end) && Reaches(tr, p.end)
  {
    && p.end.cycles == p.begin.cycles
    && (p.end.req == p.begin.req + 1 || (ended && p.end.req == p.begin.req))
    && (p.end.req == p.begin.req + 1 ==> p.begin.at <= tr.issued[p.begin.req] <= answered)
    && p.end.log <= p.begin.log + 1
    && (p.end.log == p.begin.log + 1 ==> tr.log[p.begin.log].at == answered)
  }

  /** A probe from `start`, answered or given up at `answered`: what it adds to the trace. */
  ghost predicate Probed(answered: nat, start: nat, tr: Trace, tr': Trace, ended: bool) {
    && Grows(tr, tr') && tr'.cycles == tr.cycles
    && |tr'.log| <= |tr.log| + 1 && |tr'.issued| <= |tr.issued| + 1
    && (|tr'.log| > |tr.log| ==> tr'.log[|tr.log|].at == answered)
    && if |tr'.issued| == |tr.issued| then ended else start <= tr'.issued[|tr.issued|] <= answered
  }

  predicate Below(left: Option<int>, floor: int) {
    left.Some? && left.value < floor
  }

  ghost predicate LooksOk(looks: seq<Look>, regions: seq<Region>, tr: Trace, cfg: Config, ended: bool) {
    |looks| <= |regions| &&
    (looks == [] ||
     (LooksOk(looks[..|looks| - 1], regions, tr, cfg, false)
      && LookOk(looks[|looks| - 1], regions[|looks| - 1], tr, cfg, ended)))
  }

  /** A sweep looks at the regions in order, from the first on. It ends early only because the process
      ends or the outage gate armed. */
  ghost predicate SweptOk(p: Pass, looks: seq<Look>, tr: Trace, regions: seq<Region>, cfg: Config, ended: bool) {
    && Reaches(tr, p.end)
    && LooksOk(looks, regions, tr, cfg, ended)
    && InOrder(p.begin, looks) && Idle(EndOfLooks(p.begin, looks), p.end)
    && Judged(p.due, looks, regions)
    && (|looks| < |regions| ==> ended || PausedUntil(tr.log[..p.end.log]) > p.end.at)
  }

  /** What one pass does, decided by the gates as they stood when it started. */
  ghost predicate PassOk(p: Pass, tr: Trace, regions: seq<Region>, cfg: Config, ended: bool) {
    && Later(p.begin, p.end) && Reaches(tr, p.end)
    && (p.kind.Blocked? <==> BlockedUntil(tr.log[..p.begin.log]) > p.begin.at)
    && (p.kind.Paused? <==> !p.kind.Blocked? && PausedUntil(tr.log[..p.begin.log]) > p.begin.at)
    && (p.kind.LowBudget? <==>
          !p.kind.Blocked? && !p.kind.Paused? && Below(TokensLeft(tr.log[..p.begin.log]), cfg.budgetFloor))
    && match p.kind
       case Blocked => Idle(p.begin, p.end) && (ended || p.end.at >= BlockedUntil(tr.log[..p.begin.log]))
       case Paused(recovered, answered) =>
         && OneProbe(p, answered, tr, ended)
         && (recovered ==> p.end.log == p.begin.log + 1 && tr.log[p.begin.log].resp.status == STATUS_OK)
         && (recovered || ended || p.end.at >= answered + cfg.canaryInterval)
       case LowBudget(answered) =>
         && OneProbe(p, answered, tr, ended)
         && (ended || p.end.at >= answered + cfg.canaryInterval)
       case Swept(looks) => SweptOk(p, looks, tr, regions, cfg, ended)
  }

  function DueAfterPass(p: Pass): map<int, nat> {
    if p.kind.Swept? then DueThrough(p.due, p.kind.looks) else p.due
  }

  /** A run from its first mark and due times to its last: every pass obeys its gates, and between them
      nothing is requested, no cycle runs and no due time moves. Only the last pass can have been cut
      short by the end of the process. */
  ghost predicate RunOk(from: Mark, due: map<int, nat>, passes: seq<Pass>, to: Mark, due': map<int, nat>,
                        tr: Trace, regions: seq<Region>, cfg: Config, ended: bool)
  {
    if passes == [] then Idle(from, to) && due' == due
    else
      var p := passes[|passes| - 1];
      && RunOk(from, due, passes[..|passes| - 1], p.begin, p.due, tr, regions, cfg, false)
      && PassOk(p, tr, regions, cfg, ended)
      && Idle(p.end, to) && due' == DueAfterPass(p)
  }

  // ----- What is reported -----

  ghost function Noted(log: seq<Event>, key: Key): seq<Event> {
    log + [Failure(key, !InRun(log, key))]
  }

  /** A turn that gives up is a failure of its region and a refresh is a success; no other end of a turn
      is either. */
  ghost function AfterTurn(log: seq<Event>, t: Turn): seq<Event> {
    match t.how
    case GaveUp => Noted(log, RegionKey(t.region.id))
    case Refreshed => log + [Success(RegionKey(t.region.id))]
    case _ => log
  }

  ghost function AfterLook(log: seq<Event>, l: Look): seq<Event> {
    if l.turn.None? then log else AfterTurn(log, l.turn.value)
  }

  ghost function AfterLooks(log: seq<Event>, looks: seq<Look>): seq<Event> {
    if looks == [] then log else AfterLook(AfterLooks(log, looks[..|looks| - 1]), looks[|looks| - 1])
  }

  /** A pass that finds the error limit tripped is a failure of it, any other pass a success. */
  ghost function AfterPass(log: seq<Event>, p: Pass): seq<Event> {
    match p.kind
    case Blocked => Noted(log, ErrorLimitKey)
    case Swept(looks) => AfterLooks(log + [Success(ErrorLimitKey)], looks)
    case _ => log + [Success(ErrorLimitKey)]
  }

  ghost function AfterPasses(log: seq<Event>, passes: seq<Pass>): seq<Event> {
    if passes == [] then log else AfterPass(AfterPasses(log, passes[..|passes| - 1]), passes[|passes| - 1])
  }

  lemma AfterLooksPush(log: seq<Event>, looks: seq<Look>, l: Look)
    ensures AfterLooks(log, looks + [l]) == AfterLook(AfterLooks(log, looks), l)
  {
    assert (looks + [l])[..|looks|] == looks;
  }

  lemma AfterPassesPush(log: seq<Event>, passes: seq<Pass>, p: Pass)
    ensures AfterPasses(log, passes + [p]) == AfterPass(AfterPasses(log, passes), p)
  {
    assert (passes + [p])[..|passes|] == passes;
  }

  // ----- What is recorded stays true -----

  lemma {:induction false} AttemptedStays(id: int, begin: Mark, tr: Trace, tr': Trace, upTo: nat, cfg: Config)
    requires upTo <= |tr.cycles| && Attempted(id, begin, tr, upTo, cfg) && Grows(tr, tr')
    ensures Attempted(id, begin, tr', upTo, cfg)
  {
    if begin.cycles < upTo {
      AttemptedStays(id, begin, tr, tr', upTo - 1, cfg);
      if begin.cycles < upTo - 1 {
        RetryStaysOk(upTo - 1, begin.cycles, tr, tr', cfg);
      }
    }
  }

  lemma RetryStaysOk(i: nat, first: nat, tr: Trace, tr': Trace, cfg: Config)
    requires first < i < |tr.cycles| && RetryOk(i, first, tr, cfg) && Grows(tr, tr')
    ensures RetryOk(i, first, tr', cfg)
  {
    var b, c := tr.cycles[i - 1], tr.cycles[i];
    var at: nat :| RetryDecided(at, b, tr.log, c.begin.log, cfg.errorLimitFloor)
                   && at + RetryDelay(i - first, CauseOf(b.report)) <= c.begin.at;
    assert tr'.log[..c.begin.log] == tr.log[..c.begin.log];
    assert RetryDecided(at, b, tr'.log, c.begin.log, cfg.errorLimitFloor);
  }

  lemma TurnStaysOk(t: Turn, tr: Trace, tr': Trace, cfg: Config)
    requires TurnOk(t, tr, cfg) && Grows(tr, tr')
    ensures TurnOk(t, tr', cfg)
  {
    AttemptedStays(t.region.id, t.begin, tr, tr', t.end.cycles, cfg);
    assert tr'.log[..t.end.log] == tr.log[..t.end.log];
  }

  lemma LookStaysOk(l: Look, r: Region, tr: Trace, tr': Trace, cfg: Config, ended: bool, ended': bool)
    requires LookOk(l, r, tr, cfg, ended) && Grows(tr, tr') && (ended ==> ended')
    ensures LookOk(l, r, tr', cfg, ended')
  {
    assert tr'.log[..l.begin.log] == tr.log[..l.begin.log];
    if l.turn.Some? {
      TurnStaysOk(l.turn.value, tr, tr', cfg);
    }
  }

  lemma {:induction false} LooksStayOk(looks: seq<Look>, regions: seq<Region>, tr: Trace, tr': Trace, cfg: Config,
                                       ended: bool, ended': bool)
    requires LooksOk(looks, regions, tr, cfg, ended) && Grows(tr, tr') && (ended ==> ended')
    ensures LooksOk(looks, regions, tr', cfg, ended')
  {
    if looks != [] {
      LooksStayOk(looks[..|looks| - 1], regions, tr, tr', cfg, false, false);
      LookStaysOk(looks[|looks| - 1], regions[|looks| - 1], tr, tr', cfg, ended, ended');
    }
  }

  lemma LooksOkPush(looks: seq<Look>, regions: seq<Region>, tr: Trace, tr': Trace, cfg: Config, l: Look, ended: bool)
    requires LooksOk(looks, regions, tr, cfg, false) && Grows(tr, tr') && |looks| < |regions|
    requires LookOk(l, regions[|looks|], tr', cfg, ended)
    ensures LooksOk(looks + [l], regions, tr', cfg, ended)
  {
    LooksStayOk(looks, regions, tr, tr', cfg, false, false);
    assert (looks + [l])[..|looks|] == looks;
  }

  lemma {:induction false} EveryLookIsOk(looks: seq<Look>, regions: seq<Region>, tr: Trace, cfg: Config, ended: bool,
                                         k: nat)
    requires LooksOk(looks, regions, tr, cfg, ended) && k < |looks|
    ensures LookOk(looks[k], regions[k], tr, cfg, ended && k == |looks| - 1)
  {
    if k < |looks| - 1 {
      EveryLookIsOk(looks[..|looks| - 1], regions, tr, cfg, false, k);
    }
  }

  lemma JudgedPush(due: map<int, nat>, looks: seq<Look>, regions: seq<Region>, l: Look)
    requires |looks| < |regions| && Judged(due, looks, regions)
    requires var before := DueThrough(due, looks); regions[|looks|].id in before && l.due == before[regions[|looks|].id]
    ensures Judged(due, looks + [l], regions)
    ensures DueThrough(due, looks + [l]) == DueAfterLook(DueThrough(due, looks), l)
  {
    assert (looks + [l])[..|looks|] == looks;
  }

  lemma InOrderPush(begin: Mark, looks: seq<Look>, l: Look)
    requires InOrder(begin, looks) && Idle(EndOfLooks(begin, looks), l.begin)
    ensures InOrder(begin, looks + [l])
  {
    assert (looks + [l])[..|looks|] == looks;
  }

  /** The looks of a sweep so far, from the mark and due times it began with to those it has reached. */
  ghost predicate Looked(begin: Mark, due: map<int, nat>, looks: seq<Look>, now: Mark, due': map<int, nat>,
                         tr: Trace, regions: seq<Region>, cfg: Config, ended: bool)
  {
    && LooksOk(looks, regions, tr, cfg, ended)
    && InOrder(begin, looks) && Idle(EndOfLooks(begin, looks), now)
    && Judged(due, looks, regions) && due' == DueThrough(due, looks)
  }

  lemma LookedPush(begin: Mark, due: map<int, nat>, looks: seq<Look>, now: Mark, due': map<int, nat>, tr: Trace,
                   regions: seq<Region>, cfg: Config, l: Look, tr': Trace, ended: bool)
    requires Looked(begin, due, looks, now, due', tr, regions, cfg, false) && Grows(tr, tr') && |looks| < |regions|
    requires Idle(now, l.begin) && LookOk(l, regions[|looks|], tr', cfg, ended)
    requires regions[|looks|].id in due' && l.due == due'[regions[|looks|].id]
    ensures Looked(begin, due, looks + [l], l.end, DueAfterLook(due', l), tr', regions, cfg, ended)
  {
    LooksOkPush(looks, regions, tr, tr', cfg, l, ended);
    JudgedPush(due, looks, regions, l);
    InOrderPush(begin, looks, l);
  }

  lemma LookedLater(begin: Mark, due: map<int, nat>, looks: seq<Look>, now: Mark, due': map<int, nat>, tr: Trace,
                    regions: seq<Region>, cfg: Config, ended: bool, later: Mark, ended': bool)
    requires Looked(begin, due, looks, now, due', tr, regions, cfg, ended) && Idle(now, later) && (ended ==> ended')
    ensures Looked(begin, due, looks, later, due', tr, regions, cfg, ended')
  {
    LooksStayOk(looks, regions, tr, tr, cfg, ended, ended');
  }

  /** A turn that ends at the end of the trace. */
  lemma TurnEnds(t: Turn, tr: Trace, cfg: Config)
    requires Attempted(t.region.id, t.begin, tr, |tr.cycles|, cfg) && Reaches(tr, t.end) && t.end.cycles == |tr.cycles|
    requires Later(t.begin, t.end) && 1 <= AttemptsOf(t) <= AttemptsFor(t.region, cfg)
    requires var last := tr.cycles[|tr.cycles| - 1];
             Idle(last.end, t.end) && EndedWell(t, last, AttemptsOf(t), tr.log, cfg)
    ensures TurnOk(t, tr, cfg)
  {
  }

  lemma GatesStop(last: CycleRecord, end: Mark, log: seq<Arrival>, at: nat, floor: int)
    requires end.log == |log| && last.end.at <= at <= end.at && !RetryAllowed(log, at, floor)
    ensures StoppedByGates(last, end, log, floor)
  {
    assert log[..|log|] == log;
  }

  /** The gates as a pass finds them. */
  ghost predicate FindsGates(p: Pass, log: seq<Arrival>, cfg: Config) {
    && p.begin.log == |log|
    && (p.kind.Blocked? <==> BlockedUntil(log) > p.begin.at)
    && (p.kind.Paused? <==> !p.kind.Blocked? && PausedUntil(log) > p.begin.at)
    && (p.kind.LowBudget? <==> !p.kind.Blocked? && !p.kind.Paused? && Below(TokensLeft(log), cfg.budgetFloor))
  }

  lemma BlockedPassOk(p: Pass, tr: Trace, regions: seq<Region>, cfg: Config, ended: bool)
    requires p.kind.Blocked? && FindsGates(p, tr.log, cfg) && Idle(p.begin, p.end) && Reaches(tr, p.end)
    requires ended || p.end.at >= BlockedUntil(tr.log)
    ensures PassOk(p, tr, regions, cfg, ended)
  {
    assert tr.log[..p.begin.log] == tr.log;
  }

  lemma ProbePassOk(p: Pass, answered: nat, tr: Trace, tr': Trace, regions: seq<Region>, cfg: Config, ended: bool)
    requires FindsGates(p, tr.log, cfg) && Probed(answered, p.begin.at, tr, tr', ended)
    requires p.begin.req == |tr.issued| && p.begin.cycles == |tr.cycles| && p.begin.at <= p.end.at
    requires p.end.log == |tr'.log| && p.end.req == |tr'.issued| && p.end.cycles == |tr'.cycles|
    requires match p.kind
             case Paused(recovered, a) =>
               && a == answered && (recovered || ended || p.end.at >= answered + cfg.canaryInterval)
               && (recovered ==> |tr'.log| > |tr.log| && tr'.log[|tr.log|].resp.status == STATUS_OK)
             case LowBudget(a) => a == answered && (ended || p.end.at >= answered + cfg.canaryInterval)
             case _ => false
    ensures PassOk(p, tr', regions, cfg, ended)
  {
    assert tr'.log[..p.begin.log] == tr.log;
  }

  lemma SweptPassOk(p: Pass, tr: Trace, tr': Trace, due': map<int, nat>, regions: seq<Region>, cfg: Config, ended: bool)
    requires p.kind.Swept? && FindsGates(p, tr.log, cfg) && Grows(tr, tr') && Later(p.begin, p.end)
    requires Looked(p.begin, p.due, p.kind.looks, p.end, due', tr', regions, cfg, ended)
    requires p.end.log == |tr'.log| && Reaches(tr', p.end)
    requires |p.kind.looks| < |regions| ==> ended || PausedUntil(tr'.log) > p.end.at
    ensures PassOk(p, tr', regions, cfg, ended) && due' == DueAfterPass(p)
  {
    assert tr'.log[..p.begin.log] == tr.log && tr'.log[..p.end.log] == tr'.log;
  }

  lemma PassStaysOk(p: Pass, tr: Trace, tr': Trace, regions: seq<Region>, cfg: Config, ended: bool, ended': bool)
    requires PassOk(p, tr, regions, cfg, ended) && Grows(tr, tr') && (ended ==> ended')
    ensures PassOk(p, tr', regions, cfg, ended')
  {
    assert tr'.log[..p.begin.log] == tr.log[..p.begin.log] && tr'.log[..p.end.log] == tr.log[..p.end.log];
    if p.kind.Swept? {
      LooksStayOk(p.kind.looks, regions, tr, tr', cfg, ended, ended');
    }
  }

  lemma {:induction false} RunStaysOk(
    from: Mark, due: map<int, nat>, passes: seq<Pass>, to: Mark, due': map<int, nat>, tr: Trace,
    regions: seq<Region>, cfg: Config, ended: bool, tr': Trace, ended': bool)
    requires RunOk(from, due, passes, to, due', tr, regions, cfg, ended) && Grows(tr, tr') && (ended ==> ended')
    ensures RunOk(from, due, passes, to, due', tr', regions, cfg, ended')
  {
    if passes != [] {
      var p := passes[|passes| - 1];
      RunStaysOk(from, due, passes[..|passes| - 1], p.begin, p.due, tr, regions, cfg, false, tr', false);
      PassStaysOk(p, tr, tr', regions, cfg, ended, ended');
    }
  }

  /** Time passes after the last pass. */
  lemma RunWaits(from: Mark, due: map<int, nat>, passes: seq<Pass>, to: Mark, to': Mark, due': map<int, nat>,
                 tr: Trace, regions: seq<Region>, cfg: Config, ended: bool, ended': bool)
    requires RunOk(from, due, passes, to, due', tr, regions, cfg, ended) && Idle(to, to') && (ended ==> ended')
    ensures RunOk(from, due, passes, to', due', tr, regions, cfg, ended')
  {
    RunStaysOk(from, due, passes, to, due', tr, regions, cfg, ended, tr, ended');
  }

  lemma RunGrows(from: Mark, due: map<int, nat>, passes: seq<Pass>, due': map<int, nat>, tr: Trace,
                 regions: seq<Region>, cfg: Config, p: Pass, tr': Trace, ended: bool)
    requires RunOk(from, due, passes, p.begin, due', tr, regions, cfg, false)
    requires Grows(tr, tr') && PassOk(p, tr', regions, cfg, ended) && p.due == due'
    ensures RunOk(from, due, passes + [p], p.end, DueAfterPass(p), tr', regions, cfg, ended)
  {
    RunStaysOk(from, due, passes, p.begin, due', tr, regions, cfg, false, tr', false);
    assert (passes + [p])[..|passes|] == passes;
  }

  /** Passes of a run, one by one and pair by pair. */
  lemma {:induction false} PassOfRun(
    from: Mark, due: map<int, nat>, passes: seq<Pass>, to: Mark, due': map<int, nat>, tr: Trace,
    regions: seq<Region>, cfg: Config, ended: bool, i: nat)
    requires RunOk(from, due, passes, to, due', tr, regions, cfg, ended) && i < |passes|
    ensures PassOk(passes[i], tr, regions, cfg, ended && i == |passes| - 1)
    ensures i + 1 < |passes| ==> Idle(passes[i].end, passes[i + 1].begin)
  {
    if i < |passes| - 1 {
      var p := passes[|passes| - 1];
      PassOfRun(from, due, passes[..|passes| - 1], p.begin, p.due, tr, regions, cfg, false, i);
    }
  }

  /** One more attempt of a turn. */
  lemma AttemptedPush(id: int, begin: Mark, tr: Trace, cfg: Config, c: CycleRecord, tr': Trace, at: nat)
    requires Attempted(id, begin, tr, |tr.cycles|, cfg) && tr.log <= tr'.log && tr'.cycles == tr.cycles + [c]
    requires c.region == id
    requires tr.issued <= tr'.issued && c.begin.log <= |tr.log|
    requires if begin.cycles == |tr.cycles| then Idle(begin, c.begin)
             else
               var b := tr.cycles[|tr.cycles| - 1];
               && !Settles(b.report) && Idle(b.end, c.begin)
               && RetryDecided(at, b, tr.log, c.begin.log, cfg.errorLimitFloor)
               && at + RetryDelay(|tr.cycles| - begin.cycles, CauseOf(b.report)) <= c.begin.at
    ensures Attempted(id, begin, tr', |tr'.cycles|, cfg)
  {
    AttemptedStays(id, begin, tr, tr', |tr.cycles|, cfg);
    if begin.cycles < |tr.cycles| {
      var b := tr.cycles[|tr.cycles| - 1];
      assert tr'.log[..c.begin.log] == tr.log[..c.begin.log];
      assert RetryDecided(at, b, tr'.log, c.begin.log, cfg.errorLimitFloor);
      assert RetryOk(|tr.cycles|, begin.cycles, tr', cfg);
    }
  }

  /** The attempt that was standing has run. */
  lemma StandingThenRan(id: int, begin: Mark, attempt: nat, decided: nat, tr: Trace, now: Mark, cfg: Config,
                        c: CycleRecord, tr': Trace)
    requires Standing(id, begin, attempt, decided, tr, now, cfg) && Grows(tr, tr') && tr'.cycles == tr.cycles + [c]
    requires c.region == id && now.log == |tr.log| && Idle(now, c.begin) && Later(now, c.end)
    ensures Ran(id, begin, attempt, c.report, tr', c.end, cfg)
  {
    AttemptedPush(id, begin, tr, cfg, c, tr', decided);
  }

  // ----- What a turn does about each of its cycles -----

  /** Cycle i of a turn of the watched region, which reported before the process was told to end. */
  ghost predicate InTurn(i: nat, t: Turn, tr: Trace, cfg: Config, watched: int, fetching: Fetch.Config) {
    && TurnOk(t, tr, cfg) && AllTold(tr.cycles, watched, fetching) && t.region.id == watched
    && t.begin.cycles <= i < t.end.cycles && !tr.cycles[i].stopped
  }

  /** How the machine of a cycle ended. */
  ghost function MachineOf(c: CycleRecord, fetching: Fetch.Config): Sweep.State
    requires SweepTheorems.Completed(fetching, c.budget, c.acts)
  {
    SweepTheorems.FinalState(fetching, c.budget, c.acts)
  }

  lemma {:induction false} AttemptIs(id: int, begin: Mark, tr: Trace, upTo: nat, cfg: Config, i: nat)
    requires upTo <= |tr.cycles| && Attempted(id, begin, tr, upTo, cfg) && begin.cycles <= i < upTo
    ensures tr.cycles[i].region == id
    ensures begin.cycles < i ==> RetryOk(i, begin.cycles, tr, cfg)
    decreases upTo
  {
    if i < upTo - 1 {
      AttemptIs(id, begin, tr, upTo - 1, cfg, i);
    }
  }

  lemma CycleOfTurn(i: nat, t: Turn, tr: Trace, cfg: Config, watched: int, fetching: Fetch.Config)
    requires InTurn(i, t, tr, cfg, watched, fetching)
    ensures var c := tr.cycles[i];
            && c.ending.Some? && SweepTheorems.Completed(fetching, c.budget, c.acts)
            && Truthful(c.report, false, c.ending.value, MachineOf(c, fetching))
    ensures i + 1 < t.end.cycles ==> RetryOk(i + 1, t.begin.cycles, tr, cfg)
    ensures i + 1 == t.end.cycles ==> EndedWell(t, tr.cycles[i], AttemptsOf(t), tr.log, cfg)
  {
    AttemptIs(t.region.id, t.begin, tr, t.end.cycles, cfg, i);
    EveryCycleTold(tr.cycles, watched, fetching, tr.cycles[i]);
    if i + 1 < t.end.cycles {
      AttemptIs(t.region.id, t.begin, tr, t.end.cycles, cfg, i + 1);
    }
  }

  /** A refresh ends the turn as refreshed, due by the expiry of page 1. */
  lemma RefreshEndsTurn(i: nat, t: Turn, tr: Trace, cfg: Config, watched: int, fetching: Fetch.Config)
    requires InTurn(i, t, tr, cfg, watched, fetching)
    requires tr.cycles[i].ending.Some? && tr.cycles[i].ending.value.Refreshed?
    ensures i + 1 == t.end.cycles && t.how.Refreshed?
    ensures var c := tr.cycles[i];
            SweepTheorems.Completed(fetching, c.budget, c.acts)
            && DueFor(t.end.at, MachineOf(c, fetching).meta.expires, t.dueAfter, cfg)
  {
    CycleOfTurn(i, t, tr, cfg, watched, fetching);
  }

  /** A deferred sweep ends the turn after that attempt as deferred, due by the expiry of page 1. */
  lemma DeferralEndsTurn(i: nat, t: Turn, tr: Trace, cfg: Config, watched: int, fetching: Fetch.Config)
    requires InTurn(i, t, tr, cfg, watched, fetching)
    requires var c := tr.cycles[i];
             && SweepTheorems.Completed(fetching, c.budget, c.acts) && MachineOf(c, fetching).sweeper.Returned?
             && MachineOf(c, fetching).sweeper.err == Some(Sweep.Deferred)
    ensures i + 1 == t.end.cycles && t.how.Deferred?
    ensures DueFor(t.end.at, MachineOf(tr.cycles[i], fetching).meta.expires, t.dueAfter, cfg)
  {
    CycleOfTurn(i, t, tr, cfg, watched, fetching);
  }

  /** A sweep ended by a 420 ends the turn after that attempt, leaving the due time alone. */
  lemma ErrorLimitEndsTurn(i: nat, t: Turn, tr: Trace, cfg: Config, watched: int, fetching: Fetch.Config, r: Response)
    requires InTurn(i, t, tr, cfg, watched, fetching)
    requires var c := tr.cycles[i];
             && SweepTheorems.Completed(fetching, c.budget, c.acts) && MachineOf(c, fetching).sweeper.Returned?
             && MachineOf(c, fetching).sweeper.err == Some(Sweep.FetchFailed(Some(r))) && r.status == 420
    ensures i + 1 == t.end.cycles && t.how.ErrorLimited?
  {
    CycleOfTurn(i, t, tr, cfg, watched, fetching);
  }

  /** Any other failure is retried, or the turn gives up or is cut. It gives up only after all the attempts
      its priority allows, one to four all of them and the rest one, or because the gates stopped it. */
  lemma OtherFailuresAreRetried(i: nat, t: Turn, tr: Trace, cfg: Config, watched: int, fetching: Fetch.Config)
    requires InTurn(i, t, tr, cfg, watched, fetching)
    requires tr.cycles[i].ending.Some? && !tr.cycles[i].ending.value.Refreshed?
    requires var c := tr.cycles[i];
             && SweepTheorems.Completed(fetching, c.budget, c.acts) && MachineOf(c, fetching).sweeper.Returned?
             && match MachineOf(c, fetching).sweeper.err
                case None => true
                case Some(Deferred) => false
                case Some(Inconsistent) => true
                case Some(FetchFailed(http)) => http.None? || http.value.status != 420
    ensures i + 1 < t.end.cycles || t.how.GaveUp? || t.how.Cut?
    ensures i + 1 == t.end.cycles && t.how.GaveUp? ==>
              || AttemptsOf(t) == (if t.region.priority <= 4 then cfg.maxAttempts else 1)
              || StoppedByGates(tr.cycles[i], t.end, tr.log, cfg.errorLimitFloor)
  {
    CycleOfTurn(i, t, tr, cfg, watched, fetching);
  }

  /** A retry waits: for the Retry-After of the response that ended the sweep, or else two seconds for each
      attempt made. */
  lemma RetryWaits(i: nat, t: Turn, tr: Trace, cfg: Config, watched: int, fetching: Fetch.Config)
    requires InTurn(i, t, tr, cfg, watched, fetching) && i + 1 < t.end.cycles
    ensures var c, next := tr.cycles[i], tr.cycles[i + 1];
            && SweepTheorems.Completed(fetching, c.budget, c.acts)
            && match MachineOf(c, fetching).sweeper
               case Returned(Some(FetchFailed(Some(r))), _) =>
                 next.begin.at >= c.end.at + if r.retryAfter > 0 then r.retryAfter
                                             else (i + 1 - t.begin.cycles) * 2 * SECOND
               case _ => next.begin.at >= c.end.at + (i + 1 - t.begin.cycles) * 2 * SECOND
  {
    CycleOfTurn(i, t, tr, cfg, watched, fetching);
  }

  /** A turn of the watched region that ends refreshed has refreshed the consumer's row. */
  lemma RefreshedTurnRefreshes(t: Turn, tr: Trace, cfg: Config, watched: int, fetching: Fetch.Config)
    requires TurnOk(t, tr, cfg) && AllTold(tr.cycles, watched, fetching) && t.region.id == watched && t.how.Refreshed?
    ensures t.begin.cycles < t.end.cycles
    ensures var ending := tr.cycles[t.end.cycles - 1].ending; ending.Some? && ending.value.Refreshed?
  {
    CycleOfTurn(t.end.cycles - 1, t, tr, cfg, watched, fetching);
  }
}
