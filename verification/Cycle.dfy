/** One region's tables and the sequential half of its cycle: count, apply or rebuild, verify, repair
    and record, with a database failure possible at every statement. */
module Cycle {
  import opened Common
  import opened Esi
  import opened Fetch
  import opened Orders
  import opened Delta
  import opened Checksum
  import opened Sweep
  import opened SweepInvariant
  import opened SweepTheorems

  /** The consumer's row in region_status. */
  datatype Status = Status(
    refreshedAt: Option<nat>, expires: int, lastModified: int, pages: nat, orderCount: nat,
    consecutiveErrors: nat, lastErrorAt: Option<nat>)

  datatype ApplyStep = ApplyConnect | ApplyBegin | SetWorkMem | CountDuplicates | RunDelta | ApplyCommit
  datatype ResyncStep = ResyncConnect | ResyncBegin | SetLockTimeout | TruncateLive | InsertLive | ResyncCommit

  /** How one cycle ended, as far as the consumer's row is concerned. */
  datatype CycleEnd =
    | Refreshed(at: nat, staging: seq<Order>, live: Table, pages: seq<Page>)
    | FailureRecorded
    | FailureUnrecorded      // the status write itself failed
    | NotAFailure            // deferred, or cut short by a shutdown
    | RefreshUnrecorded      // MarkRefreshed failed

  /** Failures recorded after the last refresh: the longest suffix without a refresh, counted. */
  ghost function SinceRefresh(ends: seq<CycleEnd>): seq<CycleEnd> {
    if ends == [] || ends[|ends| - 1].Refreshed? then []
    else SinceRefresh(ends[..|ends| - 1]) + [ends[|ends| - 1]]
  }

  ghost function Recorded(ends: seq<CycleEnd>): nat {
    if ends == [] then 0
    else Recorded(ends[..|ends| - 1]) + if ends[|ends| - 1].FailureRecorded? then 1 else 0
  }

  ghost function LastRefresh(ends: seq<CycleEnd>): Option<CycleEnd> {
    if ends == [] then None
    else if ends[|ends| - 1].Refreshed? then Some(ends[|ends| - 1])
    else LastRefresh(ends[..|ends| - 1])
  }

  lemma EndsPush(ends: seq<CycleEnd>, e: CycleEnd)
    ensures Recorded(SinceRefresh(ends + [e])) ==
            if e.Refreshed? then 0 else Recorded(SinceRefresh(ends)) + if e.FailureRecorded? then 1 else 0
    ensures LastRefresh(ends + [e]) == if e.Refreshed? then Some(e) else LastRefresh(ends)
  {
    assert (ends + [e])[..|ends|] == ends;
    var since := SinceRefresh(ends);
    assert (since + [e])[..|since|] == since;
  }

  /** SinceRefresh in first-order terms: a suffix without a refresh, preceded by one or by nothing. */
  lemma {:induction false} SinceRefreshIsSuffix(ends: seq<CycleEnd>)
    ensures var k := |ends| - |SinceRefresh(ends)|;
            && k >= 0 && SinceRefresh(ends) == ends[k..]
            && (forall e <- ends[k..] :: !e.Refreshed?)
            && (k > 0 ==> LastRefresh(ends) == Some(ends[k - 1]) && ends[k - 1].Refreshed?)
            && (k == 0 ==> LastRefresh(ends) == None)
  {
    if ends != [] && !ends[|ends| - 1].Refreshed? {
      var front := ends[..|ends| - 1];
      SinceRefreshIsSuffix(front);
      var k := |front| - |SinceRefresh(front)|;
      assert ends[k..] == front[k..] + [ends[|ends| - 1]];
    }
  }

  /** A table a reader may see: one row per order id of one complete, consistent page set. */
  ghost predicate WholeSnapshot(t: Table, pages: seq<Page>) {
    && pages != []
    && (forall p <- pages :: p.pages == |pages| && p.lastModified == pages[0].lastModified)
    && (forall id <- t :: Order(id, t[id]) in RowsOf(pages))
    && (forall r <- RowsOf(pages) :: r.id in t)
  }

  /** The last committed table is the live one, and each one committed since the start is a whole
      snapshot. */
  ghost predicate TablesOk(live: Table, committed: seq<Table>, sources: seq<seq<Page>>) {
    && |committed| == |sources| + 1 && live == committed[|sources|]
    && forall i :: 0 <= i < |sources| ==> WholeSnapshot(committed[i + 1], sources[i])
  }

  /** Each refresh announced a table that was visible, selected from its cycle's staging and a whole
      snapshot of its pages; and the consumer's row reports the last refresh, with the expiry and the age
      of its first page, and the failures recorded since. */
  ghost predicate StatusOk(status: Status, ends: seq<CycleEnd>, committed: seq<Table>) {
    && (forall e <- ends :: e.Refreshed? ==> Announced(e, committed))
    && status.consecutiveErrors == Recorded(SinceRefresh(ends))
    && match LastRefresh(ends)
       case None => status.refreshedAt == None
       case Some(e) =>
         && e.Refreshed? && e.pages != []
         && status.refreshedAt == Some(e.at) && status.orderCount == |e.live| + Duplicates(e.staging)
         && status.expires == e.pages[0].expires && status.lastModified == e.pages[0].lastModified
         && status.pages == |e.pages|
  }

  ghost predicate Announced(e: CycleEnd, committed: seq<Table>)
    requires e.Refreshed?
  {
    && Selection(e.staging, e.live) && e.live in committed
    && WholeSnapshot(e.live, e.pages) && multiset(e.staging) == RowsOf(e.pages)
  }

  class RegionStore {
    var staging: seq<Order>
    var live: Table
    var status: Status

    /** Every live table a reader could have seen, oldest first; the first is the one found at start. */
    ghost var committed: seq<Table>
    /** The page set behind each committed table after the first. */
    ghost var sources: seq<seq<Page>>
    /** How the cycles so far ended. */
    ghost var ends: seq<CycleEnd>

    /** Every table ever visible is a whole snapshot, and the consumer's row tells the truth about the
        cycles so far. */
    ghost predicate Valid()
      reads this
    {
      TablesOk(live, committed, sources) && StatusOk(status, ends, committed)
    }

    constructor (live: Table)
      ensures Valid() && this.live == live && committed == [live] && ends == []
    {
      staging, this.live := [], live;
      status := Status(None, 0, 0, 0, 0, 0, None);
      committed, sources, ends := [live], [], [];
    }

    method RegionRowCount(fails: bool) returns (n: Option<nat>)
      ensures n == if fails then None else Some(|live|)
    {
      n := if fails then None else Some(|live|);
    }

    /** The delta in one transaction. With a failure before the commit nothing changes; otherwise the
        live table becomes the selection, and the counts describe the change. */
    method ApplyDelta(scan: seq<Order>, parts: seq<Part>, failAt: Option<ApplyStep>, ghost pages: seq<Page>)
      returns (r: Option<Counts>)
      requires AnyOrder(parts)
      modifies this`live, this`committed, this`sources
      ensures failAt.Some? ==> r == None && unchanged(this)
      ensures failAt.None? ==>
                && r == Some(CountsOf(Compute(DistinctOn(scan), old(live)), staging))
                && live == DistinctOn(scan)
                && committed == old(committed) + [live] && sources == old(sources) + [pages]
    {
      if failAt.Some? && (failAt.value.ApplyConnect? || failAt.value.ApplyBegin? || failAt.value.SetWorkMem?) {
        return None;
      }
      if failAt.Some? && failAt.value.CountDuplicates? {
        return None;
      }
      var duplicates := Duplicates(staging);
      if failAt.Some? && failAt.value.RunDelta? {
        return None;
      }
      var d := Compute(DistinctOn(scan), live);
      DeltaIsReplace(parts, DistinctOn(scan), live);
      var t := RunParts(parts, d, live);
      if t.None? || (failAt.Some? && failAt.value.ApplyCommit?) {
        return None;
      }
      live := t.value;
      committed, sources := committed + [live], sources + [pages];
      r := Some(Counts(|Touched(d, InsertPart)|, |Touched(d, UpdatePart)|, |Touched(d, DeletePart)|, duplicates));
    }

    /** The full replace in one transaction. */
    method ResyncRegion(scan: seq<Order>, failAt: Option<ResyncStep>, ghost pages: seq<Page>)
      returns (r: Option<nat>)
      modifies this`live, this`committed, this`sources
      ensures failAt.Some? ==> r == None && unchanged(this)
      ensures failAt.None? ==>
                && r == Some(|DistinctOn(scan)|)
                && live == DistinctOn(scan)
                && committed == old(committed) + [live] && sources == old(sources) + [pages]
    {
      if failAt.Some? && (failAt.value.ResyncConnect? || failAt.value.ResyncBegin? || failAt.value.SetLockTimeout?) {
        return None;
      }
      var t: Table := live;
      if failAt.Some? && failAt.value.TruncateLive? {
        return None;
      }
      t := map[];
      if failAt.Some? && failAt.value.InsertLive? {
        return None;
      }
      t := t + DistinctOn(scan);
      assert t == DistinctOn(scan);
      if failAt.Some? && failAt.value.ResyncCommit? {
        return None;
      }
      live := t;
      committed, sources := committed + [live], sources + [pages];
      r := Some(|t|);
    }

    /** Both sides of the drift guard, each over its own scan. */
    method VerifyRegion(liveKeys: seq<int>, scan: seq<Order>, stagedKeys: seq<int>, h: Hashed -> int)
      returns (l: Sum, st: Sum)
      requires Visits(liveKeys, live) && Visits(stagedKeys, DistinctOn(scan))
      ensures l == ChecksumOf(live, liveKeys, h)
      ensures st == ChecksumOf(DistinctOn(scan), stagedKeys, h)
      ensures ScanOf(scan, staging) && Selection(staging, live) && AgreeOnHash(staging, h) ==> l == st
    {
      l, st := ChecksumOf(live, liveKeys, h), ChecksumOf(DistinctOn(scan), stagedKeys, h);
      if ScanOf(scan, staging) && Selection(staging, live) && AgreeOnHash(staging, h) {
        DistinctOnSelects(scan, staging);
        NoFalseAlarm(staging, live, DistinctOn(scan), liveKeys, stagedKeys, h);
      }
    }

    method MarkRefreshed(at: nat, meta: Meta, orderCount: nat, fails: bool) returns (ok: bool)
      modifies this`status
      ensures ok == !fails
      ensures fails ==> unchanged(this)
      ensures !fails ==>
                status == Status(Some(at), meta.expires, meta.lastModified, meta.pages, orderCount, 0, None)
    {
      if fails {
        return false;
      }
      status := Status(Some(at), meta.expires, meta.lastModified, meta.pages, orderCount, 0, None);
      ok := true;
    }

    method MarkFailed(at: nat, fails: bool) returns (ok: bool)
      modifies this`status
      ensures ok == !fails
      ensures fails ==> unchanged(this)
      ensures !fails ==>
                status == old(status).(consecutiveErrors := old(status).consecutiveErrors + 1, lastErrorAt := Some(at))
    {
      if fails {
        return false;
      }
      status := status.(consecutiveErrors := status.consecutiveErrors + 1, lastErrorAt := Some(at));
      ok := true;
    }
  }

  // ----- The cycle -----

  datatype Outcome = Ok | Resynced | WasDeferred | WasInconsistent | WasFailed

  datatype Result = Result(outcome: Outcome, meta: Meta, delta: Counts, staged: nat, failed: bool)

  /** The drift guard is a seam: the store's own query, an injected verdict, or an error. */
  datatype Verify =
    | FromStore(liveKeys: seq<int>, scan: seq<Order>, stagedKeys: seq<int>, h: Hashed -> int)
    | Injected(live: Sum, staged: Sum)
    | VerifyFails

  /** Everything the database and the clock decide during one cycle. */
  datatype Env = Env(
    countFails: bool,
    applyScan: seq<Order>, parts: seq<Part>, applyFault: Option<ApplyStep>, loadFault: Option<ResyncStep>,
    verify: Verify,
    repairScan: seq<Order>, repairFault: Option<ResyncStep>,
    markRefreshedFails: bool, markFailedFails: bool,
    shutdown: bool, now: nat)

  function StagedRows(s: State): seq<Order> {
    if s.copier.Copied? then s.copier.rows else []
  }

  function FetchedPages(s: State): seq<Page> {
    if s.sweeper.Returned? then s.sweeper.pages else []
  }

  function SweepErr(s: State): Option<SweepError> {
    if s.sweeper.Returned? then s.sweeper.err else None
  }

  /** The database visits every staged row once whenever it scans, and an ended context stays ended. */
  ghost predicate Plausible(env: Env, rows: seq<Order>, contextEnded: bool) {
    && (contextEnded ==> env.shutdown)
    && AnyOrder(env.parts)
    && ScanOf(env.applyScan, rows)
    && ScanOf(env.repairScan, rows)
    && (env.verify.FromStore? ==> ScanOf(env.verify.scan, rows))
    && ChecksumsVisit(env)
  }

  /** Each side of the store's own guard visits its rows once. */
  ghost predicate ChecksumsVisit(env: Env) {
    env.verify.FromStore? ==>
      && Visits(env.verify.liveKeys, DistinctOn(env.applyScan))
      && Visits(env.verify.stagedKeys, DistinctOn(env.verify.scan))
  }

  // ----- What a cycle does, as functions of how its sweep ended and what the database decided -----

  /** The cycle reaches the commit that makes the new snapshot visible. */
  predicate Commits(s: State, env: Env, firstLoad: bool) {
    && BothSucceeded(s) && !env.countFails
    && if firstLoad then env.loadFault.None? else env.applyFault.None?
  }

  /** The guard finds the live table different from staging. */
  ghost predicate Drifts(env: Env) {
    match env.verify
    case FromStore(lk, scan, sk, h) =>
      && ChecksumsVisit(env)
      && ChecksumOf(DistinctOn(env.applyScan), lk, h) != ChecksumOf(DistinctOn(scan), sk, h)
    case Injected(l, st) => l != st
    case VerifyFails => false
  }

  /** What the repair of a drifted table makes visible. */
  ghost function Repairs(env: Env): seq<Table> {
    if Drifts(env) && env.repairFault.None? then [DistinctOn(env.repairScan)] else []
  }

  /** The tables the cycle makes visible, oldest first. */
  ghost function Published(s: State, env: Env, firstLoad: bool): seq<Table> {
    if Commits(s, env, firstLoad) then [DistinctOn(env.applyScan)] + Repairs(env) else []
  }

  ghost function FailureEnd(env: Env): CycleEnd {
    if env.shutdown then NotAFailure
    else if env.markFailedFails then FailureUnrecorded else FailureRecorded
  }

  ghost function EndingAfterCommit(s: State, env: Env): CycleEnd {
    if env.verify.VerifyFails? || (Drifts(env) && env.repairFault.Some?) then FailureEnd(env)
    else if env.markRefreshedFails then RefreshUnrecorded
    else
      var live := DistinctOn(if Repairs(env) == [] then env.applyScan else env.repairScan);
      Refreshed(env.now, StagedRows(s), live, FetchedPages(s))
  }

  /** How the cycle ends for the consumer. */
  ghost function Ending(s: State, env: Env, firstLoad: bool): CycleEnd {
    if !BothSucceeded(s) then
      if SweepErr(s) == Some(Deferred) then NotAFailure else FailureEnd(env)
    else if !Commits(s, env, firstLoad) then FailureEnd(env)
    else EndingAfterCommit(s, env)
  }

  /** How a failed sweep or copy is classified. A deferral wins over a copy failure joined to it. */
  function Classify(err: Option<SweepError>): Outcome {
    if err == Some(Deferred) then WasDeferred
    else if err == Some(Inconsistent) then WasInconsistent
    else WasFailed
  }

  // ----- What that means -----

  /** Visibility. Whatever the cycle publishes is a selection of its own staging, which is one whole
      snapshot; it publishes nothing at all exactly when it fails before its commit. */
  lemma PublishedAreWholeSnapshots(cfg: Config, budget: Option<int>, acts: seq<Action>, env: Env, firstLoad: bool)
    requires Completed(cfg, budget, acts)
    requires Plausible(env, StagedRows(FinalState(cfg, budget, acts)), FinalState(cfg, budget, acts).shutdown)
    ensures var s := FinalState(cfg, budget, acts);
            && (Published(s, env, firstLoad) == [] <==> !Commits(s, env, firstLoad))
            && |Published(s, env, firstLoad)| <= 2
            && (forall t <- Published(s, env, firstLoad) ::
                  Selection(StagedRows(s), t) && WholeSnapshot(t, s.sweeper.pages))
  {
    var s := FinalState(cfg, budget, acts);
    if Commits(s, env, firstLoad) {
      StagingIsThePageSet(cfg, budget, acts);
      forall t <- Published(s, env, firstLoad)
        ensures Selection(StagedRows(s), t) && WholeSnapshot(t, s.sweeper.pages)
      {
        DistinctOnSelects(env.applyScan, StagedRows(s));
        DistinctOnSelects(env.repairScan, StagedRows(s));
        SelectionIsWhole(StagedRows(s), t, s.sweeper.pages, s.meta);
      }
    }
  }

  /** With the store's own guard and duplicates that hash alike, a committed snapshot is never rebuilt
      for nothing. */
  lemma NoNeedlessRepair(s: State, env: Env, firstLoad: bool)
    requires Plausible(env, StagedRows(s), s.shutdown) && env.verify.FromStore?
    requires Commits(s, env, firstLoad) && AgreeOnHash(StagedRows(s), env.verify.h)
    ensures !Drifts(env) && Published(s, env, firstLoad) == [DistinctOn(env.applyScan)]
  {
    DistinctOnSelects(env.applyScan, StagedRows(s));
    DistinctOnSelects(env.verify.scan, StagedRows(s));
    NoFalseAlarm(StagedRows(s), DistinctOn(env.applyScan), DistinctOn(env.verify.scan),
                 env.verify.liveKeys, env.verify.stagedKeys, env.verify.h);
  }

  /** A database failure during the copy is counted exactly when the process is not shutting down, the
      same sweep was not deferred, and the count could be written. */
  lemma CopyFailureCountedUnlessDeferred(cfg: Config, budget: Option<int>, acts: seq<Action>, env: Env, firstLoad: bool)
    requires Completed(cfg, budget, acts) && FinalState(cfg, budget, acts).copier.CopyFailed?
    ensures var s := FinalState(cfg, budget, acts);
            Ending(s, env, firstLoad).FailureRecorded? <==>
            !env.shutdown && SweepErr(s) != Some(Deferred) && !env.markFailedFails
  {
    InvFromBegin(cfg, budget, acts);
  }

  /** It happens that one is not counted: the copy gets no connection, the status write would succeed,
      nothing is shutting down, but the budget is below its floor. */
  lemma CopyFailureGoesUncounted(cfg: Config, left: int, env: Env, firstLoad: bool) returns (acts: seq<Action>)
    requires left < cfg.floor && !env.shutdown && !env.markFailedFails
    ensures Completed(cfg, Some(left), acts)
    ensures FinalState(cfg, Some(left), acts).copier.CopyFailed? && !FinalState(cfg, Some(left), acts).shutdown
    ensures Ending(FinalState(cfg, Some(left), acts), env, firstLoad) == NotAFailure
  {
    acts := DeferredWithoutConnection(cfg, left);
  }

  /** Only a failure before the commit keeps the old table. After it, the new snapshot can be live
      while refreshed_at is old: this happens exactly when the guard, its repair or the status write
      fails. */
  lemma NewTableWithOldTimestamp(s: State, env: Env, firstLoad: bool)
    ensures Published(s, env, firstLoad) != [] && !Ending(s, env, firstLoad).Refreshed? <==>
            && Commits(s, env, firstLoad)
            && (env.verify.VerifyFails? || (Drifts(env) && env.repairFault.Some?) || env.markRefreshedFails)
  {
  }

  /** It happens: one order is fetched, staged and applied, and then the guard's query fails. */
  lemma NewTableStaysUnannounced(cfg: Config, o: Order, firstLoad: bool) returns (acts: seq<Action>, env: Env)
    requires cfg.pageAttempts >= 1
    ensures Completed(cfg, None, acts)
    ensures var s := FinalState(cfg, None, acts);
            && Plausible(env, StagedRows(s), s.shutdown) && !env.shutdown
            && Published(s, env, firstLoad) == [map[o.id := o.cols]]
            && Ending(s, env, firstLoad) == FailureRecorded
  {
    acts := OneOrderRun(cfg, o);
    var parts := [DeletePart, UpdatePart, InsertPart];
    env := Env(false, [o], parts, None, None, VerifyFails, [o], None, false, false, false, 0);
    assert [o][..0] == [];
    assert DistinctOn([o]) == map[o.id := o.cols];
  }

  lemma SelectionIsWhole(rows: seq<Order>, t: Table, pages: seq<Page>, meta: Meta)
    requires OneSnapshot(pages, meta) && multiset(rows) == RowsOf(pages) && Selection(rows, t)
    ensures WholeSnapshot(t, pages)
  {
    assert pages[0] in pages;
    forall id <- t
      ensures Order(id, t[id]) in RowsOf(pages)
    {
      assert Order(id, t[id]) in multiset(rows);
    }
    forall r <- RowsOf(pages)
      ensures r.id in t
    {
      assert r in multiset(rows);
    }
  }

  /** The tables named became visible, one after the other, all from one page set. */
  ghost predicate Moved(committed: seq<Table>, sources: seq<seq<Page>>, live: Table, tables: seq<Table>,
                        pages: seq<Page>, committed': seq<Table>, sources': seq<seq<Page>>, live': Table)
  {
    && committed' == committed + tables
    && sources <= sources' && |sources'| == |sources| + |tables|
    && (forall i :: |sources| <= i < |sources'| ==> sources'[i] == pages)
    && live' == if tables == [] then live else tables[|tables| - 1]
  }

  lemma MovedTwice(c0: seq<Table>, s0: seq<seq<Page>>, l0: Table, first: seq<Table>, pages: seq<Page>,
                   c1: seq<Table>, s1: seq<seq<Page>>, l1: Table, more: seq<Table>,
                   c2: seq<Table>, s2: seq<seq<Page>>, l2: Table)
    requires Moved(c0, s0, l0, first, pages, c1, s1, l1)
    requires Moved(c1, s1, l1, more, pages, c2, s2, l2)
    ensures Moved(c0, s0, l0, first + more, pages, c2, s2, l2)
  {
    ConcatAssociates(c0, first, more);
  }

  /** The consumer's row moves with the end of a cycle. */
  predicate StatusFollows(before: Status, e: CycleEnd, after: Status) {
    match e
    case Refreshed(at, staging, _, pages) =>
      && pages != []
      && after.refreshedAt == Some(at) && after.orderCount == |staging|
      && after.expires == pages[0].expires && after.lastModified == pages[0].lastModified && after.pages == |pages|
      && after.consecutiveErrors == 0 && after.lastErrorAt == None
    case FailureRecorded =>
      && after.lastErrorAt.Some?
      && after == before.(consecutiveErrors := before.consecutiveErrors + 1, lastErrorAt := after.lastErrorAt)
    case _ => after == before
  }

  /** An announced table was a visible one, and stays one of those that ever were. */
  lemma StaysAnnounced(e: CycleEnd, committed: seq<Table>, committed': seq<Table>)
    requires e.Refreshed? && Announced(e, committed) && committed <= committed'
    ensures Announced(e, committed')
  {
    assert committed' == committed + committed'[|committed|..];
    assert e.live in committed';
  }

  lemma AllStayAnnounced(ends: seq<CycleEnd>, e: CycleEnd, committed: seq<Table>, committed': seq<Table>)
    requires forall e' <- ends :: e'.Refreshed? ==> Announced(e', committed)
    requires committed <= committed' && (e.Refreshed? ==> Announced(e, committed'))
    ensures forall e' <- ends + [e] :: e'.Refreshed? ==> Announced(e', committed')
  {
    forall e' <- ends + [e] | e'.Refreshed?
      ensures Announced(e', committed')
    {
      if e' in ends {
        StaysAnnounced(e', committed, committed');
      }
    }
  }

  lemma StatusStaysOk(before: Status, ends: seq<CycleEnd>, committed: seq<Table>,
                      e: CycleEnd, after: Status, committed': seq<Table>)
    requires StatusOk(before, ends, committed) && committed <= committed'
    requires StatusFollows(before, e, after)
    requires e.Refreshed? ==> Announced(e, committed')
    ensures StatusOk(after, ends + [e], committed')
  {
    EndsPush(ends, e);
    AllStayAnnounced(ends, e, committed, committed');
    if e.Refreshed? {
      assert |e.live| == |e.live.Keys|;
    }
  }

  lemma TablesStayOk(live: Table, committed: seq<Table>, sources: seq<seq<Page>>,
                     tables: seq<Table>, pages: seq<Page>,
                     committed': seq<Table>, sources': seq<seq<Page>>, live': Table)
    requires TablesOk(live, committed, sources)
    requires Moved(committed, sources, live, tables, pages, committed', sources', live')
    requires forall t <- tables :: WholeSnapshot(t, pages)
    ensures TablesOk(live', committed', sources')
    ensures tables != [] ==> live' in committed'
  {
    forall i | 0 <= i < |sources'|
      ensures WholeSnapshot(committed'[i + 1], sources'[i])
    {
      if i >= |sources| {
        assert committed'[i + 1] == tables[i - |sources|];
        assert tables[i - |sources|] in tables;
      }
    }
  }

  /** A refresh announces the table the cycle published last. */
  lemma RefreshAnnouncesPublished(s: State, env: Env, firstLoad: bool)
    ensures var e, tables := Ending(s, env, firstLoad), Published(s, env, firstLoad);
            e.Refreshed? ==>
              && tables != [] && e.live == tables[|tables| - 1] && e.live in tables
              && e.staging == StagedRows(s) && e.pages == FetchedPages(s)
  {
  }

  lemma RefreshIsAnnounced(cfg: Config, budget: Option<int>, acts: seq<Action>, s: State, env: Env, firstLoad: bool,
                           committed: seq<Table>)
    requires Completed(cfg, budget, acts) && s == FinalState(cfg, budget, acts)
    requires Plausible(env, StagedRows(s), s.shutdown)
    requires forall t <- Published(s, env, firstLoad) :: t in committed
    ensures var e := Ending(s, env, firstLoad); e.Refreshed? ==> Announced(e, committed)
  {
    if Ending(s, env, firstLoad).Refreshed? {
      PublishedAreWholeSnapshots(cfg, budget, acts, env, firstLoad);
      RefreshAnnouncesPublished(s, env, firstLoad);
      StagingIsThePageSet(cfg, budget, acts);
    }
  }

  /** What a cycle publishes and how it ends keep both halves of the store's invariant. */
  lemma CycleKeepsStore(
    cfg: Config, budget: Option<int>, acts: seq<Action>, s: State, env: Env, firstLoad: bool,
    committed: seq<Table>, sources: seq<seq<Page>>, live: Table, status: Status, ends: seq<CycleEnd>,
    committed': seq<Table>, sources': seq<seq<Page>>, live': Table, status': Status)
    requires Completed(cfg, budget, acts) && s == FinalState(cfg, budget, acts)
    requires Plausible(env, StagedRows(s), s.shutdown)
    requires TablesOk(live, committed, sources) && StatusOk(status, ends, committed)
    requires StatusFollows(status, Ending(s, env, firstLoad), status')
    requires Moved(committed, sources, live, Published(s, env, firstLoad), FetchedPages(s), committed', sources', live')
    ensures TablesOk(live', committed', sources') && StatusOk(status', ends + [Ending(s, env, firstLoad)], committed')
  {
    PublishedAreWholeSnapshots(cfg, budget, acts, env, firstLoad);
    TablesStayOk(live, committed, sources, Published(s, env, firstLoad), FetchedPages(s), committed', sources', live');
    RefreshIsAnnounced(cfg, budget, acts, s, env, firstLoad, committed');
    StatusStaysOk(status, ends, committed, Ending(s, env, firstLoad), status', committed');
  }

  class RegionCycle {
    const store: RegionStore

    constructor (store: RegionStore)
      ensures this.store == store
    {
      this.store := store;
    }

    /** Classifies a failure and records it. A shutdown records nothing; a deferral is not counted. */
    method RecordFailure(err: Option<SweepError>, env: Env) returns (outcome: Outcome, failed: bool)
      modifies store`status, store`ends
      ensures failed == !env.shutdown
      ensures outcome == if env.shutdown then WasFailed else Classify(err)
      ensures var e := if err == Some(Deferred) then NotAFailure else FailureEnd(env);
              store.ends == old(store.ends) + [e] && StatusFollows(old(store.status), e, store.status)
    {
      outcome, failed := WasFailed, false;
      ghost var e := NotAFailure;
      if !env.shutdown {
        outcome, failed := Classify(err), true;
        if outcome != WasDeferred {
          var ok := store.MarkFailed(env.now, env.markFailedFails);
          e := if ok then FailureRecorded else FailureUnrecorded;
        }
      }
      store.ends := store.ends + [e];
    }

    /** A database-side failure: recorded, and returned as well. */
    method Fail(env: Env, meta: Meta, delta: Counts, staged: nat) returns (res: Result, err: bool)
      modifies store`status, store`ends
      ensures err && res == Result(WasFailed, meta, delta, staged, !env.shutdown)
      ensures store.ends == old(store.ends) + [FailureEnd(env)]
      ensures StatusFollows(old(store.status), FailureEnd(env), store.status)
    {
      var _, failed := RecordFailure(None, env);
      res, err := Result(WasFailed, meta, delta, staged, failed), true;
    }

    /** Counts the live rows, then loads or applies: the step up to the first commit. */
    method ApplySnapshot(s: State, env: Env) returns (r: Option<(Counts, Outcome)>)
      requires BothSucceeded(s) && store.staging == s.copier.rows && AnyOrder(env.parts)
      modifies store`live, store`committed, store`sources
      ensures r.Some? <==> Commits(s, env, |old(store.live)| == 0)
      ensures r.None? ==> unchanged(store)
      ensures r.Some? ==>
                && store.live == DistinctOn(env.applyScan)
                && Moved(old(store.committed), old(store.sources), old(store.live), [store.live],
                         s.sweeper.pages, store.committed, store.sources, store.live)
                && r.value.1 == (if |old(store.live)| == 0 then Resynced else Ok)
      ensures r.Some? && r.value.1 == Ok ==>
                r.value.0 == CountsOf(Compute(DistinctOn(env.applyScan), old(store.live)), s.copier.rows)
    {
      var count := store.RegionRowCount(env.countFails);
      if count.None? {
        return None;
      }
      if count.value == 0 {
        var n := store.ResyncRegion(env.applyScan, env.loadFault, s.sweeper.pages);
        return if n.None? then None else Some((Counts(n.value, 0, 0, 0), Resynced));
      }
      var d := store.ApplyDelta(env.applyScan, env.parts, env.applyFault, s.sweeper.pages);
      r := if d.None? then None else Some((d.value, Ok));
    }

    /** The drift guard and its repair. None is a database error, otherwise whether it repaired. */
    method Guard(s: State, env: Env) returns (repaired: Option<bool>)
      requires BothSucceeded(s) && ChecksumsVisit(env)
      requires store.live == DistinctOn(env.applyScan)
      modifies store`live, store`committed, store`sources
      ensures repaired.None? <==> env.verify.VerifyFails? || (Drifts(env) && env.repairFault.Some?)
      ensures repaired == Some(true) <==> Repairs(env) != []
      ensures Moved(old(store.committed), old(store.sources), old(store.live), Repairs(env),
                    s.sweeper.pages, store.committed, store.sources, store.live)
    {
      var drift := false;
      match env.verify {
        case VerifyFails =>
          return None;
        case Injected(l, st) =>
          drift := l != st;
        case FromStore(liveKeys, scan, stagedKeys, h) =>
          var l, st := store.VerifyRegion(liveKeys, scan, stagedKeys, h);
          drift := l != st;
      }
      if !drift {
        return Some(false);
      }
      var n := store.ResyncRegion(env.repairScan, env.repairFault, s.sweeper.pages);
      repaired := if n.None? then None else Some(true);
    }

    /** Guard, repair and status write, once the new snapshot is live. */
    method AfterCommit(s: State, env: Env, staged: nat, delta: Counts, applied: Outcome)
      returns (res: Result, err: bool)
      requires BothSucceeded(s) && ChecksumsVisit(env) && staged == |s.copier.rows|
      requires OneSnapshot(s.sweeper.pages, s.meta)
      requires store.live == DistinctOn(env.applyScan)
      requires applied == Ok || applied == Resynced
      modifies store`live, store`status, store`committed, store`sources, store`ends
      ensures Moved(old(store.committed), old(store.sources), old(store.live), Repairs(env),
                    s.sweeper.pages, store.committed, store.sources, store.live)
      ensures store.ends == old(store.ends) + [EndingAfterCommit(s, env)]
      ensures StatusFollows(old(store.status), EndingAfterCommit(s, env), store.status)
      ensures Concluded(s, env, store.ends[|old(store.ends)|], res, err)
      ensures res.outcome == Ok ==> applied == Ok && res.delta == delta
    {
      var repaired := Guard(s, env);
      if repaired.None? {
        res, err := Fail(env, s.meta, delta, staged);
        return;
      }
      var outcome := if repaired.value then Resynced else applied;
      var ok := store.MarkRefreshed(env.now, s.meta, staged, env.markRefreshedFails);
      ghost var e := if ok then Refreshed(env.now, s.copier.rows, store.live, s.sweeper.pages) else RefreshUnrecorded;
      store.ends := store.ends + [e];
      res, err := Result(outcome, s.meta, delta, staged, false), !ok;
    }

    /** The database half: from counting the live rows to the status write. */
    method Publish(s: State, env: Env, staged: nat) returns (res: Result, err: bool)
      requires BothSucceeded(s) && ChecksumsVisit(env) && AnyOrder(env.parts)
      requires store.staging == s.copier.rows && staged == |s.copier.rows| && OneSnapshot(s.sweeper.pages, s.meta)
      modifies store`live, store`status, store`committed, store`sources, store`ends
      ensures var firstLoad := |old(store.live)| == 0;
              && Moved(old(store.committed), old(store.sources), old(store.live),
                       Published(s, env, firstLoad), s.sweeper.pages, store.committed, store.sources, store.live)
              && store.ends == old(store.ends) + [Ending(s, env, firstLoad)]
              && StatusFollows(old(store.status), Ending(s, env, firstLoad), store.status)
      ensures Concluded(s, env, store.ends[|old(store.ends)|], res, err)
      ensures res.outcome == Ok ==>
                res.delta == CountsOf(Compute(DistinctOn(env.applyScan), old(store.live)), s.copier.rows)
    {
      var applied := ApplySnapshot(s, env);
      if applied.None? {
        res, err := Fail(env, s.meta, Counts(0, 0, 0, 0), staged);
        return;
      }
      ghost var c1, s1, l1 := store.committed, store.sources, store.live;
      res, err := AfterCommit(s, env, staged, applied.value.0, applied.value.1);
      MovedTwice(old(store.committed), old(store.sources), old(store.live), [l1], s.sweeper.pages,
                 c1, s1, l1, Repairs(env), store.committed, store.sources, store.live);
    }

    /** One whole cycle, given how its sweep and copy ended. It makes visible exactly the tables
        Published lists, ends for the consumer as Ending says, and keeps every invariant of the
        store: in particular every table ever visible stays a whole snapshot. */
    method Run(s: State, env: Env, ghost cfg: Config, ghost budget: Option<int>, ghost acts: seq<Action>)
      returns (res: Result, err: bool)
      requires store.Valid()
      requires Completed(cfg, budget, acts) && s == FinalState(cfg, budget, acts)
      requires Plausible(env, StagedRows(s), s.shutdown)
      modifies store
      ensures store.Valid()
      ensures store.committed == old(store.committed) + Published(s, env, |old(store.live)| == 0)
      ensures store.ends == old(store.ends) + [Ending(s, env, |old(store.live)| == 0)]
      ensures store.staging == if s.staging.Some? then s.staging.value else old(store.staging)
      ensures Concluded(s, env, store.ends[|old(store.ends)|], res, err)
      ensures store.ends[|old(store.ends)|].Refreshed? ==>
                && FetchedPages(s) != []
                && store.status == Status(Some(env.now), FetchedPages(s)[0].expires, FetchedPages(s)[0].lastModified,
                                          |FetchedPages(s)|, |StagedRows(s)|, 0, None)
      ensures !store.ends[|old(store.ends)|].Refreshed? ==>
                store.status == old(store.status).(consecutiveErrors := store.status.consecutiveErrors,
                                                   lastErrorAt := store.status.lastErrorAt)
      ensures res.outcome == Ok ==>
                res.delta == CountsOf(Compute(DistinctOn(env.applyScan), old(store.live)), StagedRows(s))
    {
      ghost var firstLoad, c0, s0, l0, st0, e0 :=
        |store.live| == 0, store.committed, store.sources, store.live, store.status, store.ends;
      InvFromBegin(cfg, budget, acts);
      if s.staging.Some? {
        store.staging := s.staging.value;
      }
      if BothSucceeded(s) {
        StagingIsThePageSet(cfg, budget, acts);
      }
      res, err := Finish(s, env);
      RowAfter(s, env, firstLoad, st0, store.status);
      CycleKeepsStore(cfg, budget, acts, s, env, firstLoad, c0, s0, l0, st0, e0,
                      store.committed, store.sources, store.live, store.status);
    }

    /** The cycle once its sweep and copy have ended and staging is filled. */
    method Finish(s: State, env: Env) returns (res: Result, err: bool)
      requires s.sweeper.Returned? && ChecksumsVisit(env) && AnyOrder(env.parts)
      requires BothSucceeded(s) ==>
                 && store.staging == s.copier.rows && OneSnapshot(s.sweeper.pages, s.meta)
                 && |s.copier.rows| == s.meta.orderCount
      modifies store`live, store`status, store`committed, store`sources, store`ends
      ensures var firstLoad := |old(store.live)| == 0;
              && Moved(old(store.committed), old(store.sources), old(store.live),
                       Published(s, env, firstLoad), FetchedPages(s), store.committed, store.sources, store.live)
              && store.ends == old(store.ends) + [Ending(s, env, firstLoad)]
              && StatusFollows(old(store.status), Ending(s, env, firstLoad), store.status)
      ensures Concluded(s, env, store.ends[|old(store.ends)|], res, err)
      ensures res.outcome == Ok ==>
                res.delta == CountsOf(Compute(DistinctOn(env.applyScan), old(store.live)), StagedRows(s))
    {
      if !BothSucceeded(s) {
        var outcome, failed := RecordFailure(s.sweeper.err, env);
        res, err := Result(outcome, s.meta, Counts(0, 0, 0, 0), |StagedRows(s)|, failed), false;
        return;
      }
      var staged := |s.copier.rows|;
      // Everything fetched must have reached staging.
      if staged != s.meta.orderCount {
        assert false;
      }
      res, err := Publish(s, env, staged);
    }
  }

  /** What a cycle returns, given how its sweep ended and how it ended for the consumer. */
  ghost predicate Concluded(s: State, env: Env, e: CycleEnd, res: Result, err: bool) {
    && res.meta == s.meta
    && (e.Refreshed? <==> !err && BothSucceeded(s))
    && (e.RefreshUnrecorded? ==> BothSucceeded(s))
    && (e.Refreshed? <==> !err && (res.outcome == Ok || res.outcome == Resynced))
    && (BothSucceeded(s) ==>
          && (res.outcome.WasDeferred? || res.outcome.WasInconsistent? ==> false)
          && (res.failed <==> err && !e.RefreshUnrecorded? && !env.shutdown))
    && (!BothSucceeded(s) ==>
          && !err && res.failed == !env.shutdown
          && (res.outcome.WasDeferred? <==> !env.shutdown && SweepErr(s) == Some(Deferred))
          && (res.outcome.WasInconsistent? <==> !env.shutdown && SweepErr(s) == Some(Inconsistent)))
  }

  /** The consumer's row after a cycle: after a refresh every field of it is that of this cycle, its expiry
      and age those of page 1; otherwise only the error fields can have moved. */
  lemma RowAfter(s: State, env: Env, firstLoad: bool, before: Status, after: Status)
    requires StatusFollows(before, Ending(s, env, firstLoad), after)
    ensures Ending(s, env, firstLoad).Refreshed? ==>
              && FetchedPages(s) != []
              && after == Status(Some(env.now), FetchedPages(s)[0].expires, FetchedPages(s)[0].lastModified,
                                 |FetchedPages(s)|, |StagedRows(s)|, 0, None)
    ensures !Ending(s, env, firstLoad).Refreshed? ==>
              after == before.(consecutiveErrors := after.consecutiveErrors, lastErrorAt := after.lastErrorAt)
  {
  }
}
