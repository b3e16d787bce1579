/** The history importer: which days are due, what each import is given, and the one transaction that
    stores its rows together with the bookkeeping. */
module Importer {
  import opened Common
  import opened Everef
  import opened History

  datatype EverefDay = EverefDay(totals: nat, upserted: nat, watermark: int)

  datatype ImportStep =
    | EnsureYear | Connect | Begin | TruncateStaging | CopyRows | UpsertRows | RecordDay | Commit

  /** The staging steps run only when there are rows. */
  predicate Fails(failAt: Option<ImportStep>, rows: seq<Row>) {
    && failAt.Some?
    && (rows == [] ==> !failAt.value.TruncateStaging? && !failAt.value.CopyRows? && !failAt.value.UpsertRows?)
  }

  /** A committed import. */
  datatype Import = Import(day: int, totals: nat)

  ghost function ImportsOf(log: seq<Import>, day: int): seq<nat> {
    if log == [] then []
    else ImportsOf(log[..|log| - 1], day) + if log[|log| - 1].day == day then [log[|log| - 1].totals] else []
  }

  ghost predicate Rising(ts: seq<nat>) {
    && (ts != [] ==> ts[0] >= 1)
    && forall i :: 0 < i < |ts| ==> ts[i - 1] < ts[i]
  }

  /** The bookkeeping matches the imports: a day is known once it was imported, its count is that of its
      last import, and every re-import raised the count. */
  ghost predicate Ledger(log: seq<Import>, days: map<int, EverefDay>) {
    forall d: int :: LedgerAt(ImportsOf(log, d), d, days)
  }

  ghost predicate LedgerAt(ts: seq<nat>, d: int, days: map<int, EverefDay>) {
    && Rising(ts)
    && (d in days <==> ts != [])
    && (d in days ==> ts[|ts| - 1] == days[d].totals)
  }

  lemma {:induction false} RisingBound(ts: seq<nat>)
    requires Rising(ts) && ts != []
    ensures |ts| <= ts[|ts| - 1]
  {
    if |ts| > 1 {
      RisingBound(ts[..|ts| - 1]);
    }
  }

  /** Bounded work: a day whose index count never exceeds n is successfully imported at most n times. */
  lemma ImportsAreBounded(log: seq<Import>, days: map<int, EverefDay>, day: int, n: nat)
    requires Ledger(log, days)
    requires forall i <- log :: i.day == day ==> i.totals <= n
    ensures |ImportsOf(log, day)| <= n
  {
    assert LedgerAt(ImportsOf(log, day), day, days);
    if ImportsOf(log, day) != [] {
      RisingBound(ImportsOf(log, day));
      LastImport(log, day);
    }
  }

  lemma {:induction false} LastImport(log: seq<Import>, day: int)
    requires ImportsOf(log, day) != []
    ensures Import(day, ImportsOf(log, day)[|ImportsOf(log, day)| - 1]) in log
  {
    if log[|log| - 1].day != day {
      LastImport(log[..|log| - 1], day);
    }
  }

  lemma LedgerPush(log: seq<Import>, days: map<int, EverefDay>, day: int, entry: EverefDay)
    requires Ledger(log, days)
    requires entry.totals >= 1 && (day in days ==> entry.totals > days[day].totals)
    ensures Ledger(log + [Import(day, entry.totals)], days[day := entry])
  {
    var log' := log + [Import(day, entry.totals)];
    assert log'[..|log|] == log;
    forall d: int
      ensures LedgerAt(ImportsOf(log', d), d, days[day := entry])
    {
      assert LedgerAt(ImportsOf(log, d), d, days);
    }
  }

  /** Every day is faithful to the last version whose import committed, through its watermark. */
  ghost predicate Sound(t: History.Table, days: map<int, EverefDay>, files: map<int, File>, regions: Option<set<int>>) {
    && days.Keys == files.Keys
    && forall d: int :: SoundDay(t, d, days, files, regions)
  }

  ghost function FileOf(files: map<int, File>, d: int): File {
    if d in files then files[d] else []
  }

  ghost predicate SoundDay(t: History.Table, d: int, days: map<int, EverefDay>, files: map<int, File>,
                           regions: Option<set<int>>) {
    && Faithful(t, FileOf(files, d), regions, d)
    && OneDay(FileOf(files, d), d)
    && (d in days ==> d in files && days[d].watermark == Watermark(files[d]))
  }

  function WatermarkOf(days: map<int, EverefDay>, d: int): int {
    if d in days then days[d].watermark else 0
  }

  lemma ImportKeepsSound(t: History.Table, days: map<int, EverefDay>, files: map<int, File>, regions: Option<set<int>>,
                         day: int, file: File, scan: seq<Row>, entry: EverefDay)
    requires Sound(t, days, files, regions)
    requires Grows(FileOf(files, day), file) && OneDay(file, day) && entry.watermark == Watermark(file)
    requires ScanOf(scan, Kept(file, Filter(regions, WatermarkOf(days, day))))
    ensures Sound(Upsert(t, scan), days[day := entry], files[day := file], regions)
  {
    assert SoundDay(t, day, days, files, regions);
    ImportStepIsFaithful(t, FileOf(files, day), file, regions, day, scan);
    var t', days', files' := Upsert(t, scan), days[day := entry], files[day := file];
    forall d: int
      ensures SoundDay(t', d, days', files', regions)
    {
      assert SoundDay(t, d, days, files, regions);
      if d != day {
        OtherDayStaysFaithful(t, file, Filter(regions, WatermarkOf(days, day)), day, scan, FileOf(files, d), d);
      }
    }
  }

  lemma OtherDayStaysFaithful(t: History.Table, file: File, f: Filter, day: int, scan: seq<Row>, other: File, d: int)
    requires OneDay(file, day) && ScanOf(scan, Kept(file, f)) && d != day
    requires Faithful(t, other, f.regions, d)
    ensures Faithful(Upsert(t, scan), other, f.regions, d)
  {
    forall k: Key | k.date == d
      ensures (k in Upsert(t, scan) <==> k in t) && (k in t ==> Upsert(t, scan)[k] == t[k])
    {
      ImportStaysInDay(t, file, f, day, scan, k);
    }
  }

  /** The bookkeeping upsert: count and watermark are overwritten, the upserted rows add up. */
  function Recorded(days: map<int, EverefDay>, day: int, totals: nat, upserted: nat, watermark: int)
    : map<int, EverefDay>
  {
    var before := if day in days then days[day].upserted else 0;
    days[day := EverefDay(totals, before + upserted, watermark)]
  }

  lemma RecordedOneDay(days: map<int, EverefDay>, day: int, totals: nat, upserted: nat, watermark: int)
    ensures var days' := Recorded(days, day, totals, upserted, watermark);
            && days'.Keys == days.Keys + {day}
            && days'[day].totals == totals && days'[day].watermark == watermark
            && (day in days ==> days'[day].upserted == days[day].upserted + upserted)
            && (day !in days ==> days'[day].upserted == upserted)
            && (forall d <- days :: d != day ==> days'[d] == days[d])
  {
  }

  lemma NothingToUpsert(t: History.Table, scan: seq<Row>)
    requires ScanOf(scan, [])
    ensures LatestOf(scan) == map[] && Upsert(t, scan) == t
  {
    FirstIsMember(scan);
  }

  lemma FirstIsMember<T>(s: seq<T>)
    ensures s != [] ==> s[0] in s
  {
  }

  /** A sound table, in the columns of the files: whatever day was imported, every line of its last
      imported version that belongs has an entry at exactly its region, type and date. */
  lemma SoundInColumns(t: History.Table, days: map<int, EverefDay>, files: map<int, File>, regions: Option<set<int>>,
                       d: int, i: nat)
    requires Sound(t, days, files, regions) && d in files && i < |files[d]| && Belongs(files[d][i], regions)
    ensures var rec := files[d][i];
            && rec.rest.value.date == d && Key(rec.region.value, rec.rest.value.typeId, d) in t
            && rec.stamp.value <= t[Key(rec.region.value, rec.rest.value.typeId, d)].stamp <= days[d].watermark
  {
    assert SoundDay(t, d, days, files, regions);
    assert files[d][i] in files[d];
    LineIsStored(t, files[d], regions, d, i);
    WatermarkIsSafe(t, files[d], regions, d);
  }

  class HistoryStore {
    var history: History.Table
    var days: map<int, EverefDay>
    /** The version of each day file whose import committed last, and every committed import. */
    ghost var files: map<int, File>
    ghost var log: seq<Import>

    constructor ()
      ensures history == map[] && days == map[] && files == map[] && log == []
    {
      history, days, files, log := map[], map[], map[], [];
    }

    /** Rows and bookkeeping in one transaction: either both change, or neither. */
    method ImportHistory(day: int, rows: seq<Row>, totals: nat, watermark: int,
                         scan: seq<Row>, failAt: Option<ImportStep>, ghost file: File)
      returns (r: Option<nat>)
      requires ScanOf(scan, rows)
      modifies this
      ensures Fails(failAt, rows) ==> r == None && unchanged(this)
      ensures !Fails(failAt, rows) ==>
                && r == Some(|LatestOf(scan)|)
                && history == Upsert(old(history), scan)
                && days == Recorded(old(days), day, totals, |LatestOf(scan)|, watermark)
                && files == old(files)[day := file] && log == old(log) + [Import(day, totals)]
    {
      if failAt.Some? && (failAt.value.EnsureYear? || failAt.value.Connect? || failAt.value.Begin?) {
        return None;
      }
      var t, upserted: nat := history, 0;
      if |rows| > 0 {
        if failAt.Some? && (failAt.value.TruncateStaging? || failAt.value.CopyRows? || failAt.value.UpsertRows?) {
          return None;
        }
        t, upserted := Upsert(t, scan), |LatestOf(scan)|;
      } else {
        assert rows == [];
        NothingToUpsert(t, scan);
      }
      if failAt.Some? && (failAt.value.RecordDay? || failAt.value.Commit?) {
        return None;
      }
      history := t;
      days := Recorded(days, day, totals, upserted, watermark);
      files, log := files[day := file], log + [Import(day, totals)];
      r := Some(upserted);
    }
  }

  datatype Config = Config(backfillDays: nat, recentDays: nat)

  /** What fetching one day file brings. */
  datatype Fetched =
    | NotPublished
    | FetchFails
    | Body(file: File, headerOk: bool, scan: seq<Row>, failAt: Option<ImportStep>)

  predicate IsDue(d: int, totals: map<int, nat>, stored: map<int, EverefDay>, today: int, cfg: Config) {
    && d in totals && d >= today - cfg.backfillDays && totals[d] != 0
    && (d !in stored || (d > today - cfg.recentDays && totals[d] > stored[d].totals))
  }

  /** The database scans exactly the staged rows. */
  ghost predicate Plausible(got: Fetched, f: Filter) {
    got.Body? ==> ScanOf(got.scan, Kept(got.file, f))
  }

  /** Fetched, parsed and stored without a failure. */
  predicate Importable(got: Fetched, f: Filter) {
    && got.Body? && got.headerOk
    && (forall rec <- got.file :: !Bad(rec, f))
    && !Fails(got.failAt, Kept(got.file, f))
  }

  /** What upstream promises: the file fetched grows from the last version imported, and holds its day. */
  ghost predicate Promised(got: Fetched, earlier: File, day: int) {
    got.Body? ==> Grows(earlier, got.file) && OneDay(got.file, day)
  }

  ghost predicate AllUntouched(ds: seq<int>, days: map<int, EverefDay>, files: map<int, File>,
                               days0: map<int, EverefDay>, files0: map<int, File>) {
    forall d <- ds :: Untouched(d, days, files, days0, files0)
  }

  lemma StillUntouched(day: int, later: seq<int>, days2: map<int, EverefDay>, files2: map<int, File>,
                       days1: map<int, EverefDay>, files1: map<int, File>,
                       days0: map<int, EverefDay>, files0: map<int, File>)
    requires day !in later && AllUntouched([day] + later, days1, files1, days0, files0)
    requires forall d :: d != day ==> Untouched(d, days2, files2, days1, files1)
    ensures AllUntouched(later, days2, files2, days0, files0)
  {
    forall d <- later
      ensures Untouched(d, days2, files2, days0, files0)
    {
      assert d in [day] + later;
      assert Untouched(d, days1, files1, days0, files0) && Untouched(d, days2, files2, days1, files1);
    }
  }

  ghost predicate AllPromised(fetched: map<int, Fetched>, files: map<int, File>) {
    forall d <- fetched :: Promised(fetched[d], FileOf(files, d), d)
  }

  class HistoryImporter {
    const store: HistoryStore
    const regions: Option<set<int>>
    const cfg: Config

    constructor (store: HistoryStore, regions: Option<set<int>>, cfg: Config)
      ensures this.store == store && this.regions == regions && this.cfg == cfg
    {
      this.store, this.regions, this.cfg := store, regions, cfg;
    }

    /** The due days, each once, oldest first. */
    method SelectDays(totals: map<int, nat>, stored: map<int, EverefDay>, today: int) returns (due: seq<int>)
      ensures forall d :: d in due <==> IsDue(d, totals, stored, today, cfg)
      ensures forall i, j :: 0 <= i < j < |due| ==> due[i] < due[j]
    {
      var days := Days(totals);
      due := [];
      for i := 0 to |days|
        invariant forall d :: d in due <==> d in days[..i] && IsDue(d, totals, stored, today, cfg)
        invariant forall k, j :: 0 <= k < |due| && i <= j < |days| ==> due[k] < days[j]
        invariant forall k, j :: 0 <= k < j < |due| ==> due[k] < due[j]
      {
        var d := days[i];
        assert d in days && days[..i + 1] == days[..i] + [d];
        if d >= today - cfg.backfillDays && totals[d] != 0 {
          if d !in stored {
            due := due + [d];
          } else if d > today - cfg.recentDays && totals[d] > stored[d].totals {
            due := due + [d];
          }
        }
      }
    }

    /** Imports one due day. A file that cannot be fetched, parsed or stored changes nothing at all. */
    method ImportDay(day: int, total: nat, watermark: int, got: Fetched) returns (ok: bool)
      requires Plausible(got, Filter(regions, watermark))
      requires total >= 1 && (day in store.days ==> total > store.days[day].totals)
      requires watermark == WatermarkOf(store.days, day)
      modifies store
      ensures ok == Importable(got, Filter(regions, watermark))
      ensures !ok ==> unchanged(store)
      ensures ok ==> store.history == Upsert(old(store.history), got.scan)
      ensures ok ==> store.log == old(store.log) + [Import(day, total)]
      ensures ok ==> store.files == old(store.files)[day := got.file]
      ensures ok ==> store.days == Recorded(old(store.days), day, total, |LatestOf(got.scan)|, Watermark(got.file))
      ensures Ledger(old(store.log), old(store.days)) ==> Ledger(store.log, store.days)
      ensures old(Sound(store.history, store.days, store.files, regions))
              && Promised(got, FileOf(old(store.files), day), day) ==>
                Sound(store.history, store.days, store.files, regions)
    {
      if !got.Body? {
        return false;
      }
      var parsed := Parse(got.file, got.headerOk, Filter(regions, watermark));
      if parsed.ParseError? {
        return false;
      }
      ghost var t, days, files, log := store.history, store.days, store.files, store.log;
      var n := store.ImportHistory(day, parsed.rows, total, parsed.watermark, got.scan, got.failAt, got.file);
      if n.None? {
        return false;
      }
      if Ledger(log, days) {
        LedgerPush(log, days, day, store.days[day]);
      }
      if Sound(t, days, files, regions) && Promised(got, FileOf(files, day), day) {
        ImportKeepsSound(t, days, files, regions, day, got.file, got.scan, store.days[day]);
      }
      ok := true;
    }

    /** Imports one due day that this poll has not touched yet. */
    method ImportDue(day: int, totals: map<int, nat>, stored: map<int, EverefDay>, ghost files: map<int, File>,
                     today: int, fetched: map<int, Fetched>)
      returns (ok: bool)
      requires IsDue(day, totals, stored, today, cfg) && Untouched(day, store.days, store.files, stored, files)
      requires forall d <- fetched :: Plausible(fetched[d], Filter(regions, WatermarkOf(stored, d)))
      modifies store
      ensures ok == Imports(day, totals, stored, today, fetched)
      ensures forall d :: d != day ==> Untouched(d, store.days, store.files, old(store.days), old(store.files))
      ensures store.log == old(store.log) + if ok then [Import(day, totals[day])] else []
      ensures Ledger(old(store.log), old(store.days)) ==> Ledger(store.log, store.days)
      ensures old(Sound(store.history, store.days, store.files, regions)) && AllPromised(fetched, files) ==>
                Sound(store.history, store.days, store.files, regions)
    {
      var got := if day in fetched then fetched[day] else FetchFails;
      ok := ImportDay(day, totals[day], WatermarkOf(stored, day), got);
    }

    /** One poll: imports every due day it can, oldest first, skipping those that fail, until shutdown. */
    method Once(totals: map<int, nat>, today: int, fetched: map<int, Fetched>, shutdownAt: nat)
      returns (imported: seq<int>, done: bool)
      requires forall d <- fetched :: Plausible(fetched[d], Filter(regions, WatermarkOf(store.days, d)))
      modifies store
      ensures Ledger(old(store.log), old(store.days)) ==> Ledger(store.log, store.days)
      ensures old(Sound(store.history, store.days, store.files, regions))
              && AllPromised(fetched, old(store.files)) ==>
                Sound(store.history, store.days, store.files, regions)
      ensures forall i, j :: 0 <= i < j < |imported| ==> imported[i] < imported[j]
      ensures forall d <- imported :: Imports(d, totals, old(store.days), today, fetched)
      ensures done ==> forall d :: Imports(d, totals, old(store.days), today, fetched) ==> d in imported
      ensures store.log == old(store.log) + Imported(imported, totals)
    {
      ghost var files, log := store.files, store.log;
      ghost var kept := Ledger(log, store.days);
      ghost var sound := Sound(store.history, store.days, files, regions)
        && AllPromised(fetched, files);
      var stored := store.days;
      var due := SelectDays(totals, stored, today);
      imported := [];
      for i := 0 to |due|
        invariant AllUntouched(due[i..], store.days, store.files, stored, files)
        invariant kept ==> Ledger(store.log, store.days)
        invariant sound ==> Sound(store.history, store.days, store.files, regions)
        invariant imported == Chosen(due[..i], totals, stored, today, fetched)
        invariant store.log == log + Imported(imported, totals)
      {
        if i >= shutdownAt {
          ChosenInOrder(due[..i], totals, stored, today, fetched);
          return imported, false;
        }
        var day := due[i];
        assert IsDue(day, totals, stored, today, cfg);
        assert due[i..] == [day] + due[i + 1..];
        ghost var days1, files1 := store.days, store.files;
        var ok := ImportDue(day, totals, stored, files, today, fetched);
        StillUntouched(day, due[i + 1..], store.days, store.files, days1, files1, stored, files);
        assert due[..i + 1][..i] == due[..i];
        if ok {
          ImportedPush(imported, day, totals);
          imported := imported + [day];
        }
      }
      assert due[..|due|] == due;
      ChosenInOrder(due, totals, stored, today, fetched);
      done := true;
    }

    /** The days that are due and whose files can be imported, in order. */
    function Chosen(days: seq<int>, totals: map<int, nat>, stored: map<int, EverefDay>, today: int,
                    fetched: map<int, Fetched>): seq<int> {
      if days == [] then []
      else
        Chosen(days[..|days| - 1], totals, stored, today, fetched) +
        if Imports(days[|days| - 1], totals, stored, today, fetched) then [days[|days| - 1]] else []
    }

    lemma {:induction false} ChosenInOrder(
      days: seq<int>, totals: map<int, nat>, stored: map<int, EverefDay>, today: int, fetched: map<int, Fetched>)
      requires forall i, j :: 0 <= i < j < |days| ==> days[i] < days[j]
      ensures var chosen := Chosen(days, totals, stored, today, fetched);
              && (forall d :: d in chosen <==> d in days && Imports(d, totals, stored, today, fetched))
              && (forall i, j :: 0 <= i < j < |chosen| ==> chosen[i] < chosen[j])
    {
      if days != [] {
        var front := days[..|days| - 1];
        ChosenInOrder(front, totals, stored, today, fetched);
        var chosen := Chosen(front, totals, stored, today, fetched);
        forall i | 0 <= i < |chosen|
          ensures chosen[i] < days[|days| - 1]
        {
          assert chosen[i] in chosen && chosen[i] in front;
        }
        assert days == front + [days[|days| - 1]];
      }
    }

    /** The day is due, and its file can be imported. */
    predicate Imports(d: int, totals: map<int, nat>, stored: map<int, EverefDay>, today: int,
                      fetched: map<int, Fetched>) {
      && IsDue(d, totals, stored, today, cfg) && d in fetched
      && Importable(fetched[d], Filter(regions, WatermarkOf(stored, d)))
    }
  }

  function Imported(days: seq<int>, totals: map<int, nat>): seq<Import> {
    seq(|days|, i requires 0 <= i < |days| => Import(days[i], if days[i] in totals then totals[days[i]] else 0))
  }

  lemma ImportedPush(days: seq<int>, day: int, totals: map<int, nat>)
    requires day in totals
    ensures Imported(days + [day], totals) == Imported(days, totals) + [Import(day, totals[day])]
  {
  }

  ghost predicate Untouched(d: int, days: map<int, EverefDay>, files: map<int, File>,
                            days0: map<int, EverefDay>, files0: map<int, File>) {
    && FileOf(files, d) == FileOf(files0, d)
    && (d in days <==> d in days0) && (d in days ==> days[d] == days0[d])
  }

  /** Which days are due, day by day. A day announced with records in the backfill window is due if it was
      never imported, however old; if it was, only while it is recent and the index counts more than was
      imported; no other day is due. */
  lemma DueDays(d: int, totals: map<int, nat>, stored: map<int, EverefDay>, today: int, cfg: Config)
    ensures d !in stored ==>
              (IsDue(d, totals, stored, today, cfg) <==> d in totals && totals[d] > 0 && today - cfg.backfillDays <= d)
    ensures d in stored ==>
              (IsDue(d, totals, stored, today, cfg) <==>
                 && d in totals && totals[d] > stored[d].totals
                 && today - cfg.backfillDays <= d && today - cfg.recentDays < d)
  {
  }

  /** Each committed version is at least as long as the index count that selected it. */
  ghost predicate FilesReachIndex(days: map<int, EverefDay>, files: map<int, File>) {
    forall d <- days :: d in files && days[d].totals <= |files[d]|
  }

  /** Quiescence: a recent day the importer no longer selects has every tracked row the index announced
      stored, at least as recent as announced. */
  lemma QuietDayIsComplete(t: History.Table, days: map<int, EverefDay>, files: map<int, File>,
                           regions: Option<set<int>>, totals: map<int, nat>, today: int, cfg: Config,
                           d: int, now: File, row: Row)
    requires Sound(t, days, files, regions) && FilesReachIndex(days, files)
    requires d in totals && d >= today - cfg.backfillDays && d > today - cfg.recentDays
    requires !IsDue(d, totals, days, today, cfg)
    requires FileOf(files, d) <= now && totals[d] <= |now|
    requires row in TrackedRows(now[..totals[d]], regions)
    ensures KeyOf(row) in t && t[KeyOf(row)].stamp >= row.stamp
  {
    assert SoundDay(t, d, days, files, regions);
    var f := Filter(regions, 0);
    KeptMembers(now[..totals[d]], f, row);
    var i :| 0 <= i < totals[d] && Readable(now[i]) && Passes(now[i], f) && now[i].rest.Some? && RowOf(now[i]) == row;
    assert files[d][i] == now[i];
    KeptMembers(files[d], f, row);
    WatermarkIsSafe(t, files[d], regions, d);
  }
}
