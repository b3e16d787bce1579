/** The incremental import of a growing day file, against a full import of its last version. */
module History {
  import opened Common
  import opened Everef

  /** The primary key of market.history. */
  datatype Key = Key(region: int, typeId: int, date: int)

  datatype Stored = Stored(figures: Figures, stamp: int)

  type Table = map<Key, Stored>

  function KeyOf(row: Row): Key {
    Key(row.region, row.typeId, row.date)
  }

  function Value(row: Row): Stored {
    Stored(row.figures, row.stamp)
  }

  /** DISTINCT ON the key, latest stamp first: over rows met in scan order, the first of the latest.
      Nothing orders rows of one key and one stamp, so the scan decides between them. */
  function LatestOf(scan: seq<Row>): Table {
    if scan == [] then map[]
    else
      var t := LatestOf(scan[..|scan| - 1]);
      var row := scan[|scan| - 1];
      if KeyOf(row) in t && t[KeyOf(row)].stamp >= row.stamp then t else t[KeyOf(row) := Value(row)]
  }

  ghost predicate ScanOf(scan: seq<Row>, rows: seq<Row>) {
    forall row :: row in scan <==> row in rows
  }

  /** v is the value of a row of key k whose stamp is the latest among the rows of that key. */
  ghost predicate LatestAt(rows: seq<Row>, k: Key, v: Stored) {
    && (exists row <- rows :: KeyOf(row) == k && Value(row) == v)
    && (forall row <- rows :: KeyOf(row) == k ==> row.stamp <= v.stamp)
  }

  ghost predicate HasKey(rows: seq<Row>, k: Key) {
    exists row <- rows :: KeyOf(row) == k
  }

  lemma {:induction false} LatestOfScan(scan: seq<Row>)
    ensures forall k :: k in LatestOf(scan) <==> HasKey(scan, k)
    ensures forall k <- LatestOf(scan) :: LatestAt(scan, k, LatestOf(scan)[k])
  {
    if scan != [] {
      var n := |scan| - 1;
      var front, row := scan[..n], scan[n];
      LatestOfScan(front);
      assert scan == front + [row];
      forall k
        ensures k in LatestOf(scan) <==> HasKey(scan, k)
        ensures k in LatestOf(scan) ==> LatestAt(scan, k, LatestOf(scan)[k])
      {
        if HasKey(front, k) {
          var x :| x in front && KeyOf(x) == k;
          assert x in scan;
          assert LatestAt(front, k, LatestOf(front)[k]);
          var y :| y in front && KeyOf(y) == k && Value(y) == LatestOf(front)[k];
          assert y in scan;
        }
        if KeyOf(row) == k {
          assert row in scan;
        }
      }
    }
  }

  /** The table after one import: every selected row overwrites what was stored at its key. */
  function Upsert(t: Table, scan: seq<Row>): Table {
    t + LatestOf(scan)
  }

  // ----- What upstream promises about a day file -----

  /** The later version only appends, and no appended row is stamped before the earlier watermark, if
      there was one. */
  ghost predicate Grows(earlier: File, later: File) {
    && earlier <= later
    && forall i :: |earlier| <= i < |later| && Readable(later[i]) ==>
                     Watermark(earlier) == 0 || later[i].stamp.value >= Watermark(earlier)
  }

  /** The file holds one day. */
  ghost predicate OneDay(file: File, day: int) {
    forall rec <- file :: rec.Record? && rec.rest.Some? ==> rec.rest.value.date == day
  }

  function TrackedRows(file: File, regions: Option<set<int>>): seq<Row> {
    Kept(file, Filter(regions, 0))
  }

  // ----- What an import must achieve -----

  /** On this day the table holds exactly the tracked keys of the file, each with a row of the latest
      stamp the file has for it. A full import of the file into an empty day does just this. */
  ghost predicate Faithful(t: Table, file: File, regions: Option<set<int>>, day: int) {
    var rows := TrackedRows(file, regions);
    && (forall k: Key :: k.date == day ==> (k in t <==> HasKey(rows, k)))
    && (forall k: Key :: k.date == day && k in t ==> LatestAt(rows, k, t[k]))
  }

  lemma KeptIsSuffixByStamp(file: File, regions: Option<set<int>>, after: int, row: Row)
    ensures row in Kept(file, Filter(regions, after)) <==>
            row in TrackedRows(file, regions) && (after == 0 || row.stamp >= after)
  {
    KeptMembers(file, Filter(regions, after), row);
    KeptMembers(file, Filter(regions, 0), row);
  }

  lemma RowsOfOneDay(file: File, regions: Option<set<int>>, day: int, row: Row)
    requires OneDay(file, day) && row in TrackedRows(file, regions)
    ensures row.date == day
  {
    KeptMembers(file, Filter(regions, 0), row);
    var i :| 0 <= i < |file| && Readable(file[i]) && file[i].rest.Some? && RowOf(file[i]) == row;
    assert file[i] in file;
  }

  /** A row of the later version is an old row, or stamped no earlier than the old watermark. */
  lemma GrownRow(earlier: File, later: File, regions: Option<set<int>>, row: Row)
    requires Grows(earlier, later)
    ensures row in TrackedRows(earlier, regions) ==>
              row in TrackedRows(later, regions) && row.stamp <= Watermark(earlier)
    ensures row in TrackedRows(later, regions) ==>
              row in TrackedRows(earlier, regions) || Watermark(earlier) == 0 || row.stamp >= Watermark(earlier)
  {
    var f := Filter(regions, 0);
    KeptMembers(earlier, f, row);
    KeptMembers(later, f, row);
    WatermarkIsMax(earlier);
    if row in Kept(earlier, f) {
      var i :| 0 <= i < |earlier| && Readable(earlier[i]) && Passes(earlier[i], f)
               && earlier[i].rest.Some? && RowOf(earlier[i]) == row;
      assert later[i] == earlier[i];
    }
    if row in Kept(later, f) {
      var i :| 0 <= i < |later| && Readable(later[i]) && Passes(later[i], f)
               && later[i].rest.Some? && RowOf(later[i]) == row;
      if i < |earlier| {
        assert earlier[i] == later[i];
      }
    }
  }

  /** One incremental step. Importing a grown file through the inclusive watermark of its last import
      leaves the day exactly as faithful to the new version as a full import would. */
  lemma ImportStepIsFaithful(t: Table, earlier: File, later: File, regions: Option<set<int>>, day: int, scan: seq<Row>)
    requires Faithful(t, earlier, regions, day) && Grows(earlier, later) && OneDay(later, day)
    requires ScanOf(scan, Kept(later, Filter(regions, Watermark(earlier))))
    ensures Faithful(Upsert(t, scan), later, regions, day)
  {
    LatestOfScan(scan);
    forall k: Key | k.date == day
      ensures k in Upsert(t, scan) <==> HasKey(TrackedRows(later, regions), k)
      ensures k in Upsert(t, scan) ==> LatestAt(TrackedRows(later, regions), k, Upsert(t, scan)[k])
    {
      if HasKey(scan, k) {
        SelectedIsLatest(earlier, later, regions, scan, k);
      } else {
        UnselectedIsOld(t, earlier, later, regions, day, scan, k);
      }
    }
  }

  lemma SelectedIsLatest(earlier: File, later: File, regions: Option<set<int>>, scan: seq<Row>, k: Key)
    requires Grows(earlier, later)
    requires ScanOf(scan, Kept(later, Filter(regions, Watermark(earlier))))
    requires HasKey(scan, k) && k in LatestOf(scan) && LatestAt(scan, k, LatestOf(scan)[k])
    ensures LatestAt(TrackedRows(later, regions), k, LatestOf(scan)[k])
  {
    var wm := Watermark(earlier);
    var v := LatestOf(scan)[k];
    var pick :| pick in scan && KeyOf(pick) == k && Value(pick) == v;
    KeptIsSuffixByStamp(later, regions, wm, pick);
    forall row <- TrackedRows(later, regions) | KeyOf(row) == k
      ensures row.stamp <= v.stamp
    {
      KeptIsSuffixByStamp(later, regions, wm, row);
    }
  }

  lemma UnselectedIsOld(t: Table, earlier: File, later: File, regions: Option<set<int>>, day: int,
                        scan: seq<Row>, k: Key)
    requires Faithful(t, earlier, regions, day) && Grows(earlier, later) && k.date == day
    requires ScanOf(scan, Kept(later, Filter(regions, Watermark(earlier)))) && !HasKey(scan, k)
    ensures k in t <==> HasKey(TrackedRows(later, regions), k)
    ensures k in t ==> LatestAt(TrackedRows(later, regions), k, t[k])
  {
    var wm := Watermark(earlier);
    forall row <- TrackedRows(later, regions) | KeyOf(row) == k
      ensures row in TrackedRows(earlier, regions)
    {
      KeptIsSuffixByStamp(later, regions, wm, row);
      GrownRow(earlier, later, regions, row);
    }
    forall row <- TrackedRows(earlier, regions) | KeyOf(row) == k
      ensures row in TrackedRows(later, regions)
    {
      GrownRow(earlier, later, regions, row);
    }
  }

  /** An import never touches another day. */
  lemma ImportStaysInDay(t: Table, file: File, f: Filter, day: int, scan: seq<Row>, k: Key)
    requires OneDay(file, day) && ScanOf(scan, Kept(file, f)) && k.date != day
    ensures (k in Upsert(t, scan) <==> k in t) && (k in t ==> Upsert(t, scan)[k] == t[k])
  {
    LatestOfScan(scan);
    if HasKey(scan, k) {
      var row :| row in scan && KeyOf(row) == k;
      KeptIsSuffixByStamp(file, f.regions, f.after, row);
      RowsOfOneDay(file, f.regions, day, row);
      assert false;
    }
  }

  // ----- Chains of versions -----

  /** One attempt to import a version: the order its kept rows were scanned in, and whether the
      transaction committed. */
  datatype Wave = Wave(file: File, scan: seq<Row>, commits: bool)

  /** The last version whose import committed, the empty file before the first. */
  ghost function LastCommitted(waves: seq<Wave>): File {
    if waves == [] then []
    else if waves[|waves| - 1].commits then waves[|waves| - 1].file
    else LastCommitted(waves[..|waves| - 1])
  }

  ghost function ImportAll(t: Table, waves: seq<Wave>): Table {
    if waves == [] then t
    else
      var before := ImportAll(t, waves[..|waves| - 1]);
      if waves[|waves| - 1].commits then Upsert(before, waves[|waves| - 1].scan) else before
  }

  /** Each version grows from the one before, holds the one day, and is scanned through the watermark
      recorded by the last import that committed. */
  ghost predicate Chain(waves: seq<Wave>, regions: Option<set<int>>, day: int) {
    if waves == [] then true
    else
      var front, w := waves[..|waves| - 1], waves[|waves| - 1];
      && Chain(front, regions, day)
      && OneDay(w.file, day)
      && (front != [] ==> Grows(front[|front| - 1].file, w.file))
      && (w.commits ==> ScanOf(w.scan, Kept(w.file, Filter(regions, Watermark(LastCommitted(front))))))
  }

  lemma {:induction false} WatermarkGrows(earlier: File, later: File)
    requires earlier <= later
    ensures Watermark(earlier) <= Watermark(later)
  {
    if earlier == later {
    } else {
      var front := later[..|later| - 1];
      assert earlier <= front;
      WatermarkGrows(earlier, front);
    }
  }

  lemma GrowsTransitively(a: File, b: File, c: File)
    requires Grows(a, b) && Grows(b, c)
    ensures Grows(a, c)
  {
    WatermarkGrows(a, b);
    WatermarkIsMax(a);
    forall i | |a| <= i < |c| && Readable(c[i])
      ensures Watermark(a) == 0 || c[i].stamp.value >= Watermark(a)
    {
      if i < |b| {
        assert c[i] == b[i];
      }
    }
  }

  lemma {:induction false} CommittedGrowsToLast(waves: seq<Wave>, regions: Option<set<int>>, day: int)
    requires Chain(waves, regions, day) && waves != []
    ensures LastCommitted(waves) == waves[|waves| - 1].file || Grows(LastCommitted(waves), waves[|waves| - 1].file)
  {
    var front := waves[..|waves| - 1];
    if !waves[|waves| - 1].commits && front != [] {
      CommittedGrowsToLast(front, regions, day);
      if LastCommitted(front) != front[|front| - 1].file {
        GrowsTransitively(LastCommitted(front), front[|front| - 1].file, waves[|waves| - 1].file);
      }
    }
  }

  /** Incremental import refines full import. For any chain of growing versions, whichever imports fail,
      the day ends up exactly as faithful to the last committed version as one full import of it. */
  lemma {:induction false} IncrementalRefinesFull(t: Table, waves: seq<Wave>, regions: Option<set<int>>, day: int)
    requires Chain(waves, regions, day) && Faithful(t, [], regions, day)
    ensures Faithful(ImportAll(t, waves), LastCommitted(waves), regions, day)
  {
    if waves != [] {
      var front, w := waves[..|waves| - 1], waves[|waves| - 1];
      IncrementalRefinesFull(t, front, regions, day);
      if w.commits {
        var last := LastCommitted(front);
        if front != [] {
          CommittedGrowsToLast(front, regions, day);
          if last != front[|front| - 1].file {
            GrowsTransitively(last, front[|front| - 1].file, w.file);
          }
        }
        assert Grows(last, w.file);
        ImportStepIsFaithful(ImportAll(t, front), last, w.file, regions, day, w.scan);
      }
    }
  }

  // ----- Consequences -----

  /** Watermark safety: every tracked row of the file is represented by a stored row at least as recent,
      and no stored row of the day is stamped after the file's watermark. */
  lemma WatermarkIsSafe(t: Table, file: File, regions: Option<set<int>>, day: int)
    requires Faithful(t, file, regions, day) && OneDay(file, day)
    ensures forall row <- TrackedRows(file, regions) :: KeyOf(row) in t && t[KeyOf(row)].stamp >= row.stamp
    ensures forall k: Key :: k.date == day && k in t ==> t[k].stamp <= Watermark(file)
  {
    forall row <- TrackedRows(file, regions)
      ensures KeyOf(row) in t && t[KeyOf(row)].stamp >= row.stamp
    {
      RowsOfOneDay(file, regions, day, row);
      assert HasKey(TrackedRows(file, regions), KeyOf(row));
      assert LatestAt(TrackedRows(file, regions), KeyOf(row), t[KeyOf(row)]);
    }
    forall k: Key | k.date == day && k in t
      ensures t[k].stamp <= Watermark(file)
    {
      assert LatestAt(TrackedRows(file, regions), k, t[k]);
      var row :| row in TrackedRows(file, regions) && KeyOf(row) == k && Value(row) == t[k];
      GrownRow(file, file, regions, row);
    }
  }

  /** A line of the file that belongs in the table: it parses, and its region is tracked. */
  predicate Belongs(rec: Record, regions: Option<set<int>>) {
    && rec.Record? && rec.stamp.Some? && rec.region.Some? && rec.rest.Some?
    && (regions.Some? ==> rec.region.value in regions.value)
  }

  /** Faithfulness in the columns of the file. A line that belongs has an entry at exactly its region, type
      and date, at least as recent; and every entry of the day has the figures and the stamp of a line with
      exactly its region, type and date, the most recent of those. */
  lemma FaithfulInColumns(t: Table, file: File, regions: Option<set<int>>, day: int)
    requires Faithful(t, file, regions, day) && OneDay(file, day)
    ensures forall i :: 0 <= i < |file| && Belongs(file[i], regions) ==>
              && Key(file[i].region.value, file[i].rest.value.typeId, file[i].rest.value.date) in t
              && t[Key(file[i].region.value, file[i].rest.value.typeId, file[i].rest.value.date)].stamp
                 >= file[i].stamp.value
    ensures forall k: Key :: k in t && k.date == day ==>
              exists i :: 0 <= i < |file| && Belongs(file[i], regions)
                          && file[i].region.value == k.region && file[i].rest.value.typeId == k.typeId
                          && file[i].rest.value.date == k.date
                          && file[i].rest.value.figures == t[k].figures && file[i].stamp.value == t[k].stamp
  {
    forall i | 0 <= i < |file| && Belongs(file[i], regions)
      ensures Key(file[i].region.value, file[i].rest.value.typeId, file[i].rest.value.date) in t
      ensures t[Key(file[i].region.value, file[i].rest.value.typeId, file[i].rest.value.date)].stamp
              >= file[i].stamp.value
    {
      LineIsStored(t, file, regions, day, i);
    }
    forall k: Key | k in t && k.date == day
      ensures exists i :: 0 <= i < |file| && Belongs(file[i], regions)
                          && file[i].region.value == k.region && file[i].rest.value.typeId == k.typeId
                          && file[i].rest.value.date == k.date
                          && file[i].rest.value.figures == t[k].figures && file[i].stamp.value == t[k].stamp
    {
      var i := EntryIsALine(t, file, regions, day, k);
    }
  }

  lemma LineIsStored(t: Table, file: File, regions: Option<set<int>>, day: int, i: nat)
    requires Faithful(t, file, regions, day) && OneDay(file, day) && i < |file| && Belongs(file[i], regions)
    ensures var k := Key(file[i].region.value, file[i].rest.value.typeId, file[i].rest.value.date);
            k in t && t[k].stamp >= file[i].stamp.value
  {
    var row := RowOf(file[i]);
    KeptMembers(file, Filter(regions, 0), row);
    WatermarkIsSafe(t, file, regions, day);
  }

  lemma EntryIsALine(t: Table, file: File, regions: Option<set<int>>, day: int, k: Key) returns (i: nat)
    requires Faithful(t, file, regions, day) && k in t && k.date == day
    ensures i < |file| && Belongs(file[i], regions)
    ensures file[i].region.value == k.region && file[i].rest.value.typeId == k.typeId
    ensures file[i].rest.value.date == k.date
    ensures file[i].rest.value.figures == t[k].figures && file[i].stamp.value == t[k].stamp
  {
    assert LatestAt(TrackedRows(file, regions), k, t[k]);
    var row :| row in TrackedRows(file, regions) && KeyOf(row) == k && Value(row) == t[k];
    KeptMembers(file, Filter(regions, 0), row);
    i :| 0 <= i < |file| && Readable(file[i]) && Passes(file[i], Filter(regions, 0))
         && file[i].rest.Some? && RowOf(file[i]) == row;
  }

  /** No stored stamp ever goes back. */
  lemma StampsNeverDecrease(t: Table, earlier: File, later: File, regions: Option<set<int>>, day: int,
                            scan: seq<Row>, k: Key)
    requires Faithful(t, earlier, regions, day) && Grows(earlier, later) && OneDay(earlier, day) && OneDay(later, day)
    requires ScanOf(scan, Kept(later, Filter(regions, Watermark(earlier)))) && k in t
    ensures k in Upsert(t, scan) && Upsert(t, scan)[k].stamp >= t[k].stamp
  {
    if k.date == day {
      ImportStepIsFaithful(t, earlier, later, regions, day, scan);
      assert LatestAt(TrackedRows(earlier, regions), k, t[k]);
      var row :| row in TrackedRows(earlier, regions) && KeyOf(row) == k && Value(row) == t[k];
      GrownRow(earlier, later, regions, row);
      WatermarkIsSafe(Upsert(t, scan), later, regions, day);
    } else {
      ImportStaysInDay(t, later, Filter(regions, Watermark(earlier)), day, scan, k);
    }
  }

  /** No two tracked rows share key and stamp and differ in their figures. */
  ghost predicate NoTies(file: File, regions: Option<set<int>>) {
    forall p, q | p in TrackedRows(file, regions) && q in TrackedRows(file, regions) ::
      KeyOf(p) == KeyOf(q) && p.stamp == q.stamp ==> p.figures == q.figures
  }

  /** Importing in waves and importing the last version once, into an empty day, store the same rows. */
  lemma WavesEqualOneImport(t: Table, waves: seq<Wave>, regions: Option<set<int>>, day: int, scan: seq<Row>, k: Key)
    requires Chain(waves, regions, day) && Faithful(t, [], regions, day) && k.date == day
    requires OneDay(LastCommitted(waves), day) && NoTies(LastCommitted(waves), regions)
    requires ScanOf(scan, TrackedRows(LastCommitted(waves), regions))
    ensures k in ImportAll(t, waves) <==> k in Upsert(t, scan)
    ensures k in ImportAll(t, waves) ==> ImportAll(t, waves)[k] == Upsert(t, scan)[k]
  {
    var file := LastCommitted(waves);
    IncrementalRefinesFull(t, waves, regions, day);
    assert Grows([], file);
    ImportStepIsFaithful(t, [], file, regions, day, scan);
    if k in ImportAll(t, waves) {
      var rows := TrackedRows(file, regions);
      assert LatestAt(rows, k, ImportAll(t, waves)[k]) && LatestAt(rows, k, Upsert(t, scan)[k]);
    }
  }

  // ----- The bound must be inclusive -----

  /** What an exclusive bound would keep. */
  function KeptExclusively(file: File, regions: Option<set<int>>, after: int): seq<Row> {
    if file == [] then []
    else
      var rec := file[|file| - 1];
      KeptExclusively(file[..|file| - 1], regions, after) +
      if Readable(rec) && Tracked(rec, regions) && (after == 0 || rec.stamp.value > after) && rec.rest.Some?
      then [RowOf(rec)] else []
  }

  lemma {:induction false} KeptExclusivelyMembers(file: File, regions: Option<set<int>>, after: int, row: Row)
    ensures row in KeptExclusively(file, regions, after) <==>
            row in TrackedRows(file, regions) && (after == 0 || row.stamp > after)
  {
    if file != [] {
      KeptExclusivelyMembers(file[..|file| - 1], regions, after, row);
    }
  }

  /** A row that arrives stamped exactly with the recorded watermark is not lost to an exclusive bound:
      its key already had a row of that stamp, or it gets a later one in the same version. */
  ghost predicate Covered(earlier: File, later: File, regions: Option<set<int>>, row: Row) {
    || HasKeyStamped(TrackedRows(earlier, regions), KeyOf(row), row.stamp)
    || exists x <- TrackedRows(later, regions) :: KeyOf(x) == KeyOf(row) && x.stamp > row.stamp
  }

  ghost predicate HasKeyStamped(rows: seq<Row>, k: Key, stamp: int) {
    exists row <- rows :: KeyOf(row) == k && row.stamp == stamp
  }

  /** An exclusive bound gives a faithful day exactly when every tracked row stamped with the recorded
      watermark is covered. One scrape batch appended to in two steps breaks that. */
  lemma ExclusiveBoundFailsExactly(
    t: Table, earlier: File, later: File, regions: Option<set<int>>, day: int, scan: seq<Row>)
    requires Faithful(t, earlier, regions, day) && Grows(earlier, later) && OneDay(later, day)
    requires Watermark(earlier) > 0 && ScanOf(scan, KeptExclusively(later, regions, Watermark(earlier)))
    ensures Faithful(Upsert(t, scan), later, regions, day) <==>
            forall row <- TrackedRows(later, regions) ::
              row.stamp == Watermark(earlier) ==> Covered(earlier, later, regions, row)
  {
    var wm := Watermark(earlier);
    LatestOfScan(scan);
    if Faithful(Upsert(t, scan), later, regions, day) {
      forall row <- TrackedRows(later, regions) | row.stamp == wm
        ensures Covered(earlier, later, regions, row)
      {
        FaithfulCovers(t, earlier, later, regions, day, scan, row);
      }
    } else if forall row <- TrackedRows(later, regions) :: row.stamp == wm ==> Covered(earlier, later, regions, row) {
      forall k: Key | k.date == day
        ensures k in Upsert(t, scan) <==> HasKey(TrackedRows(later, regions), k)
        ensures k in Upsert(t, scan) ==> LatestAt(TrackedRows(later, regions), k, Upsert(t, scan)[k])
      {
        CoveredIsFaithfulAt(t, earlier, later, regions, day, scan, k);
      }
      assert false;
    }
  }

  lemma FaithfulCovers(t: Table, earlier: File, later: File, regions: Option<set<int>>, day: int,
                       scan: seq<Row>, row: Row)
    requires Faithful(t, earlier, regions, day) && OneDay(later, day)
    requires ScanOf(scan, KeptExclusively(later, regions, Watermark(earlier))) && Watermark(earlier) > 0
    requires Faithful(Upsert(t, scan), later, regions, day)
    requires row in TrackedRows(later, regions) && row.stamp == Watermark(earlier)
    ensures Covered(earlier, later, regions, row)
  {
    var wm, k := Watermark(earlier), KeyOf(row);
    RowsOfOneDay(later, regions, day, row);
    LatestOfScan(scan);
    assert HasKey(TrackedRows(later, regions), k);
    if HasKey(scan, k) {
      var x :| x in scan && KeyOf(x) == k;
      KeptExclusivelyMembers(later, regions, wm, x);
    } else {
      var v := Upsert(t, scan)[k];
      assert LatestAt(TrackedRows(later, regions), k, v) && v == t[k];
      assert LatestAt(TrackedRows(earlier, regions), k, v);
      var x :| x in TrackedRows(earlier, regions) && KeyOf(x) == k && Value(x) == v;
      GrownRow(earlier, earlier, regions, x);
      assert x.stamp == wm;
    }
  }

  lemma CoveredIsFaithfulAt(t: Table, earlier: File, later: File, regions: Option<set<int>>, day: int,
                            scan: seq<Row>, k: Key)
    requires Faithful(t, earlier, regions, day) && Grows(earlier, later) && k.date == day
    requires Watermark(earlier) > 0 && ScanOf(scan, KeptExclusively(later, regions, Watermark(earlier)))
    requires forall row <- TrackedRows(later, regions) ::
               row.stamp == Watermark(earlier) ==> Covered(earlier, later, regions, row)
    ensures k in Upsert(t, scan) <==> HasKey(TrackedRows(later, regions), k)
    ensures k in Upsert(t, scan) ==> LatestAt(TrackedRows(later, regions), k, Upsert(t, scan)[k])
  {
    var wm, rows := Watermark(earlier), TrackedRows(later, regions);
    LatestOfScan(scan);
    forall row
      ensures row in scan <==> row in rows && row.stamp > wm
      ensures row in TrackedRows(earlier, regions) ==> row in rows && row.stamp <= wm
      ensures row in rows ==> row in TrackedRows(earlier, regions) || row.stamp >= wm
    {
      KeptExclusivelyMembers(later, regions, wm, row);
      GrownRow(earlier, later, regions, row);
    }
    if HasKey(scan, k) {
      assert LatestAt(scan, k, LatestOf(scan)[k]);
    } else {
      forall row <- rows | KeyOf(row) == k
        ensures k in t && t[k].stamp >= row.stamp
      {
        var prior := if row in TrackedRows(earlier, regions) then row else CoveringRow(earlier, later, regions, row);
        assert HasKey(TrackedRows(earlier, regions), k);
        assert LatestAt(TrackedRows(earlier, regions), k, t[k]);
        assert prior in TrackedRows(earlier, regions) && KeyOf(prior) == k;
      }
      if k in t {
        assert LatestAt(TrackedRows(earlier, regions), k, t[k]);
      }
    }
  }

  ghost function CoveringRow(earlier: File, later: File, regions: Option<set<int>>, row: Row): (x: Row)
    requires HasKeyStamped(TrackedRows(earlier, regions), KeyOf(row), row.stamp)
    ensures x in TrackedRows(earlier, regions) && KeyOf(x) == KeyOf(row) && x.stamp == row.stamp
  {
    var x :| x in TrackedRows(earlier, regions) && KeyOf(x) == KeyOf(row) && x.stamp == row.stamp;
    x
  }

  /** The measured failure: when a whole file carries one stamp, an exclusive bound never keeps another
      row of it. */
  lemma OneStampStarvesExclusiveBound(earlier: File, later: File, regions: Option<set<int>>, stamp: int)
    requires stamp > 0 && earlier <= later && Watermark(earlier) == stamp
    requires forall rec <- later :: Readable(rec) ==> rec.stamp.value == stamp
    ensures KeptExclusively(later, regions, Watermark(earlier)) == []
    ensures Kept(later, Filter(regions, Watermark(earlier))) == TrackedRows(later, regions)
  {
    NothingKept(later, regions, stamp);
  }

  lemma {:induction false} NothingKept(file: File, regions: Option<set<int>>, stamp: int)
    requires stamp > 0 && forall rec <- file :: Readable(rec) ==> rec.stamp.value == stamp
    ensures KeptExclusively(file, regions, stamp) == []
    ensures Kept(file, Filter(regions, stamp)) == TrackedRows(file, regions)
  {
    if file != [] {
      assert file[|file| - 1] in file;
      NothingKept(file[..|file| - 1], regions, stamp);
    }
  }
}
