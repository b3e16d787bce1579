/** The EVE Ref day file: which of its rows an import keeps, and how far it has read. */
module Everef {
  import opened Common
  import opened Sorting

  datatype Figures = Figures(average: string, highest: string, lowest: string, volume: int, orderCount: int)

  /** One history record. Stamps are instants, zero standing for the zero time. */
  datatype Row = Row(region: int, typeId: int, date: int, figures: Figures, stamp: int)

  /** The columns that are read only for a row that is kept. */
  datatype Rest = Rest(date: int, typeId: int, figures: Figures)

  /** A line of the file. Each column is None if it does not parse; a line may not be readable at all. */
  datatype Record =
    | Unreadable
    | Record(stamp: Option<int>, region: Option<int>, rest: Option<Rest>)

  type File = seq<Record>

  /** Tracked regions, None for all of them, and the stamp from which rows are kept. */
  datatype Filter = Filter(regions: Option<set<int>>, after: int)

  predicate Readable(rec: Record) {
    rec.Record? && rec.stamp.Some? && rec.region.Some?
  }

  predicate Tracked(rec: Record, regions: Option<set<int>>)
    requires Readable(rec)
  {
    regions.Some? ==> rec.region.value in regions.value
  }

  /** The bound is inclusive, and a zero bound keeps everything. */
  predicate Passes(rec: Record, f: Filter)
    requires Readable(rec)
  {
    Tracked(rec, f.regions) && (f.after == 0 || rec.stamp.value >= f.after)
  }

  /** The line stops the parse. */
  predicate Bad(rec: Record, f: Filter) {
    !Readable(rec) || (Passes(rec, f) && rec.rest.None?)
  }

  function RowOf(rec: Record): Row
    requires Readable(rec) && rec.rest.Some?
  {
    Row(rec.region.value, rec.rest.value.typeId, rec.rest.value.date, rec.rest.value.figures, rec.stamp.value)
  }

  /** The rows an import is given. */
  function Kept(file: File, f: Filter): seq<Row> {
    if file == [] then []
    else
      var rec := file[|file| - 1];
      Kept(file[..|file| - 1], f) +
      if Readable(rec) && Passes(rec, f) && rec.rest.Some? then [RowOf(rec)] else []
  }

  /** The latest stamp anywhere in the file, tracked or not. */
  function Watermark(file: File): int {
    if file == [] then 0
    else
      var rec := file[|file| - 1];
      Max(Watermark(file[..|file| - 1]), if Readable(rec) then rec.stamp.value else 0)
  }

  datatype Parsed = Parsed(rows: seq<Row>, watermark: int, total: nat) | ParseError(total: nat)

  lemma {:induction false} KeptMembers(file: File, f: Filter, row: Row)
    ensures row in Kept(file, f) <==>
            exists i :: 0 <= i < |file| && Readable(file[i]) && Passes(file[i], f)
                        && file[i].rest.Some? && RowOf(file[i]) == row
  {
    if file != [] {
      var n := |file| - 1;
      KeptMembers(file[..n], f, row);
      assert forall i :: 0 <= i < n ==> file[..n][i] == file[i];
      if i :| 0 <= i < n && Readable(file[..n][i]) && Passes(file[..n][i], f)
              && file[..n][i].rest.Some? && RowOf(file[..n][i]) == row {
        assert RowOf(file[i]) == row;
      }
    }
  }

  lemma {:induction false} WatermarkIsMax(file: File)
    ensures Watermark(file) >= 0
    ensures forall i :: 0 <= i < |file| && Readable(file[i]) ==> file[i].stamp.value <= Watermark(file)
    ensures Watermark(file) > 0 ==>
              exists i :: 0 <= i < |file| && Readable(file[i]) && file[i].stamp.value == Watermark(file)
  {
    if file != [] {
      var n := |file| - 1;
      WatermarkIsMax(file[..n]);
      assert forall i :: 0 <= i < n ==> file[..n][i] == file[i];
      if Watermark(file[..n]) == Watermark(file) > 0 {
        var i :| 0 <= i < n && Readable(file[..n][i]) && file[..n][i].stamp.value == Watermark(file[..n]);
        assert file[i].stamp.value == Watermark(file);
      }
    }
  }

  predicate FirstBad(file: File, i: int, f: Filter) {
    0 <= i < |file| && Bad(file[i], f) && forall j :: 0 <= j < i ==> !Bad(file[j], f)
  }

  /** Reads a day file. It succeeds exactly when no line is bad; then it has kept every row that passes,
      in file order, counted every line, and taken the watermark from all of them. The total of an error counts the bad
      line unless it could not even be read. */
  method Parse(file: File, headerOk: bool, f: Filter) returns (r: Parsed)
    ensures r.Parsed? <==> headerOk && forall rec <- file :: !Bad(rec, f)
    ensures r.Parsed? ==> r == Parsed(Kept(file, f), Watermark(file), |file|)
    ensures r.ParseError? && headerOk ==>
              exists i :: FirstBad(file, i, f) && r.total == if file[i].Unreadable? then i else i + 1
  {
    if !headerOk {
      return ParseError(0);
    }
    var rows: seq<Row>, watermark, total := [], 0, 0;
    while total < |file|
      invariant 0 <= total <= |file|
      invariant forall i :: 0 <= i < total ==> !Bad(file[i], f)
      invariant rows == Kept(file[..total], f) && watermark == Watermark(file[..total])
    {
      var rec := file[total];
      assert file[..total + 1][..total] == file[..total] && rec in file;
      ghost var i := total;
      assert Bad(rec, f) ==> FirstBad(file, i, f);
      if rec.Unreadable? {
        return ParseError(total);
      }
      total := total + 1;
      if rec.stamp.None? {
        return ParseError(total);
      }
      if rec.stamp.value > watermark {
        watermark := rec.stamp.value;
      }
      if rec.region.None? {
        return ParseError(total);
      }
      if f.regions.Some? && rec.region.value !in f.regions.value {
        continue;
      }
      if f.after != 0 && rec.stamp.value < f.after {
        continue;
      }
      if rec.rest.None? {
        return ParseError(total);
      }
      rows := rows + [RowOf(rec)];
    }
    assert file[..total] == file;
    r := Parsed(rows, watermark, total);
  }

  method Pick<T(==)>(s: set<T>) returns (x: T)
    requires s != {}
    ensures x in s
  {
    x :| x in s;
  }

  predicate NotAfter(a: int, b: int) {
    a <= b
  }

  /** The days of the index, each once, oldest first. */
  method Days(totals: map<int, nat>) returns (days: seq<int>)
    ensures forall d :: d in days <==> d in totals
    ensures forall i, j :: 0 <= i < j < |days| ==> days[i] < days[j]
  {
    days := [];
    var rest := totals.Keys;
    while rest != {}
      invariant rest <= totals.Keys
      invariant multiset(days) == multiset(totals.Keys - rest)
      decreases |rest|
    {
      var d := Pick(rest);
      assert totals.Keys - (rest - {d}) == (totals.Keys - rest) + {d};
      days, rest := days + [d], rest - {d};
    }
    assert totals.Keys - rest == totals.Keys;
    SortIsSorted(days, NotAfter);
    var sorted := Sort(days, NotAfter);
    SortedSetIsStrict(sorted, totals.Keys);
    days := sorted;
  }

  lemma SortedSetIsStrict(days: seq<int>, keys: set<int>)
    requires multiset(days) == multiset(keys) && SortedBy(days, NotAfter)
    ensures forall d :: d in days <==> d in keys
    ensures forall i, j :: 0 <= i < j < |days| ==> days[i] < days[j]
  {
    forall d
      ensures d in days <==> d in keys
    {
      assert d in multiset(days) <==> d in multiset(keys);
    }
    forall i, j | 0 <= i < j < |days|
      ensures days[i] < days[j]
    {
      NoRepeats(days, i, j);
      assert NotAfter(days[i], days[j]);
    }
  }
}
