/** One region's orders: the wire form, the staging table and the live partition. */
module Orders {
  import opened Common

  /** The columns a surviving order is compared on. Price is in hundredths, as numeric(20,2) holds it. */
  datatype Columns = Columns(
    typeId: int, locationId: int, systemId: int, isBuy: bool, price: int,
    volumeRemain: int, volumeTotal: int, minVolume: int, duration: int, range: string, issued: int)

  datatype Order = Order(id: int, cols: Columns)

  /** A partition: its primary key is the order id, the region being fixed by the partition. */
  type Table = map<int, Columns>

  function Ids(rows: seq<Order>): set<int> {
    set r <- rows :: r.id
  }

  /** What SELECT DISTINCT ON (order_id) can return for these rows: one of the rows of each id.
      Nothing says which one. */
  ghost predicate Selection(rows: seq<Order>, t: Table) {
    && t.Keys == Ids(rows)
    && forall id <- t :: Order(id, t[id]) in rows
  }

  /** DISTINCT ON over rows met in scan order keeps the first row of each id. */
  function DistinctOn(scan: seq<Order>): Table {
    if scan == [] then map[]
    else
      var t := DistinctOn(scan[..|scan| - 1]);
      var r := scan[|scan| - 1];
      if r.id in t then t else t[r.id := r.cols]
  }

  /** A scan visits every row of the table once, in an order of the database's choosing. */
  ghost predicate ScanOf(scan: seq<Order>, rows: seq<Order>) {
    multiset(scan) == multiset(rows)
  }

  lemma SameRows(scan: seq<Order>, rows: seq<Order>)
    requires ScanOf(scan, rows)
    ensures forall r :: r in scan <==> r in rows
    ensures Ids(scan) == Ids(rows)
  {
    assert forall r :: r in scan <==> r in multiset(scan);
    assert forall r :: r in rows <==> r in multiset(rows);
  }

  lemma {:induction false} DistinctOnScan(scan: seq<Order>)
    ensures Selection(scan, DistinctOn(scan))
  {
    if scan != [] {
      DistinctOnScan(scan[..|scan| - 1]);
      assert scan == scan[..|scan| - 1] + [scan[|scan| - 1]];
    }
  }

  /** Whatever order the scan takes, the result is one row per staged id, drawn from the staged rows. */
  lemma DistinctOnSelects(scan: seq<Order>, rows: seq<Order>)
    requires ScanOf(scan, rows)
    ensures Selection(rows, DistinctOn(scan))
  {
    SameRows(scan, rows);
    DistinctOnScan(scan);
  }

  /** count(*) - count(DISTINCT order_id). */
  function Duplicates(rows: seq<Order>): (n: int) {
    |rows| - |Ids(rows)|
  }

  lemma {:induction false} IdsBound(rows: seq<Order>)
    ensures |Ids(rows)| <= |rows|
  {
    if rows != [] {
      var t := rows[..|rows| - 1];
      IdsBound(t);
      assert Ids(rows) == Ids(t) + {rows[|rows| - 1].id};
    }
  }
}
