/** The three-way delta of internal/store/orders.go, read as relations.

    The statement computes `d` once from the staged selection and the live partition. Its three
    data-modifying parts then all work from that same snapshot, in an order PostgreSQL leaves open. */
module Delta {
  import opened Common
  import opened Orders

  datatype Change = Insert(row: Columns) | Update(row: Columns) | Delete

  type Changes = map<int, Change>

  /** The FULL OUTER JOIN on order_id, keeping unmatched rows and matched rows that differ. */
  function Compute(s: Table, live: Table): Changes {
    map id <- s.Keys + live.Keys | id !in live || id !in s || s[id] != live[id]
      :: if id !in live then Insert(s[id]) else if id !in s then Delete else Update(s[id])
  }

  datatype Part = DeletePart | UpdatePart | InsertPart

  /** One data-modifying part applied to a table; None is a violated primary key. */
  function RunPart(part: Part, d: Changes, t: Table): Option<Table> {
    match part
    case DeletePart =>
      Some(map id <- t | !(id in d && d[id].Delete?) :: t[id])
    case UpdatePart =>
      Some(map id <- t :: if id in d && d[id].Update? then d[id].row else t[id])
    case InsertPart =>
      if exists id <- d :: d[id].Insert? && id in t then None
      else Some(map id <- t.Keys + d.Keys | id in t || d[id].Insert? :: if id in t then t[id] else d[id].row)
  }

  function RunParts(parts: seq<Part>, d: Changes, t: Table): Option<Table> {
    if parts == [] then Some(t)
    else
      match RunPart(parts[0], d, t)
      case None => None
      case Some(t') => RunParts(parts[1..], d, t')
  }

  ghost predicate AnyOrder(parts: seq<Part>) {
    multiset(parts) == multiset{DeletePart, UpdatePart, InsertPart}
  }

  /** The table once the parts in `done` have run, whichever order they ran in. */
  ghost function Partway(done: set<Part>, s: Table, live: Table): Table {
    map id <- s.Keys + live.Keys
      | (id in live && (id in s || DeletePart !in done)) || (id !in live && InsertPart in done)
      :: if id !in live then s[id]
         else if id in s && UpdatePart in done then s[id]
         else live[id]
  }

  lemma PartAdvances(part: Part, done: set<Part>, s: Table, live: Table)
    requires part !in done
    ensures RunPart(part, Compute(s, live), Partway(done, s, live)) == Some(Partway(done + {part}, s, live))
  {
    var d := Compute(s, live);
    var t := Partway(done, s, live);
    if part == InsertPart {
      assert forall id <- d :: d[id].Insert? ==> id !in t;
    }
    assert RunPart(part, d, t).Some?;
    assert RunPart(part, d, t).value == Partway(done + {part}, s, live);
  }

  lemma {:induction false} PartsReach(parts: seq<Part>, done: set<Part>, s: Table, live: Table)
    requires forall p <- parts :: p !in done
    requires forall i, j :: 0 <= i < j < |parts| ==> parts[i] != parts[j]
    ensures RunParts(parts, Compute(s, live), Partway(done, s, live))
            == Some(Partway(done + (set p <- parts), s, live))
  {
    if parts == [] {
      assert done + (set p <- parts) == done;
    } else {
      PartAdvances(parts[0], done, s, live);
      PartsReach(parts[1..], done + {parts[0]}, s, live);
      assert done + {parts[0]} + (set p <- parts[1..]) == done + (set p <- parts) by {
        assert parts == [parts[0]] + parts[1..];
      }
    }
  }

  lemma OrderIsPermutation(parts: seq<Part>)
    requires AnyOrder(parts)
    ensures (set p <- parts) == {DeletePart, UpdatePart, InsertPart}
    ensures forall i, j :: 0 <= i < j < |parts| ==> parts[i] != parts[j]
  {
    assert forall p: Part :: p in parts <==> p in multiset(parts);
    forall i, j | 0 <= i < j < |parts|
      ensures parts[i] != parts[j]
    {
      NoRepeats(parts, i, j);
    }
  }

  /** The delta means a full replace: for every live table and every selection, in every order of
      the three parts, no key is violated and the result is exactly the selection. */
  lemma DeltaIsReplace(parts: seq<Part>, s: Table, live: Table)
    requires AnyOrder(parts)
    ensures RunParts(parts, Compute(s, live), live) == Some(s)
  {
    OrderIsPermutation(parts);
    PartsReach(parts, {}, s, live);
    assert Partway({}, s, live) == live;
    assert Partway({DeletePart, UpdatePart, InsertPart}, s, live) == s;
  }

  // ----- Counts -----

  function Touched(d: Changes, part: Part): set<int> {
    set id <- d | (match part
                   case InsertPart => d[id].Insert?
                   case UpdatePart => d[id].Update?
                   case DeletePart => d[id].Delete?)
  }

  datatype Counts = Counts(inserted: int, updated: int, deleted: int, duplicates: int)

  function CountsOf(d: Changes, staging: seq<Order>): Counts {
    Counts(|Touched(d, InsertPart)|, |Touched(d, UpdatePart)|, |Touched(d, DeletePart)|, Duplicates(staging))
  }

  lemma SplitSize(a: set<int>, b: set<int>)
    ensures |a| == |a - b| + |a * b|
  {
    assert a == (a - b) + (a * b);
  }

  lemma TouchedIds(s: Table, live: Table)
    ensures Touched(Compute(s, live), InsertPart) == s.Keys - live.Keys
    ensures Touched(Compute(s, live), DeletePart) == live.Keys - s.Keys
    ensures Touched(Compute(s, live), UpdatePart) == set id <- live | id in s && s[id] != live[id]
  {
  }

  /** The counts conserve rows and are minimal: the update count is exactly the number of surviving
      ids whose compared columns differ. */
  lemma CountsConserve(staging: seq<Order>, s: Table, live: Table)
    requires Selection(staging, s)
    ensures var c := CountsOf(Compute(s, live), staging);
            && |s.Keys| == |live.Keys| + c.inserted - c.deleted
            && |s.Keys| == |staging| - c.duplicates
            && c.duplicates >= 0
            && c.updated == |set id <- live | id in s && s[id] != live[id]|
  {
    TouchedIds(s, live);
    SplitSize(s.Keys, live.Keys);
    SplitSize(live.Keys, s.Keys);
    assert s.Keys * live.Keys == live.Keys * s.Keys;
    IdsBound(staging);
  }

  /** Nothing changes, and nothing is counted, exactly when the table already is the selection. */
  lemma QuietExactlyWhenCurrent(s: Table, live: Table)
    ensures Compute(s, live) == map[] <==> s == live
    ensures forall staging :: CountsOf(Compute(s, s), staging) == Counts(0, 0, 0, Duplicates(staging))
  {
    if Compute(s, live) == map[] {
      forall id
        ensures id in s <==> id in live
        ensures id in s ==> s[id] == live[id]
      {
        assert id !in Compute(s, live);
      }
    }
    assert Compute(s, s) == map[];
  }

  // ----- Why the rows must be deduplicated first -----

  /** A bulk INSERT of rows, one after the other, into a table keyed by order id. */
  function InsertRows(rows: seq<Order>, t: Table): Option<Table> {
    if rows == [] then Some(t)
    else if rows[0].id in t then None
    else InsertRows(rows[1..], t[rows[0].id := rows[0].cols])
  }

  /** Loading staged rows raw succeeds exactly when no order id is repeated, on any scan order: one
      order returned on two pages is enough to abort the cycle. */
  lemma {:induction false} RawInsertNeedsDistinctIds(rows: seq<Order>, t: Table)
    ensures InsertRows(rows, t).Some? <==>
            && (forall r <- rows :: r.id !in t)
            && (forall i, j :: 0 <= i < j < |rows| ==> rows[i].id != rows[j].id)
  {
    if rows != [] && rows[0].id !in t {
      var rest := rows[1..];
      RawInsertNeedsDistinctIds(rest, t[rows[0].id := rows[0].cols]);
      assert rows == [rows[0]] + rest;
      if InsertRows(rows, t).Some? {
        forall i, j | 0 <= i < j < |rows|
          ensures rows[i].id != rows[j].id
        {
          assert rows[j] == rest[j - 1];
          if i > 0 {
            assert rows[i] == rest[i - 1];
          }
        }
      } else if (forall r <- rest :: r.id !in t[rows[0].id := rows[0].cols]) {
        var i, j :| 0 <= i < j < |rest| && rest[i].id == rest[j].id;
        assert rows[i + 1].id == rows[j + 1].id;
      } else {
        var r :| r in rest && r.id in t[rows[0].id := rows[0].cols];
        var k :| 0 <= k < |rest| && rest[k] == r;
        assert rows[k + 1] == r;
      }
    }
  }
}
