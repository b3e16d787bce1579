/** The drift guard: a row count and a sum of row hashes, computed once over the live partition and
    once over the deduplicated staging table. */
module Checksum {
  import opened Common
  import opened Orders

  /** The columns that enter the hash. The region is the same on both sides. */
  datatype Hashed = Hashed(id: int, price: int, volumeRemain: int, issued: int)

  function HashedOf(id: int, c: Columns): Hashed {
    Hashed(id, c.price, c.volumeRemain, c.issued)
  }

  datatype Sum = Sum(rows: nat, hash: int)

  function HashSum(keys: seq<int>, t: Table, h: Hashed -> int): int
    requires forall k <- keys :: k in t
  {
    if keys == [] then 0
    else
      var k := keys[|keys| - 1];
      HashSum(keys[..|keys| - 1], t, h) + h(HashedOf(k, t[k]))
  }

  /** The rows of a table are visited once each, in some order. */
  ghost predicate Visits(keys: seq<int>, t: Table) {
    && (forall k <- keys :: k in t)
    && multiset(keys) == multiset(t.Keys)
  }

  function ChecksumOf(t: Table, keys: seq<int>, h: Hashed -> int): Sum
    requires forall k <- keys :: k in t
  {
    Sum(|keys|, HashSum(keys, t, h))
  }

  function RowHash(o: Order, h: Hashed -> int): int {
    h(HashedOf(o.id, o.cols))
  }

  /** Rows that share an order id have the same row hash, as they do when they agree on every hashed
      column. */
  ghost predicate AgreeOnHash(rows: seq<Order>, h: Hashed -> int) {
    forall p, q :: p in rows && q in rows && p.id == q.id ==> RowHash(p, h) == RowHash(q, h)
  }

  lemma {:induction false} HashSumRemove(keys: seq<int>, i: nat, t: Table, h: Hashed -> int)
    requires i < |keys| && forall k <- keys :: k in t
    ensures HashSum(keys, t, h) == HashSum(keys[..i] + keys[i + 1..], t, h) + h(HashedOf(keys[i], t[keys[i]]))
  {
    var n := |keys| - 1;
    if i == n {
      assert keys[..i] + keys[i + 1..] == keys[..n];
    } else {
      HashSumRemove(keys[..n], i, t, h);
      assert keys[..n][..i] + keys[..n][i + 1..] == (keys[..i] + keys[i + 1..])[..n - 1];
    }
  }

  lemma SameRest(ka: seq<int>, kb: seq<int>, i: nat)
    requires ka != [] && i < |kb| && kb[i] == ka[|ka| - 1] && multiset(ka) == multiset(kb)
    ensures multiset(ka[..|ka| - 1]) == multiset(kb[..i] + kb[i + 1..])
    ensures forall k :: k in kb[..i] + kb[i + 1..] ==> k in kb
  {
    var front, rest := ka[..|ka| - 1], kb[..i] + kb[i + 1..];
    assert ka == front + [kb[i]] && kb == kb[..i] + [kb[i]] + kb[i + 1..];
    assert multiset(ka) == multiset(front) + multiset{kb[i]};
    assert multiset(kb) == multiset(rest) + multiset{kb[i]};
    forall k
      ensures multiset(front)[k] == multiset(rest)[k]
    {
      assert multiset(ka)[k] == multiset(front)[k] + multiset{kb[i]}[k];
      assert multiset(kb)[k] == multiset(rest)[k] + multiset{kb[i]}[k];
    }
  }

  /** The sum depends on nothing but the row hashes: not on the order of the rows, not on the columns
      outside the hash. */
  lemma {:induction false} HashSumAgrees(ka: seq<int>, a: Table, kb: seq<int>, b: Table, h: Hashed -> int)
    requires multiset(ka) == multiset(kb)
    requires forall k <- ka :: k in a && k in b && h(HashedOf(k, a[k])) == h(HashedOf(k, b[k]))
    requires forall k <- kb :: k in b
    ensures HashSum(ka, a, h) == HashSum(kb, b, h)
    decreases |ka|
  {
    if ka == [] {
      assert kb == [] by {
        assert |multiset(kb)| == 0;
      }
    } else {
      var n := |ka| - 1;
      var x := ka[n];
      assert x in multiset(kb);
      var i :| 0 <= i < |kb| && kb[i] == x;
      HashSumRemove(kb, i, b, h);
      var rest := kb[..i] + kb[i + 1..];
      SameRest(ka, kb, i);
      HashSumAgrees(ka[..n], a, rest, b, h);
    }
  }

  /** No false alarm: whichever duplicate the apply and the check each picked, and in whatever order
      each side added its rows, the two checksums agree if duplicates hash alike. */
  lemma NoFalseAlarm(rows: seq<Order>, live: Table, staged: Table, kl: seq<int>, ks: seq<int>, h: Hashed -> int)
    requires Selection(rows, live) && Selection(rows, staged) && AgreeOnHash(rows, h)
    requires Visits(kl, live) && Visits(ks, staged)
    ensures ChecksumOf(live, kl, h) == ChecksumOf(staged, ks, h)
  {
    assert |multiset(kl)| == |multiset(ks)|;
    forall k <- kl
      ensures k in staged && h(HashedOf(k, live[k])) == h(HashedOf(k, staged[k]))
    {
      var p, q := Order(k, live[k]), Order(k, staged[k]);
      assert p in rows && q in rows && RowHash(p, h) == RowHash(q, h);
    }
    HashSumAgrees(kl, live, ks, staged, h);
  }

  lemma {:induction false} VisitExists<T>(ids: set<T>) returns (keys: seq<T>)
    ensures multiset(keys) == multiset(ids)
  {
    if ids == {} {
      keys := [];
    } else {
      var x :| x in ids;
      var rest := VisitExists(ids - {x});
      keys := rest + [x];
      assert ids == (ids - {x}) + {x};
    }
  }

  /** With this hash the guard takes no correct table for a drifted one: every selection of the rows
      that may be live, against every selection the guard may make, each visited in any order. */
  ghost predicate NeverAlarms(rows: seq<Order>, h: Hashed -> int) {
    forall live, staged, kl, ks ::
      Selection(rows, live) && Selection(rows, staged) && Visits(kl, live) && Visits(ks, staged)
      ==> ChecksumOf(live, kl, h) == ChecksumOf(staged, ks, h)
  }

  /** Any staged row can be the one picked for its id. */
  lemma AnyRowCanBePicked(rows: seq<Order>, p: Order)
    requires p in rows
    ensures p.id in DistinctOn(rows)
    ensures Selection(rows, DistinctOn(rows)[p.id := p.cols])
  {
    DistinctOnScan(rows);
  }

  lemma VisitEnding(t: Table, id: int) returns (others: seq<int>)
    requires id in t
    ensures Visits(others + [id], t)
    ensures forall k <- others :: k in t && k != id
  {
    others := VisitExists(t.Keys - {id});
    assert t.Keys == (t.Keys - {id}) + {id};
    assert forall k <- others :: k in multiset(others);
  }

  lemma HashSumLast(others: seq<int>, t: Table, id: int, h: Hashed -> int)
    requires id in t && forall k <- others :: k in t
    ensures HashSum(others + [id], t, h) == HashSum(others, t, h) + h(HashedOf(id, t[id]))
  {
    assert (others + [id])[..|others|] == others;
  }

  /** Two rows of one id that hash differently can make a correctly applied snapshot look drifted,
      because nothing makes the two queries pick the same row. */
  lemma FalseAlarmWhenDuplicatesDisagree(rows: seq<Order>, p: Order, q: Order, h: Hashed -> int)
    requires p in rows && q in rows && p.id == q.id && RowHash(p, h) != RowHash(q, h)
    ensures !NeverAlarms(rows, h)
  {
    AnyRowCanBePicked(rows, p);
    AnyRowCanBePicked(rows, q);
    var live, staged := DistinctOn(rows)[p.id := p.cols], DistinctOn(rows)[p.id := q.cols];
    assert live.Keys == staged.Keys;
    var others := VisitEnding(live, p.id);
    HashSumLast(others, live, p.id, h);
    HashSumLast(others, staged, p.id, h);
    HashSumAgrees(others, live, others, staged, h);
    var keys := others + [p.id];
    assert ChecksumOf(live, keys, h) != ChecksumOf(staged, keys, h);
  }

  /** Whatever the hash function is, the condition is exact. */
  lemma GuardIsExact(rows: seq<Order>, h: Hashed -> int)
    ensures NeverAlarms(rows, h) <==> AgreeOnHash(rows, h)
  {
    if AgreeOnHash(rows, h) {
      forall live, staged, kl, ks |
        Selection(rows, live) && Selection(rows, staged) && Visits(kl, live) && Visits(ks, staged)
        ensures ChecksumOf(live, kl, h) == ChecksumOf(staged, ks, h)
      {
        NoFalseAlarm(rows, live, staged, kl, ks, h);
      }
    } else {
      var p, q :| p in rows && q in rows && p.id == q.id && RowHash(p, h) != RowHash(q, h);
      FalseAlarmWhenDuplicatesDisagree(rows, p, q, h);
    }
  }

  // ----- What the guard can see -----

  /** Two versions of a row hash alike under every hash function exactly when price, remaining volume and
      issue date agree. */
  lemma HashedColumns(id: int, a: Columns, b: Columns)
    ensures HashedOf(id, a) == HashedOf(id, b) <==>
            a.price == b.price && a.volumeRemain == b.volumeRemain && a.issued == b.issued
  {
  }

  /** The guard sees a drift in the number of rows. */
  lemma GuardSeesRows(live: Table, staged: Table, kl: seq<int>, ks: seq<int>, h: Hashed -> int)
    requires Visits(kl, live) && Visits(ks, staged) && |live.Keys| != |staged.Keys|
    ensures ChecksumOf(live, kl, h) != ChecksumOf(staged, ks, h)
  {
    assert |multiset(kl)| == |kl| && |multiset(ks)| == |ks|;
    assert |multiset(live.Keys)| == |live.Keys| && |multiset(staged.Keys)| == |staged.Keys|;
  }

  /** It sees one row that drifted in price, remaining volume or issue date, if the hash function tells the
      two versions apart. */
  lemma GuardSeesColumns(live: Table, staged: Table, id: int, others: seq<int>, h: Hashed -> int)
    requires Visits(others + [id], live) && Visits(others + [id], staged)
    requires forall k <- others :: live[k] == staged[k]
    requires h(HashedOf(id, live[id])) != h(HashedOf(id, staged[id]))
    ensures ChecksumOf(live, others + [id], h) != ChecksumOf(staged, others + [id], h)
  {
    assert forall k <- others :: k in others + [id];
    assert id in others + [id];
    HashSumLast(others, live, id, h);
    HashSumLast(others, staged, id, h);
    HashSumAgrees(others, live, others, staged, h);
  }

  /** It is blind to every other column. */
  lemma GuardIsBlind(live: Table, staged: Table, keys: seq<int>, h: Hashed -> int)
    requires Visits(keys, live) && Visits(keys, staged)
    requires forall k <- keys :: && live[k].price == staged[k].price && live[k].volumeRemain == staged[k].volumeRemain
                                 && live[k].issued == staged[k].issued
    ensures ChecksumOf(live, keys, h) == ChecksumOf(staged, keys, h)
  {
    forall k <- keys
      ensures h(HashedOf(k, live[k])) == h(HashedOf(k, staged[k]))
    {
      HashedColumns(k, live[k], staged[k]);
    }
    HashSumAgrees(keys, live, keys, staged, h);
  }
}
