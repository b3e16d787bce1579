/** The copier seen as sequential code: the row source that COPY pulls from, and the copy itself. The
    channel is given by the batches still to be received before it closes. */
module CopySource {
  import opened Common
  import opened Orders
  import opened Sweep
  import opened SweepInvariant

  class OrderCopySource {
    var incoming: seq<Batch>
    var batch: seq<Order>
    var idx: nat
    var cur: Option<Order>

    constructor (incoming: seq<Batch>)
      ensures this.incoming == incoming && batch == [] && idx == 0
    {
      this.incoming, batch, idx, cur := incoming, [], 0, None;
    }

    ghost predicate Valid()
      reads this
    {
      idx <= |batch|
    }

    /** The rows still to come, in order. */
    ghost function Remaining(): seq<Order>
      reads this
      requires Valid()
    {
      batch[idx..] + Flatten(incoming)
    }

    /** Moves to the next row, through any number of empty batches. It waits for another batch only
        when the one in hand is used up, and ends only when the channel has closed. */
    method Next() returns (more: bool)
      requires Valid()
      modifies this
      ensures Valid()
      ensures more <==> old(Remaining()) != []
      ensures more ==> cur.Some? && old(Remaining()) == [cur.value] + Remaining()
      ensures Suffix(incoming, old(incoming))
      ensures !more ==> incoming == [] && idx >= |batch|
    {
      while idx >= |batch|
        invariant Valid() && Remaining() == old(Remaining()) && Suffix(incoming, old(incoming))
        decreases |incoming|, |batch| - idx
      {
        if incoming == [] {
          return false;
        }
        FlattenPop(incoming);
        batch, idx, incoming := incoming[0].orders, 0, incoming[1..];
      }
      cur, idx := Some(batch[idx]), idx + 1;
      assert batch[idx - 1..] == [batch[idx - 1]] + batch[idx..];
      more := true;
    }
  }

  /** Where a copy can fail: before it has a connection, at the truncation, or once so many rows have
      been streamed. */
  datatype CopyFault = NoConnection | NoTruncation | Breaks(after: nat)

  /** Fills the staging table from the channel. COPY is atomic: it leaves every row or none. `left` is
      what the copy leaves in the channel unread, which only a missing connection leaves undrained. */
  method CopyOrders(incoming: seq<Batch>, staging: seq<Order>, fault: Option<CopyFault>)
    returns (n: Option<nat>, staged: seq<Order>, left: seq<Batch>, drains: bool)
    ensures fault.None? ==> n.Some? && left == []
    ensures n.Some? ==> staged == Flatten(incoming) && n.value == |staged| && left == [] && !drains
    ensures n.None? ==> fault.Some? && (drains <==> !fault.value.NoConnection?)
    ensures n.None? ==> staged == if fault.value.Breaks? then [] else staging
    ensures n.None? && !fault.value.Breaks? ==> left == incoming
    ensures n.None? && fault.value.Breaks? ==>
              fault.value.after <= |Flatten(incoming)| && Suffix(left, incoming)
  {
    if fault == Some(NoConnection) {
      return None, staging, incoming, false;
    }
    if fault == Some(NoTruncation) {
      return None, staging, incoming, true;
    }
    var src := new OrderCopySource(incoming);
    var rows: seq<Order> := [];
    assert [] + src.Remaining() == src.Remaining();
    while true
      invariant src.Valid() && rows + src.Remaining() == Flatten(incoming)
      invariant Suffix(src.incoming, incoming)
      decreases |src.Remaining()|
    {
      if fault.Some? && |rows| == fault.value.after {
        return None, [], src.incoming, true;
      }
      ghost var remaining := src.Remaining();
      var more := src.Next();
      if !more {
        return Some(|rows|), rows, [], false;
      }
      assert rows + ([src.cur.value] + src.Remaining()) == rows + [src.cur.value] + src.Remaining();
      rows := rows + [src.cur.value];
    }
  }

  ghost predicate Suffix(left: seq<Batch>, whole: seq<Batch>) {
    |left| <= |whole| && left == whole[|whole| - |left|..]
  }
}
