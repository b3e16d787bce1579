/** One report per run of failures. */
module Reports {

  /** What a report is about: a region, the error limit, or a background job. */
  datatype Key = RegionKey(id: int) | ErrorLimitKey | JobKey(job: string)

  /** A failure, with whether it was reported, or a success. */
  datatype Event = Failure(key: Key, reported: bool) | Success(key: Key)

  /** The last thing that happened at a key is a failure. */
  ghost predicate InRun(log: seq<Event>, key: Key) {
    if log == [] then false
    else
      var e := log[|log| - 1];
      if e.key == key then e.Failure? else InRun(log[..|log| - 1], key)
  }

  /** A failure was reported exactly when no run was in progress at its key. */
  ghost predicate Honest(log: seq<Event>) {
    forall i :: 0 <= i < |log| && log[i].Failure? ==> log[i].reported == !InRun(log[..i], log[i].key)
  }

  ghost function ReportsAt(log: seq<Event>, key: Key): nat {
    if log == [] then 0
    else
      var e := log[|log| - 1];
      ReportsAt(log[..|log| - 1], key) + if e.Failure? && e.key == key && e.reported then 1 else 0
  }

  /** The outcomes at one key alone, true for a failure. */
  ghost function OutcomesAt(log: seq<Event>, key: Key): seq<bool> {
    if log == [] then []
    else
      var e := log[|log| - 1];
      OutcomesAt(log[..|log| - 1], key) + if e.key == key then [e.Failure?] else []
  }

  /** A maximal run of failures begins at position i. */
  ghost predicate StartsRun(outcomes: seq<bool>, i: nat) {
    i < |outcomes| && outcomes[i] && (i == 0 || !outcomes[i - 1])
  }

  ghost function RunStarts(outcomes: seq<bool>): set<nat> {
    set i: nat | i < |outcomes| && StartsRun(outcomes, i)
  }

  lemma RunStartsPush(outcomes: seq<bool>, failed: bool)
    ensures |RunStarts(outcomes + [failed])| ==
            |RunStarts(outcomes)| +
            if failed && (outcomes == [] || !outcomes[|outcomes| - 1]) then 1 else 0
  {
    var n, before, after := |outcomes|, RunStarts(outcomes), RunStarts(outcomes + [failed]);
    var more := if failed && (outcomes == [] || !outcomes[n - 1]) then {n} else {};
    forall i: nat
      ensures i in after <==> i in before || i in more
    {
      assert i < n ==> (StartsRun(outcomes + [failed], i) <==> StartsRun(outcomes, i));
    }
    assert after == before + more && before !! more;
  }

  lemma {:induction false} InRunIsLastOutcome(log: seq<Event>, key: Key)
    ensures var o := OutcomesAt(log, key); InRun(log, key) <==> o != [] && o[|o| - 1]
  {
    if log != [] {
      InRunIsLastOutcome(log[..|log| - 1], key);
    }
  }

  /** However the outcomes of different keys interleave, the reports at each key number the maximal
      runs of failures in that key's own outcomes. */
  lemma {:induction false} OneReportPerRun(log: seq<Event>, key: Key)
    requires Honest(log)
    ensures ReportsAt(log, key) == |RunStarts(OutcomesAt(log, key))|
  {
    if log != [] {
      var n := |log| - 1;
      var e := log[n];
      assert forall i :: 0 <= i < n ==> log[..n][..i] == log[..i];
      OneReportPerRun(log[..n], key);
      InRunIsLastOutcome(log[..n], key);
      if e.key == key {
        RunStartsPush(OutcomesAt(log[..n], key), e.Failure?);
      } else {
        assert OutcomesAt(log, key) == OutcomesAt(log[..n], key);
      }
    }
  }

  lemma LogPush(log: seq<Event>, e: Event)
    requires Honest(log) && (e.Failure? ==> e.reported == !InRun(log, e.key))
    ensures Honest(log + [e])
    ensures forall key :: InRun(log + [e], key) <==> if key == e.key then e.Failure? else InRun(log, key)
  {
    var l := log + [e];
    assert l[..|log|] == log;
    forall i | 0 <= i < |l| && l[i].Failure?
      ensures l[i].reported == !InRun(l[..i], l[i].key)
    {
      if i < |log| {
        assert l[..i] == log[..i];
      }
    }
  }

  class Streak {
    var firing: map<Key, bool>
    ghost var log: seq<Event>

    ghost predicate Valid()
      reads this
    {
      Honest(log) && forall key :: (key in firing && firing[key]) <==> InRun(log, key)
    }

    constructor ()
      ensures Valid() && log == []
    {
      firing, log := map[], [];
    }

    /** A failure at key. The answer says whether it is to be sent: only the first since the last success. */
    method First(key: Key) returns (isFirst: bool)
      requires Valid()
      modifies this
      ensures Valid()
      ensures isFirst == !InRun(old(log), key)
      ensures log == old(log) + [Failure(key, isFirst)]
    {
      LogPush(log, Failure(key, !InRun(log, key)));
      isFirst := !(key in firing && firing[key]);
      log := log + [Failure(key, isFirst)];
      if isFirst {
        firing := firing[key := true];
      }
    }

    /** Ends the run at key after a success. */
    method Ends(key: Key)
      requires Valid()
      modifies this
      ensures Valid()
      ensures log == old(log) + [Success(key)]
    {
      LogPush(log, Success(key));
      log := log + [Success(key)];
      firing := firing - {key};
    }
  }
}
