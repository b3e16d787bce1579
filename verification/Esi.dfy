/** The three gates that one ESI response updates: the token budget, the legacy error
    limit and the outage pause, together with the client that feeds them.

    Times are nanoseconds on one monotonic clock. Zero stands for Go's zero time, which lies
    before every reading of the clock. */
module Esi {
  import opened Common

  const SECOND: nat := 1_000_000_000
  const MINUTE: nat := 60 * SECOND
  const OUTAGE_THRESHOLD: nat := 2
  const DEFAULT_OUTAGE_PAUSE: nat := MINUTE
  const DEFAULT_BLOCK: nat := MINUTE
  const STATUS_OK := 200
  const STATUS_ERROR_LIMITED := 420
  const STATUS_TOO_MANY_REQUESTS := 429

  /** What the pipeline reads from one HTTP response. Absent or unreadable headers are None,
      or zero for the two durations. */
  datatype Response = Response(
    status: int,
    remaining: Option<int>,
    xPages: Option<int>,
    retryAfter: int,
    errorRemain: Option<int>,
    errorReset: int)

  /** A response together with the instant at which the gates saw it. */
  datatype Arrival = Arrival(at: nat, resp: Response)

  function TokenCost(status: int): nat {
    if status == 304 then 1
    else if 200 <= status < 300 then 2
    else if 300 <= status < 400 then 1
    else if 400 <= status < 500 then 5
    else 0
  }

  type Positive = n: int | n >= 1 witness 1

  /** A response carries at least one page, whatever its header says. */
  function PagesOf(r: Response): Positive {
    if r.xPages.Some? && r.xPages.value > 0 then r.xPages.value else 1
  }

  // ----- The gates as functions of the whole response history -----

  predicate ServerError(a: Arrival) {
    a.resp.status >= 500
  }

  /** Length of the unbroken run of server errors at the end of the history. */
  ghost function TrailingErrors(h: seq<Arrival>): (n: nat)
    ensures n <= |h|
  {
    if h == [] || !ServerError(h[|h| - 1]) then 0 else 1 + TrailingErrors(h[..|h| - 1])
  }

  /** When the pause asked for by one server error ends. */
  function PauseEnd(a: Arrival): (t: nat)
    ensures t > a.at
  {
    a.at + if a.resp.retryAfter > 0 then a.resp.retryAfter else DEFAULT_OUTAGE_PAUSE
  }

  ghost function LatestPauseEnd(h: seq<Arrival>): nat {
    if h == [] then 0 else Max(LatestPauseEnd(h[..|h| - 1]), PauseEnd(h[|h| - 1]))
  }

  /** The outage pause: the latest end asked for by the trailing run of server errors, its
      first member excepted. */
  ghost function PausedUntil(h: seq<Arrival>): nat {
    var n := TrailingErrors(h);
    if n < OUTAGE_THRESHOLD then 0 else LatestPauseEnd(h[|h| - n + 1..])
  }

  /** A response arms the error-limit block. Any non-200 with both headers does, not only a 420. */
  predicate ArmsBlock(r: Response) {
    && r.status != STATUS_OK
    && (r.status == STATUS_ERROR_LIMITED || (r.errorRemain.Some? && r.errorReset > 0))
  }

  function BlockEnd(a: Arrival): nat {
    if !ArmsBlock(a.resp) then 0
    else a.at + if a.resp.errorReset > 0 then a.resp.errorReset else DEFAULT_BLOCK
  }

  /** The error-limit block: the latest end asked for by any arming response, ever. */
  ghost function BlockedUntil(h: seq<Arrival>): nat {
    if h == [] then 0 else Max(BlockedUntil(h[..|h| - 1]), BlockEnd(h[|h| - 1]))
  }

  /** The error budget carried by the last non-200 response that reported one. */
  ghost function ErrorsLeft(h: seq<Arrival>): Option<int> {
    if h == [] then None
    else
      var r := h[|h| - 1].resp;
      if r.status != STATUS_OK && r.errorRemain.Some? then r.errorRemain
      else ErrorsLeft(h[..|h| - 1])
  }

  /** The token budget carried by the last response that reported one. */
  ghost function TokensLeft(h: seq<Arrival>): Option<int> {
    if h == [] then None
    else if h[|h| - 1].resp.remaining.Some? then h[|h| - 1].resp.remaining
    else TokensLeft(h[..|h| - 1])
  }

  /** How one more response moves the outage gate: the law behind `Outage.Observe`. */
  lemma {:induction false} OutageTracksHistory(h: seq<Arrival>, a: Arrival)
    ensures TrailingErrors(h + [a]) == if ServerError(a) then TrailingErrors(h) + 1 else 0
    ensures PausedUntil(h + [a]) ==
            if !ServerError(a) then 0
            else if TrailingErrors(h) + 1 < OUTAGE_THRESHOLD then PausedUntil(h)
            else Max(PausedUntil(h), PauseEnd(a))
  {
    var g := h + [a];
    assert g[..|g| - 1] == h;
    var n := TrailingErrors(h);
    if ServerError(a) && n + 1 >= OUTAGE_THRESHOLD {
      assert TrailingErrors(g) == n + 1;
      var tail := h[|h| - n + 1..];
      assert g[|g| - (n + 1) + 1..] == tail + [a] && (tail + [a])[..|tail|] == tail;
      assert PausedUntil(g) == LatestPauseEnd(tail + [a]) == Max(LatestPauseEnd(tail), PauseEnd(a));
      if n < OUTAGE_THRESHOLD {
        assert tail == [] && PausedUntil(h) == 0;
      }
    }
  }

  /** How one more response moves the other two gates. */
  lemma OtherGatesTrackHistory(h: seq<Arrival>, a: Arrival)
    ensures TokensLeft(h + [a]) == if a.resp.remaining.Some? then a.resp.remaining else TokensLeft(h)
    ensures ErrorsLeft(h + [a]) ==
            if a.resp.status != STATUS_OK && a.resp.errorRemain.Some? then a.resp.errorRemain else ErrorsLeft(h)
    ensures BlockedUntil(h + [a]) == Max(BlockedUntil(h), BlockEnd(a))
  {
    assert (h + [a])[..|h|] == h;
  }

  lemma {:induction false} LatestPauseEndIsMax(h: seq<Arrival>)
    ensures forall i :: 0 <= i < |h| ==> PauseEnd(h[i]) <= LatestPauseEnd(h)
    ensures h != [] ==> exists i :: 0 <= i < |h| && PauseEnd(h[i]) == LatestPauseEnd(h)
  {
    if h != [] {
      var t := h[..|h| - 1];
      LatestPauseEndIsMax(t);
      assert forall i :: 0 <= i < |t| ==> t[i] == h[i];
      if LatestPauseEnd(h) == PauseEnd(h[|h| - 1]) {
      } else {
        assert t != [] by {
          assert LatestPauseEnd([]) == 0;
        }
        var i :| 0 <= i < |t| && PauseEnd(t[i]) == LatestPauseEnd(t);
        assert PauseEnd(h[i]) == LatestPauseEnd(h);
      }
    }
  }

  lemma {:induction false} TrailingErrorsIsMaximalRun(h: seq<Arrival>)
    ensures var n := TrailingErrors(h);
            && (forall i :: |h| - n <= i < |h| ==> ServerError(h[i]))
            && (n < |h| ==> !ServerError(h[|h| - n - 1]))
  {
    if h != [] && ServerError(h[|h| - 1]) {
      var t := h[..|h| - 1];
      TrailingErrorsIsMaximalRun(t);
      assert forall i :: 0 <= i < |t| ==> t[i] == h[i];
    }
  }

  /** The pause in first-order terms: unarmed after fewer than two trailing server errors,
      otherwise the maximum of arrival plus pause over the run from its second member. */
  lemma PausedUntilIsMaximum(h: seq<Arrival>)
    ensures var n := TrailingErrors(h);
            && (n < OUTAGE_THRESHOLD ==> PausedUntil(h) == 0)
            && (n >= OUTAGE_THRESHOLD ==>
                  && (forall i :: |h| - n + 1 <= i < |h| ==> PauseEnd(h[i]) <= PausedUntil(h))
                  && (exists i :: |h| - n + 1 <= i < |h| && PauseEnd(h[i]) == PausedUntil(h)))
  {
    var n := TrailingErrors(h);
    if n >= OUTAGE_THRESHOLD {
      var base := |h| - n + 1;
      var run := h[base..];
      LatestPauseEndIsMax(run);
      forall i | base <= i < |h|
        ensures PauseEnd(h[i]) <= PausedUntil(h)
      {
        assert run[i - base] == h[i];
      }
      var k :| 0 <= k < |run| && PauseEnd(run[k]) == LatestPauseEnd(run);
      assert PauseEnd(h[k + base]) == PausedUntil(h);
    }
  }

  /** The block is the maximum over all arming responses. */
  lemma {:induction false} BlockedUntilIsMaximum(h: seq<Arrival>)
    ensures forall i :: 0 <= i < |h| && ArmsBlock(h[i].resp) ==> BlockEnd(h[i]) <= BlockedUntil(h)
    ensures BlockedUntil(h) != 0 ==>
              exists i :: 0 <= i < |h| && ArmsBlock(h[i].resp) && BlockEnd(h[i]) == BlockedUntil(h)
  {
    if h != [] {
      var t := h[..|h| - 1];
      BlockedUntilIsMaximum(t);
      assert forall i :: 0 <= i < |t| ==> t[i] == h[i];
      if BlockedUntil(h) == BlockEnd(h[|h| - 1]) {
      } else {
        var i :| 0 <= i < |t| && ArmsBlock(t[i].resp) && BlockEnd(t[i]) == BlockedUntil(t);
        assert BlockEnd(h[i]) == BlockedUntil(h);
      }
    }
  }

  /** No later response, whatever it says, shortens an error-limit block. */
  lemma {:induction false} BlockNeverShrinks(h: seq<Arrival>, later: seq<Arrival>)
    ensures BlockedUntil(h) <= BlockedUntil(h + later)
  {
    if later == [] {
      assert h + later == h;
    } else {
      BlockNeverShrinks(h, later[..|later| - 1]);
      assert (h + later)[..|h + later| - 1] == h + later[..|later| - 1];
    }
  }

  /** The outage pause in numbers: unset unless at least the last two responses were answered 500 or above;
      otherwise the latest instant that one of that run, the first excepted, asked to wait for, a minute
      after its arrival if it named no time. */
  lemma PauseInNumbers(h: seq<Arrival>)
    ensures var n := TrailingErrors(h);
            && (forall i :: |h| - n <= i < |h| ==> h[i].resp.status >= 500)
            && (n < |h| ==> h[|h| - n - 1].resp.status < 500)
            && (n < 2 ==> PausedUntil(h) == 0)
            && (n >= 2 ==>
                  && (forall i :: |h| - n + 1 <= i < |h| ==>
                        PausedUntil(h) >=
                        h[i].at + if h[i].resp.retryAfter > 0 then h[i].resp.retryAfter else 60_000_000_000)
                  && (exists i :: |h| - n + 1 <= i < |h| &&
                        PausedUntil(h) ==
                        h[i].at + if h[i].resp.retryAfter > 0 then h[i].resp.retryAfter else 60_000_000_000))
  {
    TrailingErrorsIsMaximalRun(h);
    PausedUntilIsMaximum(h);
    var n := TrailingErrors(h);
    if n >= 2 {
      var k :| |h| - n + 1 <= k < |h| && PauseEnd(h[k]) == PausedUntil(h);
      assert PausedUntil(h) ==
             h[k].at + if h[k].resp.retryAfter > 0 then h[k].resp.retryAfter else 60_000_000_000;
      forall i | |h| - n + 1 <= i < |h|
        ensures PausedUntil(h) >=
                h[i].at + if h[i].resp.retryAfter > 0 then h[i].resp.retryAfter else 60_000_000_000
      {
        assert PauseEnd(h[i]) <= PausedUntil(h);
      }
    }
  }

  /** The error-limit block in numbers: the latest instant any response ever asked to wait for, of those
      that are a 420, or not a 200 and carry both headers; a minute after its arrival if it named no time. */
  lemma BlockInNumbers(h: seq<Arrival>)
    ensures forall i :: 0 <= i < |h| && Limits(h[i].resp) ==>
              BlockedUntil(h) >= h[i].at + if h[i].resp.errorReset > 0 then h[i].resp.errorReset else 60_000_000_000
    ensures BlockedUntil(h) != 0 ==>
              exists i :: 0 <= i < |h| && Limits(h[i].resp)
                          && BlockedUntil(h) ==
                             h[i].at + if h[i].resp.errorReset > 0 then h[i].resp.errorReset else 60_000_000_000
  {
    BlockedUntilIsMaximum(h);
    assert forall r: Response :: ArmsBlock(r) <==> Limits(r);
  }

  predicate Limits(r: Response) {
    r.status == 420 || (r.status != 200 && r.errorRemain.Some? && r.errorReset > 0)
  }

  // ----- Histories and the clock -----

  /** When the last response arrived. */
  ghost function Latest(h: seq<Arrival>): nat {
    if h == [] then 0 else h[|h| - 1].at
  }

  /** Responses are recorded in the order in which they arrived. */
  ghost predicate Ordered(h: seq<Arrival>) {
    h == [] || (Ordered(h[..|h| - 1]) && Latest(h[..|h| - 1]) <= h[|h| - 1].at)
  }

  /** More responses, none of them from before `since`. */
  ghost predicate Extends(h: seq<Arrival>, h': seq<Arrival>, since: nat) {
    h <= h' && (|h| < |h'| ==> h'[|h|].at >= since)
  }

  lemma ExtendsOn(a: seq<Arrival>, b: seq<Arrival>, c: seq<Arrival>, since: nat, later: nat)
    requires Extends(a, b, since) && Extends(b, c, later) && since <= later
    ensures Extends(a, c, since)
  {
  }

  function Responses(h: seq<Arrival>): seq<Response> {
    if h == [] then [] else Responses(h[..|h| - 1]) + [h[|h| - 1].resp]
  }

  /** The history grew by exactly these responses, in order. */
  ghost predicate Heard(h: seq<Arrival>, h': seq<Arrival>, resps: seq<Response>) {
    h <= h' && Responses(h'[|h|..]) == resps
  }

  lemma HeardNothing(h: seq<Arrival>)
    ensures Heard(h, h, [])
  {
    assert h[|h|..] == [];
  }

  lemma HeardOne(h: seq<Arrival>, a: Arrival)
    ensures Heard(h, h + [a], [a.resp])
  {
    assert (h + [a])[|h|..] == [a] && [a][..0] == [];
  }

  lemma {:induction false} ResponsesConcat(a: seq<Arrival>, b: seq<Arrival>)
    ensures Responses(a + b) == Responses(a) + Responses(b)
  {
    if b == [] {
      assert a + b == a;
    } else {
      var front := b[..|b| - 1];
      ResponsesConcat(a, front);
      assert (a + b)[..|a + b| - 1] == a + front;
    }
  }

  lemma HeardMore(a: seq<Arrival>, b: seq<Arrival>, c: seq<Arrival>, first: seq<Response>, more: seq<Response>)
    requires Heard(a, b, first) && Heard(b, c, more)
    ensures Heard(a, c, first + more)
  {
    ResponsesConcat(b[|a|..], c[|b|..]);
    assert c[|a|..] == b[|a|..] + c[|b|..];
  }

  lemma {:induction false} ResponseOf(h: seq<Arrival>, r: Response) returns (j: nat)
    requires r in Responses(h)
    ensures j < |h| && h[j].resp == r
  {
    if h[|h| - 1].resp == r {
      j := |h| - 1;
    } else {
      j := ResponseOf(h[..|h| - 1], r);
    }
  }

  /** At the instant t, n responses had arrived. */
  ghost predicate CutAt(h: seq<Arrival>, n: nat, t: nat) {
    && n <= |h| && Latest(h[..n]) <= t
    && (n < |h| ==> h[n].at >= t)
  }

  lemma CutStays(h: seq<Arrival>, h': seq<Arrival>, since: nat, n: nat, t: nat)
    requires CutAt(h, n, t) && Extends(h, h', since) && t <= since
    ensures CutAt(h', n, t) && h'[..n] == h[..n]
  {
    assert h'[..n] == h[..n];
  }

  lemma {:induction false} OrderedMeans(h: seq<Arrival>)
    requires Ordered(h)
    ensures forall i, j :: 0 <= i <= j < |h| ==> h[i].at <= h[j].at
  {
    if |h| > 1 {
      OrderedMeans(h[..|h| - 1]);
    }
  }

  /** A cut is what it says: in an ordered history everything before it arrived by t, everything after
      it no earlier than t. */
  lemma CutMeans(h: seq<Arrival>, n: nat, t: nat)
    requires Ordered(h) && CutAt(h, n, t)
    ensures forall i :: 0 <= i < n ==> h[i].at <= t
    ensures forall i :: n <= i < |h| ==> h[i].at >= t
  {
    OrderedMeans(h);
    if n > 0 {
      assert Latest(h[..n]) == h[n - 1].at;
    }
  }

  // ----- The gate objects -----

  class Budget {
    var remaining: int
    var known: bool

    constructor ()
      ensures !known
    {
      remaining, known := 0, false;
    }

    ghost function Seen(): Option<int>
      reads this
    {
      if known then Some(remaining) else None
    }

    method Observe(n: int)
      modifies this
      ensures Seen() == Some(n)
    {
      remaining, known := n, true;
    }

    predicate BelowFloor(floor: int)
      reads this
    {
      known && remaining < floor
    }
  }

  class ErrorLimit {
    var remain: int
    var known: bool
    var blockedUntil: nat

    constructor ()
      ensures !known && blockedUntil == 0
    {
      remain, known, blockedUntil := 0, false, 0;
    }

    ghost function Seen(): Option<int>
      reads this
    {
      if known then Some(remain) else None
    }

    method ResetAt(now: nat, d: nat)
      modifies this`blockedUntil
      ensures blockedUntil == Max(old(blockedUntil), now + d)
    {
      var until := now + d;
      if until > blockedUntil {
        blockedUntil := until;
      }
    }

    method Observe(now: nat, left: int, reset: int)
      modifies this
      ensures Seen() == Some(left)
      ensures blockedUntil == if reset > 0 then Max(old(blockedUntil), now + reset) else old(blockedUntil)
    {
      remain, known := left, true;
      if reset > 0 {
        ResetAt(now, reset);
      }
    }

    method Block(now: nat, d: int)
      modifies this`blockedUntil
      ensures blockedUntil == Max(old(blockedUntil), now + if d > 0 then d else DEFAULT_BLOCK)
    {
      var span := d;
      if span <= 0 {
        span := DEFAULT_BLOCK;
      }
      ResetAt(now, span);
    }

    function BlockedFor(now: nat): (d: nat)
      reads this
      ensures d > 0 <==> now < blockedUntil
      ensures d > 0 ==> now + d == blockedUntil
    {
      if blockedUntil > now then blockedUntil - now else 0
    }

    predicate Healthy(floor: int)
      reads this
    {
      !known || remain > floor
    }
  }

  class Outage {
    var consecutive: nat
    var pausedUntil: nat

    constructor ()
      ensures consecutive == 0 && pausedUntil == 0
    {
      consecutive, pausedUntil := 0, 0;
    }

    method Observe(now: nat, status: int, retryAfter: int)
      modifies this
      ensures status < 500 ==> consecutive == 0 && pausedUntil == 0
      ensures status >= 500 ==> consecutive == old(consecutive) + 1
      ensures status >= 500 && consecutive < OUTAGE_THRESHOLD ==> pausedUntil == old(pausedUntil)
      ensures status >= 500 && consecutive >= OUTAGE_THRESHOLD ==>
                pausedUntil == Max(old(pausedUntil), now + if retryAfter > 0 then retryAfter else DEFAULT_OUTAGE_PAUSE)
    {
      if status < 500 {
        consecutive, pausedUntil := 0, 0;
        return;
      }
      consecutive := consecutive + 1;
      if consecutive < OUTAGE_THRESHOLD {
        return;
      }
      var d := retryAfter;
      if d <= 0 {
        d := DEFAULT_OUTAGE_PAUSE;
      }
      var until := now + d;
      if until > pausedUntil {
        pausedUntil := until;
      }
    }

    function PausedFor(now: nat): (d: nat)
      reads this
      ensures d > 0 <==> now < pausedUntil
      ensures d > 0 ==> now + d == pausedUntil
    {
      if pausedUntil > now then pausedUntil - now else 0
    }
  }

  // ----- The world outside: the clock and the process context -----

  /** The clock only moves forward, and once the context has ended it stays ended. Both may move
      whenever the program waits. */
  class World {
    var now: nat
    var done: bool

    constructor ()
    {
      var t: nat :| true;
      var ended: bool := *;
      now, done := t, ended;
    }

    method Elapse()
      modifies this
      ensures now >= old(now) && (old(done) ==> done)
    {
      var d: nat :| true;
      var stop: bool := *;
      now, done := now + d, done || stop;
    }

    /** Waits for d, or returns false because the context ended first. */
    method Sleep(d: int) returns (ok: bool)
      modifies this
      ensures now >= old(now) && (old(done) ==> done)
      ensures ok ==> now >= old(now) + d
      ensures !ok ==> done
    {
      if d <= 0 {
        return true;
      }
      Elapse();
      if done {
        var fired: bool := *;
        if !fired {
          return false;
        }
      }
      now := now + d;
      ok := true;
    }
  }

  // ----- The client -----

  class Client {
    const budget: Budget
    const errorLimit: ErrorLimit
    const outage: Outage

    /** Every response so far, in the order in which the gates saw them. */
    ghost var log: seq<Arrival>
    /** The instants at which requests were put on the wire. */
    ghost var issued: seq<nat>

    ghost predicate Valid()
      reads this, budget, errorLimit, outage
    {
      && Ordered(log)
      && budget.Seen() == TokensLeft(log)
      && errorLimit.Seen() == ErrorsLeft(log)
      && errorLimit.blockedUntil == BlockedUntil(log)
      && outage.consecutive == TrailingErrors(log)
      && outage.pausedUntil == PausedUntil(log)
    }

    /** No response comes from the future. */
    ghost predicate Timely(world: World)
      reads this, world
    {
      Latest(log) <= world.now
    }

    constructor ()
      ensures Valid() && log == [] && issued == []
      ensures fresh(budget) && fresh(errorLimit) && fresh(outage)
    {
      budget := new Budget();
      errorLimit := new ErrorLimit();
      outage := new Outage();
      log, issued := [], [];
    }

    /** What a response that is not a success does to the error limit. */
    method ObserveErrorLimit(now: nat, resp: Response)
      requires resp.status != STATUS_OK
      modifies errorLimit
      ensures errorLimit.Seen() == if resp.errorRemain.Some? then resp.errorRemain else old(errorLimit.Seen())
      ensures errorLimit.blockedUntil == Max(old(errorLimit.blockedUntil), BlockEnd(Arrival(now, resp)))
    {
      if resp.errorRemain.Some? {
        errorLimit.Observe(now, resp.errorRemain.value, resp.errorReset);
      }
      if resp.status == STATUS_ERROR_LIMITED {
        errorLimit.Block(now, resp.errorReset);
      }
    }

    /** One response updates the budget, then the error limit, then the outage gate. Afterwards
        every gate is again the stated function of the whole history. */
    method Receive(now: nat, resp: Response)
      requires Valid() && Latest(log) <= now
      modifies this`log, budget, errorLimit, outage
      ensures Valid()
      ensures log == old(log) + [Arrival(now, resp)]
    {
      ghost var h, a := log, Arrival(now, resp);
      OutageTracksHistory(h, a);
      OtherGatesTrackHistory(h, a);
      assert (h + [a])[..|h|] == h;
      log := h + [a];
      if resp.remaining.Some? {
        budget.Observe(resp.remaining.value);
      }
      if resp.status != STATUS_OK {
        ObserveErrorLimit(now, resp);
        outage.Observe(now, resp.status, resp.retryAfter);
      } else {
        outage.Observe(now, resp.status, 0);
      }
    }

    /** One request. It may be abandoned before it is sent because the context ended, and it may
        end without any response. */
    method Get(world: World) returns (resp: Option<Response>)
      requires Valid() && Timely(world)
      modifies world, this, budget, errorLimit, outage
      ensures Valid() && Timely(world)
      ensures world.now >= old(world.now) && (old(world.done) ==> world.done)
      ensures issued == old(issued) ==> resp.None? && world.done
      ensures Extends(old(log), log, old(world.now))
      ensures resp.None? ==> log == old(log)
      ensures resp.Some? ==> log == old(log) + [Arrival(world.now, resp.value)]
      ensures issued != old(issued) ==>
                exists t :: old(world.now) <= t <= world.now && issued == old(issued) + [t]
    {
      world.Elapse();
      if world.done {
        return None;
      }
      ghost var t := world.now;
      issued := issued + [t];
      world.Elapse();
      resp := *;
      if resp.Some? {
        Receive(world.now, resp.value);
      }
      assert issued == old(issued) + [t];
    }

    /** Any number of requests made by other goroutines. */
    method Others(world: World)
      requires Valid() && Timely(world)
      modifies world, this, budget, errorLimit, outage
      ensures Valid() && Timely(world)
      ensures world.now >= old(world.now) && (old(world.done) ==> world.done)
      ensures Extends(old(log), log, old(world.now)) && old(issued) <= issued
    {
      var n: nat :| true;
      for i := 0 to n
        invariant Valid() && Timely(world)
        invariant world.now >= old(world.now) && (old(world.done) ==> world.done)
        invariant Extends(old(log), log, old(world.now)) && old(issued) <= issued
      {
        var _ := Get(world);
      }
    }

    /** No retry may run: the upstream is down or the error budget is low. */
    predicate RetriesBlocked(now: nat, errorLimitFloor: int)
      reads this, outage, errorLimit
    {
      outage.PausedFor(now) > 0 || !errorLimit.Healthy(errorLimitFloor)
    }
  }

  /** What RetriesBlocked decides, as a function of the response history. */
  ghost predicate RetryAllowed(h: seq<Arrival>, now: nat, errorLimitFloor: int) {
    && PausedUntil(h) <= now
    && (ErrorsLeft(h).Some? ==> ErrorsLeft(h).value > errorLimitFloor)
  }
}
