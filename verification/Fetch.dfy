/** One page request and its bounded in-place retry. */
module Fetch {
  import opened Common
  import opened Esi
  import opened Orders

  /** One page of a region's order book with the headers that decide scheduling and consistency. */
  datatype Page = Page(orders: seq<Order>, pages: Positive, lastModified: int, expires: int)

  /** How a request can end without a response. */
  datatype Loss = TimedOut | NetworkFailure | OtherFailure

  /** The result of one request. */
  datatype Exchange =
    | Served(resp: Response, page: Page)   // 200 with a decodable body
    | Garbled(resp: Response)              // 200 with a body that does not decode
    | Refused(resp: Response)              // any other status
    | Lost(loss: Loss)                     // no response

  predicate WellFormed(ex: Exchange) {
    match ex
    case Served(r, p) => r.status == STATUS_OK && p.pages == PagesOf(r)
    case Garbled(r) => r.status == STATUS_OK
    case Refused(r) => r.status != STATUS_OK
    case Lost(_) => true
  }

  function Cost(ex: Exchange): nat {
    if ex.Lost? then 0 else TokenCost(ex.resp.status)
  }

  /** The responses among some exchanges. */
  function Answers(exs: seq<Exchange>): seq<Response> {
    if exs == [] then []
    else
      var ex := exs[|exs| - 1];
      Answers(exs[..|exs| - 1]) + if ex.Lost? then [] else [ex.resp]
  }

  lemma AnswersPush(exs: seq<Exchange>, ex: Exchange)
    ensures Answers(exs + [ex]) == Answers(exs) + if ex.Lost? then [] else [ex.resp]
  {
    assert (exs + [ex])[..|exs|] == exs;
  }

  /** What an exchange whose result is known at an instant adds to the history. */
  function Arrivals(ex: Exchange, at: nat): seq<Arrival> {
    if ex.Lost? then [] else [Arrival(at, ex.resp)]
  }

  /** What ESI charges for some responses. */
  function Price(resps: seq<Response>): nat {
    if resps == [] then 0 else Price(resps[..|resps| - 1]) + TokenCost(resps[|resps| - 1].status)
  }

  lemma {:induction false} PriceConcat(a: seq<Response>, b: seq<Response>)
    ensures Price(a + b) == Price(a) + Price(b)
  {
    if b == [] {
      assert a + b == a;
    } else {
      PriceConcat(a, b[..|b| - 1]);
      assert (a + b)[..|a + b| - 1] == a + b[..|b| - 1];
    }
  }

  lemma {:induction false} SpendIsPrice(exs: seq<Exchange>)
    ensures Spend(exs) == Price(Answers(exs))
  {
    if exs != [] {
      var front, ex := exs[..|exs| - 1], exs[|exs| - 1];
      SpendIsPrice(front);
      if ex.Lost? {
        assert Answers(exs) == Answers(front);
      } else {
        PriceConcat(Answers(front), [ex.resp]);
        assert [ex.resp][..0] == [];
      }
    }
  }

  function Spend(exs: seq<Exchange>): nat {
    if exs == [] then 0 else Spend(exs[..|exs| - 1]) + Cost(exs[|exs| - 1])
  }

  /** A page is worth fetching again after a 429, a 5xx, a timeout or a network failure. */
  predicate Retryable(ex: Exchange) {
    match ex
    case Served(_, _) => false
    case Garbled(_) => false
    case Refused(r) => r.status == STATUS_TOO_MANY_REQUESTS || r.status >= 500
    case Lost(loss) => loss != OtherFailure
  }

  function Backoff(attempt: nat, ex: Exchange, unit: nat): nat {
    if ex.Refused? && ex.resp.retryAfter > 0 then ex.resp.retryAfter else attempt * unit
  }

  /** What the attempts at one page can look like: at least one, at most `attempts`, and only a
      retryable failure is followed by another attempt. */
  predicate Attempts(exs: seq<Exchange>, attempts: nat) {
    && 1 <= |exs| <= attempts
    && (forall ex <- exs :: WellFormed(ex))
    && (forall i :: 0 <= i < |exs| - 1 ==> Retryable(exs[i]))
  }

  /** A 4xx response. */
  predicate ClientError(ex: Exchange) {
    !ex.Lost? && 400 <= ex.resp.status < 500
  }

  function ClientErrors(exs: seq<Exchange>): nat {
    if exs == [] then 0
    else ClientErrors(exs[..|exs| - 1]) + if ClientError(exs[|exs| - 1]) then 1 else 0
  }

  lemma {:induction false} RetriedSpend(exs: seq<Exchange>)
    requires forall ex <- exs :: WellFormed(ex) && Retryable(ex)
    ensures Spend(exs) == 5 * ClientErrors(exs)
  {
    if exs != [] {
      RetriedSpend(exs[..|exs| - 1]);
      assert exs[|exs| - 1] in exs;
    }
  }

  /** However often a page is retried, it costs at most one served page plus five tokens for each
      4xx answer on the way. */
  lemma PageSpend(exs: seq<Exchange>, attempts: nat)
    requires Attempts(exs, attempts)
    ensures Spend(exs) <= 2 + 5 * ClientErrors(exs)
  {
    RetriedSpend(exs[..|exs| - 1]);
    assert WellFormed(exs[|exs| - 1]);
  }

  /** How many exchanges were answered with a status from lo up to, not including, hi. */
  function StatusesIn(exs: seq<Exchange>, lo: int, hi: int): nat {
    if exs == [] then 0
    else
      var ex := exs[|exs| - 1];
      StatusesIn(exs[..|exs| - 1], lo, hi) + if !ex.Lost? && lo <= ex.resp.status < hi then 1 else 0
  }

  /** The price list: two tokens for a 2xx, one for a 3xx, five for a 4xx, nothing for anything else or for
      no answer. */
  lemma {:induction false} SpendByStatus(exs: seq<Exchange>)
    ensures Spend(exs) == 2 * StatusesIn(exs, 200, 300) + StatusesIn(exs, 300, 400) + 5 * StatusesIn(exs, 400, 500)
  {
    if exs != [] {
      SpendByStatus(exs[..|exs| - 1]);
    }
  }

  /** What can be followed by another attempt, in statuses: a timeout or a network failure, a 429, or a
      server error. Nothing follows a page served or garbled, a 420 or any other 4xx. */
  lemma RetriedInStatuses(exs: seq<Exchange>, attempts: nat)
    requires Attempts(exs, attempts)
    ensures forall i :: 0 <= i < |exs| - 1 ==>
              match exs[i]
              case Served(_, _) => false
              case Garbled(_) => false
              case Refused(r) => r.status == 429 || r.status >= 500
              case Lost(loss) => loss.TimedOut? || loss.NetworkFailure?
  {
  }

  datatype Config = Config(
    reserve: int, floor: int, pageAttempts: nat, errorLimitFloor: int, pageBackoffUnit: nat)

  /** One request as it happened: when it began, when its result was known, how many responses had
      arrived by then, and the result. */
  datatype Try = Try(began: nat, at: nat, seen: nat, ex: Exchange)

  /** A decision to retry: when it was made, and how many responses had arrived by then. */
  datatype Retry = Retry(at: nat, seen: nat)

  function Exchanges(tries: seq<Try>): (exs: seq<Exchange>)
    ensures |exs| == |tries| && forall i :: 0 <= i < |tries| ==> exs[i] == tries[i].ex
  {
    if tries == [] then [] else Exchanges(tries[..|tries| - 1]) + [tries[|tries| - 1].ex]
  }

  /** The decision was made after the failed request had returned, on all the responses that had
      arrived by then, and the gates allowed it. */
  ghost predicate Decided(r: Retry, failed: Try, log: seq<Arrival>, cfg: Config) {
    && failed.at <= r.at && failed.seen <= r.seen
    && CutAt(log, r.seen, r.at)
    && RetryAllowed(log[..r.seen], r.at, cfg.errorLimitFloor)
  }

  /** When the backoff that follows the decision is over. */
  function ResumesAt(r: Retry, attempt: nat, failed: Try, cfg: Config): nat {
    r.at + Backoff(attempt, failed.ex, cfg.pageBackoffUnit)
  }

  /** Retry i was decided after the failure before it, while the gates allowed one, and the request that
      followed began after the backoff. */
  ghost predicate RetryJustified(i: nat, retries: seq<Retry>, tries: seq<Try>, log: seq<Arrival>, cfg: Config)
    requires i < |retries| <= |tries|
  {
    && Decided(retries[i], tries[i], log, cfg)
    && (i + 1 < |tries| ==> ResumesAt(retries[i], i + 1, tries[i], cfg) <= tries[i + 1].began)
  }

  ghost predicate RetriesJustified(retries: seq<Retry>, tries: seq<Try>, log: seq<Arrival>, cfg: Config) {
    |retries| <= |tries| && forall i :: 0 <= i < |retries| ==> RetryJustified(i, retries, tries, log, cfg)
  }

  lemma RetriesStayJustified(retries: seq<Retry>, tries: seq<Try>, log: seq<Arrival>, cfg: Config,
                             log': seq<Arrival>, since: nat)
    requires RetriesJustified(retries, tries, log, cfg) && Extends(log, log', since)
    requires forall r <- retries :: r.at <= since
    ensures RetriesJustified(retries, tries, log', cfg)
  {
    forall i | 0 <= i < |retries|
      ensures RetryJustified(i, retries, tries, log', cfg)
    {
      assert RetryJustified(i, retries, tries, log, cfg) && retries[i] in retries;
      CutStays(log, log', since, retries[i].seen, retries[i].at);
    }
  }

  class Fetcher {
    const client: Client
    const cfg: Config

    /** Every request made through this fetcher. */
    ghost var tries: seq<Try>

    constructor (client: Client, cfg: Config)
      ensures this.client == client && this.cfg == cfg && tries == []
    {
      this.client, this.cfg, tries := client, cfg, [];
    }

    /** One request for one page, decoded, and recorded. If the caller's context may end, it may end
        before the request is made. */
    method OrdersPage(world: World, mayEnd: bool) returns (ex: Exchange, ghost t: Try)
      requires client.Valid() && client.Timely(world)
      modifies world, this`tries, client, client.budget, client.errorLimit, client.outage
      ensures client.Valid() && client.Timely(world)
      ensures world.now >= old(world.now) && (old(world.done) ==> world.done)
      ensures Extends(old(client.log), client.log, old(world.now)) && old(client.issued) <= client.issued
      ensures |client.issued| <= |old(client.issued)| + 1
      ensures if client.issued == old(client.issued) then ex.Lost? && (world.done || mayEnd)
              else old(world.now) <= client.issued[|old(client.issued)|] <= world.now
      ensures t.began == old(world.now) && t.at == world.now && t.seen == |client.log| && WellFormed(t.ex)
      ensures ex == t.ex
      ensures ex.Served? && ex.resp.xPages.Some? && ex.resp.xPages.value > 0 ==> ex.page.pages == ex.resp.xPages.value
      ensures ex.Served? && (ex.resp.xPages.None? || ex.resp.xPages.value <= 0) ==> ex.page.pages == 1
      ensures client.log == old(client.log) + Arrivals(ex, world.now)
      ensures tries == old(tries) + [t]
    {
      ex := Request(world, mayEnd);
      t := Try(old(world.now), world.now, |client.log|, ex);
      tries := tries + [t];
    }

    method Request(world: World, mayEnd: bool) returns (ex: Exchange)
      requires client.Valid() && client.Timely(world)
      modifies world, client, client.budget, client.errorLimit, client.outage
      ensures client.Valid() && client.Timely(world) && WellFormed(ex)
      ensures world.now >= old(world.now) && (old(world.done) ==> world.done)
      ensures Extends(old(client.log), client.log, old(world.now)) && old(client.issued) <= client.issued
      ensures |client.issued| <= |old(client.issued)| + 1
      ensures if client.issued == old(client.issued) then ex.Lost? && (world.done || mayEnd)
              else old(world.now) <= client.issued[|old(client.issued)|] <= world.now
      ensures ex.Lost? ==> client.log == old(client.log)
      ensures !ex.Lost? ==> client.log == old(client.log) + [Arrival(world.now, ex.resp)]
    {
      var ended: bool := *;
      if mayEnd && ended {
        return Lost(OtherFailure);
      }
      var resp := client.Get(world);
      if resp.None? {
        var loss: Loss := *;
        return Lost(loss);
      }
      if resp.value.status != STATUS_OK {
        return Refused(resp.value);
      }
      var decoded: bool := *;
      if !decoded {
        return Garbled(resp.value);
      }
      var orders: seq<Order>, lastModified: int, expires: int := *, *, *;
      ex := Served(resp.value, Page(orders, PagesOf(resp.value), lastModified, expires));
    }

    /** One attempt, once the backoff before it is over. Unless this fetch is alone, other workers may
        hear from ESI first. */
    method TryOnce(world: World, alone: bool, mayEnd: bool, exs: seq<Exchange>, tokens: nat,
                   ghost log0: seq<Arrival>, ghost earlier: seq<Try>, ghost mine: seq<Try>, ghost retries: seq<Retry>)
      returns (ex: Exchange, exs': seq<Exchange>, tokens': nat, ghost mine': seq<Try>)
      requires client.Valid() && client.Timely(world)
      requires Between(exs, tokens, mine, retries, client.log, world.now, cfg) && |exs| < cfg.pageAttempts
      requires tries == earlier + mine && (alone ==> Heard(log0, client.log, Answers(exs)))
      modifies world, this`tries, client, client.budget, client.errorLimit, client.outage
      ensures client.Valid() && client.Timely(world)
      ensures world.now >= old(world.now) && (old(world.done) ==> world.done)
      ensures Extends(old(client.log), client.log, old(world.now)) && old(client.issued) <= client.issued
      ensures alone ==> |client.issued| <= |old(client.issued)| + 1
      ensures alone ==> Heard(log0, client.log, Answers(exs'))
      ensures exs' == exs + [ex] && |mine'| == |mine| + 1
      ensures tries == earlier + mine'
      ensures After(exs', tokens', mine', retries, client.log, world.now, cfg)
    {
      if !alone {
        client.Others(world);
      }
      ghost var log, now := client.log, world.now;
      ghost var t;
      ex, t := OrdersPage(world, mayEnd);
      ExtendsOn(old(client.log), log, client.log, old(world.now), now);
      tokens' := tokens;
      if !ex.Lost? {
        tokens' := tokens + TokenCost(ex.resp.status);
      }
      exs', mine' := exs + [ex], mine + [t];
      ConcatAssociates(earlier, mine, [t]);
      HearTry(log0, old(client.log), exs, ex, world.now);
      BetweenThenAfter(exs, tokens, mine, retries, old(client.log), old(world.now), cfg, t, client.log);
    }

    /** Decides on one more attempt after a retryable failure, and waits for it. Other workers may hear
        more from ESI before the decision. */
    method AwaitRetry(world: World, alone: bool, mayEnd: bool, exs: seq<Exchange>, ghost tokens: nat,
                      ghost mine: seq<Try>, ghost retries: seq<Retry>)
      returns (again: bool, ended: bool, ghost retries': seq<Retry>)
      requires client.Valid() && client.Timely(world)
      requires After(exs, tokens, mine, retries, client.log, world.now, cfg) && Retryable(exs[|exs| - 1])
      modifies world, client, client.budget, client.errorLimit, client.outage
      ensures client.Valid() && client.Timely(world)
      ensures world.now >= old(world.now) && (old(world.done) ==> world.done)
      ensures Extends(old(client.log), client.log, old(world.now)) && old(client.issued) <= client.issued
      ensures alone ==> client.issued == old(client.issued) && client.log == old(client.log)
      ensures again ==> Between(exs, tokens, mine, retries', client.log, world.now, cfg)
      ensures !again ==> retries' == retries && After(exs, tokens, mine, retries, client.log, world.now, cfg)
      ensures !again ==> ended || !RetryAllowed(client.log, world.now, cfg.errorLimitFloor)
      ensures ended ==> !again && (world.done || mayEnd)
    {
      if !alone {
        client.Others(world);
      }
      ghost var r := Retry(world.now, |client.log|);
      assert client.log[..|client.log|] == client.log;
      TriedLater(mine, retries, old(client.log), old(world.now), cfg, client.log, r.at);
      retries', ended := retries, false;
      if client.RetriesBlocked(world.now, cfg.errorLimitFloor) {
        return false, false, retries;
      }
      again := world.Sleep(Backoff(|exs|, exs[|exs| - 1], cfg.pageBackoffUnit));
      ended := *;
      ended := !again || (mayEnd && ended);
      again := !ended;
      if again {
        AfterDecision(mine, retries, client.log, r.at, cfg, r, world.now);
        AllFailedNow(exs, tokens, cfg.pageAttempts);
        retries' := retries + [r];
      } else {
        TriedLater(mine, retries, client.log, r.at, cfg, client.log, world.now);
      }
    }

    /** Fetches one page, retrying it in place, while other workers use the same client unless it is
        alone. The tokens returned cover every attempt. A retry is decided only while the gates allow
        it, and it waits for the server's Retry-After or else for the attempt number times the unit. A
        retryable failure is final before the last attempt only because of a gate or because the context
        ended: that of the process, or the worker's own if a sibling page or the copy may have failed. */
    method FetchPage(world: World, alone: bool, mayEnd: bool)
      returns (page: Option<Page>, tokens: nat, lastErr: Option<Exchange>, exs: seq<Exchange>, ended: bool,
               ghost mine: seq<Try>, ghost retries: seq<Retry>)
      requires client.Valid() && client.Timely(world) && cfg.pageAttempts >= 1
      modifies world, this`tries, client, client.budget, client.errorLimit, client.outage
      ensures client.Valid() && client.Timely(world)
      ensures world.now >= old(world.now) && (old(world.done) ==> world.done)
      ensures Extends(old(client.log), client.log, old(world.now)) && old(client.issued) <= client.issued
      ensures tries == old(tries) + mine
      ensures After(exs, tokens, mine, retries, client.log, world.now, cfg)
      ensures alone ==> |client.issued| <= |old(client.issued)| + |exs|
      ensures alone ==> Heard(old(client.log), client.log, Answers(exs))
      ensures ended ==> world.done || mayEnd
      ensures forall i :: 0 <= i < |exs| - 1 ==>
                match exs[i]
                case Served(_, _) => false
                case Garbled(_) => false
                case Refused(r) => r.status == 429 || r.status >= 500
                case Lost(loss) => loss.TimedOut? || loss.NetworkFailure?
      ensures var last := exs[|exs| - 1];
              && (if last.Served? then page == Some(last.page) else page == None && lastErr == Some(last))
              && ((last.Refused? && (last.resp.status == 429 || last.resp.status >= 500))
                  || (last.Lost? && (last.loss.TimedOut? || last.loss.NetworkFailure?)) ==>
                    |exs| == cfg.pageAttempts || ended || !RetryAllowed(client.log, world.now, cfg.errorLimitFloor))
    {
      page, tokens, lastErr, exs, ended, mine, retries := None, 0, None, [], false, [], [];
      HeardNothing(client.log);
      var attempt := 1;
      while attempt <= cfg.pageAttempts
        invariant 1 <= attempt <= cfg.pageAttempts && |exs| == attempt - 1
        invariant client.Valid() && client.Timely(world)
        invariant world.now >= old(world.now) && (old(world.done) ==> world.done)
        invariant Extends(old(client.log), client.log, old(world.now)) && old(client.issued) <= client.issued
        invariant tries == old(tries) + mine
        invariant !ended
        invariant alone ==> |client.issued| <= |old(client.issued)| + |exs|
        invariant alone ==> Heard(old(client.log), client.log, Answers(exs))
        invariant page == None && Between(exs, tokens, mine, retries, client.log, world.now, cfg)
        decreases cfg.pageAttempts - attempt
      {
        ghost var log, now := client.log, world.now;
        var ex;
        ex, exs, tokens, mine := TryOnce(world, alone, mayEnd, exs, tokens, old(client.log), old(tries), mine, retries);
        RetriedInStatuses(exs, cfg.pageAttempts);
        ExtendsOn(old(client.log), log, client.log, old(world.now), now);
        if ex.Served? {
          page := Some(ex.page);
          return;
        }
        lastErr := Some(ex);
        ended := *;
        ended := world.done || (mayEnd && ended);
        if !Retryable(ex) || attempt == cfg.pageAttempts || ended {
          return;
        }
        log, now := client.log, world.now;
        var again;
        again, ended, retries := AwaitRetry(world, alone, mayEnd, exs, tokens, mine, retries);
        ExtendsOn(old(client.log), log, client.log, old(world.now), now);
        if !again {
          return;
        }
        attempt := attempt + 1;
      }
    }
  }

  /** The pauses of a page fetch: Retry-After when the refusal before the pause asked for one, else the
      attempt number times the unit, counted from a decision made after that refusal. */
  lemma PausesAreObeyed(exs: seq<Exchange>, tokens: nat, tries: seq<Try>, retries: seq<Retry>,
                        log: seq<Arrival>, now: nat, cfg: Config, i: nat)
    requires After(exs, tokens, tries, retries, log, now, cfg) && i + 1 < |tries|
    ensures exs[i] == tries[i].ex && tries[i].at <= retries[i].at
    ensures exs[i].Refused? && exs[i].resp.retryAfter > 0 ==>
              tries[i + 1].began >= retries[i].at + exs[i].resp.retryAfter
    ensures !exs[i].Refused? || exs[i].resp.retryAfter <= 0 ==>
              tries[i + 1].began >= retries[i].at + (i + 1) * cfg.pageBackoffUnit
  {
    assert RetryJustified(i, retries, tries, log, cfg);
  }

  /** Every exchange so far failed retryably, at a known cost. */
  ghost predicate AllFailed(exs: seq<Exchange>, tokens: nat) {
    tokens == Spend(exs) && forall ex <- exs :: WellFormed(ex) && Retryable(ex)
  }

  /** Between attempts: every retry was justified, and the last decision's backoff is over. */
  ghost predicate Ready(tries: seq<Try>, retries: seq<Retry>, log: seq<Arrival>, now: nat, cfg: Config) {
    && RetriesJustified(retries, tries, log, cfg) && |retries| == |tries|
    && (forall r <- retries :: r.at <= now)
    && (tries != [] ==> ResumesAt(retries[|tries| - 1], |tries|, tries[|tries| - 1], cfg) <= now)
  }

  /** After an attempt: every retry before it was justified. */
  ghost predicate Tried(tries: seq<Try>, retries: seq<Retry>, log: seq<Arrival>, now: nat, cfg: Config) {
    && RetriesJustified(retries, tries, log, cfg) && |retries| + 1 == |tries|
    && (forall r <- retries :: r.at <= now)
    && tries[|retries|].at <= now && tries[|retries|].seen <= |log|
  }

  ghost predicate Between(exs: seq<Exchange>, tokens: nat, tries: seq<Try>, retries: seq<Retry>,
                          log: seq<Arrival>, now: nat, cfg: Config) {
    exs == Exchanges(tries) && AllFailed(exs, tokens) && Ready(tries, retries, log, now, cfg)
  }

  /** What a page fetch leaves behind: exchanges that a bounded retry loop can have made, their exact
      cost, and a justified decision behind every retry. */
  ghost predicate After(exs: seq<Exchange>, tokens: nat, tries: seq<Try>, retries: seq<Retry>,
                        log: seq<Arrival>, now: nat, cfg: Config) {
    && exs == Exchanges(tries) && Tried(tries, retries, log, now, cfg)
    && Attempts(exs, cfg.pageAttempts) && tokens == Spend(exs)
  }

  lemma AfterTry(tries: seq<Try>, retries: seq<Retry>, log: seq<Arrival>, now: nat, cfg: Config,
                 t: Try, log': seq<Arrival>)
    requires Ready(tries, retries, log, now, cfg) && Extends(log, log', now)
    requires now <= t.began <= t.at && t.seen <= |log'|
    ensures Tried(tries + [t], retries, log', t.at, cfg)
  {
    RetriesStayJustified(retries, tries, log, cfg, log', now);
    forall i | 0 <= i < |retries|
      ensures RetryJustified(i, retries, tries + [t], log', cfg)
    {
      assert RetryJustified(i, retries, tries, log', cfg);
    }
  }

  lemma AfterDecision(tries: seq<Try>, retries: seq<Retry>, log: seq<Arrival>, now: nat, cfg: Config,
                      r: Retry, later: nat)
    requires Tried(tries, retries, log, now, cfg) && Decided(r, tries[|retries|], log, cfg) && now <= later
    requires r.at <= later && ResumesAt(r, |tries|, tries[|retries|], cfg) <= later
    ensures Ready(tries, retries + [r], log, later, cfg)
  {
    forall i | 0 <= i < |tries|
      ensures RetryJustified(i, retries + [r], tries, log, cfg)
    {
      assert i < |retries| ==> RetryJustified(i, retries, tries, log, cfg);
    }
  }

  lemma TriedLater(tries: seq<Try>, retries: seq<Retry>, log: seq<Arrival>, now: nat, cfg: Config,
                   log': seq<Arrival>, later: nat)
    requires Tried(tries, retries, log, now, cfg) && Extends(log, log', now) && now <= later
    ensures Tried(tries, retries, log', later, cfg)
  {
    RetriesStayJustified(retries, tries, log, cfg, log', now);
  }

  lemma HearTry(log0: seq<Arrival>, log: seq<Arrival>, exs: seq<Exchange>, ex: Exchange, at: nat)
    ensures Heard(log0, log, Answers(exs)) ==> Heard(log0, log + Arrivals(ex, at), Answers(exs + [ex]))
  {
    AnswersPush(exs, ex);
    if ex.Lost? {
      assert log + [] == log && Answers(exs) + [] == Answers(exs);
    } else if Heard(log0, log, Answers(exs)) {
      HeardOne(log, Arrival(at, ex.resp));
      HeardMore(log0, log, log + [Arrival(at, ex.resp)], Answers(exs), [ex.resp]);
    }
  }

  lemma BetweenThenAfter(
    exs: seq<Exchange>, tokens: nat, tries: seq<Try>, retries: seq<Retry>, log: seq<Arrival>, now: nat, cfg: Config,
    t: Try, log': seq<Arrival>)
    requires Between(exs, tokens, tries, retries, log, now, cfg) && Extends(log, log', now)
    requires |exs| < cfg.pageAttempts && now <= t.began <= t.at && t.seen <= |log'| && WellFormed(t.ex)
    ensures After(exs + [t.ex], tokens + Cost(t.ex), tries + [t], retries, log', t.at, cfg)
  {
    AfterTry(tries, retries, log, now, cfg, t, log');
    OneMoreExchange(exs, tokens, t.ex, cfg.pageAttempts);
    ExchangesPush(tries, t);
  }

  lemma AllFailedNow(exs: seq<Exchange>, tokens: nat, attempts: nat)
    requires Attempts(exs, attempts) && Retryable(exs[|exs| - 1]) && tokens == Spend(exs)
    ensures AllFailed(exs, tokens)
  {
  }

  lemma OneMoreExchange(exs: seq<Exchange>, tokens: nat, ex: Exchange, attempts: nat)
    requires AllFailed(exs, tokens) && WellFormed(ex) && |exs| < attempts
    ensures Attempts(exs + [ex], attempts) && tokens + Cost(ex) == Spend(exs + [ex])
  {
    assert (exs + [ex])[..|exs|] == exs;
  }

  lemma ExchangesPush(tries: seq<Try>, t: Try)
    ensures Exchanges(tries + [t]) == Exchanges(tries) + [t.ex]
  {
    assert (tries + [t])[..|tries|] == tries;
  }
}
