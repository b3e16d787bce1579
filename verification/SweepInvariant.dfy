/** What every reachable state of the concurrent sweep satisfies. */
module SweepInvariant {
  import opened Common
  import opened Esi
  import opened Fetch
  import opened Orders
  import opened Sweep

  // ----- Sums over workers and batches -----

  function SumOf(ws: seq<Worker>, f: Worker -> nat): nat {
    if ws == [] then 0 else SumOf(ws[..|ws| - 1], f) + f(ws[|ws| - 1])
  }

  lemma {:induction false} SumUpdate(ws: seq<Worker>, i: nat, w: Worker, f: Worker -> nat)
    requires i < |ws|
    ensures SumOf(ws[i := w], f) + f(ws[i]) == SumOf(ws, f) + f(w)
  {
    var n := |ws| - 1;
    if i == n {
      assert ws[i := w][..n] == ws[..n];
    } else {
      assert ws[i := w][..n] == ws[..n][i := w];
      SumUpdate(ws[..n], i, w, f);
    }
  }

  function FetchedRows(w: Worker): nat {
    if w.Sending? || w.Sent? then |w.page.orders| else 0
  }

  function IsFetching(w: Worker): nat {
    if w.Fetching? then 1 else 0
  }

  function RowsOf(pages: seq<Page>): multiset<Order> {
    if pages == [] then multiset{} else RowsOf(pages[..|pages| - 1]) + multiset(pages[|pages| - 1].orders)
  }

  function SentRows(ws: seq<Worker>): multiset<Order> {
    if ws == [] then multiset{}
    else SentRows(ws[..|ws| - 1]) + if ws[|ws| - 1].Sent? then multiset(ws[|ws| - 1].page.orders) else multiset{}
  }

  lemma {:induction false} SentRowsUpdate(ws: seq<Worker>, i: nat, w: Worker)
    requires i < |ws| && !ws[i].Sent?
    ensures SentRows(ws[i := w]) == SentRows(ws) + if w.Sent? then multiset(w.page.orders) else multiset{}
  {
    var n := |ws| - 1;
    if i == n {
      assert ws[i := w][..n] == ws[..n];
    } else {
      assert ws[i := w][..n] == ws[..n][i := w];
      SentRowsUpdate(ws[..n], i, w);
    }
  }

  function Flatten(bs: seq<Batch>): seq<Order> {
    if bs == [] then [] else Flatten(bs[..|bs| - 1]) + bs[|bs| - 1].orders
  }

  lemma FlattenPush(bs: seq<Batch>, b: Batch)
    ensures Flatten(bs + [b]) == Flatten(bs) + b.orders
  {
    assert (bs + [b])[..|bs|] == bs;
  }

  lemma {:induction false} FlattenPop(bs: seq<Batch>)
    requires bs != []
    ensures Flatten(bs) == bs[0].orders + Flatten(bs[1..])
  {
    var n := |bs| - 1;
    if n == 0 {
      assert bs[..n] == [] && bs[1..] == [];
    } else {
      var middle := bs[1..n];
      assert bs[..n][0] == bs[0] && bs[..n][1..] == middle && bs[1..] == middle + [bs[n]];
      FlattenPop(bs[..n]);
      FlattenPush(middle, bs[n]);
      ConcatAssociates(bs[0].orders, Flatten(middle), bs[n].orders);
    }
  }

  /** How often a page number was put into the channel. */
  function Occurrences(bs: seq<Batch>, page: nat): nat {
    if bs == [] then 0 else Occurrences(bs[..|bs| - 1], page) + if bs[|bs| - 1].page == page then 1 else 0
  }

  lemma OccurrencesPush(bs: seq<Batch>, b: Batch)
    ensures forall page :: Occurrences(bs + [b], page) == Occurrences(bs, page) + if b.page == page then 1 else 0
  {
    assert (bs + [b])[..|bs|] == bs;
  }

  function SpendAll(fetches: seq<seq<Exchange>>): nat {
    if fetches == [] then 0 else SpendAll(fetches[..|fetches| - 1]) + Spend(fetches[|fetches| - 1])
  }

  lemma SpendAllPush(fetches: seq<seq<Exchange>>, exs: seq<Exchange>)
    ensures SpendAll(fetches + [exs]) == SpendAll(fetches) + Spend(exs)
  {
    assert (fetches + [exs])[..|fetches|] == fetches;
  }

  // ----- The invariant -----

  ghost predicate MetaMatches(meta: Meta, first: Page) {
    meta.pages == first.pages && meta.expires == first.expires && meta.lastModified == first.lastModified
  }

  /** Control: which phases can meet, and how the sweep's own variables relate. */
  ghost predicate Control(s: State) {
    && |s.channel| <= CHANNEL_CAPACITY
    && (s.copier.Copying? ==> s.copier.idx <= |s.copier.batch|)
    && (s.copier.Copied? ==> s.sweeper.Returned? && s.channel == [])
    && (!s.runner.AwaitingCopy? ==> s.copier.Copied? || (s.copier.CopyFailed? && s.cancelled))
    && (s.runner.Joined? ==> s.sweeper.Returned?)
    && (s.staging == match s.copier
                     case Acquiring => None
                     case Truncating => None
                     case Copying(_, _, _) => Some([])
                     case Copied(rows) => Some(rows)
                     case CopyFailed(_) => if s.staging.Some? then Some([]) else None)
    && match s.sweeper
       case Starting => s.sent == [] && s.channel == [] && s.fetches == [] && s.meta.orderCount == 0
       case FetchingFirst => s.sent == [] && s.channel == [] && s.fetches == [] && s.meta.orderCount == 0
       case SendingFirst(first) =>
         s.sent == [] && s.channel == [] && |s.fetches| == 1 && s.meta.orderCount == 0 && MetaMatches(s.meta, first)
       case Working(crew) =>
         && MetaMatches(s.meta, crew.first)
         && |crew.workers| == crew.first.pages - 1 >= 1
         && s.meta.orderCount == |crew.first.orders|
         && (crew.failed <==> exists w <- crew.workers :: w.Failed?)
       case Returned(_, _) => true
  }

  /** What the copier has taken from the channel: the rows streamed and the rest of the batch in hand. */
  function Taken(c: Copier): seq<Order> {
    match c
    case Copying(rows, batch, idx) => if idx <= |batch| then rows + batch[idx..] else rows
    case Copied(rows) => rows
    case _ => []
  }

  /** Streaming: unless the copy failed, what the copier has taken and the channel are together
      everything sent, in the order it was sent. */
  ghost predicate Streaming(s: State) {
    s.copier.CopyFailed? || Taken(s.copier) + Flatten(s.channel) == Flatten(s.sent)
  }

  ghost predicate BatchOfPage(b: Batch, pages: seq<Page>) {
    1 <= b.page <= |pages| && b.orders == pages[b.page - 1].orders
  }

  /** Each page of the set was put into the channel exactly once, with its own orders. */
  ghost predicate EachPageOnce(sent: seq<Batch>, pages: seq<Page>) {
    && (forall p: nat :: Occurrences(sent, p) == if 1 <= p <= |pages| then 1 else 0)
    && (forall b <- sent :: BatchOfPage(b, pages))
    && multiset(Flatten(sent)) == RowsOf(pages)
  }

  /** The worker of page p has sent it. */
  predicate PageSent(ws: seq<Worker>, p: nat) {
    2 <= p < |ws| + 2 && ws[p - 2].Sent?
  }

  ghost predicate BatchOfCrew(b: Batch, crew: Crew) {
    || (b.page == 1 && b.orders == crew.first.orders)
    || (PageSent(crew.workers, b.page) && b.orders == crew.workers[b.page - 2].page.orders)
  }

  ghost predicate CrewSentOnce(sent: seq<Batch>, crew: Crew) {
    && (forall p: nat :: Occurrences(sent, p) == if p == 1 || PageSent(crew.workers, p) then 1 else 0)
    && (forall b <- sent :: BatchOfCrew(b, crew))
    && multiset(Flatten(sent)) == multiset(crew.first.orders) + SentRows(crew.workers)
  }

  /** One snapshot: every page carries the same Last-Modified and the same X-Pages, the set is as long
      as that X-Pages says, and it expires when its first page does. */
  ghost predicate OneSnapshot(pages: seq<Page>, meta: Meta) {
    && |pages| == meta.pages >= 1 && pages[0].expires == meta.expires
    && forall p <- pages :: p.lastModified == meta.lastModified && p.pages == meta.pages
  }

  ghost predicate Delivery(s: State) {
    match s.sweeper
    case Working(crew) => CrewSentOnce(s.sent, crew)
    case Returned(None, pages) => EachPageOnce(s.sent, pages)
    case _ => true
  }

  /** Accounts: the snapshot checks and the order count. */
  ghost predicate Accounts(s: State) {
    match s.sweeper
    case Working(crew) =>
      && (!crew.failed ==> crew.count == SumOf(crew.workers, FetchedRows))
      && (!crew.mismatch && !crew.pagesGrew ==>
            forall w <- crew.workers :: w.Sending? || w.Sent? ==>
                                          && w.page.lastModified == crew.first.lastModified
                                          && w.page.pages == crew.first.pages)
    case Returned(None, pages) => OneSnapshot(pages, s.meta) && s.meta.orderCount == |RowsOf(pages)|
    case _ => true
  }

  ghost predicate DisagreesWith(w: Worker, first: Page) {
    (w.Sending? || w.Sent?) && (w.page.lastModified != first.lastModified || w.page.pages != first.pages)
  }

  /** Rejection: while no worker has failed, the mismatch flags are up only because some worker holds
      a page that disagrees with page 1. */
  ghost predicate Rejection(s: State) {
    match s.sweeper
    case Working(crew) =>
      !crew.failed && (crew.mismatch || crew.pagesGrew) ==> exists w <- crew.workers :: DisagreesWith(w, crew.first)
    case _ => true
  }

  ghost predicate AllAttempts(fetches: seq<seq<Exchange>>, attempts: nat) {
    forall exs <- fetches :: Attempts(exs, attempts)
  }

  ghost predicate CrewSpending(meta: Meta, crew: Crew, fetches: seq<seq<Exchange>>) {
    && meta.tokens + crew.tokens == SpendAll(fetches)
    && |fetches| + SumOf(crew.workers, IsFetching) == meta.pages
  }

  /** Spending: every token is the cost of a recorded exchange, page by page, within the attempts
      allowed; more than page 1 is fetched only if the page set fitted the budget. */
  ghost predicate Spending(s: State) {
    && AllAttempts(s.fetches, s.cfg.pageAttempts)
    && (|s.fetches| > 1 ==> Fits(s.budget, (s.meta.pages - 1) * TokenCost(STATUS_OK), s.cfg.reserve))
    && match s.sweeper
       case Starting => s.meta.tokens == 0
       case FetchingFirst => s.meta.tokens == 0
       case SendingFirst(_) =>
         && s.meta.tokens == SpendAll(s.fetches)
         && Fits(s.budget, (s.meta.pages - 1) * TokenCost(STATUS_OK), s.cfg.reserve)
       case Working(crew) =>
         && CrewSpending(s.meta, crew, s.fetches)
         && Fits(s.budget, (s.meta.pages - 1) * TokenCost(STATUS_OK), s.cfg.reserve)
       case Returned(err, _) =>
         && s.meta.tokens == SpendAll(s.fetches)
         && |s.fetches| <= Max(1, s.meta.pages)
         && (err == Some(Deferred) ==> |s.fetches| <= 1 && s.sent == [])
  }

  ghost predicate Inv(s: State) {
    Control(s) && Streaming(s) && Delivery(s) && Accounts(s) && Rejection(s) && Spending(s)
  }

  // ----- Every step keeps it -----

  lemma FailedAfterUpdate(ws: seq<Worker>, i: nat, w: Worker)
    requires i < |ws| && !ws[i].Failed?
    ensures (exists x <- ws[i := w] :: x.Failed?) <==> (w.Failed? || exists x <- ws :: x.Failed?)
  {
    var us := ws[i := w];
    assert us[i] == w;
    if x :| x in ws && x.Failed? {
      var k :| 0 <= k < |ws| && ws[k] == x;
      assert us[k] == x;
    }
  }

  /** The steps of the sweep goroutines; the others belong to the copier, the cycle and the process. */
  predicate SweepStep(a: Action) {
    || a.CheckFloor? || a.FirstFetched? || a.FirstSent? || a.FirstAborted?
    || a.WorkerFetched? || a.WorkerSent? || a.WorkerAborted? || a.SweepReturns?
  }

  lemma OtherStepsLeaveTheSweep(a: Action, s: State)
    requires Enabled(a, s) && !SweepStep(a)
    ensures var s' := Apply(a, s);
            && s'.sweeper == s.sweeper && s'.sent == s.sent && s'.meta == s.meta
            && s'.fetches == s.fetches && s'.budget == s.budget && s'.cfg == s.cfg
  {
  }

  predicate WorkerStep(a: Action) {
    a.WorkerFetched? || a.WorkerSent? || a.WorkerAborted?
  }

  lemma WorkerKeepsControl(a: Action, s: State)
    requires Control(s) && Enabled(a, s) && WorkerStep(a)
    ensures Control(Apply(a, s))
  {
    var crew, crew' := s.sweeper.crew, Apply(a, s).sweeper.crew;
    FailedAfterUpdate(crew.workers, a.i, crew'.workers[a.i]);
    assert crew'.workers == crew.workers[a.i := crew'.workers[a.i]];
  }

  lemma SweepKeepsControl(a: Action, s: State)
    requires Control(s) && Enabled(a, s) && SweepStep(a)
    ensures Control(Apply(a, s))
  {
    if WorkerStep(a) {
      WorkerKeepsControl(a, s);
    }
  }

  lemma CopyKeepsControl(a: Action, s: State)
    requires Control(s) && Enabled(a, s) && !SweepStep(a)
    ensures Control(Apply(a, s))
  {
    OtherStepsLeaveTheSweep(a, s);
  }

  lemma StreamPush(taken: seq<Order>, channel: seq<Batch>, sent: seq<Batch>, b: Batch)
    requires taken + Flatten(channel) == Flatten(sent)
    ensures taken + Flatten(channel + [b]) == Flatten(sent + [b])
  {
    FlattenPush(channel, b);
    FlattenPush(sent, b);
    ConcatAssociates(taken, Flatten(channel), b.orders);
  }

  lemma StreamPop(rows: seq<Order>, channel: seq<Batch>)
    requires channel != []
    ensures rows + channel[0].orders[0..] + Flatten(channel[1..]) == rows + Flatten(channel)
  {
    FlattenPop(channel);
    assert channel[0].orders[0..] == channel[0].orders;
    ConcatAssociates(rows, channel[0].orders, Flatten(channel[1..]));
  }

  lemma StreamRow(rows: seq<Order>, batch: seq<Order>, idx: nat)
    requires idx < |batch|
    ensures rows + batch[idx..] == rows + [batch[idx]] + batch[idx + 1..]
  {
  }

  lemma PushKeepsStreaming(s: State, b: Batch)
    requires Streaming(s)
    ensures Streaming(Push(s, b))
  {
    if !s.copier.CopyFailed? {
      StreamPush(Taken(s.copier), s.channel, s.sent, b);
    }
  }

  lemma SweepKeepsStreaming(a: Action, s: State)
    requires Streaming(s) && Enabled(a, s) && SweepStep(a)
    ensures Streaming(Apply(a, s))
  {
    match a
    case FirstSent => PushKeepsStreaming(s, Batch(1, s.sweeper.first.orders));
    case WorkerSent(i) => PushKeepsStreaming(s, Batch(i + 2, s.sweeper.crew.workers[i].page.orders));
    case _ =>
  }

  lemma CopyKeepsStreaming(a: Action, s: State)
    requires Control(s) && Streaming(s) && Enabled(a, s) && !SweepStep(a)
    ensures Streaming(Apply(a, s))
  {
    var c, c' := s.copier, Apply(a, s).copier;
    match a
    case BatchReceived =>
      StreamPop(c.rows, s.channel);
      assert c.batch[c.idx..] == [] && c.rows + [] == c.rows;
    case RowStaged =>
      StreamRow(c.rows, c.batch, c.idx);
      assert Taken(c') == Taken(c);
    case CopyEnds =>
      assert c.batch[c.idx..] == [] && c.rows + [] == c.rows;
    case _ =>
  }

  lemma CrewSends(sent: seq<Batch>, crew: Crew, i: nat)
    requires CrewSentOnce(sent, crew) && i < |crew.workers| && crew.workers[i].Sending?
    ensures var p := crew.workers[i].page;
            CrewSentOnce(sent + [Batch(i + 2, p.orders)], crew.(workers := crew.workers[i := Sent(p)]))
  {
    var p := crew.workers[i].page;
    var b, crew' := Batch(i + 2, p.orders), crew.(workers := crew.workers[i := Sent(p)]);
    CrewSendsItsPage(sent, crew, i, b, crew');
    FlattenPush(sent, b);
    SentRowsUpdate(crew.workers, i, Sent(p));
    assert multiset(Flatten(sent + [b])) == multiset(Flatten(sent)) + multiset(p.orders);
  }

  lemma CrewSendsItsPage(sent: seq<Batch>, crew: Crew, i: nat, b: Batch, crew': Crew)
    requires CrewSentOnce(sent, crew) && i < |crew.workers| && crew.workers[i].Sending?
    requires b == Batch(i + 2, crew.workers[i].page.orders)
    requires crew' == crew.(workers := crew.workers[i := Sent(crew.workers[i].page)])
    ensures forall x <- sent + [b] :: BatchOfCrew(x, crew')
    ensures forall p: nat ::
              Occurrences(sent + [b], p) == if p == 1 || PageSent(crew'.workers, p) then 1 else 0
  {
    OccurrencesPush(sent, b);
    forall x <- sent + [b]
      ensures BatchOfCrew(x, crew')
    {
      if x != b {
        assert x in sent && BatchOfCrew(x, crew);
      }
    }
    forall p: nat
      ensures Occurrences(sent + [b], p) == if p == 1 || PageSent(crew'.workers, p) then 1 else 0
    {
      assert Occurrences(sent + [b], p) == Occurrences(sent, p) + if b.page == p then 1 else 0;
      assert PageSent(crew'.workers, p) <==> p == i + 2 || PageSent(crew.workers, p);
    }
  }

  lemma SameSent(ws: seq<Worker>, i: nat, w: Worker)
    requires i < |ws| && !ws[i].Sent? && !w.Sent?
    ensures forall p :: PageSent(ws[i := w], p) <==> PageSent(ws, p)
    ensures forall p :: PageSent(ws, p) ==> ws[i := w][p - 2] == ws[p - 2]
    ensures SentRows(ws[i := w]) == SentRows(ws)
  {
    SentRowsUpdate(ws, i, w);
  }

  lemma CrewChanges(sent: seq<Batch>, crew: Crew, i: nat, w: Worker, crew': Crew)
    requires CrewSentOnce(sent, crew) && i < |crew.workers| && !crew.workers[i].Sent? && !w.Sent?
    requires crew'.workers == crew.workers[i := w] && crew'.first == crew.first
    ensures CrewSentOnce(sent, crew')
  {
    SameSent(crew.workers, i, w);
    forall x <- sent
      ensures BatchOfCrew(x, crew')
    {
      assert BatchOfCrew(x, crew);
    }
  }

  lemma {:induction false} DeliveredPagesAre(ws: seq<Worker>)
    requires forall w <- ws :: w.Sent?
    ensures |DeliveredPages(ws)| == |ws|
    ensures forall i :: 0 <= i < |ws| ==> DeliveredPages(ws)[i] == ws[i].page
  {
    if ws != [] {
      DeliveredPagesAre(ws[..|ws| - 1]);
    }
  }

  lemma RowsOfPush(pages: seq<Page>, p: Page)
    ensures RowsOf(pages + [p]) == RowsOf(pages) + multiset(p.orders)
  {
    assert (pages + [p])[..|pages|] == pages;
  }

  lemma {:induction false} RowsOfDelivered(first: Page, ws: seq<Worker>)
    requires forall w <- ws :: w.Sent?
    ensures RowsOf([first] + DeliveredPages(ws)) == multiset(first.orders) + SentRows(ws)
  {
    if ws == [] {
      OnePage(first);
      assert [first] + DeliveredPages(ws) == [first];
    } else {
      var n := |ws| - 1;
      var p, front := ws[n].page, [first] + DeliveredPages(ws[..n]);
      assert ws[n] in ws;
      RowsOfDelivered(first, ws[..n]);
      RowsOfPush(front, p);
      assert [first] + DeliveredPages(ws) == front + [p];
      Regroup(RowsOf(front), multiset(first.orders), SentRows(ws[..n]), multiset(p.orders));
    }
  }

  lemma {:induction false} SentRowsCount(ws: seq<Worker>)
    requires forall w <- ws :: w.Sent?
    ensures |SentRows(ws)| == SumOf(ws, FetchedRows)
  {
    if ws != [] {
      assert ws[|ws| - 1] in ws;
      SentRowsCount(ws[..|ws| - 1]);
    }
  }

  lemma Regroup(rows: multiset<Order>, a: multiset<Order>, b: multiset<Order>, c: multiset<Order>)
    requires rows == a + b
    ensures rows + c == a + (b + c)
  {
  }

  lemma CrewDelivers(sent: seq<Batch>, crew: Crew)
    requires CrewSentOnce(sent, crew) && forall w <- crew.workers :: w.Sent?
    ensures EachPageOnce(sent, [crew.first] + DeliveredPages(crew.workers))
  {
    DeliveredPagesAre(crew.workers);
    RowsOfDelivered(crew.first, crew.workers);
    AllPagesSent(crew.workers);
    CrewBatchesArePages(sent, crew);
  }

  lemma AllPagesSent(ws: seq<Worker>)
    requires forall w <- ws :: w.Sent?
    ensures forall p: nat :: PageSent(ws, p) <==> 2 <= p <= |ws| + 1
  {
    assert forall j :: 0 <= j < |ws| ==> ws[j] in ws;
  }

  lemma CrewBatchesArePages(sent: seq<Batch>, crew: Crew)
    requires (forall b <- sent :: BatchOfCrew(b, crew)) && forall w <- crew.workers :: w.Sent?
    ensures forall b <- sent :: BatchOfPage(b, [crew.first] + DeliveredPages(crew.workers))
  {
    var pages := [crew.first] + DeliveredPages(crew.workers);
    DeliveredPagesAre(crew.workers);
    forall b <- sent
      ensures BatchOfPage(b, pages)
    {
      assert BatchOfCrew(b, crew);
      assert 2 <= b.page ==> pages[b.page - 1] == DeliveredPages(crew.workers)[b.page - 2];
    }
  }

  lemma AllSentUnlessFailed(s: State)
    requires Control(s) && Enabled(SweepReturns, s) && !s.sweeper.crew.failed
    ensures forall w <- s.sweeper.crew.workers :: w.Sent?
  {
    forall w <- s.sweeper.crew.workers
      ensures w.Sent?
    {
      assert Landed(w);
    }
  }

  lemma {:induction false} NothingSent(ws: seq<Worker>)
    requires forall w <- ws :: w.Fetching?
    ensures SentRows(ws) == multiset{} && SumOf(ws, FetchedRows) == 0 && SumOf(ws, IsFetching) == |ws|
  {
    if ws != [] {
      assert ws[|ws| - 1] in ws;
      NothingSent(ws[..|ws| - 1]);
    }
  }

  lemma FirstBatch(first: Page)
    ensures var sent := [Batch(1, first.orders)];
            && Flatten(sent) == first.orders
            && forall p: nat :: Occurrences(sent, p) == if p == 1 then 1 else 0
  {
    var b := Batch(1, first.orders);
    OccurrencesPush([], b);
    FlattenPush([], b);
    assert [] + [b] == [b];
  }

  lemma FirstPageAlone(first: Page)
    ensures EachPageOnce([Batch(1, first.orders)], [first])
  {
    FirstBatch(first);
    OnePage(first);
  }

  lemma FirstPageOfCrew(crew: Crew)
    requires forall w <- crew.workers :: w.Fetching?
    ensures CrewSentOnce([Batch(1, crew.first.orders)], crew)
  {
    FirstBatch(crew.first);
    NothingSent(crew.workers);
    assert BatchOfCrew(Batch(1, crew.first.orders), crew);
    assert forall i :: 0 <= i < |crew.workers| ==> crew.workers[i] in crew.workers;
  }

  lemma FirstSendDelivers(s: State)
    requires Control(s) && Enabled(FirstSent, s)
    ensures Delivery(Apply(FirstSent, s))
  {
    var first := s.sweeper.first;
    assert s.sent + [Batch(1, first.orders)] == [Batch(1, first.orders)];
    if first.pages == 1 {
      FirstPageAlone(first);
    } else {
      FirstPageOfCrew(Apply(FirstSent, s).sweeper.crew);
    }
  }

  lemma OnePage(first: Page)
    ensures RowsOf([first]) == multiset(first.orders) && |RowsOf([first])| == |first.orders|
  {
    assert [first][..0] == [];
  }

  lemma FirstSendCounts(s: State)
    requires Control(s) && Enabled(FirstSent, s)
    ensures Accounts(Apply(FirstSent, s))
  {
    if s.sweeper.first.pages == 1 {
      OnePage(s.sweeper.first);
    } else {
      NothingSent(Apply(FirstSent, s).sweeper.crew.workers);
    }
  }

  lemma WorkerFetchKeepsDelivery(i: nat, exs: seq<Exchange>, s: State)
    requires Delivery(s) && Enabled(WorkerFetched(i, exs), s)
    ensures Delivery(Apply(WorkerFetched(i, exs), s))
  {
    var crew' := AfterWorkerFetch(s.sweeper.crew, i, exs);
    CrewChanges(s.sent, s.sweeper.crew, i, crew'.workers[i], crew');
  }

  lemma WorkerSendKeepsDelivery(i: nat, s: State)
    requires Delivery(s) && Enabled(WorkerSent(i), s)
    ensures Delivery(Apply(WorkerSent(i), s))
  {
    var crew, s' := s.sweeper.crew, Apply(WorkerSent(i), s);
    var p := crew.workers[i].page;
    assert s'.sent == s.sent + [Batch(i + 2, p.orders)];
    assert s'.sweeper == Working(crew.(workers := crew.workers[i := Sent(p)]));
    CrewSends(s.sent, crew, i);
  }

  lemma WorkerAbortKeepsDelivery(i: nat, s: State)
    requires Delivery(s) && Enabled(WorkerAborted(i), s)
    ensures Delivery(Apply(WorkerAborted(i), s))
  {
    CrewChanges(s.sent, s.sweeper.crew, i, Failed, Apply(WorkerAborted(i), s).sweeper.crew);
  }

  lemma ReturnKeepsDelivery(s: State)
    requires Control(s) && Delivery(s) && Enabled(SweepReturns, s)
    ensures Delivery(Apply(SweepReturns, s))
  {
    if !s.sweeper.crew.failed {
      AllSentUnlessFailed(s);
      CrewDelivers(s.sent, s.sweeper.crew);
    }
  }

  lemma DeliveryKept(a: Action, s: State)
    requires Control(s) && Delivery(s) && Enabled(a, s) && SweepStep(a)
    ensures Delivery(Apply(a, s))
  {
    match a
    case CheckFloor =>
    case FirstFetched(_) =>
    case FirstSent => FirstSendDelivers(s);
    case FirstAborted =>
    case WorkerFetched(i, exs) => WorkerFetchKeepsDelivery(i, exs, s);
    case WorkerSent(i) => WorkerSendKeepsDelivery(i, s);
    case WorkerAborted(i) => WorkerAbortKeepsDelivery(i, s);
    case SweepReturns => ReturnKeepsDelivery(s);
  }

  lemma WorkerFetchKeepsAccounts(i: nat, exs: seq<Exchange>, s: State)
    requires Accounts(s) && Enabled(WorkerFetched(i, exs), s)
    ensures Accounts(Apply(WorkerFetched(i, exs), s))
  {
    SumUpdate(s.sweeper.crew.workers, i, AfterWorkerFetch(s.sweeper.crew, i, exs).workers[i], FetchedRows);
  }

  lemma ReturnKeepsAccounts(s: State)
    requires Control(s) && Accounts(s) && Enabled(SweepReturns, s)
    ensures Accounts(Apply(SweepReturns, s))
  {
    var crew := s.sweeper.crew;
    if !crew.failed && !crew.mismatch && !crew.pagesGrew {
      AllSentUnlessFailed(s);
      DeliveredPagesAre(crew.workers);
      RowsOfDelivered(crew.first, crew.workers);
      SentRowsCount(crew.workers);
      var pages := [crew.first] + DeliveredPages(crew.workers);
      forall p <- pages
        ensures p.lastModified == s.meta.lastModified && p.pages == s.meta.pages
      {
        var k :| 0 <= k < |pages| && pages[k] == p;
        if k > 0 {
          assert crew.workers[k - 1] in crew.workers;
        }
      }
    }
  }

  lemma AccountsKept(a: Action, s: State)
    requires Control(s) && Accounts(s) && Enabled(a, s) && SweepStep(a)
    ensures Accounts(Apply(a, s))
  {
    match a
    case CheckFloor =>
    case FirstFetched(_) =>
    case FirstSent => FirstSendCounts(s);
    case FirstAborted =>
    case WorkerFetched(i, exs) => WorkerFetchKeepsAccounts(i, exs, s);
    case WorkerSent(i) =>
      var ws := s.sweeper.crew.workers;
      SumUpdate(ws, i, Sent(ws[i].page), FetchedRows);
    case WorkerAborted(_) =>
    case SweepReturns => ReturnKeepsAccounts(s);
  }

  lemma DisagreementAfterUpdate(ws: seq<Worker>, i: nat, w: Worker, first: Page)
    requires i < |ws|
    requires DisagreesWith(w, first) || (!DisagreesWith(ws[i], first) && exists x <- ws :: DisagreesWith(x, first))
    ensures exists x <- ws[i := w] :: DisagreesWith(x, first)
  {
    var us := ws[i := w];
    assert us[i] == w;
    if !DisagreesWith(w, first) {
      var x :| x in ws && DisagreesWith(x, first);
      var k :| 0 <= k < |ws| && ws[k] == x;
      assert us[k] == x;
    }
  }

  lemma WorkerKeepsRejection(a: Action, s: State)
    requires Control(s) && Rejection(s) && Enabled(a, s) && (a.WorkerFetched? || a.WorkerSent?)
    ensures Rejection(Apply(a, s))
  {
    var crew := s.sweeper.crew;
    var crew' := Apply(a, s).sweeper.crew;
    if !crew'.failed && (crew'.mismatch || crew'.pagesGrew) {
      if a.WorkerSent? && DisagreesWith(crew.workers[a.i], crew.first) {
        assert DisagreesWith(crew'.workers[a.i], crew.first);
      }
      DisagreementAfterUpdate(crew.workers, a.i, crew'.workers[a.i], crew.first);
    }
  }

  lemma RejectionKept(a: Action, s: State)
    requires Control(s) && Rejection(s) && Enabled(a, s) && SweepStep(a)
    ensures Rejection(Apply(a, s))
  {
    if a.WorkerFetched? || a.WorkerSent? {
      WorkerKeepsRejection(a, s);
    }
  }

  lemma OneFetch(exs: seq<Exchange>, attempts: nat)
    requires Attempts(exs, attempts)
    ensures AllAttempts([exs], attempts) && SpendAll([exs]) == Spend(exs)
  {
    SpendAllPush([], exs);
    assert [] + [exs] == [exs];
  }

  lemma FirstFetchKeepsSpending(exs: seq<Exchange>, s: State)
    requires Control(s) && Spending(s) && Enabled(FirstFetched(exs), s)
    ensures Spending(Apply(FirstFetched(exs), s))
  {
    OneFetch(exs, s.cfg.pageAttempts);
  }

  lemma FirstSendKeepsSpending(s: State)
    requires Control(s) && Spending(s) && Enabled(FirstSent, s)
    ensures Spending(Apply(FirstSent, s))
  {
    if s.sweeper.first.pages > 1 {
      NothingSent(Apply(FirstSent, s).sweeper.crew.workers);
    }
  }

  lemma FetchesPush(fetches: seq<seq<Exchange>>, exs: seq<Exchange>, attempts: nat)
    requires AllAttempts(fetches, attempts) && Attempts(exs, attempts)
    ensures AllAttempts(fetches + [exs], attempts)
  {
  }

  lemma FetchChangesOneWorker(crew: Crew, i: nat, exs: seq<Exchange>)
    requires i < |crew.workers| && exs != []
    ensures var crew' := AfterWorkerFetch(crew, i, exs);
            && crew'.tokens == crew.tokens + Spend(exs)
            && |crew'.workers| == |crew.workers| && !crew'.workers[i].Fetching?
            && crew'.workers == crew.workers[i := crew'.workers[i]]
  {
  }

  lemma CrewFetches(meta: Meta, crew: Crew, fetches: seq<seq<Exchange>>, i: nat, exs: seq<Exchange>)
    requires i < |crew.workers| && crew.workers[i].Fetching? && exs != []
    requires CrewSpending(meta, crew, fetches)
    ensures CrewSpending(meta, AfterWorkerFetch(crew, i, exs), fetches + [exs])
  {
    FetchChangesOneWorker(crew, i, exs);
    var w := AfterWorkerFetch(crew, i, exs).workers[i];
    SpendAllPush(fetches, exs);
    SumUpdate(crew.workers, i, w, IsFetching);
  }

  lemma WorkerFetchKeepsSpending(i: nat, exs: seq<Exchange>, s: State)
    requires Spending(s) && Enabled(WorkerFetched(i, exs), s)
    ensures Spending(Apply(WorkerFetched(i, exs), s))
  {
    var crew, s' := s.sweeper.crew, Apply(WorkerFetched(i, exs), s);
    CrewFetches(s.meta, crew, s.fetches, i, exs);
    FetchesPush(s.fetches, exs, s.cfg.pageAttempts);
    assert s'.sweeper == Working(AfterWorkerFetch(crew, i, exs)) && s'.fetches == s.fetches + [exs];
    assert s'.meta == s.meta && s'.budget == s.budget && s'.cfg == s.cfg;
  }

  lemma WorkerLandsWithinBudget(a: Action, s: State)
    requires Control(s) && Spending(s) && Enabled(a, s) && (a.WorkerSent? || a.WorkerAborted?)
    ensures Spending(Apply(a, s))
  {
    var ws := s.sweeper.crew.workers;
    SumUpdate(ws, a.i, Apply(a, s).sweeper.crew.workers[a.i], IsFetching);
  }

  lemma SpendingKept(a: Action, s: State)
    requires Control(s) && Spending(s) && Enabled(a, s) && SweepStep(a)
    ensures Spending(Apply(a, s))
  {
    match a
    case CheckFloor =>
    case FirstFetched(exs) => FirstFetchKeepsSpending(exs, s);
    case FirstSent => FirstSendKeepsSpending(s);
    case FirstAborted =>
    case WorkerFetched(i, exs) => WorkerFetchKeepsSpending(i, exs, s);
    case WorkerSent(i) => WorkerLandsWithinBudget(a, s);
    case WorkerAborted(i) => WorkerLandsWithinBudget(a, s);
    case SweepReturns =>
  }

  lemma StepKeepsInv(a: Action, s: State)
    requires Inv(s) && Enabled(a, s)
    ensures Inv(Apply(a, s))
  {
    if SweepStep(a) {
      SweepKeepsControl(a, s);
      SweepKeepsStreaming(a, s);
      DeliveryKept(a, s);
      AccountsKept(a, s);
      RejectionKept(a, s);
      SpendingKept(a, s);
    } else {
      CopyKeepsControl(a, s);
      CopyKeepsStreaming(a, s);
      OtherStepsLeaveTheSweep(a, s);
    }
  }

  /** The invariant holds after every run, whatever the interleaving. */
  lemma {:induction false} RunKeepsInv(acts: seq<Action>, s: State)
    requires Inv(s) && CanRun(acts, s)
    ensures Inv(Run(acts, s))
  {
    if acts != [] {
      var front := acts[..|acts| - 1];
      RunKeepsInv(front, s);
      StepKeepsInv(acts[|acts| - 1], Run(front, s));
    }
  }
}
