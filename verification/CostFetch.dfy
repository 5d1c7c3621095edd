/** The live cost fetch behind the VM export. */
module CostFetch {
  import opened Options
  import opened Text
  import opened Sequences
  import opened ResourceIds
  import opened CostQuery

  // Resource ids are deduplicated, queried in chunks that halve whenever Azure throttles, and
  // merged into one index.

  // ----- Progress --------------------------------------------------------------------------------

  /** The progress and the total in force at a report. */
  datatype Told = Told(current: int, total: int)

  /** The reports lead up to `current` without ever going back or past their totals. */
  predicate Steady(reports: seq<Told>, current: int) {
    reports == [] ||
    (var last := reports[|reports| - 1];
    0 <= last.current <= last.total && last.current <= current && Steady(reports[..|reports| - 1], last.current))
  }

  lemma ReportIsSteady(reports: seq<Told>, current: int, told: Told)
    requires Steady(reports, current) && 0 <= current <= told.current <= told.total
    ensures Steady(reports + [told], told.current)
  {
    assert (reports + [told])[..|reports|] == reports;
    SteadyGrows(reports, current, told.current);
  }

  lemma SteadyGrows(reports: seq<Told>, current: int, more: int)
    requires Steady(reports, current) && current <= more
    ensures Steady(reports, more)
  {
  }

  /** Progress never decreases and never exceeds the total in force, across a change of that
      total too. */
  lemma {:induction false} ProgressNeverRetreats(reports: seq<Told>, current: int, i: nat, j: nat)
    requires Steady(reports, current) && i <= j < |reports|
    ensures 0 <= reports[i].current <= reports[i].total && reports[i].current <= reports[j].current <= current
  {
    var n := |reports| - 1;
    if i < n {
      ProgressNeverRetreats(reports[..n], reports[n].current, i, if j < n then j else i);
    }
  }

  /** What the callback is told, and everything it has been told: `reports` holds every report
      in order. */
  class ExportProgress {
    var current: int
    var total: int
    ghost var reports: seq<Told>

    ghost predicate Valid()
      reads this
    {
      0 <= current <= total && Steady(reports, current)
    }

    constructor (vmCount: nat)
      ensures Valid() && current == 0 && total == 2 * vmCount + 3 && reports == []
    {
      current := 0;
      total := AtLeastOne(2 * vmCount + 3);
      reports := [];
    }

    method Report(advance: nat)
      requires Valid()
      modifies this
      ensures Valid() && total == old(total) && current == Min(total, old(current) + advance)
      ensures reports == old(reports) + [Told(current, total)]
    {
      ghost var before := current;
      if advance != 0 {
        current := Min(total, current + advance);
      }
      ReportIsSteady(reports, before, Told(current, total));
      reports := reports + [Told(current, total)];
    }

    /** The total is recomputed once the chunks can be counted. */
    method Retotal(total: int)
      requires Valid() && current <= AtLeastOne(total)
      modifies this
      ensures Valid() && this.total == AtLeastOne(total) && current == old(current) && reports == old(reports)
    {
      this.total := AtLeastOne(total);
    }
  }

  // ----- The index ---------------------------------------------------------------------------------

  type Index = map<string, int>

  function AddRows(index: Index, rows: seq<CostRow>): Index {
    if rows == [] then index
    else
      var before, row := AddRows(index, rows[..|rows| - 1]), rows[|rows| - 1];
      var key := ResourceKey(row.resource);
      if key != "" then before[key := row.cents] else before
  }

  function AddServed(index: Index, served: seq<Served>): Index {
    if served == [] then index
    else AddRows(AddServed(index, served[..|served| - 1]), served[|served| - 1].rows)
  }

  /** The ids of the served chunks, each with the subscription it was asked for under. */
  function Asked(served: seq<Served>): seq<(string, string)> {
    if served == [] then []
    else Asked(served[..|served| - 1]) + Tag(served[|served| - 1].subscription, served[|served| - 1].chunk)
  }

  /** The chunks of a complete fetch hold each deduplicated id once, and no other. */
  lemma EachIdIsServedOnce(served: seq<Served>, entries: seq<Entry>, q: (string, string))
    requires Asked(served) == TagAll(BySubscription(DedupeAll(entries)))
    ensures multiset(Asked(served))[q] == if Asks(DedupeAll(entries), q.0, q.1) then 1 else 0
  {
    SortingKeepsTags(DedupeAll(entries));
    DedupeAllIsReady(entries);
    ReadyTagsOnce(DedupeAll(entries), q);
  }

  // ----- What is asked for ---------------------------------------------------------------------------

  /** How many ids of a subscription some exchanges have answered. */
  function Done(xs: seq<Exchange>, subscription: string): nat {
    if xs == [] then 0
    else
      var x := xs[|xs| - 1];
      Done(xs[..|xs| - 1], subscription)
      + (if x.subscription == subscription && x.reply.Rows? then |x.chunk| else 0)
  }

  /** How often a subscription was throttled in some exchanges. */
  function Throttles(xs: seq<Exchange>, subscription: string): nat {
    if xs == [] then 0
    else
      var x := xs[|xs| - 1];
      Throttles(xs[..|xs| - 1], subscription) + (if x.subscription == subscription && x.reply.Throttled? then 1 else 0)
  }

  function Halved(size: int, times: nat): (r: int)
    requires size >= 1
    ensures 1 <= r <= size
  {
    if times == 0 then size else AtLeastOne(Halved(size, times - 1) / 2)
  }

  lemma TwiceTimes(h: nat, p: nat)
    ensures (2 * h) * p == 2 * (h * p) == h * (2 * p) && (2 * h + 1) * p == 2 * (h * p) + p
  {
  }

  lemma HalfOfQuotient(size: nat, p: nat)
    requires p >= 1
    ensures size / (2 * p) == (size / p) / 2
  {
    var q, rest := size / p, size % p;
    var h := q / 2;
    assert size == q * p + rest;
    TwiceTimes(h, p);
    if q == 2 * h {
      QuotientIs(size, 2 * p, h, rest);
    } else {
      assert q == 2 * h + 1;
      QuotientIs(size, 2 * p, h, p + rest);
    }
  }

  lemma QuotientIs(size: nat, p: nat, h: nat, rest: nat)
    requires size == h * p + rest && rest < p
    ensures size / p == h
  {
    DivisionBound(size, h, p) by {
      assert (h + 1) * p == h * p + p;
    }
    var q := size / p;
    assert size == q * p + size % p;
    assert (q + 1) * p == q * p + p;
    if q < h {
      ProductGrows(q + 1, h, p);
      assert false;
    }
  }

  /** Halving again and again divides by a power of two, and stops at one. */
  lemma {:induction false} HalvedIsDivided(size: int, times: nat)
    requires size >= 1
    ensures PowerOfTwo(times) >= 1 && Halved(size, times) == AtLeastOne(size / PowerOfTwo(times))
  {
    PowerIsPositive(times);
    if times > 0 {
      HalvedIsDivided(size, times - 1);
      HalfOfQuotient(size, PowerOfTwo(times - 1));
    }
  }

  /** An exchange asks for the ids that follow those already answered, as many as the chunk
      size allows when it has been halved for every throttle of the subscription so far. */
  ghost predicate AsksNext(xs: seq<Exchange>, i: nat, ids: seq<string>, size: int)
    requires i < |xs| && size >= 1
  {
    var done, throttles := Done(xs[..i], xs[i].subscription), Throttles(xs[..i], xs[i].subscription);
    done < |ids| && xs[i].chunk == ids[done..Min(|ids|, done + Halved(size, throttles))]
  }

  /** All exchanges are about one subscription and were begun in time. */
  ghost predicate Script(xs: seq<Exchange>, subscription: string, ids: seq<string>, size: int, deadline: real)
    requires size >= 1
  {
    forall i: nat :: i < |xs| ==>
      xs[i].subscription == subscription && xs[i].at < deadline && AsksNext(xs, i, ids, size)
  }

  /** All exchanges are about one of the subscriptions, and were begun in time. */
  ghost predicate WholeScript(xs: seq<Exchange>, entries: seq<Entry>, size: int, deadline: real)
    requires size >= 1
  {
    forall i: nat :: i < |xs| ==> xs[i].at < deadline && AsksSome(xs, i, entries, size)
  }

  ghost predicate AsksSome(xs: seq<Exchange>, i: nat, entries: seq<Entry>, size: int)
    requires i < |xs| && size >= 1
  {
    exists e :: e in entries && xs[i].subscription == e.0 && AsksNext(xs, i, e.1, size)
  }

  ghost predicate NoneFailed(xs: seq<Exchange>) {
    forall x :: x in xs ==> !x.reply.Failed?
  }

  lemma OneMore(xs: seq<Exchange>, x: Exchange, subscription: string)
    ensures Done(xs + [x], subscription) ==
      Done(xs, subscription) + if x.subscription == subscription && x.reply.Rows? then |x.chunk| else 0
    ensures Throttles(xs + [x], subscription) ==
      Throttles(xs, subscription) + if x.subscription == subscription && x.reply.Throttled? then 1 else 0
  {
    assert (xs + [x])[..|xs|] == xs;
  }

  /** Where the chunk loop of a subscription stands after some exchanges. */
  ghost predicate Standing(xs: seq<Exchange>, subscription: string, ids: seq<string>, size: int, deadline: real,
      offset: nat, chunkSize: int)
    requires size >= 1
  {
    && Script(xs, subscription, ids, size, deadline) && NoneFailed(xs)
    && offset == Done(xs, subscription) && chunkSize == Halved(size, Throttles(xs, subscription))
  }

  lemma AskStays(xs: seq<Exchange>, more: seq<Exchange>, i: nat, ids: seq<string>, size: int)
    requires i < |xs| && size >= 1 && AsksNext(xs, i, ids, size)
    ensures AsksNext(xs + more, i, ids, size) && (xs + more)[i] == xs[i]
  {
    assert (xs + more)[..i] == xs[..i];
  }

  lemma ScriptGoesOn(xs: seq<Exchange>, x: Exchange, ids: seq<string>, size: int, deadline: real, offset: nat,
      chunkSize: int)
    requires size >= 1 && Standing(xs, x.subscription, ids, size, deadline, offset, chunkSize)
    requires offset < |ids| && x.at < deadline && x.chunk == ids[offset..Min(|ids|, offset + chunkSize)]
    ensures Script(xs + [x], x.subscription, ids, size, deadline)
  {
    var more := xs + [x];
    forall i: nat | i < |more|
      ensures more[i].subscription == x.subscription && more[i].at < deadline && AsksNext(more, i, ids, size)
    {
      if i < |xs| {
        AskStays(xs, [x], i, ids, size);
      } else {
        assert more[..i] == xs && more[i] == x;
      }
    }
  }

  lemma HalvedOnce(size: int, times: nat)
    requires size >= 1
    ensures Halved(size, times + 1) == AtLeastOne(Halved(size, times) / 2)
  {
  }

  /** Some exchanges end in a failure, or have none. */
  ghost predicate EndsIn(outcome: Outcome, xs: seq<Exchange>) {
    if outcome.ApiError? then Last(xs, Failed(outcome.status)) && NoneFailed(xs[..|xs| - 1]) else NoneFailed(xs)
  }

  lemma NoneFailedSoFar(xs: seq<Exchange>, x: Exchange)
    requires NoneFailed(xs)
    ensures !x.reply.Failed? ==> NoneFailed(xs + [x])
    ensures x.reply.Failed? ==> EndsIn(ApiError(x.reply.status), xs + [x])
  {
    assert (xs + [x])[..|xs|] == xs;
  }

  lemma StepCounts(xs: seq<Exchange>, x: Exchange, size: int)
    requires size >= 1
    ensures x.reply.Rows? ==>
      && Done(xs + [x], x.subscription) == Done(xs, x.subscription) + |x.chunk|
      && Throttles(xs + [x], x.subscription) == Throttles(xs, x.subscription)
    ensures x.reply.Throttled? ==>
      && Done(xs + [x], x.subscription) == Done(xs, x.subscription)
      && Halved(size, Throttles(xs + [x], x.subscription)) ==
           AtLeastOne(Halved(size, Throttles(xs, x.subscription)) / 2)
  {
    OneMore(xs, x, x.subscription);
    HalvedOnce(size, Throttles(xs, x.subscription));
  }

  lemma ScriptStep(xs: seq<Exchange>, x: Exchange, ids: seq<string>, size: int, deadline: real, offset: nat,
      chunkSize: int)
    requires size >= 1 && Standing(xs, x.subscription, ids, size, deadline, offset, chunkSize)
    requires offset < |ids| && x.at < deadline && x.chunk == ids[offset..Min(|ids|, offset + chunkSize)]
    ensures Script(xs + [x], x.subscription, ids, size, deadline)
    ensures x.reply.Failed? ==> EndsIn(ApiError(x.reply.status), xs + [x])
    ensures x.reply.Throttled? ==>
      Standing(xs + [x], x.subscription, ids, size, deadline, offset, AtLeastOne(chunkSize / 2))
    ensures x.reply.Rows? ==> Standing(xs + [x], x.subscription, ids, size, deadline, offset + |x.chunk|, chunkSize)
  {
    ScriptGoesOn(xs, x, ids, size, deadline, offset, chunkSize);
    NoneFailedSoFar(xs, x);
    StepCounts(xs, x, size);
  }

  lemma {:induction false} OthersDoNotCount(xs: seq<Exchange>, more: seq<Exchange>, subscription: string)
    requires forall x :: x in xs ==> x.subscription != subscription
    ensures Done(xs + more, subscription) == Done(more, subscription)
    ensures Throttles(xs + more, subscription) == Throttles(more, subscription)
    decreases |xs| + |more|
  {
    if more != [] {
      assert (xs + more)[..|xs + more| - 1] == xs + more[..|more| - 1];
      OthersDoNotCount(xs, more[..|more| - 1], subscription);
    } else if xs != [] {
      assert xs + more == xs && xs[|xs| - 1] in xs && forall x :: x in xs[..|xs| - 1] ==> x in xs;
      OthersDoNotCount(xs[..|xs| - 1], [], subscription);
      assert xs[..|xs| - 1] + [] == xs[..|xs| - 1];
    }
  }

  ghost predicate AboutNone(xs: seq<Exchange>, subscription: string) {
    forall x :: x in xs ==> x.subscription != subscription
  }

  /** The script of a further subscription joins that of the ones before. */
  lemma ScriptsJoin(xs: seq<Exchange>, more: seq<Exchange>, before: seq<Entry>, e: Entry, size: int, deadline: real)
    requires size >= 1 && WholeScript(xs, before, size, deadline) && AboutNone(xs, e.0)
    requires Script(more, e.0, e.1, size, deadline)
    ensures WholeScript(xs + more, before + [e], size, deadline)
  {
    var all := xs + more;
    forall i: nat | i < |all| ensures all[i].at < deadline && AsksSome(all, i, before + [e], size) {
      if i < |xs| {
        assert AsksSome(xs, i, before, size);
        var f :| f in before && xs[i].subscription == f.0 && AsksNext(xs, i, f.1, size);
        AskStays(xs, more, i, f.1, size);
        assert f in before + [e];
      } else {
        AskMoves(xs, more, i - |xs|, e.1, size);
        assert e in before + [e];
      }
    }
  }

  lemma AskMoves(xs: seq<Exchange>, more: seq<Exchange>, j: nat, ids: seq<string>, size: int)
    requires j < |more| && size >= 1 && AsksNext(more, j, ids, size) && AboutNone(xs, more[j].subscription)
    ensures AsksNext(xs + more, |xs| + j, ids, size) && (xs + more)[|xs| + j] == more[j]
  {
    assert (xs + more)[..|xs| + j] == xs + more[..j];
    OthersDoNotCount(xs, more[..j], more[j].subscription);
  }

  lemma FewerIsScript(xs: seq<Exchange>, entries: seq<Entry>, n: nat, size: int, deadline: real)
    requires size >= 1 && n <= |entries| && WholeScript(xs, entries[..n], size, deadline)
    ensures WholeScript(xs, entries, size, deadline)
  {
    forall i: nat | i < |xs| ensures xs[i].at < deadline && AsksSome(xs, i, entries, size) {
      assert AsksSome(xs, i, entries[..n], size);
      var e :| e in entries[..n] && xs[i].subscription == e.0 && AsksNext(xs, i, e.1, size);
      assert e in entries;
    }
  }

  /** No exchange so far is about a subscription yet to come. */
  lemma YetToCome(xs: seq<Exchange>, entries: seq<Entry>, size: int, deadline: real, i: nat)
    requires size >= 1 && i < |entries| && WholeScript(xs, entries[..i], size, deadline)
    requires forall j, k :: 0 <= j < k < |entries| ==> entries[j].0 != entries[k].0
    ensures AboutNone(xs, entries[i].0)
  {
    forall x | x in xs ensures x.subscription != entries[i].0 {
      var n: nat :| n < |xs| && xs[n] == x;
      assert AsksSome(xs, n, entries[..i], size);
      var e :| e in entries[..i] && xs[n].subscription == e.0 && AsksNext(xs, n, e.1, size);
      var j :| 0 <= j < i && entries[j] == e;
    }
  }

  lemma ScriptGrows(xs: seq<Exchange>, more: seq<Exchange>, entries: seq<Entry>, i: nat, size: int, deadline: real)
    requires size >= 1 && i < |entries| && WholeScript(xs, entries[..i], size, deadline)
    requires forall j, k :: 0 <= j < k < |entries| ==> entries[j].0 != entries[k].0
    requires Script(more, entries[i].0, entries[i].1, size, deadline)
    ensures WholeScript(xs + more, entries[..i + 1], size, deadline) && WholeScript(xs + more, entries, size, deadline)
  {
    YetToCome(xs, entries, size, deadline, i);
    ScriptsJoin(xs, more, entries[..i], entries[i], size, deadline);
    assert entries[..i + 1] == entries[..i] + [entries[i]];
    FewerIsScript(xs + more, entries, i + 1, size, deadline);
  }

  lemma SortedAreDistinct(entries: seq<Entry>)
    requires Ready(entries)
    ensures forall i, j :: 0 <= i < j < |BySubscription(entries)| ==>
      BySubscription(entries)[i].0 != BySubscription(entries)[j].0
  {
    SortedInOrder(entries);
    KeysStayDistinct(entries, BySubscription(entries));
  }

  // ----- The fetch -----------------------------------------------------------------------------------

  datatype Config = Config(chunkSize: int, interChunkDelay: real, retryBuffer: int)

  datatype Outcome = Complete(index: Index) | TimedOut | ApiError(status: int)

  method SleepOffThrottle(client: CostClient, cfg: Config, reply: Reply)
    requires reply.Throttled?
    modifies client`clock, client`pauses
    ensures client.clock >= old(client.clock) + 1.0
    ensures var told := RetryAfterSeconds(reply.specific, reply.general);
      client.pauses == old(client.pauses) +
        [((if told.Some? then told.value else 1) + if cfg.retryBuffer > 0 then cfg.retryBuffer else 0) as real]
  {
    var retryAfter := RetryAfterSeconds(reply.specific, reply.general);
    var buffer := if cfg.retryBuffer < 0 then 0 else cfg.retryBuffer;
    var delay := (if retryAfter.Some? then retryAfter.value else 1) + buffer;
    client.Sleep(delay as real);
  }

  /** A lookup of any chunk sends on the whole chunk. */
  ghost predicate Whole(subscription: string, ids: seq<string>) {
    forall from, until {:trigger Wanted(subscription, ids[from..until])} :: 0 <= from <= until <= |ids| ==>
      Wanted(subscription, ids[from..until]) == ids[from..until]
  }

  lemma ReadyIsWhole(e: Entry)
    requires ReadyEntry(e)
    ensures Whole(e.0, e.1)
  {
    forall from, until | 0 <= from <= until <= |e.1|
      ensures Wanted(e.0, e.1[from..until]) == e.1[from..until]
    {
      ChunkIsFixed(e.1, from, until);
    }
  }

  lemma SortedAreWhole(entries: seq<Entry>)
    ensures forall e :: e in BySubscription(DedupeAll(entries)) ==> Whole(e.0, e.1)
  {
    var sorted := BySubscription(DedupeAll(entries));
    DedupeAllIsReady(entries);
    SortedInOrder(DedupeAll(entries));
    forall e | e in sorted ensures Whole(e.0, e.1) {
      assert e in multiset(sorted);
      ReadyIsWhole(e);
    }
  }

  lemma ChunkIsWanted(subscription: string, ids: seq<string>, offset: nat, chunk: seq<string>)
    requires Whole(subscription, ids) && offset + |chunk| <= |ids| && chunk == ids[offset..offset + |chunk|]
    ensures Wanted(subscription, chunk) == chunk
  {
    assert Wanted(subscription, ids[offset..offset + |chunk|]) == ids[offset..offset + |chunk|];
  }

  /** The next chunk, in one lookup without retries. */
  method QueryNext(client: CostClient, subscription: string, ids: seq<string>, offset: nat, chunkSize: int)
      returns (chunk: seq<string>, reply: Reply, ghost s: Served, ghost x: Exchange)
    requires client.Valid() && offset < |ids| && chunkSize >= 1
    requires Whole(subscription, ids)
    modifies client
    ensures client.Valid() && client.clock >= old(client.clock) && client.pauses == old(client.pauses)
    ensures client.served == old(client.served) + if reply.Rows? then [s] else []
    ensures client.exchanges == old(client.exchanges) + [x]
    ensures x.at == old(client.clock) && x.subscription == subscription && x.chunk == chunk
    ensures (x.reply.Rows? <==> reply.Rows?) && (!reply.Rows? ==> x.reply == reply)
    ensures 1 <= |chunk| <= chunkSize && chunk == ids[offset..Min(|ids|, offset + chunkSize)]
    ensures offset + |chunk| <= |ids| && chunk == ids[offset..offset + |chunk|]
    ensures reply.Rows? ==> s.subscription == subscription && s.chunk == chunk && s.rows == reply.rows
  {
    chunk := NextChunk(ids, offset, chunkSize);
    ChunkIsWanted(subscription, ids, offset, chunk);
    reply, s, x := QueryChunk(client, subscription, chunk);
  }

  method QueryChunk(client: CostClient, subscription: string, chunk: seq<string>)
      returns (reply: Reply, ghost s: Served, ghost x: Exchange)
    requires client.Valid() && chunk != [] && Wanted(subscription, chunk) == chunk
    modifies client
    ensures client.Valid() && client.clock >= old(client.clock) && client.pauses == old(client.pauses)
    ensures client.served == old(client.served) + if reply.Rows? then [s] else []
    ensures client.exchanges == old(client.exchanges) + [x]
    ensures x.at == old(client.clock) && x.subscription == subscription && x.chunk == chunk
    ensures (x.reply.Rows? <==> reply.Rows?) && (!reply.Rows? ==> x.reply == reply)
    ensures reply.Rows? ==> s.subscription == subscription && s.chunk == chunk && s.rows == reply.rows
  {
    ghost var found, xs;
    reply, found, xs := client.GetCostByResourceIds(subscription, chunk, |chunk|, 1);
    s := Served(subscription, chunk, ItemsOf(found), if reply.Rows? then reply.rows else []);
    x := xs[0];
    assert xs == [x];
  }

  /** What one turn of the chunk loop comes to. */
  datatype Turn = Took(count: nat, merged: Index) | Slept | Refused(status: int)

  function Taken(turn: Turn, s: Served): seq<Served> {
    if turn.Took? then [s] else []
  }

  method TakeTurn(client: CostClient, subscription: string, ids: seq<string>, offset: nat, chunkSize: int, cfg: Config,
      progress: ExportProgress, merged: Index) returns (turn: Turn, ghost s: Served, ghost x: Exchange)
    requires progress.Valid() && client.Valid() && offset < |ids| && chunkSize >= 1
    requires Whole(subscription, ids)
    modifies client, progress
    ensures client.exchanges == old(client.exchanges) + [x]
    ensures x.at == old(client.clock) && x.subscription == subscription
    ensures x.chunk == ids[offset..Min(|ids|, offset + chunkSize)]
    ensures (x.reply.Rows? <==> turn.Took?) && (x.reply.Throttled? <==> turn.Slept?)
    ensures turn.Took? ==> turn.count == |x.chunk|
    ensures turn.Refused? ==> x.reply == Failed(turn.status) && client.pauses == old(client.pauses)
    ensures turn.Slept? ==>
      var told := RetryAfterSeconds(x.reply.specific, x.reply.general);
      client.pauses == old(client.pauses) +
        [((if told.Some? then told.value else 1) + if cfg.retryBuffer > 0 then cfg.retryBuffer else 0) as real]
    ensures turn.Took? ==>
      client.pauses == old(client.pauses) +
        if cfg.interChunkDelay > 0.0 && offset + turn.count < |ids| then [cfg.interChunkDelay] else []
    ensures client.Valid() && client.served == old(client.served) + Taken(turn, s)
    ensures client.clock >= old(client.clock) + if turn.Slept? then 1.0 else 0.0
    ensures progress.Valid() && progress.total == old(progress.total) && old(progress.reports) <= progress.reports
    ensures progress.current == Min(progress.total, old(progress.current) + |Taken(turn, s)|)
    ensures turn.Took? ==>
      && 1 <= turn.count <= chunkSize && offset + turn.count <= |ids|
      && s.subscription == subscription && s.chunk == ids[offset..offset + turn.count]
      && turn.merged == AddRows(merged, s.rows)
  {
    var chunk, reply;
    chunk, reply, s, x := QueryNext(client, subscription, ids, offset, chunkSize);
    match reply {
      case Throttled(_, _) =>
        BackOff(client, cfg, reply, progress);
        turn := Slept;
      case Failed(status) =>
        turn := Refused(status);
      case Rows(rows) =>
        turn := Took(|chunk|, AddRows(merged, rows));
        GoOn(client, cfg, progress, offset + |chunk| < |ids|);
    }
  }

  method BackOff(client: CostClient, cfg: Config, reply: Reply, progress: ExportProgress)
    requires progress.Valid() && reply.Throttled?
    modifies client`clock, client`pauses, progress
    ensures client.clock >= old(client.clock) + 1.0
    ensures var told := RetryAfterSeconds(reply.specific, reply.general);
      client.pauses == old(client.pauses) +
        [((if told.Some? then told.value else 1) + if cfg.retryBuffer > 0 then cfg.retryBuffer else 0) as real]
    ensures progress.Valid() && progress.total == old(progress.total) && progress.current == old(progress.current)
    ensures old(progress.reports) <= progress.reports
  {
    progress.Report(0);
    SleepOffThrottle(client, cfg, reply);
  }

  method GoOn(client: CostClient, cfg: Config, progress: ExportProgress, more: bool)
    requires progress.Valid()
    modifies client`clock, client`pauses, progress
    ensures client.clock >= old(client.clock)
    ensures client.pauses == old(client.pauses) +
      if cfg.interChunkDelay > 0.0 && more then [cfg.interChunkDelay] else []
    ensures progress.Valid() && progress.total == old(progress.total)
    ensures progress.current == Min(progress.total, old(progress.current) + 1)
    ensures old(progress.reports) <= progress.reports
  {
    progress.Report(1);
    PauseBefore(client, cfg, more);
  }

  method PauseBefore(client: CostClient, cfg: Config, more: bool)
    modifies client`clock, client`pauses
    ensures client.clock >= old(client.clock)
    ensures client.pauses == old(client.pauses) +
      if cfg.interChunkDelay > 0.0 && more then [cfg.interChunkDelay] else []
  {
    if cfg.interChunkDelay > 0.0 && more {
      client.Sleep(cfg.interChunkDelay);
    }
  }

  /** The first `offset` ids have been served, in chunks of at most `size`, and merged. */
  ghost predicate Fetched(answered: seq<Served>, subscription: string, ids: seq<string>, offset: nat, size: nat,
      index: Index, merged: Index)
    requires offset <= |ids|
  {
    && Asked(answered) == Tag(subscription, ids[..offset]) && merged == AddServed(index, answered)
    && offset <= Capacity(|answered|, size)
  }

  lemma NothingFetched(subscription: string, ids: seq<string>, size: nat, index: Index)
    ensures Fetched([], subscription, ids, 0, size, index, index)
  {
  }

  lemma ChunkFetched(
      answered: seq<Served>, s: Served, ids: seq<string>, offset: nat, size: nat, index: Index, merged: Index)
    requires offset + |s.chunk| <= |ids| && s.chunk == ids[offset..offset + |s.chunk|] && |s.chunk| <= size
    requires Fetched(answered, s.subscription, ids, offset, size, index, merged)
    ensures Fetched(answered + [s], s.subscription, ids, offset + |s.chunk|, size, index, AddRows(merged, s.rows))
  {
    assert (answered + [s])[..|answered|] == answered;
    assert ids[..offset + |s.chunk|] == ids[..offset] + s.chunk;
    TagAppends(s.subscription, ids[..offset], s.chunk);
  }

  lemma AllFetched(answered: seq<Served>, subscription: string, ids: seq<string>, size: nat, index: Index,
      merged: Index)
    requires Fetched(answered, subscription, ids, |ids|, size, index, merged) && size >= 1
    ensures Asked(answered) == Tag(subscription, ids) && merged == AddServed(index, answered)
    ensures |answered| >= CeilDiv(|ids|, size)
  {
    assert ids[..|ids|] == ids;
    EnoughChunks(|ids|, |answered|, size);
  }

  /** A turn of the chunk loop, with what has been fetched after it. */
  method FetchMore(client: CostClient, subscription: string, ids: seq<string>, offset: nat, chunkSize: int, cfg: Config,
      progress: ExportProgress, merged: Index, ghost index: Index, ghost size: nat, ghost answered: seq<Served>)
      returns (turn: Turn, ghost more: seq<Served>, ghost x: Exchange)
    requires progress.Valid() && client.Valid() && offset < |ids| && 1 <= chunkSize <= size
    requires Whole(subscription, ids) && Fetched(answered, subscription, ids, offset, size, index, merged)
    modifies client, progress
    ensures client.exchanges == old(client.exchanges) + [x]
    ensures x.at == old(client.clock) && x.subscription == subscription
    ensures x.chunk == ids[offset..Min(|ids|, offset + chunkSize)]
    ensures (x.reply.Rows? <==> turn.Took?) && (x.reply.Throttled? <==> turn.Slept?)
    ensures (turn.Took? ==> turn.count == |x.chunk|) && (turn.Refused? ==> x.reply == Failed(turn.status))
    ensures client.Valid() && client.served == old(client.served) + more
    ensures client.clock >= old(client.clock) + if turn.Slept? then 1.0 else 0.0
    ensures progress.Valid() && progress.total == old(progress.total) && old(progress.reports) <= progress.reports
    ensures progress.current == Min(progress.total, old(progress.current) + |more|)
    ensures !turn.Took? ==> more == []
    ensures turn.Took? ==>
      && turn.count >= 1 && offset + turn.count <= |ids|
      && Fetched(answered + more, subscription, ids, offset + turn.count, size, index, turn.merged)
  {
    ghost var s;
    turn, s, x := TakeTurn(client, subscription, ids, offset, chunkSize, cfg, progress, merged);
    more := Taken(turn, s);
    if turn.Took? {
      ChunkFetched(answered, s, ids, offset, size, index, merged);
    }
  }

  /** The chunk loop for one subscription. It ends because each turn either serves at least
      one id or sleeps at least one second of the time left. */
  method FetchSubscription(client: CostClient, subscription: string, ids: seq<string>, cfg: Config, deadline: real,
      progress: ExportProgress, index: Index)
      returns (outcome: Outcome, ghost answered: seq<Served>, ghost xs: seq<Exchange>)
    requires progress.Valid() && client.Valid()
    requires Whole(subscription, ids)
    modifies client, progress
    ensures client.exchanges == old(client.exchanges) + xs && client.clock >= old(client.clock)
    ensures Script(xs, subscription, ids, AtLeastOne(cfg.chunkSize), deadline) && EndsIn(outcome, xs)
    ensures client.Valid() && client.served == old(client.served) + answered
    ensures progress.Valid() && progress.total == old(progress.total) && old(progress.reports) <= progress.reports
    ensures progress.current == Min(progress.total, old(progress.current) + |answered|)
    ensures outcome.TimedOut? ==> client.clock >= deadline
    ensures outcome.Complete? ==>
      && Asked(answered) == Tag(subscription, ids)
      && outcome.index == AddServed(index, answered)
      && |answered| >= CeilDiv(|ids|, AtLeastOne(cfg.chunkSize))
  {
    ghost var size := AtLeastOne(cfg.chunkSize);
    var chunkSize := AtLeastOne(cfg.chunkSize);
    var offset, merged := 0, index;
    answered, xs := [], [];
    NothingFetched(subscription, ids, size, index);
    while offset < |ids|
      invariant 0 <= offset <= |ids| && 1 <= chunkSize <= size
      invariant client.exchanges == old(client.exchanges) + xs && client.clock >= old(client.clock)
      invariant Standing(xs, subscription, ids, size, deadline, offset, chunkSize)
      invariant client.Valid() && client.served == old(client.served) + answered
      invariant progress.Valid() && progress.total == old(progress.total) && old(progress.reports) <= progress.reports
      invariant progress.current == Min(progress.total, old(progress.current) + |answered|)
      invariant Fetched(answered, subscription, ids, offset, size, index, merged)
      decreases |ids| - offset, deadline - client.clock
    {
      if client.clock >= deadline {
        return TimedOut, answered, xs;
      }
      ghost var more, x;
      var turn;
      turn, more, x := FetchMore(client, subscription, ids, offset, chunkSize, cfg, progress, merged, index, size,
        answered);
      Regroup(old(client.served), answered, more);
      Regroup(old(client.exchanges), xs, [x]);
      ScriptStep(xs, x, ids, size, deadline, offset, chunkSize);
      xs := xs + [x];
      match turn {
        case Slept =>
          chunkSize := AtLeastOne(chunkSize / 2);
        case Refused(status) =>
          return ApiError(status), answered, xs;
        case Took(count, after) =>
          answered, merged, offset := answered + more, after, offset + count;
      }
    }
    AllFetched(answered, subscription, ids, size, index, merged);
    outcome := Complete(merged);
  }

  lemma {:induction false} AddServedAppends(index: Index, a: seq<Served>, b: seq<Served>)
    ensures AddServed(index, a + b) == AddServed(AddServed(index, a), b)
    decreases |b|
  {
    if b == [] {
      assert a + b == a;
    } else {
      assert (a + b)[..|a + b| - 1] == a + b[..|b| - 1];
      AddServedAppends(index, a, b[..|b| - 1]);
    }
  }

  lemma {:induction false} AskedAppends(a: seq<Served>, b: seq<Served>)
    ensures Asked(a + b) == Asked(a) + Asked(b)
    decreases |b|
  {
    if b == [] {
      assert a + b == a;
    } else {
      var last := b[|b| - 1];
      assert (a + b)[..|a + b| - 1] == a + b[..|b| - 1];
      AskedAppends(a, b[..|b| - 1]);
      assert Asked(a) + (Asked(b[..|b| - 1]) + Tag(last.subscription, last.chunk)) == Asked(a + b);
    }
  }

  lemma OneServed(index: Index, s: Served)
    ensures Asked([s]) == Tag(s.subscription, s.chunk) && AddServed(index, [s]) == AddRows(index, s.rows)
  {
    assert [s][..0] == [];
  }

  /** The whole fetch. On a normal return the served chunks together are exactly the
      deduplicated ids, one subscription after the other in sorted order; they are at least
      as many as were planned, and progress has advanced once for each. */
  method FetchLiveResourceCostIndex(client: CostClient, entries: seq<Entry>, cfg: Config, deadline: real,
      progress: ExportProgress) returns (outcome: Outcome, ghost answered: seq<Served>, ghost xs: seq<Exchange>)
    requires progress.Valid() && client.Valid()
    modifies client, progress
    ensures client.exchanges == old(client.exchanges) + xs && client.clock >= old(client.clock)
    ensures WholeScript(xs, BySubscription(DedupeAll(entries)), AtLeastOne(cfg.chunkSize), deadline)
    ensures EndsIn(outcome, xs)
    ensures client.Valid() && client.served == old(client.served) + answered
    ensures progress.Valid() && progress.total == old(progress.total) && old(progress.reports) <= progress.reports
    ensures progress.current == Min(progress.total, old(progress.current) + |answered|)
    ensures outcome.TimedOut? ==> client.clock >= deadline
    ensures outcome.Complete? ==>
      && Asked(answered) == TagAll(BySubscription(DedupeAll(entries)))
      && outcome.index == AddServed(map[], answered)
      && |answered| >= ChunkCount(DedupeAll(entries), AtLeastOne(cfg.chunkSize))
  {
    var deduped := DedupeResourceIdsBySubscription(entries);
    SortingKeepsChunks(deduped, AtLeastOne(cfg.chunkSize));
    SortedAreWhole(entries);
    SortedAreDistinct(deduped);
    outcome, answered, xs := FetchAll(client, BySubscription(deduped), cfg, deadline, progress);
  }

  method FetchAll(client: CostClient, deduped: seq<Entry>, cfg: Config, deadline: real,
      progress: ExportProgress) returns (outcome: Outcome, ghost answered: seq<Served>, ghost xs: seq<Exchange>)
    requires progress.Valid() && client.Valid()
    requires forall e :: e in deduped ==> Whole(e.0, e.1)
    requires forall i, j :: 0 <= i < j < |deduped| ==> deduped[i].0 != deduped[j].0
    modifies client, progress
    ensures client.exchanges == old(client.exchanges) + xs && client.clock >= old(client.clock)
    ensures WholeScript(xs, deduped, AtLeastOne(cfg.chunkSize), deadline) && EndsIn(outcome, xs)
    ensures client.Valid() && client.served == old(client.served) + answered
    ensures progress.Valid() && progress.total == old(progress.total) && old(progress.reports) <= progress.reports
    ensures progress.current == Min(progress.total, old(progress.current) + |answered|)
    ensures outcome.TimedOut? ==> client.clock >= deadline
    ensures outcome.Complete? ==>
      && Asked(answered) == TagAll(deduped)
      && outcome.index == AddServed(map[], answered)
      && |answered| >= ChunkCount(deduped, AtLeastOne(cfg.chunkSize))
  {
    var index: Index := map[];
    ghost var size := AtLeastOne(cfg.chunkSize);
    answered, xs := [], [];
    for i := 0 to |deduped|
      invariant client.Valid() && client.clock >= old(client.clock)
      invariant client.exchanges == old(client.exchanges) + xs && client.served == old(client.served) + answered
      invariant progress.Valid() && progress.total == old(progress.total) && old(progress.reports) <= progress.reports
      invariant progress.current == Min(progress.total, old(progress.current) + |answered|)
      invariant Gathered(answered, xs, deduped, i, index, size, deadline)
    {
      assert deduped[i] in deduped;
      ghost var more, ys;
      outcome, more, ys := FetchSubscription(client, deduped[i].0, deduped[i].1, cfg, deadline, progress, index);
      Regroup(old(client.exchanges), xs, ys);
      Regroup(old(client.served), answered, more);
      GatherMore(answered, more, xs, ys, deduped, i, index, outcome, size, deadline);
      answered, xs := answered + more, xs + ys;
      if !outcome.Complete? {
        return;
      }
      index := outcome.index;
    }
    assert deduped[..|deduped|] == deduped;
    outcome := Complete(index);
  }

  /** The first `i` subscriptions have been fetched. */
  ghost predicate Gathered(answered: seq<Served>, xs: seq<Exchange>, entries: seq<Entry>, i: nat, index: Index,
      size: int, deadline: real)
  {
    && size >= 1 && i <= |entries|
    && Asked(answered) == TagAll(entries[..i]) && index == AddServed(map[], answered)
    && |answered| >= ChunkCount(entries[..i], size)
    && WholeScript(xs, entries[..i], size, deadline) && NoneFailed(xs)
  }

  lemma GatherMore(answered: seq<Served>, more: seq<Served>, xs: seq<Exchange>, ys: seq<Exchange>,
      entries: seq<Entry>, i: nat, index: Index, outcome: Outcome, size: int, deadline: real)
    requires Gathered(answered, xs, entries, i, index, size, deadline) && i < |entries|
    requires forall j, k :: 0 <= j < k < |entries| ==> entries[j].0 != entries[k].0
    requires Script(ys, entries[i].0, entries[i].1, size, deadline) && EndsIn(outcome, ys)
    requires outcome.Complete? ==>
      && Asked(more) == Tag(entries[i].0, entries[i].1) && outcome.index == AddServed(index, more)
      && |more| >= CeilDiv(|entries[i].1|, size)
    ensures WholeScript(xs + ys, entries, size, deadline) && EndsIn(outcome, xs + ys)
    ensures outcome.Complete? ==> Gathered(answered + more, xs + ys, entries, i + 1, outcome.index, size, deadline)
  {
    ScriptGrows(xs, ys, entries, i, size, deadline);
    EndsAfter(outcome, xs, ys);
    if outcome.Complete? {
      AnswersGrow(answered, more, entries, i, index, size);
    }
  }

  lemma AnswersGrow(answered: seq<Served>, more: seq<Served>, entries: seq<Entry>, i: nat, index: Index, size: int)
    requires size >= 1 && i < |entries|
    requires Asked(answered) == TagAll(entries[..i]) && index == AddServed(map[], answered)
    requires |answered| >= ChunkCount(entries[..i], size)
    requires Asked(more) == Tag(entries[i].0, entries[i].1) && |more| >= CeilDiv(|entries[i].1|, size)
    ensures Asked(answered + more) == TagAll(entries[..i + 1])
    ensures AddServed(index, more) == AddServed(map[], answered + more)
    ensures |answered + more| >= ChunkCount(entries[..i + 1], size)
  {
    assert entries[..i + 1][..i] == entries[..i];
    AddServedAppends(map[], answered, more);
    AskedAppends(answered, more);
  }

  /** After exchanges without a failure it is the later ones that decide how it ends. */
  lemma EndsAfter(outcome: Outcome, xs: seq<Exchange>, ys: seq<Exchange>)
    requires NoneFailed(xs) && EndsIn(outcome, ys)
    ensures EndsIn(outcome, xs + ys)
  {
    if outcome.ApiError? {
      var all := xs + ys;
      assert all[..|all| - 1] == xs + ys[..|ys| - 1];
    }
  }

  // ----- Prices by id ------------------------------------------------------------------------------------

  function Keys(ids: seq<string>): set<string> {
    set id | id in ids :: ResourceKey(id)
  }

  /** The index that holds the cost of every priced key. */
  function PriceList(keys: set<string>, cost: string -> Option<int>): Index {
    map k | k in keys && k != "" && cost(k).Some? :: cost(k).value
  }

  function RowKeys(rows: seq<CostRow>): set<string> {
    set r | r in rows :: ResourceKey(r.resource)
  }

  /** Rows that name exactly the priced ids that were asked for, at their cost, in whatever
      order, spelling or repetition. */
  ghost predicate PerId(rows: seq<CostRow>, ids: seq<string>, cost: string -> Option<int>) {
    && (forall r :: r in rows ==> cost(ResourceKey(r.resource)) == Some(r.cents))
    && (forall k :: k in RowKeys(rows) <==> k in Keys(ids) && cost(k).Some?)
  }

  lemma PriceListUnion(a: set<string>, b: set<string>, cost: string -> Option<int>)
    ensures PriceList(a + b, cost) == PriceList(a, cost) + PriceList(b, cost)
  {
  }

  lemma RowKeysExtends(rows: seq<CostRow>, row: CostRow)
    ensures RowKeys(rows + [row]) == RowKeys(rows) + {ResourceKey(row.resource)}
  {
  }

  lemma {:induction false} RowsAddPrices(index: Index, rows: seq<CostRow>, cost: string -> Option<int>)
    requires forall r :: r in rows ==> cost(ResourceKey(r.resource)) == Some(r.cents)
    ensures AddRows(index, rows) == index + PriceList(RowKeys(rows), cost)
  {
    if rows == [] {
      assert PriceList(RowKeys(rows), cost) == map[];
    } else {
      var before, row := rows[..|rows| - 1], rows[|rows| - 1];
      var key := ResourceKey(row.resource);
      assert rows == before + [row];
      assert row in rows;
      assert forall r :: r in before ==> r in rows;
      RowsAddPrices(index, before, cost);
      RowKeysExtends(before, row);
      assert RowKeys(rows) == RowKeys(before) + {key};
      PriceListUnion(RowKeys(before), {key}, cost);
      OnePrice(AddRows(index, before), key, cost);
      MergeIsAssociative(index, PriceList(RowKeys(before), cost), PriceList({key}, cost));
    }
  }

  lemma MergeIsAssociative(a: Index, b: Index, c: Index)
    ensures (a + b) + c == a + (b + c)
  {
  }

  lemma OnePrice(index: Index, key: string, cost: string -> Option<int>)
    requires cost(key).Some?
    ensures index + PriceList({key}, cost) == if key == "" then index else index[key := cost(key).value]
  {
  }

  // ----- From the answered items to the rows -----------------------------------------------------------

  function KeyOf(item: CostRow): string {
    ResourceKey(item.resource)
  }

  /** Everything an answer charges to a resource, under whatever spelling. */
  function KeyTotal(items: seq<CostRow>, key: string): int {
    if items == [] then 0
    else
      var last := items[|items| - 1];
      KeyTotal(items[..|items| - 1], key) + (if KeyOf(last) == key then last.cents else 0)
  }

  /** No resource is named in two spellings. */
  predicate OneSpelling(items: seq<CostRow>) {
    forall i, j :: i in items && j in items && KeyOf(i) == KeyOf(j) ==> i.resource == j.resource
  }

  /** The service prices each id on its own: it charges the priced ids among those asked for
      with their cost, each under one spelling, in as many items as it likes. */
  ghost predicate PricedPerId(items: seq<CostRow>, ids: seq<string>, cost: string -> Option<int>) {
    && OneSpelling(items)
    && (forall i :: i in items ==> KeyOf(i) in Keys(ids) && cost(KeyOf(i)) == Some(KeyTotal(items, KeyOf(i))))
    && (forall k :: k in Keys(ids) && cost(k).Some? ==> exists i :: i in items && KeyOf(i) == k)
  }

  lemma {:induction false} SpelledOnceIsWhole(items: seq<CostRow>, name: string)
    requires forall i :: i in items && KeyOf(i) == ResourceKey(name) ==> i.resource == name
    ensures LabelTotal(items, name) == KeyTotal(items, ResourceKey(name))
  {
    if items != [] {
      assert items == items[..|items| - 1] + [items[|items| - 1]];
      SpelledOnceIsWhole(items[..|items| - 1], name);
    }
  }

  lemma PricedRow(items: seq<CostRow>, ids: seq<string>, cost: string -> Option<int>, r: CostRow)
    requires PricedPerId(items, ids, cost) && r in RowsOf(items)
    ensures ResourceKey(r.resource) in Keys(ids) && cost(ResourceKey(r.resource)) == Some(r.cents)
  {
    RowsAreTotals(items);
    var i :| i in items && i.resource == r.resource;
    SpelledOnceIsWhole(items, r.resource);
  }

  lemma PricedIdHasRow(items: seq<CostRow>, ids: seq<string>, cost: string -> Option<int>, key: string)
    requires PricedPerId(items, ids, cost) && key in Keys(ids) && cost(key).Some?
    ensures key in RowKeys(RowsOf(items))
  {
    RowsAreTotals(items);
    var i :| i in items && KeyOf(i) == key;
    assert i.resource in Labels(items);
    assert CostRow(i.resource, LabelTotal(items, i.resource)) in RowsOf(items);
  }

  /** Rows of an answer that prices per id name the priced ids at their cost. */
  lemma PricedRowsArePerId(items: seq<CostRow>, ids: seq<string>, cost: string -> Option<int>)
    requires PricedPerId(items, ids, cost)
    ensures PerId(RowsOf(items), ids, cost)
  {
    forall r | r in RowsOf(items)
      ensures ResourceKey(r.resource) in Keys(ids) && cost(ResourceKey(r.resource)) == Some(r.cents)
    {
      PricedRow(items, ids, cost, r);
    }
    forall k | k in Keys(ids) && cost(k).Some? ensures k in RowKeys(RowsOf(items)) {
      PricedIdHasRow(items, ids, cost, k);
    }
  }

  lemma PerIdAddsPrices(index: Index, rows: seq<CostRow>, ids: seq<string>, cost: string -> Option<int>)
    requires PerId(rows, ids, cost)
    ensures AddRows(index, rows) == index + PriceList(Keys(ids), cost)
  {
    RowsAddPrices(index, rows, cost);
    assert PriceList(RowKeys(rows), cost) == PriceList(Keys(ids), cost);
  }

  lemma {:induction false} LastRowWins(rows: seq<CostRow>, key: string)
    requires key != ""
    ensures key in AddRows(map[], rows) <==> key in RowKeys(rows)
    ensures key in AddRows(map[], rows) ==>
      exists r :: r in rows && ResourceKey(r.resource) == key && r.cents == AddRows(map[], rows)[key]
  {
    if rows != [] {
      var before, last := rows[..|rows| - 1], rows[|rows| - 1];
      assert rows == before + [last];
      RowKeysExtends(before, last);
      LastRowWins(before, key);
      if ResourceKey(last.resource) == key {
        assert last in rows;
      } else if key in AddRows(map[], before) {
        var r :| r in before && ResourceKey(r.resource) == key && r.cents == AddRows(map[], before)[key];
        assert r in rows;
      }
    }
  }

  lemma {:induction false} SmallestRowWins(rows: seq<CostRow>, r: CostRow)
    requires r in rows && ResourceKey(r.resource) != "" && Descending(rows)
    ensures ResourceKey(r.resource) in AddRows(map[], rows) && AddRows(map[], rows)[ResourceKey(r.resource)] <= r.cents
  {
    var before, last := rows[..|rows| - 1], rows[|rows| - 1];
    assert rows == before + [last];
    if ResourceKey(last.resource) == ResourceKey(r.resource) {
      var i :| 0 <= i < |rows| && rows[i] == r;
      assert r.cents >= last.cents;
    } else {
      SmallestRowWins(before, r);
    }
  }

  /** A resource that the service names in several spellings has a row for each, and the
      index keeps the row with the smallest amount. */
  lemma IndexKeepsSmallestSpelling(items: seq<CostRow>, key: string)
    requires key != ""
    ensures var index := AddRows(map[], RowsOf(items));
      && (key in index <==> exists i :: i in items && KeyOf(i) == key)
      && (key in index ==> exists i :: i in items && KeyOf(i) == key && index[key] == LabelTotal(items, i.resource))
      && (forall i :: i in items && KeyOf(i) == key ==> key in index && index[key] <= LabelTotal(items, i.resource))
  {
    var rows, index := RowsOf(items), AddRows(map[], RowsOf(items));
    RowsAreTotals(items);
    LastRowWins(rows, key);
    forall i | i in items && KeyOf(i) == key ensures key in index && index[key] <= LabelTotal(items, i.resource) {
      SmallestRowWins(rows, CostRow(i.resource, LabelTotal(items, i.resource)));
    }
    if key in index {
      var r :| r in rows && ResourceKey(r.resource) == key && r.cents == index[key];
      var i :| i in items && i.resource == r.resource;
      assert KeyOf(i) == key;
    }
  }

  ghost predicate AllPositive(items: seq<CostRow>) {
    forall i :: i in items ==> i.cents > 0
  }

  /** No credits. */
  ghost predicate NoneNegative(items: seq<CostRow>) {
    forall i :: i in items ==> i.cents >= 0
  }

  predicate SpelledAs(items: seq<CostRow>, key: string, name: string) {
    forall i :: i in items && KeyOf(i) == key ==> i.resource == name
  }

  lemma {:induction false} SpellingsAddUp(items: seq<CostRow>, a: string, b: string, key: string)
    requires NoneNegative(items) && a != b && ResourceKey(a) == ResourceKey(b) == key
    ensures 0 <= LabelTotal(items, a) && 0 <= LabelTotal(items, b)
    ensures LabelTotal(items, a) + LabelTotal(items, b) <= KeyTotal(items, key)
  {
    if items != [] {
      var before, last := items[..|items| - 1], items[|items| - 1];
      assert items == before + [last];
      assert last in items && forall i :: i in before ==> i in items;
      SpellingsAddUp(before, a, b, key);
    }
  }

  lemma {:induction false} PositiveTotal(items: seq<CostRow>, item: CostRow)
    requires AllPositive(items) && item in items
    ensures KeyTotal(items, KeyOf(item)) > 0
  {
    var before, last := items[..|items| - 1], items[|items| - 1];
    assert items == before + [last] && last in items && forall i :: i in before ==> i in items;
    if item in before {
      PositiveTotal(before, item);
    } else if before != [] {
      TotalIsNotNegative(before, KeyOf(item));
    }
  }

  lemma {:induction false} TotalIsNotNegative(items: seq<CostRow>, key: string)
    requires NoneNegative(items)
    ensures KeyTotal(items, key) >= 0
  {
    if items != [] {
      var before, last := items[..|items| - 1], items[|items| - 1];
      assert items == before + [last] && last in items && forall i :: i in before ==> i in items;
      TotalIsNotNegative(before, key);
    }
  }

  /** A resource named in one spelling gets its whole cost, whatever the amounts: charges,
      credits or nothing. */
  lemma OneSpellingIsWhole(items: seq<CostRow>, item: CostRow)
    requires item in items && KeyOf(item) != "" && SpelledAs(items, KeyOf(item), item.resource)
    ensures var index := AddRows(map[], RowsOf(items));
      KeyOf(item) in index && index[KeyOf(item)] == KeyTotal(items, KeyOf(item))
  {
    IndexKeepsSmallestSpelling(items, KeyOf(item));
    SpelledOnceIsWhole(items, item.resource);
  }

  /** Where there are no credits, the index holds the whole cost of a resource exactly when
      it is named in one spelling or costs nothing. */
  lemma KeyIsWholeIff(items: seq<CostRow>, item: CostRow)
    requires NoneNegative(items) && item in items && KeyOf(item) != ""
    ensures var key, index := KeyOf(item), AddRows(map[], RowsOf(items));
      && key in index
      && (index[key] == KeyTotal(items, key) <==> SpelledAs(items, key, item.resource) || KeyTotal(items, key) == 0)
  {
    var key, index := KeyOf(item), AddRows(map[], RowsOf(items));
    IndexKeepsSmallestSpelling(items, key);
    if SpelledAs(items, key, item.resource) {
      OneSpellingIsWhole(items, item);
    } else {
      var other :| other in items && KeyOf(other) == key && other.resource != item.resource;
      SpellingsAddUp(items, item.resource, other.resource, key);
      var i :| i in items && KeyOf(i) == key && index[key] == LabelTotal(items, i.resource);
      SpellingsAddUp(items, i.resource, if i.resource == item.resource then other.resource else item.resource, key);
    }
  }

  /** Where amounts are positive, the index holds the whole cost of every resource exactly
      when no resource is named in two spellings. */
  lemma IndexIsWholeIff(items: seq<CostRow>)
    requires AllPositive(items)
    requires forall i :: i in items ==> KeyOf(i) != ""
    ensures var index := AddRows(map[], RowsOf(items));
      (forall i :: i in items ==> KeyOf(i) in index && index[KeyOf(i)] == KeyTotal(items, KeyOf(i))) <==>
        OneSpelling(items)
  {
    forall i | i in items ensures KeyTotal(items, KeyOf(i)) > 0 {
      PositiveTotal(items, i);
    }
    forall i | i in items
      ensures var index := AddRows(map[], RowsOf(items));
        KeyOf(i) in index && (index[KeyOf(i)] == KeyTotal(items, KeyOf(i)) <==> SpelledAs(items, KeyOf(i), i.resource))
    {
      KeyIsWholeIff(items, i);
    }
    if !OneSpelling(items) {
      var i, j :| i in items && j in items && KeyOf(i) == KeyOf(j) && i.resource != j.resource;
      assert !SpelledAs(items, KeyOf(i), i.resource);
    }
  }

  // ----- Chunking is invisible -------------------------------------------------------------------------

  ghost predicate ServedPerId(served: seq<Served>, cost: string -> Option<int>) {
    AddUp(served) && forall s :: s in served ==> PricedPerId(s.items, s.chunk, cost)
  }

  function PairKeys(pairs: seq<(string, string)>): set<string> {
    set q | q in pairs :: ResourceKey(q.1)
  }

  function AskedKeys(served: seq<Served>): set<string> {
    PairKeys(Asked(served))
  }

  lemma AskedKeysExtend(served: seq<Served>, s: Served)
    ensures AskedKeys(served + [s]) == AskedKeys(served) + Keys(s.chunk)
  {
    assert (served + [s])[..|served|] == served;
    TaggedKeys(s.subscription, s.chunk);
    var a, b := Asked(served), Tag(s.subscription, s.chunk);
    assert Asked(served + [s]) == a + b;
    assert PairKeys(a + b) == PairKeys(a) + PairKeys(b);
  }

  lemma {:induction false} ServedAddPrices(served: seq<Served>, cost: string -> Option<int>)
    requires ServedPerId(served, cost)
    ensures AddServed(map[], served) == PriceList(AskedKeys(served), cost)
  {
    if served != [] {
      var before, last := served[..|served| - 1], served[|served| - 1];
      assert served == before + [last];
      assert last in served;
      assert forall s :: s in before ==> s in served;
      ServedAddPrices(before, cost);
      AskedKeysExtend(before, last);
      PriceListUnion(AskedKeys(before), Keys(last.chunk), cost);
      PricedRowsArePerId(last.items, last.chunk, cost);
      PerIdAddsPrices(AddServed(map[], before), last.rows, last.chunk, cost);
    }
  }

  lemma TaggedKeys(subscription: string, ids: seq<string>)
    ensures PairKeys(Tag(subscription, ids)) == Keys(ids)
  {
    forall id | id in ids ensures (subscription, id) in Tag(subscription, ids) {
      var i :| 0 <= i < |ids| && ids[i] == id;
      assert Tag(subscription, ids)[i] == (subscription, id);
    }
  }

  lemma SameTagsSameKeys(ps: seq<(string, string)>, qs: seq<(string, string)>)
    requires multiset(ps) == multiset(qs)
    ensures PairKeys(ps) == PairKeys(qs)
  {
    assert forall q :: q in ps <==> q in multiset(ps);
    assert forall q :: q in qs <==> q in multiset(qs);
  }

  /** However the ids were cut up, repeated or merged, the index of a complete fetch is the
      index of one query for all of them. */
  lemma ChunkingIsInvisible(served: seq<Served>, entries: seq<Entry>, cost: string -> Option<int>,
      whole: seq<CostRow>, ids: seq<string>)
    requires ServedPerId(served, cost) && Asked(served) == TagAll(BySubscription(DedupeAll(entries)))
    requires Keys(ids) == PairKeys(TagAll(DedupeAll(entries)))
    requires PricedPerId(whole, ids, cost)
    ensures AddServed(map[], served) == AddRows(map[], RowsOf(whole))
  {
    ServedAddPrices(served, cost);
    FetchAsksForAll(served, entries);
    WholeAddsPrices(whole, ids, cost);
  }

  lemma FetchAsksForAll(served: seq<Served>, entries: seq<Entry>)
    requires Asked(served) == TagAll(BySubscription(DedupeAll(entries)))
    ensures AskedKeys(served) == PairKeys(TagAll(DedupeAll(entries)))
  {
    SortingKeepsTags(DedupeAll(entries));
    SameTagsSameKeys(Asked(served), TagAll(DedupeAll(entries)));
  }

  lemma WholeAddsPrices(whole: seq<CostRow>, ids: seq<string>, cost: string -> Option<int>)
    requires PricedPerId(whole, ids, cost)
    ensures AddRows(map[], RowsOf(whole)) == PriceList(Keys(ids), cost)
  {
    PricedRowsArePerId(whole, ids, cost);
    PerIdAddsPrices(map[], RowsOf(whole), ids, cost);
    assert map[] + PriceList(Keys(ids), cost) == PriceList(Keys(ids), cost);
  }
}
