/** One cost lookup: ids are queried in chunks with retries, the answers are added up by
    label, and the labels are listed from the most expensive down. Money is whole cents. */
module CostQuery {
  import opened Options
  import opened Sequences
  import opened Text
  import opened ResourceIds

  /** An amount under the label the service returned, stripped, or `Unspecified` for a blank one. */
  datatype CostRow = CostRow(resource: string, cents: int)

  /** A response header: missing or empty, not a number, or a number. */
  datatype Header = Absent | NotNumeric | Numeric(value: real)

  /** What a query or a whole lookup comes to. */
  datatype Reply = Rows(rows: seq<CostRow>) | Throttled(specific: Header, general: Header) | Failed(status: int)

  /** A query that the service answered. */
  datatype Answer = Answer(subscription: string, chunk: seq<string>, items: seq<CostRow>)

  /** A lookup that succeeded: everything it was answered with, and the rows that came to. */
  datatype Served = Served(subscription: string, chunk: seq<string>, items: seq<CostRow>, rows: seq<CostRow>)

  function Truncate(x: real): int {
    if x >= 0.0 then x.Floor else -((-x).Floor)
  }

  /** The whole seconds of a delay, and at least one. */
  predicate IsDelay(value: real, seconds: int) {
    if value < 1.0 then seconds == 1 else seconds as real <= value < (seconds + 1) as real
  }

  /** The first header that parses wins; whatever it says, at least one second. */
  function RetryAfterSeconds(specific: Header, general: Header): (r: Option<int>)
    ensures r.Some? ==> r.value >= 1
    ensures r.None? <==> !specific.Numeric? && !general.Numeric?
    ensures specific.Numeric? ==> IsDelay(specific.value, r.value)
    ensures !specific.Numeric? && general.Numeric? ==> IsDelay(general.value, r.value)
  {
    if specific.Numeric? then Some(AtLeastOne(Truncate(specific.value)))
    else if general.Numeric? then Some(AtLeastOne(Truncate(general.value)))
    else None
  }

  // ----- Totals by label -----------------------------------------------------------------------

  function FindRow(rows: seq<CostRow>, name: string): (r: Option<nat>)
    ensures r.Some? ==> r.value < |rows| && rows[r.value].resource == name
    ensures r.None? ==> forall i :: 0 <= i < |rows| ==> rows[i].resource != name
  {
    if rows == [] then None
    else if rows[|rows| - 1].resource == name then Some(|rows| - 1)
    else FindRow(rows[..|rows| - 1], name)
  }

  /** `totals[label] = totals.get(label, 0) + amount`, in insertion order. */
  function AddItem(totals: seq<CostRow>, item: CostRow): seq<CostRow> {
    match FindRow(totals, item.resource)
    case Some(i) => totals[i := CostRow(item.resource, totals[i].cents + item.cents)]
    case None => totals + [item]
  }

  function AddItems(totals: seq<CostRow>, items: seq<CostRow>): seq<CostRow> {
    if items == [] then totals else AddItem(AddItems(totals, items[..|items| - 1]), items[|items| - 1])
  }

  function InsertRow(row: CostRow, sorted: seq<CostRow>): seq<CostRow> {
    if sorted == [] then [row]
    else
      var last := sorted[|sorted| - 1];
      if last.cents >= row.cents then sorted + [row] else InsertRow(row, sorted[..|sorted| - 1]) + [last]
  }

  /** A stable sort by amount, largest first. */
  function LargestFirst(rows: seq<CostRow>): seq<CostRow> {
    if rows == [] then [] else InsertRow(rows[|rows| - 1], LargestFirst(rows[..|rows| - 1]))
  }

  /** The rows a lookup returns for the items it was answered with. */
  function RowsOf(items: seq<CostRow>): seq<CostRow> {
    LargestFirst(AddItems([], items))
  }

  // ----- What the rows say ---------------------------------------------------------------------

  function Labels(items: seq<CostRow>): set<string> {
    set i | i in items :: i.resource
  }

  function LabelTotal(items: seq<CostRow>, name: string): int {
    if items == [] then 0
    else
      var last := items[|items| - 1];
      LabelTotal(items[..|items| - 1], name) + (if last.resource == name then last.cents else 0)
  }

  function Total(items: seq<CostRow>): int {
    if items == [] then 0 else Total(items[..|items| - 1]) + items[|items| - 1].cents
  }

  /** One row for each label, with everything charged to that label. */
  ghost predicate AreTotals(rows: seq<CostRow>, items: seq<CostRow>) {
    && (forall i, j :: 0 <= i < j < |rows| ==> rows[i].resource != rows[j].resource)
    && (forall r :: r in rows ==> r.resource in Labels(items) && r.cents == LabelTotal(items, r.resource))
    && (forall name :: name in Labels(items) ==> CostRow(name, LabelTotal(items, name)) in rows)
  }

  ghost predicate Descending(rows: seq<CostRow>) {
    forall i, j :: 0 <= i < j < |rows| ==> rows[i].cents >= rows[j].cents
  }

  lemma LabelsExtend(items: seq<CostRow>, item: CostRow)
    ensures Labels(items + [item]) == Labels(items) + {item.resource}
    ensures forall name ::
      LabelTotal(items + [item], name) == LabelTotal(items, name) + if item.resource == name then item.cents else 0
  {
    assert (items + [item])[..|items|] == items;
  }

  lemma {:induction false} UnlabelledIsFree(items: seq<CostRow>, name: string)
    requires name !in Labels(items)
    ensures LabelTotal(items, name) == 0
  {
    if items != [] {
      var before, last := items[..|items| - 1], items[|items| - 1];
      assert items == before + [last];
      LabelsExtend(before, last);
      UnlabelledIsFree(before, name);
    }
  }

  lemma AddItemKeepsTotals(rows: seq<CostRow>, items: seq<CostRow>, item: CostRow)
    requires AreTotals(rows, items)
    ensures AreTotals(AddItem(rows, item), items + [item])
  {
    LabelsExtend(items, item);
    var name, more, after := item.resource, items + [item], AddItem(rows, item);
    var at := match FindRow(rows, name) case Some(i) => i case None => |rows|;
    assert after[at] == CostRow(name, LabelTotal(more, name)) by {
      if at == |rows| {
        assert name !in Labels(items);
        UnlabelledIsFree(items, name);
      } else {
        assert rows[at] in rows;
      }
    }
    forall other | other in Labels(more) ensures CostRow(other, LabelTotal(more, other)) in after {
      if other == name {
        assert after[at] in after;
      } else {
        var j :| 0 <= j < |rows| && rows[j] == CostRow(other, LabelTotal(items, other));
        assert after[j] in after;
      }
    }
    forall r | r in after ensures r.resource in Labels(more) && r.cents == LabelTotal(more, r.resource) {
      var j :| 0 <= j < |after| && after[j] == r;
      if j != at {
        assert rows[j] in rows;
      }
    }
  }

  lemma {:induction false} AddItemsAreTotals(items: seq<CostRow>)
    ensures AreTotals(AddItems([], items), items)
  {
    if items != [] {
      var before, last := items[..|items| - 1], items[|items| - 1];
      assert items == before + [last];
      AddItemsAreTotals(before);
      AddItemKeepsTotals(AddItems([], before), before, last);
    }
  }

  lemma TotalExtends(rows: seq<CostRow>, row: CostRow)
    ensures Total(rows + [row]) == Total(rows) + row.cents
  {
    assert (rows + [row])[..|rows|] == rows;
  }

  lemma {:induction false} InsertRowAdds(row: CostRow, sorted: seq<CostRow>)
    ensures multiset(InsertRow(row, sorted)) == multiset(sorted) + multiset{row}
  {
    if sorted != [] {
      var before, last := sorted[..|sorted| - 1], sorted[|sorted| - 1];
      assert sorted == before + [last];
      InsertRowAdds(row, before);
    }
  }

  lemma {:induction false} InsertRowTotal(row: CostRow, sorted: seq<CostRow>)
    ensures Total(InsertRow(row, sorted)) == Total(sorted) + row.cents
  {
    if sorted == [] || sorted[|sorted| - 1].cents >= row.cents {
      TotalExtends(sorted, row);
      assert InsertRow(row, sorted) == sorted + [row];
    } else {
      InsertRowTotal(row, sorted[..|sorted| - 1]);
      TotalExtends(InsertRow(row, sorted[..|sorted| - 1]), sorted[|sorted| - 1]);
    }
  }

  lemma DescendingExtends(sorted: seq<CostRow>, last: CostRow)
    requires Descending(sorted)
    requires forall x :: x in sorted ==> x.cents >= last.cents
    ensures Descending(sorted + [last])
  {
    forall i, j | 0 <= i < j < |sorted| + 1
      ensures (sorted + [last])[i].cents >= (sorted + [last])[j].cents
    {
      if j == |sorted| {
        assert sorted[i] in sorted;
      }
    }
  }

  lemma {:induction false} InsertRowKeepsOrder(row: CostRow, sorted: seq<CostRow>)
    requires Descending(sorted)
    ensures Descending(InsertRow(row, sorted))
  {
    if sorted != [] {
      var before, last := sorted[..|sorted| - 1], sorted[|sorted| - 1];
      if last.cents >= row.cents {
        DescendingExtends(sorted, row);
      } else {
        InsertRowKeepsOrder(row, before);
        forall x | x in InsertRow(row, before) ensures x.cents >= last.cents {
          InsertRowAdds(row, before);
          assert x in multiset(InsertRow(row, before));
        }
        DescendingExtends(InsertRow(row, before), last);
      }
    }
  }

  lemma {:induction false} LargestFirstSorts(rows: seq<CostRow>)
    ensures Descending(LargestFirst(rows)) && multiset(LargestFirst(rows)) == multiset(rows)
  {
    if rows != [] {
      var before, last := rows[..|rows| - 1], rows[|rows| - 1];
      assert rows == before + [last];
      LargestFirstSorts(before);
      InsertRowAdds(last, LargestFirst(before));
      InsertRowKeepsOrder(last, LargestFirst(before));
    }
  }

  lemma {:induction false} LargestFirstTotal(rows: seq<CostRow>)
    ensures Total(LargestFirst(rows)) == Total(rows)
  {
    if rows != [] {
      LargestFirstTotal(rows[..|rows| - 1]);
      InsertRowTotal(rows[|rows| - 1], LargestFirst(rows[..|rows| - 1]));
    }
  }

  lemma DistinctAsMultiset(rows: seq<CostRow>, sorted: seq<CostRow>)
    requires multiset(rows) == multiset(sorted)
    requires forall i, j :: 0 <= i < j < |rows| ==> rows[i].resource != rows[j].resource
    ensures forall i, j :: 0 <= i < j < |sorted| ==> sorted[i].resource != sorted[j].resource
  {
    forall i, j | 0 <= i < j < |sorted| ensures sorted[i].resource != sorted[j].resource {
      assert sorted[i] in multiset(rows) && sorted[j] in multiset(rows);
      DistinctCounts(rows, sorted[i]);
      if sorted[i] == sorted[j] {
        RepeatCountsTwice(sorted, i, j);
      }
    }
  }

  /** The rows are the totals by label, each label once, the largest amount first. */
  lemma RowsAreTotals(items: seq<CostRow>)
    ensures AreTotals(RowsOf(items), items) && Descending(RowsOf(items))
  {
    var rows := AddItems([], items);
    AddItemsAreTotals(items);
    LargestFirstSorts(rows);
    DistinctAsMultiset(rows, RowsOf(items));
    assert forall r :: r in RowsOf(items) <==> r in multiset(RowsOf(items));
    assert forall r :: r in rows <==> r in multiset(rows);
  }

  lemma {:induction false} TotalUpdated(rows: seq<CostRow>, i: nat, row: CostRow)
    requires i < |rows|
    ensures Total(rows[i := row]) == Total(rows) - rows[i].cents + row.cents
  {
    var n := |rows| - 1;
    if i < n {
      TotalUpdated(rows[..n], i, row);
      assert rows[i := row][..n] == rows[..n][i := row];
    } else {
      assert rows[i := row][..n] == rows[..n];
    }
  }

  lemma AddItemConserves(rows: seq<CostRow>, item: CostRow)
    ensures Total(AddItem(rows, item)) == Total(rows) + item.cents
  {
    match FindRow(rows, item.resource) {
      case Some(i) => TotalUpdated(rows, i, CostRow(item.resource, rows[i].cents + item.cents));
      case None => TotalExtends(rows, item);
    }
  }

  lemma {:induction false} AddItemsConserve(totals: seq<CostRow>, items: seq<CostRow>)
    ensures Total(AddItems(totals, items)) == Total(totals) + Total(items)
  {
    if items != [] {
      AddItemsConserve(totals, items[..|items| - 1]);
      AddItemConserves(AddItems(totals, items[..|items| - 1]), items[|items| - 1]);
    }
  }

  /** No cent is lost or added between the answers and the rows. */
  lemma MoneyIsConserved(items: seq<CostRow>)
    ensures Total(RowsOf(items)) == Total(items)
  {
    AddItemsConserve([], items);
    LargestFirstTotal(AddItems([], items));
  }

  // ----- The lookup ----------------------------------------------------------------------------

  /** The ids of the answered queries, each with the subscription it was asked under. */
  function Queried(answers: seq<Answer>): seq<(string, string)> {
    if answers == [] then []
    else Queried(answers[..|answers| - 1]) + Tag(answers[|answers| - 1].subscription, answers[|answers| - 1].chunk)
  }

  function ItemsOf(answers: seq<Answer>): seq<CostRow> {
    if answers == [] then [] else ItemsOf(answers[..|answers| - 1]) + answers[|answers| - 1].items
  }

  lemma {:induction false} AddItemsAppends(totals: seq<CostRow>, a: seq<CostRow>, b: seq<CostRow>)
    ensures AddItems(totals, a + b) == AddItems(AddItems(totals, a), b)
    decreases |b|
  {
    if b == [] {
      assert a + b == a;
    } else {
      assert (a + b)[..|a + b| - 1] == a + b[..|b| - 1];
      AddItemsAppends(totals, a, b[..|b| - 1]);
    }
  }

  /** The queries of several rounds of answers are those of each round in turn. */
  lemma {:induction false} QueriesAddUp(a: seq<Answer>, b: seq<Answer>)
    ensures Queried(a + b) == Queried(a) + Queried(b)
    decreases |b|
  {
    if b == [] {
      assert a + b == a;
    } else {
      var last := b[|b| - 1];
      assert (a + b)[..|a + b| - 1] == a + b[..|b| - 1];
      QueriesAddUp(a, b[..|b| - 1]);
      assert Queried(a) + (Queried(b[..|b| - 1]) + Tag(last.subscription, last.chunk)) == Queried(a + b);
    }
  }

  /** And so are their items. */
  lemma {:induction false} ItemsAddUp(a: seq<Answer>, b: seq<Answer>)
    ensures ItemsOf(a + b) == ItemsOf(a) + ItemsOf(b)
    decreases |b|
  {
    if b == [] {
      assert a + b == a;
    } else {
      assert (a + b)[..|a + b| - 1] == a + b[..|b| - 1];
      ItemsAddUp(a, b[..|b| - 1]);
      assert ItemsOf(a) + (ItemsOf(b[..|b| - 1]) + b[|b| - 1].items) == ItemsOf(a + b);
    }
  }

  lemma OneAnswer(a: Answer)
    ensures Queried([a]) == Tag(a.subscription, a.chunk) && ItemsOf([a]) == a.items
  {
    assert [a][..0] == [];
  }

  /** The ids that a lookup sends on. */
  function Wanted(subscription: string, ids: seq<string>): seq<string> {
    if subscription == "" then [] else Dedupe(ids)
  }

  function PowerOfTwo(n: nat): nat {
    if n == 0 then 1 else 2 * PowerOfTwo(n - 1)
  }

  /** One query, when it was sent, and what came back. */
  datatype Exchange = Exchange(at: real, subscription: string, chunk: seq<string>, reply: Reply)

  predicate Last(exchanges: seq<Exchange>, reply: Reply) {
    exchanges != [] && exchanges[|exchanges| - 1].reply == reply
  }

  ghost predicate AskFor(xs: seq<Exchange>, subscription: string, chunk: seq<string>) {
    forall x :: x in xs ==> x.subscription == subscription && x.chunk == chunk
  }

  /** Between two queries of one chunk lies the delay the service asked for, or else two
      seconds after the first, doubling. */
  ghost predicate BackedOff(xs: seq<Exchange>, pauses: seq<real>) {
    |pauses| == |xs| - 1 && forall k :: 0 <= k < |pauses| ==> IsBackOff(xs[k].reply, k, pauses[k])
  }

  ghost predicate IsBackOff(reply: Reply, k: nat, pause: real) {
    reply.Throttled?
    && var told := RetryAfterSeconds(reply.specific, reply.general);
    pause == (if told.Some? then told.value else PowerOfTwo(k + 1)) as real
  }

  /** The service and the clock: any reply, after any delay. The observer records every
      exchange, every pause between them, the answered queries, and the lookups served. */
  class CostClient {
    var clock: real
    ghost var exchanges: seq<Exchange>
    ghost var pauses: seq<real>
    ghost var answers: seq<Answer>
    ghost var served: seq<Served>

    ghost predicate Valid()
      reads this`served
    {
      AddUp(served)
    }

    constructor (clock: real)
      ensures Valid() && this.clock == clock
      ensures exchanges == [] && pauses == [] && answers == [] && served == []
    {
      this.clock := clock;
      exchanges, pauses, answers, served := [], [], [], [];
    }

    method Query(subscription: string, chunk: seq<string>) returns (reply: Reply)
      modifies this`clock, this`exchanges, this`answers
      ensures clock >= old(clock)
      ensures exchanges == old(exchanges) + [Exchange(old(clock), subscription, chunk, reply)]
      ensures answers == old(answers) + if reply.Rows? then [Answer(subscription, chunk, reply.rows)] else []
    {
      reply := *;
      exchanges := exchanges + [Exchange(clock, subscription, chunk, reply)];
      var latency: real :| latency >= 0.0;
      clock := clock + latency;
      if reply.Rows? {
        answers := answers + [Answer(subscription, chunk, reply.rows)];
      }
    }

    method Sleep(seconds: real)
      requires seconds >= 0.0
      modifies this`clock, this`pauses
      ensures clock >= old(clock) + seconds && pauses == old(pauses) + [seconds]
    {
      var late: real :| late >= 0.0;
      clock := clock + seconds + late;
      pauses := pauses + [seconds];
    }

    /** A throttled query is repeated, after the delay it was told or a doubling one, until
        the attempts are used up; whatever else it comes to, that is the end of it. */
    method QueryWithRetries(subscription: string, chunk: seq<string>, attempts: nat)
        returns (reply: Reply, ghost xs: seq<Exchange>, ghost ps: seq<real>)
      requires attempts >= 1
      modifies this`clock, this`exchanges, this`pauses, this`answers
      ensures exchanges == old(exchanges) + xs && pauses == old(pauses) + ps
      ensures clock >= old(clock) + |ps| as real
      ensures 1 <= |xs| <= attempts && (reply.Throttled? ==> |xs| == attempts)
      ensures AskFor(xs, subscription, chunk) && BackedOff(xs, ps) && Last(xs, reply) && xs[0].at == old(clock)
      ensures answers == old(answers) + if reply.Rows? then [Answer(subscription, chunk, reply.rows)] else []
    {
      ghost var first := clock;
      reply := Query(subscription, chunk);
      xs, ps := [Exchange(first, subscription, chunk, reply)], [];
      var attempt := 0;
      while reply.Throttled? && attempt < attempts - 1
        invariant attempt == |ps| && |xs| <= attempts && clock >= old(clock) + attempt as real
        invariant exchanges == old(exchanges) + xs && pauses == old(pauses) + ps
        invariant AskFor(xs, subscription, chunk) && BackedOff(xs, ps) && Last(xs, reply) && xs[0].at == old(clock)
        invariant answers == old(answers) + if reply.Rows? then [Answer(subscription, chunk, reply.rows)] else []
      {
        var retryAfter := RetryAfterSeconds(reply.specific, reply.general);
        var delay := if retryAfter.Some? then retryAfter.value else PowerOfTwo(attempt + 1);
        PowerIsPositive(attempt + 1);
        Sleep(delay as real);
        ghost var again := clock;
        reply := Query(subscription, chunk);
        xs, ps := xs + [Exchange(again, subscription, chunk, reply)], ps + [delay as real];
        attempt := attempt + 1;
      }
    }

    /** One chunk with its retries; with one attempt, a single query without a pause. */
    method QueryChunk(subscription: string, chunk: seq<string>, attempts: nat)
        returns (reply: Reply, ghost ys: seq<Exchange>)
      requires attempts >= 1
      modifies this`clock, this`exchanges, this`pauses, this`answers
      ensures clock >= old(clock) && exchanges == old(exchanges) + ys
      ensures answers == old(answers) + if reply.Rows? then [Answer(subscription, chunk, reply.rows)] else []
      ensures Last(ys, reply) && (reply.Throttled? ==> |ys| == attempts)
      ensures attempts == 1 ==>
        pauses == old(pauses) && Alone(ys, old(clock), subscription, chunk, if reply.Rows? then Rows([]) else reply)
    {
      ghost var ps;
      reply, ys, ps := QueryWithRetries(subscription, chunk, attempts);
      if attempts == 1 {
        assert ps == [] && ys[0] in ys;
      }
    }

    /** Each wanted id is asked for once, in chunks of full size but for the last one, and the
        rows are those of all the answers together. */
    method LookUp(subscription: string, wanted: seq<string>, chunkSize: int, maxAttempts: int)
        returns (reply: Reply, ghost found: seq<Answer>, ghost xs: seq<Exchange>)
      modifies this`clock, this`exchanges, this`pauses, this`answers
      ensures clock >= old(clock) && answers == old(answers) + found && exchanges == old(exchanges) + xs
      ensures !reply.Rows? ==> Last(xs, reply)
      ensures reply.Throttled? ==> |xs| >= AtLeastOne(maxAttempts)
      ensures maxAttempts <= 1 && 0 < |wanted| <= chunkSize ==>
        Alone(xs, old(clock), subscription, wanted, reply) && pauses == old(pauses)
      ensures FullChunks(found, AtLeastOne(chunkSize))
      ensures reply.Rows? ==> reply.rows == RowsOf(ItemsOf(found)) && Queried(found) == Tag(subscription, wanted)
    {
      var size, offset, totals: seq<CostRow> := AtLeastOne(chunkSize), 0, [];
      found, xs := [], [];
      while offset < |wanted|
        invariant LookedUp(found, totals, subscription, wanted, offset, size)
        invariant clock >= old(clock) && answers == old(answers) + found && exchanges == old(exchanges) + xs
        invariant offset == 0 ==> clock == old(clock) && xs == [] && pauses == old(pauses)
        invariant maxAttempts <= 1 && 0 < |wanted| <= chunkSize && offset > 0 ==>
          Alone(xs, old(clock), subscription, wanted, Rows([])) && pauses == old(pauses)
        decreases |wanted| - offset
      {
        var chunk := NextChunk(wanted, offset, size);
        ghost var ys;
        reply, ys := QueryChunk(subscription, chunk, AtLeastOne(maxAttempts));
        Regroup(old(exchanges), xs, ys);
        xs := xs + ys;
        if !reply.Rows? {
          return;
        }
        ghost var answer := Answer(subscription, chunk, reply.rows);
        ChunkLookedUp(found, answer, totals, wanted, offset, size);
        found := found + [answer];
        totals := AddItems(totals, reply.rows);
        offset := offset + |chunk|;
      }
      assert wanted[..offset] == wanted;
      reply := Rows(LargestFirst(totals));
    }

    /** A lookup either fails as its last query did or returns the totals of its answers. */
    method GetCostByResourceIds(subscription: string, ids: seq<string>, chunkSize: int, maxAttempts: int)
        returns (reply: Reply, ghost found: seq<Answer>, ghost xs: seq<Exchange>)
      requires Valid()
      modifies this
      ensures Valid() && clock >= old(clock)
      ensures answers == old(answers) + found && exchanges == old(exchanges) + xs
      ensures !reply.Rows? ==> Last(xs, reply)
      ensures reply.Throttled? ==> |xs| >= AtLeastOne(maxAttempts)
      ensures var wanted := Wanted(subscription, ids); maxAttempts <= 1 && 0 < |wanted| <= chunkSize ==>
        Alone(xs, old(clock), subscription, wanted, reply) && pauses == old(pauses)
      ensures served == old(served) +
        if reply.Rows? then [Served(subscription, Wanted(subscription, ids), ItemsOf(found), reply.rows)] else []
      ensures FullChunks(found, AtLeastOne(chunkSize))
      ensures reply.Rows? ==> Queried(found) == Tag(subscription, Wanted(subscription, ids))
      ensures subscription != "" ==> Wanted(subscription, ids) == Dedupe(ids)
    {
      var wanted := DedupeIds(ids);
      found, xs, reply := [], [], Rows([]);
      if subscription != "" && wanted != [] {
        reply, found, xs := LookUp(subscription, wanted, chunkSize, maxAttempts);
      }
      if reply.Rows? {
        served := served + [Served(subscription, Wanted(subscription, ids), ItemsOf(found), reply.rows)];
      }
    }
  }

  ghost predicate AllFull(found: seq<Answer>, size: int) {
    forall i :: 0 <= i < |found| ==> |found[i].chunk| == size
  }

  ghost predicate FullChunks(found: seq<Answer>, size: int) {
    && (forall i :: 0 <= i < |found| - 1 ==> |found[i].chunk| == size)
    && (found != [] ==> 1 <= |found[|found| - 1].chunk| <= size)
  }

  /** One query was sent for the whole chunk, and it ended the lookup as it was replied to. */
  ghost predicate Alone(xs: seq<Exchange>, at: real, subscription: string, chunk: seq<string>, reply: Reply) {
    |xs| == 1
    && var x := xs[0];
    && x.at == at && x.subscription == subscription && x.chunk == chunk
    && (x.reply.Rows? <==> reply.Rows?) && (!reply.Rows? ==> x.reply == reply)
  }

  /** The rows of every lookup are the totals of its answers. */
  ghost predicate AddUp(served: seq<Served>) {
    forall s :: s in served ==> s.rows == RowsOf(s.items)
  }

  lemma {:induction false} PowerIsPositive(n: nat)
    ensures PowerOfTwo(n) >= 1
  {
    if n > 0 {
      PowerIsPositive(n - 1);
    }
  }

  /** The first `offset` ids have been looked up, in chunks of full size but for the last. */
  ghost predicate LookedUp(found: seq<Answer>, totals: seq<CostRow>, subscription: string, wanted: seq<string>,
      offset: nat, size: int)
  {
    && offset <= |wanted| && Queried(found) == Tag(subscription, wanted[..offset])
    && totals == AddItems([], ItemsOf(found))
    && FullChunks(found, size) && (offset < |wanted| ==> AllFull(found, size))
  }

  lemma ChunkLookedUp(found: seq<Answer>, a: Answer, totals: seq<CostRow>, wanted: seq<string>, offset: nat, size: int)
    requires LookedUp(found, totals, a.subscription, wanted, offset, size)
    requires 1 <= |a.chunk| <= size && offset + |a.chunk| <= |wanted|
    requires a.chunk == wanted[offset..offset + |a.chunk|]
    requires |a.chunk| == size || offset + |a.chunk| == |wanted|
    ensures LookedUp(found + [a], AddItems(totals, a.items), a.subscription, wanted, offset + |a.chunk|, size)
  {
    ChunkQueried(found, a, wanted, offset);
    ChunkTotalled(found, a);
    ChunksStayFull(found, a, size);
  }

  lemma ChunkQueried(found: seq<Answer>, a: Answer, wanted: seq<string>, offset: nat)
    requires offset + |a.chunk| <= |wanted| && a.chunk == wanted[offset..offset + |a.chunk|]
    requires Queried(found) == Tag(a.subscription, wanted[..offset])
    ensures Queried(found + [a]) == Tag(a.subscription, wanted[..offset + |a.chunk|])
  {
    calc {
      Queried(found + [a]);
      { QueriesAddUp(found, [a]); OneAnswer(a); }
      Tag(a.subscription, wanted[..offset]) + Tag(a.subscription, a.chunk);
      { TagAppends(a.subscription, wanted[..offset], a.chunk); }
      Tag(a.subscription, wanted[..offset] + a.chunk);
      { assert wanted[..offset + |a.chunk|] == wanted[..offset] + a.chunk; }
      Tag(a.subscription, wanted[..offset + |a.chunk|]);
    }
  }

  lemma ChunkTotalled(found: seq<Answer>, a: Answer)
    ensures AddItems([], ItemsOf(found + [a])) == AddItems(AddItems([], ItemsOf(found)), a.items)
  {
    ItemsAddUp(found, [a]);
    OneAnswer(a);
    AddItemsAppends([], ItemsOf(found), a.items);
  }

  lemma ChunksStayFull(found: seq<Answer>, a: Answer, size: int)
    requires AllFull(found, size) && 1 <= |a.chunk| <= size
    ensures FullChunks(found + [a], size) && (|a.chunk| == size ==> AllFull(found + [a], size))
  {
  }
}
