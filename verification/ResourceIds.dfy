/** Lists of resource ids by subscription: their deduplication, which ignores case and the
    blanks around an id, the chunks they are cut into, and the order in which they are asked
    for, subscription by subscription. */
module ResourceIds {
  import opened Options
  import opened Sequences
  import opened Text

  type Entry = (string, seq<string>)

  /** The key under which a resource id or a returned label is indexed. */
  function ResourceKey(id: string): string {
    Lower(Trim(Strip(id), Any({'/'})))
  }

  /** Blanks and slashes around an id, and its case, do not matter to its key. */
  lemma KeyOfCore(blanks: string, slashes: string, core: string, slashes': string, blanks': string)
    requires forall c :: c in blanks || c in blanks' ==> IsSpace(c)
    requires forall c :: c in slashes || c in slashes' ==> c == '/'
    requires core != [] && Trimmed(core, Blanks) && Trimmed(core, Any({'/'}))
    ensures ResourceKey(blanks + (slashes + core + slashes') + blanks') == Lower(core)
  {
    var id := slashes + core + slashes';
    assert !IsSpace('/');
    assert id[0] in slashes || id[0] == core[0];
    assert id[|id| - 1] in slashes' || id[|id| - 1] == core[|core| - 1];
    TrimTakesEnds(blanks, id, blanks', Blanks);
    TrimTakesEnds(slashes, core, slashes', Any({'/'}));
  }

  function FoldedKeys(ids: seq<string>): set<string> {
    set i | 0 <= i < |ids| && Strip(ids[i]) != "" :: Lower(Strip(ids[i]))
  }

  /** The first id of each case-folded spelling, stripped, in order. */
  function Dedupe(ids: seq<string>): seq<string> {
    if ids == [] then []
    else
      var before, last := ids[..|ids| - 1], Strip(ids[|ids| - 1]);
      if last == "" || Lower(last) in FoldedKeys(before) then Dedupe(before) else Dedupe(before) + [last]
  }

  function FindKey(entries: seq<Entry>, key: string): (r: Option<nat>)
    ensures r.Some? ==> r.value < |entries| && entries[r.value].0 == key
    ensures r.None? ==> forall i :: 0 <= i < |entries| ==> entries[i].0 != key
  {
    if entries == [] then None
    else if entries[|entries| - 1].0 == key then Some(|entries| - 1)
    else FindKey(entries[..|entries| - 1], key)
  }

  /** Python's `d[key] = value` on a dictionary kept as its entries in insertion order. */
  function Put(entries: seq<Entry>, key: string, value: seq<string>): seq<Entry> {
    match FindKey(entries, key)
    case Some(i) => entries[i := (key, value)]
    case None => entries + [(key, value)]
  }

  function DedupeAll(entries: seq<Entry>): seq<Entry> {
    if entries == [] then []
    else
      var before, last := DedupeAll(entries[..|entries| - 1]), entries[|entries| - 1];
      if Strip(last.0) == "" || Dedupe(last.1) == [] then before else Put(before, Strip(last.0), Dedupe(last.1))
  }

  function CeilDiv(n: nat, size: int): nat
    requires size >= 1
  {
    (n + size - 1) / size
  }

  function ChunkCount(entries: seq<Entry>, size: int): nat
    requires size >= 1
  {
    if entries == [] then 0
    else ChunkCount(entries[..|entries| - 1], size) + CeilDiv(|entries[|entries| - 1].1|, size)
  }

  lemma FoldedKeysExtends(ids: seq<string>, id: string)
    ensures FoldedKeys(ids + [id]) == FoldedKeys(ids) + if Strip(id) == "" then {} else {Lower(Strip(id))}
  {
    var more := ids + [id];
    forall k | k in FoldedKeys(ids) ensures k in FoldedKeys(more) {
      var i :| 0 <= i < |ids| && Strip(ids[i]) != "" && k == Lower(Strip(ids[i]));
      assert more[i] == ids[i];
    }
    if Strip(id) != "" {
      assert more[|ids|] == id;
    }
  }

  lemma StripIsIdempotent(s: string)
    ensures Strip(Strip(s)) == Strip(s)
  {
    var _, _ := TrimShape(s, Blanks);
    TrimmedIsFixed(Strip(s), Blanks);
  }

  ghost predicate Clean(ids: seq<string>) {
    forall i :: 0 <= i < |ids| ==> ids[i] != "" && Strip(ids[i]) == ids[i]
  }

  ghost predicate DistinctFolded(ids: seq<string>) {
    forall i, j :: 0 <= i < j < |ids| ==> Lower(ids[i]) != Lower(ids[j])
  }

  lemma {:induction false} DedupeIsClean(ids: seq<string>)
    ensures Clean(Dedupe(ids))
  {
    if ids != [] {
      DedupeIsClean(ids[..|ids| - 1]);
      StripIsIdempotent(ids[|ids| - 1]);
    }
  }

  lemma {:induction false} DedupeKeepsKeys(ids: seq<string>)
    ensures FoldedKeys(Dedupe(ids)) == FoldedKeys(ids)
  {
    if ids != [] {
      var before, raw := ids[..|ids| - 1], ids[|ids| - 1];
      DedupeKeepsKeys(before);
      assert ids == before + [raw];
      FoldedKeysExtends(before, raw);
      StripIsIdempotent(raw);
      FoldedKeysExtends(Dedupe(before), Strip(raw));
    }
  }

  lemma CleanKeyIsFolded(ids: seq<string>, i: nat)
    requires Clean(ids) && i < |ids|
    ensures Lower(ids[i]) in FoldedKeys(ids)
  {
    assert Strip(ids[i]) == ids[i];
  }

  /** Every non-blank spelling is kept exactly once, and nothing else is. */
  lemma {:induction false} DedupeIsExact(ids: seq<string>)
    ensures DistinctFolded(Dedupe(ids)) && Clean(Dedupe(ids)) && FoldedKeys(Dedupe(ids)) == FoldedKeys(ids)
  {
    DedupeIsClean(ids);
    DedupeKeepsKeys(ids);
    if ids != [] {
      var before, last := ids[..|ids| - 1], Strip(ids[|ids| - 1]);
      var d := Dedupe(before);
      DedupeIsExact(before);
      forall i | 0 <= i < |d| && Lower(last) !in FoldedKeys(before) ensures Lower(d[i]) != Lower(last) {
        CleanKeyIsFolded(d, i);
      }
    }
  }

  /** Deduplicating twice changes nothing, so the fetch works on the very ids over which
      the export counted its chunks. */
  lemma {:induction false} DedupeIsIdempotent(ids: seq<string>)
    ensures Dedupe(Dedupe(ids)) == Dedupe(ids)
  {
    if ids != [] {
      var before, last := ids[..|ids| - 1], Strip(ids[|ids| - 1]);
      DedupeIsIdempotent(before);
      DedupeIsExact(before);
      StripIsIdempotent(ids[|ids| - 1]);
      assert (Dedupe(before) + [last])[..|Dedupe(before)|] == Dedupe(before);
    }
  }

  /** No earlier id is spelt, apart from case, like the one at this place. */
  ghost predicate FirstOfSpelling(ids: seq<string>, i: nat) {
    && i < |ids| && Strip(ids[i]) != ""
    && forall j :: 0 <= j < i ==> Lower(Strip(ids[j])) != Lower(Strip(ids[i]))
  }

  lemma UnfoldedIsFirst(before: seq<string>, id: string)
    requires Strip(id) != "" && Lower(Strip(id)) !in FoldedKeys(before)
    ensures FirstOfSpelling(before + [id], |before|)
  {
    forall j | 0 <= j < |before| ensures Lower(Strip(before[j])) != Lower(Strip(id)) {
      assert Strip(before[j]) != "" ==> Lower(Strip(before[j])) in FoldedKeys(before);
    }
  }

  lemma FirstStays(before: seq<string>, id: string, i: nat)
    requires FirstOfSpelling(before, i)
    ensures FirstOfSpelling(before + [id], i) && (before + [id])[i] == before[i]
  {
  }

  /** What is kept of each spelling is its first id, and the kept ids stay in order. */
  lemma {:induction false} DedupeKeepsFirst(ids: seq<string>) returns (places: seq<nat>)
    ensures Rising(places, |ids|) && |places| == |Dedupe(ids)|
    ensures forall k :: 0 <= k < |places| ==>
      FirstOfSpelling(ids, places[k]) && Dedupe(ids)[k] == Strip(ids[places[k]])
  {
    places := [];
    if ids != [] {
      var before, id := ids[..|ids| - 1], ids[|ids| - 1];
      assert ids == before + [id];
      places := DedupeKeepsFirst(before);
      forall k | 0 <= k < |places| ensures FirstOfSpelling(ids, places[k]) && ids[places[k]] == before[places[k]] {
        FirstStays(before, id, places[k]);
      }
      RisingGrows(places, |before|);
      if |Dedupe(ids)| > |places| {
        UnfoldedIsFirst(before, id);
        places := places + [|before|];
      }
    }
  }

  lemma NewIsNotFolded(ids: seq<string>, id: string)
    requires Clean(ids)
    requires forall i :: 0 <= i < |ids| ==> Lower(ids[i]) != Lower(id)
    ensures Lower(id) !in FoldedKeys(ids)
  {
  }

  lemma {:induction false} DistinctIsFixed(ids: seq<string>)
    requires Clean(ids) && DistinctFolded(ids)
    ensures Dedupe(ids) == ids
  {
    if ids != [] {
      var before, last := ids[..|ids| - 1], ids[|ids| - 1];
      assert ids == before + [last];
      DistinctIsFixed(before);
      NewIsNotFolded(before, last);
    }
  }

  lemma SliceIsDistinct(ids: seq<string>, from: nat, until: nat)
    requires Clean(ids) && DistinctFolded(ids) && from <= until <= |ids|
    ensures Clean(ids[from..until]) && DistinctFolded(ids[from..until])
  {
    var chunk := ids[from..until];
    forall i, j | 0 <= i < j < |chunk| ensures Lower(chunk[i]) != Lower(chunk[j]) {
      assert chunk[i] == ids[from + i] && chunk[j] == ids[from + j];
    }
  }

  /** A chunk of deduplicated ids needs no more deduplication. */
  lemma ChunkIsFixed(ids: seq<string>, from: nat, until: nat)
    requires Dedupe(ids) == ids && from <= until <= |ids|
    ensures Dedupe(ids[from..until]) == ids[from..until]
  {
    DedupeIsExact(ids);
    SliceIsDistinct(ids, from, until);
    DistinctIsFixed(ids[from..until]);
  }

  ghost predicate ReadyEntry(e: Entry) {
    e.0 != "" && Strip(e.0) == e.0 && e.1 != [] && Dedupe(e.1) == e.1
  }

  /** Distinct subscriptions, each with a non-empty list that needs no more deduplication. */
  ghost predicate Ready(entries: seq<Entry>) {
    && (forall i, j :: 0 <= i < j < |entries| ==> entries[i].0 != entries[j].0)
    && (forall e :: e in entries ==> ReadyEntry(e))
  }

  lemma PutKeepsReady(entries: seq<Entry>, key: string, value: seq<string>)
    requires Ready(entries) && ReadyEntry((key, value))
    ensures Ready(Put(entries, key, value))
  {
    var after := Put(entries, key, value);
    assert forall e :: e in after ==> e in entries || e == (key, value);
  }

  lemma {:induction false} DedupeAllIsReady(entries: seq<Entry>)
    ensures Ready(DedupeAll(entries))
  {
    if entries != [] {
      var before, last := entries[..|entries| - 1], entries[|entries| - 1];
      DedupeAllIsReady(before);
      var key, value := Strip(last.0), Dedupe(last.1);
      if key != "" && value != [] {
        assert ReadyEntry((key, value)) by {
          StripIsIdempotent(last.0);
          DedupeIsIdempotent(last.1);
        }
        PutKeepsReady(DedupeAll(before), key, value);
      }
    }
  }

  /** The last list given under a subscription that holds any id. */
  ghost predicate LastList(entries: seq<Entry>, key: string, i: nat) {
    && i < |entries| && Strip(entries[i].0) == key && Dedupe(entries[i].1) != []
    && forall j :: i < j < |entries| && Strip(entries[j].0) == key ==> Dedupe(entries[j].1) == []
  }

  lemma PutReplaces(entries: seq<Entry>, key: string, value: seq<string>, e: Entry)
    requires Ready(entries)
    ensures e in Put(entries, key, value) <==> if e.0 == key then e.1 == value else e in entries
  {
    var after := Put(entries, key, value);
    match FindKey(entries, key) {
      case Some(n) =>
        assert after[n] == (key, value);
        if e in entries && e.0 != key {
          var i :| 0 <= i < |entries| && entries[i] == e;
          assert after[i] == e;
        }
      case None =>
    }
  }

  lemma LastListStep(before: seq<Entry>, last: Entry, key: string, i: nat)
    ensures LastList(before + [last], key, i) <==>
      if Strip(last.0) == key && Dedupe(last.1) != [] then i == |before| else LastList(before, key, i)
  {
    var entries := before + [last];
    assert entries[|before|] == last;
    if LastList(before, key, i) {
      assert entries[i] == before[i];
    }
    if LastList(entries, key, i) && i < |before| {
      assert forall j :: i <= j < |before| ==> before[j] == entries[j];
    }
  }

  /** Each subscription keeps the ids of the last list given under it. */
  lemma {:induction false} DedupeAllKeepsLast(entries: seq<Entry>, key: string, value: seq<string>)
    ensures (key, value) in DedupeAll(entries) <==>
      key != "" && exists i: nat :: LastList(entries, key, i) && value == Dedupe(entries[i].1)
  {
    if entries != [] {
      var before, last := entries[..|entries| - 1], entries[|entries| - 1];
      assert entries == before + [last];
      DedupeAllKeepsLast(before, key, value);
      DedupeAllStep(before, last, key, value);
      forall i: nat ensures LastList(entries, key, i) <==>
        if Strip(last.0) == key && Dedupe(last.1) != [] then i == |before| else LastList(before, key, i)
      {
        LastListStep(before, last, key, i);
      }
      if Strip(last.0) == key && Dedupe(last.1) != [] {
        assert LastList(entries, key, |before|);
      } else {
        assert forall i: nat :: LastList(entries, key, i) ==> entries[i] == before[i];
      }
    }
  }

  lemma DedupeAllStep(before: seq<Entry>, last: Entry, key: string, value: seq<string>)
    ensures (key, value) in DedupeAll(before + [last]) <==>
      if Strip(last.0) == key && key != "" && Dedupe(last.1) != [] then value == Dedupe(last.1)
      else (key, value) in DedupeAll(before)
  {
    assert (before + [last])[..|before|] == before;
    DedupeAllIsReady(before);
    PutReplaces(DedupeAll(before), Strip(last.0), Dedupe(last.1), (key, value));
  }

  /** What the export has deduplicated the fetch leaves alone. */
  lemma {:induction false} ReadyIsFixed(entries: seq<Entry>)
    requires Ready(entries)
    ensures DedupeAll(entries) == entries
  {
    if entries != [] {
      var before, last := entries[..|entries| - 1], entries[|entries| - 1];
      assert entries == before + [last];
      assert forall e :: e in before ==> e in entries;
      ReadyIsFixed(before);
      assert last in entries;
      assert FindKey(before, last.0).None?;
    }
  }

  method DedupeIds(ids: seq<string>) returns (values: seq<string>)
    ensures values == Dedupe(ids)
  {
    var seen: set<string> := {};
    values := [];
    for i := 0 to |ids|
      invariant seen == FoldedKeys(ids[..i]) && values == Dedupe(ids[..i])
    {
      assert ids[..i + 1] == ids[..i] + [ids[i]];
      FoldedKeysExtends(ids[..i], ids[i]);
      var text := Strip(ids[i]);
      if text != "" && Lower(text) !in seen {
        seen := seen + {Lower(text)};
        values := values + [text];
      }
    }
    assert ids[..|ids|] == ids;
  }

  method DedupeResourceIdsBySubscription(entries: seq<Entry>) returns (deduped: seq<Entry>)
    ensures deduped == DedupeAll(entries) && Ready(deduped)
  {
    deduped := [];
    for i := 0 to |entries|
      invariant deduped == DedupeAll(entries[..i])
    {
      assert entries[..i + 1][..i] == entries[..i];
      var values := DedupeIds(entries[i].1);
      if Strip(entries[i].0) != "" && values != [] {
        deduped := Put(deduped, Strip(entries[i].0), values);
      }
    }
    assert entries[..|entries|] == entries;
    DedupeAllIsReady(entries);
  }

  method CountQueryChunks(entries: seq<Entry>, chunkSize: int) returns (total: nat)
    ensures total == ChunkCount(entries, AtLeastOne(chunkSize))
  {
    var size := AtLeastOne(chunkSize);
    total := 0;
    for i := 0 to |entries|
      invariant total == ChunkCount(entries[..i], size)
    {
      assert entries[..i + 1][..i] == entries[..i];
      if entries[i].1 != [] {
        total := total + CeilDiv(|entries[i].1|, size);
      }
    }
    assert entries[..|entries|] == entries;
  }

  function AtLeastOne(n: int): (r: int)
    ensures 1 <= r && n <= r && (r == n || r == 1)
  {
    if n < 1 then 1 else n
  }

  function Min(a: int, b: int): (r: int)
    ensures r <= a && r <= b && (r == a || r == b)
  {
    if a < b then a else b
  }

  function NextChunk(ids: seq<string>, offset: nat, chunkSize: int): (chunk: seq<string>)
    requires offset < |ids| && chunkSize >= 1
    ensures 1 <= |chunk| <= chunkSize && offset + |chunk| <= |ids| && chunk == ids[offset..offset + |chunk|]
    ensures |chunk| == chunkSize || offset + |chunk| == |ids|
  {
    ids[offset..Min(|ids|, offset + chunkSize)]
  }

  lemma ProductGrows(x: int, y: int, z: nat)
    requires x <= y
    ensures x * z <= y * z
  {
    assert y * z - x * z == (y - x) * z;
  }

  lemma DivisionBound(a: nat, k: nat, size: int)
    requires size >= 1 && a < (k + 1) * size
    ensures a / size <= k
  {
    var q := a / size;
    assert a == q * size + a % size;
    if q > k {
      ProductGrows(k + 1, q, size);
      assert false;
    }
  }

  /** How many ids fit into some chunks of the largest size. */
  function Capacity(chunks: nat, size: nat): nat {
    if chunks == 0 then 0 else Capacity(chunks - 1, size) + size
  }

  lemma {:induction false} CapacityIsProduct(chunks: nat, size: nat)
    ensures Capacity(chunks, size) == chunks * size
  {
    if chunks > 0 {
      CapacityIsProduct(chunks - 1, size);
      assert chunks * size == (chunks - 1) * size + size;
    }
  }

  lemma EnoughChunks(n: nat, chunks: nat, size: nat)
    requires size >= 1 && n <= Capacity(chunks, size)
    ensures CeilDiv(n, size) <= chunks
  {
    CapacityIsProduct(chunks, size);
    assert (chunks + 1) * size == chunks * size + size;
    DivisionBound(n + size - 1, chunks, size);
  }

  /** The planned number is the least: so many chunks of full size hold all the ids, and
      fewer do not. */
  lemma PlannedIsLeast(n: nat, chunks: nat, size: nat)
    requires size >= 1
    ensures CeilDiv(n, size) <= chunks <==> n <= Capacity(chunks, size)
  {
    if n <= Capacity(chunks, size) {
      EnoughChunks(n, chunks, size);
    } else {
      CapacityIsProduct(chunks, size);
      var q := CeilDiv(n, size);
      assert n + size - 1 == q * size + (n + size - 1) % size;
      if q <= chunks {
        ProductGrows(q, chunks, size);
        assert false;
      }
    }
  }

  // ----- Tagged ids ----------------------------------------------------------------------------

  function Tag(subscription: string, ids: seq<string>): (r: seq<(string, string)>)
    ensures |r| == |ids| && forall i :: 0 <= i < |ids| ==> r[i] == (subscription, ids[i])
  {
    seq(|ids|, i requires 0 <= i < |ids| => (subscription, ids[i]))
  }

  function TagAll(entries: seq<Entry>): seq<(string, string)> {
    if entries == [] then []
    else TagAll(entries[..|entries| - 1]) + Tag(entries[|entries| - 1].0, entries[|entries| - 1].1)
  }

  lemma TagAppends(subscription: string, a: seq<string>, b: seq<string>)
    ensures Tag(subscription, a + b) == Tag(subscription, a) + Tag(subscription, b)
  {
  }

  // ----- Order of subscriptions ----------------------------------------------------------------

  /** Python's order on texts: the first difference decides, and a prefix comes first. */
  predicate Precedes(a: string, b: string) {
    a == [] || (b != [] && (a[0] < b[0] || (a[0] == b[0] && Precedes(a[1..], b[1..]))))
  }

  lemma {:induction false} FirstDifferenceDecides(common: string, x: char, a: string, y: char, b: string)
    requires x != y
    ensures Precedes(common + [x] + a, common + [y] + b) <==> x < y
  {
    var left, right := common + [x] + a, common + [y] + b;
    if common != [] {
      assert left[1..] == common[1..] + [x] + a && right[1..] == common[1..] + [y] + b;
      FirstDifferenceDecides(common[1..], x, a, y, b);
    }
  }

  lemma {:induction false} PrefixPrecedes(a: string, b: string)
    ensures Precedes(a, a + b) && (b != [] ==> !Precedes(a + b, a))
  {
    if a != [] {
      assert (a + b)[1..] == a[1..] + b;
      PrefixPrecedes(a[1..], b);
    } else {
      assert a + b == b;
    }
  }

  function Insert(e: Entry, sorted: seq<Entry>): seq<Entry> {
    if sorted == [] then [e]
    else
      var last := sorted[|sorted| - 1];
      if Precedes(last.0, e.0) then sorted + [e] else Insert(e, sorted[..|sorted| - 1]) + [last]
  }

  /** `sorted(d.items())` on a dictionary of lists: its keys are distinct and decide alone. */
  function BySubscription(entries: seq<Entry>): seq<Entry> {
    if entries == [] then []
    else Insert(entries[|entries| - 1], BySubscription(entries[..|entries| - 1]))
  }

  ghost predicate InOrder(entries: seq<Entry>) {
    forall i, j :: 0 <= i < j < |entries| ==> Precedes(entries[i].0, entries[j].0)
  }

  lemma {:induction false} PrecedesIsTotal(a: string, b: string)
    ensures Precedes(a, b) || Precedes(b, a)
  {
    if a != [] && b != [] {
      PrecedesIsTotal(a[1..], b[1..]);
    }
  }

  lemma {:induction false} PrecedesIsTransitive(a: string, b: string, c: string)
    requires Precedes(a, b) && Precedes(b, c)
    ensures Precedes(a, c)
  {
    if a != [] && a[0] == b[0] == c[0] {
      PrecedesIsTransitive(a[1..], b[1..], c[1..]);
    }
  }

  lemma {:induction false} InsertAdds(e: Entry, sorted: seq<Entry>)
    ensures multiset(Insert(e, sorted)) == multiset(sorted) + multiset{e}
  {
    if sorted != [] {
      var before, last := sorted[..|sorted| - 1], sorted[|sorted| - 1];
      assert sorted == before + [last];
      InsertAdds(e, before);
    }
  }

  lemma InOrderExtends(sorted: seq<Entry>, last: Entry)
    requires InOrder(sorted)
    requires forall x :: x in sorted ==> Precedes(x.0, last.0)
    ensures InOrder(sorted + [last])
  {
    forall i, j | 0 <= i < j < |sorted| + 1
      ensures Precedes((sorted + [last])[i].0, (sorted + [last])[j].0)
    {
      if j == |sorted| {
        assert sorted[i] in sorted;
      }
    }
  }

  lemma {:induction false} InsertKeepsOrder(e: Entry, sorted: seq<Entry>)
    requires InOrder(sorted)
    ensures InOrder(Insert(e, sorted))
  {
    if sorted != [] {
      var before, last := sorted[..|sorted| - 1], sorted[|sorted| - 1];
      PrecedesIsTotal(last.0, e.0);
      if Precedes(last.0, e.0) {
        forall x | x in sorted ensures Precedes(x.0, e.0) {
          if x != last {
            PrecedesIsTransitive(x.0, last.0, e.0);
          }
        }
        InOrderExtends(sorted, e);
      } else {
        InsertKeepsOrder(e, before);
        forall x | x in Insert(e, before) ensures Precedes(x.0, last.0) {
          InsertAdds(e, before);
          assert x in multiset(Insert(e, before));
        }
        InOrderExtends(Insert(e, before), last);
      }
    }
  }

  /** Sorting puts the subscriptions in order and neither loses nor repeats any. */
  lemma {:induction false} SortedInOrder(entries: seq<Entry>)
    ensures InOrder(BySubscription(entries)) && multiset(BySubscription(entries)) == multiset(entries)
  {
    if entries != [] {
      var before, last := entries[..|entries| - 1], entries[|entries| - 1];
      assert entries == before + [last];
      SortedInOrder(before);
      InsertAdds(last, BySubscription(before));
      InsertKeepsOrder(last, BySubscription(before));
    }
  }

  function SumOf(entries: seq<Entry>, weight: Entry -> nat): nat {
    if entries == [] then 0 else SumOf(entries[..|entries| - 1], weight) + weight(entries[|entries| - 1])
  }

  lemma LastSum(entries: seq<Entry>, e: Entry, weight: Entry -> nat)
    ensures SumOf(entries + [e], weight) == SumOf(entries, weight) + weight(e)
  {
    assert (entries + [e])[..|entries|] == entries;
  }

  lemma {:induction false} InsertSum(e: Entry, sorted: seq<Entry>, weight: Entry -> nat)
    ensures SumOf(Insert(e, sorted), weight) == SumOf(sorted, weight) + weight(e)
  {
    if sorted == [] || Precedes(sorted[|sorted| - 1].0, e.0) {
      LastSum(sorted, e, weight);
      assert Insert(e, sorted) == sorted + [e];
    } else {
      var before, last := sorted[..|sorted| - 1], sorted[|sorted| - 1];
      InsertSum(e, before, weight);
      LastSum(Insert(e, before), last, weight);
    }
  }

  /** Whatever is summed over the entries, their order does not matter. */
  lemma {:induction false} SortingKeepsSum(entries: seq<Entry>, weight: Entry -> nat)
    ensures SumOf(BySubscription(entries), weight) == SumOf(entries, weight)
  {
    if entries != [] {
      var before, last := entries[..|entries| - 1], entries[|entries| - 1];
      SortingKeepsSum(before, weight);
      InsertSum(last, BySubscription(before), weight);
    }
  }

  function ChunksOf(size: int): Entry -> nat
    requires size >= 1
  {
    (e: Entry) => CeilDiv(|e.1|, size)
  }

  function TagsOf(q: (string, string)): Entry -> nat {
    (e: Entry) => multiset(Tag(e.0, e.1))[q]
  }

  lemma {:induction false} ChunksSummed(entries: seq<Entry>, size: int)
    requires size >= 1
    ensures ChunkCount(entries, size) == SumOf(entries, ChunksOf(size))
  {
    if entries != [] {
      ChunksSummed(entries[..|entries| - 1], size);
    }
  }

  lemma {:induction false} TagsSummed(entries: seq<Entry>, q: (string, string))
    ensures multiset(TagAll(entries))[q] == SumOf(entries, TagsOf(q))
  {
    if entries != [] {
      TagsSummed(entries[..|entries| - 1], q);
    }
  }

  /** The order of the subscriptions does not matter to how many chunks are planned. */
  lemma SortingKeepsChunks(entries: seq<Entry>, size: int)
    requires size >= 1
    ensures ChunkCount(BySubscription(entries), size) == ChunkCount(entries, size)
  {
    SortingKeepsSum(entries, ChunksOf(size));
    ChunksSummed(BySubscription(entries), size);
    ChunksSummed(entries, size);
  }

  /** The order of the subscriptions does not matter to what is asked for. */
  lemma SortingKeepsTags(entries: seq<Entry>)
    ensures multiset(TagAll(BySubscription(entries))) == multiset(TagAll(entries))
  {
    forall q ensures multiset(TagAll(BySubscription(entries)))[q] == multiset(TagAll(entries))[q] {
      SortingKeepsSum(entries, TagsOf(q));
      TagsSummed(BySubscription(entries), q);
      TagsSummed(entries, q);
    }
  }

  predicate Asks(ids: seq<Entry>, subscription: string, id: string) {
    exists e :: e in ids && e.0 == subscription && id in e.1
  }

  lemma {:induction false} DistinctCounts<T>(s: seq<T>, x: T)
    requires forall i, j :: 0 <= i < j < |s| ==> s[i] != s[j]
    ensures multiset(s)[x] == if x in s then 1 else 0
  {
    if s != [] {
      DistinctCounts(s[..|s| - 1], x);
      assert s == s[..|s| - 1] + [s[|s| - 1]];
    }
  }

  lemma RepeatCountsTwice<T>(s: seq<T>, i: nat, j: nat)
    requires i < j < |s| && s[i] == s[j]
    ensures multiset(s)[s[i]] >= 2
  {
    assert s == s[..i] + [s[i]] + s[i + 1..j] + [s[j]] + s[j + 1..];
  }

  /** In whatever order, distinct subscriptions stay distinct. */
  lemma KeysStayDistinct(entries: seq<Entry>, sorted: seq<Entry>)
    requires multiset(entries) == multiset(sorted)
    requires forall i, j :: 0 <= i < j < |entries| ==> entries[i].0 != entries[j].0
    ensures forall i, j :: 0 <= i < j < |sorted| ==> sorted[i].0 != sorted[j].0
  {
    forall i, j | 0 <= i < j < |sorted| ensures sorted[i].0 != sorted[j].0 {
      assert sorted[i] in multiset(entries) && sorted[j] in multiset(entries);
      DistinctCounts(entries, sorted[i]);
      if sorted[i] == sorted[j] {
        RepeatCountsTwice(sorted, i, j);
      }
    }
  }

  lemma TagCounts(e: Entry, q: (string, string))
    requires ReadyEntry(e)
    ensures multiset(Tag(e.0, e.1))[q] == if q.0 == e.0 && q.1 in e.1 then 1 else 0
  {
    DedupeIsExact(e.1);
    var tagged := Tag(e.0, e.1);
    forall i, j | 0 <= i < j < |tagged| ensures tagged[i] != tagged[j] {
      assert Lower(e.1[i]) != Lower(e.1[j]);
    }
    DistinctCounts(tagged, q);
    if q.0 == e.0 && q.1 in e.1 {
      var i :| 0 <= i < |e.1| && e.1[i] == q.1;
      assert tagged[i] == q;
    }
  }

  lemma {:induction false} ReadyTagsOnce(entries: seq<Entry>, q: (string, string))
    requires Ready(entries)
    ensures multiset(TagAll(entries))[q] == if Asks(entries, q.0, q.1) then 1 else 0
  {
    if entries != [] {
      var before, last := entries[..|entries| - 1], entries[|entries| - 1];
      assert entries == before + [last];
      assert forall e :: e in entries <==> e in before || e == last;
      ReadyTagsOnce(before, q);
      TagCounts(last, q);
      assert q.0 == last.0 ==> !Asks(before, q.0, q.1);
      assert Asks(entries, q.0, q.1) <==> Asks(before, q.0, q.1) || (q.0 == last.0 && q.1 in last.1);
    }
  }
}
