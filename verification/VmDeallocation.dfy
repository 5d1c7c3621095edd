/** The deallocated-VM alert: a table of first sightings that must follow each machine's
    unbroken streak through every evaluation. */
module VmDeallocation {
  import opened Options
  import opened Text
  import opened AzureAlertTables
  import opened Sequences

  const DAY := 24 * 3600 * 1_000_000

  datatype Resource = Resource(id: string, resourceType: string, state: string)

  /** Times are whole microseconds. */
  datatype Evaluation = Evaluation(now: int, resources: seq<Resource>)

  type Table = map<string, int>

  datatype Match = Match(id: string, daysDeallocated: int)

  predicate IsDeallocated(r: Resource) {
    Lower(r.resourceType) == "microsoft.compute/virtualmachines" && Contains(Lower(r.state), "deallocated")
  }

  /** The ids of the deallocated machines of a snapshot. */
  function Deallocated(rs: seq<Resource>): set<string> {
    if rs == [] then {}
    else Deallocated(rs[..|rs| - 1]) + (if IsDeallocated(rs[|rs| - 1]) then {rs[|rs| - 1].id} else {})
  }

  /** How often an id is listed as deallocated in one snapshot. */
  function Listings(rs: seq<Resource>, id: string): nat {
    if rs == [] then 0
    else Listings(rs[..|rs| - 1], id) + (if IsDeallocated(rs[|rs| - 1]) && rs[|rs| - 1].id == id then 1 else 0)
  }

  /** Whole days, floored, as `timedelta.days`. */
  function WholeDays(from: int, until: int): int {
    (until - from) / DAY
  }

  /** The number of whole days is the largest that fits. */
  lemma WholeDaysExactly(from: int, until: int, days: int)
    ensures days == WholeDays(from, until) <==> 0 <= until - from - days * 86_400_000_000 < 86_400_000_000
  {
  }

  /** A listing of a deallocated machine, whatever the case of its type and state. */
  ghost predicate ListedAt(rs: seq<Resource>, id: string, i: nat) {
    && i < |rs| && rs[i].id == id && Lower(rs[i].resourceType) == "microsoft.compute/virtualmachines"
    && exists a: string, b: string :: Lower(rs[i].state) == a + "deallocated" + b
  }

  lemma DeallocatedMeans(rs: seq<Resource>, i: nat)
    requires i < |rs|
    ensures IsDeallocated(rs[i]) <==> ListedAt(rs, rs[i].id, i)
  {
    ContainsMeans(Lower(rs[i].state), "deallocated");
  }

  ghost function ListedPlaces(rs: seq<Resource>, id: string): set<nat> {
    set i: nat | i < |rs| && ListedAt(rs, id, i)
  }

  lemma ListedPlacesExtend(rs: seq<Resource>, r: Resource, id: string)
    ensures ListedPlaces(rs + [r], id) ==
      ListedPlaces(rs, id) + if IsDeallocated(r) && r.id == id then {|rs|} else {}
  {
    var all := rs + [r];
    DeallocatedMeans(all, |rs|);
    assert forall i: nat :: i < |rs| ==> all[i] == rs[i] && (ListedAt(all, id, i) <==> ListedAt(rs, id, i));
  }

  lemma SomePlace(rs: seq<Resource>, id: string)
    ensures (exists i: nat :: ListedAt(rs, id, i)) <==> ListedPlaces(rs, id) != {}
    ensures ListedPlaces(rs, id) != {} <==> |ListedPlaces(rs, id)| >= 1
  {
    if i: nat :| ListedAt(rs, id, i) {
      assert i in ListedPlaces(rs, id);
    }
  }

  lemma {:induction false} ListedIffDeallocated(rs: seq<Resource>, id: string)
    ensures Listings(rs, id) >= 1 <==> id in Deallocated(rs)
  {
    if rs != [] {
      ListedIffDeallocated(rs[..|rs| - 1], id);
    }
  }

  /** What counts as deallocated in a snapshot, and how often it is listed. */
  lemma {:induction false} ListingsAreCounted(rs: seq<Resource>, id: string)
    ensures Listings(rs, id) == |ListedPlaces(rs, id)|
    ensures id in Deallocated(rs) <==> exists i: nat :: ListedAt(rs, id, i)
  {
    ListedIffDeallocated(rs, id);
    if rs != [] {
      var front, last := rs[..|rs| - 1], rs[|rs| - 1];
      assert rs == front + [last];
      ListingsAreCounted(front, id);
      ListedPlacesExtend(front, last, id);
    }
    SomePlace(rs, id);
  }

  // ----- One evaluation ------------------------------------------------------------------------

  /** The table after the first sightings of a snapshot have been inserted. */
  function Sighted(table: Table, now: int, rs: seq<Resource>): Table {
    if rs == [] then table
    else
      var before, r := Sighted(table, now, rs[..|rs| - 1]), rs[|rs| - 1];
      if IsDeallocated(r) && r.id !in before then before[r.id := now] else before
  }

  function Matches(table: Table, now: int, minDays: int, rs: seq<Resource>): seq<Match> {
    if rs == [] then []
    else
      var before, r := rs[..|rs| - 1], rs[|rs| - 1];
      var t := Sighted(table, now, before);
      Matches(table, now, minDays, before)
      + (if IsDeallocated(r) && r.id in t && WholeDays(t[r.id], now) >= minDays
         then [Match(r.id, WholeDays(t[r.id], now))]
         else [])
  }

  function NextTable(table: Table, e: Evaluation): Table {
    var sighted := Sighted(table, e.now, e.resources);
    map id | id in Deallocated(e.resources) && id in sighted :: sighted[id]
  }

  /** Insertion never overwrites: what was sighted before stays, the rest is sighted now. */
  lemma {:induction false} SightedIsFirst(table: Table, now: int, rs: seq<Resource>)
    ensures Sighted(table, now, rs).Keys == table.Keys + Deallocated(rs)
    ensures forall id :: id in Sighted(table, now, rs) ==>
      Sighted(table, now, rs)[id] == if id in table then table[id] else now
  {
    if rs != [] {
      SightedIsFirst(table, now, rs[..|rs| - 1]);
    }
  }

  // ----- The table over any history ----------------------------------------------------------------

  function TableAfter(history: seq<Evaluation>): Table {
    if history == [] then map[] else NextTable(TableAfter(history[..|history| - 1]), history[|history| - 1])
  }

  /** The machine has been deallocated at every evaluation from `k` on, and was not at the
      one before. */
  ghost predicate StreakFrom(history: seq<Evaluation>, id: string, k: nat) {
    && k < |history|
    && (forall i :: k <= i < |history| ==> id in Deallocated(history[i].resources))
    && (k > 0 ==> id !in Deallocated(history[k - 1].resources))
  }

  lemma StreakGrows(history: seq<Evaluation>, e: Evaluation, id: string, k: nat)
    requires k < |history|
    ensures StreakFrom(history + [e], id, k) <==> StreakFrom(history, id, k) && id in Deallocated(e.resources)
  {
    var all := history + [e];
    assert all[|history|] == e;
    assert forall i :: 0 <= i < |history| ==> all[i] == history[i];
    if StreakFrom(all, id, k) {
      assert forall i :: k <= i < |history| ==> id in Deallocated(all[i].resources) && all[i] == history[i];
    }
  }

  /** After every evaluation the table holds exactly the machines deallocated in it, each
      with the time of the evaluation that began its current unbroken streak. */
  lemma {:induction false} TableTracksStreaks(history: seq<Evaluation>, id: string)
    ensures id in TableAfter(history) <==> history != [] && id in Deallocated(history[|history| - 1].resources)
    ensures id in TableAfter(history) ==>
      exists k: nat :: StreakFrom(history, id, k) && TableAfter(history)[id] == history[k].now
  {
    if history != [] {
      var before, e := history[..|history| - 1], history[|history| - 1];
      assert history == before + [e];
      TableTracksStreaks(before, id);
      SightedIsFirst(TableAfter(before), e.now, e.resources);
      if id in TableAfter(history) {
        if id in TableAfter(before) {
          var k: nat :| StreakFrom(before, id, k) && TableAfter(before)[id] == before[k].now;
          StreakGrows(before, e, id, k);
          assert history[k] == before[k];
        } else {
          StreakBegins(before, e, id);
        }
      }
    }
  }

  lemma StreakBegins(history: seq<Evaluation>, e: Evaluation, id: string)
    requires history == [] || id !in Deallocated(history[|history| - 1].resources)
    requires id in Deallocated(e.resources)
    ensures StreakFrom(history + [e], id, |history|)
  {
  }

  /** A streak that reaches the end started after every gap. */
  lemma StreakStartsLater(history: seq<Evaluation>, id: string, j: nat, k: nat)
    requires StreakFrom(history, id, j) && StreakFrom(history, id, k)
    ensures k <= j
  {
    assert k > 0 ==> id !in Deallocated(history[k - 1].resources);
  }

  // ----- What is reported ----------------------------------------------------------------------------

  predicate Reported(ms: seq<Match>, id: string) {
    exists i :: 0 <= i < |ms| && ms[i].id == id
  }

  lemma ReportedAppends(ms: seq<Match>, more: seq<Match>, id: string)
    ensures Reported(ms + more, id) <==> Reported(ms, id) || Reported(more, id)
  {
    var all := ms + more;
    if i :| 0 <= i < |ms| && ms[i].id == id {
      assert all[i].id == id;
    }
    if i :| 0 <= i < |more| && more[i].id == id {
      assert all[|ms| + i].id == id;
    }
  }

  lemma OneReported(m: Match, id: string)
    ensures Reported([m], id) <==> m.id == id
    ensures !Reported([], id)
  {
    assert [m][0] == m;
  }

  lemma {:induction false} ReportedExactly(table: Table, now: int, minDays: int, rs: seq<Resource>, id: string)
    ensures Reported(Matches(table, now, minDays, rs), id) <==>
      if id in table then Listings(rs, id) >= 1 && WholeDays(table[id], now) >= minDays
      else Listings(rs, id) >= 2 && minDays <= 0
  {
    OneReported(Match(id, 0), id);
    if rs != [] {
      var before, r := rs[..|rs| - 1], rs[|rs| - 1];
      ReportedExactly(table, now, minDays, before, id);
      SightedIsFirst(table, now, before);
      ListedIffDeallocated(before, id);
      var t := Sighted(table, now, before);
      if IsDeallocated(r) && r.id in t && WholeDays(t[r.id], now) >= minDays {
        var m := Match(r.id, WholeDays(t[r.id], now));
        ReportedAppends(Matches(table, now, minDays, before), [m], id);
        OneReported(m, id);
      } else {
        assert Matches(table, now, minDays, rs) == Matches(table, now, minDays, before);
      }
    }
  }

  /** Matches follow the order of the snapshot. */
  lemma {:induction false} MatchesInOrder(table: Table, now: int, minDays: int, rs: seq<Resource>)
    returns (places: seq<nat>)
    ensures Rising(places, |rs|) && |places| == |Matches(table, now, minDays, rs)|
    ensures forall k :: 0 <= k < |places| ==>
      Matches(table, now, minDays, rs)[k].id == rs[places[k]].id && IsDeallocated(rs[places[k]])
  {
    places := [];
    if rs != [] {
      var before, r := rs[..|rs| - 1], rs[|rs| - 1];
      assert rs == before + [r];
      places := MatchesInOrder(table, now, minDays, before);
      RisingGrows(places, |before|);
      if Matches(table, now, minDays, rs) != Matches(table, now, minDays, before) {
        places := places + [|before|];
      }
    }
  }

  /** The days reported are those since the stored first sighting. */
  lemma {:induction false} ReportedDays(table: Table, now: int, minDays: int, rs: seq<Resource>, m: Match)
    requires m in Matches(table, now, minDays, rs)
    ensures m.daysDeallocated == if m.id in table then WholeDays(table[m.id], now) else 0
  {
    if rs != [] {
      var before := rs[..|rs| - 1];
      SightedIsFirst(table, now, before);
      if m in Matches(table, now, minDays, before) {
        ReportedDays(table, now, minDays, before, m);
      }
    }
  }

  /** The current streak began at an earlier evaluation at least `minDays` whole days ago. */
  ghost predicate LongStreak(history: seq<Evaluation>, e: Evaluation, minDays: int, id: string) {
    exists k: nat :: k < |history| && StreakFrom(history + [e], id, k) && WholeDays(history[k].now, e.now) >= minDays
  }

  /** The machine was deallocated at the evaluation before. */
  predicate Continues(history: seq<Evaluation>, id: string) {
    history != [] && id in Deallocated(history[|history| - 1].resources)
  }

  lemma LongStreakOfTable(history: seq<Evaluation>, e: Evaluation, minDays: int, id: string)
    ensures var table := TableAfter(history);
      LongStreak(history, e, minDays, id) <==>
      id in table && id in Deallocated(e.resources) && WholeDays(table[id], e.now) >= minDays
  {
    var all, table := history + [e], TableAfter(history);
    TableTracksStreaks(history, id);
    forall k: nat | k < |history|
      ensures StreakFrom(all, id, k) <==> StreakFrom(history, id, k) && id in Deallocated(e.resources)
    {
      StreakGrows(history, e, id, k);
    }
    if id in table {
      var j: nat :| StreakFrom(history, id, j) && table[id] == history[j].now;
      forall k: nat | k < |history| && StreakFrom(all, id, k) ensures k == j {
        StreakStartsLater(history, id, j, k);
        StreakStartsLater(history, id, k, j);
      }
      if id in Deallocated(e.resources) {
        assert StreakFrom(all, id, j);
      }
    }
  }

  /** Being reported means having a long streak, except in one case: a machine listed twice
      in the snapshot that begins its streak, with `minDays` not positive. */
  lemma ReportedIffLongStreak(history: seq<Evaluation>, e: Evaluation, minDays: int, id: string)
    ensures
      (Reported(Matches(TableAfter(history), e.now, minDays, e.resources), id) <==> LongStreak(history, e, minDays, id))
      <==> Listings(e.resources, id) <= 1 || minDays > 0 || Continues(history, id)
  {
    ReportedExactly(TableAfter(history), e.now, minDays, e.resources, id);
    ListedIffDeallocated(e.resources, id);
    TableTracksStreaks(history, id);
    LongStreakOfTable(history, e, minDays, id);
  }

  /** A machine listed twice in the snapshot that begins its streak is found by its second
      listing in the row its first one wrote, and is reported at once if `minDays` is not
      positive. Otherwise nothing is reported in the first evaluation of a streak. */
  lemma ReportedOnFirstSight(history: seq<Evaluation>, e: Evaluation, minDays: int, id: string)
    requires !Continues(history, id)
    ensures Reported(Matches(TableAfter(history), e.now, minDays, e.resources), id) <==>
      Listings(e.resources, id) >= 2 && minDays <= 0
  {
    TableTracksStreaks(history, id);
    ReportedExactly(TableAfter(history), e.now, minDays, e.resources, id);
  }

  // ----- The evaluator ---------------------------------------------------------------------------------

  method EvaluateVmDeallocated(store: AzureAlertStore, e: Evaluation, minDays: int) returns (matched: seq<Match>)
    modifies store`vmStates
    ensures store.vmStates == NextTable(old(store.vmStates), e)
    ensures matched == Matches(old(store.vmStates), e.now, minDays, e.resources)
  {
    ghost var table := store.vmStates;
    var rs := e.resources;
    var deallocatedIds: set<string> := {};
    matched := [];
    for i := 0 to |rs|
      invariant store.vmStates == Sighted(table, e.now, rs[..i])
      invariant deallocatedIds == Deallocated(rs[..i])
      invariant matched == Matches(table, e.now, minDays, rs[..i])
    {
      assert rs[..i + 1][..i] == rs[..i];
      if IsDeallocated(rs[i]) {
        deallocatedIds := deallocatedIds + {rs[i].id};
        var firstSeen := store.GetVmFirstSeenDeallocated(rs[i].id);
        match firstSeen {
          case None => store.SetVmFirstSeenDeallocated(rs[i].id, e.now);
          case Some(at) =>
            if WholeDays(at, e.now) >= minDays {
              matched := matched + [Match(rs[i].id, WholeDays(at, e.now))];
            }
        }
      }
    }
    assert rs[..|rs|] == rs;
    store.PurgeVmStates(deallocatedIds);
  }
}
