/** The VM cost export: attribution of live costs to machines, the shared candidates of
    their resource groups, and the progress it reports on the way. Money is whole cents. */
module VmExport {
  import opened Options
  import opened Text
  import opened ResourceIds
  import opened CostFetch
  import opened VmRelationships

  type Group = (string, string)

  function GroupOf(r: Resource): Group {
    (Lower(Strip(r.subscriptionId)), Lower(Strip(r.resourceGroup)))
  }

  predicate IsVirtualMachine(r: Resource) {
    Lower(r.resourceType) == "microsoft.compute/virtualmachines"
  }

  predicate EndsWith(s: string, suffix: string) {
    |suffix| <= |s| && s[|s| - |suffix|..] == suffix
  }

  /** Whether the live cost of an associated resource is asked for. */
  predicate IsCostCandidate(r: Relationship, item: Option<Resource>) {
    && item.Some?
    && !r.ChildResource?
    && Lower(Strip(item.value.resourceType)) != "microsoft.network/networkinterfaces"
    && !EndsWith(Lower(Strip(item.value.resourceType)), "/extensions")
  }

  lemma EndsWithMeans(s: string, suffix: string)
    ensures EndsWith(s, suffix) <==> exists a: string :: s == a + suffix
  {
    if EndsWith(s, suffix) {
      assert s == s[..|s| - |suffix|] + suffix;
    }
  }

  /** Child resources, network interfaces and extensions are not asked for; any other listed
      resource is. */
  lemma CandidateExactly(r: Relationship, item: Option<Resource>)
    ensures IsCostCandidate(r, item) <==>
      && item.Some? && r != ChildResource
      && var text := Lower(Strip(item.value.resourceType));
      text != "microsoft.network/networkinterfaces" && !exists a: string :: text == a + "/extensions"
  {
    if item.Some? {
      EndsWithMeans(Lower(Strip(item.value.resourceType)), "/extensions");
    }
  }

  // ----- The associated resources of one machine ---------------------------------------------------

  datatype Associated = Associated(key: string, relationship: Relationship, candidate: bool)

  function AssociatedFor(key: string, r: Relationship, resources: seq<Resource>): Associated {
    Associated(key, r, IsCostCandidate(r, FindResource(resources, key)))
  }

  function KeysOf(rows: seq<Associated>): set<string> {
    set r | r in rows :: r.key
  }

  /** One row for every associated key, with its label. */
  ghost predicate Lists(rows: seq<Associated>, a: Association, resources: seq<Resource>) {
    && |rows| == |a| && KeysOf(rows) == a.Keys
    && (forall r :: r in rows ==> r.key in a && r == AssociatedFor(r.key, a[r.key], resources))
  }

  method BuildVmAssociatedResourceRows(a: Association, resources: seq<Resource>) returns (rows: seq<Associated>)
    ensures Lists(rows, a, resources)
  {
    rows := [];
    var todo := a.Keys;
    while todo != {}
      invariant todo <= a.Keys && KeysOf(rows) == a.Keys - todo && |rows| + |todo| == |a|
      invariant forall r :: r in rows ==> r.key in a && r == AssociatedFor(r.key, a[r.key], resources)
    {
      var key :| key in todo;
      var row := AssociatedFor(key, a[key], resources);
      assert KeysOf(rows + [row]) == KeysOf(rows) + {key};
      rows := rows + [row];
      todo := todo - {key};
    }
    assert a.Keys - todo == a.Keys;
  }

  /** Keys are listed once, and the machine alone is labelled as the machine. */
  ghost predicate OneMachine(rows: seq<Associated>, vmKey: string) {
    && (forall i, j :: 0 <= i < j < |rows| ==> rows[i].key != rows[j].key)
    && (forall r :: r in rows ==> (r.relationship.VirtualMachine? <==> r.key == vmKey))
  }

  lemma {:induction false} ManyKeysAreDistinct(rows: seq<Associated>)
    ensures |KeysOf(rows)| <= |rows|
    ensures |KeysOf(rows)| == |rows| ==> forall i, j :: 0 <= i < j < |rows| ==> rows[i].key != rows[j].key
  {
    if rows != [] {
      var before, last := rows[..|rows| - 1], rows[|rows| - 1];
      assert rows == before + [last];
      assert KeysOf(rows) == KeysOf(before) + {last.key};
      ManyKeysAreDistinct(before);
      forall i | 0 <= i < |before| && |KeysOf(rows)| == |rows| ensures rows[i].key != last.key {
        assert last.key !in KeysOf(before);
        assert before[i] in before;
      }
    }
  }

  lemma ListedRelationshipsHaveOneMachine(rows: seq<Associated>, vm: Resource, resources: seq<Resource>)
    requires Lists(rows, RelationshipsOf(vm, resources), resources)
    ensures OneMachine(rows, ResourceKey(vm.id))
  {
    ManyKeysAreDistinct(rows);
    forall r | r in rows ensures r.relationship.VirtualMachine? <==> r.key == ResourceKey(vm.id) {
      OneMachineLabel(vm, resources, r.key);
    }
  }

  // ----- Attribution to one machine ------------------------------------------------------------------

  datatype Pricing = Priced | Unpriced | NotApplicable

  datatype DetailRow = DetailRow(key: string, relationship: Relationship, cost: Option<int>, pricing: Pricing)

  datatype Summary = Summary(
    vmCost: Option<int>, attached: Option<int>, total: Option<int>, priced: nat, unpriced: nat)

  function CostOf(index: Index, key: string): Option<int> {
    if key in index then Some(index[key]) else None
  }

  function OrZero(c: Option<int>): int {
    if c.Some? then c.value else 0
  }

  /** The row of an associated key: its label, its live cost, and what that cost counts as. */
  function DetailFor(r: Associated, index: Index): DetailRow {
    var cost := CostOf(index, r.key);
    var pricing := if cost.Some? then Priced else if r.candidate then Unpriced else NotApplicable;
    DetailRow(r.key, r.relationship, cost, pricing)
  }

  function DetailsFor(associated: seq<Associated>, index: Index): (rows: seq<DetailRow>)
    ensures |rows| == |associated| && forall i :: 0 <= i < |rows| ==> rows[i] == DetailFor(associated[i], index)
  {
    if associated == [] then []
    else DetailsFor(associated[..|associated| - 1], index) + [DetailFor(associated[|associated| - 1], index)]
  }

  /** A row is priced exactly if the index has its key, whether it was asked for or not. */
  lemma DetailExactly(associated: seq<Associated>, index: Index, i: nat)
    requires i < |associated|
    ensures var row, r := DetailsFor(associated, index)[i], associated[i];
      && row.key == r.key && row.relationship == r.relationship
      && (row.pricing == Priced <==> r.key in index) && (row.cost.Some? <==> r.key in index)
      && (r.key in index ==> row.cost.value == index[r.key])
      && (row.pricing == Unpriced <==> r.key !in index && r.candidate)
  {
    assert DetailsFor(associated, index)[i] == DetailFor(associated[i], index);
  }

  function SumPriced(rows: seq<DetailRow>): int {
    if rows == [] then 0 else SumPriced(rows[..|rows| - 1]) + OrZero(rows[|rows| - 1].cost)
  }

  predicate HasRow(rows: seq<DetailRow>, key: string) {
    rows != [] && (rows[|rows| - 1].key == key || HasRow(rows[..|rows| - 1], key))
  }

  function CountPricing(rows: seq<DetailRow>, p: Pricing): nat {
    if rows == [] then 0
    else CountPricing(rows[..|rows| - 1], p) + (if rows[|rows| - 1].pricing == p then 1 else 0)
  }

  /** The machine's totals are those of its rows: the direct total is the sum of all priced
      rows, and it splits into the cost of the machine itself and the rest. */
  ghost predicate Attributed(rows: seq<DetailRow>, vmKey: string, index: Index, s: Summary) {
    && s.priced == CountPricing(rows, Priced) && s.unpriced == CountPricing(rows, Unpriced)
    && s.vmCost == (if HasRow(rows, vmKey) then CostOf(index, vmKey) else None)
    && s.total == (if s.priced > 0 then Some(SumPriced(rows)) else None)
    && s.attached == (if s.priced > 0 then Some(SumPriced(rows) - OrZero(s.vmCost)) else None)
  }

  lemma DetailAdded(rows: seq<DetailRow>, row: DetailRow, p: Pricing, key: string)
    ensures SumPriced(rows + [row]) == SumPriced(rows) + OrZero(row.cost)
    ensures CountPricing(rows + [row], p) == CountPricing(rows, p) + if row.pricing == p then 1 else 0
    ensures HasRow(rows + [row], key) <==> row.key == key || HasRow(rows, key)
  {
    assert (rows + [row])[..|rows|] == rows;
  }

  lemma {:induction false} AbsentKey(rows: seq<DetailRow>, key: string)
    requires forall r :: r in rows ==> r.key != key
    ensures !HasRow(rows, key)
  {
    if rows != [] {
      assert rows[|rows| - 1] in rows;
      AbsentKey(rows[..|rows| - 1], key);
    }
  }

  lemma MachineComesOnce(before: seq<Associated>, r: Associated, index: Index, vmKey: string)
    requires OneMachine(before + [r], vmKey) && r.key == vmKey
    ensures !HasRow(DetailsFor(before, index), vmKey)
  {
    var all := before + [r];
    forall i | 0 <= i < |before| ensures before[i].key != vmKey {
      assert all[i] == before[i] && all[|before|] == r;
    }
    AbsentKey(DetailsFor(before, index), vmKey);
  }

  /** The running sums of the loop over one machine's rows. */
  datatype Tally = Tally(vmCost: Option<int>, attached: int, priced: nat, unpriced: nat)

  ghost predicate Tallied(rows: seq<DetailRow>, vmKey: string, index: Index, t: Tally) {
    && OrZero(t.vmCost) + t.attached == SumPriced(rows)
    && t.priced == CountPricing(rows, Priced) && t.unpriced == CountPricing(rows, Unpriced)
    && t.vmCost == (if HasRow(rows, vmKey) then CostOf(index, vmKey) else None)
    && (t.priced == 0 ==> t.vmCost.None?)
  }

  function Counted(t: Tally, row: DetailRow): Tally {
    if row.pricing.Unpriced? then t.(unpriced := t.unpriced + 1)
    else if row.pricing.NotApplicable? then t
    else if row.relationship.VirtualMachine? then t.(vmCost := row.cost, priced := t.priced + 1)
    else t.(attached := t.attached + OrZero(row.cost), priced := t.priced + 1)
  }

  lemma RowIsCounted(rows: seq<DetailRow>, r: Associated, vmKey: string, index: Index, t: Tally)
    requires Tallied(rows, vmKey, index, t)
    requires r.relationship.VirtualMachine? <==> r.key == vmKey
    requires r.key == vmKey ==> !HasRow(rows, vmKey)
    ensures Tallied(rows + [DetailFor(r, index)], vmKey, index, Counted(t, DetailFor(r, index)))
  {
    DetailAdded(rows, DetailFor(r, index), Priced, vmKey);
    DetailAdded(rows, DetailFor(r, index), Unpriced, vmKey);
  }

  function TallyOf(associated: seq<Associated>, index: Index): Tally {
    if associated == [] then Tally(None, 0, 0, 0)
    else Counted(TallyOf(associated[..|associated| - 1], index), DetailFor(associated[|associated| - 1], index))
  }

  lemma DetailsExtend(before: seq<Associated>, r: Associated, index: Index)
    ensures DetailsFor(before + [r], index) == DetailsFor(before, index) + [DetailFor(r, index)]
  {
    assert (before + [r])[..|before|] == before;
  }

  lemma OneMachineBefore(before: seq<Associated>, r: Associated, vmKey: string)
    requires OneMachine(before + [r], vmKey)
    ensures OneMachine(before, vmKey) && (r.relationship.VirtualMachine? <==> r.key == vmKey)
  {
    var all := before + [r];
    assert r in all && forall x :: x in before ==> x in all;
    assert forall i :: 0 <= i < |before| ==> all[i] == before[i];
  }

  lemma {:induction false} RowsAreTallied(associated: seq<Associated>, index: Index, vmKey: string)
    requires OneMachine(associated, vmKey)
    ensures Tallied(DetailsFor(associated, index), vmKey, index, TallyOf(associated, index))
  {
    if associated != [] {
      var before, r := associated[..|associated| - 1], associated[|associated| - 1];
      assert associated == before + [r];
      OneMachineBefore(before, r, vmKey);
      RowsAreTallied(before, index, vmKey);
      if r.key == vmKey {
        MachineComesOnce(before, r, index, vmKey);
      }
      RowIsCounted(DetailsFor(before, index), r, vmKey, index, TallyOf(before, index));
      DetailsExtend(before, r, index);
    }
  }

  function SummaryOf(t: Tally): Summary {
    if t.priced > 0 then Summary(t.vmCost, Some(t.attached), Some(OrZero(t.vmCost) + t.attached), t.priced, t.unpriced)
    else Summary(t.vmCost, None, None, t.priced, t.unpriced)
  }

  lemma SummaryIsAttributed(associated: seq<Associated>, index: Index, vmKey: string)
    requires OneMachine(associated, vmKey)
    ensures Attributed(DetailsFor(associated, index), vmKey, index, SummaryOf(TallyOf(associated, index)))
  {
    RowsAreTallied(associated, index, vmKey);
    TallyIsAttributed(DetailsFor(associated, index), vmKey, index, TallyOf(associated, index));
  }

  lemma TallyIsAttributed(rows: seq<DetailRow>, vmKey: string, index: Index, t: Tally)
    requires Tallied(rows, vmKey, index, t)
    ensures Attributed(rows, vmKey, index, SummaryOf(t))
  {
  }

  method BuildVmRows(ghost vmKey: string, associated: seq<Associated>, index: Index)
      returns (rows: seq<DetailRow>, summary: Summary)
    requires OneMachine(associated, vmKey)
    ensures rows == DetailsFor(associated, index)
    ensures Attributed(rows, vmKey, index, summary)
  {
    var tally;
    rows, tally := TallyRows(associated, index);
    SummaryIsAttributed(associated, index, vmKey);
    summary := SummaryOf(tally);
  }

  /** What one more row does to the sums. */
  lemma TallyExtends(before: seq<Associated>, r: Associated, index: Index, vmCost: Option<int>, attached: int,
      priced: nat, unpriced: nat)
    requires TallyOf(before, index) == Tally(vmCost, attached, priced, unpriced)
    ensures r.key in index && r.relationship.VirtualMachine? ==>
      TallyOf(before + [r], index) == Tally(Some(index[r.key]), attached, priced + 1, unpriced)
    ensures r.key in index && !r.relationship.VirtualMachine? ==>
      TallyOf(before + [r], index) == Tally(vmCost, attached + index[r.key], priced + 1, unpriced)
    ensures r.key !in index ==>
      TallyOf(before + [r], index) == Tally(vmCost, attached, priced, unpriced + if r.candidate then 1 else 0)
  {
    assert (before + [r])[..|before|] == before;
  }

  /** The loop over one machine's rows. */
  method TallyRows(associated: seq<Associated>, index: Index) returns (rows: seq<DetailRow>, tally: Tally)
    ensures rows == DetailsFor(associated, index) && tally == TallyOf(associated, index)
  {
    var vmCost: Option<int> := None;
    var attached, priced, unpriced := 0, 0, 0;
    rows := [];
    ghost var seen: seq<Associated> := [];
    for i := 0 to |associated|
      invariant seen == associated[..i] && rows == DetailsFor(seen, index)
      invariant TallyOf(seen, index) == Tally(vmCost, attached, priced, unpriced)
    {
      var r := associated[i];
      var row := DetailFor(r, index);
      DetailsExtend(seen, r, index);
      TallyExtends(seen, r, index, vmCost, attached, priced, unpriced);
      if r.key in index {
        priced := priced + 1;
        if r.relationship.VirtualMachine? {
          vmCost := Some(index[r.key]);
        } else {
          attached := attached + index[r.key];
        }
      } else if r.candidate {
        unpriced := unpriced + 1;
      }
      rows, seen := rows + [row], seen + [r];
    }
    assert seen == associated;
    tally := Tally(vmCost, attached, priced, unpriced);
  }

  // ----- Ids to ask for -----------------------------------------------------------------------------------

  /** `ids[subscription].append(id)` on a dictionary of lists. */
  function AppendId(ids: seq<Entry>, subscription: string, id: string): seq<Entry> {
    match FindKey(ids, subscription)
    case Some(i) => ids[i := (subscription, ids[i].1 + [id])]
    case None => ids + [(subscription, [id])]
  }

  lemma AppendIdAsks(ids: seq<Entry>, subscription: string, id: string, s: string, x: string)
    ensures Asks(AppendId(ids, subscription, id), s, x) <==> Asks(ids, s, x) || (s == subscription && x == id)
  {
    var after := AppendId(ids, subscription, id);
    var at := match FindKey(ids, subscription) case Some(i) => i case None => |ids|;
    assert after[at].0 == subscription && id in after[at].1 && after[at] in after;
    if Asks(ids, s, x) {
      var e :| e in ids && e.0 == s && x in e.1;
      var j :| 0 <= j < |ids| && ids[j] == e;
      assert after[j] in after && after[j].0 == s && x in after[j].1;
    }
    if Asks(after, s, x) {
      var e :| e in after && e.0 == s && x in e.1;
      var j :| 0 <= j < |after| && after[j] == e;
      if j != at {
        assert ids[j] in ids;
      } else if x != id {
        assert at < |ids| && ids[at] in ids && x in ids[at].1;
      }
    }
  }

  // ----- Shared candidates ---------------------------------------------------------------------------------

  /** A resource that merely shares its group with a selected machine. */
  predicate IsShared(r: Resource, groups: set<Group>, direct: set<string>, related: set<string>) {
    && ResourceKey(r.id) != "" && Strip(r.subscriptionId) != "" && GroupOf(r).1 != ""
    && GroupOf(r) in groups
    && ResourceKey(r.id) !in direct && ResourceKey(r.id) !in related
    && !IsVirtualMachine(r)
  }

  /** A shared resource is asked for under its own subscription and id. */
  ghost predicate SharedAsks(rs: seq<Resource>, groups: set<Group>, direct: set<string>, related: set<string>,
      s: string, x: string)
  {
    exists r :: r in rs && IsShared(r, groups, direct, related) && Strip(r.subscriptionId) == s && r.id == x
  }

  ghost predicate SharedAsked(rs: seq<Resource>, groups: set<Group>, direct: set<string>, related: set<string>,
      ids: seq<Entry>)
  {
    forall s, x :: Asks(ids, s, x) <==> SharedAsks(rs, groups, direct, related, s, x)
  }

  /** The shared resources by key, a later one in place of an earlier one. */
  function SharedItems(rs: seq<Resource>, groups: set<Group>, direct: set<string>,
      related: set<string>): map<string, Resource>
  {
    if rs == [] then map[]
    else
      var before, r := SharedItems(rs[..|rs| - 1], groups, direct, related), rs[|rs| - 1];
      if IsShared(r, groups, direct, related) then before[ResourceKey(r.id) := r] else before
  }

  lemma {:induction false} SharedItemsAreShared(rs: seq<Resource>, groups: set<Group>, direct: set<string>,
      related: set<string>)
    ensures var items := SharedItems(rs, groups, direct, related);
      && items.Keys == (set r | r in rs && IsShared(r, groups, direct, related) :: ResourceKey(r.id))
      && forall k :: k in items ==>
        ResourceKey(items[k].id) == k && items[k] in rs && IsShared(items[k], groups, direct, related)
  {
    if rs != [] {
      var before := rs[..|rs| - 1];
      assert rs == before + [rs[|rs| - 1]];
      SharedItemsAreShared(before, groups, direct, related);
    }
  }

  ghost predicate SharedUnder(r: Resource, groups: set<Group>, direct: set<string>, related: set<string>, key: string) {
    ResourceKey(r.id) == key && IsShared(r, groups, direct, related)
  }

  lemma SharedItemsStep(rs: seq<Resource>, r: Resource, groups: set<Group>, direct: set<string>,
      related: set<string>, key: string)
    ensures var before, after :=
        SharedItems(rs, groups, direct, related), SharedItems(rs + [r], groups, direct, related);
      if SharedUnder(r, groups, direct, related, key) then key in after && after[key] == r
      else (key in after <==> key in before) && (key in after ==> after[key] == before[key])
  {
    assert (rs + [r])[..|rs|] == rs;
  }

  /** A shared item is the last one listed under its key. */
  lemma {:induction false} SharedItemIsLast(rs: seq<Resource>, groups: set<Group>, direct: set<string>,
      related: set<string>, key: string) returns (i: nat)
    requires key in SharedItems(rs, groups, direct, related)
    ensures i < |rs| && SharedUnder(rs[i], groups, direct, related, key)
    ensures SharedItems(rs, groups, direct, related)[key] == rs[i]
    ensures forall j :: i < j < |rs| ==> !SharedUnder(rs[j], groups, direct, related, key)
  {
    i := |rs| - 1;
    var before := rs[..i];
    assert rs == before + [rs[i]];
    SharedItemsStep(before, rs[i], groups, direct, related, key);
    if !SharedUnder(rs[i], groups, direct, related, key) {
      i := SharedItemIsLast(before, groups, direct, related, key);
    }
  }

  lemma SharedAskedExtends(
    rs: seq<Resource>, r: Resource, groups: set<Group>, direct: set<string>, related: set<string>, ids: seq<Entry>)
    requires SharedAsked(rs, groups, direct, related, ids)
    ensures SharedAsked(rs + [r], groups, direct, related,
      if IsShared(r, groups, direct, related) then AppendId(ids, Strip(r.subscriptionId), r.id) else ids)
  {
    var sub := Strip(r.subscriptionId);
    var shared := IsShared(r, groups, direct, related);
    var after := if shared then AppendId(ids, sub, r.id) else ids;
    forall s, x ensures Asks(after, s, x) <==> SharedAsks(rs + [r], groups, direct, related, s, x) {
      AppendIdAsks(ids, sub, r.id, s, x);
      assert SharedAsks(rs + [r], groups, direct, related, s, x) <==>
        SharedAsks(rs, groups, direct, related, s, x) || (shared && sub == s && r.id == x) by {
        assert r in rs + [r];
      }
    }
  }

  method CollectSharedCandidates(resources: seq<Resource>, groups: set<Group>, direct: set<string>,
      related: set<string>)
      returns (items: map<string, Resource>, ids: seq<Entry>)
    ensures items == SharedItems(resources, groups, direct, related)
    ensures SharedAsked(resources, groups, direct, related, ids)
  {
    items, ids := map[], [];
    for i := 0 to |resources|
      invariant items == SharedItems(resources[..i], groups, direct, related)
      invariant SharedAsked(resources[..i], groups, direct, related, ids)
    {
      var r := resources[i];
      assert resources[..i + 1] == resources[..i] + [r];
      assert resources[..i + 1][..i] == resources[..i];
      SharedAskedExtends(resources[..i], r, groups, direct, related, ids);
      if IsShared(r, groups, direct, related) {
        items := items[ResourceKey(r.id) := r];
        ids := AppendId(ids, Strip(r.subscriptionId), r.id);
      }
    }
    assert resources[..|resources|] == resources;
  }

  datatype SharedRow = SharedRow(key: string, group: Group, cost: int)

  function GroupSum(rows: seq<SharedRow>, g: Group): int {
    if rows == [] then 0
    else GroupSum(rows[..|rows| - 1], g) + (if rows[|rows| - 1].group == g then rows[|rows| - 1].cost else 0)
  }

  function GroupCount(rows: seq<SharedRow>, g: Group): nat {
    if rows == [] then 0
    else GroupCount(rows[..|rows| - 1], g) + (if rows[|rows| - 1].group == g then 1 else 0)
  }

  /** A group's count and amount grow by its own rows only. */
  lemma GroupRowAdded(rows: seq<SharedRow>, row: SharedRow, g: Group)
    ensures GroupCount(rows + [row], g) == GroupCount(rows, g) + if row.group == g then 1 else 0
    ensures GroupSum(rows + [row], g) == GroupSum(rows, g) + if row.group == g then row.cost else 0
  {
    assert (rows + [row])[..|rows|] == rows;
  }

  function SharedKeysOf(rows: seq<SharedRow>): set<string> {
    set r | r in rows :: r.key
  }

  /** How many shared rows a group has and what they cost together. */
  datatype GroupTotal = GroupTotal(count: nat, amount: int)

  function TotalFor(totals: map<Group, GroupTotal>, g: Group): GroupTotal {
    if g in totals then totals[g] else GroupTotal(0, 0)
  }

  predicate IsSharedRow(r: SharedRow, items: map<string, Resource>, index: Index) {
    r.key in items && r.key in index && r.cost == index[r.key] && r.group == GroupOf(items[r.key])
  }

  ghost predicate TotalsMatch(totals: map<Group, GroupTotal>, rows: seq<SharedRow>) {
    forall g :: TotalFor(totals, g) == GroupTotal(GroupCount(rows, g), GroupSum(rows, g))
  }

  function AddToGroup(totals: map<Group, GroupTotal>, row: SharedRow): map<Group, GroupTotal> {
    var t := TotalFor(totals, row.group);
    totals[row.group := GroupTotal(t.count + 1, t.amount + row.cost)]
  }

  lemma SharedRowAdded(rows: seq<SharedRow>, row: SharedRow, totals: map<Group, GroupTotal>)
    requires TotalsMatch(totals, rows)
    ensures TotalsMatch(AddToGroup(totals, row), rows + [row])
    ensures SharedKeysOf(rows + [row]) == SharedKeysOf(rows) + {row.key}
  {
    var more := rows + [row];
    forall g ensures TotalFor(AddToGroup(totals, row), g) == GroupTotal(GroupCount(more, g), GroupSum(more, g)) {
      GroupRowAdded(rows, row, g);
      assert TotalFor(totals, g) == GroupTotal(GroupCount(rows, g), GroupSum(rows, g));
    }
  }

  method PriceSharedCandidates(items: map<string, Resource>, index: Index)
      returns (rows: seq<SharedRow>, totals: map<Group, GroupTotal>)
    ensures forall r :: r in rows ==> IsSharedRow(r, items, index)
    ensures SharedKeysOf(rows) == items.Keys * index.Keys && |rows| == |items.Keys * index.Keys|
    ensures TotalsMatch(totals, rows)
  {
    rows, totals := [], map[];
    var all := items.Keys * index.Keys;
    var todo := all;
    while todo != {}
      invariant todo <= all && SharedKeysOf(rows) == all - todo && |rows| + |todo| == |all|
      invariant forall r :: r in rows ==> IsSharedRow(r, items, index)
      invariant TotalsMatch(totals, rows)
    {
      var key :| key in todo;
      var row := SharedRow(key, GroupOf(items[key]), index[key]);
      SharedRowAdded(rows, row, totals);
      totals := AddToGroup(totals, row);
      rows := rows + [row];
      todo := todo - {key};
    }
    assert all - todo == all;
  }
}
