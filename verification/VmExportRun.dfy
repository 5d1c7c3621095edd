/** One run of the VM cost export from the selected machines to the finished rows. */
module VmExportRun {
  import opened Options
  import opened Text
  import opened ResourceIds
  import opened CostFetch
  import opened CostQuery
  import opened VmRelationships
  import opened VmExport

  type Associations = map<string, seq<Associated>>

  /** The selected machines that have an id. */
  function WithId(vms: seq<Resource>): nat {
    if vms == [] then 0 else WithId(vms[..|vms| - 1]) + (if HasKey(vms[|vms| - 1]) then 1 else 0)
  }

  lemma {:induction false} WithIdBound(vms: seq<Resource>)
    ensures WithId(vms) <= |vms|
    ensures (forall vm :: vm in vms ==> HasKey(vm)) ==> WithId(vms) == |vms|
  {
    if vms != [] {
      WithIdBound(vms[..|vms| - 1]);
      assert vms[|vms| - 1] in vms;
      assert forall vm :: vm in vms[..|vms| - 1] ==> vm in vms;
    }
  }

  lemma WithIdExtends(vms: seq<Resource>, vm: Resource)
    ensures WithId(vms + [vm]) == WithId(vms) + if HasKey(vm) then 1 else 0
  {
    assert (vms + [vm])[..|vms|] == vms;
  }

  // ----- What the selected machines lead to -----------------------------------------------------------

  /** The listed resource of a machine, if there is one. */
  function ItemOf(vm: Resource, resources: seq<Resource>): Resource {
    var found := FindResource(resources, ResourceKey(vm.id));
    if found.Some? then found.value else vm
  }

  function Related(vm: Resource, resources: seq<Resource>): Association {
    RelationshipsOf(ItemOf(vm, resources), resources)
  }

  /** The record of a machine is the last one listed under its id, or as it was selected. */
  lemma ItemExactly(vm: Resource, resources: seq<Resource>)
    requires ResourceKey(vm.id) != ""
    ensures if exists r :: r in resources && ResourceKey(r.id) == ResourceKey(vm.id)
      then exists i: nat :: LastWith(resources, ResourceKey(vm.id), i) && ItemOf(vm, resources) == resources[i]
      else ItemOf(vm, resources) == vm
  {
    FindResourceIsLast(resources, ResourceKey(vm.id));
  }

  /** The live cost of a resource related to the machine is asked for under these names. */
  ghost predicate Wants(vm: Resource, resources: seq<Resource>, s: string, x: string) {
    && s != "" && x != ""
    && exists k :: k in Related(vm, resources) && AsksFor(k, Related(vm, resources)[k], resources, s, x)
  }

  predicate AsksFor(key: string, r: Relationship, resources: seq<Resource>, s: string, x: string) {
    var item := FindResource(resources, key);
    IsCostCandidate(r, item) && item.value.subscriptionId == s && item.value.id == x
  }

  /** What mapping the selected machines builds up. */
  datatype Mapping = Mapping(associations: Associations, groups: set<Group>, direct: set<string>, ids: seq<Entry>)

  predicate HasKey(vm: Resource) {
    ResourceKey(vm.id) != ""
  }

  predicate HasGroup(vm: Resource) {
    HasKey(vm) && GroupOf(vm).0 != "" && GroupOf(vm).1 != ""
  }

  ghost predicate DirectTo(key: string, vms: seq<Resource>, resources: seq<Resource>) {
    exists vm :: vm in vms && HasKey(vm) && key in Related(vm, resources)
  }

  ghost predicate WantedBy(vms: seq<Resource>, resources: seq<Resource>, s: string, x: string) {
    exists vm :: vm in vms && HasKey(vm) && Wants(vm, resources, s, x)
  }

  /** A key has the rows of the last machine selected under it. */
  ghost predicate RowsAreRight(a: Associations, key: string, vms: seq<Resource>, resources: seq<Resource>) {
    var vm := FindResource(vms, key);
    && (key in a <==> vm.Some?)
    && (key in a ==> Lists(a[key], Related(vm.value, resources), resources))
  }

  ghost predicate AssociationsAreRight(a: Associations, vms: seq<Resource>, resources: seq<Resource>) {
    forall k {:trigger RowsAreRight(a, k, vms, resources)} :: RowsAreRight(a, k, vms, resources)
  }

  ghost predicate DirectIsRight(direct: set<string>, vms: seq<Resource>, resources: seq<Resource>) {
    forall k {:trigger DirectTo(k, vms, resources)} :: k in direct <==> DirectTo(k, vms, resources)
  }

  ghost predicate AsksAreRight(ids: seq<Entry>, vms: seq<Resource>, resources: seq<Resource>) {
    forall s, x {:trigger WantedBy(vms, resources, s, x)} :: Asks(ids, s, x) <==> WantedBy(vms, resources, s, x)
  }

  function GroupsOf(vms: seq<Resource>): set<Group> {
    set vm | vm in vms && HasGroup(vm) :: GroupOf(vm)
  }

  /** The rows of each machine, the groups, everything related to some machine, and the ids
      to ask for are those of the selected machines that have an id, no more and no less. */
  ghost predicate MappingIsRight(m: Mapping, vms: seq<Resource>, resources: seq<Resource>) {
    && AssociationsAreRight(m.associations, vms, resources)
    && m.groups == GroupsOf(vms)
    && DirectIsRight(m.direct, vms, resources)
    && AsksAreRight(m.ids, vms, resources)
  }

  lemma ItemHasKey(vm: Resource, resources: seq<Resource>)
    ensures ResourceKey(ItemOf(vm, resources).id) == ResourceKey(vm.id)
  {
  }

  /** In a right mapping each machine's rows list distinct keys, of which its own alone is
      labelled as the machine, and all of which count as direct. */
  lemma MappedRows(m: Mapping, vms: seq<Resource>, resources: seq<Resource>, key: string)
    requires MappingIsRight(m, vms, resources) && key in m.associations
    ensures OneMachine(m.associations[key], key)
    ensures KeysOf(m.associations[key]) <= m.direct
  {
    var rows := m.associations[key];
    assert RowsAreRight(m.associations, key, vms, resources);
    var vm := FindResource(vms, key).value;
    ItemHasKey(vm, resources);
    ListedRelationshipsHaveOneMachine(rows, ItemOf(vm, resources), resources);
    forall k | k in KeysOf(rows) ensures k in m.direct {
      assert DirectTo(k, vms, resources);
    }
  }

  /** What the direct phase asks for: the listed resources related to a machine with an id,
      but for child resources, network interfaces and extensions. */
  ghost predicate IsDirectAsk(vm: Resource, resources: seq<Resource>, key: string, s: string, x: string) {
    && ResourceKey(vm.id) != "" && key in Related(vm, resources) && Related(vm, resources)[key] != ChildResource
    && exists i: nat :: LastWith(resources, key, i) && IsDirectItem(resources[i], s, x)
  }

  ghost predicate IsDirectItem(item: Resource, s: string, x: string) {
    && item.subscriptionId == s && item.id == x
    && Lower(Strip(item.resourceType)) != "microsoft.network/networkinterfaces"
    && !exists a: string :: Lower(Strip(item.resourceType)) == a + "/extensions"
  }

  lemma DirectAskOfKey(vm: Resource, resources: seq<Resource>, key: string, s: string, x: string)
    requires HasKey(vm) && key in Related(vm, resources)
    ensures AsksFor(key, Related(vm, resources)[key], resources, s, x) <==> IsDirectAsk(vm, resources, key, s, x)
  {
    var item := FindResource(resources, key);
    FindResourceIsLast(resources, key);
    CandidateExactly(Related(vm, resources)[key], item);
    RelatedExactly(ItemOf(vm, resources), resources, key);
    if i: nat :| LastWith(resources, key, i) && IsDirectItem(resources[i], s, x) {
      LastIsFound(resources, key, i);
    }
  }

  lemma DirectAsksExactly(m: Mapping, vms: seq<Resource>, resources: seq<Resource>, s: string, x: string)
    requires MappingIsRight(m, vms, resources)
    ensures Asks(m.ids, s, x) <==>
      s != "" && x != "" && exists vm, key :: vm in vms && IsDirectAsk(vm, resources, key, s, x)
  {
    assert Asks(m.ids, s, x) <==> WantedBy(vms, resources, s, x);
    forall vm, key | HasKey(vm) && key in Related(vm, resources)
      ensures AsksFor(key, Related(vm, resources)[key], resources, s, x) <==> IsDirectAsk(vm, resources, key, s, x)
    {
      DirectAskOfKey(vm, resources, key, s, x);
    }
  }

  /** What counts as a shared candidate: a resource with an id in the resource group of a
      selected machine that is no machine, and that belongs to none. */
  lemma SharedExactly(r: Resource, vms: seq<Resource>, direct: set<string>, related: set<string>)
    ensures IsShared(r, GroupsOf(vms), direct, related) <==>
      && ResourceKey(r.id) != "" && ResourceKey(r.id) !in direct + related
      && Lower(r.resourceType) != "microsoft.compute/virtualmachines"
      && exists vm :: vm in vms && ResourceKey(vm.id) != "" && InSameGroup(vm, r)
  {
    BlankWhenLower(Strip(r.subscriptionId));
    if vm :| vm in vms && ResourceKey(vm.id) != "" && InSameGroup(vm, r) {
      assert HasGroup(vm) && GroupOf(vm) == GroupOf(r);
    }
  }

  /** A shared candidate, told from the records: in the resource group of a selected machine,
      no machine, related to no selected machine, and related to no listed machine of the
      selected groups. */
  ghost predicate IsSharedCandidate(r: Resource, vms: seq<Resource>, resources: seq<Resource>) {
    && ResourceKey(r.id) != "" && Lower(r.resourceType) != "microsoft.compute/virtualmachines"
    && InSelectedGroup(r, vms)
    && (forall vm :: vm in vms && ResourceKey(vm.id) != "" ==> ResourceKey(r.id) !in Related(vm, resources))
    && (forall other ::
          other in resources && InSelectedGroup(other, vms)
          && Lower(other.resourceType) == "microsoft.compute/virtualmachines" ==>
            ResourceKey(r.id) !in RelationshipsOf(other, resources))
  }

  ghost predicate InSelectedGroup(r: Resource, vms: seq<Resource>) {
    exists vm :: vm in vms && ResourceKey(vm.id) != "" && InSameGroup(vm, r)
  }

  lemma SelectedGroups(r: Resource, vms: seq<Resource>)
    ensures GroupOf(r) in GroupsOf(vms) <==> InSelectedGroup(r, vms)
  {
    if vm :| vm in vms && ResourceKey(vm.id) != "" && InSameGroup(vm, r) {
      assert HasGroup(vm) && GroupOf(vm) == GroupOf(r);
    }
  }

  lemma SharedOfPlan(p: Plan, vms: seq<Resource>, resources: seq<Resource>, r: Resource)
    requires PlanIsRight(p, vms, resources)
    ensures IsShared(r, p.mapping.groups, p.mapping.direct, p.related) <==> IsSharedCandidate(r, vms, resources)
  {
    SharedExactly(r, vms, p.mapping.direct, p.related);
    assert ResourceKey(r.id) in p.mapping.direct <==> DirectTo(ResourceKey(r.id), vms, resources);
    forall other | other in resources ensures GroupOf(other) in p.mapping.groups <==> InSelectedGroup(other, vms) {
      SelectedGroups(other, vms);
    }
    assert ResourceKey(r.id) in p.related <==> RelatedIn(ResourceKey(r.id), resources, p.mapping.groups, resources);
  }

  /** The plan of an export prices exactly the shared candidates, and asks for each under its
      own subscription and id. */
  lemma SharedPlanExactly(p: Plan, vms: seq<Resource>, resources: seq<Resource>, key: string, s: string, x: string)
    requires PlanIsRight(p, vms, resources)
    ensures key in p.items <==>
      exists r :: r in resources && ResourceKey(r.id) == key && IsSharedCandidate(r, vms, resources)
    ensures Asks(p.sharedIds, s, x) <==> exists r ::
      r in resources && IsSharedCandidate(r, vms, resources) && Strip(r.subscriptionId) == s && r.id == x
  {
    var m := p.mapping;
    SharedItemsAreShared(resources, m.groups, m.direct, p.related);
    forall r ensures IsShared(r, m.groups, m.direct, p.related) <==> IsSharedCandidate(r, vms, resources) {
      SharedOfPlan(p, vms, resources, r);
    }
    assert Asks(p.sharedIds, s, x) <==> SharedAsks(resources, m.groups, m.direct, p.related, s, x);
  }

  lemma BlankWhenLower(s: string)
    ensures Lower(s) == "" <==> s == ""
  {
  }

  predicate InSameGroup(vm: Resource, r: Resource) {
    && Lower(Strip(vm.subscriptionId)) == Lower(Strip(r.subscriptionId)) != ""
    && Lower(Strip(vm.resourceGroup)) == Lower(Strip(r.resourceGroup)) != ""
  }

  // ----- Mapping one machine ----------------------------------------------------------------------------

  /** What the first rows of a machine ask for. */
  ghost predicate RowsAsk(rows: seq<Associated>, resources: seq<Resource>, s: string, x: string) {
    exists r :: r in rows && RowAsks(r, resources, s, x)
  }

  predicate RowAsks(r: Associated, resources: seq<Resource>, s: string, x: string) {
    var item := FindResource(resources, r.key);
    r.candidate && item.Some? && item.value.subscriptionId == s && item.value.id == x && s != "" && x != ""
  }

  ghost predicate AsksAdded(ids: seq<Entry>, rows: seq<Associated>, resources: seq<Resource>, more: seq<Entry>) {
    forall s, x :: Asks(more, s, x) <==> Asks(ids, s, x) || RowsAsk(rows, resources, s, x)
  }

  lemma AskAdded(ids: seq<Entry>, rows: seq<Associated>, resources: seq<Resource>, more: seq<Entry>, r: Associated)
    requires AsksAdded(ids, rows, resources, more)
    ensures var item := FindResource(resources, r.key);
      AsksAdded(ids, rows + [r], resources,
        if r.candidate && item.Some? && item.value.subscriptionId != "" && item.value.id != ""
        then AppendId(more, item.value.subscriptionId, item.value.id) else more)
  {
    var item := FindResource(resources, r.key);
    forall s, x
      ensures RowsAsk(rows + [r], resources, s, x) <==> RowsAsk(rows, resources, s, x) || RowAsks(r, resources, s, x)
    {
      assert r in rows + [r];
    }
    if item.Some? {
      forall s, x
        ensures Asks(AppendId(more, item.value.subscriptionId, item.value.id), s, x) <==>
          Asks(more, s, x) || (s == item.value.subscriptionId && x == item.value.id)
      {
        AppendIdAsks(more, item.value.subscriptionId, item.value.id, s, x);
      }
    }
  }

  method AskForCandidates(rows: seq<Associated>, resources: seq<Resource>, ids: seq<Entry>) returns (more: seq<Entry>)
    ensures AsksAdded(ids, rows, resources, more)
  {
    more := ids;
    for i := 0 to |rows|
      invariant AsksAdded(ids, rows[..i], resources, more)
    {
      assert rows[..i + 1] == rows[..i] + [rows[i]];
      AskAdded(ids, rows[..i], resources, more, rows[i]);
      var item := FindResource(resources, rows[i].key);
      if rows[i].candidate && item.Some? && item.value.subscriptionId != "" && item.value.id != "" {
        more := AppendId(more, item.value.subscriptionId, item.value.id);
      }
    }
    assert rows[..|rows|] == rows;
  }

  lemma RowsAskWhatIsWanted(rows: seq<Associated>, vm: Resource, resources: seq<Resource>, s: string, x: string)
    requires Lists(rows, Related(vm, resources), resources)
    ensures RowsAsk(rows, resources, s, x) <==> Wants(vm, resources, s, x)
  {
    var a := Related(vm, resources);
    if RowsAsk(rows, resources, s, x) {
      var r :| r in rows && RowAsks(r, resources, s, x);
      assert AsksFor(r.key, a[r.key], resources, s, x);
    }
    if Wants(vm, resources, s, x) {
      var k :| k in a && AsksFor(k, a[k], resources, s, x);
      assert k in KeysOf(rows);
      var r :| r in rows && r.key == k;
      assert RowAsks(r, resources, s, x);
    }
  }

  lemma FindAppended(rs: seq<Resource>, r: Resource, key: string)
    ensures FindResource(rs + [r], key) ==
      if key != "" && ResourceKey(r.id) == key then Some(r) else FindResource(rs, key)
  {
    assert (rs + [r])[..|rs|] == rs;
  }

  /** Every machine with an id is found under its key. */
  lemma {:induction false} EveryMachineIsFound(rs: seq<Resource>, r: Resource)
    requires r in rs && HasKey(r)
    ensures FindResource(rs, ResourceKey(r.id)).Some?
  {
    if rs[|rs| - 1] != r {
      EveryMachineIsFound(rs[..|rs| - 1], r);
    }
  }

  lemma AssociationsGrow(before: Associations, vms: seq<Resource>, vm: Resource, resources: seq<Resource>,
      rows: seq<Associated>)
    requires AssociationsAreRight(before, vms, resources)
    requires HasKey(vm) ==> Lists(rows, Related(vm, resources), resources)
    ensures var after := if HasKey(vm) then before[ResourceKey(vm.id) := rows] else before;
      AssociationsAreRight(after, vms + [vm], resources)
  {
    var a := if HasKey(vm) then before[ResourceKey(vm.id) := rows] else before;
    forall k ensures RowsAreRight(a, k, vms + [vm], resources) {
      FindAppended(vms, vm, k);
      assert RowsAreRight(before, k, vms, resources);
    }
  }

  lemma DirectGrows(before: set<string>, vms: seq<Resource>, vm: Resource, resources: seq<Resource>, keys: set<string>)
    requires DirectIsRight(before, vms, resources)
    requires keys == if HasKey(vm) then Related(vm, resources).Keys else {}
    ensures DirectIsRight(before + keys, vms + [vm], resources)
  {
    forall k ensures k in before + keys <==> DirectTo(k, vms + [vm], resources) {
      DirectToExtends(k, vms, vm, resources);
      assert k in before <==> DirectTo(k, vms, resources);
    }
  }

  lemma DirectToExtends(k: string, vms: seq<Resource>, vm: Resource, resources: seq<Resource>)
    ensures DirectTo(k, vms + [vm], resources) <==>
      DirectTo(k, vms, resources) || (HasKey(vm) && k in Related(vm, resources))
  {
    assert forall v :: v in vms + [vm] <==> v in vms || v == vm;
  }

  lemma WantedByExtends(vms: seq<Resource>, vm: Resource, resources: seq<Resource>, s: string, x: string)
    ensures WantedBy(vms + [vm], resources, s, x) <==>
      WantedBy(vms, resources, s, x) || (HasKey(vm) && Wants(vm, resources, s, x))
  {
    assert forall v :: v in vms + [vm] <==> v in vms || v == vm;
  }

  lemma AsksGrow(before: seq<Entry>, vms: seq<Resource>, vm: Resource, resources: seq<Resource>,
      rows: seq<Associated>, more: seq<Entry>)
    requires AsksAreRight(before, vms, resources) && AsksAdded(before, rows, resources, more)
    requires if HasKey(vm) then Lists(rows, Related(vm, resources), resources) else rows == []
    ensures AsksAreRight(more, vms + [vm], resources)
  {
    forall s, x ensures Asks(more, s, x) <==> WantedBy(vms + [vm], resources, s, x) {
      WantedByExtends(vms, vm, resources, s, x);
      assert Asks(before, s, x) <==> WantedBy(vms, resources, s, x);
      if HasKey(vm) {
        RowsAskWhatIsWanted(rows, vm, resources, s, x);
      }
    }
  }

  lemma GroupsGrow(vms: seq<Resource>, vm: Resource)
    ensures GroupsOf(vms + [vm]) == GroupsOf(vms) + (if HasGroup(vm) then {GroupOf(vm)} else {})
  {
  }

  function WithMachine(before: Mapping, vm: Resource, rows: seq<Associated>, more: seq<Entry>): Mapping {
    Mapping(
      if HasKey(vm) then before.associations[ResourceKey(vm.id) := rows] else before.associations,
      before.groups + (if HasGroup(vm) then {GroupOf(vm)} else {}),
      before.direct + KeysOf(rows),
      more)
  }

  lemma MappingGrows(before: Mapping, vms: seq<Resource>, vm: Resource, resources: seq<Resource>,
      rows: seq<Associated>, more: seq<Entry>)
    requires MappingIsRight(before, vms, resources) && AsksAdded(before.ids, rows, resources, more)
    requires if HasKey(vm) then Lists(rows, Related(vm, resources), resources) else rows == []
    ensures MappingIsRight(WithMachine(before, vm, rows, more), vms + [vm], resources)
  {
    AssociationsGrow(before.associations, vms, vm, resources, rows);
    GroupsGrow(vms, vm);
    DirectGrows(before.direct, vms, vm, resources, KeysOf(rows));
    AsksGrow(before.ids, vms, vm, resources, rows, more);
  }

  /** A machine without an id adds nothing. */
  method MapVm(vm: Resource, resources: seq<Resource>, before: Mapping, ghost vms: seq<Resource>) returns (m: Mapping)
    requires MappingIsRight(before, vms, resources)
    ensures MappingIsRight(m, vms + [vm], resources)
  {
    var rows: seq<Associated> := [];
    if HasKey(vm) {
      var a := CollectVmRelationships(ItemOf(vm, resources), resources);
      rows := BuildVmAssociatedResourceRows(a, resources);
    }
    var more := AskForCandidates(rows, resources, before.ids);
    MappingGrows(before, vms, vm, resources, rows, more);
    m := WithMachine(before, vm, rows, more);
  }

  lemma NothingMapped(resources: seq<Resource>)
    ensures MappingIsRight(Mapping(map[], {}, {}, []), [], resources)
  {
  }

  method ReportMapped(vm: Resource, progress: ExportProgress) returns (ghost step: nat)
    requires progress.Valid()
    modifies progress
    ensures progress.Valid() && progress.total == old(progress.total) && old(progress.reports) <= progress.reports
    ensures step == if HasKey(vm) then 1 else 0
    ensures progress.current == Min(progress.total, old(progress.current) + step)
  {
    step := 0;
    if HasKey(vm) {
      progress.Report(1);
      step := 1;
    }
  }

  /** One machine mapped and reported. */
  method MapNext(vm: Resource, resources: seq<Resource>, before: Mapping, ghost vms: seq<Resource>,
      progress: ExportProgress, ghost mapped: nat) returns (m: Mapping, ghost nextMapped: nat)
    requires progress.Valid() && MappingIsRight(before, vms, resources) && mapped == WithId(vms)
    modifies progress
    ensures progress.Valid() && progress.total == old(progress.total) && old(progress.reports) <= progress.reports
    ensures mapped <= nextMapped == WithId(vms + [vm])
    ensures progress.current == Min(progress.total, old(progress.current) + (nextMapped - mapped))
    ensures MappingIsRight(m, vms + [vm], resources)
  {
    WithIdExtends(vms, vm);
    m := MapVm(vm, resources, before, vms);
    ghost var step := ReportMapped(vm, progress);
    nextMapped := mapped + step;
  }

  method MapSelectedVms(vms: seq<Resource>, resources: seq<Resource>, progress: ExportProgress) returns (m: Mapping)
    requires progress.Valid()
    modifies progress
    ensures progress.Valid() && progress.total == old(progress.total) && old(progress.reports) <= progress.reports
    ensures progress.current == Min(progress.total, old(progress.current) + WithId(vms))
    ensures MappingIsRight(m, vms, resources)
  {
    m := Mapping(map[], {}, {}, []);
    NothingMapped(resources);
    ghost var seen: seq<Resource>, mapped: nat := [], 0;
    for i := 0 to |vms|
      invariant progress.Valid() && progress.total == old(progress.total) && old(progress.reports) <= progress.reports
      invariant progress.current == Min(progress.total, old(progress.current) + mapped)
      invariant |seen| == i && seen <= vms && mapped == WithId(seen) && MappingIsRight(m, seen, resources)
    {
      m, mapped := MapNext(vms[i], resources, m, seen, progress, mapped);
      seen := seen + [vms[i]];
    }
    assert seen == vms;
  }

  /** Related to some machine of the groups, selected or not. */
  ghost predicate RelatedIn(k: string, rs: seq<Resource>, groups: set<Group>, resources: seq<Resource>) {
    exists r :: r in rs && IsVirtualMachine(r) && GroupOf(r) in groups && k in RelationshipsOf(r, resources)
  }

  method CollectRelatedIds(resources: seq<Resource>, groups: set<Group>) returns (related: set<string>)
    ensures forall k :: k in related <==> RelatedIn(k, resources, groups, resources)
  {
    related := {};
    for i := 0 to |resources|
      invariant forall k :: k in related <==> RelatedIn(k, resources[..i], groups, resources)
    {
      assert resources[..i + 1] == resources[..i] + [resources[i]];
      if IsVirtualMachine(resources[i]) && GroupOf(resources[i]) in groups {
        var a := CollectVmRelationships(resources[i], resources);
        related := related + a.Keys;
      }
    }
    assert resources[..|resources|] == resources;
  }

  datatype VmReport = VmReport(key: string, details: seq<DetailRow>, summary: Summary, shared: GroupTotal)

  ghost predicate ReportIsRight(r: VmReport, vm: Resource, associations: Associations, index: Index,
      rows: seq<SharedRow>)
  {
    && r.key == ResourceKey(vm.id)
    && r.details == DetailsFor(if r.key in associations then associations[r.key] else [], index)
    && Attributed(r.details, r.key, index, r.summary)
    && r.shared == GroupTotal(GroupCount(rows, GroupOf(vm)), GroupSum(rows, GroupOf(vm)))
  }

  method BuildReport(vm: Resource, associations: Associations, index: Index,
      ghost rows: seq<SharedRow>, totals: map<Group, GroupTotal>) returns (report: VmReport)
    requires TotalsMatch(totals, rows)
    requires forall k :: k in associations ==> OneMachine(associations[k], k)
    ensures ReportIsRight(report, vm, associations, index, rows)
  {
    var key := ResourceKey(vm.id);
    var associated := if key in associations then associations[key] else [];
    var details, summary := BuildVmRows(key, associated, index);
    report := VmReport(key, details, summary, TotalFor(totals, GroupOf(vm)));
  }

  method BuildReports(vms: seq<Resource>, associations: Associations, index: Index,
      ghost rows: seq<SharedRow>, totals: map<Group, GroupTotal>, progress: ExportProgress)
      returns (reports: seq<VmReport>)
    requires progress.Valid() && TotalsMatch(totals, rows)
    requires forall k :: k in associations ==> OneMachine(associations[k], k)
    modifies progress
    ensures progress.Valid() && progress.total == old(progress.total) && old(progress.reports) <= progress.reports
    ensures progress.current == Min(progress.total, old(progress.current) + |vms|)
    ensures |reports| == |vms|
    ensures forall i :: 0 <= i < |vms| ==> ReportIsRight(reports[i], vms[i], associations, index, rows)
  {
    reports := [];
    for i := 0 to |vms|
      invariant progress.Valid() && progress.total == old(progress.total) && old(progress.reports) <= progress.reports
      invariant progress.current == Min(progress.total, old(progress.current) + i)
      invariant |reports| == i
      invariant forall j :: 0 <= j < i ==> ReportIsRight(reports[j], vms[j], associations, index, rows)
    {
      var report := BuildReport(vms[i], associations, index, rows, totals);
      reports := reports + [report];
      progress.Report(1);
    }
  }

  // ----- The run ------------------------------------------------------------------------------------------

  datatype ExportConfig = ExportConfig(fetch: Config, maxRuntimeMinutes: int, sharedMaxRuntimeSeconds: int)

  datatype Export =
    | Export(reports: seq<VmReport>, sharedRows: seq<SharedRow>, sharedUnavailable: bool)
    | Raised

  /** What is fixed before the first query. */
  datatype Plan = Plan(
    mapping: Mapping, related: set<string>, items: map<string, Resource>, sharedIds: seq<Entry>,
    direct: seq<Entry>, shared: seq<Entry>)

  /** The shared candidates are the resources of the selected groups that no machine of the
      groups is related to, and both query lists are deduplicated. */
  ghost predicate PlanIsRight(p: Plan, vms: seq<Resource>, resources: seq<Resource>) {
    && MappingIsRight(p.mapping, vms, resources)
    && (forall k :: k in p.related <==> RelatedIn(k, resources, p.mapping.groups, resources))
    && p.items == SharedItems(resources, p.mapping.groups, p.mapping.direct, p.related)
    && SharedAsked(resources, p.mapping.groups, p.mapping.direct, p.related, p.sharedIds)
    && p.direct == DedupeAll(p.mapping.ids) && p.shared == DedupeAll(p.sharedIds)
    && Ready(p.direct) && Ready(p.shared)
  }

  /** What the rows were computed from: the plan, and the chunks answered in each phase. */
  datatype Sources = Sources(plan: Plan, directAnswers: seq<Served>, sharedAnswers: seq<Served>)

  /** A shared phase that timed out contributes nothing, whatever it had been answered. */
  function SharedIndex(e: Export, src: Sources): Index
    requires e.Export?
  {
    if e.sharedUnavailable then map[] else AddServed(map[], src.sharedAnswers)
  }

  ghost predicate ExportIsRight(e: Export, vms: seq<Resource>, src: Sources)
    requires e.Export?
  {
    && |e.reports| == |vms|
    && (forall i :: 0 <= i < |vms| ==>
          ReportIsRight(e.reports[i], vms[i], src.plan.mapping.associations, AddServed(map[], src.directAnswers),
            e.sharedRows))
    && (forall r :: r in e.sharedRows ==> IsSharedRow(r, src.plan.items, SharedIndex(e, src)))
    && SharedKeysOf(e.sharedRows) == src.plan.items.Keys * SharedIndex(e, src).Keys
    && |e.sharedRows| == |src.plan.items.Keys * SharedIndex(e, src).Keys|
  }

  /** No resource is both attributed to a machine and listed as shared. */
  lemma DirectAndSharedAreDisjoint(
    e: Export, vms: seq<Resource>, resources: seq<Resource>, src: Sources, i: nat, d: DetailRow, r: SharedRow)
    requires e.Export? && PlanIsRight(src.plan, vms, resources) && ExportIsRight(e, vms, src)
    requires i < |vms| && d in e.reports[i].details && r in e.sharedRows
    ensures d.key != r.key
  {
    var key, m := e.reports[i].key, src.plan.mapping;
    assert ReportIsRight(e.reports[i], vms[i], m.associations, AddServed(map[], src.directAnswers), e.sharedRows);
    var rows := if key in m.associations then m.associations[key] else [];
    var j :| 0 <= j < |e.reports[i].details| && e.reports[i].details[j] == d;
    assert rows[j] in rows && rows[j].key == d.key;
    MappedRows(m, vms, resources, key);
    assert d.key in KeysOf(rows);
    SharedItemsAreShared(resources, m.groups, m.direct, src.plan.related);
    assert r.key in src.plan.items;
  }

  /** The last of the shared candidates listed under a key. */
  ghost predicate LastShared(vms: seq<Resource>, resources: seq<Resource>, key: string, i: nat) {
    && i < |resources| && ResourceKey(resources[i].id) == key && IsSharedCandidate(resources[i], vms, resources)
    && forall j :: i < j < |resources| && ResourceKey(resources[j].id) == key ==>
         !IsSharedCandidate(resources[j], vms, resources)
  }

  ghost predicate HasSharedRow(rows: seq<SharedRow>, key: string) {
    exists row :: row in rows && row.key == key
  }

  /** A shared row is the last shared candidate listed under its key, at the cost in the index. */
  ghost predicate PricesShared(row: SharedRow, vms: seq<Resource>, resources: seq<Resource>, costs: Index) {
    && row.key in costs && row.cost == costs[row.key]
    && exists i: nat :: LastShared(vms, resources, row.key, i) && InGroup(resources[i], row.group)
  }

  predicate InGroup(r: Resource, g: Group) {
    g.0 == Lower(Strip(r.subscriptionId)) && g.1 == Lower(Strip(r.resourceGroup))
  }

  lemma LastOfPlan(p: Plan, vms: seq<Resource>, resources: seq<Resource>, key: string) returns (i: nat)
    requires PlanIsRight(p, vms, resources) && key in p.items
    ensures LastShared(vms, resources, key, i) && p.items[key] == resources[i]
  {
    var m := p.mapping;
    forall r ensures IsShared(r, m.groups, m.direct, p.related) <==> IsSharedCandidate(r, vms, resources) {
      SharedOfPlan(p, vms, resources, r);
    }
    i := SharedItemIsLast(resources, m.groups, m.direct, p.related, key);
    forall j | i < j < |resources| && ResourceKey(resources[j].id) == key
      ensures !IsSharedCandidate(resources[j], vms, resources)
    {
      assert !SharedUnder(resources[j], m.groups, m.direct, p.related, key);
    }
  }

  lemma SharedRowExactly(row: SharedRow, p: Plan, vms: seq<Resource>, resources: seq<Resource>, costs: Index)
    requires PlanIsRight(p, vms, resources) && IsSharedRow(row, p.items, costs)
    ensures PricesShared(row, vms, resources, costs)
  {
    var i := LastOfPlan(p, vms, resources, row.key);
    assert InGroup(resources[i], row.group);
  }

  /** Every shared candidate with a cost has a row, and only those; a shared phase that timed
      out has none. */
  lemma SharedRowsExactly(e: Export, vms: seq<Resource>, resources: seq<Resource>, src: Sources)
    requires e.Export? && PlanIsRight(src.plan, vms, resources) && ExportIsRight(e, vms, src)
    ensures e.sharedUnavailable ==> e.sharedRows == []
    ensures !e.sharedUnavailable ==> var costs := AddServed(map[], src.sharedAnswers);
      && (forall row :: row in e.sharedRows ==> PricesShared(row, vms, resources, costs))
      && (forall r :: r in resources && IsSharedCandidate(r, vms, resources) && ResourceKey(r.id) in costs ==>
            HasSharedRow(e.sharedRows, ResourceKey(r.id)))
  {
    if e.sharedUnavailable {
      assert |e.sharedRows| == 0;
    } else {
      var costs := AddServed(map[], src.sharedAnswers);
      forall row | row in e.sharedRows ensures PricesShared(row, vms, resources, costs) {
        SharedRowExactly(row, src.plan, vms, resources, costs);
      }
      forall r | r in resources && IsSharedCandidate(r, vms, resources) && ResourceKey(r.id) in costs
        ensures HasSharedRow(e.sharedRows, ResourceKey(r.id))
      {
        SharedPlanExactly(src.plan, vms, resources, ResourceKey(r.id), "", "");
        assert ResourceKey(r.id) in SharedKeysOf(e.sharedRows);
      }
    }
  }

  /** The rows price the relations: each once, under its label, at the cost in the index. */
  ghost predicate PricesRelations(details: seq<DetailRow>, related: Association, costs: Index) {
    && |details| == |related|
    && (forall key :: key in related <==> exists row :: row in details && row.key == key)
    && (forall row :: row in details ==>
          row.relationship == related[row.key] && row.cost == CostOf(costs, row.key))
  }

  lemma DetailsPriceRelations(rows: seq<Associated>, related: Association, resources: seq<Resource>, costs: Index)
    requires Lists(rows, related, resources)
    ensures PricesRelations(DetailsFor(rows, costs), related, costs)
  {
    var details := DetailsFor(rows, costs);
    forall key ensures key in related <==> exists row :: row in details && row.key == key {
      if key in related {
        assert key in KeysOf(rows);
        var k :| 0 <= k < |rows| && rows[k].key == key;
        assert details[k] in details;
      }
    }
    forall row | row in details
      ensures row.key in related && row.relationship == related[row.key] && row.cost == CostOf(costs, row.key)
    {
      var k :| 0 <= k < |details| && details[k] == row;
      assert rows[k] in rows;
    }
  }

  /** The rows of a machine with an id are its relations, those of the last machine selected
      under that id, at the costs the direct phase was answered with. */
  lemma DetailRowsExactly(e: Export, vms: seq<Resource>, resources: seq<Resource>, src: Sources, i: nat)
      returns (j: nat)
    requires e.Export? && PlanIsRight(src.plan, vms, resources) && ExportIsRight(e, vms, src)
    requires i < |vms| && HasKey(vms[i])
    ensures LastWith(vms, ResourceKey(vms[i].id), j)
    ensures PricesRelations(e.reports[i].details, Related(vms[j], resources), AddServed(map[], src.directAnswers))
  {
    var m, own := src.plan.mapping, ResourceKey(vms[i].id);
    ReportDetails(e, vms, src, i);
    EveryMachineIsFound(vms, vms[i]);
    FindResourceIsLast(vms, own);
    assert RowsAreRight(m.associations, own, vms, resources);
    var at: nat :| LastWith(vms, own, at) && FindResource(vms, own) == Some(vms[at]);
    j := at;
    DetailsPriceRelations(m.associations[own], Related(vms[j], resources), resources,
      AddServed(map[], src.directAnswers));
  }

  lemma ReportDetails(e: Export, vms: seq<Resource>, src: Sources, i: nat)
    requires e.Export? && ExportIsRight(e, vms, src) && i < |vms|
    ensures var r, associations := e.reports[i], src.plan.mapping.associations;
      && r.key == ResourceKey(vms[i].id)
      && r.details ==
           DetailsFor(if r.key in associations then associations[r.key] else [], AddServed(map[], src.directAnswers))
  {
    assert ReportIsRight(e.reports[i], vms[i], src.plan.mapping.associations, AddServed(map[], src.directAnswers),
      e.sharedRows);
  }

  lemma DetailsKeepLabels(rows: seq<Associated>, index: Index, j: nat)
    requires j < |rows| && forall k :: 0 <= k < |rows| ==> (rows[k].relationship.VirtualMachine? <==> k == j)
    ensures var details := DetailsFor(rows, index);
      && details[j].key == rows[j].key
      && forall k :: 0 <= k < |details| ==> (details[k].relationship.VirtualMachine? <==> k == j)
  {
  }

  /** The report of a machine with an id has exactly one row labelled as the machine, its own. */
  lemma ReportHasItsMachine(e: Export, vms: seq<Resource>, resources: seq<Resource>, src: Sources, i: nat)
      returns (j: nat)
    requires e.Export? && PlanIsRight(src.plan, vms, resources) && ExportIsRight(e, vms, src)
    requires i < |vms| && HasKey(vms[i])
    ensures var details := e.reports[i].details;
      && j < |details| && details[j].key == ResourceKey(vms[i].id)
      && forall k :: 0 <= k < |details| ==> (details[k].relationship.VirtualMachine? <==> k == j)
  {
    var m := src.plan.mapping;
    ReportDetails(e, vms, src, i);
    j := RowsHaveTheMachine(m, vms, resources, vms[i]);
    DetailsKeepLabels(m.associations[ResourceKey(vms[i].id)], AddServed(map[], src.directAnswers), j);
  }

  lemma RowsHaveTheMachine(m: Mapping, vms: seq<Resource>, resources: seq<Resource>, vm: Resource) returns (j: nat)
    requires MappingIsRight(m, vms, resources) && vm in vms && HasKey(vm)
    ensures var key := ResourceKey(vm.id);
      && key in m.associations && j < |m.associations[key]| && m.associations[key][j].key == key
      && forall k :: 0 <= k < |m.associations[key]| ==>
        (m.associations[key][k].relationship.VirtualMachine? <==> k == j)
  {
    var key := ResourceKey(vm.id);
    EveryMachineIsFound(vms, vm);
    assert RowsAreRight(m.associations, key, vms, resources);
    MappedRows(m, vms, resources, key);
    var rows := m.associations[key];
    var item := ItemOf(FindResource(vms, key).value, resources);
    ItemHasKey(FindResource(vms, key).value, resources);
    OneMachineLabel(item, resources, key);
    assert key in KeysOf(rows);
    var at :| 0 <= at < |rows| && rows[at].key == key;
    j := at;
    forall k | 0 <= k < |rows| ensures rows[k].relationship.VirtualMachine? <==> k == j {
      assert rows[k] in rows;
    }
  }

  function PlannedChunks(p: Plan, cfg: ExportConfig): nat {
    ChunkCount(p.direct, AtLeastOne(cfg.fetch.chunkSize)) + ChunkCount(p.shared, AtLeastOne(cfg.fetch.chunkSize))
  }

  method GatherQueries(vms: seq<Resource>, resources: seq<Resource>, mapping: Mapping) returns (p: Plan)
    requires MappingIsRight(mapping, vms, resources)
    ensures p.mapping == mapping && PlanIsRight(p, vms, resources)
  {
    var related := CollectRelatedIds(resources, mapping.groups);
    var items, sharedIds := CollectSharedCandidates(resources, mapping.groups, mapping.direct, related);
    var direct := DedupeResourceIdsBySubscription(mapping.ids);
    var shared := DedupeResourceIdsBySubscription(sharedIds);
    p := Plan(mapping, related, items, sharedIds, direct, shared);
  }

  method CountPlannedChunks(p: Plan, cfg: ExportConfig) returns (chunks: nat)
    ensures chunks == PlannedChunks(p, cfg)
  {
    var directChunks := CountQueryChunks(p.direct, cfg.fetch.chunkSize);
    var sharedChunks := CountQueryChunks(p.shared, cfg.fetch.chunkSize);
    chunks := directChunks + sharedChunks;
  }

  method PlanExport(vms: seq<Resource>, resources: seq<Resource>, cfg: ExportConfig, progress: ExportProgress)
      returns (p: Plan)
    requires progress.Valid() && progress.current == 0 && progress.total == 2 * |vms| + 3
    modifies progress
    ensures progress.Valid() && progress.total == 2 * |vms| + PlannedChunks(p, cfg) + 1
    ensures progress.current == WithId(vms) <= |vms| && old(progress.reports) <= progress.reports
    ensures PlanIsRight(p, vms, resources)
  {
    p := MapAndGather(vms, resources, progress);
    var chunks := CountPlannedChunks(p, cfg);
    progress.Retotal(|vms| + chunks + |vms| + 1);
  }

  method MapAndGather(vms: seq<Resource>, resources: seq<Resource>, progress: ExportProgress) returns (p: Plan)
    requires progress.Valid() && progress.current == 0 && progress.total == 2 * |vms| + 3
    modifies progress
    ensures progress.Valid() && progress.total == old(progress.total)
    ensures progress.current == WithId(vms) <= |vms| && old(progress.reports) <= progress.reports
    ensures PlanIsRight(p, vms, resources)
  {
    WithIdBound(vms);
    var mapping := MapSelectedVms(vms, resources, progress);
    p := GatherQueries(vms, resources, mapping);
  }

  datatype Costs = Costs(direct: Index, shared: Index, sharedUnavailable: bool) | NoCosts

  /** The fetch of a list that is already deduplicated works on that very list. */
  method FetchPlanned(client: CostClient, ids: seq<Entry>, cfg: Config, deadline: real, progress: ExportProgress)
      returns (outcome: Outcome, ghost answered: seq<Served>, ghost xs: seq<Exchange>)
    requires progress.Valid() && client.Valid() && Ready(ids)
    modifies client, progress
    ensures client.exchanges == old(client.exchanges) + xs && client.clock >= old(client.clock)
    ensures WholeScript(xs, BySubscription(ids), AtLeastOne(cfg.chunkSize), deadline) && EndsIn(outcome, xs)
    ensures outcome.TimedOut? ==> client.clock >= deadline
    ensures client.Valid() && progress.Valid()
    ensures progress.total == old(progress.total) && old(progress.reports) <= progress.reports
    ensures progress.current == Min(progress.total, old(progress.current) + |answered|)
    ensures outcome.Complete? ==>
      && Asked(answered) == TagAll(BySubscription(ids))
      && outcome.index == AddServed(map[], answered)
      && |answered| >= ChunkCount(ids, AtLeastOne(cfg.chunkSize))
  {
    ReadyIsFixed(ids);
    outcome, answered, xs := FetchLiveResourceCostIndex(client, ids, cfg, deadline, progress);
  }

  lemma LaterIsInTime(xs: seq<Exchange>, entries: seq<Entry>, size: int, deadline: real, later: real)
    requires size >= 1 && WholeScript(xs, entries, size, deadline) && deadline <= later
    ensures WholeScript(xs, entries, size, later)
  {
  }

  /** What was sent in the two phases of an export, when the second one began, and when the
      first and the second would end at the latest. */
  datatype Phases = Phases(direct: seq<Exchange>, turn: real, shared: seq<Exchange>, limit: real, sharedLimit: real)

  /** Both phases ask as a fetch does, and nothing is begun past a limit. */
  ghost predicate PhasesAreRight(phases: Phases, p: Plan, size: int)
    requires size >= 1
  {
    && WholeScript(phases.direct, BySubscription(p.direct), size, phases.limit)
    && WholeScript(phases.shared, BySubscription(p.shared), size, phases.limit)
    && WholeScript(phases.shared, BySubscription(p.shared), size, phases.sharedLimit)
  }

  /** An export fails only at its limit or when the last query has failed, and leaves the
      shared candidates out only at one of the limits. */
  ghost predicate EndsRightly(phases: Phases, now: real, raised: bool, sharedUnavailable: bool) {
    && (if raised then now >= phases.limit || exists status :: Last(phases.direct + phases.shared, Failed(status))
        else NoneFailed(phases.direct + phases.shared))
    && (!raised && sharedUnavailable ==> now >= phases.limit || now >= phases.sharedLimit)
  }

  ghost function SharedLimit(start: real, cfg: ExportConfig): real {
    start + (if cfg.sharedMaxRuntimeSeconds < 15 then 15 else cfg.sharedMaxRuntimeSeconds) as real
  }

  ghost function Begun(direct: seq<Exchange>, turn: real, limit: real, cfg: ExportConfig): Phases {
    Phases(direct, turn, [], limit, SharedLimit(turn, cfg))
  }

  lemma DirectEnds(outcome: Outcome, phases: Phases, now: real)
    requires phases.shared == [] && !outcome.Complete? && EndsIn(outcome, phases.direct)
    requires outcome.TimedOut? ==> now >= phases.limit
    ensures phases.direct + phases.shared == phases.direct && EndsRightly(phases, now, true, false)
  {
  }

  lemma SharedEnds(outcome: Outcome, phases: Phases, now: real)
    requires NoneFailed(phases.direct) && EndsIn(outcome, phases.shared)
    requires outcome.TimedOut? ==> now >= phases.limit || now >= phases.sharedLimit
    ensures EndsRightly(phases, now, outcome.ApiError?, outcome.TimedOut?)
  {
    EndsAfter(outcome, phases.direct, phases.shared);
  }

  /** The two fetch phases: a timeout of the direct one fails the export, a timeout of the
      shared one only leaves the shared candidates out. */
  method QueryCosts(client: CostClient, p: Plan, cfg: ExportConfig, progress: ExportProgress)
      returns (costs: Costs, ghost directAnswers: seq<Served>, ghost sharedAnswers: seq<Served>, ghost phases: Phases)
    requires progress.Valid() && client.Valid() && Ready(p.direct) && Ready(p.shared)
    modifies client, progress
    ensures client.exchanges == old(client.exchanges) + phases.direct + phases.shared
    ensures phases.limit == old(client.clock) + (60 * AtLeastOne(cfg.maxRuntimeMinutes)) as real
    ensures phases.sharedLimit == phases.turn +
      (if cfg.sharedMaxRuntimeSeconds < 15 then 15 else cfg.sharedMaxRuntimeSeconds) as real
    ensures PhasesAreRight(phases, p, AtLeastOne(cfg.fetch.chunkSize))
    ensures EndsRightly(phases, client.clock, costs.NoCosts?, costs.Costs? && costs.sharedUnavailable)
    ensures client.Valid() && progress.Valid()
    ensures progress.total == old(progress.total) && old(progress.reports) <= progress.reports
    ensures progress.current == Min(progress.total, old(progress.current) + |directAnswers| + |sharedAnswers|)
    ensures costs.Costs? ==>
      Asked(directAnswers) == TagAll(BySubscription(p.direct)) && costs.direct == AddServed(map[], directAnswers)
    ensures costs.Costs? && !costs.sharedUnavailable ==>
      && |directAnswers| + |sharedAnswers| >= PlannedChunks(p, cfg)
      && Asked(sharedAnswers) == TagAll(BySubscription(p.shared)) && costs.shared == AddServed(map[], sharedAnswers)
    ensures costs.Costs? && costs.sharedUnavailable ==> costs.shared == map[]
  {
    sharedAnswers := [];
    var minutes := if cfg.maxRuntimeMinutes < 1 then 1 else cfg.maxRuntimeMinutes;
    var deadline := client.clock + (minutes * 60) as real;
    progress.Report(0);
    var outcome;
    ghost var xs;
    outcome, directAnswers, xs := FetchPlanned(client, p.direct, cfg.fetch, deadline, progress);
    phases := Begun(xs, client.clock, deadline, cfg);
    if !outcome.Complete? {
      DirectEnds(outcome, phases, client.clock);
      return NoCosts, directAnswers, sharedAnswers, phases;
    }
    progress.Report(0);
    var sharedOutcome;
    ghost var ys;
    sharedOutcome, sharedAnswers, ys := QueryShared(client, p.shared, cfg, deadline, progress);
    phases := phases.(shared := ys);
    SharedEnds(sharedOutcome, phases, client.clock);
    match sharedOutcome {
      case Complete(found) => costs := Costs(outcome.index, found, false);
      case TimedOut =>
        progress.Report(0);
        costs := Costs(outcome.index, map[], true);
      case ApiError(_) => costs := NoCosts;
    }
  }

  /** The second phase, which has its own limit within that of the export. */
  method QueryShared(client: CostClient, ids: seq<Entry>, cfg: ExportConfig, deadline: real, progress: ExportProgress)
      returns (outcome: Outcome, ghost answered: seq<Served>, ghost ys: seq<Exchange>)
    requires progress.Valid() && client.Valid() && Ready(ids)
    modifies client, progress
    ensures client.exchanges == old(client.exchanges) + ys && client.clock >= old(client.clock)
    ensures WholeScript(ys, BySubscription(ids), AtLeastOne(cfg.fetch.chunkSize), deadline)
    ensures WholeScript(ys, BySubscription(ids), AtLeastOne(cfg.fetch.chunkSize), SharedLimit(old(client.clock), cfg))
    ensures EndsIn(outcome, ys)
    ensures outcome.TimedOut? ==> client.clock >= deadline || client.clock >= SharedLimit(old(client.clock), cfg)
    ensures client.Valid() && progress.Valid()
    ensures progress.total == old(progress.total) && old(progress.reports) <= progress.reports
    ensures progress.current == Min(progress.total, old(progress.current) + |answered|)
    ensures outcome.Complete? ==>
      && Asked(answered) == TagAll(BySubscription(ids))
      && outcome.index == AddServed(map[], answered)
      && |answered| >= ChunkCount(ids, AtLeastOne(cfg.fetch.chunkSize))
  {
    if ids == [] {
      return Complete(map[]), [], [];
    }
    var seconds := if cfg.sharedMaxRuntimeSeconds < 15 then 15 else cfg.sharedMaxRuntimeSeconds;
    ghost var limit := SharedLimit(client.clock, cfg);
    var sharedDeadline := client.clock + seconds as real;
    if deadline < sharedDeadline {
      sharedDeadline := deadline;
    }
    outcome, answered, ys := FetchPlanned(client, ids, cfg.fetch, sharedDeadline, progress);
    LaterIsInTime(ys, BySubscription(ids), AtLeastOne(cfg.fetch.chunkSize), sharedDeadline, deadline);
    LaterIsInTime(ys, BySubscription(ids), AtLeastOne(cfg.fetch.chunkSize), sharedDeadline, limit);
  }

  /** The last part of the export, when all costs are there. */
  method WriteExport(p: Plan, costs: Costs, vms: seq<Resource>, resources: seq<Resource>, progress: ExportProgress,
      ghost src: Sources) returns (e: Export)
    requires progress.Valid() && costs.Costs? && PlanIsRight(p, vms, resources) && src.plan == p
    requires costs.direct == AddServed(map[], src.directAnswers)
    requires costs.shared == if costs.sharedUnavailable then map[] else AddServed(map[], src.sharedAnswers)
    modifies progress
    ensures progress.Valid() && progress.total == old(progress.total) && old(progress.reports) <= progress.reports
    ensures progress.current == Min(progress.total, old(progress.current) + |vms| + 1)
    ensures e.Export? && e.sharedUnavailable == costs.sharedUnavailable && ExportIsRight(e, vms, src)
  {
    var rows, totals := PriceSharedCandidates(p.items, costs.shared);
    AllHaveOneMachine(p.mapping, vms, resources);
    var reports := BuildReports(vms, p.mapping.associations, costs.direct, rows, totals, progress);
    progress.Report(1);
    e := Export(reports, rows, costs.sharedUnavailable);
    assert SharedIndex(e, src) == costs.shared;
  }

  lemma NothingAsked(exchanges: seq<Exchange>, phases: Phases, p: Plan, size: int, now: real)
    requires size >= 1 && phases.direct == [] && phases.shared == []
    ensures exchanges == exchanges + phases.direct + phases.shared
    ensures PhasesAreRight(phases, p, size) && EndsRightly(phases, now, false, false)
  {
  }

  /** An export of some machines, from the plan to the rows. */
  method RunExport(client: CostClient, vms: seq<Resource>, resources: seq<Resource>, cfg: ExportConfig,
      progress: ExportProgress) returns (e: Export, ghost src: Sources, ghost phases: Phases)
    requires client.Valid() && progress.Valid() && progress.current == 0 && progress.total == 2 * |vms| + 3
    modifies client, progress
    ensures client.Valid() && progress.Valid()
    ensures client.exchanges == old(client.exchanges) + phases.direct + phases.shared
    ensures phases.limit == old(client.clock) + (60 * AtLeastOne(cfg.maxRuntimeMinutes)) as real
    ensures phases.sharedLimit == phases.turn +
      (if cfg.sharedMaxRuntimeSeconds < 15 then 15 else cfg.sharedMaxRuntimeSeconds) as real
    ensures PhasesAreRight(phases, src.plan, AtLeastOne(cfg.fetch.chunkSize))
    ensures EndsRightly(phases, client.clock, e.Raised?, e.Export? && e.sharedUnavailable)
    ensures e.Export? ==>
      && PlanIsRight(src.plan, vms, resources) && ExportIsRight(e, vms, src)
      && Asked(src.directAnswers) == TagAll(BySubscription(src.plan.direct))
      && (!e.sharedUnavailable ==> Asked(src.sharedAnswers) == TagAll(BySubscription(src.plan.shared)))
    ensures e.Export? && !e.sharedUnavailable && WithId(vms) == |vms| ==> progress.current == progress.total
  {
    var p := PlanExport(vms, resources, cfg, progress);
    var costs;
    ghost var directAnswers, sharedAnswers;
    costs, directAnswers, sharedAnswers, phases := QueryCosts(client, p, cfg, progress);
    src := Sources(p, directAnswers, sharedAnswers);
    e := Raised;
    if costs.Costs? {
      e := WriteExport(p, costs, vms, resources, progress, src);
    }
  }

  method BuildVirtualMachineCostExport(client: CostClient, vms: seq<Resource>, resources: seq<Resource>,
      cfg: ExportConfig)
      returns (e: Export, progress: ExportProgress, ghost src: Sources, ghost phases: Phases)
    requires client.Valid()
    modifies client
    ensures client.Valid() && progress.Valid()
    ensures client.exchanges == old(client.exchanges) + phases.direct + phases.shared
    ensures phases.limit == old(client.clock) + (60 * AtLeastOne(cfg.maxRuntimeMinutes)) as real
    ensures phases.sharedLimit == phases.turn +
      (if cfg.sharedMaxRuntimeSeconds < 15 then 15 else cfg.sharedMaxRuntimeSeconds) as real
    ensures PhasesAreRight(phases, src.plan, AtLeastOne(cfg.fetch.chunkSize))
    ensures EndsRightly(phases, client.clock, e.Raised?, e.Export? && e.sharedUnavailable)
    ensures vms == [] ==> e == Export([], [], false)
    ensures e.Export? && vms != [] ==>
      && PlanIsRight(src.plan, vms, resources) && ExportIsRight(e, vms, src)
      && Asked(src.directAnswers) == TagAll(BySubscription(src.plan.direct))
      && (!e.sharedUnavailable ==> Asked(src.sharedAnswers) == TagAll(BySubscription(src.plan.shared)))
    ensures e.Export? && !e.sharedUnavailable && (forall vm :: vm in vms ==> HasKey(vm)) ==>
      progress.current == progress.total
  {
    progress := new ExportProgress(|vms|);
    progress.Report(0);
    if vms == [] {
      progress.Report(progress.total);
      e := Export([], [], false);
      src := Sources(Plan(Mapping(map[], {}, {}, []), {}, map[], [], [], []), [], []);
      phases := Begun([], client.clock, client.clock + (60 * AtLeastOne(cfg.maxRuntimeMinutes)) as real, cfg);
      NothingAsked(client.exchanges, phases, src.plan, AtLeastOne(cfg.fetch.chunkSize), client.clock);
    } else {
      WithIdBound(vms);
      e, src, phases := RunExport(client, vms, resources, cfg, progress);
    }
  }

  lemma AllHaveOneMachine(m: Mapping, vms: seq<Resource>, resources: seq<Resource>)
    requires MappingIsRight(m, vms, resources)
    ensures forall k :: k in m.associations ==> OneMachine(m.associations[k], k)
  {
    forall k | k in m.associations ensures OneMachine(m.associations[k], k) {
      MappedRows(m, vms, resources, k);
    }
  }
}
