/** Which resources belong to a virtual machine, and under what label. */
module VmRelationships {
  import opened Options
  import opened Text
  import opened ResourceIds

  datatype Relationship =
    | VirtualMachine
    | OsDisk
    | DataDisk
    | NetworkInterface
    | PublicIp
    | ChildResource
    | ManagedByVm
    | AttachedVmResource

  function Priority(r: Relationship): nat {
    match r
    case VirtualMachine => 100
    case OsDisk => 90
    case DataDisk => 85
    case NetworkInterface => 80
    case PublicIp => 70
    case ChildResource => 60
    case ManagedByVm => 50
    case AttachedVmResource => 40
  }

  datatype Resource = Resource(
    id: string,
    resourceType: string,
    subscriptionId: string,
    resourceGroup: string,
    parentId: string,
    managedBy: string,
    attachedVmId: string,
    osDiskId: string,
    dataDiskIds: seq<string>,
    networkInterfaceIds: seq<string>,
    publicIpIds: seq<string>)

  type Association = map<string, Relationship>

  /** The key of a target and the relationship it is marked with. */
  type Mark = (string, Relationship)

  /** A stronger label replaces a weaker one; a blank key is ignored. */
  function Related(a: Association, m: Mark): Association {
    if m.0 == "" || (m.0 in a && Priority(a[m.0]) >= Priority(m.1)) then a else a[m.0 := m.1]
  }

  function MarkAll(ms: seq<Mark>): Association {
    if ms == [] then map[] else Related(MarkAll(ms[..|ms| - 1]), ms[|ms| - 1])
  }

  /** The label a set of marks gives a key: the strongest, if the key is marked at all. */
  ghost predicate Strongest(ms: seq<Mark>, a: Association) {
    && (forall m :: m in ms && m.0 != "" ==> m.0 in a && Priority(m.1) <= Priority(a[m.0]))
    && (forall key :: key in a ==> key != "" && (key, a[key]) in ms)
  }

  lemma {:induction false} MarkAllIsStrongest(ms: seq<Mark>)
    ensures Strongest(ms, MarkAll(ms))
  {
    if ms != [] {
      var before, last := ms[..|ms| - 1], ms[|ms| - 1];
      assert ms == before + [last];
      MarkAllIsStrongest(before);
    }
  }

  /** The labels do not depend on the order in which targets are marked, nor on repeats. */
  lemma MarkingOrderIsIrrelevant(ms: seq<Mark>, ns: seq<Mark>)
    requires forall m :: m in ms <==> m in ns
    ensures MarkAll(ms) == MarkAll(ns)
  {
    MarkAllIsStrongest(ms);
    MarkAllIsStrongest(ns);
    var a, b := MarkAll(ms), MarkAll(ns);
    forall key | key in a ensures key in b && a[key] == b[key] {
      assert (key, a[key]) in ns;
      assert (key, b[key]) in ms;
    }
    forall key | key in b ensures key in a {
      assert (key, b[key]) in ms;
    }
  }

  // ----- The marks of one machine ------------------------------------------------------------

  /** The three fields by which a resource names a machine. */
  datatype Link = Parent | Manager | Attachment

  function Target(r: Resource, link: Link): string {
    match link
    case Parent => r.parentId
    case Manager => r.managedBy
    case Attachment => r.attachedVmId
  }

  function Pointing(resources: seq<Resource>, link: Link, vmKey: string): seq<Resource> {
    if resources == [] then []
    else
      var r := resources[|resources| - 1];
      Pointing(resources[..|resources| - 1], link, vmKey)
      + (if ResourceKey(r.id) != "" && ResourceKey(Target(r, link)) == vmKey then [r] else [])
  }

  /** The last resource listed under an id. */
  function FindResource(resources: seq<Resource>, key: string): (r: Option<Resource>)
    ensures r.Some? ==> r.value in resources && ResourceKey(r.value.id) == key
  {
    if resources == [] || key == "" then None
    else if ResourceKey(resources[|resources| - 1].id) == key then Some(resources[|resources| - 1])
    else FindResource(resources[..|resources| - 1], key)
  }

  ghost predicate LastWith(resources: seq<Resource>, key: string, i: nat) {
    && i < |resources| && ResourceKey(resources[i].id) == key
    && forall j :: i < j < |resources| ==> ResourceKey(resources[j].id) != key
  }

  /** A key is found exactly if a resource has it, and then the last one that does. */
  lemma {:induction false} FindResourceIsLast(resources: seq<Resource>, key: string)
    ensures FindResource(resources, key).None? <==> key == "" || forall r :: r in resources ==> ResourceKey(r.id) != key
    ensures FindResource(resources, key).Some? ==>
      exists i: nat :: LastWith(resources, key, i) && resources[i] == FindResource(resources, key).value
  {
    if resources != [] && key != "" {
      var front, last := resources[..|resources| - 1], resources[|resources| - 1];
      assert resources == front + [last];
      if ResourceKey(last.id) == key {
        assert LastWith(resources, key, |front|);
      } else {
        FindResourceIsLast(front, key);
        if FindResource(front, key).Some? {
          var i: nat :| LastWith(front, key, i) && front[i] == FindResource(front, key).value;
          assert LastWith(resources, key, i) && resources[i] == front[i];
        }
      }
    }
  }

  lemma LastIsFound(resources: seq<Resource>, key: string, i: nat)
    requires key != "" && LastWith(resources, key, i)
    ensures FindResource(resources, key) == Some(resources[i])
  {
    FindResourceIsLast(resources, key);
    assert resources[i] in resources;
    var j: nat :| LastWith(resources, key, j) && resources[j] == FindResource(resources, key).value;
    assert i == j;
  }

  function Label(targets: seq<string>, r: Relationship): seq<Mark> {
    seq(|targets|, i requires 0 <= i < |targets| => (ResourceKey(targets[i]), r))
  }

  function IdsOf(resources: seq<Resource>): seq<string> {
    seq(|resources|, i requires 0 <= i < |resources| => resources[i].id)
  }

  function PublicIpsOf(resources: seq<Resource>, nics: seq<string>): seq<string> {
    if nics == [] then []
    else
      var nic := FindResource(resources, ResourceKey(nics[|nics| - 1]));
      PublicIpsOf(resources, nics[..|nics| - 1]) + (if nic.Some? then nic.value.publicIpIds else [])
  }

  /** What the machine's own record names. */
  function DeclaredMarks(vm: Resource): seq<Mark> {
    [(ResourceKey(vm.id), VirtualMachine)]
    + Label(vm.networkInterfaceIds, NetworkInterface)
    + (if vm.osDiskId != "" then [(ResourceKey(vm.osDiskId), OsDisk)] else [])
    + Label(vm.dataDiskIds, DataDisk)
  }

  /** Every mark the machine makes, in the order of the code. */
  function MarksOf(vm: Resource, resources: seq<Resource>): seq<Mark> {
    var vmKey := ResourceKey(vm.id);
    DeclaredMarks(vm)
    + Label(IdsOf(Pointing(resources, Parent, vmKey)), ChildResource)
    + Label(IdsOf(Pointing(resources, Manager, vmKey)), ManagedByVm)
    + Label(IdsOf(Pointing(resources, Attachment, vmKey)), AttachedVmResource)
    + Label(PublicIpsOf(resources, vm.networkInterfaceIds), PublicIp)
  }

  function RelationshipsOf(vm: Resource, resources: seq<Resource>): Association {
    if ResourceKey(vm.id) == "" then map[] else MarkAll(MarksOf(vm, resources))
  }

  // ----- What is related, and as what ------------------------------------------------------------

  ghost predicate Names(ids: seq<string>, key: string) {
    exists id :: id in ids && ResourceKey(id) == key
  }

  /** A listed resource with this key names the machine in the given field. */
  ghost predicate PointsAt(resources: seq<Resource>, link: Link, vmKey: string, key: string) {
    exists r :: r in resources && ResourceKey(r.id) == key && ResourceKey(Target(r, link)) == vmKey
  }

  /** The newest listed resource under the network interface's id has this public IP. */
  ghost predicate HasPublicIp(resources: seq<Resource>, nic: string, key: string) {
    ResourceKey(nic) != ""
    && exists i: nat :: LastWith(resources, ResourceKey(nic), i) && Names(resources[i].publicIpIds, key)
  }

  /** When a label applies to a key, read off the records. */
  ghost predicate Applies(vm: Resource, resources: seq<Resource>, r: Relationship, key: string) {
    match r
    case VirtualMachine => key == ResourceKey(vm.id)
    case OsDisk => key == ResourceKey(vm.osDiskId)
    case DataDisk => Names(vm.dataDiskIds, key)
    case NetworkInterface => Names(vm.networkInterfaceIds, key)
    case PublicIp => exists nic :: nic in vm.networkInterfaceIds && HasPublicIp(resources, nic, key)
    case ChildResource =>
      exists r :: r in resources && ResourceKey(r.id) == key && ResourceKey(r.parentId) == ResourceKey(vm.id)
    case ManagedByVm =>
      exists r :: r in resources && ResourceKey(r.id) == key && ResourceKey(r.managedBy) == ResourceKey(vm.id)
    case AttachedVmResource =>
      exists r :: r in resources && ResourceKey(r.id) == key && ResourceKey(r.attachedVmId) == ResourceKey(vm.id)
  }

  lemma LabelMarks(targets: seq<string>, r: Relationship, m: Mark)
    ensures m in Label(targets, r) <==> m.1 == r && Names(targets, m.0)
  {
    if m.1 == r && Names(targets, m.0) {
      var i :| 0 <= i < |targets| && ResourceKey(targets[i]) == m.0;
      assert Label(targets, r)[i] == m;
    }
  }

  lemma {:induction false} PointingKeeps(resources: seq<Resource>, link: Link, vmKey: string, r: Resource)
    ensures r in Pointing(resources, link, vmKey) <==>
      r in resources && ResourceKey(r.id) != "" && ResourceKey(Target(r, link)) == vmKey
  {
    if resources != [] {
      var front, last := resources[..|resources| - 1], resources[|resources| - 1];
      assert resources == front + [last];
      PointingKeeps(front, link, vmKey, r);
    }
  }

  lemma PointingMarks(resources: seq<Resource>, link: Link, vmKey: string, r: Relationship, m: Mark)
    requires m.0 != ""
    ensures m in Label(IdsOf(Pointing(resources, link, vmKey)), r) <==>
      m.1 == r && PointsAt(resources, link, vmKey, m.0)
  {
    var pointing := Pointing(resources, link, vmKey);
    LabelMarks(IdsOf(pointing), r, m);
    if Names(IdsOf(pointing), m.0) {
      var i :| 0 <= i < |pointing| && ResourceKey(IdsOf(pointing)[i]) == m.0;
      PointingKeeps(resources, link, vmKey, pointing[i]);
    }
    if item :| item in resources && ResourceKey(item.id) == m.0 && ResourceKey(Target(item, link)) == vmKey {
      PointingKeeps(resources, link, vmKey, item);
      var i :| 0 <= i < |pointing| && pointing[i] == item;
      assert IdsOf(pointing)[i] == item.id;
    }
  }

  lemma FoundPublicIp(resources: seq<Resource>, nic: string, key: string)
    ensures var found := FindResource(resources, ResourceKey(nic));
      HasPublicIp(resources, nic, key) <==> found.Some? && Names(found.value.publicIpIds, key)
  {
    FindResourceIsLast(resources, ResourceKey(nic));
  }

  lemma {:induction false} PublicIpIsListed(resources: seq<Resource>, nics: seq<string>, key: string)
    ensures Names(PublicIpsOf(resources, nics), key) <==> exists nic :: nic in nics && HasPublicIp(resources, nic, key)
  {
    if nics != [] {
      var front, last := nics[..|nics| - 1], nics[|nics| - 1];
      assert nics == front + [last];
      PublicIpIsListed(resources, front, key);
      FoundPublicIp(resources, last, key);
    }
  }

  lemma DeclaredExactly(vm: Resource, m: Mark)
    requires m.0 != ""
    ensures m in DeclaredMarks(vm) <==>
      || (m.1 == VirtualMachine && m.0 == ResourceKey(vm.id))
      || (m.1 == OsDisk && m.0 == ResourceKey(vm.osDiskId))
      || (m.1 == DataDisk && Names(vm.dataDiskIds, m.0))
      || (m.1 == NetworkInterface && Names(vm.networkInterfaceIds, m.0))
  {
    LabelMarks(vm.networkInterfaceIds, NetworkInterface, m);
    LabelMarks(vm.dataDiskIds, DataDisk, m);
    assert ResourceKey("") == "";
  }

  lemma MarkedExactly(vm: Resource, resources: seq<Resource>, m: Mark)
    requires m.0 != ""
    ensures m in MarksOf(vm, resources) <==> Applies(vm, resources, m.1, m.0)
  {
    var vmKey := ResourceKey(vm.id);
    DeclaredExactly(vm, m);
    PointingMarks(resources, Parent, vmKey, ChildResource, m);
    PointingMarks(resources, Manager, vmKey, ManagedByVm, m);
    PointingMarks(resources, Attachment, vmKey, AttachedVmResource, m);
    LabelMarks(PublicIpsOf(resources, vm.networkInterfaceIds), PublicIp, m);
    PublicIpIsListed(resources, vm.networkInterfaceIds, m.0);
    PointsMeans(vm, resources, m.0);
  }

  lemma PointsMeans(vm: Resource, resources: seq<Resource>, key: string)
    ensures PointsAt(resources, Parent, ResourceKey(vm.id), key) <==> Applies(vm, resources, ChildResource, key)
    ensures PointsAt(resources, Manager, ResourceKey(vm.id), key) <==> Applies(vm, resources, ManagedByVm, key)
    ensures PointsAt(resources, Attachment, ResourceKey(vm.id), key) <==>
      Applies(vm, resources, AttachedVmResource, key)
  {
  }

  /** What belongs to a machine: a key that the machine's record lists, that names the machine
      as its parent, manager or holder, or that is a public IP of a listed network interface. */
  lemma RelatedExactly(vm: Resource, resources: seq<Resource>, key: string)
    ensures key in RelationshipsOf(vm, resources) <==>
      ResourceKey(vm.id) != "" && key != "" && exists r :: Applies(vm, resources, r, key)
  {
    var ms := MarksOf(vm, resources);
    MarkAllIsStrongest(ms);
    if key != "" {
      forall r ensures (key, r) in ms <==> Applies(vm, resources, r, key) {
        MarkedExactly(vm, resources, (key, r));
      }
      if r :| Applies(vm, resources, r, key) {
        assert (key, r) in ms;
      }
    }
  }

  lemma LabelIsStrongest(vm: Resource, resources: seq<Resource>, key: string)
    requires key in RelationshipsOf(vm, resources)
    ensures var given := RelationshipsOf(vm, resources)[key];
      && Applies(vm, resources, given, key)
      && forall r :: Applies(vm, resources, r, key) ==> Priority(r) <= Priority(given)
  {
    var ms, given := MarksOf(vm, resources), RelationshipsOf(vm, resources)[key];
    MarkAllIsStrongest(ms);
    MarkedExactly(vm, resources, (key, given));
    forall r | Applies(vm, resources, r, key) ensures Priority(r) <= Priority(given) {
      MarkedExactly(vm, resources, (key, r));
      assert (key, r) in ms;
    }
  }

  const LABELS :=
    [VirtualMachine, OsDisk, DataDisk, NetworkInterface, PublicIp, ChildResource, ManagedByVm, AttachedVmResource]

  lemma StrongerIsEarlier(r: Relationship) returns (n: nat)
    ensures n < |LABELS| && LABELS[n] == r
    ensures forall m :: 0 <= m < n ==> Priority(LABELS[m]) > Priority(r)
  {
    n := match r
      case VirtualMachine => 0
      case OsDisk => 1
      case DataDisk => 2
      case NetworkInterface => 3
      case PublicIp => 4
      case ChildResource => 5
      case ManagedByVm => 6
      case AttachedVmResource => 7;
  }

  /** And its label is the first one that applies, in the order of `LABELS`. */
  lemma LabelIsFirst(vm: Resource, resources: seq<Resource>, key: string) returns (n: nat)
    requires key in RelationshipsOf(vm, resources)
    ensures n < |LABELS| && RelationshipsOf(vm, resources)[key] == LABELS[n]
    ensures Applies(vm, resources, LABELS[n], key)
    ensures forall m :: 0 <= m < n ==> !Applies(vm, resources, LABELS[m], key)
  {
    LabelIsStrongest(vm, resources, key);
    n := StrongerIsEarlier(RelationshipsOf(vm, resources)[key]);
  }

  /** Exactly one target is labelled as the machine: its own id. */
  lemma OneMachineLabel(vm: Resource, resources: seq<Resource>, key: string)
    requires ResourceKey(vm.id) != ""
    ensures ResourceKey(vm.id) in RelationshipsOf(vm, resources)
    ensures key in RelationshipsOf(vm, resources) ==>
      (RelationshipsOf(vm, resources)[key] == VirtualMachine <==> key == ResourceKey(vm.id))
  {
    assert Applies(vm, resources, VirtualMachine, ResourceKey(vm.id));
    RelatedExactly(vm, resources, ResourceKey(vm.id));
    if key in RelationshipsOf(vm, resources) {
      LabelIsStrongest(vm, resources, key);
    }
  }

  lemma {:induction false} MarkAllAppends(ms: seq<Mark>, m: Mark)
    ensures MarkAll(ms + [m]) == Related(MarkAll(ms), m)
  {
    assert (ms + [m])[..|ms|] == ms;
  }

  class Marker {
    var associated: Association
    ghost var marks: seq<Mark>

    ghost predicate Valid()
      reads this
    {
      associated == MarkAll(marks)
    }

    constructor ()
      ensures Valid() && marks == []
    {
      associated, marks := map[], [];
    }

    method Mark(target: string, r: Relationship)
      requires Valid()
      modifies this
      ensures Valid() && marks == old(marks) + [(ResourceKey(target), r)]
    {
      var key := ResourceKey(target);
      MarkAllAppends(marks, (key, r));
      if key != "" && !(key in associated && Priority(associated[key]) >= Priority(r)) {
        associated := associated[key := r];
      }
      marks := marks + [(key, r)];
    }

    method MarkEach(targets: seq<string>, r: Relationship)
      requires Valid()
      modifies this
      ensures Valid() && marks == old(marks) + Label(targets, r)
    {
      for i := 0 to |targets|
        invariant Valid() && marks == old(marks) + Label(targets, r)[..i]
      {
        assert Label(targets, r)[..i + 1] == Label(targets, r)[..i] + [(ResourceKey(targets[i]), r)];
        Mark(targets[i], r);
      }
    }
  }

  method MarkDeclared(vm: Resource) returns (marker: Marker)
    ensures fresh(marker) && marker.Valid() && marker.marks == DeclaredMarks(vm)
  {
    marker := new Marker();
    marker.Mark(vm.id, VirtualMachine);
    assert marker.marks == [(ResourceKey(vm.id), VirtualMachine)];
    marker.MarkEach(vm.networkInterfaceIds, NetworkInterface);
    if vm.osDiskId != "" {
      marker.Mark(vm.osDiskId, OsDisk);
    }
    marker.MarkEach(vm.dataDiskIds, DataDisk);
  }

  method CollectVmRelationships(vm: Resource, resources: seq<Resource>) returns (a: Association)
    ensures a == RelationshipsOf(vm, resources)
  {
    var vmKey := ResourceKey(vm.id);
    if vmKey == "" {
      return map[];
    }
    var marker := MarkDeclared(vm);
    marker.MarkEach(IdsOf(Pointing(resources, Parent, vmKey)), ChildResource);
    marker.MarkEach(IdsOf(Pointing(resources, Manager, vmKey)), ManagedByVm);
    marker.MarkEach(IdsOf(Pointing(resources, Attachment, vmKey)), AttachedVmResource);
    marker.MarkEach(PublicIpsOf(resources, vm.networkInterfaceIds), PublicIp);
    a := marker.associated;
  }
}
