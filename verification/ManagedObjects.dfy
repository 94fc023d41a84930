/** The ten managed objects as work: when an object conforms, what is written when it does not, and what one walk
    does. */
module ManagedObjects {
  import opened Common
  import opened ApiTypes
  import opened ApiServer
  import opened Flags
  import opened PodSpecs
  import opened Policies
  import opened Reconcile
  import opened Util
  import opened Walks

  // Slots

  ghost predicate DistinctKeys(slots: seq<Slot>, vpa: VpaController, cfg: Config) {
    forall i, j :: 0 <= i < j < |slots| ==> SlotKey(slots[i], vpa, cfg) != SlotKey(slots[j], vpa, cfg)
  }

  lemma DeploymentNamesDiffer(vpaName: string)
    ensures forall c, d :: c != d ==> DeploymentName(c, vpaName) != DeploymentName(d, vpaName)
  {
    forall c
      ensures |DeploymentName(c, vpaName)| > 4
      ensures DeploymentName(c, vpaName)[4] == match c case Recommender => 'r' case Updater => 'u' case Admission => 'a'
    {
    }
  }

  lemma PolicyNamesDiffer()
    ensures Distinct(POLICY_NAMES)
  {
  }

  /** The ten objects are ten different ones, whatever the resource is called. */
  lemma TenObjects(vpa: VpaController, cfg: Config)
    ensures |SLOTS| == 10 && DistinctKeys(SLOTS, vpa, cfg)
  {
    hide SlotKey;
    SlotsDistinct();
    forall i, j | 0 <= i < j < |SLOTS|
      ensures SlotKey(SLOTS[i], vpa, cfg) != SlotKey(SLOTS[j], vpa, cfg)
    {
      DifferentObjects(SLOTS[i], SLOTS[j], vpa, cfg);
    }
  }

  lemma SlotsDistinct()
    ensures Distinct(SLOTS) && |SLOTS| == 10
  {
  }

  lemma DifferentObjects(a: Slot, b: Slot, vpa: VpaController, cfg: Config)
    requires a != b
    ensures SlotKey(a, vpa, cfg) != SlotKey(b, vpa, cfg)
  {
    hide DeploymentName;
    DeploymentNamesDiffer(vpa.meta.name);
    PolicyNamesDiffer();
    if a.PolicySlot? && b.PolicySlot? {
      assert POLICY_NAMES[a.index] != POLICY_NAMES[b.index];
    }
  }

  lemma DeploymentSlotIndex(c: Component) returns (i: nat)
    ensures i < |SLOTS| && SLOTS[i] == DeploymentSlot(c)
  {
    i := match c case Recommender => 0 case Updater => 1 case Admission => 2;
  }

  ghost predicate ConformsAt(slot: Slot, vpa: VpaController, cfg: Config, store: Store)
  {
    var k := SlotKey(slot, vpa, cfg);
    k in store && Conforms(slot, store[k], vpa, cfg)
  }

  /** What a slot should hold, given what it holds. */
  function Target(slot: Slot, vpa: VpaController, cfg: Config, store: Store): (o: Object)
    ensures o.GetKey() == SlotKey(slot, vpa, cfg)
  {
    var k := SlotKey(slot, vpa, cfg);
    if k !in store then Owned(Desired(slot, vpa, cfg), vpa)
    else if Conforms(slot, store[k], vpa, cfg) then store[k]
    else Repaired(slot, store[k], vpa, cfg)
  }

  lemma AnnotationsIdempotent(annotations: StringMap, cfg: Config)
    ensures ServiceAnnotations(ServiceAnnotations(annotations, cfg), cfg) == ServiceAnnotations(annotations, cfg)
    ensures ConfigMapAnnotations(ConfigMapAnnotations(annotations, cfg), cfg) == ConfigMapAnnotations(annotations, cfg)
    ensures ReleaseVersionMatches(VersionAnnotations(annotations, cfg), cfg.releaseVersion)
  {
    assert ServiceAnnotations(ServiceAnnotations(annotations, cfg), cfg).value ==
      ServiceAnnotations(annotations, cfg).value;
    assert ConfigMapAnnotations(ConfigMapAnnotations(annotations, cfg), cfg).value ==
      ConfigMapAnnotations(annotations, cfg).value;
  }

  /** What is written conforms when it is read back. */
  lemma TargetConforms(slot: Slot, vpa: VpaController, cfg: Config, store: Store)
    ensures Conforms(slot, Target(slot, vpa, cfg, store), vpa, cfg)
  {
    hide ExpectedPodSpec, PolicySpecs, PodLabels, DeploymentName, VersionAnnotations, ServiceAnnotations,
         ConfigMapAnnotations, ReleaseVersionMatches;
    var k := SlotKey(slot, vpa, cfg);
    AnnotationsIdempotent(None, cfg);
    if k in store {
      AnnotationsIdempotent(store[k].GetMeta().annotations, cfg);
    }
  }

  /** The ten objects as work items. */
  ghost function ItemAt(slot: Slot, vpa: VpaController, cfg: Config, store: Store): Item {
    Item(SlotKey(slot, vpa, cfg), ConformsAt(slot, vpa, cfg, store), Target(slot, vpa, cfg, store))
  }

  ghost function Items(slots: seq<Slot>, vpa: VpaController, cfg: Config, store: Store): (items: seq<Item>)
    ensures |items| == |slots|
    ensures forall i :: 0 <= i < |slots| ==> items[i] == ItemAt(slots[i], vpa, cfg, store)
  {
    seq(|slots|, i requires 0 <= i < |slots| => ItemAt(slots[i], vpa, cfg, store))
  }

  /** The keys of the objects that do not conform. */
  ghost function Todo(vpa: VpaController, cfg: Config, store: Store): seq<Key> {
    Keys(Work(Items(SLOTS, vpa, cfg, store)))
  }

  /** A slot only looks at its own object. */
  lemma ItemReads(slot: Slot, vpa: VpaController, cfg: Config, a: Store, b: Store)
    requires Lookup(a, SlotKey(slot, vpa, cfg)) == Lookup(b, SlotKey(slot, vpa, cfg))
    ensures ItemAt(slot, vpa, cfg, a) == ItemAt(slot, vpa, cfg, b)
  {
  }

  lemma ItemsRead(slots: seq<Slot>, vpa: VpaController, cfg: Config, a: Store, b: Store)
    requires forall i :: 0 <= i < |slots| ==>
      Lookup(a, SlotKey(slots[i], vpa, cfg)) == Lookup(b, SlotKey(slots[i], vpa, cfg))
    ensures Items(slots, vpa, cfg, a) == Items(slots, vpa, cfg, b)
  {
    forall i | 0 <= i < |slots|
      ensures ItemAt(slots[i], vpa, cfg, a) == ItemAt(slots[i], vpa, cfg, b)
    {
      ItemReads(slots[i], vpa, cfg, a, b);
    }
  }

  /** Once its target is in the store, an item is done and wants nothing else. */
  lemma ItemWritten(slot: Slot, vpa: VpaController, cfg: Config, before: Store, after: Store)
    requires Lookup(after, SlotKey(slot, vpa, cfg)) == Some(Target(slot, vpa, cfg, before))
    ensures ItemAt(slot, vpa, cfg, after) == ItemAt(slot, vpa, cfg, before).(done := true)
  {
    TargetConforms(slot, vpa, cfg, before);
  }

  ghost function SlotKeys(vpa: VpaController, cfg: Config): seq<Key> {
    seq(|SLOTS|, i requires 0 <= i < |SLOTS| => SlotKey(SLOTS[i], vpa, cfg))
  }

  lemma KeysOfItems(vpa: VpaController, cfg: Config, store: Store)
    ensures Keys(Items(SLOTS, vpa, cfg, store)) == SlotKeys(vpa, cfg)
  {
  }

  /** Only deployments, services, config maps and network policies of the configured namespace are managed. */
  lemma ManagedKinds(vpa: VpaController, cfg: Config)
    ensures forall k :: k in SlotKeys(vpa, cfg) ==>
      k.namespace == cfg.namespace && k.kind in {DeploymentKind, ServiceKind, ConfigMapKind, PolicyKind}
  {
  }

  /** What is left to do is among the managed objects, each once. */
  lemma TodoManaged(vpa: VpaController, cfg: Config, store: Store)
    ensures forall k :: k in Todo(vpa, cfg, store) ==> k in SlotKeys(vpa, cfg)
    ensures Distinct(Todo(vpa, cfg, store))
  {
    TenObjects(vpa, cfg);
    DistinctKeysDistinctItems(SLOTS, vpa, cfg, store);
    WorkKeys(Items(SLOTS, vpa, cfg, store));
    KeysOfItems(vpa, cfg, store);
  }

  lemma TodoItem(vpa: VpaController, cfg: Config, store: Store, k: Key) returns (item: Item)
    requires k in Todo(vpa, cfg, store)
    ensures item in Items(SLOTS, vpa, cfg, store) && !item.done && item.key == k
  {
    var work := Work(Items(SLOTS, vpa, cfg, store));
    WorkMembers(Items(SLOTS, vpa, cfg, store));
    var j :| 0 <= j < |Keys(work)| && Keys(work)[j] == k;
    item := work[j];
    assert item in work;
  }

  lemma ItemIsTodo(items: seq<Item>, i: nat)
    requires i < |items| && !items[i].done
    ensures items[i].key in Keys(Work(items))
  {
    WorkMembers(items);
    assert items[i] in items;
    var j :| 0 <= j < |Work(items)| && Work(items)[j] == items[i];
    assert Keys(Work(items))[j] == items[i].key;
  }

  /** An object that conforms is not among what is left to do. */
  lemma DoneIsNotTodo(vpa: VpaController, cfg: Config, store: Store, i: nat)
    requires i < |SLOTS| && ConformsAt(SLOTS[i], vpa, cfg, store)
    ensures SlotKey(SLOTS[i], vpa, cfg) !in Todo(vpa, cfg, store)
  {
    hide ConformsAt, SlotKey, Target, Todo;
    var k := SlotKey(SLOTS[i], vpa, cfg);
    TenObjects(vpa, cfg);
    if k in Todo(vpa, cfg, store) {
      var item := TodoItem(vpa, cfg, store, k);
      assert false;
    }
  }

  // One slot

  /** A write that would succeed if served. */
  lemma WriteStep(s: ApiState, o: Object)
    ensures var w, wrote := Write(s, o, None), NextFate(s) != Refused;
      && w.api.store == (if wrote then s.store[o.GetKey() := o] else s.store)
      && w.api.writes == s.writes + (if wrote then [o.GetKey()] else [])
      && (w.error == None ==> wrote)
      && FaultCount(w.api.fates) <= FaultCount(s.fates)
      && (w.error != None ==> FaultCount(w.api.fates) < FaultCount(s.fates))
  {
    ConsumeCounts(s);
  }

  lemma RepairStep(slot: Slot, existing: Object, vpa: VpaController, cfg: Config, s: ApiState) returns (wrote: bool)
    requires existing.GetKey() == SlotKey(slot, vpa, cfg)
    requires SlotKey(slot, vpa, cfg) in s.store && s.store[SlotKey(slot, vpa, cfg)] == existing
    ensures var u := RepairedSlot(slot, existing, vpa, cfg, s);
      ItemStep(ItemAt(slot, vpa, cfg, s.store), CanOwn(vpa, cfg), s, WriteReply(u.api, u.error), wrote)
  {
    hide Conforms, Repaired, SlotKey, CanOwn, FaultCount;
    wrote := !Conforms(slot, existing, vpa, cfg) && NextFate(s) != Refused;
    WriteStep(s, Target(slot, vpa, cfg, s.store));
  }

  lemma CreateStep(slot: Slot, vpa: VpaController, cfg: Config, s: ApiState) returns (wrote: bool)
    requires SlotKey(slot, vpa, cfg) !in s.store
    ensures ItemStep(ItemAt(slot, vpa, cfg, s.store), CanOwn(vpa, cfg), s, CreatedSlot(slot, vpa, cfg, s), wrote)
  {
    hide Desired, Owned, SlotKey, CanOwn, FaultCount;
    var o := Target(slot, vpa, cfg, s.store);
    assert Created(s, o) == Write(s, o, None);
    assert CreatedSlot(slot, vpa, cfg, s) ==
      if CanOwn(vpa, cfg) then Write(s, o, None) else WriteReply(s, Some(CrossNamespace));
    wrote := CanOwn(vpa, cfg) && NextFate(s) != Refused;
    WriteStep(s, o);
    assert s.writes + [] == s.writes;
  }

  lemma OneSlot(slot: Slot, vpa: VpaController, cfg: Config, s: ApiState) returns (wrote: bool)
    ensures ItemStep(ItemAt(slot, vpa, cfg, s.store), CanOwn(vpa, cfg), s, EnsuredSlot(slot, vpa, cfg, s), wrote)
  {
    hide CreatedSlot, RepairedSlot, Target, ConformsAt, SlotKey, CanOwn;
    var k := SlotKey(slot, vpa, cfg);
    var s1, s2 := Consume(s), Consume(Consume(s));
    ConsumeCounts(s);
    ConsumeCounts(s1);
    wrote := false;
    if NextFate(s) == Served {
      if k !in s.store {
        wrote := CreateStep(slot, vpa, cfg, s1);
      } else if slot.PolicySlot? {
        wrote := RepairStep(slot, s.store[k], vpa, cfg, s1);
      } else if NextFate(s1) == Served {
        wrote := RepairStep(slot, s.store[k], vpa, cfg, s2);
      }
    }
  }

  // One attempt

  lemma DistinctKeysDistinctItems(slots: seq<Slot>, vpa: VpaController, cfg: Config, store: Store)
    requires DistinctKeys(slots, vpa, cfg)
    ensures DistinctItems(Items(slots, vpa, cfg, store))
  {
  }

  lemma {:induction false} WalkSlots(slots: seq<Slot>, vpa: VpaController, cfg: Config, s: ApiState)
    returns (n: nat, f: nat)
    requires DistinctKeys(slots, vpa, cfg)
    ensures Walk(Items(slots, vpa, cfg, s.store), CanOwn(vpa, cfg), s, EnsuredSlots(slots, vpa, cfg, s), n, f)
  {
    hide Walk, EnsuredSlot, ConformsAt, Target, SlotKey, CanOwn;
    var items, canCreate := Items(slots, vpa, cfg, s.store), CanOwn(vpa, cfg);
    DistinctKeysDistinctItems(slots, vpa, cfg, s.store);
    if slots == [] {
      EmptyWalk(canCreate, s);
      assert items == [];
      n, f := 0, 0;
    } else {
      var first := EnsuredSlot(slots[0], vpa, cfg, s);
      var wrote := OneSlot(slots[0], vpa, cfg, s);
      if first.error != None {
        FailedFirst(items, canCreate, s, first, wrote);
        n, f := if wrote then 1 else 0, 0;
      } else {
        var m, g := WalkSlots(slots[1..], vpa, cfg, first.api);
        RestReads(slots, vpa, cfg, s.store, first.api.store);
        WalkOn(items, canCreate, s, first, wrote, EnsuredSlots(slots[1..], vpa, cfg, first.api), m, g);
        n, f := m + (if wrote then 1 else 0), g + 1;
      }
    }
  }

  lemma RestReads(slots: seq<Slot>, vpa: VpaController, cfg: Config, before: Store, after: Store)
    requires slots != [] && DistinctKeys(slots, vpa, cfg)
    requires forall k :: k != SlotKey(slots[0], vpa, cfg) ==> Lookup(after, k) == Lookup(before, k)
    ensures Items(slots[1..], vpa, cfg, after) == Items(slots, vpa, cfg, before)[1..]
  {
    ItemsRead(slots[1..], vpa, cfg, after, before);
  }

  /** After progress n, what is left to do is the rest of what there was. */
  lemma ProgressLeaves(vpa: VpaController, cfg: Config, before: ApiState, after: ApiState, n: nat)
    requires Progress(Items(SLOTS, vpa, cfg, before.store), before, after, n)
    ensures Todo(vpa, cfg, after.store) == Todo(vpa, cfg, before.store)[n..]
  {
    hide ConformsAt, Todo, SlotKey, Work, Keys, Target;
    var items, now := Items(SLOTS, vpa, cfg, before.store), Items(SLOTS, vpa, cfg, after.store);
    TenObjects(vpa, cfg);
    DistinctKeysDistinctItems(SLOTS, vpa, cfg, before.store);
    forall i | 0 <= i < |items|
      ensures now[i] == if items[i].key in Keys(Work(items)[..n]) then items[i].(done := true) else items[i]
    {
      if items[i].key in Keys(Work(items)[..n]) {
        WrittenTarget(items, n, i, after.store);
        ItemWritten(SLOTS[i], vpa, cfg, before.store, after.store);
      } else {
        ItemReads(SLOTS[i], vpa, cfg, before.store, after.store);
      }
    }
    WorkLeft(items, now, n);
    RestOfTodo(vpa, cfg, before.store, after.store, n);
  }

  lemma RestOfTodo(vpa: VpaController, cfg: Config, before: Store, after: Store, n: nat)
    requires n <= |Work(Items(SLOTS, vpa, cfg, before))|
    requires Work(Items(SLOTS, vpa, cfg, after)) == Work(Items(SLOTS, vpa, cfg, before))[n..]
    ensures Todo(vpa, cfg, after) == Todo(vpa, cfg, before)[n..]
  {
    hide Work, Items;
  }

  lemma WrittenTarget(items: seq<Item>, n: nat, i: nat, after: Store)
    requires DistinctItems(items) && n <= |Work(items)| && i < |items| && items[i].key in Keys(Work(items)[..n])
    requires forall j :: 0 <= j < n ==> Lookup(after, Work(items)[j].key) == Some(Work(items)[j].target)
    ensures Lookup(after, items[i].key) == Some(items[i].target)
  {
    WorkMembers(items);
    var keys := Keys(Work(items)[..n]);
    var j :| 0 <= j < |keys| && keys[j] == items[i].key;
    var item := Work(items)[j];
    assert item in Work(items) && item in items;
  }
}
