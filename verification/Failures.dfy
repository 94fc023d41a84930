/** Exactly when an attempt fails, call by call, and what it does for a resource that is gone. */
module Failures {
  import opened Common
  import opened ApiTypes
  import opened ApiServer
  import opened Flags
  import opened Reconcile
  import opened ManagedObjects
  import opened ReconcileRuns
  import opened Walks

  /** The calls that one object takes when all are served: a read; for an object that is there, other than a network
      policy, a second read; and a write if it is missing or does not conform. */
  ghost function CallsOf(slot: Slot, vpa: VpaController, cfg: Config, store: Store): nat {
    var present := SlotKey(slot, vpa, cfg) in store;
    1 + (if present && !slot.PolicySlot? then 1 else 0) + (if ConformsAt(slot, vpa, cfg, store) then 0 else 1)
  }

  ghost function CallsFor(slots: seq<Slot>, vpa: VpaController, cfg: Config, store: Store): nat {
    if slots == [] then 0 else CallsOf(slots[0], vpa, cfg, store) + CallsFor(slots[1..], vpa, cfg, store)
  }

  /** A write that is possible succeeds if and only if it is served. */
  lemma WriteWhen(s: ApiState, o: Object, m: nat)
    ensures var w := Write(s, o, None);
      && (w.error == None <==> FirstServed(s.fates, 1))
      && (w.error == None ==> (FirstServed(s.fates, 1 + m) <==> FirstServed(w.api.fates, m)))
  {
    hide FirstServed;
    FirstServedStep(s, 0);
    FirstServedStep(s, m);
    NoneServed(Consume(s).fates);
  }

  lemma RepairWhen(slot: Slot, existing: Object, vpa: VpaController, cfg: Config, s: ApiState, m: nat)
    requires existing.GetKey() == SlotKey(slot, vpa, cfg) && Lookup(s.store, SlotKey(slot, vpa, cfg)) == Some(existing)
    ensures var u, n := RepairedSlot(slot, existing, vpa, cfg, s), if ConformsAt(slot, vpa, cfg, s.store) then 0 else 1;
      && (u.error == None <==> FirstServed(s.fates, n))
      && (u.error == None ==> (FirstServed(s.fates, n + m) <==> FirstServed(u.api.fates, m)))
  {
    hide FirstServed, Conforms, Repaired, SlotKey;
    NoneServed(s.fates);
    if !Conforms(slot, existing, vpa, cfg) {
      WriteWhen(s, Repaired(slot, existing, vpa, cfg), m);
    }
  }

  lemma CreateWhen(slot: Slot, vpa: VpaController, cfg: Config, s: ApiState, m: nat)
    requires SlotKey(slot, vpa, cfg) !in s.store
    ensures var w := CreatedSlot(slot, vpa, cfg, s);
      && (w.error == None <==> FirstServed(s.fates, 1) && CanOwn(vpa, cfg))
      && (w.error == None ==> (FirstServed(s.fates, 1 + m) <==> FirstServed(w.api.fates, m)))
  {
    hide FirstServed, Desired, SlotKey, CanOwn, Owned;
    var o := Target(slot, vpa, cfg, s.store);
    WriteWhen(s, o, m);
  }

  lemma SlotFailsWhen(slot: Slot, vpa: VpaController, cfg: Config, s: ApiState, m: nat)
    ensures var r, n := EnsuredSlot(slot, vpa, cfg, s), CallsOf(slot, vpa, cfg, s.store);
      && (r.error == None <==> FirstServed(s.fates, n) && (SlotKey(slot, vpa, cfg) in s.store || CanOwn(vpa, cfg)))
      && (r.error == None ==> (FirstServed(s.fates, n + m) <==> FirstServed(r.api.fates, m)))
  {
    hide FirstServed, CreatedSlot, RepairedSlot, Conforms, SlotKey, CanOwn;
    var k, s1 := SlotKey(slot, vpa, cfg), Consume(s);
    var rest := CallsOf(slot, vpa, cfg, s.store) - 1;
    FirstServedStep(s, rest);
    FirstServedStep(s, rest + m);
    if k !in s.store {
      CreateWhen(slot, vpa, cfg, s1, m);
    } else if slot.PolicySlot? {
      RepairWhen(slot, s.store[k], vpa, cfg, s1, m);
    } else {
      FirstServedStep(s1, rest - 1);
      FirstServedStep(s1, rest - 1 + m);
      RepairWhen(slot, s.store[k], vpa, cfg, Consume(s1), m);
    }
  }

  lemma CallsRead(slots: seq<Slot>, vpa: VpaController, cfg: Config, a: Store, b: Store)
    requires forall i :: 0 <= i < |slots| ==>
      Lookup(a, SlotKey(slots[i], vpa, cfg)) == Lookup(b, SlotKey(slots[i], vpa, cfg))
    ensures CallsFor(slots, vpa, cfg, a) == CallsFor(slots, vpa, cfg, b)
    ensures forall i :: 0 <= i < |slots| ==> (SlotKey(slots[i], vpa, cfg) in a <==> SlotKey(slots[i], vpa, cfg) in b)
  {
    hide SlotKey, Conforms;
    if slots != [] {
      assert Lookup(a, SlotKey(slots[0], vpa, cfg)) == Lookup(b, SlotKey(slots[0], vpa, cfg));
      CallsRead(slots[1..], vpa, cfg, a, b);
      assert forall i :: 0 < i < |slots| ==> slots[i] == slots[1..][i - 1];
    }
  }

  ghost predicate AllCreatable(slots: seq<Slot>, vpa: VpaController, cfg: Config, store: Store) {
    CanOwn(vpa, cfg) || forall i :: 0 <= i < |slots| ==> SlotKey(slots[i], vpa, cfg) in store
  }

  lemma CreatableOneByOne(slots: seq<Slot>, vpa: VpaController, cfg: Config, store: Store)
    requires slots != []
    ensures AllCreatable(slots, vpa, cfg, store) <==>
      (SlotKey(slots[0], vpa, cfg) in store || CanOwn(vpa, cfg)) && AllCreatable(slots[1..], vpa, cfg, store)
  {
    hide SlotKey, CanOwn;
    assert forall i :: 0 < i < |slots| ==> slots[i] == slots[1..][i - 1];
    if AllCreatable(slots[1..], vpa, cfg, store) && !CanOwn(vpa, cfg) {
      assert forall i :: 0 <= i < |slots[1..]| ==> slots[1..][i] == slots[i + 1];
    }
  }

  lemma {:induction false} SlotsFailWhen(slots: seq<Slot>, vpa: VpaController, cfg: Config, s: ApiState)
    requires DistinctKeys(slots, vpa, cfg)
    ensures EnsuredSlots(slots, vpa, cfg, s).error == None <==>
      FirstServed(s.fates, CallsFor(slots, vpa, cfg, s.store)) && AllCreatable(slots, vpa, cfg, s.store)
  {
    hide FirstServed, EnsuredSlot, SlotKey, CanOwn, CallsOf, AllCreatable;
    if slots == [] {
      NoneServed(s.fates);
      NothingToCreate(vpa, cfg, s.store);
    } else {
      var first, rest := EnsuredSlot(slots[0], vpa, cfg, s), slots[1..];
      var wrote := OneSlot(slots[0], vpa, cfg, s);
      var n, m := CallsOf(slots[0], vpa, cfg, s.store), CallsFor(rest, vpa, cfg, s.store);
      SlotFailsWhen(slots[0], vpa, cfg, s, m);
      CreatableOneByOne(slots, vpa, cfg, s.store);
      if first.error == None {
        RestUntouched(slots, vpa, cfg, s, first, wrote);
        CallsRead(rest, vpa, cfg, first.api.store, s.store);
        SameCreatable(rest, vpa, cfg, first.api.store, s.store);
        SlotsFailWhen(rest, vpa, cfg, first.api);
      } else if FirstServed(s.fates, n + m) {
        FewerServed(s.fates, n, n + m);
      }
    }
  }

  lemma NothingToCreate(vpa: VpaController, cfg: Config, store: Store)
    ensures AllCreatable([], vpa, cfg, store)
  {
  }

  lemma SameCreatable(slots: seq<Slot>, vpa: VpaController, cfg: Config, a: Store, b: Store)
    requires forall i :: 0 <= i < |slots| ==> (SlotKey(slots[i], vpa, cfg) in a <==> SlotKey(slots[i], vpa, cfg) in b)
    ensures AllCreatable(slots, vpa, cfg, a) <==> AllCreatable(slots, vpa, cfg, b)
  {
    hide SlotKey, CanOwn;
  }

  lemma RestUntouched(slots: seq<Slot>, vpa: VpaController, cfg: Config, s: ApiState, first: WriteReply, wrote: bool)
    requires slots != [] && DistinctKeys(slots, vpa, cfg)
    requires ItemStep(ItemAt(slots[0], vpa, cfg, s.store), CanOwn(vpa, cfg), s, first, wrote)
    ensures forall i :: 0 <= i < |slots[1..]| ==>
      Lookup(first.api.store, SlotKey(slots[1..][i], vpa, cfg)) == Lookup(s.store, SlotKey(slots[1..][i], vpa, cfg))
  {
    hide SlotKey, CanOwn, ConformsAt, Target, FaultCount;
  }

  /** An attempt succeeds if and only if all calls it takes are served, except the first, which reads the TLS
      configuration and may fail; and the objects can be created.  So nothing else makes it fail, and no failed call
      goes unnoticed. */
  lemma AttemptFailsWhen(request: Key, vpa: VpaController, cfg: Config, s: ApiState)
    requires Present(request, vpa, s.store)
    ensures var a := Reconciled(request, cfg, s);
      a.error == None <==>
        FirstServed(Consume(s).fates, 1 + CallsFor(SLOTS, vpa, a.cfg, s.store)) && Creatable(vpa, cfg, s.store)
  {
    hide FirstServed, EnsuredSlots, CallsFor, SlotKey, ReadTls, WithTls;
    var cfg' := WithTls(cfg, SyncedTls(s).reading);
    TenObjects(vpa, cfg');
    SlotsFailWhen(SLOTS, vpa, cfg', Consume(Consume(s)));
    FirstServedStep(Consume(s), CallsFor(SLOTS, vpa, cfg', s.store));
    TlsOnly(request, cfg, s);
    NamesDoNotDependOnTls(vpa, cfg, cfg');
  }

  /** For a resource that is gone, an attempt changes nothing, and succeeds if and only if it could find that out. */
  lemma GoneIsLeftAlone(request: Key, cfg: Config, s: ApiState)
    requires request.kind == VpaKind && request !in s.store
    ensures var a := Reconciled(request, cfg, s);
      a.api.store == s.store && a.api.writes == s.writes && (a.error == None <==> FirstServed(Consume(s).fates, 1))
  {
    hide FirstServed, EnsuredSlots, ReadTls, WithTls;
    FirstServedStep(Consume(s), 0);
    NoneServed(Consume(Consume(s)).fates);
  }
}
