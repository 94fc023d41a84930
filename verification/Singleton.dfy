/** Which resources are ever reconciled.  The name predicate guards only the watch of the resource itself; requests
    also come from the watch of the APIServer and from owned objects, so that the names in the queue, in the owners
    and in what is created next depend on each other. */
module Singleton {
  import opened Common
  import opened ApiTypes
  import opened ApiServer
  import opened Flags
  import opened Reconcile
  import opened ReconcileRuns
  import opened Frames

  // Events

  predicate NamePredicate(meta: ObjectMeta, cfg: Config) {
    meta.name == cfg.name
  }

  predicate IsController(ref: OwnerReference) {
    ref.controller == Some(true)
  }

  predicate IsVpaOwner(ref: OwnerReference) {
    IsController(ref) && ref.group == VPA_GROUP && ref.kind == VPA_KIND
  }

  /** The first controller among the owners, as the library looks it up. */
  function ControllerOf(owners: seq<OwnerReference>): Option<OwnerReference> {
    if owners == [] then None else if IsController(owners[0]) then Some(owners[0]) else ControllerOf(owners[1..])
  }

  /** Deployments, services and config maps are watched for their owner's sake. */
  predicate Watched(o: Object) {
    o.DeploymentObject? || o.ServiceObject? || o.ConfigMapObject?
  }

  function OwnerRequest(o: Object): set<Key> {
    match ControllerOf(o.GetMeta().owners)
    case None => {}
    case Some(ref) => if IsVpaOwner(ref) then {Key(VpaKind, o.GetMeta().namespace, ref.name)} else {}
  }

  /** The system: the work queue, the store, the objects as they once were (a watch may deliver them late), and the
      configuration with the TLS profile in use. */
  datatype Sys = Sys(queue: set<Key>, store: Store, past: set<Object>, cfg: Config)

  /** `Others` is everybody else leaving the store as given. */
  datatype Event = ResourceEvent(vpa: VpaController) | ApiServerEvent | OwnedEvent(o: Object)
                 | Work(request: Key, fates: seq<Fate>) | Others(store: Store)

  function Leave(s: Sys, store: Store): Sys {
    s.(store := store, past := s.past + s.store.Values)
  }

  /** The request leaves the queue, and comes back if the attempt fails. */
  function Worked(s: Sys, request: Key, fates: seq<Fate>): Sys
    requires request.kind == VpaKind
  {
    var a := Reconciled(request, s.cfg, ApiState(s.store, fates, []));
    Leave(s, a.api.store).(queue := s.queue - {request} + (if a.error == None then {} else {request}), cfg := a.cfg)
  }

  /** An event that cannot happen changes nothing. */
  function Next(s: Sys, e: Event): Sys {
    match e
    case ResourceEvent(vpa) =>
      if NamePredicate(vpa.meta, s.cfg) then s.(queue := s.queue + {VpaObject(vpa).GetKey()}) else s
    case ApiServerEvent => s.(queue := s.queue + {Key(VpaKind, s.cfg.namespace, s.cfg.name)})
    case OwnedEvent(o) =>
      if Watched(o) && o in s.past + s.store.Values then s.(queue := s.queue + OwnerRequest(o)) else s
    case Work(request, fates) => if request in s.queue && request.kind == VpaKind then Worked(s, request, fates) else s
    case Others(store) => Leave(s, store)
  }

  function After(s: Sys, events: seq<Event>): Sys
    decreases |events|
  {
    if events == [] then s else Next(After(s, events[..|events| - 1]), events[|events| - 1])
  }

  // What is queued

  /** An event for a resource queues it if and only if it has the configured name, in whatever namespace; an event for
      the APIServer queues the configured resource. */
  lemma WatchesQueue(s: Sys, vpa: VpaController)
    ensures Next(s, ResourceEvent(vpa)).queue ==
            s.queue + if vpa.meta.name == s.cfg.name then {Key(VpaKind, vpa.meta.namespace, s.cfg.name)} else {}
    ensures Next(s, ApiServerEvent).queue == s.queue + {Key(VpaKind, s.cfg.namespace, s.cfg.name)}
  {
  }

  /** An event for a deployment, service or config map that an attempt for a resource has created queues that
      resource, in the operator's namespace; so drift of such an object leads to another attempt. */
  lemma CreatedQueuesItsOwner(s: Sys, slot: Slot, o: Object, vpa: VpaController)
    requires CreatedFor(slot, o, vpa, s.cfg) && !slot.PolicySlot? && o in s.past + s.store.Values
    ensures Next(s, OwnedEvent(o)).queue == s.queue + {Key(VpaKind, s.cfg.namespace, vpa.meta.name)}
  {
    hide PodLabels, DeploymentName;
    var owners := o.GetMeta().owners;
    assert ControllerOf(owners) == Some(owners[0]);
  }

  /** A request leaves the queue when its attempt returns nil, and only then. */
  lemma FailedStaysQueued(s: Sys, request: Key, fates: seq<Fate>)
    requires request in s.queue && request.kind == VpaKind
    ensures var error := Reconciled(request, s.cfg, ApiState(s.store, fates, [])).error;
      Next(s, Work(request, fates)).queue == if error == None then s.queue - {request} else s.queue
  {
    hide Reconciled;
  }

  // The invariant

  /** All resources that are named as controller of the object have names in `names`. */
  ghost predicate OwnersWithin(o: Object, names: iset<string>) {
    forall i :: 0 <= i < |o.GetMeta().owners| && IsVpaOwner(o.GetMeta().owners[i]) ==>
      o.GetMeta().owners[i].name in names
  }

  ghost predicate StoreWithin(store: Store, names: iset<string>) {
    forall k :: k in store && Watched(store[k]) ==> OwnersWithin(store[k], names)
  }

  ghost predicate NamesWithin(s: Sys, names: iset<string>) {
    && (forall k :: k in s.queue ==> k.kind == VpaKind && k.name in names)
    && StoreWithin(s.store, names)
    && (forall o :: o in s.past && Watched(o) ==> OwnersWithin(o, names))
  }

  lemma {:induction false} ControllerIsOwner(owners: seq<OwnerReference>)
    ensures var c := ControllerOf(owners); c.Some? ==> c.value in owners
  {
    if owners != [] && !IsController(owners[0]) {
      ControllerIsOwner(owners[1..]);
    }
  }

  lemma RequestWithin(o: Object, names: iset<string>)
    requires OwnersWithin(o, names)
    ensures forall k :: k in OwnerRequest(o) ==> k.kind == VpaKind && k.name in names
  {
    var owners := o.GetMeta().owners;
    ControllerIsOwner(owners);
    if ControllerOf(owners).Some? {
      var i :| 0 <= i < |owners| && owners[i] == ControllerOf(owners).value;
    }
  }

  lemma LeaveWithin(s: Sys, store: Store, names: iset<string>)
    requires NamesWithin(s, names) && StoreWithin(store, names)
    ensures NamesWithin(Leave(s, store), names)
  {
    hide OwnersWithin, Watched;
  }

  /** What an attempt creates is owned by the resource it reconciles, and what it updates keeps its owners. */
  lemma AttemptWithin(request: Key, cfg: Config, s: ApiState, names: iset<string>)
    requires request.kind == VpaKind && request.name in names && StoreWithin(s.store, names)
    ensures StoreWithin(Reconciled(request, cfg, s).api.store, names)
  {
    hide OwnersWithin;
    var a := Reconciled(request, cfg, s);
    if request in s.store {
      var vpa := s.store[request].vpa;
      forall k | k in a.api.store && Watched(a.api.store[k])
        ensures OwnersWithin(a.api.store[k], names)
      {
        AttemptKeeps(request, vpa, cfg, s, k);
        OwnersSurvive(request, vpa, cfg, s, k, names);
      }
    } else {
      AbsentUntouched(request, cfg, s);
    }
  }

  lemma AbsentUntouched(request: Key, cfg: Config, s: ApiState)
    requires request.kind == VpaKind && request !in s.store
    ensures Reconciled(request, cfg, s).api.store == s.store
  {
    hide EnsuredSlots, ReadTls, WithTls;
  }

  lemma OwnersSurvive(request: Key, vpa: VpaController, cfg: Config, s: ApiState, k: Key, names: iset<string>)
    requires Present(request, vpa, s.store) && request.name in names && StoreWithin(s.store, names)
    requires var store := Reconciled(request, cfg, s).api.store;
      && k in store && Watched(store[k])
      && Framed(k, s.store, store, vpa, Reconciled(request, cfg, s).cfg)
    ensures OwnersWithin(Reconciled(request, cfg, s).api.store[k], names)
  {
    hide Reconciled, SameForeign;
    assert VpaObject(vpa).GetKey() == request;
    if k in s.store {
      assert Watched(s.store[k]);
    }
  }

  lemma NextWithin(s: Sys, e: Event, names: iset<string>)
    requires NamesWithin(s, names) && s.cfg.name in names
    requires e.Others? ==> StoreWithin(e.store, names)
    ensures NamesWithin(Next(s, e), names) && Next(s, e).cfg.name == s.cfg.name
  {
    hide OwnersWithin, Reconciled, OwnerRequest;
    match e
    case ResourceEvent(_) =>
    case ApiServerEvent =>
    case OwnedEvent(o) =>
      if Watched(o) && o in s.past + s.store.Values {
        RequestWithin(o, names);
      }
    case Work(request, fates) =>
      if request in s.queue {
        var api := ApiState(s.store, fates, []);
        AttemptWithin(request, s.cfg, api, names);
        TlsOnly(request, s.cfg, api);
        LeaveWithin(s, Reconciled(request, s.cfg, api).api.store, names);
      }
    case Others(store) => LeaveWithin(s, store, names);
  }

  /** Others name as controllers of watched objects only resources with names in `names`. */
  ghost predicate Restrained(events: seq<Event>, names: iset<string>) {
    forall i :: 0 <= i < |events| && events[i].Others? ==> StoreWithin(events[i].store, names)
  }

  /** Over every run, from every state: the names in the queue and in the owners stay within any set that holds the
      configured name, the names there at the start, and the names that others write into owners themselves. */
  lemma {:induction false} RunWithin(s: Sys, events: seq<Event>, names: iset<string>)
    requires NamesWithin(s, names) && s.cfg.name in names && Restrained(events, names)
    ensures NamesWithin(After(s, events), names) && After(s, events).cfg.name == s.cfg.name
    decreases |events|
  {
    hide NamesWithin, StoreWithin, Next;
    if events != [] {
      RunWithin(s, events[..|events| - 1], names);
      NextWithin(After(s, events[..|events| - 1]), events[|events| - 1], names);
    }
  }

  /** Only the configured resource is ever queued or made an owner, as long as nobody else names another one as the
      controller of a deployment, service or config map. */
  lemma OnlyTheSingleton(s: Sys, events: seq<Event>)
    requires NamesWithin(s, iset{s.cfg.name}) && Restrained(events, iset{s.cfg.name})
    ensures var s' := After(s, events);
      && (forall k :: k in s'.queue ==> k.kind == VpaKind && k.name == s.cfg.name)
      && (forall k, i :: k in s'.store && Watched(s'.store[k]) && 0 <= i < |s'.store[k].GetMeta().owners| ==>
            var ref := s'.store[k].GetMeta().owners[i]; IsVpaOwner(ref) ==> ref.name == s.cfg.name)
  {
    RunWithin(s, events, iset{s.cfg.name});
  }

  ghost predicate Queues(s: Sys, events: seq<Event>, name: string) {
    exists k :: k in After(s, events).queue && k.name == name
  }

  /** The predicate alone does not keep a name out: starting from nothing, the names that can ever be queued are exactly
      the configured one and those that others may write into owners. */
  lemma QueuedNames(cfg: Config, names: iset<string>, name: string)
    ensures (exists events :: Restrained(events, names) && Queues(Sys({}, map[], {}, cfg), events, name)) <==>
            name == cfg.name || name in names
  {
    var start := Sys({}, map[], {}, cfg);
    forall events | Restrained(events, names) && Queues(start, events, name)
      ensures name == cfg.name || name in names
    {
      RunWithin(start, events, names + iset{cfg.name});
    }
    if name == cfg.name {
      var events := [ApiServerEvent];
      assert events[..0] == [];
      assert Key(VpaKind, cfg.namespace, name) in After(start, events).queue;
      assert Queues(start, events, name);
    }
    if name in names {
      var events := QueueByOwner(start, names, name);
    }
  }

  lemma QueueByOwner(start: Sys, names: iset<string>, name: string) returns (events: seq<Event>)
    requires name in names
    ensures Restrained(events, names) && Queues(start, events, name)
  {
    var owner := OwnerReference(VPA_GROUP, "v1", VPA_KIND, name, "", Some(true), Some(true));
    var o := ConfigMapObject(ConfigMap(EmptyMeta("", "").(owners := [owner]), map[]));
    var store: Store := map[o.GetKey() := o];
    events := [Others(store), OwnedEvent(o)];
    assert OwnersWithin(o, names);
    assert events[..1] == [Others(store)] && events[..1][..0] == [];
    assert After(start, events[..1]) == Next(start, Others(store));
    assert o in After(start, events[..1]).store.Values by {
      assert store[o.GetKey()] == o;
    }
    assert OwnerRequest(o) == {Key(VpaKind, "", name)};
    assert Key(VpaKind, "", name) in After(start, events).queue;
  }
}
