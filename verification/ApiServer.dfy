/** The API server, with an oracle that decides the fate of every call.
    A `Refused` call is not carried out; a `Lost` call is carried out but its answer does not arrive.  The oracle runs
    dry after finitely many fates; every later call is served. */
module ApiServer {
  import opened Common
  import opened ApiTypes

  datatype Fate = Served | Refused | Lost

  datatype Error = NotFound | AlreadyExists | Unavailable | CrossNamespace

  /** `writes` lists, in order, the keys of the writes that were carried out. */
  datatype ApiState = ApiState(store: Store, fates: seq<Fate>, writes: seq<Key>)

  function FaultCount(fates: seq<Fate>): nat {
    if fates == [] then 0 else (if fates[0] == Served then 0 else 1) + FaultCount(fates[1..])
  }

  function NextFate(s: ApiState): Fate {
    if s.fates == [] then Served else s.fates[0]
  }

  /** The state after the server has looked at one more call. */
  function Consume(s: ApiState): ApiState {
    if s.fates == [] then s else s.(fates := s.fates[1..])
  }

  lemma ConsumeCounts(s: ApiState)
    ensures FaultCount(Consume(s).fates) == FaultCount(s.fates) - if NextFate(s) == Served then 0 else 1
    ensures Consume(s).store == s.store && Consume(s).writes == s.writes
  {
  }

  /** The next n calls will all be served. */
  ghost predicate FirstServed(fates: seq<Fate>, n: nat) {
    forall i :: 0 <= i < n && i < |fates| ==> fates[i] == Served
  }

  lemma FirstServedStep(s: ApiState, n: nat)
    ensures FirstServed(s.fates, n + 1) <==> NextFate(s) == Served && FirstServed(Consume(s).fates, n)
  {
    if s.fates != [] {
      assert s.fates == [s.fates[0]] + s.fates[1..];
      if FirstServed(s.fates, n + 1) {
        assert forall i :: 0 <= i < n && i < |s.fates[1..]| ==> s.fates[1..][i] == s.fates[i + 1];
      }
    }
  }

  lemma NoneServed(fates: seq<Fate>)
    ensures FirstServed(fates, 0)
  {
  }

  lemma FewerServed(fates: seq<Fate>, m: nat, n: nat)
    requires m <= n && FirstServed(fates, n)
    ensures FirstServed(fates, m)
  {
  }

  datatype GetReply = GetReply(api: ApiState, result: Result<Object, Error>)

  datatype WriteReply = WriteReply(api: ApiState, error: Option<Error>)

  function Fetched(s: ApiState, k: Key): GetReply {
    if NextFate(s) != Served then GetReply(Consume(s), Err(Unavailable))
    else if k in s.store then GetReply(Consume(s), Ok(s.store[k]))
    else GetReply(Consume(s), Err(NotFound))
  }

  function Apply(s: ApiState, o: Object): ApiState {
    s.(store := s.store[o.GetKey() := o], writes := s.writes + [o.GetKey()])
  }

  /** A write whose outcome would be `outcome` if served: None stands for success. */
  function Write(s: ApiState, o: Object, outcome: Option<Error>): WriteReply {
    var s' := Consume(s);
    var written := if outcome == None && NextFate(s) != Refused then Apply(s', o) else s';
    WriteReply(written, if NextFate(s) == Served then outcome else Some(Unavailable))
  }

  function Created(s: ApiState, o: Object): WriteReply {
    Write(s, o, if o.GetKey() in s.store then Some(AlreadyExists) else None)
  }

  function Updated(s: ApiState, o: Object): WriteReply {
    Write(s, o, if o.GetKey() in s.store then None else Some(NotFound))
  }

  /** A strategic merge patch of annotations: `set` is added to what the server holds now. */
  function WithAnnotations(o: Namespace, additions: map<string, string>): Namespace {
    o.(meta := o.meta.(annotations := Some(Entries(o.meta.annotations) + additions)))
  }

  function Patched(s: ApiState, name: string, additions: map<string, string>): WriteReply {
    var k := Key(NamespaceKind, "", name);
    if k in s.store then Write(s, NamespaceObject(WithAnnotations(s.store[k].namespace, additions)), None)
    else WriteReply(Consume(s), Some(if NextFate(s) == Served then NotFound else Unavailable))
  }

  /** The client the operator holds. */
  class Client {
    var store: Store
    var fates: seq<Fate>
    var writes: seq<Key>

    constructor (state: ApiState)
      ensures State() == state
    {
      store, fates, writes := state.store, state.fates, state.writes;
    }

    function State(): ApiState
      reads this
    {
      ApiState(store, fates, writes)
    }

    method TakeFate() returns (fate: Fate)
      modifies this
      ensures fate == NextFate(old(State())) && State() == Consume(old(State()))
    {
      fate := Served;
      if fates != [] {
        fate, fates := fates[0], fates[1..];
      }
    }

    method Get(k: Key) returns (result: Result<Object, Error>)
      modifies this
      ensures GetReply(State(), result) == Fetched(old(State()), k)
    {
      var fate := TakeFate();
      if fate != Served {
        return Err(Unavailable);
      }
      result := if k in store then Ok(store[k]) else Err(NotFound);
    }

    method Commit(o: Object)
      modifies this
      ensures State() == Apply(old(State()), o)
    {
      store, writes := store[o.GetKey() := o], writes + [o.GetKey()];
    }

    method Create(o: Object) returns (error: Option<Error>)
      modifies this
      ensures WriteReply(State(), error) == Created(old(State()), o)
    {
      var fate := TakeFate();
      var taken := o.GetKey() in store;
      if !taken && fate != Refused {
        Commit(o);
      }
      error := if fate != Served then Some(Unavailable) else if taken then Some(AlreadyExists) else None;
    }

    method Update(o: Object) returns (error: Option<Error>)
      modifies this
      ensures WriteReply(State(), error) == Updated(old(State()), o)
    {
      var fate := TakeFate();
      var present := o.GetKey() in store;
      if present && fate != Refused {
        Commit(o);
      }
      error := if fate != Served then Some(Unavailable) else if present then None else Some(NotFound);
    }

    method PatchNamespace(name: string, additions: map<string, string>) returns (error: Option<Error>)
      modifies this
      ensures WriteReply(State(), error) == Patched(old(State()), name, additions)
    {
      var fate := TakeFate();
      var k := Key(NamespaceKind, "", name);
      var present := k in store;
      if present && fate != Refused {
        Commit(NamespaceObject(WithAnnotations(store[k].namespace, additions)));
      }
      error := if fate != Served then Some(Unavailable) else if present then None else Some(NotFound);
    }
  }
}
