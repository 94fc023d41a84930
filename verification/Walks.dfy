/** A walk over work items: each item is either done or gets its target written, and the walk stops at the first
    failure. An item stands for one managed object; here it does not matter what the object is. */
module Walks {
  import opened Common
  import opened ApiTypes
  import opened ApiServer

  /** `done` says that the object under `key` is as it should be; else `target` is to be written there. */
  datatype Item = Item(key: Key, done: bool, target: Object)

  ghost predicate DistinctItems(items: seq<Item>) {
    forall i, j :: 0 <= i < j < |items| ==> items[i].key != items[j].key
  }

  /** The items still to be written, in order. */
  function Work(items: seq<Item>): seq<Item> {
    if items == [] then [] else (if items[0].done then [] else [items[0]]) + Work(items[1..])
  }

  function Keys(items: seq<Item>): (keys: seq<Key>)
    ensures |keys| == |items| && forall i :: 0 <= i < |items| ==> keys[i] == items[i].key
  {
    seq(|items|, i requires 0 <= i < |items| => items[i].key)
  }

  lemma {:induction false} WorkMembers(items: seq<Item>)
    ensures forall item :: item in Work(items) <==> item in items && !item.done
    ensures Work(items) == [] <==> forall i :: 0 <= i < |items| ==> items[i].done
    ensures DistinctItems(items) ==> DistinctItems(Work(items))
  {
    if items != [] {
      WorkMembers(items[1..]);
      assert items == [items[0]] + items[1..];
      EmptyOrMember(Work(items));
    }
  }

  lemma WorkKeys(items: seq<Item>)
    ensures forall k :: k in Keys(Work(items)) ==> k in Keys(items)
    ensures DistinctItems(items) ==> Distinct(Keys(Work(items)))
  {
    WorkMembers(items);
    var keys, work := Keys(Work(items)), Work(items);
    forall i | 0 <= i < |keys|
      ensures keys[i] in Keys(items)
    {
      assert work[i] in items;
      var j :| 0 <= j < |items| && items[j] == work[i];
      assert Keys(items)[j] == keys[i];
    }
  }

  /** One item: at most its own target is written, and only if it was not done; a failure costs a fault, unless the
      object is missing and cannot be created. */
  ghost predicate ItemStep(item: Item, canCreate: bool, s: ApiState, r: WriteReply, wrote: bool) {
    && item.target.GetKey() == item.key
    && r.api.store == (if wrote then s.store[item.key := item.target] else s.store)
    && r.api.writes == s.writes + (if wrote then [item.key] else [])
    && (wrote ==> !item.done)
    && (r.error == None ==> (wrote || item.done) && (item.key in s.store || canCreate))
    && FaultCount(r.api.fates) <= FaultCount(s.fates)
    && (r.error != None ==> FaultCount(r.api.fates) < FaultCount(s.fates) || (!canCreate && item.key !in s.store))
  }

  /** The first n items of the work have been written, in order and each once; nothing else has changed. */
  ghost predicate Progress(items: seq<Item>, before: ApiState, after: ApiState, n: nat) {
    var work := Work(items);
    && n <= |work|
    && after.writes == before.writes + Keys(work[..n])
    && (forall k :: k !in Keys(work[..n]) ==> Lookup(after.store, k) == Lookup(before.store, k))
    && forall i :: 0 <= i < n ==> Lookup(after.store, work[i].key) == Some(work[i].target)
  }

  /** The walk made progress n and stopped at item f: the items before it are in place, the items after it untouched. */
  ghost predicate Walk(items: seq<Item>, canCreate: bool, s: ApiState, r: WriteReply, n: nat, f: nat) {
    && Progress(items, s, r.api, n)
    && f <= |items|
    && (forall i :: 0 <= i < f ==> items[i].done || items[i].key in Keys(Work(items)[..n]))
    && (forall i :: f < i < |items| ==> Lookup(r.api.store, items[i].key) == Lookup(s.store, items[i].key))
    && FaultCount(r.api.fates) <= FaultCount(s.fates)
    && (r.error == None ==>
         f == |items| && n == |Work(items)| && forall i :: 0 <= i < |items| ==> items[i].key in s.store || canCreate)
    && (r.error != None ==>
         f < |items| && (FaultCount(r.api.fates) < FaultCount(s.fates) || (!canCreate && items[f].key !in s.store)))
  }

  lemma EmptyWalk(canCreate: bool, s: ApiState)
    ensures Walk([], canCreate, s, WriteReply(s, None), 0, 0)
  {
    assert s.writes + [] == s.writes;
  }

  lemma FailedFirst(items: seq<Item>, canCreate: bool, s: ApiState, first: WriteReply, wrote: bool)
    requires items != [] && DistinctItems(items) && ItemStep(items[0], canCreate, s, first, wrote)
      && first.error != None
    ensures Walk(items, canCreate, s, first, if wrote then 1 else 0, 0)
  {
    if wrote {
      assert Work(items)[..1] == [items[0]];
      assert Keys(Work(items)[..1]) == [items[0].key];
      assert forall k :: k !in Keys(Work(items)[..1]) ==> k != items[0].key by {
        assert Keys(Work(items)[..1])[0] == items[0].key;
      }
    } else {
      assert Work(items)[..0] == [] && Keys([]) == [];
    }
  }

  lemma WrittenSoFar(items: seq<Item>, wrote: bool, m: nat)
    requires items != [] && (wrote <==> !items[0].done) && m <= |Work(items[1..])|
    ensures var later, n := Work(items[1..]), m + (if wrote then 1 else 0);
      && n <= |Work(items)|
      && Work(items) == (if wrote then [items[0]] else []) + later
      && Keys(Work(items)[..n]) == (if wrote then [items[0].key] else []) + Keys(later[..m])
      && (forall k :: k in Keys(Work(items)[..n]) <==> (wrote && k == items[0].key) || k in Keys(later[..m]))
      && (|Work(items)| == n <==> |later| == m)
  {
    var later, head := Work(items[1..]), if wrote then [items[0]] else [];
    assert Work(items) == head + later;
    assert Work(items)[..m + |head|] == head + later[..m];
    assert Keys(head + later[..m]) == Keys(head) + Keys(later[..m]);
    assert |Keys(head)| == if wrote then 1 else 0;
  }

  lemma ProgressOn(items: seq<Item>, canCreate: bool, s: ApiState, first: WriteReply, wrote: bool, after: ApiState,
                   m: nat)
    requires items != [] && DistinctItems(items) && ItemStep(items[0], canCreate, s, first, wrote)
      && first.error == None
    requires Progress(items[1..], first.api, after, m)
    ensures Progress(items, s, after, m + (if wrote then 1 else 0))
  {
    hide FaultCount, Work, Keys, DistinctItems;
    var later, n := Work(items[1..]), m + (if wrote then 1 else 0);
    WrittenSoFar(items, wrote, m);
    HeadIsNew(items, m);
    var head := if wrote then [items[0].key] else [];
    assert s.writes + head + Keys(later[..m]) == s.writes + (head + Keys(later[..m]));
    assert Lookup(after.store, items[0].key) == Lookup(first.api.store, items[0].key);
    forall i | 0 <= i < n
      ensures Lookup(after.store, Work(items)[i].key) == Some(Work(items)[i].target)
    {
      if wrote && i > 0 {
        assert Work(items)[i] == later[i - 1];
      } else if !wrote {
        assert Work(items)[i] == later[i];
      }
    }
  }

  lemma WalkOn(items: seq<Item>, canCreate: bool, s: ApiState, first: WriteReply, wrote: bool, r: WriteReply, m: nat,
               g: nat)
    requires items != [] && DistinctItems(items) && ItemStep(items[0], canCreate, s, first, wrote)
      && first.error == None
    requires Walk(items[1..], canCreate, first.api, r, m, g)
    ensures Walk(items, canCreate, s, r, m + (if wrote then 1 else 0), g + 1)
  {
    ProgressOn(items, canCreate, s, first, wrote, r.api, m);
    WrittenSoFar(items, wrote, m);
    forall i | 0 < i < |items|
      ensures i < g + 1 ==> items[i].done || items[i].key in Keys(Work(items[1..])[..m])
      ensures g + 1 < i ==> Lookup(r.api.store, items[i].key) == Lookup(first.api.store, items[i].key)
      ensures Lookup(first.api.store, items[i].key) == Lookup(s.store, items[i].key)
      ensures r.error == None ==> items[i].key in first.api.store || canCreate
    {
      assert items[i] == items[1..][i - 1];
    }
    forall i | 0 <= i < |items| && r.error == None
      ensures items[i].key in s.store || canCreate
    {
      assert i > 0 ==> Lookup(first.api.store, items[i].key) == Lookup(s.store, items[i].key);
    }
  }

  lemma HeadIsNew(items: seq<Item>, m: nat)
    requires items != [] && DistinctItems(items) && m <= |Work(items[1..])|
    ensures items[0].key !in Keys(Work(items[1..])[..m])
  {
    var later := Work(items[1..]);
    WorkMembers(items[1..]);
    forall i | 0 <= i < m
      ensures later[i].key != items[0].key
    {
      assert later[i] in later && later[i] in items[1..];
    }
  }

  /** After progress n, the items as they now stand have the rest of the work left. */
  lemma {:induction false} WorkLeft(items: seq<Item>, now: seq<Item>, n: nat)
    requires DistinctItems(items) && |now| == |items| && n <= |Work(items)|
    requires forall i :: 0 <= i < |items| ==>
      now[i] == if items[i].key in Keys(Work(items)[..n]) then items[i].(done := true) else items[i]
    ensures Work(now) == Work(items)[n..]
  {
    if items != [] {
      var work, later := Work(items), Work(items[1..]);
      var m := if items[0].done || n == 0 then n else n - 1;
      HeadIsNew(items, m);
      assert work[..n] == (if m == n then [] else [items[0]]) + later[..m] || (n == 0 && !items[0].done);
      if m < n {
        assert Keys(work[..n])[0] == items[0].key;
      }
      forall i | 0 <= i < |items[1..]|
        ensures now[1..][i] ==
                if items[1..][i].key in Keys(later[..m]) then items[1..][i].(done := true) else items[1..][i]
      {
        assert items[i + 1].key != items[0].key;
        assert items[i + 1].key in Keys(work[..n]) <==> items[i + 1].key in Keys(later[..m]) by {
          if m == n {
            assert work[..n] == later[..m];
          } else {
            assert work[..n] == [items[0]] + later[..m];
            assert Keys(work[..n]) == [items[0].key] + Keys(later[..m]);
          }
        }
      }
      WorkLeft(items[1..], now[1..], m);
    }
  }
}
