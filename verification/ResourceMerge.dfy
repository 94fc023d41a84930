/** The in-place merge of a required ClusterOperator into an existing one.
    A `Ref` is a Go pointer to a field: the merges write through `modified` and `existing`. */
module ResourceMerge {
  import opened Common
  import opened ApiTypes
  import opened GoHeap

  // Conditions

  /** The position of the first condition of a type, or the length when there is none. */
  function FindCondition(conditions: seq<Condition>, ctype: string): (i: nat)
    ensures i <= |conditions|
    ensures i < |conditions| ==> conditions[i].ctype == ctype
    ensures forall j :: 0 <= j < i ==> conditions[j].ctype != ctype
  {
    if conditions == [] || conditions[0].ctype == ctype then 0 else 1 + FindCondition(conditions[1..], ctype)
  }

  /** Returns the index that stands for the pointer, or None for nil. */
  method FindOperatorStatusCondition(conditions: seq<Condition>, ctype: string) returns (found: Option<nat>)
    ensures found == if FindCondition(conditions, ctype) < |conditions| then Some(FindCondition(conditions, ctype))
      else None
  {
    for i := 0 to |conditions|
      invariant forall j :: 0 <= j < i ==> conditions[j].ctype != ctype
    {
      if conditions[i].ctype == ctype {
        return Some(i);
      }
    }
    return None;
  }

  // Strings and maps

  function MergedString(existing: string, required: string): string {
    if required == "" then existing else required
  }

  method SetStringIfSet(modified: Ref<bool>, existing: Ref<string>, required: string)
    modifies modified, existing
    ensures existing.value == MergedString(old(existing.value), required)
    ensures modified.value == (old(modified.value) || existing.value != old(existing.value))
  {
    if |required| == 0 {
      return;
    }
    if required != existing.value {
      existing.value := required;
      modified.value := true;
    }
  }

  function MergedMap(existing: StringMap, required: StringMap): StringMap {
    if existing == None && required == None then None else Some(Entries(existing) + Entries(required))
  }

  function Entry(m: StringMap, k: string): Option<string> {
    if m.Some? && k in m.value then Some(m.value[k]) else None
  }

  /** Every required entry is already there. */
  ghost predicate MapSatisfied(existing: StringMap, required: StringMap) {
    forall k :: k in Entries(required) ==> k in Entries(existing) && Entries(existing)[k] == Entries(required)[k]
  }

  /** Visits the required entries in any order, as ranging over a Go map does. */
  method MergeMap(modified: Ref<bool>, existing: Ref<StringMap>, required: StringMap)
    modifies modified, existing
    ensures existing.value == MergedMap(old(existing.value), required)
    ensures modified.value == (old(modified.value) || !MapSatisfied(old(existing.value), required))
  {
    if existing.value == None {
      if required == None {
        return;
      }
      existing.value := Some(map[]);
    }
    var todo := Entries(required).Keys;
    while todo != {}
      invariant todo <= Entries(required).Keys && existing.value.Some?
      invariant existing.value.value.Keys == Entries(old(existing.value)).Keys + (Entries(required).Keys - todo)
      invariant forall k :: k in existing.value.value ==>
        existing.value.value[k] ==
        if k in Entries(required) && k !in todo then Entries(required)[k] else Entries(old(existing.value))[k]
      invariant modified.value == (old(modified.value) || (exists k ::
        && k in Entries(required) && k !in todo
        && (k !in Entries(old(existing.value)) || Entries(old(existing.value))[k] != Entries(required)[k])))
      decreases todo
    {
      var k :| k in todo;
      var v := required.value[k];
      var entries := existing.value.value;
      if k !in entries || v != entries[k] {
        modified.value := true;
        existing.value := Some(entries[k := v]);
      }
      todo := todo - {k};
    }
    assert existing.value.value == Entries(old(existing.value)) + Entries(required);
  }

  /** The flag is raised exactly when the entries change; the one change without it is that of nil into an empty map. */
  lemma MapFlagExact(existing: StringMap, required: StringMap)
    ensures MapSatisfied(existing, required) <==> Entries(MergedMap(existing, required)) == Entries(existing)
    ensures MapSatisfied(existing, required) && MergedMap(existing, required) != existing <==>
            existing == None && required == Some(map[])
    ensures MapSatisfied(MergedMap(existing, required), required)
    ensures MergedMap(MergedMap(existing, required), required) == MergedMap(existing, required)
  {
    var merged := Entries(existing) + Entries(required);
    assert merged + Entries(required) == merged;
    if merged == Entries(existing) {
      forall k | k in Entries(required)
        ensures k in Entries(existing) && Entries(existing)[k] == Entries(required)[k]
      {
        assert k in merged;
      }
    }
  }

  // Owner references

  /** The position of the first reference with a UID, or the length when there is none. */
  function IndexOfUid(refs: seq<OwnerReference>, uid: string): (i: nat)
    ensures i <= |refs|
    ensures i < |refs| ==> refs[i].uid == uid
    ensures forall j :: 0 <= j < i ==> refs[j].uid != uid
  {
    if refs == [] || refs[0].uid == uid then 0 else 1 + IndexOfUid(refs[1..], uid)
  }

  predicate HasUid(refs: seq<OwnerReference>, uid: string) {
    IndexOfUid(refs, uid) < |refs|
  }

  /** The reference with the same UID is replaced where it first stands; a new UID goes to the end. */
  function MergedOwner(existing: seq<OwnerReference>, ref: OwnerReference): seq<OwnerReference> {
    var i := IndexOfUid(existing, ref.uid);
    if i < |existing| then existing[i := ref] else existing + [ref]
  }

  function MergedOwners(existing: seq<OwnerReference>, required: seq<OwnerReference>): seq<OwnerReference> {
    if required == [] then existing
    else MergedOwner(MergedOwners(existing, required[..|required| - 1]), required[|required| - 1])
  }

  /** Every required reference already is the first one of its UID. */
  ghost predicate OwnersSatisfied(existing: seq<OwnerReference>, required: seq<OwnerReference>) {
    forall i :: 0 <= i < |required| ==> OwnerSatisfied(existing, required[i])
  }

  /** The reference already is the first one of its UID. */
  predicate OwnerSatisfied(existing: seq<OwnerReference>, ref: OwnerReference) {
    HasUid(existing, ref.uid) && existing[IndexOfUid(existing, ref.uid)] == ref
  }

  lemma SatisfiedOwnersUnchanged(existing: seq<OwnerReference>, required: seq<OwnerReference>)
    requires OwnersSatisfied(existing, required)
    ensures MergedOwners(existing, required) == existing
  {
    if required != [] {
      var front := required[..|required| - 1];
      assert forall i :: 0 <= i < |front| ==> front[i] == required[i];
      SatisfiedOwnersUnchanged(existing, front);
    }
  }

  lemma OwnersOfNone(existing: seq<OwnerReference>)
    ensures MergedOwners(existing, []) == existing && OwnersSatisfied(existing, [])
  {
  }

  method MergeOwnerRefs(modified: Ref<bool>, existing: Ref<seq<OwnerReference>>, required: seq<OwnerReference>)
    modifies modified, existing
    ensures existing.value == MergedOwners(old(existing.value), required)
    ensures modified.value == (old(modified.value) || !OwnersSatisfied(old(existing.value), required))
  {
    hide OwnersSatisfied, MergedOwners, IndexOfUid;
    ghost var was, raised := existing.value, modified.value;
    OwnersOfNone(was);
    for r := 0 to |required|
      invariant existing.value == MergedOwners(was, required[..r])
      invariant modified.value == (raised || !OwnersSatisfied(was, required[..r]))
    {
      ghost var before, flag := existing.value, modified.value;
      var found := false;
      for e := 0 to |existing.value|
        invariant existing.value == before && modified.value == flag && !found
        invariant forall j :: 0 <= j < e ==> before[j].uid != required[r].uid
      {
        if required[r].uid == existing.value[e].uid {
          found := true;
          if existing.value[e] != required[r] {
            modified.value := true;
            existing.value := existing.value[e := required[r]];
          }
          break;
        }
      }
      if !found {
        modified.value := true;
        existing.value := existing.value + [required[r]];
      }
      assert existing.value == MergedOwner(before, required[r]);
      OwnerStep(was, required[..r], required[r]);
      assert required[..r + 1] == required[..r] + [required[r]];
    }
    assert required[..|required|] == required;
  }

  /** One turn of the outer loop: it writes exactly when the newest reference was not satisfied. */
  lemma OwnerStep(existing: seq<OwnerReference>, front: seq<OwnerReference>, last: OwnerReference)
    ensures var m := MergedOwners(existing, front);
      && MergedOwners(existing, front + [last]) == MergedOwner(m, last)
      && (OwnersSatisfied(existing, front + [last]) <==> OwnersSatisfied(existing, front) && MergedOwner(m, last) == m)
  {
    var all, m := front + [last], MergedOwners(existing, front);
    assert all[..|all| - 1] == front;
    MergedOwnerChanges(m, last);
    SatisfiedByLast(existing, front, last);
    if OwnersSatisfied(existing, front) {
      SatisfiedOwnersUnchanged(existing, front);
    }
  }

  lemma MergedOwnerChanges(existing: seq<OwnerReference>, ref: OwnerReference)
    ensures MergedOwner(existing, ref) == existing <==> OwnerSatisfied(existing, ref)
  {
    assert |existing + [ref]| != |existing|;
  }

  lemma SatisfiedByLast(existing: seq<OwnerReference>, front: seq<OwnerReference>, last: OwnerReference)
    ensures OwnersSatisfied(existing, front + [last]) <==>
      OwnersSatisfied(existing, front) && OwnerSatisfied(existing, last)
  {
    hide IndexOfUid;
    var all := front + [last];
    assert forall i :: 0 <= i < |front| ==> all[i] == front[i];
    assert all[|front|] == last;
    if OwnersSatisfied(existing, all) {
      assert forall i :: 0 <= i < |front| ==> OwnerSatisfied(existing, all[i]);
    }
  }

  // What a merged list of owners is, said without the merge

  function Uids(refs: seq<OwnerReference>): (uids: seq<string>)
    ensures |uids| == |refs| && forall i :: 0 <= i < |refs| ==> uids[i] == refs[i].uid
  {
    seq(|refs|, i requires 0 <= i < |refs| => refs[i].uid)
  }

  /** The required UIDs that do not occur in `existing`, each once, in order of first occurrence. */
  function NewUids(existing: seq<OwnerReference>, required: seq<OwnerReference>): seq<string> {
    if required == [] then []
    else
      var found := NewUids(existing, required[..|required| - 1]);
      var uid := required[|required| - 1].uid;
      if HasUid(existing, uid) || uid in found then found else found + [uid]
  }

  function LastWithUid(refs: seq<OwnerReference>, uid: string): (ref: OwnerReference)
    requires HasUid(refs, uid)
    ensures exists i ::
      0 <= i < |refs| && refs[i] == ref && ref.uid == uid && forall j :: i < j < |refs| ==> refs[j].uid != uid
  {
    var last := |refs| - 1;
    if refs[last].uid == uid then refs[last]
    else
      assert HasUid(refs[..last], uid) by {
        assert refs[..last][IndexOfUid(refs, uid)].uid == uid;
      }
      LastWithUid(refs[..last], uid)
  }

  ghost predicate FromRequired(required: seq<OwnerReference>, merged: seq<OwnerReference>, k: nat)
    requires k < |merged|
  {
    IndexOfUid(merged, merged[k].uid) == k && HasUid(required, merged[k].uid)
  }

  /** Existing entries keep their places and new UIDs follow; the first entry of a required UID is the last required
      reference with it, and every other entry is the existing one. */
  ghost predicate OwnersMerged(existing: seq<OwnerReference>, required: seq<OwnerReference>,
                               merged: seq<OwnerReference>) {
    && Uids(merged) == Uids(existing) + NewUids(existing, required)
    && forall k :: 0 <= k < |merged| ==>
         if FromRequired(required, merged, k) then merged[k] == LastWithUid(required, merged[k].uid)
         else k < |existing| && merged[k] == existing[k]
  }

  lemma MergeMeetsDefinition(existing: seq<OwnerReference>, required: seq<OwnerReference>)
    ensures OwnersMerged(existing, required, MergedOwners(existing, required))
  {
    if required == [] {
      assert forall k :: 0 <= k < |existing| ==> !FromRequired(required, existing, k);
    } else {
      var front, last := required[..|required| - 1], required[|required| - 1];
      MergeMeetsDefinition(existing, front);
      MergeStep(existing, front, last, MergedOwners(existing, front));
      assert required == front + [last];
    }
  }

  lemma UidAfterAppend(front: seq<OwnerReference>, last: OwnerReference, uid: string)
    ensures HasUid(front + [last], uid) <==> HasUid(front, uid) || last.uid == uid
    ensures HasUid(front + [last], uid) ==>
      LastWithUid(front + [last], uid) == if last.uid == uid then last else LastWithUid(front, uid)
  {
    var all := front + [last];
    assert all[..|all| - 1] == front;
    if HasUid(front, uid) {
      assert all[IndexOfUid(front, uid)].uid == uid;
    }
    if last.uid == uid {
      assert all[|front|].uid == uid;
    }
  }

  lemma MergeStep(existing: seq<OwnerReference>, front: seq<OwnerReference>, last: OwnerReference,
                  m: seq<OwnerReference>)
    requires OwnersMerged(existing, front, m)
    ensures OwnersMerged(existing, front + [last], MergedOwner(m, last))
  {
    var all, merged := front + [last], MergedOwner(m, last);
    MergeStepUids(existing, front, last, m);
    forall k | 0 <= k < |merged|
      ensures if FromRequired(all, merged, k) then merged[k] == LastWithUid(all, merged[k].uid)
              else k < |existing| && merged[k] == existing[k]
    {
      UidAfterAppend(front, last, merged[k].uid);
      MergeKeepsIndex(m, last, merged[k].uid);
    }
  }

  lemma MergeStepUids(existing: seq<OwnerReference>, front: seq<OwnerReference>, last: OwnerReference,
                      m: seq<OwnerReference>)
    requires Uids(m) == Uids(existing) + NewUids(existing, front)
    ensures Uids(MergedOwner(m, last)) == Uids(existing) + NewUids(existing, front + [last])
  {
    var all, merged := front + [last], MergedOwner(m, last);
    var known, found := Uids(existing), NewUids(existing, front);
    UidPlaces(existing, front, m, last.uid);
    NewUidsStep(existing, front, last);
    UidsStep(m, last);
    hide NewUids, Uids, IndexOfUid, HasUid, MergedOwner;
    assert (known + found) + [last.uid] == known + (found + [last.uid]);
  }

  lemma NewUidsStep(existing: seq<OwnerReference>, front: seq<OwnerReference>, last: OwnerReference)
    ensures var found := NewUids(existing, front);
      NewUids(existing, front + [last]) ==
        if HasUid(existing, last.uid) || last.uid in found then found else found + [last.uid]
  {
    var all := front + [last];
    assert all[..|all| - 1] == front;
  }

  lemma UidsStep(m: seq<OwnerReference>, last: OwnerReference)
    ensures Uids(MergedOwner(m, last)) == if HasUid(m, last.uid) then Uids(m) else Uids(m) + [last.uid]
  {
    var merged := MergedOwner(m, last);
    if HasUid(m, last.uid) {
      assert Uids(merged) == Uids(m);
    } else {
      assert Uids(merged) == Uids(m) + [last.uid];
    }
  }

  /** The first place of a UID does not move; only a new UID gets one, at the end. */
  lemma MergeKeepsIndex(m: seq<OwnerReference>, last: OwnerReference, uid: string)
    ensures var merged := MergedOwner(m, last);
      IndexOfUid(merged, uid) == if !HasUid(m, uid) && uid != last.uid then |merged| else IndexOfUid(m, uid)
  {
    var merged := MergedOwner(m, last);
    assert forall i :: 0 <= i < |m| ==> merged[i].uid == m[i].uid;
    var before, after := IndexOfUid(m, uid), IndexOfUid(merged, uid);
    assert before < |m| ==> merged[before].uid == uid;
    assert after < |m| ==> m[after].uid == uid;
    assert |merged| > |m| ==> merged[|m|] == last;
  }

  lemma UidPlaces(existing: seq<OwnerReference>, required: seq<OwnerReference>, m: seq<OwnerReference>, uid: string)
    requires Uids(m) == Uids(existing) + NewUids(existing, required)
    ensures HasUid(m, uid) <==> HasUid(existing, uid) || uid in NewUids(existing, required)
  {
    var new_ := NewUids(existing, required);
    if HasUid(existing, uid) {
      assert Uids(m)[IndexOfUid(existing, uid)] == uid;
    }
    if uid in new_ {
      var j :| 0 <= j < |new_| && new_[j] == uid;
      assert Uids(m)[|existing| + j] == uid;
    }
    if HasUid(m, uid) {
      assert Uids(m)[IndexOfUid(m, uid)] == uid;
    }
  }

  /** The definition has exactly one solution, and the merge computes it. */
  lemma MergedOwnersExactly(existing: seq<OwnerReference>, required: seq<OwnerReference>, result: seq<OwnerReference>)
    ensures OwnersMerged(existing, required, result) <==> result == MergedOwners(existing, required)
  {
    MergeMeetsDefinition(existing, required);
    var m := MergedOwners(existing, required);
    if OwnersMerged(existing, required, result) {
      assert |result| == |Uids(result)| == |Uids(m)| == |m|;
      forall k | 0 <= k < |m|
        ensures result[k] == m[k]
      {
        assert Uids(result)[k] == Uids(m)[k];
        SameUidsSameIndex(result, m, m[k].uid);
      }
    }
  }

  lemma SameUidsSameIndex(a: seq<OwnerReference>, b: seq<OwnerReference>, uid: string)
    requires Uids(a) == Uids(b)
    ensures IndexOfUid(a, uid) == IndexOfUid(b, uid)
  {
    assert |a| == |Uids(a)| == |b|;
    assert forall i :: 0 <= i < |a| ==> a[i].uid == Uids(a)[i] == Uids(b)[i] == b[i].uid;
  }

  /** The new UIDs are distinct, are not among the existing ones, and are exactly the remaining required ones. */
  lemma {:induction false} NewUidsAreNew(existing: seq<OwnerReference>, required: seq<OwnerReference>)
    ensures Distinct(NewUids(existing, required))
    ensures forall uid :: uid in NewUids(existing, required) <==> HasUid(required, uid) && !HasUid(existing, uid)
  {
    if required != [] {
      var front, last := required[..|required| - 1], required[|required| - 1];
      NewUidsAreNew(existing, front);
      assert required == front + [last];
      forall uid
        ensures HasUid(required, uid) <==> HasUid(front, uid) || last.uid == uid
      {
        UidAfterAppend(front, last, uid);
      }
    }
  }

  /** The UIDs of the merged list are the union, and a list without repeated UIDs stays one. */
  lemma MergedUids(existing: seq<OwnerReference>, required: seq<OwnerReference>)
    ensures forall uid :: HasUid(MergedOwners(existing, required), uid) <==>
      HasUid(existing, uid) || HasUid(required, uid)
    ensures Distinct(Uids(existing)) ==> Distinct(Uids(MergedOwners(existing, required)))
  {
    var m := MergedOwners(existing, required);
    MergeMeetsDefinition(existing, required);
    NewUidsAreNew(existing, required);
    forall uid
      ensures HasUid(m, uid) <==> HasUid(existing, uid) || HasUid(required, uid)
    {
      UidPlaces(existing, required, m, uid);
    }
    var new_ := NewUids(existing, required);
    if Distinct(Uids(existing)) {
      forall i, j | 0 <= i < j < |m|
        ensures Uids(m)[i] != Uids(m)[j]
      {
        if i < |existing| <= j {
          assert Uids(m)[j] == new_[j - |existing|] && Uids(m)[j] in new_;
          assert Uids(m)[i] == existing[i].uid;
        }
      }
    }
  }

  /** Two required references with one UID are the same reference. */
  ghost predicate ConsistentUids(refs: seq<OwnerReference>) {
    forall i, j :: 0 <= i < j < |refs| && refs[i].uid == refs[j].uid ==> refs[i] == refs[j]
  }

  lemma MergedHoldsLast(existing: seq<OwnerReference>, required: seq<OwnerReference>, uid: string)
    requires HasUid(required, uid)
    ensures HasUid(MergedOwners(existing, required), uid)
    ensures MergedOwners(existing, required)[IndexOfUid(MergedOwners(existing, required), uid)] ==
      LastWithUid(required, uid)
  {
    var m := MergedOwners(existing, required);
    MergedUids(existing, required);
    MergeMeetsDefinition(existing, required);
    assert FromRequired(required, m, IndexOfUid(m, uid));
  }

  /** Merging the same references again never changes the list, not even when UIDs repeat in `required`;
      but the second merge leaves the flag alone exactly when no two required references disagree on a UID. */
  lemma OwnersRepeat(existing: seq<OwnerReference>, required: seq<OwnerReference>)
    ensures MergedOwners(MergedOwners(existing, required), required) == MergedOwners(existing, required)
    ensures OwnersSatisfied(MergedOwners(existing, required), required) <==> ConsistentUids(required)
  {
    RepeatIsMerged(existing, required);
    MergedOwnersExactly(MergedOwners(existing, required), required, MergedOwners(existing, required));
    SatisfiedWhenConsistent(existing, required);
  }

  lemma SatisfiedWhenConsistent(existing: seq<OwnerReference>, required: seq<OwnerReference>)
    ensures OwnersSatisfied(MergedOwners(existing, required), required) <==> ConsistentUids(required)
  {
    hide MergedOwners;
    var m := MergedOwners(existing, required);
    forall i | 0 <= i < |required|
      ensures HasUid(required, required[i].uid) && HasUid(m, required[i].uid)
      ensures m[IndexOfUid(m, required[i].uid)] == LastWithUid(required, required[i].uid)
    {
      assert required[i].uid == required[i].uid;
      MergedHoldsLast(existing, required, required[i].uid);
    }
  }

  lemma RepeatIsMerged(existing: seq<OwnerReference>, required: seq<OwnerReference>)
    ensures OwnersMerged(MergedOwners(existing, required), required, MergedOwners(existing, required))
  {
    var m := MergedOwners(existing, required);
    MergedUids(existing, required);
    NewUidsAreNew(m, required);
    var again := NewUids(m, required);
    assert again == [] by {
      EmptyOrMember(again);
    }
    forall k | 0 <= k < |m| && FromRequired(required, m, k)
      ensures m[k] == LastWithUid(required, m[k].uid)
    {
      MergedHoldsLast(existing, required, m[k].uid);
    }
  }

  /** For given required references, the flag tells for every existing list whether the list changes exactly when no two
      of them disagree on a UID. */
  lemma OwnersFlagExact(required: seq<OwnerReference>)
    ensures (forall existing :: OwnersSatisfied(existing, required) <==> MergedOwners(existing, required) == existing)
            <==> ConsistentUids(required)
  {
    forall existing
      ensures OwnersSatisfied(existing, required) ==> MergedOwners(existing, required) == existing
      ensures MergedOwners(existing, required) == existing && ConsistentUids(required) ==>
        OwnersSatisfied(existing, required)
    {
      if OwnersSatisfied(existing, required) {
        SatisfiedOwnersUnchanged(existing, required);
      }
      OwnersRepeat(existing, required);
    }
    OwnersRepeat([], required);
  }

  // Whole objects

  function VersionList(versions: Option<seq<OperandVersion>>): seq<OperandVersion> {
    versions.GetOr([])
  }

  /** The ClusterOperator in memory; a field whose address is taken is a cell of its own. */
  class LiveOperator {
    const uid: string
    const generation: int
    const namespace: Ref<string>
    const name: Ref<string>
    const labels: Ref<StringMap>
    const annotations: Ref<StringMap>
    const owners: Ref<seq<OwnerReference>>
    var conditions: seq<Condition>
    var versions: Option<seq<OperandVersion>>
    var extensionRaw: string
    var extensionObject: Option<string>
    var relatedObjects: seq<ObjectReference>

    ghost predicate Valid() {
      namespace != name && labels != annotations
    }

    ghost function Cells(): set<object> {
      {namespace, name, labels, annotations, owners}
    }

    function Snapshot(): ClusterOperator
      reads this, namespace, name, labels, annotations, owners
    {
      ClusterOperator(
        ObjectMeta(namespace.value, name.value, uid, labels.value, annotations.value, owners.value, generation),
        OperatorStatus(conditions, versions, extensionRaw, extensionObject, relatedObjects))
    }

    constructor (o: ClusterOperator)
      ensures Valid() && fresh(Cells()) && Snapshot() == o
    {
      uid, generation := o.meta.uid, o.meta.generation;
      var namespaceCell := new Ref(o.meta.namespace);
      var nameCell := new Ref(o.meta.name);
      var labelsCell := new Ref(o.meta.labels);
      var annotationsCell := new Ref(o.meta.annotations);
      var ownersCell := new Ref(o.meta.owners);
      namespace, name, labels, annotations, owners := namespaceCell, nameCell, labelsCell, annotationsCell, ownersCell;
      conditions, versions := o.status.conditions, o.status.versions;
      extensionRaw, extensionObject := o.status.extensionRaw, o.status.extensionObject;
      relatedObjects := o.status.relatedObjects;
    }

    method EnsureObjectMeta(modified: Ref<bool>, required: ObjectMeta)
      requires Valid() && modified !in Cells()
      modifies modified, Cells()
      ensures Snapshot() == old(Snapshot()).(meta := EnsuredMeta(old(Snapshot().meta), required))
      ensures modified.value == (old(modified.value) || !MetaSatisfied(old(Snapshot().meta), required))
    {
      SetStringIfSet(modified, namespace, required.namespace);
      SetStringIfSet(modified, name, required.name);
      MergeMap(modified, labels, required.labels);
      MergeMap(modified, annotations, required.annotations);
      MergeOwnerRefs(modified, owners, required.owners);
    }

    method EnsureStatus(modified: Ref<bool>, required: OperatorStatus)
      modifies modified, this
      ensures Snapshot() == old(Snapshot()).(status := EnsuredStatus(old(Snapshot().status), required))
      ensures modified.value == (old(modified.value) || !SameStatus(old(Snapshot().status), required))
    {
      if conditions != required.conditions {
        modified.value := true;
        conditions := required.conditions;
      }
      if VersionList(versions) != VersionList(required.versions) {
        modified.value := true;
        versions := required.versions;
      }
      if extensionRaw != required.extensionRaw {
        modified.value := true;
        extensionRaw := required.extensionRaw;
      }
      if extensionObject != required.extensionObject {
        modified.value := true;
        extensionObject := required.extensionObject;
      }
      if relatedObjects != required.relatedObjects {
        modified.value := true;
        relatedObjects := required.relatedObjects;
      }
    }

    method EnsureClusterOperatorStatus(modified: Ref<bool>, required: ClusterOperator)
      requires Valid() && modified !in Cells()
      modifies modified, this, Cells()
      ensures Snapshot() == Ensured(old(Snapshot()), required)
      ensures modified.value == (old(modified.value) || !Satisfied(old(Snapshot()), required))
    {
      EnsureObjectMeta(modified, required.meta);
      EnsureStatus(modified, required.status);
    }
  }

  function EnsuredMeta(e: ObjectMeta, r: ObjectMeta): ObjectMeta {
    e.(namespace := MergedString(e.namespace, r.namespace), name := MergedString(e.name, r.name),
       labels := MergedMap(e.labels, r.labels), annotations := MergedMap(e.annotations, r.annotations),
       owners := MergedOwners(e.owners, r.owners))
  }

  function EnsuredStatus(e: OperatorStatus, r: OperatorStatus): OperatorStatus {
    r.(versions := if VersionList(e.versions) == VersionList(r.versions) then e.versions else r.versions)
  }

  function Ensured(e: ClusterOperator, r: ClusterOperator): ClusterOperator {
    ClusterOperator(EnsuredMeta(e.meta, r.meta), EnsuredStatus(e.status, r.status))
  }

  /** Nothing is left to do: the set strings, entries and owners that `r` asks for are in `e`. */
  ghost predicate MetaSatisfied(e: ObjectMeta, r: ObjectMeta) {
    && (r.namespace == "" || r.namespace == e.namespace)
    && (r.name == "" || r.name == e.name)
    && MapSatisfied(e.labels, r.labels)
    && MapSatisfied(e.annotations, r.annotations)
    && OwnersSatisfied(e.owners, r.owners)
  }

  /** Semantic equality: nil and empty are the same. */
  predicate SameStatus(a: OperatorStatus, b: OperatorStatus) {
    a == b.(versions := a.versions) && VersionList(a.versions) == VersionList(b.versions)
  }

  ghost predicate Satisfied(e: ClusterOperator, r: ClusterOperator) {
    MetaSatisfied(e.meta, r.meta) && SameStatus(e.status, r.status)
  }

  predicate SameObject(a: ClusterOperator, b: ClusterOperator) {
    && a.meta == b.meta.(labels := a.meta.labels, annotations := a.meta.annotations)
    && Entries(a.meta.labels) == Entries(b.meta.labels)
    && Entries(a.meta.annotations) == Entries(b.meta.annotations)
    && SameStatus(a.status, b.status)
  }

  /** Whatever the flag was, this merge raises it exactly when the object changes semantically, for every existing
      object, if and only if the required owners do not disagree on a UID. */
  lemma EnsureFlagExact(r: ClusterOperator)
    ensures (forall e :: Satisfied(e, r) <==> SameObject(Ensured(e, r), e)) <==> ConsistentUids(r.meta.owners)
  {
    OwnersFlagExact(r.meta.owners);
    if ConsistentUids(r.meta.owners) {
      forall e: ClusterOperator
        ensures Satisfied(e, r) <==> SameObject(Ensured(e, r), e)
      {
        MapFlagExact(e.meta.labels, r.meta.labels);
        MapFlagExact(e.meta.annotations, r.meta.annotations);
        OwnersRepeat(e.meta.owners, r.meta.owners);
      }
    } else {
      var owners := MergedOwners([], r.meta.owners);
      OwnersRepeat([], r.meta.owners);
      var e := r.(meta := r.meta.(owners := owners));
      MapFlagExact(e.meta.labels, r.meta.labels);
      MapFlagExact(e.meta.annotations, r.meta.annotations);
      assert !Satisfied(e, r) && SameObject(Ensured(e, r), e);
    }
  }

  /** What the merge makes of each field. */
  lemma EnsuredFields(e: ClusterOperator, r: ClusterOperator)
    ensures var merged := Ensured(e, r);
      && merged.meta.namespace == (if r.meta.namespace == "" then e.meta.namespace else r.meta.namespace)
      && merged.meta.name == (if r.meta.name == "" then e.meta.name else r.meta.name)
      && merged.meta.uid == e.meta.uid && merged.meta.generation == e.meta.generation
      && (forall k :: Entry(merged.meta.labels, k) ==
           if Entry(r.meta.labels, k).Some? then Entry(r.meta.labels, k) else Entry(e.meta.labels, k))
      && (forall k :: Entry(merged.meta.annotations, k) ==
           if Entry(r.meta.annotations, k).Some? then Entry(r.meta.annotations, k) else Entry(e.meta.annotations, k))
      && OwnersMerged(e.meta.owners, r.meta.owners, merged.meta.owners)
      && merged.status.conditions == r.status.conditions
      && merged.status.versions.GetOr([]) == r.status.versions.GetOr([])
      && merged.status.extensionRaw == r.status.extensionRaw
           && merged.status.extensionObject == r.status.extensionObject
      && merged.status.relatedObjects == r.status.relatedObjects
  {
    hide OwnersMerged, MergedOwners;
    MergeMeetsDefinition(e.meta.owners, r.meta.owners);
  }

  /** A second merge of the same requirement changes nothing; it finds the requirement satisfied, and so leaves a false
      flag false, exactly when the required owners do not disagree on a UID. */
  lemma EnsureRepeat(e: ClusterOperator, r: ClusterOperator)
    ensures Ensured(Ensured(e, r), r) == Ensured(e, r)
    ensures Satisfied(Ensured(e, r), r) <==> ConsistentUids(r.meta.owners)
  {
    MapFlagExact(e.meta.labels, r.meta.labels);
    MapFlagExact(e.meta.annotations, r.meta.annotations);
    OwnersRepeat(e.meta.owners, r.meta.owners);
  }

  /** Merging an object with a copy of itself: only repeated UIDs can raise the flag. */
  lemma EnsureSelf(e: ClusterOperator, status: OperatorStatus)
    ensures Satisfied(e, e.(status := status)) <==> SameStatus(e.status, status) && ConsistentUids(e.meta.owners)
    ensures ConsistentUids(e.meta.owners) ==> EnsuredMeta(e.meta, e.meta) == e.meta
  {
    var owners := e.meta.owners;
    assert OwnersSatisfied(owners, owners) <==> ConsistentUids(owners) by {
      forall i | 0 <= i < |owners|
        ensures HasUid(owners, owners[i].uid)
      {
        assert IndexOfUid(owners, owners[i].uid) <= i;
      }
      if ConsistentUids(owners) {
        assert OwnersSatisfied(owners, owners);
      }
    }
    if ConsistentUids(owners) {
      SatisfiedOwnersUnchanged(owners, owners);
      assert Entries(e.meta.labels) + Entries(e.meta.labels) == Entries(e.meta.labels);
      assert Entries(e.meta.annotations) + Entries(e.meta.annotations) == Entries(e.meta.annotations);
    }
  }
}
