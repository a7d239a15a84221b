/**
 * The in-memory scene store (src/core/state/SceneStore.ts): the swap mode, the list of
 * performer instances and the most recent error. Listener notification is not modelled;
 * `GetState` returns a value, so no caller can alias the stored state.
 */
module Scene {
  import opened Wrappers
  import opened Types
  import opened JsArrays

  /** Position of the first instance with id `id` (`findIndex`), or -1. */
  function IndexOfId(s: seq<RoleInstanceState>, id: Id): (r: int)
    ensures -1 <= r < |s|
    ensures r >= 0 ==> s[r].instanceId == id && forall j :: 0 <= j < r ==> s[j].instanceId != id
    ensures r == -1 <==> forall j :: 0 <= j < |s| ==> s[j].instanceId != id
  {
    FindIndex(s, (i: RoleInstanceState) => i.instanceId == id)
  }

  /** No two instances share an id. */
  ghost predicate DistinctIds(s: seq<RoleInstanceState>) {
    forall i, j :: 0 <= i < j < |s| ==> s[i].instanceId != s[j].instanceId
  }

  /** The instance list after `upsertInstance(inst)`: replace the first entry with that id, or append. */
  function Upserted(s: seq<RoleInstanceState>, inst: RoleInstanceState): (r: seq<RoleInstanceState>)
    ensures |r| == |s| || |r| == |s| + 1
    ensures inst in r
  {
    var idx := IndexOfId(s, inst.instanceId);
    if idx >= 0 then
      assert s[idx := inst][idx] == inst;
      s[idx := inst]
    else
      assert (s + [inst])[|s|] == inst;
      s + [inst]
  }

  /** The instance list after `removeInstance(id)`: every entry with another id, in order. */
  function Without(s: seq<RoleInstanceState>, id: Id): (r: seq<RoleInstanceState>)
    ensures |r| <= |s|
    ensures forall j :: 0 <= j < |r| ==> r[j].instanceId != id && r[j] in s
  {
    Filter(s, (i: RoleInstanceState) => i.instanceId != id)
  }

  /** Upserting a known id replaces exactly that entry: same length, every other entry kept. */
  lemma UpsertExisting(s: seq<RoleInstanceState>, inst: RoleInstanceState, k: nat)
    requires k < |s| && s[k].instanceId == inst.instanceId
    requires forall j :: 0 <= j < k ==> s[j].instanceId != inst.instanceId
    ensures |Upserted(s, inst)| == |s|
    ensures Upserted(s, inst)[k] == inst
    ensures forall j :: 0 <= j < |s| && j != k ==> Upserted(s, inst)[j] == s[j]
  {
  }

  /** Upserting a new id appends it: length grows by one, everything before is kept. */
  lemma UpsertNew(s: seq<RoleInstanceState>, inst: RoleInstanceState)
    requires forall j :: 0 <= j < |s| ==> s[j].instanceId != inst.instanceId
    ensures Upserted(s, inst) == s + [inst]
  {
  }

  /** After an upsert, looking up the id finds exactly the upserted value. */
  lemma UpsertThenFind(s: seq<RoleInstanceState>, inst: RoleInstanceState)
    ensures var r := Upserted(s, inst);
            var k := IndexOfId(r, inst.instanceId);
            k >= 0 && r[k] == inst
  {
    var r := Upserted(s, inst);
    var idx := IndexOfId(s, inst.instanceId);
    if idx >= 0 {
      assert r[idx] == inst;
      forall j | 0 <= j < idx ensures r[j].instanceId != inst.instanceId {
        assert r[j] == s[j];
      }
      assert IndexOfId(r, inst.instanceId) == idx;
    } else {
      assert r[|s|] == inst;
      forall j | 0 <= j < |s| ensures r[j].instanceId != inst.instanceId {
        assert r[j] == s[j];
      }
      assert IndexOfId(r, inst.instanceId) == |s|;
    }
  }

  /** Upsert keeps ids unique, so the store never holds two entries for one instance. */
  lemma UpsertKeepsDistinct(s: seq<RoleInstanceState>, inst: RoleInstanceState)
    requires DistinctIds(s)
    ensures DistinctIds(Upserted(s, inst))
  {
  }

  /** After a removal no entry has that id, and every entry with another id survives. */
  lemma WithoutRemoves(s: seq<RoleInstanceState>, id: Id)
    ensures forall j :: 0 <= j < |Without(s, id)| ==> Without(s, id)[j].instanceId != id
    ensures forall j :: 0 <= j < |s| && s[j].instanceId != id ==> s[j] in Without(s, id)
  {
  }

  /** Removing an id that occurs once, at `k`, deletes that one entry and keeps the rest in order. */
  lemma WithoutAt(s: seq<RoleInstanceState>, k: nat)
    requires DistinctIds(s) && k < |s|
    ensures Without(s, s[k].instanceId) == s[..k] + s[k + 1..]
  {
    var id := s[k].instanceId;
    var p := (i: RoleInstanceState) => i.instanceId != id;
    var left, right := s[..k], s[k + 1..];
    assert s == left + ([s[k]] + right);
    assert forall j :: 0 <= j < |left| ==> left[j] == s[j];
    assert forall j :: 0 <= j < |right| ==> right[j] == s[k + 1 + j];
    FilterAll(left, p);
    FilterAll(right, p);
    FilterNone([s[k]], p);
    FilterAppend([s[k]], right, p);
    FilterAppend(left, [s[k]] + right, p);
  }

  /** Removing an id nobody has changes nothing. */
  lemma WithoutAbsent(s: seq<RoleInstanceState>, id: Id)
    requires forall j :: 0 <= j < |s| ==> s[j].instanceId != id
    ensures Without(s, id) == s
  {
    FilterAll(s, (i: RoleInstanceState) => i.instanceId != id);
  }

  /** Deleting one entry keeps ids unique. */
  lemma DeleteKeepsDistinct(s: seq<RoleInstanceState>, k: nat)
    requires DistinctIds(s) && k < |s|
    ensures DistinctIds(s[..k] + s[k + 1..])
  {
    var r := s[..k] + s[k + 1..];
    forall i, j | 0 <= i < j < |r| ensures r[i].instanceId != r[j].instanceId {
      var i' := if i < k then i else i + 1;
      var j' := if j < k then j else j + 1;
      assert r[i] == s[i'];
      assert r[j] == s[j'];
    }
  }

  /** Removal keeps ids unique. */
  lemma WithoutKeepsDistinct(s: seq<RoleInstanceState>, id: Id)
    requires DistinctIds(s)
    ensures DistinctIds(Without(s, id))
  {
    var k := IndexOfId(s, id);
    if k < 0 {
      WithoutAbsent(s, id);
    } else {
      WithoutAt(s, k);
      DeleteKeepsDistinct(s, k);
    }
  }

  class SceneStore {
    var swapMode: SwapMode
    var instances: seq<RoleInstanceState>
    var lastError: Option<string>

    ghost predicate Valid()
      reads this
    {
      DistinctIds(instances)
    }

    /** The initial state: loop mode, no instances, no error. */
    constructor ()
      ensures Valid()
      ensures swapMode == Loop && instances == [] && lastError == None
    {
      swapMode := Loop;
      instances := [];
      lastError := None;
    }

    /** `getState()`: a copy of the whole state, as a value. */
    function GetState(): (s: SceneState)
      reads this
      ensures s.swapMode == swapMode && s.instances == instances && s.lastError == lastError
    {
      SceneState(swapMode, instances, lastError)
    }

    method SetSwapMode(mode: SwapMode)
      requires Valid()
      modifies this
      ensures Valid()
      ensures swapMode == mode
      ensures instances == old(instances) && lastError == old(lastError)
    {
      swapMode := mode;
    }

    method UpsertInstance(instance: RoleInstanceState)
      requires Valid()
      modifies this
      ensures Valid()
      ensures instances == Upserted(old(instances), instance)
      ensures swapMode == old(swapMode) && lastError == old(lastError)
    {
      UpsertKeepsDistinct(instances, instance);
      var idx := IndexOfId(instances, instance.instanceId);
      if idx >= 0 {
        instances := instances[idx := instance];
      } else {
        instances := instances + [instance];
      }
    }

    method RemoveInstance(instanceId: Id)
      requires Valid()
      modifies this
      ensures Valid()
      ensures instances == Without(old(instances), instanceId)
      ensures swapMode == old(swapMode) && lastError == old(lastError)
    {
      WithoutKeepsDistinct(instances, instanceId);
      instances := Without(instances, instanceId);
    }

    method SetError(msg: Option<string>)
      requires Valid()
      modifies this
      ensures Valid()
      ensures lastError == msg
      ensures swapMode == old(swapMode) && instances == old(instances)
    {
      lastError := msg;
    }
  }
}
