/**
 * The manager's cached runtime registry: four lookup maps rebuilt from a snapshot of the
 * deploy driver on every scheduled fetch. The driver's two listings are inputs of `Fetch`;
 * a listing that threw is an `Err`.
 */
module CachedMeshManagement {
  import opened Common
  import opened Runtimes

  /** The instances whose runtime id names a runtime of `byId`, in listing order. */
  function Attached(instances: seq<RuntimeInstance>, byId: map<string, Runtime>): (r: seq<RuntimeInstance>)
    ensures forall p :: p in r <==> p in instances && p.runtimeId in byId
    decreases |instances|
  {
    if instances == [] then []
    else
      var init := Attached(instances[..|instances| - 1], byId);
      var last := instances[|instances| - 1];
      assert instances == instances[..|instances| - 1] + [last];
      if last.runtimeId in byId then init + [last] else init
  }

  /** The runtime map by name that a fetch of `runtimes` builds. */
  function ByName(runtimes: seq<Runtime>): map<string, Runtime>
  {
    IndexBy(runtimes, NameOf)
  }

  /** The runtime map by id that a fetch of `runtimes` builds. */
  function ById(runtimes: seq<Runtime>): map<string, Runtime>
  {
    IndexBy(runtimes, IdOf)
  }

  /** The instance map by id that a fetch of `runtimes` and `instances` builds. */
  function InstanceIndex(runtimes: seq<Runtime>, instances: seq<RuntimeInstance>): map<string, RuntimeInstance>
  {
    IndexBy(Attached(instances, ById(runtimes)), InstanceIdOf)
  }

  /**
   * After a fetch every fetched runtime is found under its name and under its id, and
   * nothing else is; a later runtime with the same name or id replaces an earlier one.
   */
  lemma RuntimeLookupAfterFetch(runtimes: seq<Runtime>, i: int, key: string)
    requires 0 <= i < |runtimes|
    ensures key in ByName(runtimes) <==> exists j :: 0 <= j < |runtimes| && runtimes[j].name == key
    ensures key in ById(runtimes) <==> exists j :: 0 <= j < |runtimes| && runtimes[j].id == key
    ensures runtimes[i].name in ByName(runtimes) && runtimes[i].id in ById(runtimes)
    ensures (forall j :: i < j < |runtimes| ==> runtimes[j].name != runtimes[i].name) ==>
              ByName(runtimes)[runtimes[i].name] == runtimes[i]
    ensures (forall j :: i < j < |runtimes| ==> runtimes[j].id != runtimes[i].id) ==>
              ById(runtimes)[runtimes[i].id] == runtimes[i]
  {
    IndexByKeys(runtimes, NameOf, key);
    IndexByKeys(runtimes, IdOf, key);
    IndexByKeys(runtimes, NameOf, runtimes[i].name);
    IndexByKeys(runtimes, IdOf, runtimes[i].id);
    if forall j :: i < j < |runtimes| ==> runtimes[j].name != runtimes[i].name {
      IndexByLast(runtimes, NameOf, i);
    }
    if forall j :: i < j < |runtimes| ==> runtimes[j].id != runtimes[i].id {
      IndexByLast(runtimes, IdOf, i);
    }
  }

  /**
   * An instance id is in the instance map iff some listed instance with that id refers to a
   * runtime of the same fetch, and every stored instance refers to such a runtime: no
   * dangling runtime reference survives a complete fetch.
   */
  lemma InstanceIndexAttached(runtimes: seq<Runtime>, instances: seq<RuntimeInstance>, key: string)
    ensures key in InstanceIndex(runtimes, instances) <==>
              exists p :: p in instances && p.id == key && p.runtimeId in ById(runtimes)
    ensures key in InstanceIndex(runtimes, instances) ==>
              InstanceIndex(runtimes, instances)[key] in instances &&
              InstanceIndex(runtimes, instances)[key].id == key &&
              InstanceIndex(runtimes, instances)[key].runtimeId in ById(runtimes)
  {
    var att := Attached(instances, ById(runtimes));
    IndexByKeys(att, InstanceIdOf, key);
    if key in InstanceIndex(runtimes, instances) {
      IndexByValues(att, InstanceIdOf, key);
    }
    if exists p :: p in instances && p.id == key && p.runtimeId in ById(runtimes) {
      var p :| p in instances && p.id == key && p.runtimeId in ById(runtimes);
      assert p in att;
      var j :| 0 <= j < |att| && att[j] == p;
      assert InstanceIdOf(att[j]) == key;
    }
  }

  class CachedMeshManagementService {
    var runtimeMap: map<string, Runtime>
    var runtimeByIdMap: map<string, Runtime>
    var runtimeInstanceMap: map<string, RuntimeInstance>
    var runtimeInstancesByServiceNameMap: map<string, seq<RuntimeInstance>>

    /** The by-service-name map is never given an entry. */
    ghost predicate Valid()
      reads this
    {
      runtimeInstancesByServiceNameMap == map[]
    }

    constructor ()
      ensures Valid()
      ensures runtimeMap == map[] && runtimeByIdMap == map[] && runtimeInstanceMap == map[]
    {
      runtimeMap := map[];
      runtimeByIdMap := map[];
      runtimeInstanceMap := map[];
      runtimeInstancesByServiceNameMap := map[];
    }

    /** A new list of every runtime stored by name, in the map's iteration order. */
    method RuntimeList() returns (rs: seq<Runtime>)
      ensures |rs| == |runtimeMap|
      ensures forall r :: r in rs <==> r in runtimeMap.Values
    {
      var ks;
      rs, ks := ValuesOf(runtimeMap);
      forall r | r in runtimeMap.Values ensures r in rs {
        var k :| k in runtimeMap && runtimeMap[k] == r;
        var i :| 0 <= i < |ks| && ks[i] == k;
        assert rs[i] == r;
      }
    }

    function GetRuntimeByName(name: string): (r: Option<Runtime>)
      reads this
      ensures r.None? <==> name !in runtimeMap
      ensures r.Some? ==> r.value == runtimeMap[name]
    {
      if name in runtimeMap then Some(runtimeMap[name]) else None
    }

    function GetRuntimeById(id: string): (r: Option<Runtime>)
      reads this
      ensures r.None? <==> id !in runtimeByIdMap
      ensures r.Some? ==> r.value == runtimeByIdMap[id]
    {
      if id in runtimeByIdMap then Some(runtimeByIdMap[id]) else None
    }

    /** A missing entry reads as an empty list; since no entry is ever stored, always empty. */
    function GetRuntimeInstancesByServiceName(name: string): (r: seq<RuntimeInstance>)
      reads this
      ensures name !in runtimeInstancesByServiceNameMap ==> r == []
      ensures Valid() ==> r == []
    {
      if name in runtimeInstancesByServiceNameMap then runtimeInstancesByServiceNameMap[name] else []
    }

    function GetRuntimeInstance(id: string): (r: Option<RuntimeInstance>)
      reads this
      ensures r.None? <==> id !in runtimeInstanceMap
      ensures r.Some? ==> r.value == runtimeInstanceMap[id]
    {
      if id in runtimeInstanceMap then Some(runtimeInstanceMap[id]) else None
    }

    /**
     * One scheduled refresh. The runtime maps are replaced as soon as the runtime listing is
     * in; a failing instance listing then leaves the old instance maps beside the new
     * runtime maps.
     */
    method Fetch(runtimeListing: Result<seq<Runtime>>, instanceListing: Result<seq<RuntimeInstance>>)
      returns (outcome: Result<()>)
      requires Valid()
      modifies this
      ensures Valid()
      ensures runtimeListing.Err? ==>
        outcome == Err(runtimeListing.error) &&
        runtimeMap == old(runtimeMap) && runtimeByIdMap == old(runtimeByIdMap) &&
        runtimeInstanceMap == old(runtimeInstanceMap)
      ensures runtimeListing.Ok? ==>
        runtimeMap == ByName(runtimeListing.value) && runtimeByIdMap == ById(runtimeListing.value)
      ensures runtimeListing.Ok? && instanceListing.Err? ==>
        outcome == Err(instanceListing.error) && runtimeInstanceMap == old(runtimeInstanceMap)
      ensures runtimeListing.Ok? && instanceListing.Ok? ==>
        outcome == Ok(()) &&
        runtimeInstanceMap == InstanceIndex(runtimeListing.value, instanceListing.value)
    {
      if runtimeListing.Err? {
        return Err(runtimeListing.error);
      }
      var runtimes := runtimeListing.value;
      var byName: map<string, Runtime> := map[];
      var byId: map<string, Runtime> := map[];
      var i := 0;
      while i < |runtimes|
        invariant 0 <= i <= |runtimes|
        invariant byName == IndexBy(runtimes[..i], NameOf)
        invariant byId == IndexBy(runtimes[..i], IdOf)
      {
        var r := runtimes[i];
        assert runtimes[..i + 1][..i] == runtimes[..i];
        byName := byName[r.name := r];
        byId := byId[r.id := r];
        i := i + 1;
      }
      assert runtimes[..i] == runtimes;
      runtimeMap := byName;
      runtimeByIdMap := byId;

      if instanceListing.Err? {
        return Err(instanceListing.error);
      }
      var instances := instanceListing.value;
      var instanceById: map<string, RuntimeInstance> := map[];
      var byServiceName: map<string, seq<RuntimeInstance>> := map[];
      var j := 0;
      while j < |instances|
        invariant 0 <= j <= |instances|
        invariant instanceById == IndexBy(Attached(instances[..j], byId), InstanceIdOf)
        invariant byServiceName == map[]
      {
        var p := instances[j];
        assert instances[..j + 1][..j] == instances[..j];
        if p.runtimeId in byId {
          instanceById := instanceById[p.id := p];
          // the source also extends a list looked up in byServiceName, but never stores it back
        }
        j := j + 1;
      }
      assert instances[..j] == instances;
      runtimeInstanceMap := instanceById;
      runtimeInstancesByServiceNameMap := byServiceName;
      return Ok(());
    }
  }
}
