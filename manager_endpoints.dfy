/**
 * The manager's endpoint-definition store (`EndpointServiceImpl` under `manager`, and the
 * identical one under `envoy/manager`): definitions by name in a `ConcurrentHashMap`, with
 * create, update, delete, lookup and a listing of every stored definition.
 */
module ManagerEndpoints {
  import opened Common

  /**
   * The manager's `EndpointDefinition` object. The REST layer copies the name from the
   * request, so it may be null; it always copies a chain.
   */
  datatype EndpointDefinition = EndpointDefinition(name: Option<string>, transportType: Option<string>, chain: seq<string>)

  /** Every stored definition sits under its own name. */
  predicate StoredUnderOwnName(definitions: map<string, EndpointDefinition>)
  {
    forall k :: k in definitions ==> definitions[k].name == Some(k)
  }

  /**
   * `definitions.put(definition.getName(), definition)`: a `ConcurrentHashMap` refuses a null
   * key with a NullPointerException and is left as it was; otherwise the definition replaces
   * any earlier one under its name.
   */
  function Put(definitions: map<string, EndpointDefinition>, definition: EndpointDefinition): Result<map<string, EndpointDefinition>>
  {
    if definition.name.None? then Err("NullPointerException")
    else Ok(definitions[definition.name.value := definition])
  }

  /**
   * A put fails exactly for a null name. Otherwise the definition is found under its name,
   * every other name keeps its entry, and definitions stay under their own names.
   */
  lemma PutMeaning(definitions: map<string, EndpointDefinition>, definition: EndpointDefinition)
    ensures Put(definitions, definition).Err? <==> definition.name.None?
    ensures Put(definitions, definition).Ok? ==>
      var m := Put(definitions, definition).value;
      && definition.name.value in m && m[definition.name.value] == definition
      && (forall k :: k != definition.name.value ==> (k in m <==> k in definitions))
      && (forall k :: k != definition.name.value && k in definitions ==> m[k] == definitions[k])
    ensures StoredUnderOwnName(definitions) && Put(definitions, definition).Ok? ==>
      StoredUnderOwnName(Put(definitions, definition).value)
  {
  }

  class EndpointServiceImpl {
    var definitions: map<string, EndpointDefinition>

    constructor ()
      ensures definitions == map[] && StoredUnderOwnName(definitions)
    {
      definitions := map[];
    }

    /** `create(definition)`: the put; a null name throws and stores nothing. */
    method Create(definition: EndpointDefinition) returns (r: Result<()>)
      modifies this
      ensures definition.name.None? ==> r == Err("NullPointerException") && definitions == old(definitions)
      ensures definition.name.Some? ==> r == Ok(()) && definitions == old(definitions)[definition.name.value := definition]
      ensures old(StoredUnderOwnName(definitions)) ==> StoredUnderOwnName(definitions)
    {
      var put := Put(definitions, definition);
      if put.Err? {
        return Err(put.error);
      }
      definitions := put.value;
      r := Ok(());
    }

    /** `getDefinition(name)`: the stored definition, or null. */
    function GetDefinition(name: string): (r: Option<EndpointDefinition>)
      reads this
      ensures r.None? <==> name !in definitions
      ensures r.Some? ==> r.value == definitions[name]
    {
      if name in definitions then Some(definitions[name]) else None
    }

    /** `delete(name)`: drop that name only; an unknown name changes nothing. */
    method Delete(name: string)
      modifies this
      ensures definitions == old(definitions) - {name}
      ensures old(StoredUnderOwnName(definitions)) ==> StoredUnderOwnName(definitions)
    {
      definitions := definitions - {name};
    }

    /** `updateDefinition(definition)`: the same put as `create`, with the same null-name failure. */
    method UpdateDefinition(definition: EndpointDefinition) returns (r: Result<()>)
      modifies this
      ensures definition.name.None? ==> r == Err("NullPointerException") && definitions == old(definitions)
      ensures definition.name.Some? ==> r == Ok(()) && definitions == old(definitions)[definition.name.value := definition]
      ensures old(StoredUnderOwnName(definitions)) ==> StoredUnderOwnName(definitions)
    {
      var put := Put(definitions, definition);
      if put.Err? {
        return Err(put.error);
      }
      definitions := put.value;
      r := Ok(());
    }

    /**
     * `definitions()`: a new list of every stored definition, once per name, in the map's
     * iteration order `names`; each listed definition carries the name it is stored under.
     */
    method Definitions() returns (ds: seq<EndpointDefinition>, ghost names: seq<string>)
      ensures |names| == |definitions| && Distinct(names) && (forall k :: k in definitions <==> k in names)
      ensures ds == ValuesAt(definitions, names)
      ensures StoredUnderOwnName(definitions) ==> forall i :: 0 <= i < |ds| ==> ds[i].name == Some(names[i])
    {
      var ks;
      ds, ks := ValuesOf(definitions);
      names := ks;
    }
  }
}
