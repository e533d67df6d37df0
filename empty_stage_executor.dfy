/**
 * The pass-through stage of the Java serving runtime (`EmptyStageExecutor`): it answers a
 * batch, a JSON array, with a copy in which every object element is stamped with the
 * configured service id under the configured service-name field. The input is not changed
 * (the executor works on a deep copy, which values model directly).
 */
module EmptyStage {
  import opened Common
  import opened Json

  /** `ObjectNode.put(name, id)` with a possibly null id: a null id is stored as JSON null. */
  function IdValue(serviceId: Option<string>): (r: Json)
  {
    if serviceId.Some? then JString(serviceId.value) else JNull
  }

  /** An element after stamping: objects gain or overwrite the field, anything else is left as is. */
  function StampElement(node: Json, name: string, id: Json): (r: Json)
  {
    if node.JObject? then JObject(PutField(node.fields, name, id)) else node
  }

  /** Every element of a batch, stamped. */
  function Stamped(items: seq<Json>, name: string, id: Json): (r: seq<Json>)
  {
    seq(|items|, i requires 0 <= i < |items| => StampElement(items[i], name, id))
  }

  /**
   * The stamped batch has the same length and order; each object element holds the field
   * with the id and keeps its other fields in place, and each other element is unchanged.
   */
  lemma StampedShape(items: seq<Json>, name: string, id: Json, i: int)
    requires 0 <= i < |items|
    ensures |Stamped(items, name, id)| == |items|
    ensures !items[i].JObject? ==> Stamped(items, name, id)[i] == items[i]
    ensures items[i].JObject? ==>
      var fs := Stamped(items, name, id)[i].fields;
      Stamped(items, name, id)[i].JObject? &&
      FieldIndex(fs, name) < |fs| && fs[FieldIndex(fs, name)] == Field(name, id) &&
      forall j :: 0 <= j < |items[i].fields| && items[i].fields[j].key != name ==> fs[j] == items[i].fields[j]
  {
    if items[i].JObject? {
      PutFieldLookup(items[i].fields, name, id);
    }
  }

  /** Putting the same field twice is putting it once. */
  lemma PutFieldIdempotent(fields: seq<Field>, key: string, value: Json)
    ensures PutField(PutField(fields, key, value), key, value) == PutField(fields, key, value)
  {
    var r := PutField(fields, key, value);
    PutFieldLookup(fields, key, value);
    assert r[FieldIndex(r, key) := Field(key, value)] == r;
  }

  /** Stamping an already stamped batch changes nothing: the stage can run twice on one batch. */
  lemma StampedIdempotent(items: seq<Json>, name: string, id: Json)
    ensures Stamped(Stamped(items, name, id), name, id) == Stamped(items, name, id)
  {
    forall i | 0 <= i < |items|
      ensures Stamped(Stamped(items, name, id), name, id)[i] == Stamped(items, name, id)[i]
    {
      if items[i].JObject? {
        PutFieldIdempotent(items[i].fields, name, id);
      }
    }
  }

  class EmptyStageExecutor {
    /** The configured field name (`servingConfigurationProperties.getServiceName()`). */
    const serviceName: string
    /** The sidecar's configured service id, possibly null. */
    const serviceId: Option<string>

    constructor (serviceName: string, serviceId: Option<string>)
      ensures this.serviceName == serviceName && this.serviceId == serviceId
    {
      this.serviceName := serviceName;
      this.serviceId := serviceId;
    }

    /**
     * `execute(action, data)`: the stamped copy of an array; anything but an array fails
     * the cast. The action is not consulted.
     */
    method Execute(action: string, data: Json) returns (r: Result<Json>)
      ensures !data.JArray? ==> r == Err("ClassCastException")
      ensures data.JArray? ==> r == Ok(JArray(Stamped(data.items, serviceName, IdValue(serviceId))))
    {
      if !data.JArray? {
        return Err("ClassCastException");
      }
      var items := data.items;
      var id := IdValue(serviceId);
      var i := 0;
      while i < |items|
        invariant 0 <= i <= |items|
        invariant |items| == |data.items|
        invariant forall k :: 0 <= k < i ==> items[k] == StampElement(data.items[k], serviceName, id)
        invariant forall k :: i <= k < |items| ==> items[k] == data.items[k]
      {
        if items[i].JObject? {
          items := items[i := JObject(PutField(items[i].fields, serviceName, id))];
        }
        i := i + 1;
      }
      assert items == Stamped(data.items, serviceName, id);
      r := Ok(JArray(items));
    }
  }
}
