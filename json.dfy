/**
 * Jackson's JSON tree (`JsonNode`) as a value. An object keeps its fields in insertion
 * order, as Jackson's `ObjectNode` does; numbers keep their decimal text.
 */
module Json {

  datatype Json =
    | JNull
    | JBool(b: bool)
    | JNumber(text: string)
    | JString(s: string)
    | JArray(items: seq<Json>)
    | JObject(fields: seq<Field>)

  datatype Field = Field(key: string, value: Json)

  function KeyOf(f: Field): string { f.key }

  /** The position of `key` among the fields, or `|fields|` when it is absent. */
  function FieldIndex(fields: seq<Field>, key: string): (i: nat)
    ensures i <= |fields|
    ensures i < |fields| ==> fields[i].key == key
    ensures forall j :: 0 <= j < i ==> fields[j].key != key
    decreases |fields|
  {
    if fields == [] then 0
    else if fields[0].key == key then 0
    else 1 + FieldIndex(fields[1..], key)
  }

  /** `ObjectNode.put`: overwrite the field in place when present, append it otherwise. */
  function PutField(fields: seq<Field>, key: string, value: Json): (r: seq<Field>)
  {
    var i := FieldIndex(fields, key);
    if i < |fields| then fields[i := Field(key, value)] else fields + [Field(key, value)]
  }

  /** After a put the key holds the new value, and every other field keeps its value and relative order. */
  lemma PutFieldLookup(fields: seq<Field>, key: string, value: Json)
    ensures var r := PutField(fields, key, value);
      FieldIndex(r, key) < |r| && r[FieldIndex(r, key)] == Field(key, value) &&
      |r| == (if FieldIndex(fields, key) < |fields| then |fields| else |fields| + 1) &&
      forall j :: 0 <= j < |fields| && fields[j].key != key ==> r[j] == fields[j]
  {
    var r := PutField(fields, key, value);
    var i := FieldIndex(fields, key);
    if i < |fields| {
      FieldIndexAt(r, key, i);
    } else {
      forall j | 0 <= j < |fields| ensures r[j].key != key {
        assert r[j] == fields[j];
        FieldIndexAbsent(fields, key, j);
      }
      FieldIndexAt(r, key, |fields|);
    }
  }

  lemma {:induction false} FieldIndexAbsent(fields: seq<Field>, key: string, j: int)
    requires FieldIndex(fields, key) == |fields| && 0 <= j < |fields|
    ensures fields[j].key != key
    decreases |fields|
  {
    if j > 0 {
      FieldIndexAbsent(fields[1..], key, j - 1);
    }
  }

  lemma {:induction false} FieldIndexAt(fields: seq<Field>, key: string, i: int)
    requires 0 <= i < |fields| && fields[i].key == key
    requires forall j :: 0 <= j < i ==> fields[j].key != key
    ensures FieldIndex(fields, key) == i
    decreases |fields|
  {
    if i > 0 {
      FieldIndexAt(fields[1..], key, i - 1);
    }
  }
}
