/**
 * The eBay item store (`ebay_product_db.py`): the persister that writes each item as
 * `item-<id>.json` in an output directory and remembers which ids it holds, and the reading
 * of an item's specifications out of eBay's `ItemSpecifics.NameValueList` shape.
 */
module EbayProductDb {
  import opened Common
  import opened PyValues

  const ItemPrefix := "item-"
  const ItemSuffix := ".json"

  // ---------------------------------------------------------------------------------------
  // Item file names

  /** `make_item_filename(item_id)`. */
  function MakeItemFilename(itemId: string): (r: string)
  {
    ItemPrefix + itemId + ItemSuffix
  }

  /** `is_item_filename(fn)`. */
  predicate IsItemFilename(fn: string)
  {
    StartsWith(fn, ItemPrefix) && EndsWith(fn, ItemSuffix)
  }

  /** `extract_item_id(fn)`: `fn[5:-5]`. */
  function ExtractItemId(fn: string): (r: string)
  {
    Slice(fn, 5, -5)
  }

  /** A made file name is an item file name, and the id read back from it is the id. */
  lemma ItemFilenameRoundTrip(itemId: string)
    ensures IsItemFilename(MakeItemFilename(itemId))
    ensures ExtractItemId(MakeItemFilename(itemId)) == itemId
  {
    var fn := MakeItemFilename(itemId);
    assert fn[..5] == ItemPrefix;
    assert fn[|fn| - 5..] == ItemSuffix;
    assert fn[5..|fn| - 5] == itemId;
  }

  /**
   * Conversely, every item file name is the name made from the id read back from it: the
   * prefix and the suffix cannot overlap, so such a name has at least ten characters.
   */
  lemma ItemFilenameOfId(fn: string)
    requires IsItemFilename(fn)
    ensures |fn| >= 10
    ensures MakeItemFilename(ExtractItemId(fn)) == fn
  {
    assert fn[..5] == ItemPrefix;
    assert fn[|fn| - 5..] == ItemSuffix;
    assert fn[|fn| - 5] == '.';
    assert forall k :: 0 <= k < 5 ==> fn[k] == ItemPrefix[k] && ItemPrefix[k] != '.';
    assert |fn| >= 10;
    assert fn == fn[..5] + fn[5..|fn| - 5] + fn[|fn| - 5..];
  }

  // ---------------------------------------------------------------------------------------
  // The persister

  /** One entry of the output directory listing: its name and whether it is a regular file. */
  datatype DirEntry = DirEntry(name: string, isFile: bool)

  /** The ids the constructor finds: those of the regular files with item file names. */
  function ScannedIds(listing: seq<DirEntry>): (ids: set<string>)
  {
    set i | 0 <= i < |listing| && listing[i].isFile && IsItemFilename(listing[i].name) :: ExtractItemId(listing[i].name)
  }

  /** Every item already on disk counts as persisted, and nothing else does. */
  lemma ScannedIdsMeaning(listing: seq<DirEntry>, itemId: string)
    ensures itemId in ScannedIds(listing) <==> DirEntry(MakeItemFilename(itemId), true) in listing
  {
    ItemFilenameRoundTrip(itemId);
    if itemId in ScannedIds(listing) {
      var i :| 0 <= i < |listing| && listing[i].isFile && IsItemFilename(listing[i].name) &&
        ExtractItemId(listing[i].name) == itemId;
      ItemFilenameOfId(listing[i].name);
      assert listing[i] == DirEntry(MakeItemFilename(itemId), true);
    }
    if DirEntry(MakeItemFilename(itemId), true) in listing {
      var i :| 0 <= i < |listing| && listing[i] == DirEntry(MakeItemFilename(itemId), true);
      assert ExtractItemId(listing[i].name) == itemId;
    }
  }

  class ItemPersister {
    const outputDir: string
    /** `str`'s fallback for values with no plain text form. */
    const repr: PyValue -> string
    /** `_persisted_item_ids`. */
    var persistedIds: set<string>
    /** `_items_persisted_counter`. */
    var counter: int
    /** The item documents written to the output directory, by file name. */
    var files: map<string, PyValue>

    /** The constructor over the output directory's listing; creating the directory is not modelled. */
    constructor (outputDir: string, listing: seq<DirEntry>, repr: PyValue -> string)
      ensures this.outputDir == outputDir && this.repr == repr
      ensures persistedIds == ScannedIds(listing) && counter == 0 && files == map[]
    {
      this.outputDir := outputDir;
      this.repr := repr;
      persistedIds := ScannedIds(listing);
      counter := 0;
      files := map[];
    }

    /** `is_persisted(item_id)`: the id, as text, is among the persisted ones. */
    predicate IsPersisted(itemId: PyValue)
      reads this
    {
      var text := if itemId.PyStr? then itemId.s else Str(itemId, repr);
      text in persistedIds
    }

    /** `get_stats()`. */
    function GetStats(): (r: map<string, int>)
      reads this
      ensures r.Keys == {"items_persisted"} && r["items_persisted"] == counter
    {
      map["items_persisted" := counter]
    }

    /**
     * `persist(item_dict)`: anything but a dict is only warned about; a dict without an
     * ItemID is a KeyError before anything is written; otherwise the item is written under
     * its file name, its id (as text) joins the persisted ones and the counter goes up by one.
     */
    method Persist(itemDict: PyValue) returns (r: Result<()>)
      modifies this
      ensures !itemDict.PyDict? ==> r == Ok(()) && unchanged(this)
      ensures itemDict.PyDict? && "ItemID" !in itemDict.entries ==> r == Err("KeyError") && unchanged(this)
      ensures itemDict.PyDict? && "ItemID" in itemDict.entries ==>
        var id := Str(itemDict.entries["ItemID"], repr);
        && r == Ok(())
        && files == old(files)[MakeItemFilename(id) := itemDict]
        && persistedIds == old(persistedIds) + {id}
        && counter == old(counter) + 1
        && IsPersisted(itemDict.entries["ItemID"])
    {
      if !itemDict.PyDict? {
        return Ok(());
      }
      if "ItemID" !in itemDict.entries {
        return Err("KeyError");
      }
      var id := Str(itemDict.entries["ItemID"], repr);
      files := files[MakeItemFilename(id) := itemDict];
      persistedIds := persistedIds + {id};
      counter := counter + 1;
      r := Ok(());
    }
  }

  // ---------------------------------------------------------------------------------------
  // Specifications

  /**
   * `nv['Name']: nv['Value']` for one entry of a NameValueList: the name is read first, then
   * the value, then the name is hashed.
   */
  function NameValue(nv: PyValue): (r: Result<(PyValue, PyValue)>)
    ensures r.Ok? <==> nv.PyDict? && "Name" in nv.entries && "Value" in nv.entries && Hashable(nv.entries["Name"])
    ensures r.Ok? ==> r.value == (nv.entries["Name"], nv.entries["Value"])
    ensures r.Err? ==> r.error == (if nv.PyDict? && ("Name" !in nv.entries || "Value" !in nv.entries) then "KeyError" else "TypeError")
  {
    if !nv.PyDict? then Err("TypeError")
    else if "Name" !in nv.entries || "Value" !in nv.entries then Err("KeyError")
    else if !Hashable(nv.entries["Name"]) then Err("TypeError")
    else Ok((nv.entries["Name"], nv.entries["Value"]))
  }

  /** The (name, value) pairs of a list in order; the first entry that fails decides the error. */
  function NameValues(nvs: seq<PyValue>): (r: Result<seq<(PyValue, PyValue)>>)
    ensures r.Ok? <==> forall i :: 0 <= i < |nvs| ==> NameValue(nvs[i]).Ok?
    ensures r.Ok? ==> |r.value| == |nvs| && forall i :: 0 <= i < |nvs| ==> r.value[i] == NameValue(nvs[i]).value
    decreases |nvs|
  {
    if nvs == [] then Ok([])
    else
      var init := NameValues(nvs[..|nvs| - 1]);
      var last := NameValue(nvs[|nvs| - 1]);
      if init.Err? then init
      else if last.Err? then Err(last.error)
      else Ok(init.value + [last.value])
  }

  /** A failure is the failure of the first entry that does not read as a pair. */
  lemma {:induction false} NameValuesError(nvs: seq<PyValue>)
    requires NameValues(nvs).Err?
    ensures exists i :: 0 <= i < |nvs| && NameValue(nvs[i]) == Err(NameValues(nvs).error) &&
                        forall j :: 0 <= j < i ==> NameValue(nvs[j]).Ok?
    decreases |nvs|
  {
    var init := nvs[..|nvs| - 1];
    if NameValues(init).Err? {
      NameValuesError(init);
      var i :| 0 <= i < |init| && NameValue(init[i]) == Err(NameValues(init).error) &&
               forall j :: 0 <= j < i ==> NameValue(init[j]).Ok?;
      assert forall j :: 0 <= j <= i ==> init[j] == nvs[j];
    } else {
      assert forall j :: 0 <= j < |init| ==> init[j] == nvs[j];
    }
  }

  /**
   * `get_specs_as_dict(item_dict)`: an empty dict when ItemSpecifics or its NameValueList is
   * missing or falsy; one entry for a single name-value dict; the dict of all the pairs for a
   * list. ItemSpecifics that is not a dict has no `get` (AttributeError); a NameValueList
   * that is neither a dict nor a list cannot be indexed by name (TypeError).
   */
  function GetSpecsAsDict(itemDict: map<string, PyValue>): (r: Result<map<PyValue, PyValue>>)
  {
    var specs := Get(itemDict, "ItemSpecifics");
    if !Truthy(specs) then Ok(map[])
    else if !specs.PyDict? then Err("AttributeError")
    else
      var nvList := Get(specs.entries, "NameValueList");
      if !Truthy(nvList) then Ok(map[])
      else if nvList.PyDict? then
        var nv := NameValue(nvList);
        if nv.Err? then Err(nv.error) else Ok(map[nv.value.0 := nv.value.1])
      else if !nvList.PyList? then Err("TypeError")
      else
        var pairs := NameValues(nvList.items);
        if pairs.Err? then Err(pairs.error) else Ok(DictOf(pairs.value))
  }

  /**
   * What `get_specs_as_dict` answers, case by case: nothing to read gives an empty dict; a
   * single well-formed entry gives exactly its pair; a list of well-formed entries gives a
   * dict whose keys are their names, each bound to the value of the last entry with that
   * name.
   */
  lemma GetSpecsAsDictMeaning(itemDict: map<string, PyValue>, k: PyValue, i: int)
    ensures var specs := Get(itemDict, "ItemSpecifics");
      !Truthy(specs) || (specs.PyDict? && !Truthy(Get(specs.entries, "NameValueList"))) ==>
        GetSpecsAsDict(itemDict) == Ok(map[])
    ensures var specs := Get(itemDict, "ItemSpecifics");
      specs.PyDict? && Get(specs.entries, "NameValueList").PyDict? && Truthy(Get(specs.entries, "NameValueList")) ==>
        var nv := Get(specs.entries, "NameValueList");
        (GetSpecsAsDict(itemDict).Ok? <==> NameValue(nv).Ok?) &&
        (NameValue(nv).Ok? ==> GetSpecsAsDict(itemDict).value == map[nv.entries["Name"] := nv.entries["Value"]])
    ensures var specs := Get(itemDict, "ItemSpecifics");
      specs.PyDict? && Get(specs.entries, "NameValueList").PyList? && Truthy(Get(specs.entries, "NameValueList")) ==>
        var nvs := Get(specs.entries, "NameValueList").items;
        (GetSpecsAsDict(itemDict).Ok? <==> forall j :: 0 <= j < |nvs| ==> NameValue(nvs[j]).Ok?) &&
        (GetSpecsAsDict(itemDict).Ok? ==>
          (k in GetSpecsAsDict(itemDict).value <==> exists j :: 0 <= j < |nvs| && nvs[j].entries["Name"] == k) &&
          (0 <= i < |nvs| && (forall j :: i < j < |nvs| ==> nvs[j].entries["Name"] != nvs[i].entries["Name"]) ==>
            nvs[i].entries["Name"] in GetSpecsAsDict(itemDict).value &&
            GetSpecsAsDict(itemDict).value[nvs[i].entries["Name"]] == nvs[i].entries["Value"]))
  {
    var specs := Get(itemDict, "ItemSpecifics");
    if specs.PyDict? {
      var nvList := Get(specs.entries, "NameValueList");
      if nvList.PyList? && Truthy(nvList) {
        var pairs := NameValues(nvList.items);
        if pairs.Ok? {
          var nvs := nvList.items;
          var ps := pairs.value;
          assert forall j :: 0 <= j < |nvs| ==> ps[j].0 == nvs[j].entries["Name"];
          DictOfKeys(ps, k);
          if 0 <= i < |nvs| && (forall j :: i < j < |nvs| ==> nvs[j].entries["Name"] != nvs[i].entries["Name"]) {
            DictOfLast(ps, i);
          }
        }
      }
    }
  }

  /** `_force_list(l)`: a list as it is, anything else as a one-element list. */
  function ForceList(v: PyValue): (r: PyValue)
    ensures r.PyList?
    ensures v.PyList? ==> r == v
    ensures !v.PyList? ==> r.items == [v]
  {
    if v.PyList? then v else PyList([v])
  }

  /** Forcing twice is forcing once, and forcing changes exactly the values that are not lists. */
  lemma ForceListIdempotent(v: PyValue)
    ensures ForceList(ForceList(v)) == ForceList(v)
    ensures ForceList(v) == v <==> v.PyList?
  {
  }
}
