/**
 * The product-matching data model (`cfepm/data/model.py`): an `Item` holds a title, a
 * specification dictionary and a description, and a set of derived fields that the
 * preprocessing steps fill in later. Products and items are both read from a data-frame row,
 * from different columns.
 */
module ItemModel {
  import opened Common
  import opened PyValues

  const ItemTitleColumn := "itemtitle"
  const ItemSpecsColumn := "itemspecifics"
  const ProductTitleColumn := "epidtitle"
  const ProductSpecsColumn := "productidentifier"
  const ProductDescriptionColumn := "productdetails"

  /** A data-frame row, column name to cell. */
  type Row = map<string, PyValue>

  /**
   * The constructor's check on `spec_dict`: the dictionary itself, or a ValueError for any
   * other value.
   */
  function SpecDictOf(specDict: PyValue): (r: Result<map<string, PyValue>>)
    ensures r.Err? <==> !specDict.PyDict?
    ensures r.Err? ==> r.error == "ValueError"
    ensures r.Ok? ==> PyDict(r.value) == specDict
  {
    if specDict.PyDict? then Ok(specDict.entries) else Err("ValueError")
  }

  /**
   * `row[c]` for each column in turn, as argument evaluation reads them: the first missing
   * column raises KeyError, otherwise the cells in column order.
   */
  function Cells(row: Row, columns: seq<string>): (r: Result<seq<PyValue>>)
    ensures r.Ok? <==> forall i :: 0 <= i < |columns| ==> columns[i] in row
    ensures r.Err? ==> r.error == "KeyError"
    ensures r.Ok? ==> |r.value| == |columns| && forall i :: 0 <= i < |columns| ==> r.value[i] == row[columns[i]]
    decreases |columns|
  {
    if columns == [] then Ok([])
    else if columns[0] !in row then Err("KeyError")
    else
      var rest := Cells(row, columns[1..]);
      assert forall i :: 1 <= i < |columns| ==> columns[i] == columns[1..][i - 1];
      if rest.Err? then rest else Ok([row[columns[0]]] + rest.value)
  }

  /** `from_row_tuple`: not implemented, whatever the row. */
  function FromRowTuple(rowTuple: PyValue): (r: Result<(PyValue, PyValue)>)
    ensures r == Err("NotImplementedError")
  {
    Err("NotImplementedError")
  }

  class Item {
    var title: PyValue
    var specDict: map<string, PyValue>
    var description: PyValue
    // Filled in by the preprocessing steps.
    var titleTokenized: PyValue
    var titleVector: PyValue
    var titleOov: PyValue
    var specDictTokenized: PyValue
    var descriptionTokenized: PyValue
    var colourSet: PyValue
    var numalSet: PyValue

    /** Every derived field still holds None. */
    predicate Fresh()
      reads this
    {
      titleTokenized == PyNone && titleVector == PyNone && titleOov == PyNone &&
      specDictTokenized == PyNone && descriptionTokenized == PyNone &&
      colourSet == PyNone && numalSet == PyNone
    }

    /** The constructor past its type check on the specification dictionary. */
    constructor (title: PyValue, specDict: map<string, PyValue>, description: PyValue)
      ensures this.title == title && this.specDict == specDict && this.description == description
      ensures Fresh()
    {
      this.title := title;
      this.specDict := specDict;
      this.description := description;
      titleTokenized := PyNone;
      titleVector := PyNone;
      titleOov := PyNone;
      specDictTokenized := PyNone;
      descriptionTokenized := PyNone;
      colourSet := PyNone;
      numalSet := PyNone;
    }
  }

  /** `Item(title, spec_dict, description)`: a ValueError unless `spec_dict` is a dict. */
  method NewItem(title: PyValue, specDict: PyValue, description: PyValue) returns (r: Result<Item>)
    ensures r.Err? <==> !specDict.PyDict?
    ensures r.Err? ==> r.error == "ValueError"
    ensures r.Ok? ==> fresh(r.value) && r.value.Fresh() && r.value.title == title &&
                      PyDict(r.value.specDict) == specDict && r.value.description == description
  {
    var checked := SpecDictOf(specDict);
    if checked.Err? {
      return Err(checked.error);
    }
    var item := new Item(title, checked.value, description);
    r := Ok(item);
  }

  /** `product_from_row_ss`: title, specifications and description from the product columns. */
  method ProductFromRow(row: Row) returns (r: Result<Item>)
    ensures var cells := Cells(row, [ProductTitleColumn, ProductSpecsColumn, ProductDescriptionColumn]);
      && (cells.Err? ==> r == Err("KeyError"))
      && (cells.Ok? && !cells.value[1].PyDict? ==> r == Err("ValueError"))
      && (cells.Ok? && cells.value[1].PyDict? ==>
            r.Ok? && fresh(r.value) && r.value.Fresh() &&
            r.value.title == cells.value[0] &&
            PyDict(r.value.specDict) == cells.value[1] &&
            r.value.description == cells.value[2])
  {
    var cells := Cells(row, [ProductTitleColumn, ProductSpecsColumn, ProductDescriptionColumn]);
    if cells.Err? {
      return Err(cells.error);
    }
    r := NewItem(cells.value[0], cells.value[1], cells.value[2]);
  }

  /** `item_from_row_ss`: title and specifications from the item columns, and no description. */
  method ItemFromRow(row: Row) returns (r: Result<Item>)
    ensures var cells := Cells(row, [ItemTitleColumn, ItemSpecsColumn]);
      && (cells.Err? ==> r == Err("KeyError"))
      && (cells.Ok? && !cells.value[1].PyDict? ==> r == Err("ValueError"))
      && (cells.Ok? && cells.value[1].PyDict? ==>
            r.Ok? && fresh(r.value) && r.value.Fresh() &&
            r.value.title == cells.value[0] &&
            PyDict(r.value.specDict) == cells.value[1] &&
            r.value.description == PyNone)
  {
    var cells := Cells(row, [ItemTitleColumn, ItemSpecsColumn]);
    if cells.Err? {
      return Err(cells.error);
    }
    r := NewItem(cells.value[0], cells.value[1], PyNone);
  }
}
