/** The jqGrid column model of djgrid/grid.py (`Grid.make_column_structure`):
    one column description and one display name per visible column. */
module GridColumns {
  import opened Wrappers
  import opened PyErrors
  import opened FieldKinds
  import PyText

  /** One `colModel` entry; an absent option is None. */
  datatype Column = Column(
    name: string,
    index: string,
    hidden: Option<bool>,
    editable: Option<bool>,
    width: Option<nat>,
    align: Option<string>,
    formatter: Option<string>,
    sortable: Option<bool>)

  /** The hidden, editable primary-key column of an inline grid (grid.py:120-123). */
  function KeyColumn(pkName: string): Column {
    var name := pkName + "primarykey";
    Column(name, name, Some(true), Some(true), None, None, None, None)
  }

  /** The trailing action-link column of a grid that is not read-only (grid.py:145-150). */
  function ActionsColumn(): Column {
    Column("actions", "actions", None, None, Some(100), Some("center"), Some("safe_formatter"), Some(false))
  }

  /** Whether a field's cell is editable in the grid (grid.py:134). */
  predicate ColumnEditable(info: FieldInfo, inline: bool) {
    info.kind in InlineEditableFields && !info.primaryKey && inline && info.editable
  }

  /** The formatter a field column gets: `safe` wins over the number formatter. */
  function ColumnFormatter(field: string, info: FieldInfo, safe: seq<string>): (f: Option<string>)
    ensures field in safe ==> f == Some("safe_formatter")
    ensures field !in safe && info.kind in FloatFields ==> f == Some("number")
    ensures field !in safe && info.kind !in FloatFields ==> f == None
  {
    if field in safe then Some("safe_formatter")
    else if info.kind in FloatFields then Some("number")
    else None
  }

  /** The column of one field (grid.py:129-141). */
  function FieldColumn(field: string, info: FieldInfo, safe: seq<string>, inline: bool): Column {
    Column(field, field, None, if ColumnEditable(info, inline) then Some(true) else None,
           Some(100), Some("center"), ColumnFormatter(field, info, safe), None)
  }

  /** The grid's editable test is the inline view's test (resources.py:257)
      with the grid's `inline` flag added. */
  lemma EditableIsInlineEditable(info: FieldInfo, inline: bool)
    ensures ColumnEditable(info, inline) <==> inline && InlineEditable(info)
  {
  }

  /** The column model and names `make_column_structure` produces: the two
      lists have the same length, the key column comes first when inline,
      then one column per field in order, then the actions column unless
      read-only. */
  predicate ColumnStructure(colModel: seq<Column>, colNames: seq<string>, model: ModelInfo,
                            fields: seq<string>, safe: seq<string>, inline: bool, readonly: bool)
    requires AllDescribed(fields, model)
  {
    var offset := if inline then 1 else 0;
    && |colModel| == |colNames| == offset + |fields| + (if readonly then 0 else 1)
    && (inline ==> colModel[0] == KeyColumn(model.pkName) && colNames[0] == model.pkName + "primarykey")
    && (forall i :: 0 <= i < |fields| ==>
          colModel[offset + i] == FieldColumn(fields[i], model.fields[fields[i]], safe, inline)
          && colNames[offset + i] == PyText.Lower(model.fields[fields[i]].verboseName))
    && (!readonly ==> colModel[|colModel| - 1] == ActionsColumn() && colNames[|colNames| - 1] == "actions")
  }

  /** `Grid.make_column_structure(model, fields, safe, inline, readonly)`:
      fails on the first field the model does not have; otherwise builds
      the column structure above. */
  method MakeColumnStructure(model: ModelInfo, fields: seq<string>, safe: seq<string>,
                             inline: bool, readonly: bool)
    returns (r: Result<(seq<Column>, seq<string>), PyError>)
    ensures r.Failure? <==> !AllDescribed(fields, model)
    ensures r.Failure? ==> r.error == FieldDoesNotExist(FirstMissing(fields, model))
    ensures r.Success? ==> ColumnStructure(r.value.0, r.value.1, model, fields, safe, inline, readonly)
  {
    var offset := if inline then 1 else 0;
    var colModel: seq<Column> := [];
    var colNames: seq<string> := [];
    if inline {
      colModel := colModel + [KeyColumn(model.pkName)];
      colNames := colNames + [model.pkName + "primarykey"];
    }
    var i := 0;
    while i < |fields|
      invariant 0 <= i <= |fields|
      invariant AllDescribed(fields[..i], model)
      invariant |colModel| == |colNames| == offset + i
      invariant inline ==> colModel[0] == KeyColumn(model.pkName) && colNames[0] == model.pkName + "primarykey"
      invariant forall j :: 0 <= j < i ==>
        colModel[offset + j] == FieldColumn(fields[j], model.fields[fields[j]], safe, inline)
        && colNames[offset + j] == PyText.Lower(model.fields[fields[j]].verboseName)
    {
      if fields[i] !in model.fields {
        return Failure(FieldDoesNotExist(fields[i]));
      }
      var info := model.fields[fields[i]];
      colModel := colModel + [FieldColumn(fields[i], info, safe, inline)];
      colNames := colNames + [PyText.Lower(info.verboseName)];
      assert fields[..i + 1] == fields[..i] + [fields[i]];
      i := i + 1;
    }
    assert fields[..i] == fields;
    if !readonly {
      colModel := colModel + [ActionsColumn()];
      colNames := colNames + ["actions"];
    }
    r := Success((colModel, colNames));
  }
}
