/** One cell of the editable grid: which editor a column's type tag selects,
    which value and props it gets, and the two store actions an edit
    dispatches. Rendering is a value here (`Rendered`), and the host calls a
    new row needs (parent metadata, current user name) are parameters. */
module GridCell {
  import opened Js
  import opened RecordSlice
  import DataverseService
  import NumberFormat

  /** A grid column: the field's schema name, its type tag, and the
      optional field name the editors receive. */
  datatype Column = Column(key: string, data: string, fieldName: Option<string>)

  /** The reference a lookup cell holds. */
  datatype LookupReference = LookupReference(id: string, name: string, entityType: string)

  datatype Cell = Cell(
    schemaName: string,
    rawValue: Value,
    formattedValue: Option<string>,
    lookup: Option<LookupReference>)

  datatype Row = Row(key: string, columns: seq<Cell>)

  datatype RequirementLevel = RequirementLevel(fieldName: string, isRequired: bool)

  datatype ParentEntityMetadata = ParentEntityMetadata(
    entityId: string, entityRecordName: string, entityTypeName: string)

  // ---------------------------------------------------------------------
  // Tag dispatch

  const DATE_AND_TIME: string := "DateAndTime.DateAndTime"
  const DATE_ONLY: string := "DateAndTime.DateOnly"
  const LOOKUP_CUSTOMER: string := "Lookup.Customer"
  const LOOKUP_OWNER: string := "Lookup.Owner"
  const OPTION_SET: string := "OptionSet"
  const TWO_OPTIONS: string := "TwoOptions"
  const MULTI_SELECT: string := "MultiSelectPicklist"
  const DECIMAL: string := "Decimal"
  const CURRENCY: string := "Currency"
  const FP: string := "FP"
  const WHOLE_NONE: string := "Whole.None"
  const WHOLE_DURATION: string := "Whole.Duration"
  const WHOLE_LANGUAGE: string := "Whole.Language"
  const WHOLE_TIME_ZONE: string := "Whole.TimeZone"

  /** The tags with an editor of their own; every other tag, among them
      "SingleLine.Text" and "Multiple", gets the text editor. */
  const KNOWN_TAGS: set<string> := {
    DATE_AND_TIME, DATE_ONLY, DataverseService.LOOKUP_SIMPLE, LOOKUP_CUSTOMER, LOOKUP_OWNER,
    OPTION_SET, TWO_OPTIONS, MULTI_SELECT, DECIMAL, CURRENCY, FP, WHOLE_NONE,
    WHOLE_DURATION, WHOLE_LANGUAGE, WHOLE_TIME_ZONE }

  const NUMERIC_TAGS: set<string> := {DECIMAL, CURRENCY, FP, WHOLE_NONE}

  datatype WholeKind = Duration | Language | TimeZone

  /** The editor a cell renders. */
  datatype Widget =
    | DateTimeWidget(dateOnly: bool)
    | LookupWidget
    | TextWidget(isDisabled: bool)
    | OptionSetWidget(isMultiple: bool, isTwoOptions: bool)
    | NumberWidget
    | WholeWidget(kind: WholeKind)

  /** The `switch` on the column's type tag. */
  function WidgetFor(tag: string): (w: Widget)
    ensures w.TextWidget? <==> tag !in KNOWN_TAGS || tag == LOOKUP_CUSTOMER || tag == LOOKUP_OWNER
    ensures w.TextWidget? ==> (w.isDisabled <==> tag in KNOWN_TAGS)
    ensures w.NumberWidget? <==> tag in NUMERIC_TAGS
    ensures w.DateTimeWidget? <==> tag == DATE_AND_TIME || tag == DATE_ONLY
    ensures w.DateTimeWidget? ==> (w.dateOnly <==> tag == DATE_ONLY)
    ensures w.LookupWidget? <==> tag == DataverseService.LOOKUP_SIMPLE
    ensures w.OptionSetWidget? <==> tag == OPTION_SET || tag == TWO_OPTIONS || tag == MULTI_SELECT
    ensures w.OptionSetWidget? ==> (w.isMultiple <==> tag == MULTI_SELECT) && (w.isTwoOptions <==> tag == TWO_OPTIONS)
    ensures w == WholeWidget(Duration) <==> tag == WHOLE_DURATION
    ensures w == WholeWidget(Language) <==> tag == WHOLE_LANGUAGE
    ensures w == WholeWidget(TimeZone) <==> tag == WHOLE_TIME_ZONE
  {
    match tag
    case "DateAndTime.DateAndTime" => DateTimeWidget(false)
    case "DateAndTime.DateOnly" => DateTimeWidget(true)
    case "Lookup.Simple" => LookupWidget
    case "Lookup.Customer" => TextWidget(true)
    case "Lookup.Owner" => TextWidget(true)
    case "OptionSet" => OptionSetWidget(false, false)
    case "TwoOptions" => OptionSetWidget(false, true)
    case "MultiSelectPicklist" => OptionSetWidget(true, false)
    case "Decimal" => NumberWidget
    case "Currency" => NumberWidget
    case "FP" => NumberWidget
    case "Whole.None" => NumberWidget
    case "Whole.Duration" => WholeWidget(Duration)
    case "Whole.Language" => WholeWidget(Language)
    case "Whole.TimeZone" => WholeWidget(TimeZone)
    case _ => TextWidget(false)
  }

  /** The `value` prop (and the duration editor's `formattedValue`). */
  datatype WidgetValue =
    | RawValue(raw: Value)
    | LookupValue(lookup: Option<LookupReference>)
    | FormattedValue(formatted: Option<string>)
    | NumberText(text: string)
    | DurationValue(raw: Value, formatted: Option<string>)

  function ValueFor(tag: string, cell: Cell): (v: WidgetValue)
    ensures tag in NUMERIC_TAGS ==> v == NumberText(cell.formattedValue.GetOr(""))
    ensures WidgetFor(tag).TextWidget? ==> v == FormattedValue(cell.formattedValue)
    ensures WidgetFor(tag).LookupWidget? ==> v == LookupValue(cell.lookup)
    ensures WidgetFor(tag).DateTimeWidget? || WidgetFor(tag).OptionSetWidget? ==> v == RawValue(cell.rawValue)
    ensures tag == WHOLE_DURATION ==> v == DurationValue(cell.rawValue, cell.formattedValue)
    ensures tag == WHOLE_LANGUAGE || tag == WHOLE_TIME_ZONE ==> v == RawValue(cell.rawValue)
  {
    match WidgetFor(tag)
    case DateTimeWidget(_) => RawValue(cell.rawValue)
    case LookupWidget => LookupValue(cell.lookup)
    case TextWidget(_) => FormattedValue(cell.formattedValue)
    case OptionSetWidget(_, _) => RawValue(cell.rawValue)
    case NumberWidget => NumberText(cell.formattedValue.GetOr(""))
    case WholeWidget(kind) =>
      if kind == Duration then DurationValue(cell.rawValue, cell.formattedValue) else RawValue(cell.rawValue)
  }

  // ---------------------------------------------------------------------
  // Resolution of the cell, the requirement flag and the new-row metadata

  function ForKey(key: string): Cell -> bool {
    (c: Cell) => c.schemaName == key
  }

  function ForField(key: string): RequirementLevel -> bool {
    (l: RequirementLevel) => l.fieldName == key
  }

  /** `fieldRequirementLevel?.isRequired || false`: the flag of the first
      entry for the column, false when there is none. */
  function IsRequired(levels: seq<RequirementLevel>, key: string): (b: bool)
    ensures b <==> exists i :: IsFirst(levels, ForField(key), i) && levels[i].isRequired
    ensures (forall i :: 0 <= i < |levels| ==> levels[i].fieldName != key) ==> !b
  {
    match FirstIndex(levels, ForField(key))
    case None => false
    case Some(i) =>
      assert forall k :: IsFirst(levels, ForField(key), k) ==> k == i by {
        forall k | IsFirst(levels, ForField(key), k) ensures k == i {
          FirstIsUnique(levels, ForField(key), k, i);
        }
      }
      levels[i].isRequired
  }

  /** Metadata computed only for a row not yet saved. */
  datatype NewRowMetadata = NewRowMetadata(parent: Option<ParentEntityMetadata>, ownerValue: Option<string>)

  /** `isNewRow(row)` is `isNew`; `getParentMetadata()` and
      `getCurrentUserName()` are `parent` and `currentUserName`. */
  function NewRowMetadataOf(isNew: bool, tag: string, parent: ParentEntityMetadata,
                            currentUserName: string): (m: NewRowMetadata)
    ensures m.parent.Some? <==> isNew
    ensures m.parent.Some? ==> m.parent.value == parent
    ensures m.ownerValue.Some? <==> isNew && tag == LOOKUP_OWNER
    ensures m.ownerValue.Some? ==> m.ownerValue.value == currentUserName
  {
    if isNew then
      NewRowMetadata(Some(parent), if tag == LOOKUP_OWNER then Some(currentUserName) else None)
    else NewRowMetadata(None, None)
  }

  /** The props every editor receives (the handlers are modelled by
      `OnCellChange`). */
  datatype CellProps = CellProps(fieldName: string, rowId: string, isRequired: bool, ownerValue: Option<string>)

  datatype Rendered =
    | Empty
    | Element(widget: Widget, value: WidgetValue, props: CellProps,
              parentEntityMetadata: Option<ParentEntityMetadata>)

  /** `GridCell`: nothing when the row has no cell for the column; else the
      editor the tag selects, given the first matching cell's value. */
  function RenderCell(row: Row, column: Column, levels: seq<RequirementLevel>, isNew: bool,
                      parent: ParentEntityMetadata, currentUserName: string): (r: Rendered)
    ensures r.Empty? <==> forall k :: 0 <= k < |row.columns| ==> row.columns[k].schemaName != column.key
    ensures r.Element? ==>
              && r.widget == WidgetFor(column.data)
              && (exists k :: IsFirst(row.columns, ForKey(column.key), k)
                              && r.value == ValueFor(column.data, row.columns[k]))
              && r.props.rowId == row.key
              && r.props.isRequired == IsRequired(levels, column.key)
    ensures r.Element? && column.fieldName.Some? && column.fieldName.value != "" ==>
              r.props.fieldName == column.fieldName.value
    ensures r.Element? && (column.fieldName.None? || column.fieldName.value == "") ==>
              r.props.fieldName == ""
    ensures r.Element? ==> (r.props.ownerValue.Some? <==> isNew && column.data == LOOKUP_OWNER)
    ensures r.Element? ==> (r.parentEntityMetadata.Some? <==> isNew && column.data == DataverseService.LOOKUP_SIMPLE)
    ensures r.Element? && r.props.ownerValue.Some? ==> r.props.ownerValue.value == currentUserName
    ensures r.Element? && r.parentEntityMetadata.Some? ==> r.parentEntityMetadata.value == parent
  {
    var metadata := NewRowMetadataOf(isNew, column.data, parent, currentUserName);
    var fieldName := if column.fieldName.Some? && column.fieldName.value != "" then column.fieldName.value else "";
    var props := CellProps(fieldName, row.key, IsRequired(levels, column.key), metadata.ownerValue);
    match Find(row.columns, ForKey(column.key))
    case None => Empty
    case Some(cell) =>
      var widget := WidgetFor(column.data);
      Element(widget, ValueFor(column.data, cell), props,
              if widget.LookupWidget? then metadata.parent else None)
  }

  /** Customer and owner lookups render as disabled text whatever the
      requirement levels say. */
  lemma CustomerOwnerAlwaysDisabled(row: Row, column: Column, levels: seq<RequirementLevel>, isNew: bool,
                                    parent: ParentEntityMetadata, currentUserName: string)
    requires column.data == LOOKUP_CUSTOMER || column.data == LOOKUP_OWNER
    ensures var r := RenderCell(row, column, levels, isNew, parent, currentUserName);
            r.Element? ==> r.widget == TextWidget(true)
  {
  }

  // ---------------------------------------------------------------------
  // Edits

  /** The payload of the `updateRow` action. */
  datatype UpdateRowAction = UpdateRowAction(rowKey: string, columnName: string, newValue: Value)

  datatype CellChange = CellChange(changedRecord: ChangedRecordAction, updateRow: UpdateRowAction)

  /** `_changedValue(newValue, rawValue, lookupEntityNavigation)`: the
      pending edit under the lookup's navigation property (or the column
      key), and the new cell value (`rawValue ?? newValue`). A `rawValue`
      the editor leaves out is `Undefined`. */
  function OnCellChange(rowKey: string, column: Column, newValue: Value, rawValue: Value,
                        lookupEntityNavigation: Option<string>): (c: CellChange)
    ensures c.changedRecord.id == rowKey && c.updateRow.rowKey == rowKey
    ensures lookupEntityNavigation.Some? && lookupEntityNavigation.value != "" ==>
              c.changedRecord.fieldName == lookupEntityNavigation.value
    ensures lookupEntityNavigation.None? || lookupEntityNavigation.value == "" ==>
              c.changedRecord.fieldName == column.key
    ensures c.changedRecord.fieldType == column.data && c.changedRecord.newValue == newValue
    ensures c.updateRow.columnName == column.key
    ensures !Nullish(rawValue) ==> c.updateRow.newValue == rawValue
    ensures Nullish(rawValue) ==> c.updateRow.newValue == newValue
  {
    var fieldName :=
      if lookupEntityNavigation.Some? && lookupEntityNavigation.value != "" then lookupEntityNavigation.value
      else column.key;
    CellChange(ChangedRecordAction(rowKey, fieldName, column.data, newValue),
               UpdateRowAction(rowKey, column.key, Coalesce(rawValue, newValue)))
  }

  /** The pending edit an action leaves in the row's record. */
  function EditOf(a: ChangedRecordAction): RecordData {
    RecordData(a.fieldName, a.fieldType, a.newValue)
  }

  /** A number edit reaches the store as the parsed number (null for empty
      input) and reaches the row as the display string ('' for empty input,
      since '' is not nullish). */
  lemma NumberEditFlow(fmt: NumberFormat.Formatters, currency: Option<NumberFormat.CurrencySymbol>,
                       number: Option<NumberFormat.NumberFieldMetadata>, rowKey: string, column: Column,
                       input: string)
    ensures var call := NumberFormat.OnNumberChange(fmt, currency, number, input);
            var c := OnCellChange(rowKey, column, call.newValue, call.rawValue, None);
            && c.changedRecord.fieldName == column.key
            && (input == "" ==> c.changedRecord.newValue == Null && c.updateRow.newValue == Str(""))
            && (input != "" ==> c.changedRecord.newValue == Num(fmt.formatNumber(input)))
            && c.updateRow.newValue == call.rawValue && call.rawValue.Str?
  {
  }

  /** A simple lookup edit with a navigation property is saved as an OData
      binding of that property; when the property is the subgrid's parent
      link, the user's value is kept and no parent binding is injected. */
  lemma LookupEditSavedAsBinding(edits: seq<RecordData>, rowKey: string, column: Column, newValue: Value,
                                 navigation: string, subgridParentFieldName: Option<string>, parentValue: string)
    requires column.data == DataverseService.LOOKUP_SIMPLE && navigation != ""
    ensures var c := OnCellChange(rowKey, column, newValue, Undefined, Some(navigation));
            var all := edits + [EditOf(c.changedRecord)];
            var body := DataverseService.SavePayload(all, subgridParentFieldName, parentValue);
            && DataverseService.PayloadKey(EditOf(c.changedRecord)) == navigation + DataverseService.BIND_SUFFIX
            && (subgridParentFieldName == Some(navigation) ==>
                  !DataverseService.ParentFieldIsValid(all, subgridParentFieldName)
                  && body[navigation + DataverseService.BIND_SUFFIX] == newValue)
            && navigation + DataverseService.BIND_SUFFIX in DataverseService.Payload(all)
            && DataverseService.Payload(all)[navigation + DataverseService.BIND_SUFFIX] == newValue
  {
    var c := OnCellChange(rowKey, column, newValue, Undefined, Some(navigation));
    var all := edits + [EditOf(c.changedRecord)];
    DataverseService.PayloadLastWins(all, |all| - 1);
    if subgridParentFieldName == Some(navigation) {
      DataverseService.ParentEditNotOverwritten(all, navigation, parentValue, |all| - 1);
    }
  }

  /** The props a number cell hands its editor; the cell sets neither
      `isDisabled` nor `isSecured`. */
  function NumberPropsOf(props: CellProps, text: string): NumberFormat.NumberProps {
    NumberFormat.NumberProps(props.fieldName, text, props.rowId, props.isRequired, false, false)
  }

  /** So a number cell of the grid is disabled exactly for a base-currency
      field. */
  lemma NumberCellDisabledOnlyForBaseCurrency(row: Row, column: Column, levels: seq<RequirementLevel>,
                                              isNew: bool, parent: ParentEntityMetadata, currentUserName: string,
                                              number: Option<NumberFormat.NumberFieldMetadata>)
    requires column.data in NUMERIC_TAGS
    requires RenderCell(row, column, levels, isNew, parent, currentUserName).Element?
    ensures var r := RenderCell(row, column, levels, isNew, parent, currentUserName);
            r.value.NumberText?
            && (NumberFormat.SpinButton(NumberPropsOf(r.props, r.value.text), number).disabled
                <==> number.Some? && number.value.isBaseCurrency == Some(true))
  {
    var r := RenderCell(row, column, levels, isNew, parent, currentUserName);
    var k :| IsFirst(row.columns, ForKey(column.key), k) && r.value == ValueFor(column.data, row.columns[k]);
  }
}
