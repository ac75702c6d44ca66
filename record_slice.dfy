/** The shapes of the pending-edit store's entries. The store's reducer
    (the upsert of `setChangedRecords`) is not part of this model: a row's
    pending edits reach the model as the sequence `Record.data`. */
module RecordSlice {
  import opened Js

  /** One pending edit of one field: the column key, or the lookup's
      navigation property name, its column type tag and the new value. */
  datatype RecordData = RecordData(fieldName: string, fieldType: string, newValue: Value)

  /** A row's pending edits, keyed by the row's record id. */
  datatype Record = Record(id: string, data: seq<RecordData>)

  /** The payload of the `setChangedRecords` action a cell edit dispatches. */
  datatype ChangedRecordAction =
    ChangedRecordAction(id: string, fieldName: string, fieldType: string, newValue: Value)
}
