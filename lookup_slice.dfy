/** The lookup slice of the grid's store: the target entity's relationships,
    and one resolved lookup per lookup column. */
module LookupSlice {
  import opened Js

  /** A relationship of the target entity. The fields are optional because
      the fetched JSON of a many-to-many relationship has none of the
      one-to-many attribute names, whatever the TypeScript type declares. */
  datatype Relationship = Relationship(
    fieldNameRef: Option<string>,
    entityNameRef: Option<string>,
    entityNavigation: Option<string>)

  /** A picker option (`ITag`): the record id and its display name. */
  datatype Tag = Tag(key: string, name: string)

  /** A lookup column as the store loader describes it. */
  datatype Field = Field(fieldName: Option<string>)

  datatype Lookup = Lookup(
    logicalName: Option<string>,
    reference: Option<Relationship>,
    entityPluralName: Option<string>,
    options: seq<Tag>)

  /** `relationship.fieldNameRef === fieldName`; `undefined === undefined`
      holds in JavaScript, as `None == None` does here. */
  function RefersTo(fieldName: Option<string>): Relationship -> bool {
    (r: Relationship) => r.fieldNameRef == fieldName
  }

  /** What the `setLookups` thunk builds for one column; the entity name is
      the matching relationship's `entityNameRef`, or `''` when there is no
      match or it has none. The two network
      calls it awaits, `getEntityPluralName` and `getLookupOptions`, are the
      parameters `pluralNameOf` and `optionsOf`. */
  function ResolveLookup(column: Field, relationships: seq<Relationship>,
                         pluralNameOf: string -> Option<string>,
                         optionsOf: string -> seq<Tag>): (l: Lookup)
    ensures l.logicalName == column.fieldName
    ensures l.reference.None? <==>
            forall k :: 0 <= k < |relationships| ==> relationships[k].fieldNameRef != column.fieldName
    ensures l.reference.Some? ==>
            exists k :: IsFirst(relationships, RefersTo(column.fieldName), k) && relationships[k] == l.reference.value
    ensures l.reference.None? ==> l.entityPluralName == pluralNameOf("") && l.options == optionsOf("")
    ensures l.reference.Some? && l.reference.value.entityNameRef.Some? ==>
            var name := l.reference.value.entityNameRef.value;
            l.entityPluralName == pluralNameOf(name) && l.options == optionsOf(name)
    ensures l.reference.Some? && l.reference.value.entityNameRef.None? ==>
              l.entityPluralName == pluralNameOf("") && l.options == optionsOf("")
  {
    var relationship := Find(relationships, RefersTo(column.fieldName));
    var entityName := if relationship.Some? then relationship.value.entityNameRef.GetOr("") else "";
    Lookup(column.fieldName, relationship, pluralNameOf(entityName), optionsOf(entityName))
  }

  /** The `setLookups` payload: `Promise.all` over the columns keeps their
      number and order. */
  function ResolveLookups(columns: seq<Field>, relationships: seq<Relationship>,
                          pluralNameOf: string -> Option<string>,
                          optionsOf: string -> seq<Tag>): (ls: seq<Lookup>)
    ensures |ls| == |columns|
    ensures forall i :: 0 <= i < |columns| ==>
              ls[i] == ResolveLookup(columns[i], relationships, pluralNameOf, optionsOf)
  {
    if |columns| == 0 then []
    else [ResolveLookup(columns[0], relationships, pluralNameOf, optionsOf)]
         + ResolveLookups(columns[1..], relationships, pluralNameOf, optionsOf)
  }

  /** The slice state, updated in place by the reducers of the four thunk
      outcomes. */
  class LookupState {
    var relationships: seq<Relationship>
    var lookups: seq<Lookup>

    constructor ()
      ensures relationships == [] && lookups == []
    {
      relationships := [];
      lookups := [];
    }

    /** The `setLookups` thunk body, reading the relationships from the
        store at the time it runs. */
    method SetLookupsPayload(columns: seq<Field>,
                             pluralNameOf: string -> Option<string>,
                             optionsOf: string -> seq<Tag>) returns (payload: seq<Lookup>)
      ensures |payload| == |columns|
      ensures forall i :: 0 <= i < |columns| ==>
                payload[i] == ResolveLookup(columns[i], relationships, pluralNameOf, optionsOf)
    {
      payload := ResolveLookups(columns, relationships, pluralNameOf, optionsOf);
    }

    method SetRelationshipsFulfilled(payload: seq<Relationship>)
      modifies this
      ensures relationships == payload
      ensures lookups == old(lookups)
    {
      relationships := payload;
    }

    /** The error dialog it opens is not modelled. */
    method SetRelationshipsRejected()
      modifies this
      ensures relationships == []
      ensures lookups == old(lookups)
    {
      relationships := [];
    }

    method SetLookupsFulfilled(payload: seq<Lookup>)
      modifies this
      ensures lookups == payload
      ensures relationships == old(relationships)
    {
      lookups := payload;
    }

    /** Only opens the error dialog: the state stays as it was. */
    method SetLookupsRejected()
      modifies this
      ensures lookups == old(lookups)
      ensures relationships == old(relationships)
    {
    }
  }
}
