/** The grid's service layer over the Dataverse Web API: the save-payload
    reconciler with its create/update routing, and the mappers that turn
    fetched metadata JSON into the grid's own records. Every request is left
    to the caller: fetched JSON comes in as parameters and the requests the
    service would send come out as values. */
module DataverseService {
  import opened Js
  import opened RecordSlice
  import opened LookupSlice

  /** Ids shorter than this belong to rows not yet saved (the grid's own
      temporary keys); a Dataverse GUID is 36 characters long. */
  const NEW_RECORD_ID_LENGTH_CHECK: nat := 15

  /** The key suffix of an OData entity binding (section 8.5 of OData JSON
      Format Version 4.0). */
  const BIND_SUFFIX: string := "@odata.bind"

  const LOOKUP_SIMPLE: string := "Lookup.Simple"

  /** A save payload: the JSON object sent as the body of the request. */
  type JsonObject = map<string, Value>

  /** `/<entity set>(<id>)`, the form of a reference to one record. */
  function ParentReference(pluralName: string, entityId: string): (s: string)
    ensures |s| == |pluralName| + |entityId| + 3
    ensures s[0] == '/' && s[|s| - 1] == ')'
    ensures s[1..|pluralName| + 1] == pluralName
    ensures s[|pluralName| + 1] == '('
    ensures s[|pluralName| + 2..|s| - 1] == entityId
  {
    "/" + pluralName + "(" + entityId + ")"
  }

  // ---------------------------------------------------------------------
  // saveRecord

  /** The key one pending edit writes: simple lookups bind by reference. */
  function PayloadKey(d: RecordData): string {
    if d.fieldType == LOOKUP_SIMPLE then d.fieldName + BIND_SUFFIX else d.fieldName
  }

  /** The object `record.data.reduce(... Object.assign ...)` builds: each
      edit in turn sets its key, so a later edit overwrites an earlier one
      with the same key. */
  function Payload(edits: seq<RecordData>): (p: JsonObject)
    ensures |edits| > 0 ==> var last := edits[|edits| - 1];
                            PayloadKey(last) in p && p[PayloadKey(last)] == last.newValue
    decreases |edits|
  {
    if |edits| == 0 then map[]
    else
      var last := edits[|edits| - 1];
      Payload(edits[..|edits| - 1])[PayloadKey(last) := last.newValue]
  }

  /** The payload holds exactly the keys the edits write. */
  lemma {:induction false} PayloadKeys(edits: seq<RecordData>)
    ensures Payload(edits).Keys == set i | 0 <= i < |edits| :: PayloadKey(edits[i])
    decreases |edits|
  {
    if |edits| > 0 {
      var init, last := edits[..|edits| - 1], edits[|edits| - 1];
      PayloadKeys(init);
      assert Payload(edits).Keys == Payload(init).Keys + {PayloadKey(last)};
      var s := set i | 0 <= i < |edits| :: PayloadKey(edits[i]);
      var s' := set i | 0 <= i < |init| :: PayloadKey(init[i]);
      forall k | k in s ensures k in s' + {PayloadKey(last)} {
        var i :| 0 <= i < |edits| && PayloadKey(edits[i]) == k;
        if i < |init| { assert PayloadKey(init[i]) == k; }
      }
      forall k | k in s' ensures k in s {
        var i :| 0 <= i < |init| && PayloadKey(init[i]) == k;
        assert PayloadKey(edits[i]) == k;
      }
    }
  }

  /** Every value of the payload is the value of an edit with that key. */
  lemma {:induction false} PayloadValuesFromEdits(edits: seq<RecordData>, k: string)
    requires k in Payload(edits)
    ensures exists i :: 0 <= i < |edits| && PayloadKey(edits[i]) == k && Payload(edits)[k] == edits[i].newValue
    decreases |edits|
  {
    var init, last := edits[..|edits| - 1], edits[|edits| - 1];
    if k == PayloadKey(last) {
      assert PayloadKey(edits[|edits| - 1]) == k;
    } else {
      PayloadValuesFromEdits(init, k);
      var i :| 0 <= i < |init| && PayloadKey(init[i]) == k && Payload(init)[k] == init[i].newValue;
      assert init[i] == edits[i];
    }
  }

  /** Last write wins: an edit that no later edit overrides gives its key
      its value. */
  lemma {:induction false} PayloadLastWins(edits: seq<RecordData>, i: nat)
    requires i < |edits|
    requires forall j :: i < j < |edits| ==> PayloadKey(edits[j]) != PayloadKey(edits[i])
    ensures PayloadKey(edits[i]) in Payload(edits)
    ensures Payload(edits)[PayloadKey(edits[i])] == edits[i].newValue
    decreases |edits|
  {
    if i < |edits| - 1 {
      var init := edits[..|edits| - 1];
      assert init[i] == edits[i];
      PayloadLastWins(init, i);
    }
  }

  /** `parentFieldIsValid`: the subgrid's parent navigation property is
      named, not empty, and no pending edit already targets it. */
  function ParentFieldIsValid(edits: seq<RecordData>, subgridParentFieldName: Option<string>): (b: bool)
    ensures b <==> subgridParentFieldName.Some? && subgridParentFieldName.value != ""
                   && forall i :: 0 <= i < |edits| ==> edits[i].fieldName != subgridParentFieldName.value
  {
    match subgridParentFieldName
    case None => false
    case Some(name) =>
      name != "" && FirstIndex(edits, (d: RecordData) => d.fieldName == name).None?
  }

  /** The body `saveRecord` sends: the folded edits, plus the binding to
      the parent record when `parentFieldIsValid` holds. With a valid
      parent field the body gains exactly that key and keeps every other
      key of the folded edits; otherwise it is the folded edits exactly. */
  function SavePayload(edits: seq<RecordData>, subgridParentFieldName: Option<string>,
                       parentValue: string): (p: JsonObject)
    ensures ParentFieldIsValid(edits, subgridParentFieldName) ==>
              var binding := subgridParentFieldName.value + BIND_SUFFIX;
              && p.Keys == Payload(edits).Keys + {binding}
              && p[binding] == Str(parentValue)
              && forall k :: k in Payload(edits) && k != binding ==> p[k] == Payload(edits)[k]
    ensures !ParentFieldIsValid(edits, subgridParentFieldName) ==> p == Payload(edits)
  {
    if ParentFieldIsValid(edits, subgridParentFieldName)
    then Payload(edits)[subgridParentFieldName.value + BIND_SUFFIX := Str(parentValue)]
    else Payload(edits)
  }

  /** The body's keys are the keys the edits write, plus the parent
      binding exactly when the parent field is valid. */
  lemma ParentBinding(edits: seq<RecordData>, name: Option<string>, parentValue: string)
    ensures var edited := set i | 0 <= i < |edits| :: PayloadKey(edits[i]);
            SavePayload(edits, name, parentValue).Keys
            == if ParentFieldIsValid(edits, name) then edited + {name.value + BIND_SUFFIX} else edited
  {
    PayloadKeys(edits);
  }

  /** An edit of the parent lookup itself is kept as the user made it: the
      parent binding is not injected over it. */
  lemma ParentEditNotOverwritten(edits: seq<RecordData>, name: string, parentValue: string, i: nat)
    requires i < |edits| && edits[i].fieldName == name && edits[i].fieldType == LOOKUP_SIMPLE
    requires forall j :: i < j < |edits| ==> PayloadKey(edits[j]) != name + BIND_SUFFIX
    ensures !ParentFieldIsValid(edits, Some(name))
    ensures var p := SavePayload(edits, Some(name), parentValue);
            name + BIND_SUFFIX in p && p[name + BIND_SUFFIX] == edits[i].newValue
  {
    PayloadLastWins(edits, i);
  }

  /** The request `saveRecord` ends with. */
  datatype SaveRequest =
    | CreateRecord(entityType: string, body: JsonObject)
    | UpdateRecord(entityType: string, id: string, body: JsonObject)

  /** Exactly one of create and update, chosen by the length of the id. */
  function Route(entityType: string, id: string, body: JsonObject): (r: SaveRequest)
    ensures r.CreateRecord? <==> |id| < NEW_RECORD_ID_LENGTH_CHECK
    ensures r.UpdateRecord? <==> |id| >= NEW_RECORD_ID_LENGTH_CHECK
    ensures r.UpdateRecord? ==> r.id == id
    ensures r.entityType == entityType && r.body == body
  {
    if |id| < NEW_RECORD_ID_LENGTH_CHECK then CreateRecord(entityType, body)
    else UpdateRecord(entityType, id, body)
  }

  /** The options `openForm` passes to the host. */
  datatype FormOptions = FormOptions(entityId: string, entityName: string, openInNewWindow: bool)

  /** The service's module-level state, set by `setContext`. */
  class Service {
    var targetEntityType: string
    var clientUrl: string
    /** The reference to the subgrid's parent record. */
    var parentValue: string

    constructor ()
      ensures targetEntityType == "" && clientUrl == "" && parentValue == ""
    {
      targetEntityType, clientUrl, parentValue := "", "", "";
    }

    /** `setContext`: the host's target entity and client URL, and the
        parent record's entity set name and id (which the TypeScript looks
        up through the host). */
    method SetContext(targetEntity: string, pageClientUrl: string,
                      parentPluralName: string, parentEntityId: string)
      modifies this
      ensures targetEntityType == targetEntity
      ensures clientUrl == pageClientUrl + "/api/data/v9.2/"
      ensures parentValue == ParentReference(parentPluralName, parentEntityId)
    {
      targetEntityType := targetEntity;
      clientUrl := pageClientUrl + "/api/data/v9.2/";
      parentValue := ParentReference(parentPluralName, parentEntityId);
    }

    /** `openForm(id, entityName)` */
    function OpenFormOptions(id: string, entityName: Option<string>): (o: FormOptions)
      reads this
      ensures o.entityId == id && !o.openInNewWindow
      ensures entityName.Some? ==> o.entityName == entityName.value
      ensures entityName.None? ==> o.entityName == targetEntityType
    {
      FormOptions(id, entityName.GetOr(targetEntityType), false)
    }

    /** `saveRecord`: fold the row's pending edits into one object, bind
        the subgrid parent when `parentFieldIsValid`, and create or update.
        `subgridParentFieldName` is what `getFieldSchemaName` fetched. */
    method SaveRecord(record: Record, subgridParentFieldName: Option<string>)
      returns (request: SaveRequest)
      ensures request == Route(targetEntityType, record.id,
                               SavePayload(record.data, subgridParentFieldName, parentValue))
    {
      var data: JsonObject := map[];
      var i := 0;
      while i < |record.data|
        invariant 0 <= i <= |record.data|
        invariant data == Payload(record.data[..i])
      {
        var d := record.data[i];
        assert record.data[..i + 1][..i] == record.data[..i];
        if d.fieldType == LOOKUP_SIMPLE {
          data := data[d.fieldName + BIND_SUFFIX := d.newValue];
        } else {
          data := data[d.fieldName := d.newValue];
        }
        i := i + 1;
      }
      assert record.data[..i] == record.data;

      if ParentFieldIsValid(record.data, subgridParentFieldName) {
        data := data[subgridParentFieldName.value + BIND_SUFFIX := Str(parentValue)];
      }

      if |record.id| < NEW_RECORD_ID_LENGTH_CHECK {
        request := CreateRecord(targetEntityType, data);
      } else {
        request := UpdateRecord(targetEntityType, record.id, data);
      }
    }
  }

  // ---------------------------------------------------------------------
  // retrieveAllRecords

  /** One response of `retrieveMultipleRecords`. */
  datatype Page<E> = Page(entities: seq<E>, nextLink: Option<string>)

  /** Some response in the sequence ends the chain of next links. */
  predicate HasLastPage<E>(pages: seq<Page<E>>) {
    exists k :: 0 <= k < |pages| && pages[k].nextLink.None?
  }

  /** The entities of every page up to and including the first one without
      a next link. */
  function Collected<E>(pages: seq<Page<E>>): seq<E>
    requires HasLastPage(pages)
  {
    if pages[0].nextLink.None? then pages[0].entities
    else
      assert HasLastPage(pages[1..]) by {
        var k :| 0 <= k < |pages| && pages[k].nextLink.None?;
        assert pages[1..][k - 1] == pages[k];
      }
      pages[0].entities + Collected(pages[1..])
  }

  /** The entities of the pages before `n`. */
  function Concat<E>(pages: seq<Page<E>>, n: nat): seq<E>
    requires n <= |pages|
  {
    if n == 0 then [] else Concat(pages, n - 1) + pages[n - 1].entities
  }

  /** Once the first `n` pages all link onward, what remains to collect is
      collected from page `n` on. */
  lemma {:induction false} CollectedSplit<E>(pages: seq<Page<E>>, n: nat)
    requires HasLastPage(pages) && n < |pages|
    requires forall j :: 0 <= j < n ==> pages[j].nextLink.Some?
    ensures HasLastPage(pages[n..])
    ensures Collected(pages) == Concat(pages, n) + Collected(pages[n..])
    decreases n
  {
    var k :| 0 <= k < |pages| && pages[k].nextLink.None?;
    assert k >= n;
    assert pages[n..][k - n] == pages[k];
    if n > 0 {
      CollectedSplit(pages, n - 1);
      assert pages[n - 1..][1..] == pages[n..];
      assert HasLastPage(pages[n - 1..][1..]);
    }
  }

  /** `retrieveAllRecords`: request page after page while the last answer
      carries a next link; the `k`-th request is answered by `pages[k]`
      (the query string cut from the next link picks that page). */
  method RetrieveAllRecords<E>(pages: seq<Page<E>>) returns (entities: seq<E>, requests: nat)
    requires HasLastPage(pages)
    ensures entities == Collected(pages)
    ensures 0 < requests <= |pages| && pages[requests - 1].nextLink.None?
    ensures forall j :: 0 <= j < requests - 1 ==> pages[j].nextLink.Some?
  {
    var result := pages[0];
    entities := [] + result.entities;
    requests := 1;
    while result.nextLink.Some?
      invariant 0 < requests <= |pages| && result == pages[requests - 1]
      invariant forall j :: 0 <= j < requests - 1 ==> pages[j].nextLink.Some?
      invariant entities == Concat(pages, requests)
      decreases |pages| - requests
    {
      if requests == |pages| {
        var k :| 0 <= k < |pages| && pages[k].nextLink.None?;
        assert false;
      }
      result := pages[requests];
      entities := entities + result.entities;
      requests := requests + 1;
    }
    CollectedSplit(pages, requests - 1);
    assert pages[requests - 1..][0] == result;
  }

  // ---------------------------------------------------------------------
  // Mappers over fetched metadata

  /** A relationship as the entity definition's JSON lists it. */
  datatype FetchedRelationship = FetchedRelationship(
    referencingAttribute: Option<string>,
    referencedEntity: Option<string>,
    referencingEntityNavigationPropertyName: Option<string>)

  function Navigable(f: FetchedRelationship): Relationship {
    Relationship(f.referencingAttribute, f.referencedEntity, f.referencingEntityNavigationPropertyName)
  }

  function ManyToMany(f: FetchedRelationship): Relationship {
    Relationship(f.referencingAttribute, f.referencedEntity, None)
  }

  function MapRelationships(s: seq<FetchedRelationship>, f: FetchedRelationship -> Relationship): (r: seq<Relationship>)
    ensures |r| == |s|
    ensures forall i :: 0 <= i < |s| ==> r[i] == f(s[i])
  {
    seq(|s|, i requires 0 <= i < |s| => f(s[i]))
  }

  /** `getRelationships`: one-to-many, then many-to-one, then
      many-to-many, each group in its fetched order; only the many-to-many
      ones have no navigation property. */
  function Relationships(oneToMany: seq<FetchedRelationship>, manyToOne: seq<FetchedRelationship>,
                         manyToMany: seq<FetchedRelationship>): (r: seq<Relationship>)
    ensures |r| == |oneToMany| + |manyToOne| + |manyToMany|
    ensures forall i :: 0 <= i < |oneToMany| ==> r[i] == Navigable(oneToMany[i])
    ensures forall i :: 0 <= i < |manyToOne| ==> r[|oneToMany| + i] == Navigable(manyToOne[i])
    ensures forall i :: 0 <= i < |manyToMany| ==>
              r[|oneToMany| + |manyToOne| + i] == ManyToMany(manyToMany[i])
    ensures forall i :: |oneToMany| + |manyToOne| <= i < |r| ==> r[i].entityNavigation.None?
  {
    MapRelationships(oneToMany, Navigable) + MapRelationships(manyToOne, Navigable)
      + MapRelationships(manyToMany, ManyToMany)
  }

  /** One record fetched for a lookup picker. */
  datatype FetchedRecord = FetchedRecord(id: string, primaryName: Option<string>)

  /** `getLookupOptions`: one tag per fetched record, in order, named
      "(No Name)" when the record has no primary name. */
  function LookupOptions(records: seq<FetchedRecord>): (tags: seq<Tag>)
    ensures |tags| == |records|
    ensures forall i :: 0 <= i < |records| ==>
              tags[i].key == records[i].id
              && (records[i].primaryName.Some? ==> tags[i].name == records[i].primaryName.value)
              && (records[i].primaryName.None? ==> tags[i].name == "(No Name)")
  {
    if |records| == 0 then []
    else [Tag(records[0].id, records[0].primaryName.GetOr("(No Name)"))] + LookupOptions(records[1..])
  }

  /** An option of an option set: its integer value and its label. */
  datatype FetchedOption = FetchedOption(value: int, localizedLabel: string)

  /** The `OptionSet` of an attribute: picklists have `Options`, two-option
      attributes `TrueOption` and `FalseOption`. */
  datatype FetchedOptionSet = FetchedOptionSet(
    options: Option<seq<FetchedOption>>,
    trueOption: Option<FetchedOption>,
    falseOption: Option<FetchedOption>)

  datatype DropdownOption = DropdownOption(key: string, text: string)

  datatype DropdownOptions = DropdownOptions(fieldName: string, options: seq<DropdownOption>)

  function ToDropdownOption(o: FetchedOption): DropdownOption {
    DropdownOption(IntToDecimal(o.value), o.localizedLabel)
  }

  function MapOptions(s: seq<FetchedOption>): (r: seq<DropdownOption>)
    ensures |r| == |s|
    ensures forall i :: 0 <= i < |s| ==> r[i] == ToDropdownOption(s[i])
  {
    seq(|s|, i requires 0 <= i < |s| => ToDropdownOption(s[i]))
  }

  /** `getDropdownOptions` on the fetched attribute list `value`: reading
      `value[0]` or a missing option list throws. */
  method GetDropdownOptions(fieldName: string, isTwoOptions: bool, value: seq<FetchedOptionSet>)
    returns (r: Result<DropdownOptions>)
    ensures r.Err? <==> |value| == 0
                        || (!isTwoOptions && value[0].options.None?)
                        || (isTwoOptions && (value[0].trueOption.None? || value[0].falseOption.None?))
    ensures r.Ok? ==> r.value.fieldName == fieldName
    ensures r.Ok? && isTwoOptions ==>
              var optionSet := value[0];
              && |r.value.options| == 2
              && r.value.options[0] == DropdownOption(IntToDecimal(optionSet.trueOption.value.value), optionSet.trueOption.value.localizedLabel)
              && r.value.options[1] == DropdownOption(IntToDecimal(optionSet.falseOption.value.value), optionSet.falseOption.value.localizedLabel)
    ensures r.Ok? && !isTwoOptions ==>
              var source := value[0].options.value;
              && |r.value.options| == |source|
              && forall i :: 0 <= i < |source| ==>
                   r.value.options[i].key == IntToDecimal(source[i].value)
                   && r.value.options[i].text == source[i].localizedLabel
  {
    if |value| == 0 {
      return Err(TypeError("Cannot read properties of undefined (reading 'OptionSet')"));
    }
    var optionSet := value[0];
    var options: seq<DropdownOption> := [];
    if !isTwoOptions {
      if optionSet.options.None? {
        return Err(TypeError("Cannot read properties of undefined (reading 'map')"));
      }
      options := MapOptions(optionSet.options.value);
    } else {
      if optionSet.trueOption.None? {
        return Err(TypeError("Cannot read properties of undefined (reading 'Value')"));
      }
      var trueOption := optionSet.trueOption.value;
      options := options + [DropdownOption(IntToDecimal(trueOption.value), trueOption.localizedLabel)];
      if optionSet.falseOption.None? {
        return Err(TypeError("Cannot read properties of undefined (reading 'Value')"));
      }
      var falseOption := optionSet.falseOption.value;
      options := options + [DropdownOption(IntToDecimal(falseOption.value), falseOption.localizedLabel)];
    }
    r := Ok(DropdownOptions(fieldName, options));
  }

  /** Option keys stand for their values: each key parses back to its
      option's value, so options with distinct values have distinct keys. */
  lemma DropdownKeysIdentifyValues(s: seq<FetchedOption>, i: nat, j: nat)
    requires i < |s| && j < |s|
    ensures ParseDecimal(MapOptions(s)[i].key) == Some(s[i].value)
    ensures MapOptions(s)[i].key == MapOptions(s)[j].key <==> s[i].value == s[j].value
  {
    ParseIntToDecimal(s[i].value);
    IntToDecimalInjective(s[i].value, s[j].value);
  }

  /** The attribute metadata fetched for a number column. */
  datatype FetchedNumberAttribute = FetchedNumberAttribute(
    precisionSource: Option<int>,
    precision: Option<int>,
    minValue: Option<real>,
    maxValue: Option<real>)

  datatype NumberFieldMetadata = NumberFieldMetadata(
    fieldName: string, precision: int, minValue: Option<real>, maxValue: Option<real>)

  /** `getNumberFieldMetadata` on the fetched attribute list `value`: the
      precision is the first of `PrecisionSource`, `Precision` that is not
      null or undefined (so 0 is taken), else 0; with no attribute, reading
      `value[0].MinValue` throws. */
  function NumberFieldMetadataOf(fieldName: string, value: seq<FetchedNumberAttribute>)
    : (r: Result<NumberFieldMetadata>)
    ensures r.Ok? <==> |value| > 0
    ensures r.Ok? ==> var a := value[0];
              && r.value.fieldName == fieldName
              && r.value.minValue == a.minValue && r.value.maxValue == a.maxValue
              && (a.precisionSource.Some? ==> r.value.precision == a.precisionSource.value)
              && (a.precisionSource.None? && a.precision.Some? ==> r.value.precision == a.precision.value)
              && (a.precisionSource.None? && a.precision.None? ==> r.value.precision == 0)
  {
    if |value| == 0 then Err(TypeError("Cannot read properties of undefined (reading 'MinValue')"))
    else
      var a := value[0];
      var precision := if a.precisionSource.Some? then a.precisionSource.value else a.precision.GetOr(0);
      Ok(NumberFieldMetadata(fieldName, precision, a.minValue, a.maxValue))
  }

  /** The record's `transactioncurrencyid` expansion, when it has one. */
  datatype FetchedCurrency = FetchedCurrency(currencySymbol: Option<string>)

  /** `getCurrencySymbol`: the record's currency symbol unless it is
      missing or empty, then the user's own symbol. */
  function CurrencySymbol(transactionCurrency: Option<FetchedCurrency>, userCurrencySymbol: string)
    : (symbol: string)
    ensures symbol == userCurrencySymbol || (symbol != "" && transactionCurrency == Some(FetchedCurrency(Some(symbol))))
    ensures (transactionCurrency.Some? && transactionCurrency.value.currencySymbol.Some?
             && transactionCurrency.value.currencySymbol.value != "")
            ==> symbol == transactionCurrency.value.currencySymbol.value
  {
    if transactionCurrency.Some? && transactionCurrency.value.currencySymbol.Some?
       && transactionCurrency.value.currencySymbol.value != ""
    then transactionCurrency.value.currencySymbol.value
    else userCurrencySymbol
  }
}
