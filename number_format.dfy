/** The number cell editor: how a typed number becomes the pair of values
    the cell reports (the parsed number and its display string), which
    currency and precision it is formatted with, and the required-field
    flag the editor keeps. The locale-dependent formatters are parameters. */
module NumberFormat {
  import opened Js
  import opened RecordSlice
  import DataverseService

  const TRANSACTION_CURRENCY_FIELD: string := "transactioncurrencyid"

  /** A number column's metadata as the number slice stores it. */
  datatype NumberFieldMetadata = NumberFieldMetadata(
    fieldName: string,
    precision: int,
    minValue: Option<real>,
    maxValue: Option<real>,
    isBaseCurrency: Option<bool>)

  /** A row's cached transaction currency. */
  datatype CurrencySymbol = CurrencySymbol(recordId: string, symbol: string, precision: int)

  /** The parts of the store the editor selects. */
  datatype NumberStore = NumberStore(
    numbers: seq<NumberFieldMetadata>,
    currencySymbols: seq<CurrencySymbol>,
    changedRecords: seq<Record>)

  /** `formatNumber`, `formatCurrency` and `formatDecimal`: locale-dependent
      and not part of this model, so any functions of these types. */
  datatype Formatters = Formatters(
    formatNumber: string -> Number,
    formatCurrency: (real, Option<int>, string) -> string,
    formatDecimal: (real, Option<int>) -> string)

  /** The props the grid cell passes (`isDisabled` and `isSecured` are
      false where the cell leaves them undefined). */
  datatype NumberProps = NumberProps(
    fieldName: string,
    value: string,
    rowId: string,
    isRequired: bool,
    isDisabled: bool,
    isSecured: bool)

  /** The arguments of one `_onChange(newValue, rawValue)` call. */
  datatype OnChangeCall = OnChangeCall(newValue: Value, rawValue: Value)

  // ---------------------------------------------------------------------
  // The transaction currency id inside a pending lookup value

  /** The regular expression `\(([^)]+)\)` matches at `i`, ending at `j`. */
  predicate GroupAt(s: string, i: int, j: int) {
    0 <= i && i + 1 < j < |s| && s[i] == '(' && s[j] == ')'
    && forall k :: i < k < j ==> s[k] != ')'
  }

  /** A match at `i` has only one possible end. */
  lemma GroupEndUnique(s: string, i: int, j: int, j': int)
    requires GroupAt(s, i, j) && GroupAt(s, i, j')
    ensures j == j'
  {
  }

  /** The first `)` at or after `k`. */
  function FirstClose(s: string, k: nat): (r: Option<nat>)
    ensures r.Some? ==> k <= r.value < |s| && s[r.value] == ')'
                        && forall m :: k <= m < r.value ==> s[m] != ')'
    ensures r.None? ==> forall m :: k <= m < |s| ==> s[m] != ')'
    decreases |s| - k
  {
    if k >= |s| then None
    else if s[k] == ')' then Some(k)
    else FirstClose(s, k + 1)
  }

  /** The leftmost match of the expression starting at or after `i`, as
      the regular expression engine finds it. */
  function GroupFrom(s: string, i: nat): (r: Option<(nat, nat)>)
    ensures r.Some? ==> i <= r.value.0 && GroupAt(s, r.value.0, r.value.1)
                        && forall a, b :: i <= a < r.value.0 ==> !GroupAt(s, a, b)
    ensures r.None? ==> forall a, b :: i <= a ==> !GroupAt(s, a, b)
    decreases |s| - i
  {
    if i >= |s| then None
    else
      var close := FirstClose(s, i + 1);
      if s[i] == '(' && close.Some? && close.value > i + 1 then Some((i, close.value))
      else GroupFrom(s, i + 1)
  }

  /** `value.match(/\(([^)]+)\)/)[1]`, with `None` where the match is
      `null` and indexing it throws. */
  function TransactionId(s: string): (r: Option<string>)
    ensures r.None? <==> forall a, b :: !GroupAt(s, a, b)
    ensures r.Some? ==> exists i, j :: GroupAt(s, i, j) && r.value == s[i + 1..j]
                                      && forall a, b :: 0 <= a < i ==> !GroupAt(s, a, b)
    ensures r.Some? ==> |r.value| > 0 && forall k :: 0 <= k < |r.value| ==> r.value[k] != ')'
  {
    match GroupFrom(s, 0)
    case None => None
    case Some((i, j)) => Some(s[i + 1..j])
  }

  /** The id comes back out of the `/set(id)` reference the service builds. */
  lemma TransactionIdOfReference(pluralName: string, id: string)
    requires forall k :: 0 <= k < |pluralName| ==> pluralName[k] != '('
    requires |id| > 0 && forall k :: 0 <= k < |id| ==> id[k] != ')'
    ensures TransactionId(DataverseService.ParentReference(pluralName, id)) == Some(id)
  {
    var s := DataverseService.ParentReference(pluralName, id);
    var i0, j0 := |pluralName| + 1, |s| - 1;
    assert forall k :: i0 < k < j0 ==> s[k] == id[k - i0 - 1];
    assert GroupAt(s, i0, j0);
    var r := GroupFrom(s, 0);
    var (i, j) := r.value;
    GroupEndUnique(s, i0, j, j0);
  }

  // ---------------------------------------------------------------------
  // Render-time state

  function ForRecord(rowId: string): Record -> bool {
    (r: Record) => r.id == rowId
  }

  function ForEditedField(fieldName: string): RecordData -> bool {
    (d: RecordData) => d.fieldName == fieldName
  }

  /** `changedRecords.find(id === rowId)?.data.find(fieldName ===
      'transactioncurrencyid')`: the currency edit of the row's first
      pending record, and none when the row has no pending record or that
      record has no currency edit. */
  function PendingCurrency(changedRecords: seq<Record>, rowId: string): (r: Option<RecordData>)
    ensures (forall i :: 0 <= i < |changedRecords| ==> changedRecords[i].id != rowId) ==> r.None?
    ensures r.Some? ==> exists i, j :: IsFirst(changedRecords, ForRecord(rowId), i)
                                       && IsFirst(changedRecords[i].data, ForEditedField(TRANSACTION_CURRENCY_FIELD), j)
                                       && changedRecords[i].data[j] == r.value
    ensures forall i :: IsFirst(changedRecords, ForRecord(rowId), i) ==>
              (r.None? <==> forall j :: 0 <= j < |changedRecords[i].data| ==>
                                          changedRecords[i].data[j].fieldName != TRANSACTION_CURRENCY_FIELD)
  {
    match FirstIndex(changedRecords, ForRecord(rowId))
    case None => None
    case Some(i) =>
      assert forall k :: IsFirst(changedRecords, ForRecord(rowId), k) ==> k == i by {
        forall k | IsFirst(changedRecords, ForRecord(rowId), k) ensures k == i {
          FirstIsUnique(changedRecords, ForRecord(rowId), k, i);
        }
      }
      Find(changedRecords[i].data, ForEditedField(TRANSACTION_CURRENCY_FIELD))
  }

  function ForRow(rowId: string): CurrencySymbol -> bool {
    (c: CurrencySymbol) => c.recordId == rowId
  }

  /** The currency a render resolves. `requestedCurrencyId` is the id
      `getCurrencyById` is called with; `currency` is the render-time value
      of `currentCurrency`. */
  datatype CurrencyResolution = CurrencyResolution(
    requestedCurrencyId: Option<string>,
    currency: Option<CurrencySymbol>)

  /** The render-time currency: a truthy pending currency value is parsed
      for its id (throwing when it is not a string holding a match) and
      that currency is requested. The request cannot have resolved while
      the render runs, so the render-time currency is the row's first
      cached one; `CurrencyAtEvent` gives the value a later handler sees. */
  function ResolveCurrency(store: NumberStore, rowId: string): (r: Result<CurrencyResolution>)
    ensures var pending := PendingCurrency(store.changedRecords, rowId);
            var throws := pending.Some? && Truthy(pending.value.newValue)
                          && !(pending.value.newValue.Str? && TransactionId(pending.value.newValue.s).Some?);
            && (r.Err? <==> throws)
            && (r.Ok? ==> (r.value.requestedCurrencyId.Some? <==> pending.Some? && Truthy(pending.value.newValue)))
            && (r.Ok? && r.value.requestedCurrencyId.Some? ==>
                  r.value.requestedCurrencyId == TransactionId(pending.value.newValue.s))
    ensures r.Ok? ==> (r.value.currency.None? <==>
                         forall k :: 0 <= k < |store.currencySymbols| ==> store.currencySymbols[k].recordId != rowId)
    ensures r.Ok? && r.value.currency.Some? ==>
              exists k :: IsFirst(store.currencySymbols, ForRow(rowId), k)
                          && store.currencySymbols[k] == r.value.currency.value
  {
    var pending := PendingCurrency(store.changedRecords, rowId);
    var cached := Find(store.currencySymbols, ForRow(rowId));
    if pending.Some? && Truthy(pending.value.newValue) then
      if pending.value.newValue.Str? then
        match TransactionId(pending.value.newValue.s)
        case None => Err(TypeError("Cannot read properties of null (reading '1')"))
        case Some(id) => Ok(CurrencyResolution(Some(id), cached))
      else Err(TypeError("newValue.match is not a function"))
    else Ok(CurrencyResolution(None, cached))
  }

  /** Pending edits decide only whether the render throws and what is
      requested, never the render-time currency. */
  lemma CurrencyIgnoresPendingEdits(store: NumberStore, changed: seq<Record>, rowId: string)
    requires ResolveCurrency(store, rowId).Ok?
    requires ResolveCurrency(store.(changedRecords := changed), rowId).Ok?
    ensures ResolveCurrency(store, rowId).value.currency
            == ResolveCurrency(store.(changedRecords := changed), rowId).value.currency
  {
  }

  /** What `getCurrencyById` resolves with. */
  datatype FetchedCurrency = FetchedCurrency(symbol: string, precision: int)

  /** `currentCurrency` when an event handler runs. The `.then` callback
      overwrites the render's variable, so once the request has resolved
      (`fetched` holds its result) the handler sees the fetched currency;
      before that, or when no request was made, the render-time one. */
  function CurrencyAtEvent(requestedCurrencyId: Option<string>, renderCurrency: Option<CurrencySymbol>,
                           rowId: string, fetched: Option<FetchedCurrency>): (c: Option<CurrencySymbol>)
    ensures requestedCurrencyId.None? || fetched.None? ==> c == renderCurrency
    ensures requestedCurrencyId.Some? && fetched.Some? ==>
              c.Some? && c.value.recordId == rowId
              && c.value.symbol == fetched.value.symbol && c.value.precision == fetched.value.precision
  {
    if requestedCurrencyId.Some? && fetched.Some?
    then Some(CurrencySymbol(rowId, fetched.value.symbol, fetched.value.precision))
    else renderCurrency
  }

  /** The props of the spin button. */
  datatype SpinButtonProps = SpinButtonProps(
    min: Option<real>, max: Option<real>, precision: int, value: string, disabled: bool)

  function SpinButton(props: NumberProps, number: Option<NumberFieldMetadata>): (b: SpinButtonProps)
    ensures b.disabled <==> (number.Some? && number.value.isBaseCurrency == Some(true))
                            || props.isDisabled || props.isSecured
    ensures number.None? ==> b.precision == 0 && b.min.None? && b.max.None?
    ensures number.Some? ==> b.precision == number.value.precision
                             && b.min == number.value.minValue && b.max == number.value.maxValue
    ensures b.value == props.value
  {
    var isBase := number.Some? && number.value.isBaseCurrency.Some? && number.value.isBaseCurrency.value;
    SpinButtonProps(
      if number.Some? then number.value.minValue else None,
      if number.Some? then number.value.maxValue else None,
      if number.Some? then number.value.precision else 0,
      props.value,
      isBase || props.isDisabled || props.isSecured)
  }

  /** What one render of the editor computes before any event. */
  datatype NumberView = NumberView(
    requestedCurrencyId: Option<string>,
    currency: Option<CurrencySymbol>,
    number: Option<NumberFieldMetadata>,
    spinButton: SpinButtonProps)

  function ForFieldName(fieldName: string): NumberFieldMetadata -> bool {
    (n: NumberFieldMetadata) => n.fieldName == fieldName
  }

  function Render(props: NumberProps, store: NumberStore): (r: Result<NumberView>)
    ensures r.Ok? <==> ResolveCurrency(store, props.rowId).Ok?
    ensures r.Ok? ==> r.value.requestedCurrencyId == ResolveCurrency(store, props.rowId).value.requestedCurrencyId
                      && r.value.currency == ResolveCurrency(store, props.rowId).value.currency
    ensures r.Ok? ==> (r.value.number.None? <==>
                         forall k :: 0 <= k < |store.numbers| ==> store.numbers[k].fieldName != props.fieldName)
    ensures r.Ok? && r.value.number.Some? ==>
              exists k :: IsFirst(store.numbers, ForFieldName(props.fieldName), k)
                          && store.numbers[k] == r.value.number.value
    ensures r.Ok? ==> r.value.spinButton == SpinButton(props, r.value.number)
  {
    var number := Find(store.numbers, ForFieldName(props.fieldName));
    match ResolveCurrency(store, props.rowId)
    case Err(e) => Err(e)
    case Ok(resolution) =>
      Ok(NumberView(resolution.requestedCurrencyId, resolution.currency, number, SpinButton(props, number)))
  }

  // ---------------------------------------------------------------------
  // onNumberChange

  /** `numberValue || 0` */
  function OrZero(n: Number): real {
    if Truthy(Num(n)) then n.r else 0.0
  }

  function FieldPrecision(number: Option<NumberFieldMetadata>): Option<int> {
    if number.Some? then Some(number.value.precision) else None
  }

  /** The currency display is used iff there is a currency and the field's
      `isBaseCurrency` is defined. */
  predicate CurrencyDisplay(currency: Option<CurrencySymbol>, number: Option<NumberFieldMetadata>) {
    currency.Some? && number.Some? && number.value.isBaseCurrency.Some?
  }

  /** `changeNumberFormat`: reports the parsed number with a currency
      display in the given precision when there is a currency and the field
      says whether it is the base currency, and otherwise a decimal display
      in the field's own precision, the given one being ignored. */
  function ChangeNumberFormat(fmt: Formatters, currency: Option<CurrencySymbol>,
                              number: Option<NumberFieldMetadata>, precision: Option<int>,
                              newValue: string): (c: OnChangeCall)
    ensures c.newValue == Num(fmt.formatNumber(newValue)) && c.rawValue.Str?
    ensures CurrencyDisplay(currency, number) ==>
              c.rawValue.s == fmt.formatCurrency(OrZero(fmt.formatNumber(newValue)), precision, currency.value.symbol)
    ensures !CurrencyDisplay(currency, number) ==>
              c.rawValue.s == fmt.formatDecimal(OrZero(fmt.formatNumber(newValue)), FieldPrecision(number))
  {
    var numberValue := fmt.formatNumber(newValue);
    var display :=
      if CurrencyDisplay(currency, number)
      then fmt.formatCurrency(OrZero(numberValue), precision, currency.value.symbol)
      else fmt.formatDecimal(OrZero(numberValue), FieldPrecision(number));
    OnChangeCall(Num(numberValue), Str(display))
  }

  /** `onNumberChange`: empty input reports `(null, '')`; otherwise the
      parsed number and its display, in the currency's precision when the
      field's precision is the sentinel 2. */
  function OnNumberChange(fmt: Formatters, currency: Option<CurrencySymbol>,
                          number: Option<NumberFieldMetadata>, newValue: string): (c: OnChangeCall)
    ensures c.newValue.Null? <==> newValue == ""
    ensures newValue == "" ==> c.rawValue == Str("")
    ensures newValue != "" ==> c.newValue == Num(fmt.formatNumber(newValue))
    ensures newValue != "" && CurrencyDisplay(currency, number) ==>
              var precision := if number.value.precision == 2 then currency.value.precision
                               else number.value.precision;
              c.rawValue == Str(fmt.formatCurrency(OrZero(fmt.formatNumber(newValue)), Some(precision),
                                                   currency.value.symbol))
    ensures newValue != "" && !CurrencyDisplay(currency, number) ==>
              c.rawValue == Str(fmt.formatDecimal(OrZero(fmt.formatNumber(newValue)), FieldPrecision(number)))
  {
    if newValue == "" then OnChangeCall(Null, Str(""))
    else if currency.Some? && number.Some? then
      if number.value.precision == 2
      then ChangeNumberFormat(fmt, currency, number, Some(currency.value.precision), newValue)
      else ChangeNumberFormat(fmt, currency, number, Some(number.value.precision), newValue)
    else ChangeNumberFormat(fmt, currency, number, FieldPrecision(number), newValue)
  }

  /** Once the requested currency has arrived, a blur on a currency field
      with the sentinel precision 2 formats in that currency's symbol and
      precision, whatever the row's cached currency. */
  lemma FetchedCurrencyDecidesFormat(fmt: Formatters, view: NumberView, rowId: string,
                                     fetched: FetchedCurrency, input: string)
    requires view.requestedCurrencyId.Some? && input != ""
    requires view.number.Some? && view.number.value.isBaseCurrency.Some? && view.number.value.precision == 2
    ensures var currency := CurrencyAtEvent(view.requestedCurrencyId, view.currency, rowId, Some(fetched));
            OnNumberChange(fmt, currency, view.number, input).rawValue
            == Str(fmt.formatCurrency(OrZero(fmt.formatNumber(input)), Some(fetched.precision), fetched.symbol))
  {
  }

  /** Empty input never reaches a formatter: the result is the same
      whatever the formatters, currency and metadata. */
  lemma EmptyInputShortcut(f: Formatters, g: Formatters, c: Option<CurrencySymbol>, c': Option<CurrencySymbol>,
                           n: Option<NumberFieldMetadata>, n': Option<NumberFieldMetadata>)
    ensures OnNumberChange(f, c, n, "") == OnNumberChange(g, c', n', "")
  {
  }

  /** The required-field flag of one editor, set by validation and reset
      by focus (`useState(false)`). */
  class NumberInput {
    const props: NumberProps
    var isInvalid: bool

    constructor (props: NumberProps)
      ensures this.props == props && !isInvalid
    {
      this.props := props;
      isInvalid := false;
    }

    method OnFocus()
      modifies this
      ensures !isInvalid
    {
      isInvalid := false;
    }

    /** `checkValidation`: flags a required field left empty; never clears. */
    method CheckValidation(newValue: string)
      modifies this
      ensures isInvalid == (old(isInvalid) || (props.isRequired && newValue == ""))
    {
      if props.isRequired && newValue == "" {
        isInvalid := true;
      }
    }

    /** `onBlur`: only an input that differs from the current value is
        reported and validated. */
    method OnBlur(view: NumberView, fmt: Formatters, fetched: Option<FetchedCurrency>, inputValue: string)
      returns (change: Option<OnChangeCall>)
      modifies this
      ensures props.value == inputValue ==> change.None? && isInvalid == old(isInvalid)
      ensures props.value != inputValue ==>
                && change == Some(OnNumberChange(fmt, CurrencyAtEvent(view.requestedCurrencyId, view.currency,
                                                                      props.rowId, fetched),
                                                 view.number, inputValue))
                && isInvalid == (old(isInvalid) || (props.isRequired && inputValue == ""))
    {
      change := None;
      if props.value != inputValue {
        var currency := CurrencyAtEvent(view.requestedCurrencyId, view.currency, props.rowId, fetched);
        change := Some(OnNumberChange(fmt, currency, view.number, inputValue));
        CheckValidation(inputValue);
      }
    }
  }
}
