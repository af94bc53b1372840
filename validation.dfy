/** Field rules for an invoice form and the ordered list of errors they produce
    (src/lib/validation.ts). */
module InvoiceValidation {
  import opened Results

  /** `ValidationResult`: the outcome for one field. */
  datatype ValidationResult = ValidationResult(valid: bool, field: string, message: string)

  function ValidResult(field: string): (r: ValidationResult)
    ensures r.valid && r.field == field && r.message == ""
  {
    ValidationResult(true, field, "")
  }

  function InvalidResult(field: string, message: string): (r: ValidationResult)
    ensures !r.valid && r.field == field && r.message == message
  {
    ValidationResult(false, field, message)
  }

  // VALIDATION_MESSAGES
  const DueDateBeforeInvoice: string := "Due date must be on or after invoice date"
  const NoLineItems: string := "At least one line item is required"
  const NoCompleteLineItem: string := "Please add at least one line item with a description and price."
  const QuantityNotPositive: string := "Quantity must be greater than zero"
  const PriceNegative: string := "Price cannot be negative"
  const ValueNotNumeric: string := "Value must be a number"

  /** A point in local time: the day number and the milliseconds into that day. */
  datatype Moment = Moment(day: int, msOfDay: nat)

  /** `new Date(d).setHours(0, 0, 0, 0)`: the start of the local day. */
  function StartOfDay(m: Moment): Moment {
    Moment(m.day, 0)
  }

  datatype LineItem = LineItem(id: string, description: string, quantity: real, unitPrice: real)

  datatype InvoiceFormData = InvoiceFormData(
    id: string, clientName: string, clientEmail: string, invoiceDate: Moment, dueDate: Moment,
    notes: Option<string>, lineItems: seq<LineItem>)

  /** A JavaScript value of unknown type, as `validateLineItemNumeric` receives it. `JsObject`
      stands for every other `typeof`: objects, functions, bigints and symbols. */
  datatype JsValue = JsNumber(n: real) | JsInfinity(positive: bool) | JsNaN | JsString(s: string)
                   | JsBool(b: bool) | JsNull | JsUndefined | JsObject

  /** `validateDueDate`: a due date on an earlier day than the invoice date is rejected; the time
      of day is ignored, so the same day is accepted. */
  function ValidateDueDate(invoiceDate: Moment, dueDate: Moment): (r: ValidationResult)
    ensures r.field == "dueDate"
    ensures !r.valid <==> dueDate.day < invoiceDate.day
    ensures r.message == if r.valid then "" else DueDateBeforeInvoice
  {
    var invoiceTime := StartOfDay(invoiceDate);
    var dueTime := StartOfDay(dueDate);
    if dueTime.day < invoiceTime.day then InvalidResult("dueDate", DueDateBeforeInvoice)
    else ValidResult("dueDate")
  }

  /** `validateLineItems`: rejects the empty list only. */
  function ValidateLineItems(items: seq<LineItem>): (r: ValidationResult)
    ensures r.field == "lineItems"
    ensures !r.valid <==> items == []
    ensures r.message == if r.valid then "" else NoLineItems
  {
    if |items| == 0 then InvalidResult("lineItems", NoLineItems) else ValidResult("lineItems")
  }

  /** `validateLineItemQuantity`: a quantity must be positive. */
  function ValidateLineItemQuantity(quantity: real): (r: ValidationResult)
    ensures r.field == "quantity"
    ensures r.valid <==> quantity > 0.0
    ensures r.message == if r.valid then "" else QuantityNotPositive
  {
    if quantity <= 0.0 then InvalidResult("quantity", QuantityNotPositive) else ValidResult("quantity")
  }

  /** `validateLineItemPrice`: a price must not be negative; zero is allowed. */
  function ValidateLineItemPrice(price: real): (r: ValidationResult)
    ensures r.field == "unitPrice"
    ensures r.valid <==> price >= 0.0
    ensures r.message == if r.valid then "" else PriceNegative
  {
    if price < 0.0 then InvalidResult("unitPrice", PriceNegative) else ValidResult("unitPrice")
  }

  /** `validateLineItemNumeric`: only a number that is not NaN passes (infinities are numbers). */
  function ValidateLineItemNumeric(value: JsValue): (r: ValidationResult)
    ensures r.field == "value"
    ensures r.valid <==> value.JsNumber? || value.JsInfinity?
    ensures r.message == if r.valid then "" else ValueNotNumeric
  {
    if !(value.JsNumber? || value.JsInfinity? || value.JsNaN?) || value.JsNaN? then
      InvalidResult("value", ValueNotNumeric)
    else ValidResult("value")
  }

  /** A line item with a description and a positive price. */
  predicate IsComplete(item: LineItem) {
    item.description != "" && item.unitPrice > 0.0
  }

  /** `validateHasCompleteLineItem`: some item has a description and a positive price. */
  function ValidateHasCompleteLineItem(items: seq<LineItem>): (r: ValidationResult)
    ensures r.field == "lineItems"
    ensures r.valid <==> exists i :: 0 <= i < |items| && IsComplete(items[i])
    ensures r.message == if r.valid then "" else NoCompleteLineItem
  {
    if !AnyComplete(items) then InvalidResult("lineItems", NoCompleteLineItem) else ValidResult("lineItems")
  }

  /** `items.some(...)`, scanned from the front. */
  function AnyComplete(items: seq<LineItem>): (b: bool)
    ensures b <==> exists i :: 0 <= i < |items| && IsComplete(items[i])
  {
    if items == [] then false
    else IsComplete(items[0]) || (assert forall i :: 1 <= i < |items| ==> items[i] == items[1..][i - 1]; AnyComplete(items[1..]))
  }

  /** `if (!result.valid) errors.push(result)`. */
  function Push(errors: seq<ValidationResult>, result: ValidationResult): (r: seq<ValidationResult>)
    ensures result.valid ==> r == errors
    ensures !result.valid ==> r == errors + [result]
  {
    if result.valid then errors else errors + [result]
  }

  /** One pass of the item loop: the item's quantity check, then its price check. */
  function CheckItem(errors: seq<ValidationResult>, item: LineItem): seq<ValidationResult> {
    Push(Push(errors, ValidateLineItemQuantity(item.quantity)), ValidateLineItemPrice(item.unitPrice))
  }

  /** The item loop run over the first `n` items, starting from `errors`. */
  function CheckItems(errors: seq<ValidationResult>, items: seq<LineItem>, n: nat): seq<ValidationResult>
    requires n <= |items|
  {
    if n == 0 then errors else CheckItem(CheckItems(errors, items, n - 1), items[n - 1])
  }

  /** The checks before the item loop: due date, empty list, no complete item. */
  function HeaderErrors(invoice: InvoiceFormData): seq<ValidationResult> {
    Push(Push(Push([], ValidateDueDate(invoice.invoiceDate, invoice.dueDate)),
              ValidateLineItems(invoice.lineItems)),
         ValidateHasCompleteLineItem(invoice.lineItems))
  }

  /** Every error `validateInvoice` reports, in its order. */
  function InvoiceErrors(invoice: InvoiceFormData): (errors: seq<ValidationResult>)
    ensures |errors| <= 3 + 2 * |invoice.lineItems|
  {
    var header := HeaderErrors(invoice);
    HeaderErrorsFacts(invoice);
    CheckItemsGrowth(header, invoice.lineItems, |invoice.lineItems|);
    CheckItems(header, invoice.lineItems, |invoice.lineItems|)
  }

  predicate IsItemField(field: string) {
    field == "quantity" || field == "unitPrice"
  }

  /** Every item among the first `n` passes the quantity and price checks. */
  predicate ItemsWellFormed(items: seq<LineItem>, n: nat)
    requires n <= |items|
  {
    forall i :: 0 <= i < n ==> items[i].quantity > 0.0 && items[i].unitPrice >= 0.0
  }

  /** Entries from index `from` on are invalid quantity or price results. */
  predicate ItemEntriesFrom(r: seq<ValidationResult>, from: nat) {
    forall k :: from <= k < |r| ==> !r[k].valid && IsItemField(r[k].field)
  }

  /** One item appends at most its two failed checks, and nothing exactly when both pass. */
  lemma CheckItemFacts(errors: seq<ValidationResult>, item: LineItem)
    ensures |errors| <= |CheckItem(errors, item)| <= |errors| + 2
    ensures CheckItem(errors, item)[..|errors|] == errors
    ensures ItemEntriesFrom(CheckItem(errors, item), |errors|)
    ensures |CheckItem(errors, item)| == |errors| <==> item.quantity > 0.0 && item.unitPrice >= 0.0
  {
    var q := ValidateLineItemQuantity(item.quantity);
    var mid := Push(errors, q);
    var r := Push(mid, ValidateLineItemPrice(item.unitPrice));
    assert mid[..|errors|] == errors;
    assert r[..|mid|] == mid;
    assert r[..|errors|] == mid[..|errors|];
  }

  /** Appending entries that are item entries keeps the property. */
  lemma ItemEntriesPrefix(errors: seq<ValidationResult>, prev: seq<ValidationResult>, r: seq<ValidationResult>)
    requires |errors| <= |prev| <= |r| && r[..|prev|] == prev
    requires ItemEntriesFrom(prev, |errors|)
    requires ItemEntriesFrom(r, |prev|)
    ensures ItemEntriesFrom(r, |errors|)
  {
    forall k | |errors| <= k < |prev| ensures r[k] == prev[k] {
      assert r[..|prev|][k] == r[k];
    }
  }

  /** The item loop only appends, and nothing exactly when every item passes; at most two
      entries per item. */
  lemma {:induction false} CheckItemsGrowth(errors: seq<ValidationResult>, items: seq<LineItem>, n: nat)
    requires n <= |items|
    ensures |errors| <= |CheckItems(errors, items, n)| <= |errors| + 2 * n
    ensures CheckItems(errors, items, n)[..|errors|] == errors
    ensures |CheckItems(errors, items, n)| == |errors| <==> ItemsWellFormed(items, n)
  {
    if n > 0 {
      CheckItemsGrowth(errors, items, n - 1);
      var prev := CheckItems(errors, items, n - 1);
      var last := items[n - 1];
      CheckItemFacts(prev, last);
      var r := CheckItems(errors, items, n);
      assert r == CheckItem(prev, last);
      WellFormedStep(items, n);
      GrowthStep(errors, prev, r, n);
    }
  }

  /** The arithmetic of one step of the item loop, on the lengths and prefixes alone. */
  lemma GrowthStep(errors: seq<ValidationResult>, prev: seq<ValidationResult>, r: seq<ValidationResult>, n: nat)
    requires n >= 1
    requires |errors| <= |prev| <= |errors| + 2 * (n - 1) && prev[..|errors|] == errors
    requires |prev| <= |r| <= |prev| + 2 && r[..|prev|] == prev
    ensures |errors| <= |r| <= |errors| + 2 * n
    ensures r[..|errors|] == errors
    ensures |r| == |errors| <==> |prev| == |errors| && |r| == |prev|
  {
    assert r[..|errors|] == r[..|prev|][..|errors|];
  }

  lemma WellFormedStep(items: seq<LineItem>, n: nat)
    requires 0 < n <= |items|
    ensures ItemsWellFormed(items, n) <==>
      ItemsWellFormed(items, n - 1) && items[n - 1].quantity > 0.0 && items[n - 1].unitPrice >= 0.0
  {
  }

  /** Every entry the item loop appends is a failed quantity or price check. */
  lemma {:induction false} CheckItemsEntries(errors: seq<ValidationResult>, items: seq<LineItem>, n: nat)
    requires n <= |items|
    ensures ItemEntriesFrom(CheckItems(errors, items, n), |errors|)
  {
    if n > 0 {
      CheckItemsEntries(errors, items, n - 1);
      CheckItemsGrowth(errors, items, n - 1);
      var prev := CheckItems(errors, items, n - 1);
      var item := items[n - 1];
      var r := CheckItems(errors, items, n);
      CheckItemFacts(prev, item);
      assert r == CheckItem(prev, item);
      ItemEntriesPrefix(errors, prev, r);
    }
  }

  /** `validateInvoice` reports nothing exactly when every check passes. */
  lemma InvoiceErrorsEmptyIff(invoice: InvoiceFormData)
    ensures InvoiceErrors(invoice) == [] <==>
      && invoice.dueDate.day >= invoice.invoiceDate.day
      && invoice.lineItems != []
      && (exists i :: 0 <= i < |invoice.lineItems| && IsComplete(invoice.lineItems[i]))
      && ItemsWellFormed(invoice.lineItems, |invoice.lineItems|)
  {
    CheckItemsGrowth(HeaderErrors(invoice), invoice.lineItems, |invoice.lineItems|);
  }

  /** Entries before index `upto` are failed due-date or line-item checks. */
  predicate HeaderEntriesUpTo(r: seq<ValidationResult>, upto: nat)
    requires upto <= |r|
  {
    forall k :: 0 <= k < upto ==> !r[k].valid && (r[k].field == "dueDate" || r[k].field == "lineItems")
  }

  /** The checks before the item loop report at most three entries, each a failed due-date or
      line-item check. */
  lemma HeaderErrorsFacts(invoice: InvoiceFormData)
    ensures |HeaderErrors(invoice)| <= 3
    ensures HeaderEntriesUpTo(HeaderErrors(invoice), |HeaderErrors(invoice)|)
  {
    var a := Push([], ValidateDueDate(invoice.invoiceDate, invoice.dueDate));
    PushHeader([], ValidateDueDate(invoice.invoiceDate, invoice.dueDate));
    var b := Push(a, ValidateLineItems(invoice.lineItems));
    PushHeader(a, ValidateLineItems(invoice.lineItems));
    PushHeader(b, ValidateHasCompleteLineItem(invoice.lineItems));
  }

  /** Pushing a due-date or line-item result keeps every entry a failed header check. */
  lemma PushHeader(r: seq<ValidationResult>, v: ValidationResult)
    requires HeaderEntriesUpTo(r, |r|)
    requires v.field == "dueDate" || v.field == "lineItems"
    ensures |Push(r, v)| <= |r| + 1
    ensures HeaderEntriesUpTo(Push(r, v), |Push(r, v)|)
  {
    if !v.valid {
      var p := Push(r, v);
      forall k | 0 <= k < |p| ensures !p[k].valid && (p[k].field == "dueDate" || p[k].field == "lineItems") {
        if k < |r| { assert p[k] == r[k]; }
      }
    }
  }

  /** There are at most three plus two per item reported entries, all invalid; the first
      |HeaderErrors| are due-date and line-item entries and the rest quantity and price ones. */
  lemma InvoiceErrorsOrdered(invoice: InvoiceFormData)
    ensures |InvoiceErrors(invoice)| <= 3 + 2 * |invoice.lineItems|
    ensures |HeaderErrors(invoice)| <= |InvoiceErrors(invoice)|
    ensures HeaderEntriesUpTo(InvoiceErrors(invoice), |HeaderErrors(invoice)|)
    ensures ItemEntriesFrom(InvoiceErrors(invoice), |HeaderErrors(invoice)|)
  {
    var header := HeaderErrors(invoice);
    HeaderErrorsFacts(invoice);
    CheckItemsGrowth(header, invoice.lineItems, |invoice.lineItems|);
    CheckItemsEntries(header, invoice.lineItems, |invoice.lineItems|);
    var errs := InvoiceErrors(invoice);
    forall k | 0 <= k < |header| ensures errs[k] == header[k] {
      assert errs[..|header|][k] == errs[k];
    }
  }

  /** `validateInvoice`: collects the failed checks in order, then each item's quantity and price. */
  method ValidateInvoice(invoice: InvoiceFormData) returns (errors: seq<ValidationResult>)
    ensures errors == InvoiceErrors(invoice)
  {
    errors := [];
    var dueDateResult := ValidateDueDate(invoice.invoiceDate, invoice.dueDate);
    errors := Push(errors, dueDateResult);
    var lineItemsResult := ValidateLineItems(invoice.lineItems);
    errors := Push(errors, lineItemsResult);
    var completeLineItemResult := ValidateHasCompleteLineItem(invoice.lineItems);
    errors := Push(errors, completeLineItemResult);
    ghost var header := errors;
    var items := invoice.lineItems;
    var i := 0;
    while i < |items|
      invariant 0 <= i <= |items|
      invariant errors == CheckItems(header, items, i)
    {
      var item := items[i];
      var quantityResult := ValidateLineItemQuantity(item.quantity);
      errors := Push(errors, quantityResult);
      var priceResult := ValidateLineItemPrice(item.unitPrice);
      errors := Push(errors, priceResult);
      i := i + 1;
    }
  }
}
