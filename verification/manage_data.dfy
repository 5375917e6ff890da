/**
  The expense ledger and `add_rows`: one decoded receipt payload becomes one
  ledger row per line item, appended after the existing rows. Every cell holds
  the decoded value verbatim, or the column's fallback when the key is absent.
 */
module ManageData {
  import opened Wrappers
  import opened Json
  import FunctionCall

  /** One ledger row, columns in header order:
      Date, Vendor, Name, Quantity, Price, Category, Payment method. */
  datatype Row = Row(
    date: Value,
    vendor: Value,
    name: Value,
    quantity: Value,
    price: Value,
    category: Value,
    paymentMethod: Value)

  /** The expense table, existing rows first. */
  type Table = seq<Row>

  /** Column fallbacks used when a key is absent; the date falls back to the
      caller-supplied ISO form of today's date. */
  const DefaultVendor: Value := Str("")
  const DefaultName: Value := Str("")
  const DefaultQuantity: Value := Int(1)
  const DefaultPrice: Value := Int(0)
  const DefaultCategory: Value := Str("Uncategorized")
  const DefaultPaymentMethod: Value := Str("Unknown")

  /** The `dict.get` rule for one cell: a present key is copied verbatim, an
      absent one gives the fallback. */
  predicate Defaulted(cell: Value, fields: map<string, Value>, key: string, fallback: Value)
  {
    (key in fields ==> cell == fields[key]) && (key !in fields ==> cell == fallback)
  }

  /** What the row built for `item` of `receipt` must hold, column by column. */
  predicate RowFrom(row: Row, receipt: map<string, Value>, item: map<string, Value>, today: string)
  {
    && Defaulted(row.date, receipt, "date", Str(today))
    && Defaulted(row.vendor, receipt, "vendor", DefaultVendor)
    && Defaulted(row.name, item, "name", DefaultName)
    && Defaulted(row.quantity, item, "quantity", DefaultQuantity)
    && Defaulted(row.price, item, "price", DefaultPrice)
    && Defaulted(row.category, item, "category", DefaultCategory)
    && Defaulted(row.paymentMethod, receipt, "payment_method", DefaultPaymentMethod)
  }

  /** The row dictionary built for one item. */
  function ItemRow(receipt: map<string, Value>, item: map<string, Value>, today: string): Row
  {
    Row(
      Get(receipt, "date", Str(today)),
      Get(receipt, "vendor", DefaultVendor),
      Get(item, "name", DefaultName),
      Get(item, "quantity", DefaultQuantity),
      Get(item, "price", DefaultPrice),
      Get(item, "category", DefaultCategory),
      Get(receipt, "payment_method", DefaultPaymentMethod))
  }

  /** An item `add_rows` accepts: the log line subscripts `item['name']`. */
  predicate NamedItem(item: Value)
  {
    item.Object? && "name" in item.fields
  }

  /** The exception `item['name']` raises for an item that is not a NamedItem. */
  function ItemError(item: Value): PyError
  {
    if item.Object? then KeyError("name") else TypeError
  }

  /** The loop over the item sequence: one row per item, in item order,
      stopping at the first item whose `name` cannot be subscripted. */
  function NewRows(receipt: map<string, Value>, items: seq<Value>, today: string): (r: Result<seq<Row>, PyError>)
    ensures r.Success? <==> forall i :: 0 <= i < |items| ==> NamedItem(items[i])
    ensures r.Success? ==> |r.value| == |items|
    ensures r.Success? ==>
      forall i {:trigger r.value[i]} :: 0 <= i < |items| ==> r.value[i] == ItemRow(receipt, items[i].fields, today)
  {
    if items == [] then Success([])
    else if !NamedItem(items[0]) then Failure(ItemError(items[0]))
    else
      match NewRows(receipt, items[1..], today)
      case Failure(e) => Failure(e)
      case Success(rest) => Success([ItemRow(receipt, items[0].fields, today)] + rest)
  }

  /** A failing loop raises the exception of its first unnamed item: every item
      before it was named. */
  lemma {:induction false} NewRowsFirstFailure(receipt: map<string, Value>, items: seq<Value>, today: string)
    requires NewRows(receipt, items, today).Failure?
    ensures exists i ::
              && 0 <= i < |items|
              && !NamedItem(items[i])
              && NewRows(receipt, items, today).error == ItemError(items[i])
              && forall j :: 0 <= j < i ==> NamedItem(items[j])
  {
    if NamedItem(items[0]) {
      NewRowsFirstFailure(receipt, items[1..], today);
      var k :| 0 <= k < |items[1..]| && !NamedItem(items[1..][k])
        && NewRows(receipt, items[1..], today).error == ItemError(items[1..][k])
        && forall j :: 0 <= j < k ==> NamedItem(items[1..][j]);
      assert items[k + 1] == items[1..][k];
      forall j | 0 <= j < k + 1 ensures NamedItem(items[j]) {
        if j > 0 { assert items[j] == items[1..][j - 1]; }
      }
    }
  }

  /** What `for item in v` yields. A list yields its elements and a string its
      one-character strings. A dict yields its keys, which are strings, so the
      first `item['name']` raises TypeError: the model reports that at once and
      yields nothing only for the empty dict. Every other value is not iterable. */
  function Iterate(v: Value): Result<seq<Value>, PyError>
  {
    match v
    case Array(xs) => Success(xs)
    case Str(s) => Success(seq(|s|, i requires 0 <= i < |s| => Str([s[i]])))
    case Object(m) => if |m| == 0 then Success([]) else Failure(TypeError)
    case _ => Failure(TypeError)
  }

  /** The items a receipt payload contributes rows for, when `add_rows` accepts it. */
  function LineItems(receipt: Value): seq<map<string, Value>>
    requires Addable(receipt)
  {
    var items := receipt.fields["items"];
    if items.Array? then seq(|items.elems|, i requires 0 <= i < |items.elems| => items.elems[i].fields)
    else []
  }

  /** The payloads `add_rows` returns for instead of raising: a dict whose
      `items` is a list of dicts each with a `name`, or an empty string or dict. */
  predicate Addable(receipt: Value)
  {
    && receipt.Object?
    && "items" in receipt.fields
    && match receipt.fields["items"]
       case Array(xs) => forall i :: 0 <= i < |xs| ==> NamedItem(xs[i])
       case Str(s) => s == ""
       case Object(m) => |m| == 0
       case _ => false
  }

  /** `add_rows(expenses_df, receipt_data)`, with `date.today().isoformat()`
      supplied as `today`. */
  function AddRows(table: Table, receipt: Value, today: string): (r: Result<Table, PyError>)
    ensures r.Success? <==> Addable(receipt)
    ensures r.Success? ==>
      var items := LineItems(receipt);
      && |r.value| == |table| + |items|
      && r.value[..|table|] == table
      && forall i :: 0 <= i < |items| ==> RowFrom(r.value[|table| + i], receipt.fields, items[i], today)
    ensures !receipt.Object? ==> r == Failure(TypeError)
    ensures receipt.Object? && "items" !in receipt.fields ==> r == Failure(KeyError("items"))
  {
    match Subscript(receipt, "items")
    case Failure(e) => Failure(e)
    case Success(itemsValue) =>
      match Iterate(itemsValue)
      case Failure(e) => Failure(e)
      case Success(items) =>
        match NewRows(receipt.fields, items, today)
        case Failure(e) => Failure(e)
        case Success(newRows) =>
          if |table| == 0 then Success(newRows) else Success(table + newRows)
  }

  // ---------------------------------------------------------------------------
  // Properties of add_rows.

  /** The existing table is never inspected: the outcome is the rows the payload
      alone would produce, placed after whatever was there. */
  lemma AddRowsIgnoresExisting(table: Table, receipt: Value, today: string)
    ensures AddRows(table, receipt, today).Success? == AddRows([], receipt, today).Success?
    ensures AddRows(table, receipt, today).Success? ==>
      AddRows(table, receipt, today).value == table + AddRows([], receipt, today).value
    ensures AddRows(table, receipt, today).Failure? ==>
      AddRows(table, receipt, today) == AddRows([], receipt, today)
  {
  }

  /** A payload with no items leaves the table exactly as it was. */
  lemma EmptyItemsKeepTable(table: Table, receipt: Value, today: string)
    requires receipt.Object? && "items" in receipt.fields && receipt.fields["items"] == Array([])
    ensures AddRows(table, receipt, today) == Success(table)
  {
    assert table + [] == table;
  }

  /** All rows from one receipt share its Date, Vendor and Payment method cells. */
  lemma SharedReceiptColumns(table: Table, receipt: Value, today: string, i: nat, j: nat)
    requires AddRows(table, receipt, today).Success?
    requires |table| <= i < |AddRows(table, receipt, today).value|
    requires |table| <= j < |AddRows(table, receipt, today).value|
    ensures var rows := AddRows(table, receipt, today).value;
      && rows[i].date == rows[j].date
      && rows[i].vendor == rows[j].vendor
      && rows[i].paymentMethod == rows[j].paymentMethod
  {
  }

  /** The Name fallback is dead: every row `add_rows` returns copies a present `name`. */
  lemma NameNeverDefaulted(table: Table, receipt: Value, today: string, i: nat)
    requires AddRows(table, receipt, today).Success?
    requires i < |LineItems(receipt)|
    ensures "name" in LineItems(receipt)[i]
    ensures AddRows(table, receipt, today).value[|table| + i].name == LineItems(receipt)[i]["name"]
  {
  }

  /** Rows for a concatenated item list are the rows for each part, concatenated. */
  lemma {:induction false} NewRowsAppend(receipt: map<string, Value>, a: seq<Value>, b: seq<Value>, today: string)
    requires NewRows(receipt, a, today).Success? && NewRows(receipt, b, today).Success?
    ensures NewRows(receipt, a + b, today)
         == Success(NewRows(receipt, a, today).value + NewRows(receipt, b, today).value)
  {
    var rowsB := NewRows(receipt, b, today).value;
    if a == [] {
      assert a + b == b;
      assert NewRows(receipt, a, today).value == [];
      assert [] + rowsB == rowsB;
    } else {
      var ab := a + b;
      var row := ItemRow(receipt, a[0].fields, today);
      NewRowsStep(receipt, a, today);
      var restA := NewRows(receipt, a[1..], today).value;
      assert ab[0] == a[0] && ab[1..] == a[1..] + b;
      NewRowsAppend(receipt, a[1..], b, today);
      assert NewRows(receipt, ab, today) == Success([row] + (restA + rowsB)) by {
        assert NewRows(receipt, ab[1..], today) == Success(restA + rowsB);
        assert NamedItem(ab[0]);
      }
      ConcatAssoc([row], restA, rowsB);
    }
  }

  /** One turn of the loop: a named first item contributes its row ahead of the rest. */
  lemma NewRowsStep(receipt: map<string, Value>, items: seq<Value>, today: string)
    requires items != [] && NewRows(receipt, items, today).Success?
    ensures NewRows(receipt, items[1..], today).Success?
    ensures NewRows(receipt, items, today).value
         == [ItemRow(receipt, items[0].fields, today)] + NewRows(receipt, items[1..], today).value
  {
  }

  /** Sequence concatenation is associative. */
  lemma ConcatAssoc<T>(x: seq<T>, y: seq<T>, z: seq<T>)
    ensures x + (y + z) == (x + y) + z
  {
  }

  /** Adding two receipts one after the other appends the first receipt's rows,
      then the second's, after the untouched existing rows. */
  lemma AddRowsSequence(table: Table, first: Value, second: Value, today: string)
    requires AddRows(table, first, today).Success?
    requires AddRows(AddRows(table, first, today).value, second, today).Success?
    ensures AddRows(AddRows(table, first, today).value, second, today).value
         == table + AddRows([], first, today).value + AddRows([], second, today).value
  {
    var middle := AddRows(table, first, today).value;
    AddRowsIgnoresExisting(table, first, today);
    AddRowsIgnoresExisting(middle, second, today);
  }

  /** The Category and Payment method fallbacks lie outside the schema's enumerations. */
  lemma DefaultsOutsideEnums()
    ensures DefaultCategory.s !in FunctionCall.CategoryNames
    ensures DefaultPaymentMethod.s !in FunctionCall.PaymentMethodNames
    ensures FunctionCall.ParseCategory(DefaultCategory.s).None?
    ensures FunctionCall.ParsePaymentMethod(DefaultPaymentMethod.s).None?
  {
  }

  // ---------------------------------------------------------------------------
  // add_rows on schema-valid payloads, against the typed reading of the payload.

  /** The ledger row a typed line item stands for: the fallbacks of the row
      mapping, written over the schema's types instead of over `dict.get`. */
  function LedgerRow(r: FunctionCall.Receipt, item: FunctionCall.LineItem): Row
  {
    Row(
      Str(r.date),
      Str(r.vendor),
      if item.name.Some? then Str(item.name.value) else DefaultName,
      if item.quantity.Some? then Int(item.quantity.value) else DefaultQuantity,
      if item.price.Some? then FunctionCall.NumberValue(item.price.value) else DefaultPrice,
      if item.category.Some? then Str(FunctionCall.CategoryName(item.category.value)) else DefaultCategory,
      Str(FunctionCall.PaymentMethodName(r.paymentMethod)))
  }

  /** A row built by the `dict.get` rule from a typed-readable item is the typed reference row. */
  lemma RowFromIsLedgerRow(row: Row, receipt: map<string, Value>, item: Value, typed: FunctionCall.Receipt,
                           li: FunctionCall.LineItem, today: string)
    requires "date" in receipt && receipt["date"] == Str(typed.date)
    requires "vendor" in receipt && receipt["vendor"] == Str(typed.vendor)
    requires "payment_method" in receipt
    requires receipt["payment_method"] == Str(FunctionCall.PaymentMethodName(typed.paymentMethod))
    requires item.Object? && FunctionCall.ToLineItem(item) == Some(li)
    requires RowFrom(row, receipt, item.fields, today)
    ensures row == LedgerRow(typed, li)
  {
  }

  /** An item is named exactly when its typed reading has a name. */
  lemma NamedIffTypedName(item: Value, typed: FunctionCall.LineItem)
    requires FunctionCall.ToLineItem(item) == Some(typed)
    ensures NamedItem(item) <==> typed.name.Some?
  {
  }

  /** A typed-readable payload whose receipt-level fields are those of `typed`. */
  predicate ReadsAs(receipt: Value, typed: FunctionCall.Receipt)
  {
    && receipt.Object?
    && "items" in receipt.fields && receipt.fields["items"].Array?
    && FunctionCall.ToLineItems(receipt.fields["items"].elems) == Some(typed.items)
    && "date" in receipt.fields && receipt.fields["date"] == Str(typed.date)
    && "vendor" in receipt.fields && receipt.fields["vendor"] == Str(typed.vendor)
    && "payment_method" in receipt.fields
    && receipt.fields["payment_method"] == Str(FunctionCall.PaymentMethodName(typed.paymentMethod))
  }

  /** The row `add_rows` appends for item `i` of a typed-readable payload is its typed reference row. */
  lemma AddedRowIsLedgerRow(table: Table, receipt: Value, today: string, typed: FunctionCall.Receipt, i: nat)
    requires AddRows(table, receipt, today).Success?
    requires ReadsAs(receipt, typed)
    requires i < |typed.items|
    ensures |table| + i < |AddRows(table, receipt, today).value|
    ensures AddRows(table, receipt, today).value[|table| + i] == LedgerRow(typed, typed.items[i])
  {
    var xs := receipt.fields["items"].elems;
    var row := AddRows(table, receipt, today).value[|table| + i];
    assert RowFrom(row, receipt.fields, LineItems(receipt)[i], today);
    assert LineItems(receipt)[i] == xs[i].fields;
    assert FunctionCall.ToLineItem(xs[i]) == Some(typed.items[i]);
    RowFromIsLedgerRow(row, receipt.fields, xs[i], typed, typed.items[i], today);
  }

  /** The rows `add_rows` appends for a typed-readable payload are its typed reference rows. */
  lemma AddedRowsAreLedgerRows(table: Table, receipt: Value, today: string, typed: FunctionCall.Receipt)
    requires AddRows(table, receipt, today).Success?
    requires ReadsAs(receipt, typed)
    ensures AddRows(table, receipt, today).value
         == table + seq(|typed.items|, i requires 0 <= i < |typed.items| => LedgerRow(typed, typed.items[i]))
  {
    var rows := AddRows(table, receipt, today).value;
    var expected := table + seq(|typed.items|, i requires 0 <= i < |typed.items| => LedgerRow(typed, typed.items[i]));
    assert |rows| == |expected|;
    forall k | 0 <= k < |rows| ensures rows[k] == expected[k] {
      if k >= |table| {
        AddedRowIsLedgerRow(table, receipt, today, typed, k - |table|);
      } else {
        assert rows[k] == rows[..|table|][k];
      }
    }
  }

  /** For a schema-valid payload, `add_rows` succeeds exactly when every item has
      a name, and then appends the typed reference rows, one per item in order. */
  lemma AddRowsOnValidExtraction(table: Table, receipt: Value, today: string)
    requires FunctionCall.ValidExtraction(receipt)
    ensures FunctionCall.ToReceipt(receipt).Some?
    ensures var typed := FunctionCall.ToReceipt(receipt).value;
      var allNamed := forall i :: 0 <= i < |typed.items| ==> typed.items[i].name.Some?;
      AddRows(table, receipt, today).Success? <==> allNamed
    ensures var typed := FunctionCall.ToReceipt(receipt).value;
      AddRows(table, receipt, today).Success? ==>
        AddRows(table, receipt, today).value
          == table + seq(|typed.items|, i requires 0 <= i < |typed.items| => LedgerRow(typed, typed.items[i]))
  {
    FunctionCall.ValidExtractionIff(receipt);
    FunctionCall.ValidExtractionHasRequiredKeys(receipt);
    var typed := FunctionCall.ToReceipt(receipt).value;
    var xs := receipt.fields["items"].elems;
    assert FunctionCall.ToLineItems(xs) == Some(typed.items);
    forall i | 0 <= i < |xs| ensures NamedItem(xs[i]) <==> typed.items[i].name.Some? {
      NamedIffTypedName(xs[i], typed.items[i]);
    }
    if AddRows(table, receipt, today).Success? {
      AddedRowsAreLedgerRows(table, receipt, today, typed);
    }
  }

  /** The row of one schema-valid item: its Category is the fallback exactly
      when the item has no category, and an enumerated payment method is copied. */
  lemma ValidItemRow(row: Row, receipt: map<string, Value>, item: Value, today: string)
    requires FunctionCall.Conforms(item, FunctionCall.ItemSchema)
    requires "payment_method" in receipt && receipt["payment_method"].Str?
    requires receipt["payment_method"].s in FunctionCall.PaymentMethodNames
    requires RowFrom(row, receipt, item.fields, today)
    ensures row.category == DefaultCategory <==> "category" !in item.fields
    ensures row.paymentMethod != DefaultPaymentMethod
    ensures row.paymentMethod.Str? && row.paymentMethod.s in FunctionCall.PaymentMethodNames
  {
    if "category" in item.fields {
      assert FunctionCall.Conforms(item.fields["category"], FunctionCall.ItemSchema.properties["category"]);
    }
  }

  /** On a schema-valid payload the Category cell reveals whether the model sent
      a category: it is the fallback exactly when the key was absent. The
      Payment method cell is never the fallback. */
  lemma ValidCategoryDistinguishable(table: Table, receipt: Value, today: string, i: nat)
    requires FunctionCall.ValidExtraction(receipt)
    requires AddRows(table, receipt, today).Success?
    requires i < |LineItems(receipt)|
    ensures var row := AddRows(table, receipt, today).value[|table| + i];
      && (row.category == DefaultCategory <==> "category" !in LineItems(receipt)[i])
      && row.paymentMethod != DefaultPaymentMethod
      && row.paymentMethod.Str? && row.paymentMethod.s in FunctionCall.PaymentMethodNames
  {
    FunctionCall.ValidExtractionHasRequiredKeys(receipt);
    var xs := receipt.fields["items"].elems;
    assert FunctionCall.Conforms(xs[i], FunctionCall.ItemSchema) by {
      assert FunctionCall.Conforms(receipt.fields["items"], FunctionCall.ReceiptSchema.properties["items"]);
    }
    var row := AddRows(table, receipt, today).value[|table| + i];
    assert RowFrom(row, receipt.fields, LineItems(receipt)[i], today);
    assert LineItems(receipt)[i] == xs[i].fields;
    ValidItemRow(row, receipt.fields, xs[i], today);
  }

  /** The item schema requires no field, so any schema-valid payload with an
      item that omits `name` makes `add_rows` raise KeyError('name'). */
  lemma ValidUnnamedItemFails(table: Table, receipt: Value, today: string, k: nat)
    requires FunctionCall.ValidExtraction(receipt)
    requires "items" in receipt.fields && receipt.fields["items"].Array?
    requires k < |receipt.fields["items"].elems| && !NamedItem(receipt.fields["items"].elems[k])
    ensures AddRows(table, receipt, today) == Failure(KeyError("name"))
  {
    FunctionCall.ValidExtractionHasRequiredKeys(receipt);
    var xs := receipt.fields["items"].elems;
    assert FunctionCall.Conforms(receipt.fields["items"], FunctionCall.ReceiptSchema.properties["items"]);
    assert NewRows(receipt.fields, xs, today).Failure?;
    NewRowsFirstFailure(receipt.fields, xs, today);
    var i :| 0 <= i < |xs| && !NamedItem(xs[i]) && NewRows(receipt.fields, xs, today).error == ItemError(xs[i]);
    assert FunctionCall.Conforms(xs[i], FunctionCall.ItemSchema);
  }

  /** Such payloads exist: a valid receipt whose one item is the empty object. */
  lemma ValidExtractionWithoutNameFails(table: Table, today: string)
    ensures var receipt := FunctionCall.ReceiptValue(
      FunctionCall.Receipt("Corner Deli", "2024-03-01", [FunctionCall.LineItem(None, None, None, None)], FunctionCall.Cash));
      && FunctionCall.ValidExtraction(receipt)
      && AddRows(table, receipt, today) == Failure(KeyError("name"))
  {
    var typed := FunctionCall.Receipt("Corner Deli", "2024-03-01", [FunctionCall.LineItem(None, None, None, None)], FunctionCall.Cash);
    FunctionCall.ReceiptRoundTrip(typed);
    var receipt := FunctionCall.ReceiptValue(typed);
    assert receipt.fields["items"] == Array([Object(map[])]);
    assert !NamedItem(Object(map[]));
  }

  /** A two-item receipt with every field present becomes two rows copying them. */
  lemma CornerDeliExample(today: string)
    ensures
      var sandwich := Object(map["name" := Str("Sandwich"), "price" := Float("8.50"),
                                 "quantity" := Int(1), "category" := Str("meal")]);
      var chips := Object(map["name" := Str("Chips"), "price" := Float("2.00"),
                              "quantity" := Int(2), "category" := Str("groceries")]);
      var receipt := Object(map["vendor" := Str("Corner Deli"), "date" := Str("2024-03-01"),
                                "items" := Array([sandwich, chips]), "payment_method" := Str("credit")]);
      AddRows([], receipt, today) == Success([
        Row(Str("2024-03-01"), Str("Corner Deli"), Str("Sandwich"), Int(1), Float("8.50"), Str("meal"), Str("credit")),
        Row(Str("2024-03-01"), Str("Corner Deli"), Str("Chips"), Int(2), Float("2.00"), Str("groceries"), Str("credit"))])
  {
    var sandwich := Object(map["name" := Str("Sandwich"), "price" := Float("8.50"),
                               "quantity" := Int(1), "category" := Str("meal")]);
    var chips := Object(map["name" := Str("Chips"), "price" := Float("2.00"),
                            "quantity" := Int(2), "category" := Str("groceries")]);
    var receipt := Object(map["vendor" := Str("Corner Deli"), "date" := Str("2024-03-01"),
                              "items" := Array([sandwich, chips]), "payment_method" := Str("credit")]);
    assert NamedItem(sandwich) && NamedItem(chips);
    NewRowsOfTwo(receipt.fields, sandwich, chips, today);
  }

  /** The loop over a two-item list, unfolded. */
  lemma NewRowsOfTwo(receipt: map<string, Value>, first: Value, second: Value, today: string)
    requires NamedItem(first) && NamedItem(second)
    ensures NewRows(receipt, [first, second], today)
         == Success([ItemRow(receipt, first.fields, today), ItemRow(receipt, second.fields, today)])
  {
    var firstRow := ItemRow(receipt, first.fields, today);
    var secondRow := ItemRow(receipt, second.fields, today);
    assert [first, second][1..] == [second];
    assert [second][1..] == [];
    assert NewRows(receipt, [second], today) == Success([secondRow] + []);
    assert [secondRow] + [] == [secondRow];
    assert [firstRow] + [secondRow] == [firstRow, secondRow];
  }
}

