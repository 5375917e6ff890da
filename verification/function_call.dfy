/**
  The `itemize_receipt` tool offered to the model: its closed enumerations, its
  JSON-Schema parameter description, what it means for a decoded value to
  conform to that schema, and a typed view of a conforming extraction.
 */
module FunctionCall {
  import opened Wrappers
  import opened Json

  /** The item categories the schema enumerates (utils/function_call.py:39). */
  datatype Category = TakeOut | Meal | Groceries | Clothing | Electronics | Supplies | OtherCategory

  /** The payment methods the schema enumerates (utils/function_call.py:48). */
  datatype PaymentMethod = Cash | Credit | Debit | Mobile | OtherMethod

  const CategoryNames: seq<string> :=
    ["take-out", "meal", "groceries", "clothing", "electronics", "supplies", "other"]

  const PaymentMethodNames: seq<string> := ["cash", "credit", "debit", "mobile", "other"]

  function CategoryName(c: Category): (s: string)
    ensures s in CategoryNames
  {
    match c
    case TakeOut => "take-out"
    case Meal => "meal"
    case Groceries => "groceries"
    case Clothing => "clothing"
    case Electronics => "electronics"
    case Supplies => "supplies"
    case OtherCategory => "other"
  }

  /** Reads a category back from its wire name; the inverse of CategoryName. */
  function ParseCategory(s: string): (r: Option<Category>)
    ensures r.Some? <==> s in CategoryNames
    ensures r.Some? ==> CategoryName(r.value) == s
    ensures forall c :: CategoryName(c) == s ==> r == Some(c)
  {
    if s == "take-out" then Some(TakeOut)
    else if s == "meal" then Some(Meal)
    else if s == "groceries" then Some(Groceries)
    else if s == "clothing" then Some(Clothing)
    else if s == "electronics" then Some(Electronics)
    else if s == "supplies" then Some(Supplies)
    else if s == "other" then Some(OtherCategory)
    else None
  }

  function PaymentMethodName(p: PaymentMethod): (s: string)
    ensures s in PaymentMethodNames
  {
    match p
    case Cash => "cash"
    case Credit => "credit"
    case Debit => "debit"
    case Mobile => "mobile"
    case OtherMethod => "other"
  }

  /** Reads a payment method back from its wire name; the inverse of PaymentMethodName. */
  function ParsePaymentMethod(s: string): (r: Option<PaymentMethod>)
    ensures r.Some? <==> s in PaymentMethodNames
    ensures r.Some? ==> PaymentMethodName(r.value) == s
    ensures forall p :: PaymentMethodName(p) == s ==> r == Some(p)
  {
    if s == "cash" then Some(Cash)
    else if s == "credit" then Some(Credit)
    else if s == "debit" then Some(Debit)
    else if s == "mobile" then Some(Mobile)
    else if s == "other" then Some(OtherMethod)
    else None
  }

  /** The fragment of JSON Schema the tool declaration uses. Descriptions are
      prose for the model and are not kept; a string's `format` is kept but,
      as in JSON Schema's default vocabulary, it only annotates. */
  datatype Schema =
    | StringSchema(format: Option<string>, choices: Option<seq<string>>)
    | NumberSchema
    | IntegerSchema
    | ArraySchema(element: Schema)
    | ObjectSchema(properties: map<string, Schema>, required: seq<string>)

  /** One entry of the `tools` list: a function the model may call. */
  datatype Tool = Function(name: string, description: string, parameters: Schema)

  /** A line item: every property optional, since the item schema lists none as required. */
  const ItemSchema: Schema := ObjectSchema(
    map[
      "name" := StringSchema(None, None),
      "price" := NumberSchema,
      "quantity" := IntegerSchema,
      "category" := StringSchema(None, Some(CategoryNames))
    ],
    [])

  const RequiredFields: seq<string> := ["vendor", "date", "items", "payment_method"]

  const ReceiptSchema: Schema := ObjectSchema(
    map[
      "vendor" := StringSchema(None, None),
      "date" := StringSchema(Some("date"), None),
      "items" := ArraySchema(ItemSchema),
      "payment_method" := StringSchema(None, Some(PaymentMethodNames))
    ],
    RequiredFields)

  const ItemizeReceipt: Tool := Function("itemize_receipt", "Itemize a receipt from an image", ReceiptSchema)

  /** The whole tool manifest sent with every request. */
  const Tools: seq<Tool> := [ItemizeReceipt]

  /** JSON-Schema validation of a decoded value. Properties the schema does not
      declare are allowed, as JSON Schema allows them by default. `integer` is
      read as "decodes to a Python int": a number written with a fraction or
      exponent (`1.0`, `2e0`) is rejected here, although JSON Schema counts an
      integral number of any spelling as an integer. */
  predicate Conforms(v: Value, s: Schema)
    decreases s
  {
    match s
    case StringSchema(_, choices) =>
      v.Str? && (choices.Some? ==> v.s in choices.value)
    case NumberSchema => v.Int? || v.Float?
    case IntegerSchema => v.Int?
    case ArraySchema(element) =>
      v.Array? && forall i :: 0 <= i < |v.elems| ==> Conforms(v.elems[i], element)
    case ObjectSchema(properties, required) =>
      && v.Object?
      && (forall i :: 0 <= i < |required| ==> required[i] in v.fields)
      && (forall k :: k in properties && k in v.fields ==> Conforms(v.fields[k], properties[k]))
  }

  /** A decoded tool-call argument that satisfies the `itemize_receipt` schema. */
  predicate ValidExtraction(v: Value)
  {
    Conforms(v, ReceiptSchema)
  }

  // ---------------------------------------------------------------------------
  // A typed view of a conforming extraction, used as an independent reference
  // for what ValidExtraction admits.

  datatype Number = IntNumber(i: int) | FloatNumber(literal: string)

  datatype LineItem = LineItem(
    name: Option<string>,
    price: Option<Number>,
    quantity: Option<int>,
    category: Option<Category>)

  datatype Receipt = Receipt(
    vendor: string,
    date: string,
    items: seq<LineItem>,
    paymentMethod: PaymentMethod)

  function ToNumber(v: Value): Option<Number>
  {
    match v
    case Int(i) => Some(IntNumber(i))
    case Float(lit) => Some(FloatNumber(lit))
    case _ => None
  }

  function ToLineItem(v: Value): Option<LineItem>
  {
    if !v.Object? then None
    else
      var f := v.fields;
      if "name" in f && !f["name"].Str? then None
      else if "price" in f && ToNumber(f["price"]).None? then None
      else if "quantity" in f && !f["quantity"].Int? then None
      else if "category" in f && !(f["category"].Str? && ParseCategory(f["category"].s).Some?) then None
      else
        Some(LineItem(
          if "name" in f then Some(f["name"].s) else None,
          if "price" in f then ToNumber(f["price"]) else None,
          if "quantity" in f then Some(f["quantity"].i) else None,
          if "category" in f then ParseCategory(f["category"].s) else None))
  }

  function ToLineItems(xs: seq<Value>): (r: Option<seq<LineItem>>)
    ensures r.Some? <==> forall i :: 0 <= i < |xs| ==> ToLineItem(xs[i]).Some?
    ensures r.Some? ==> |r.value| == |xs| && forall i :: 0 <= i < |xs| ==> ToLineItem(xs[i]) == Some(r.value[i])
  {
    if xs == [] then Some([])
    else
      match (ToLineItem(xs[0]), ToLineItems(xs[1..]))
      case (Some(item), Some(rest)) => Some([item] + rest)
      case _ => None
  }

  function ToReceipt(v: Value): Option<Receipt>
  {
    if !v.Object? then None
    else
      var f := v.fields;
      if !("vendor" in f && f["vendor"].Str?) then None
      else if !("date" in f && f["date"].Str?) then None
      else if !("items" in f && f["items"].Array?) then None
      else if !("payment_method" in f && f["payment_method"].Str?) then None
      else
        match (ToLineItems(f["items"].elems), ParsePaymentMethod(f["payment_method"].s))
        case (Some(items), Some(pm)) => Some(Receipt(f["vendor"].s, f["date"].s, items, pm))
        case _ => None
  }

  function NumberValue(n: Number): Value
  {
    match n
    case IntNumber(i) => Int(i)
    case FloatNumber(lit) => Float(lit)
  }

  /** The JSON object a model would send for a line item: absent fields are absent keys. */
  function LineItemValue(item: LineItem): Value
  {
    Object(
      (if item.name.Some? then map["name" := Str(item.name.value)] else map[])
      + (if item.price.Some? then map["price" := NumberValue(item.price.value)] else map[])
      + (if item.quantity.Some? then map["quantity" := Int(item.quantity.value)] else map[])
      + (if item.category.Some? then map["category" := Str(CategoryName(item.category.value))] else map[]))
  }

  function LineItemValues(items: seq<LineItem>): seq<Value>
  {
    seq(|items|, i requires 0 <= i < |items| => LineItemValue(items[i]))
  }

  function ReceiptValue(r: Receipt): Value
  {
    Object(map[
      "vendor" := Str(r.vendor),
      "date" := Str(r.date),
      "items" := Array(LineItemValues(r.items)),
      "payment_method" := Str(PaymentMethodName(r.paymentMethod))
    ])
  }

  // ---------------------------------------------------------------------------
  // Properties of the schema.

  /** An item conforms to the item schema exactly when it has a typed reading. */
  lemma ItemConformsIff(v: Value)
    ensures Conforms(v, ItemSchema) <==> ToLineItem(v).Some?
  {
  }

  /** The schema and the typed reading agree: a decoded value is a valid
      extraction exactly when it reads as a Receipt. */
  lemma ValidExtractionIff(v: Value)
    ensures ValidExtraction(v) <==> ToReceipt(v).Some?
  {
    if ValidExtraction(v) {
      ValidExtractionReads(v);
    }
    if ToReceipt(v).Some? {
      ReadableIsValid(v);
    }
  }

  /** The schema-to-typed direction of ValidExtractionIff. */
  lemma ValidExtractionReads(v: Value)
    requires ValidExtraction(v)
    ensures ToReceipt(v).Some?
  {
    var f := v.fields;
    var props := ReceiptSchema.properties;
    assert RequiredFields[0] in f && RequiredFields[1] in f;
    assert RequiredFields[2] in f && RequiredFields[3] in f;
    assert Conforms(f["vendor"], props["vendor"]);
    assert Conforms(f["date"], props["date"]);
    assert Conforms(f["items"], props["items"]);
    assert Conforms(f["payment_method"], props["payment_method"]);
    var xs := f["items"].elems;
    forall i | 0 <= i < |xs| ensures ToLineItem(xs[i]).Some? {
      ItemConformsIff(xs[i]);
    }
    assert ToLineItems(xs).Some?;
  }

  /** The typed-to-schema direction of ValidExtractionIff. */
  lemma ReadableIsValid(v: Value)
    requires ToReceipt(v).Some?
    ensures ValidExtraction(v)
  {
    var f := v.fields;
    var props := ReceiptSchema.properties;
    var xs := f["items"].elems;
    assert ToLineItems(xs).Some?;
    forall i | 0 <= i < |xs| ensures Conforms(xs[i], ItemSchema) {
      ItemConformsIff(xs[i]);
    }
    assert Conforms(f["items"], props["items"]);
    assert ParsePaymentMethod(f["payment_method"].s).Some?;
    assert Conforms(f["payment_method"], props["payment_method"]);
    forall k | k in props && k in f ensures Conforms(f[k], props[k]) {
    }
  }

  /** Every conforming extraction carries the four required keys. */
  lemma ValidExtractionHasRequiredKeys(v: Value)
    requires ValidExtraction(v)
    ensures v.Object?
    ensures "vendor" in v.fields && "date" in v.fields
    ensures "items" in v.fields && "payment_method" in v.fields
    ensures v.fields["items"].Array?
    ensures v.fields["payment_method"].Str? && v.fields["payment_method"].s in PaymentMethodNames
  {
    assert RequiredFields[0] in v.fields && RequiredFields[1] in v.fields;
    assert RequiredFields[2] in v.fields && RequiredFields[3] in v.fields;
    assert Conforms(v.fields["items"], ReceiptSchema.properties["items"]);
    assert Conforms(v.fields["payment_method"], ReceiptSchema.properties["payment_method"]);
  }

  /** Which keys the JSON of a line item holds, and what they hold. */
  lemma LineItemValueFields(item: LineItem)
    ensures LineItemValue(item).Object?
    ensures var f := LineItemValue(item).fields;
      && ("name" in f <==> item.name.Some?)
      && ("price" in f <==> item.price.Some?)
      && ("quantity" in f <==> item.quantity.Some?)
      && ("category" in f <==> item.category.Some?)
      && (item.name.Some? ==> f["name"] == Str(item.name.value))
      && (item.price.Some? ==> f["price"] == NumberValue(item.price.value))
      && (item.quantity.Some? ==> f["quantity"] == Int(item.quantity.value))
      && (item.category.Some? ==> f["category"] == Str(CategoryName(item.category.value)))
  {
  }

  /** Reading a line item back from the JSON it is sent as gives it back. */
  lemma LineItemRoundTrip(item: LineItem)
    ensures ToLineItem(LineItemValue(item)) == Some(item)
  {
    LineItemValueFields(item);
    var f := LineItemValue(item).fields;
    if item.price.Some? {
      assert ToNumber(f["price"]) == item.price;
    }
  }

  /** Reading an item list back from the JSON it is sent as gives it back. */
  lemma LineItemsRoundTrip(items: seq<LineItem>)
    ensures ToLineItems(LineItemValues(items)) == Some(items)
  {
    var xs := LineItemValues(items);
    forall i | 0 <= i < |xs| ensures ToLineItem(xs[i]) == Some(items[i]) {
      LineItemRoundTrip(items[i]);
    }
    var read := ToLineItems(xs);
    assert read.Some?;
    assert |read.value| == |items|;
    forall i | 0 <= i < |items| ensures read.value[i] == items[i] {
      assert ToLineItem(xs[i]) == Some(read.value[i]);
    }
    assert read.value == items;
  }

  /** Reading a receipt back from the JSON it is sent as gives it back, so every
      Receipt has a conforming encoding. */
  lemma ReceiptRoundTrip(r: Receipt)
    ensures ToReceipt(ReceiptValue(r)) == Some(r)
    ensures ValidExtraction(ReceiptValue(r))
  {
    LineItemsRoundTrip(r.items);
    var f := ReceiptValue(r).fields;
    assert f["items"] == Array(LineItemValues(r.items));
    var pm := PaymentMethodName(r.paymentMethod);
    assert f["payment_method"] == Str(pm);
    assert ParsePaymentMethod(pm) == Some(r.paymentMethod);
    ReadableIsValid(ReceiptValue(r));
  }
}
