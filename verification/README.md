# Receipt itemizer — a Dafny model

This project models the core of a small receipt-to-ledger tool. A photographed
receipt is sent, base64-encoded, to a vision-capable chat model together with one
callable tool, `itemize_receipt`, whose JSON-Schema parameters describe a receipt:
vendor, date, a list of line items (name, price, quantity, category) and a payment
method. If the model answers with a call to that tool, its JSON arguments are
decoded and turned into one expense-ledger row per line item, appended to the
existing table. Any other answer is a refusal: its text is surfaced as a warning
and the table is unchanged.

Modules, one per source file plus two shared ones:

- `Wrappers` — `Option` and `Result`.
- `Json` — the values `json.loads` produces, and the two Python operations the code
  applies to them: subscripting `d[key]`, which raises `KeyError` or `TypeError`, and
  `dict.get(key, default)`. Raised exceptions are `Result.Failure(PyError)`.
- `FunctionCall` (`utils/function_call.py`) — the category and payment-method
  enumerations, the tool manifest as data, JSON-Schema conformance (`Conforms`,
  `ValidExtraction`), and a typed reading of a conforming extraction (`ToReceipt`)
  with its JSON encoding, used as an independent reference.
- `ManageData` (`utils/manage_data.py`) — ledger `Row`s, `Table = seq<Row>`, and
  `AddRows`, the model of `add_rows`.
- `ProcessReceipt` (`utils/process_receipt.py`) — the PNG data URL, the completion
  request, and `ProcessReceipt`, the interpretation of the model's reply.

Inputs that are effects in the program are parameters here. The reply of the
completion endpoint is an `Option<Message>`: `None` is an empty reply. `json.loads`
is a parameter `decode: string -> Option<Value>`, where `None` is a decoding error.
`date.today().isoformat()` is a parameter `today`.

Behaviour of the code worth noting:

- The code never checks the decoded arguments against the schema. Before
  `add_rows` runs, only two things can fail: JSON decoding, and the log line's
  subscripts of `date` and `vendor`. A non-dict payload raises TypeError there; a
  dict without `date` or `vendor` raises KeyError. Any other decodable payload goes
  to `add_rows`, even if it breaks the schema. There it either succeeds or raises
  `KeyError`/`TypeError` (see `ManageData.AddRows`).
- The refusal branch is also taken when the tool-call list is present but empty.
- The log line in `process_receipt` subscripts `date` and `vendor` before `add_rows`
  runs. So the Date and Vendor fallbacks of the row mapping never apply from this
  entry point (`ProcessReceipt.DateAndVendorNeverDefaulted`).
- The item schema requires no field. Yet `add_rows` subscripts `item['name']` to log
  it. So a schema-valid item without a name raises `KeyError`
  (`ManageData.ValidUnnamedItemFails`), and the Name fallback `""` is dead
  (`ManageData.NameNeverDefaulted`).
- Quantity is typed `integer` in the schema, with no lower bound.

## Model

| member | source | states |
|---|---|---|
| Json.Subscript | utils/manage_data.py:37-39 | `d[key]` yields the value only for a dict holding `key`; a dict without it raises KeyError(key), any other value TypeError |
| FunctionCall.ParseCategory | utils/function_call.py:36-39 | a string names a category exactly when it is one of the seven enumerated names, and then it is that category's name |
| FunctionCall.ParsePaymentMethod | utils/function_call.py:45-48 | a string names a payment method exactly when it is one of the five enumerated names, and then it is that method's name |
| FunctionCall.ToLineItems | utils/function_call.py:19-44 | an item list has a typed reading exactly when every item has one, element by element and in order |
| FunctionCall.ItemConformsIff | utils/function_call.py:20-41 | an item conforms to the item schema exactly when it is an object whose present name/price/quantity/category have the declared types and enum; every item field may be absent |
| FunctionCall.ValidExtractionIff | utils/function_call.py:7-51 | a decoded value conforms to the `itemize_receipt` parameter schema exactly when it reads as a typed Receipt |
| FunctionCall.ValidExtractionHasRequiredKeys | utils/function_call.py:45-51 | a valid extraction holds vendor, date, items and payment_method, its items are a list and its payment method is an enumerated name |
| FunctionCall.LineItemRoundTrip | utils/function_call.py:22-41 | a typed line item, sent as JSON with absent fields as absent keys, reads back unchanged |
| FunctionCall.ReceiptRoundTrip | utils/function_call.py:8-51 | every typed Receipt reads back from its JSON encoding, and that encoding conforms to the schema |
| ManageData.NewRows | utils/manage_data.py:36-49 | the loop succeeds exactly when every item is a dict with a `name`, and then yields exactly one row per item, in item order, each the row dictionary built for that item |
| ManageData.NewRowsFirstFailure | utils/manage_data.py:37-39 | a failing loop raises the exception of its first item without a subscriptable `name` (KeyError('name') for a dict, TypeError otherwise); every item before it was named |
| ManageData.AddRows | utils/manage_data.py:21-61 | `add_rows` succeeds exactly on payloads whose `items` iterate to named dicts; the result is the existing rows unchanged followed by one defaulted row per item; a non-dict payload raises TypeError and a missing `items` raises KeyError('items') |
| ManageData.AddRowsIgnoresExisting | utils/manage_data.py:55-59 | the existing table is never inspected: the result is the existing rows followed by the rows the payload produces on an empty table, and failure does not depend on the table |
| ManageData.EmptyItemsKeepTable | utils/manage_data.py:52-59 | a payload with an empty item list returns the table unchanged |
| ManageData.SharedReceiptColumns | utils/manage_data.py:41-47 | all rows from one receipt share the same Date, Vendor and Payment method |
| ManageData.NameNeverDefaulted | utils/manage_data.py:39-43 | every row produced copies a `name` present in its item, so the Name fallback never applies |
| ManageData.NewRowsAppend | utils/manage_data.py:36-49 | the rows for a concatenation of item lists are the rows of each part, concatenated in order |
| ManageData.AddRowsSequence | utils/manage_data.py:55-59 | adding two receipts in turn gives the existing rows, then the first receipt's rows, then the second's |
| ManageData.DefaultsOutsideEnums | utils/manage_data.py:46-47 | the fallbacks "Uncategorized" and "Unknown" are not members of the category and payment-method enumerations |
| ManageData.RowFromIsLedgerRow | utils/manage_data.py:40-48 | a row built by the `dict.get` rule from a typed-readable item equals the typed reference row for that item |
| ManageData.AddRowsOnValidExtraction | utils/manage_data.py:36-49 | on a schema-valid payload, `add_rows` succeeds exactly when every item is named, and then appends the typed reference rows, one per item, in order |
| ManageData.ValidItemRow | utils/manage_data.py:46-47 | the row of one schema-valid item has the Category fallback exactly when the item has no category, and copies an enumerated payment method |
| ManageData.ValidCategoryDistinguishable | utils/manage_data.py:46-47 | on a schema-valid payload a row's Category is the fallback exactly when the item had no category, and its Payment method is an enumerated name, never the fallback |
| ManageData.ValidUnnamedItemFails | utils/manage_data.py:37-39 | any schema-valid payload with an item that has no `name` makes `add_rows` raise KeyError('name'), because the item schema requires no field |
| ManageData.ValidExtractionWithoutNameFails | utils/manage_data.py:39 | such payloads exist: a schema-valid receipt whose one item is the empty object makes `add_rows` raise KeyError('name') |
| ManageData.CornerDeliExample | utils/manage_data.py:40-48 | a two-item Corner Deli receipt with every field present gives the two rows that copy those fields |
| ProcessReceipt.ImageDataUrl | utils/process_receipt.py:33 | the image URL is the fixed PNG base64 prefix followed by the encoded image text, whatever the real format |
| ProcessReceipt.DataUrlPayload | utils/process_receipt.py:33 | a URL yields a payload exactly when it starts with the PNG base64 prefix, and rebuilding the URL from that payload gives the URL back |
| ProcessReceipt.DataUrlRoundTrip | utils/process_receipt.py:33 | the encoded image is recovered from its URL, so distinct images give distinct URLs |
| ProcessReceipt.CompletionRequest | utils/process_receipt.py:27-40 | the request offers exactly one tool, `itemize_receipt` with the receipt schema, with automatic tool choice and temperature 0.0, a system instruction and a user message whose data URL carries the encoded image |
| ProcessReceipt.ProcessReceipt | utils/process_receipt.py:42-65 | no reply returns the table unchanged; a reply whose first tool call is not `itemize_receipt` returns it unchanged with its text as a warning; otherwise undecodable arguments raise a decoding error; a decoded non-dict raises TypeError; a dict without `date` raises KeyError('date'); one with `date` but without `vendor` raises KeyError('vendor'); with both present the outcome is `add_rows`' table or its exception; a success never alters existing rows |
| ProcessReceipt.TableChangesOnlyOnItemizeCall | utils/process_receipt.py:46-60 | the table changes only when the reply's first tool call is `itemize_receipt` |
| ProcessReceipt.OnlyFirstToolCallMatters | utils/process_receipt.py:46-51 | when the first tool call is to `itemize_receipt`, tool calls after it, and the text beside them, never change the result |
| ProcessReceipt.OtherFirstToolIsWarning | utils/process_receipt.py:46-60 | a differently named first tool call is a refusal whatever follows it: table unchanged, text surfaced |
| ProcessReceipt.DateAndVendorNeverDefaulted | utils/process_receipt.py:54-57 | every row appended through this entry point carries the extraction's own date and vendor, never the fallbacks |
| ProcessReceipt.ValidReplyAppendsItems | utils/process_receipt.py:46-57 | a reply carrying a schema-valid extraction whose items are all named appends exactly the typed reference rows, one per item, in order |
| ProcessReceipt.RefusalExample | utils/process_receipt.py:59-65 | a plain-text reply adds no rows and surfaces its text |

## Left out

- The completion call and client set-up (`client.chat.completions.create`, `utils/openai_init.py`): network I/O, credentials and a foreign SDK. The reply is an input value; `CompletionRequest` only builds the request.
- `choices[0]` indexing: the model's reply is the first choice's message.
- `json.loads`: a library decoder, taken as the parameter `decode`. Duplicate-key handling and number parsing are its business.
- `encode_image` (`utils/encode_image.py`): file I/O plus base64 encoding (section 4 of RFC 4648). Its output is an opaque string.
- `import_expenses` and `write_expenses`: pandas CSV file I/O, including the empty table for a missing file.
- pandas behaviour in `pd.concat` and `pd.DataFrame`: column union, NaN filling, index renumbering and dtypes. The table is a plain sequence of rows.
- Float semantics of prices: a non-integer JSON number is kept as its literal text. The code only copies prices.
- `date.today()`: the parameter `today`.
- `print` logging. The subscripts inside the log f-strings are modelled, because they can raise.
- Property `description` strings of the tool schema: prose for the model, with no effect on the code.
- `utils/test.py`: a stub with no logic.
- ManageData.Iterate: iterating a non-empty dict yields its keys and then fails at the first `item['name']`. The model reports that TypeError at once rather than listing the keys, which have no order in a Dafny map.
- ManageData.SharedReceiptColumns: the source evaluates `date.today().isoformat()` once per item, inside the loop. The model takes one `today` per call. So when `date` is absent and the loop crosses midnight, the source can give rows with different Dates, which the Date clause does not cover. Through `process_receipt` this fallback is never used anyway (`ProcessReceipt.DateAndVendorNeverDefaulted`).
- FunctionCall.Conforms: reads the schema's `integer` as "decodes to a Python int". A quantity written `1.0` or `2e0` is rejected, although JSON Schema accepts it as an integer. So `ItemConformsIff`, `ValidExtractionIff`, `AddRowsOnValidExtraction` and `ValidReplyAppendsItems` speak about a slightly smaller set of payloads than the schema admits. A float is kept only as its literal text, so whether it is integral is not modelled.
