/**
  One receipt through the model: the request that carries the encoded image and
  the tool manifest, and the interpretation of the model's reply. The network
  call itself is not modelled: its reply is an input, and so is `json.loads`,
  given as a partial decoder from argument text to a decoded value.
 */
module ProcessReceipt {
  import opened Wrappers
  import opened Json
  import FunctionCall
  import opened ManageData

  // ---------------------------------------------------------------------------
  // The request.

  const Model: string := "gpt-4o"

  const SystemPrompt: string :=
    "You are a processor of receipts. If the provided image is not a receipt, DON'T DESCRIBE IT! Ask for a receipt."

  /** The media type is fixed to PNG whatever the image file holds. */
  const DataUrlPrefix: string := "data:image/png;base64,"

  /** The inline image URL carrying base64 text. */
  function ImageDataUrl(encoded: string): (url: string)
    ensures |url| == |DataUrlPrefix| + |encoded|
    ensures url[..|DataUrlPrefix|] == DataUrlPrefix
    ensures url[|DataUrlPrefix|..] == encoded
  {
    DataUrlPrefix + encoded
  }

  /** The base64 text of a PNG data URL, if `url` is one; the inverse of ImageDataUrl. */
  function DataUrlPayload(url: string): (r: Option<string>)
    ensures r.Some? <==> |DataUrlPrefix| <= |url| && url[..|DataUrlPrefix|] == DataUrlPrefix
    ensures r.Some? ==> ImageDataUrl(r.value) == url
  {
    if |DataUrlPrefix| <= |url| && url[..|DataUrlPrefix|] == DataUrlPrefix
    then Some(url[|DataUrlPrefix|..])
    else None
  }

  /** The encoded image is recoverable from the URL, so distinct images give distinct URLs. */
  lemma DataUrlRoundTrip(encoded: string, other: string)
    ensures DataUrlPayload(ImageDataUrl(encoded)) == Some(encoded)
    ensures ImageDataUrl(encoded) == ImageDataUrl(other) ==> encoded == other
  {
  }

  datatype ChatMessage =
    | SystemMessage(text: string)
    | UserImageMessage(imageUrl: string)

  datatype Request = Request(
    model: string,
    messages: seq<ChatMessage>,
    tools: seq<FunctionCall.Tool>,
    toolChoice: string,
    temperature: real)

  /** The chat-completion request built for one base64-encoded image. */
  function CompletionRequest(encoded: string): (req: Request)
    ensures |req.tools| == 1 && req.tools[0].name == "itemize_receipt"
    ensures req.tools[0].parameters == FunctionCall.ReceiptSchema
    ensures req.toolChoice == "auto" && req.temperature == 0.0
    ensures |req.messages| == 2 && req.messages[0].SystemMessage?
    ensures req.messages[1].UserImageMessage?
    ensures DataUrlPayload(req.messages[1].imageUrl) == Some(encoded)
  {
    DataUrlRoundTrip(encoded, encoded);
    Request(
      Model,
      [SystemMessage(SystemPrompt), UserImageMessage(ImageDataUrl(encoded))],
      FunctionCall.Tools,
      "auto",
      0.0)
  }

  // ---------------------------------------------------------------------------
  // The reply and its interpretation.

  /** One tool call: the function name and its JSON-encoded arguments. */
  datatype ToolCall = ToolCall(name: string, arguments: string)

  /** The message of the reply's first choice: free text, tool calls, or both
      (either may be null). */
  datatype Message = Message(content: Option<string>, toolCalls: Option<seq<ToolCall>>)

  /** What the caller learns besides the table. */
  datatype Notice =
    | NoResponse                              // the reply was empty
    | Warning(content: Option<string>)        // the model answered in text (a refusal)
    | Retrieved(date: Value, vendor: Value)   // the extraction's date and vendor, as logged

  datatype Outcome = Outcome(table: Table, notice: Notice)

  /** The structured branch is taken on a non-null, non-empty tool-call list
      whose first call is to `itemize_receipt`. */
  predicate IsItemizeCall(m: Message)
  {
    m.toolCalls.Some? && |m.toolCalls.value| > 0 && m.toolCalls.value[0].name == "itemize_receipt"
  }

  /** `process_receipt` after the request is answered. `reply` is None when the
      endpoint gave nothing; `decode` stands for `json.loads`; `today` for
      `date.today().isoformat()`. A Failure is the exception the call raises,
      in which case the caller's table is left as it was. */
  function ProcessReceipt(table: Table, reply: Option<Message>, decode: string -> Option<Value>, today: string)
    : (r: Result<Outcome, PyError>)
    ensures reply.None? ==> r == Success(Outcome(table, NoResponse))
    ensures reply.Some? && !IsItemizeCall(reply.value) ==>
      r == Success(Outcome(table, Warning(reply.value.content)))
    ensures reply.Some? && IsItemizeCall(reply.value) ==>
      var data := decode(reply.value.toolCalls.value[0].arguments);
      && (data.None? ==> r == Failure(JsonDecodeError))
      && (data.Some? ==>
            (r.Success? <==> data.value.Object? && "date" in data.value.fields
                             && "vendor" in data.value.fields && Addable(data.value)))
      && (data.Some? && !data.value.Object? ==> r == Failure(TypeError))
      && (data.Some? && data.value.Object? && "date" !in data.value.fields ==>
            r == Failure(KeyError("date")))
      && (data.Some? && data.value.Object? && "date" in data.value.fields && "vendor" !in data.value.fields ==>
            r == Failure(KeyError("vendor")))
      && (data.Some? && data.value.Object? && "date" in data.value.fields && "vendor" in data.value.fields ==>
            (r.Failure? ==> Failure(r.error) == AddRows(table, data.value, today)))
      && (data.Some? && r.Success? ==>
            && r.value.notice == Retrieved(data.value.fields["date"], data.value.fields["vendor"])
            && Success(r.value.table) == AddRows(table, data.value, today))
    ensures r.Success? ==> |table| <= |r.value.table| && r.value.table[..|table|] == table
  {
    match reply
    case None => Success(Outcome(table, NoResponse))
    case Some(m) =>
      if IsItemizeCall(m) then
        match decode(m.toolCalls.value[0].arguments)
        case None => Failure(JsonDecodeError)
        case Some(data) =>
          var date :- Subscript(data, "date");
          var vendor :- Subscript(data, "vendor");
          var updated :- AddRows(table, data, today);
          Success(Outcome(updated, Retrieved(date, vendor)))
      else
        Success(Outcome(table, Warning(m.content)))
  }

  // ---------------------------------------------------------------------------
  // Properties of the interpreter.

  /** The table changes only in the structured branch. */
  lemma TableChangesOnlyOnItemizeCall(table: Table, reply: Option<Message>, decode: string -> Option<Value>, today: string)
    requires ProcessReceipt(table, reply, decode, today).Success?
    requires ProcessReceipt(table, reply, decode, today).value.table != table
    ensures reply.Some? && IsItemizeCall(reply.value)
    ensures ProcessReceipt(table, reply, decode, today).value.notice.Retrieved?
  {
  }

  /** When the first tool call is to `itemize_receipt`, only it is consulted:
      calls after it, and the text content beside it, never change the result. */
  lemma OnlyFirstToolCallMatters(table: Table, first: ToolCall, later: seq<ToolCall>, content: Option<string>,
                                 decode: string -> Option<Value>, today: string)
    requires first.name == "itemize_receipt"
    ensures ProcessReceipt(table, Some(Message(content, Some([first] + later))), decode, today)
         == ProcessReceipt(table, Some(Message(None, Some([first]))), decode, today)
  {
  }

  /** A first call to any other tool is a refusal, whatever follows it. */
  lemma OtherFirstToolIsWarning(table: Table, first: ToolCall, later: seq<ToolCall>, content: Option<string>,
                                decode: string -> Option<Value>, today: string)
    requires first.name != "itemize_receipt"
    ensures ProcessReceipt(table, Some(Message(content, Some([first] + later))), decode, today)
         == Success(Outcome(table, Warning(content)))
  {
  }

  /** From this entry point the Date and Vendor fallbacks of the row mapping are
      dead: every appended row carries the extraction's own date and vendor. */
  lemma DateAndVendorNeverDefaulted(table: Table, reply: Option<Message>, decode: string -> Option<Value>,
                                    today: string, k: nat)
    requires ProcessReceipt(table, reply, decode, today).Success?
    requires |table| <= k < |ProcessReceipt(table, reply, decode, today).value.table|
    ensures var out := ProcessReceipt(table, reply, decode, today).value;
      && out.notice.Retrieved?
      && out.table[k].date == out.notice.date
      && out.table[k].vendor == out.notice.vendor
  {
  }

  /** A reply whose first call carries a schema-valid extraction with named items
      appends exactly one typed reference row per item, in order. */
  lemma ValidReplyAppendsItems(table: Table, reply: Option<Message>, decode: string -> Option<Value>, today: string)
    requires reply.Some? && IsItemizeCall(reply.value)
    requires decode(reply.value.toolCalls.value[0].arguments).Some?
    requires FunctionCall.ValidExtraction(decode(reply.value.toolCalls.value[0].arguments).value)
    requires var typed := FunctionCall.ToReceipt(decode(reply.value.toolCalls.value[0].arguments).value);
      typed.Some? && forall i :: 0 <= i < |typed.value.items| ==> typed.value.items[i].name.Some?
    ensures var typed := FunctionCall.ToReceipt(decode(reply.value.toolCalls.value[0].arguments).value).value;
      && ProcessReceipt(table, reply, decode, today).Success?
      && ProcessReceipt(table, reply, decode, today).value.table
         == table + seq(|typed.items|, i requires 0 <= i < |typed.items| => LedgerRow(typed, typed.items[i]))
  {
    var data := decode(reply.value.toolCalls.value[0].arguments).value;
    FunctionCall.ValidExtractionHasRequiredKeys(data);
    AddRowsOnValidExtraction(table, data, today);
  }

  /** A refusal for a non-receipt image: no rows, and the text is surfaced. */
  lemma RefusalExample(table: Table, decode: string -> Option<Value>, today: string)
    ensures ProcessReceipt(table, Some(Message(Some("Please provide a receipt."), None)), decode, today)
         == Success(Outcome(table, Warning(Some("Please provide a receipt."))))
  {
  }
}
