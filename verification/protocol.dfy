/**
 * The line protocol between the bridge and its worker: one JSON document per
 * line. Outbound lines are request envelopes `{id, method, params}`; each
 * inbound line is classified by the reader loop as blank, an event, a
 * response, something else, or a line that does not parse.
 */
module Protocol {
  import opened Wrappers
  import opened Json
  import opened Text

  const UNKNOWN_BRIDGE_ERROR := "unknown bridge error"
  const PARSE_ERROR_PREFIX := "bridge parse error: "

  /** An unsolicited notification from the worker; the payload is passed on uninterpreted. */
  datatype BridgeEvent = BridgeEvent(name: string, payload: Value)

  /** What the JSON parser made of a line: the parser itself is not modelled. */
  datatype Parse = Parsed(message: Value) | Unparsable(error: string)

  /** What the reader loop does with one line. */
  datatype Action =
    | Ignore                                  // whitespace only
    | Publish(event: BridgeEvent)             // broadcast to subscribers
    | Route(id: nat, reply: Result<Value>)    // resolve the pending call with this id
    | Unrouted                                // valid JSON that is neither: dropped
    | FailAll(message: string)                // fail every pending call

  /** A request as written to the worker's input. */
  datatype Envelope = Envelope(id: nat, methodName: string, params: Value)

  /** The reply a response message carries: `error` wins over `result`. */
  function ReplyOf(message: Value): Result<Value>
  {
    match Get(message, "error")
    case Some(e) => Err(if e.Str? then e.s else UNKNOWN_BRIDGE_ERROR)
    case None => Ok(FieldOrNull(message, "result"))
  }

  /** The body of the reader loop, as a decision on one line. */
  function Classify(line: string, parse: Parse): Action
  {
    if IsBlank(line) then Ignore
    else match parse
      case Unparsable(e) => FailAll(PARSE_ERROR_PREFIX + e)
      case Parsed(m) =>
        match (StrField(m, "event"), U64Field(m, "id"))
        case (Some(name), _) => Publish(BridgeEvent(name, FieldOrNull(m, "payload")))
        case (None, Some(id)) => Route(id, ReplyOf(m))
        case (None, None) => Unrouted
  }

  /** `json!({"id": id, "method": method, "params": params})` */
  function RequestToValue(e: Envelope): Value
  {
    Object(map["id" := Int(e.id), "method" := Str(e.methodName), "params" := e.params])
  }

  // Reference encoders: the worker's side of the wire format, as lines the
  // reader must understand.

  /** An event line `{"event": name, "payload": payload}`. */
  function EventMessage(e: BridgeEvent): Value
  {
    Object(map["event" := Str(e.name), "payload" := e.payload])
  }

  /** A response line: `{"id", "result"}` on success, `{"id", "error"}` on failure. */
  function ResponseMessage(id: nat, reply: Result<Value>): Value
  {
    match reply
    case Ok(v) => Object(map["id" := Int(id), "result" := v])
    case Err(s) => Object(map["id" := Int(id), "error" := Str(s)])
  }

  /** Every event the worker writes is published as it was written. */
  lemma EventRoundTrip(line: string, e: BridgeEvent)
    requires !IsBlank(line)
    ensures Classify(line, Parsed(EventMessage(e))) == Publish(e)
  {
  }

  /** Every response the worker writes for a `u64` id resolves that id with that reply. */
  lemma ResponseRoundTrip(line: string, id: nat, reply: Result<Value>)
    requires !IsBlank(line)
    requires id < U64_LIMIT
    ensures Classify(line, Parsed(ResponseMessage(id, reply))) == Route(id, reply)
  {
  }

  /** A whitespace-only line is skipped whatever the parser would say of it. */
  lemma BlankLineIgnored(line: string, parse: Parse)
    requires IsBlank(line)
    ensures Classify(line, parse) == Ignore
  {
  }

  /**
   * `event` is looked at before `id`: a message with a string `event` is an
   * event even when it also carries a numeric `id`, and a missing payload is
   * `null`.
   */
  lemma EventTakesPrecedence(line: string, m: Value)
    requires !IsBlank(line)
    requires StrField(m, "event").Some?
    ensures Classify(line, Parsed(m)) == Publish(BridgeEvent(StrField(m, "event").value, FieldOrNull(m, "payload")))
    ensures Get(m, "payload").None? ==> Classify(line, Parsed(m)).event.payload == Null
  {
  }

  /**
   * A message without a string `event` but with a `u64` id is a response;
   * it fails exactly when it has an `error` key, with the error's text or
   * "unknown bridge error", and otherwise succeeds with `result` or `null`.
   */
  lemma ResponseReply(line: string, m: Value)
    requires !IsBlank(line)
    requires StrField(m, "event").None? && U64Field(m, "id").Some?
    ensures Classify(line, Parsed(m)).Route?
    ensures Classify(line, Parsed(m)).id == U64Field(m, "id").value
    ensures Classify(line, Parsed(m)).reply.Err? <==> Get(m, "error").Some?
    ensures StrField(m, "error").Some? ==> Classify(line, Parsed(m)).reply == Err(StrField(m, "error").value)
    ensures Get(m, "error").Some? && StrField(m, "error").None? ==>
      Classify(line, Parsed(m)).reply == Err(UNKNOWN_BRIDGE_ERROR)
    ensures Get(m, "error").None? ==> Classify(line, Parsed(m)).reply == Ok(FieldOrNull(m, "result"))
  {
  }

  /** A nonblank line that does not parse fails everything, with the parser's message. */
  lemma UnparsableFailsAll(line: string, error: string)
    requires !IsBlank(line)
    ensures Classify(line, Unparsable(error)) == FailAll(PARSE_ERROR_PREFIX + error)
  {
  }

  /**
   * Valid JSON is dropped only when it has neither a string `event` nor a
   * `u64` id: a negative, fractional, too large or textual id routes nowhere.
   */
  lemma UnroutedExactly(line: string, m: Value)
    requires !IsBlank(line)
    ensures Classify(line, Parsed(m)) == Unrouted <==> StrField(m, "event").None? && U64Field(m, "id").None?
    ensures Get(m, "id") == Some(Int(-1)) && StrField(m, "event").None? ==> Classify(line, Parsed(m)) == Unrouted
  {
  }
}
