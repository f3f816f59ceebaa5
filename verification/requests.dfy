/**
 * The calling platform's tool-call envelope, the exceptions a handler can raise while
 * reading it, and the search for the tool call a handler serves.
 */
module Requests {
  import opened Wrappers
  import opened Sheets

  /** One entry of `message.toolCalls`: its `id`, `function.name` and `function.arguments`. */
  datatype ToolCall = ToolCall(id: string, name: string, arguments: map<string, Value>)

  /** `data["message"]`: `toolCalls` and `call.id`, either of which may be missing. */
  datatype Message = Message(toolCalls: Option<seq<ToolCall>>, callId: Option<string>)

  /**
   * The request body: `message` if present, how many other top-level keys it has, and
   * the text `json.dumps` makes of it.
   */
  datatype Payload = Payload(message: Option<Message>, otherKeys: nat, json: string)
  {
    /** Python's `not data`: the dictionary has no keys at all. */
    predicate IsEmpty()
    {
      message.None? && otherKeys == 0
    }
  }

  /** The exceptions a handler can end in. */
  datatype Failure =
    | MissingToolCalls        // KeyError on data['message']['toolCalls']
    | MissingCallId           // KeyError on data["message"]["call"]["id"] in the logger
    | MissingArgument(key: string)  // KeyError on call['function']['arguments'][key]
    | BadTimestamp(key: string)     // datetime.fromisoformat rejects the value
    | UnboundToolId           // tool_id read although no tool call matched
    | LogStoreFailure         // get_all_records or append_row on the log sheet raised

  /** `data['message']['toolCalls']`. */
  function ToolCalls(data: Payload): (r: Result<seq<ToolCall>, Failure>)
    ensures r.Ok? <==> data.message.Some? && data.message.value.toolCalls.Some?
    ensures r.Ok? ==> r.value == data.message.value.toolCalls.value
    ensures r.Err? ==> r.error == MissingToolCalls
  {
    match data.message
    case None => Err(MissingToolCalls)
    case Some(m) =>
      match m.toolCalls
      case None => Err(MissingToolCalls)
      case Some(calls) => Ok(calls)
  }

  /** The index of the first call named `name`, if there is one. */
  function FirstMatch(calls: seq<ToolCall>, name: string): (r: Option<nat>)
    ensures r.None? <==> forall k :: 0 <= k < |calls| ==> calls[k].name != name
    ensures r.Some? ==> r.value < |calls| && calls[r.value].name == name
    ensures r.Some? ==> forall k :: 0 <= k < r.value ==> calls[k].name != name
  {
    if calls == [] then None
    else if calls[0].name == name then Some(0)
    else match FirstMatch(calls[1..], name)
      case None => None
      case Some(k) => Some(k + 1)
  }

  /** The handlers' `for call in tool_call: if call['function']['name'] == name: ... break`. */
  method FindToolCall(calls: seq<ToolCall>, name: string) returns (found: Option<nat>)
    ensures found == FirstMatch(calls, name)
  {
    found := None;
    var i := 0;
    while i < |calls|
      invariant 0 <= i <= |calls|
      invariant found.None?
      invariant forall k :: 0 <= k < i ==> calls[k].name != name
    {
      if calls[i].name == name {
        found := Some(i);
        break;
      }
      i := i + 1;
    }
  }

  /** `call['function']['arguments'][key]`. */
  function Argument(call: ToolCall, key: string): (r: Result<Value, Failure>)
    ensures r.Ok? <==> key in call.arguments
    ensures r.Ok? ==> r.value == call.arguments[key]
    ensures r.Err? ==> r.error == MissingArgument(key)
  {
    if key in call.arguments then Ok(call.arguments[key]) else Err(MissingArgument(key))
  }

  /** `datetime.fromisoformat` applied to the argument named `key`. */
  function Timestamp(v: Value, key: string): (r: Result<int, Failure>)
    ensures r.Ok? <==> v.Time?
    ensures r.Ok? ==> r.value == v.t
    ensures r.Err? ==> r.error == BadTimestamp(key)
  {
    if v.Time? then Ok(v.t) else Err(BadTimestamp(key))
  }
}
