/** A completed provider response: its validation and what it adds to the history. */
module Response {
  import opened Base
  import opened History
  import opened RequestHistory
  import opened ProviderTurn

  /** What parsing the arguments of a call yields. */
  datatype Arguments = Unparsable | NotAnObject | AnObject

  /** What a response is validated against; `parse` is the JSON parser. */
  datatype Limits = Limits(
    model: Text, known: set<Text>, maxCalls: u64, maxArgumentsBytes: u64, parse: Text -> Arguments)

  datatype ResponseFailure =
    | ResponseIdMissing | ModelDrift | OutputEmpty | CallLimitExceeded | CallIdInvalid
    | ToolUnknown | ArgumentsTooLarge | ArgumentsInvalid | ArgumentsNotObject
    | FinalTextDuplicate

  /** `function_calls`, in output order. */
  function Calls(output: seq<OutputItem>): (calls: seq<OutputItem>)
    ensures forall i :: 0 <= i < |calls| ==> calls[i].Call?
  {
    if output == [] then []
    else if Last(output).Call? then Calls(Front(output)) + [Last(output)]
    else Calls(Front(output))
  }

  function MessageCount(output: seq<OutputItem>): nat {
    if output == [] then 0
    else MessageCount(Front(output)) + if Last(output).Message? then 1 else 0
  }

  /** `final_text`: the first assistant message. */
  function FinalText(output: seq<OutputItem>): Option<Text> {
    if output == [] then None
    else match FinalText(Front(output))
      case Some(text) => Some(text)
      case None => if Last(output).Message? then Some(Last(output).text) else None
  }

  // ---------- validation ----------

  predicate ValidCall(c: OutputItem, l: Limits)
    requires c.Call?
  {
    && c.callId != [] && c.name != [] && c.name in l.known
    && Clamp(|c.argumentsJson|) <= l.maxArgumentsBytes
    && l.parse(c.argumentsJson).AnObject?
  }

  ghost predicate DistinctIds(calls: seq<OutputItem>)
    requires forall i :: 0 <= i < |calls| ==> calls[i].Call?
  {
    forall i, j :: 0 <= i < j < |calls| ==> calls[i].callId != calls[j].callId
  }

  /** Everything the loop may rely on in a validated response. */
  ghost predicate Authoritative(c: CompletedTurn, l: Limits) {
    var calls := Calls(c.output);
    && c.responseId != [] && c.model == l.model && c.output != []
    && Clamp(|calls|) <= l.maxCalls
    && ValidCalls(calls, l)
    && MessageCount(c.output) <= 1
  }

  ghost predicate ValidCalls(calls: seq<OutputItem>, l: Limits)
    requires forall i :: 0 <= i < |calls| ==> calls[i].Call?
  {
    DistinctIds(calls) && forall i :: 0 <= i < |calls| ==> ValidCall(calls[i], l)
  }

  /** The loop over the calls: each with an id of its own, a known tool, and arguments within
      the limit that parse to an object. */
  method CheckCalls(calls: seq<OutputItem>, l: Limits) returns (failure: Option<ResponseFailure>)
    requires forall i :: 0 <= i < |calls| ==> calls[i].Call?
    ensures failure.None? <==> ValidCalls(calls, l)
    ensures failure != Some(CallLimitExceeded)
  {
    var ids: set<Text> := {};
    for i := 0 to |calls|
      invariant forall k :: 0 <= k < i ==> calls[k].callId in ids
      invariant forall id :: id in ids ==> exists k :: 0 <= k < i && calls[k].callId == id
      invariant forall j, k :: 0 <= j < k < i ==> calls[j].callId != calls[k].callId
      invariant forall k :: 0 <= k < i ==> ValidCall(calls[k], l)
    {
      var call := calls[i];
      if call.callId == [] || call.callId in ids { return Some(CallIdInvalid); }
      ids := ids + {call.callId};
      if call.name == [] || call.name !in l.known { return Some(ToolUnknown); }
      if Clamp(|call.argumentsJson|) > l.maxArgumentsBytes { return Some(ArgumentsTooLarge); }
      var parsed := l.parse(call.argumentsJson);
      if parsed.Unparsable? { return Some(ArgumentsInvalid); }
      if parsed.NotAnObject? { return Some(ArgumentsNotObject); }
    }
    return None;
  }

  /** `validate_authoritative`. */
  method ValidateAuthoritative(c: CompletedTurn, l: Limits)
    returns (failure: Option<ResponseFailure>)
    ensures failure.None? <==> Authoritative(c, l)
    ensures failure == Some(CallLimitExceeded) <==>
              && c.responseId != [] && c.model == l.model && c.output != []
              && Clamp(|Calls(c.output)|) > l.maxCalls
  {
    if c.responseId == [] { return Some(ResponseIdMissing); }
    if c.model != l.model { return Some(ModelDrift); }
    if c.output == [] { return Some(OutputEmpty); }
    var calls := Calls(c.output);
    if Clamp(|calls|) > l.maxCalls { return Some(CallLimitExceeded); }
    failure := CheckCalls(calls, l);
    if failure.Some? { return; }
    if MessageCount(c.output) > 1 { return Some(FinalTextDuplicate); }
    return None;
  }

  // ---------- history ----------

  function ToHistory(item: OutputItem): HistoryItem {
    match item
    case Message(text) => AssistantMessage(text)
    case Thought(payload) => Reasoning(payload)
    case Call(callId, name, argumentsJson) => FunctionCall(callId, name, argumentsJson)
  }

  /** `append_output_to`. */
  function HistoryItems(output: seq<OutputItem>): (items: Items)
    ensures |items| == |output|
  {
    seq(|output|, i requires 0 <= i < |output| => ToHistory(output[i]))
  }

  function CallIds(calls: seq<OutputItem>): (ids: seq<Text>)
    requires forall i :: 0 <= i < |calls| ==> calls[i].Call?
    ensures |ids| == |calls|
  {
    seq(|calls|, i requires 0 <= i < |calls| => calls[i].callId)
  }

  lemma {:induction false} CallListed(output: seq<OutputItem>, i: nat)
    requires i < |output| && output[i].Call?
    ensures output[i] in Calls(output)
  {
    if i < |output| - 1 {
      CallListed(Front(output), i);
    }
  }

  /** Every call a response puts into the history is one of its calls. */
  lemma {:induction false} HistoryCallsListed(output: seq<OutputItem>)
    ensures var items := HistoryItems(output);
            forall i :: 0 <= i < |items| && items[i].FunctionCall? ==>
              items[i].callId in CallIds(Calls(output))
  {
    var items, calls := HistoryItems(output), Calls(output);
    forall i | 0 <= i < |items| && items[i].FunctionCall?
      ensures items[i].callId in CallIds(calls)
    {
      CallListed(output, i);
      var k :| 0 <= k < |calls| && calls[k] == output[i];
      assert CallIds(calls)[k] == items[i].callId;
    }
  }

  /** A response without calls only adds plain items. */
  lemma {:induction false} NoCallsArePlain(output: seq<OutputItem>)
    requires Calls(output) == []
    ensures var items := HistoryItems(output);
            forall i :: 0 <= i < |items| ==> Plain(items[i])
  {
    forall i | 0 <= i < |output| ensures !output[i].Call? {
      if output[i].Call? {
        CallListed(output, i);
      }
    }
  }
}
