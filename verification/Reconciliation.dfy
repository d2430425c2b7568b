/** The state machine that reconciles streamed tool calls with the terminal response.
    JSON decoding is outside the model: a frame arrives as the fields the machine reads. */
module Reconciliation {
  import opened Base
  import opened ProviderTurn

  /** A JSON member that is missing (or null), of the wrong type, or present. */
  datatype Field<+T> = Absent | Malformed | Present(value: T)

  datatype StreamItem =
    | HostedItem
    | OtherItem
    | CallItem(callId: Field<Text>, name: Field<Text>, itemId: Field<Text>, arguments: Text)

  datatype Failure =
    | DoneBeforeCompleted | DoneDuplicate | EventAfterCompleted
    | EventJsonInvalid | EventJsonTooDeep | ErrorEnvelope | EventTypeMissing
    | SequenceInvalid | SequenceMismatch
    | ResponseIncomplete | ResponseFailed | ResponseError
    | UnsupportedServerTool | ProtocolUnknown | ModelDrift
    | OutputIndexMissing | OutputItemInvalid | OutputIndexDuplicate | StringFieldInvalid
    | ArgumentsTooLarge | ArgumentsMismatch | ArgumentsWithoutCall | ArgumentsDeltaMissing
    | CallItemMismatch | CallReconciliationFailed
    | CompletedInvalid | ResponseIdMissing | ModelMissing | OutputMissing | UsageCostConflict
    | OutputItemRejected | StreamIncomplete

  /** The `response` object of a completed event; `wellTyped` says that `object` and
      `status` have the required values. */
  datatype ResponseBody = ResponseBody(
    wellTyped: bool, id: Text, model: Option<Text>,
    output: Option<seq<Option<OutputItem>>>, costConflict: bool)

  datatype Event =
    | Completed(response: Option<ResponseBody>)
    | Incomplete
    | Failed
    | Errored
    | ItemAdded(index: Option<u64>, item: Option<StreamItem>)
    | ItemDone(index: Option<u64>, item: Option<StreamItem>)
    | ArgumentsDelta(index: Option<u64>, delta: Option<Text>, itemId: Option<Text>)
    | ArgumentsDone(index: Option<u64>, arguments: Option<Text>, itemId: Option<Text>)
    | Intermediate(model: Option<Text>)
    | HostedTool
    | Unknown

  datatype Json = Json(
    depth: nat, errorWithoutType: bool, sequence: Field<u64>, event: Option<Event>)

  datatype Input = DoneMark | Garbage | Json(json: Json)

  datatype PartialCall = PartialCall(
    callId: Option<Text>, name: Option<Text>, itemId: Option<Text>,
    arguments: Text, sawDelta: bool)

  datatype Stream = Stream(
    nextSequence: Option<u64>, calls: map<u64, PartialCall>,
    completed: Option<CompletedTurn>, done: bool)

  datatype Settings = Settings(model: Text, maxArguments: u64, maxDepth: nat)

  const OPEN := Stream(None, map[], None, false)

  type Next = Result<Stream, Failure>

  // ---------- one event ----------

  function ObserveSequence(s: Stream, sequence: Field<u64>): Next {
    match sequence
    case Absent => Ok(s)
    case Malformed => Err(SequenceInvalid)
    case Present(n) =>
      if s.nextSequence.Some? && s.nextSequence.value != n then Err(SequenceMismatch)
      else if n == U64_MAX then Err(SequenceInvalid)
      else Ok(s.(nextSequence := Some(n + 1)))
  }

  predicate Disagree(a: Option<Text>, b: Option<Text>) {
    a.Some? && b.Some? && a.value != b.value
  }

  function Known(a: Option<Text>, b: Option<Text>): Option<Text> {
    if a.Some? then a else b
  }

  function ToOption(f: Field<Text>): Option<Text> {
    if f.Present? then Some(f.value) else None
  }

  function Candidate(item: StreamItem): PartialCall
    requires item.CallItem?
  {
    PartialCall(ToOption(item.callId), ToOption(item.name), ToOption(item.itemId),
                item.arguments, false)
  }

  /** A later `done` item for an index already streamed. */
  function MergeCall(existing: PartialCall, candidate: PartialCall): Result<PartialCall, Failure> {
    if Disagree(existing.callId, candidate.callId) || Disagree(existing.name, candidate.name)
       || Disagree(existing.itemId, candidate.itemId)
    then Err(CallReconciliationFailed)
    else if candidate.arguments != [] && existing.arguments != candidate.arguments
            && (existing.sawDelta || existing.arguments != [])
    then Err(ArgumentsMismatch)
    else Ok(PartialCall(
      Known(existing.callId, candidate.callId), Known(existing.name, candidate.name),
      Known(existing.itemId, candidate.itemId),
      if candidate.arguments != [] then candidate.arguments else existing.arguments,
      existing.sawDelta))
  }

  function ObserveOutputItem(
      cfg: Settings, s: Stream, index: Option<u64>, item: Option<StreamItem>, added: bool): Next
  {
    if index.None? then Err(OutputIndexMissing)
    else if item.None? then Err(OutputItemInvalid)
    else match item.value
      case HostedItem => Err(UnsupportedServerTool)
      case OtherItem => Ok(s)
      case CallItem(callId, name, itemId, arguments) =>
        if callId.Malformed? || name.Malformed? || itemId.Malformed? then Err(StringFieldInvalid)
        else if |arguments| > cfg.maxArguments then Err(ArgumentsTooLarge)
        else if index.value !in s.calls then
          Ok(s.(calls := s.calls[index.value := Candidate(item.value)]))
        else if added then Err(OutputIndexDuplicate)
        else
          var merged := MergeCall(s.calls[index.value], Candidate(item.value));
          if merged.Err? then Err(merged.error)
          else Ok(s.(calls := s.calls[index.value := merged.value]))
  }

  function ObserveArgumentsDelta(
      cfg: Settings, s: Stream, index: Option<u64>, delta: Option<Text>, itemId: Option<Text>): Next
  {
    if index.None? then Err(OutputIndexMissing)
    else if delta.None? then Err(ArgumentsDeltaMissing)
    else if index.value !in s.calls then Err(ArgumentsWithoutCall)
    else
      var call := s.calls[index.value];
      if Disagree(call.itemId, itemId) then Err(CallItemMismatch)
      else
        var longer := call.(arguments := call.arguments + delta.value, sawDelta := true);
        if |longer.arguments| > cfg.maxArguments then Err(ArgumentsTooLarge)
        else Ok(s.(calls := s.calls[index.value := longer]))
  }

  function ObserveArgumentsDone(
      s: Stream, index: Option<u64>, arguments: Option<Text>, itemId: Option<Text>): Next
  {
    if index.None? then Err(OutputIndexMissing)
    else if index.value !in s.calls then Err(ArgumentsWithoutCall)
    else
      var call := s.calls[index.value];
      if Disagree(call.itemId, itemId) then Err(CallItemMismatch)
      else if arguments.None? then Ok(s)
      else if call.sawDelta && call.arguments != arguments.value then Err(ArgumentsMismatch)
      else Ok(s.(calls := s.calls[index.value := call.(arguments := arguments.value)]))
  }

  /** A terminal item against what was streamed at its index. */
  function ReconcileItem(calls: map<u64, PartialCall>, index: nat, item: OutputItem)
    : Option<Failure>
  {
    if index !in calls then None
    else if !item.Call? then Some(CallReconciliationFailed)
    else
      var partial := calls[index];
      if Disagree(partial.callId, Some(item.callId)) || Disagree(partial.name, Some(item.name))
      then Some(CallReconciliationFailed)
      else if (partial.sawDelta || partial.arguments != [])
              && partial.arguments != item.argumentsJson
      then Some(ArgumentsMismatch)
      else None
  }

  function ReconcileOutput(calls: map<u64, PartialCall>, raw: seq<Option<OutputItem>>)
    : (r: Result<seq<OutputItem>, Failure>)
    ensures r.Ok? ==> |r.value| == |raw|
  {
    if raw == [] then Ok([])
    else
      var before := ReconcileOutput(calls, Front(raw));
      if before.Err? then before
      else if Last(raw).None? then Err(OutputItemRejected)
      else
        var mismatch := ReconcileItem(calls, |raw| - 1, Last(raw).value);
        if mismatch.Some? then Err(mismatch.value) else Ok(before.value + [Last(raw).value])
  }

  function ConsumeCompleted(cfg: Settings, s: Stream, response: Option<ResponseBody>): Next {
    if response.None? || !response.value.wellTyped then Err(CompletedInvalid)
    else
      var body := response.value;
      if body.id == [] then Err(ResponseIdMissing)
      else if body.model.None? then Err(ModelMissing)
      else if body.model.value != cfg.model then Err(ModelDrift)
      else if body.output.None? then Err(OutputMissing)
      else
        var output := ReconcileOutput(s.calls, body.output.value);
        if output.Err? then Err(output.error)
        else if exists index :: index in s.calls && index >= |output.value|
        then Err(CallReconciliationFailed)
        else if body.costConflict then Err(UsageCostConflict)
        else Ok(s.(completed := Some(CompletedTurn(body.id, body.model.value, output.value))))
  }

  function ConsumeEvent(cfg: Settings, s: Stream, event: Event): Next {
    match event
    case Completed(response) => ConsumeCompleted(cfg, s, response)
    case Incomplete => Err(ResponseIncomplete)
    case Failed => Err(ResponseFailed)
    case Errored => Err(ResponseError)
    case ItemAdded(index, item) => ObserveOutputItem(cfg, s, index, item, true)
    case ItemDone(index, item) => ObserveOutputItem(cfg, s, index, item, false)
    case ArgumentsDelta(index, delta, itemId) => ObserveArgumentsDelta(cfg, s, index, delta, itemId)
    case ArgumentsDone(index, arguments, itemId) => ObserveArgumentsDone(s, index, arguments, itemId)
    case Intermediate(model) =>
      if model.Some? && model.value != cfg.model then Err(ModelDrift) else Ok(s)
    case HostedTool => Err(UnsupportedServerTool)
    case Unknown => Err(ProtocolUnknown)
  }

  /** `consume_frame`. */
  function Consume(cfg: Settings, s: Stream, input: Input): Next {
    if input.DoneMark? then
      if s.completed.None? then Err(DoneBeforeCompleted)
      else if s.done then Err(DoneDuplicate)
      else Ok(s.(done := true))
    else if s.completed.Some? then Err(EventAfterCompleted)
    else if input.Garbage? then Err(EventJsonInvalid)
    else if input.json.depth > cfg.maxDepth then Err(EventJsonTooDeep)
    else if input.json.errorWithoutType then Err(ErrorEnvelope)
    else
      var numbered := ObserveSequence(s, input.json.sequence);
      if numbered.Err? then numbered
      else if input.json.event.None? then Err(EventTypeMissing)
      else ConsumeEvent(cfg, numbered.value, input.json.event.value)
  }

  function ConsumeAll(cfg: Settings, inputs: seq<Input>): Next {
    if inputs == [] then Ok(OPEN)
    else
      var before := ConsumeAll(cfg, Front(inputs));
      if before.Err? then before else Consume(cfg, before.value, Last(inputs))
  }

  /** Consuming further inputs from a given state. */
  function ConsumeFrom(cfg: Settings, s: Stream, inputs: seq<Input>): Next {
    if inputs == [] then Ok(s)
    else
      var before := ConsumeFrom(cfg, s, Front(inputs));
      if before.Err? then before else Consume(cfg, before.value, Last(inputs))
  }

  lemma {:induction false} ConsumeAppended(cfg: Settings, a: seq<Input>, b: seq<Input>)
    requires ConsumeAll(cfg, a).Ok?
    ensures ConsumeAll(cfg, a + b) == ConsumeFrom(cfg, ConsumeAll(cfg, a).value, b)
  {
    if b == [] {
      EmptyConcat(a);
    } else {
      ConsumeAppended(cfg, a, Front(b));
      assert Front(a + b) == a + Front(b) && Last(a + b) == Last(b);
    }
  }

  lemma {:induction false} ConsumeFromStops(cfg: Settings, s: Stream, inputs: seq<Input>, i: nat)
    requires i <= |inputs| && ConsumeFrom(cfg, s, inputs[..i]).Err?
    ensures ConsumeFrom(cfg, s, inputs) == ConsumeFrom(cfg, s, inputs[..i])
    decreases |inputs| - i
  {
    if i < |inputs| {
      TakeNext(inputs, i);
      ConsumeFromStops(cfg, s, inputs, i + 1);
    } else {
      assert inputs[..i] == inputs;
    }
  }

  /** `finish`, once every frame has been consumed. */
  function FinishStream(cfg: Settings, inputs: seq<Input>): Result<CompletedTurn, Failure> {
    var end := ConsumeAll(cfg, inputs);
    if end.Err? then Err(end.error)
    else if end.value.completed.None? then Err(StreamIncomplete)
    else Ok(end.value.completed.value)
  }

  // ---------- what a whole stream says ----------

  function EventOf(input: Input): Option<Event> {
    if input.Json? then input.json.event else None
  }

  /** The call item this input streams at `index`, if any. */
  function CallItemAt(input: Input, index: u64): Option<StreamItem> {
    match EventOf(input)
    case Some(ItemAdded(Some(x), Some(item))) =>
      if x == index && item.CallItem? then Some(item) else None
    case Some(ItemDone(Some(x), Some(item))) =>
      if x == index && item.CallItem? then Some(item) else None
    case _ => None
  }

  function DeltaAt(input: Input, index: u64): Option<Text> {
    match EventOf(input)
    case Some(ArgumentsDelta(Some(x), Some(delta), _)) => if x == index then Some(delta) else None
    case _ => None
  }

  function DoneTextAt(input: Input, index: u64): Option<Text> {
    match EventOf(input)
    case Some(ArgumentsDone(Some(x), Some(text), _)) => if x == index then Some(text) else None
    case _ => None
  }

  predicate IsCompletion(input: Input) {
    EventOf(input).Some? && EventOf(input).value.Completed?
  }

  ghost predicate Streamed(inputs: seq<Input>, index: u64) {
    exists i :: 0 <= i < |inputs| && CallItemAt(inputs[i], index).Some?
  }

  ghost predicate SawDelta(inputs: seq<Input>, index: u64) {
    exists i :: 0 <= i < |inputs| && DeltaAt(inputs[i], index).Some?
  }

  /** All deltas of an index, in order. */
  function Deltas(inputs: seq<Input>, index: u64): Text {
    if inputs == [] then []
    else match DeltaAt(Last(inputs), index)
      case Some(delta) => Deltas(Front(inputs), index) + delta
      case None => Deltas(Front(inputs), index)
  }

  /** The last complete argument text given for an index before its first delta. */
  ghost function PreText(inputs: seq<Input>, index: u64): Text {
    if inputs == [] then []
    else
      var before := PreText(Front(inputs), index);
      if SawDelta(Front(inputs), index) then before
      else if CallItemAt(Last(inputs), index).Some?
              && CallItemAt(Last(inputs), index).value.arguments != []
      then CallItemAt(Last(inputs), index).value.arguments
      else if DoneTextAt(Last(inputs), index).Some? then DoneTextAt(Last(inputs), index).value
      else before
  }

  /** The sequence numbers present in the stream, in order. */
  function Numbers(inputs: seq<Input>): seq<nat> {
    if inputs == [] then []
    else if Last(inputs).Json? && Last(inputs).json.sequence.Present? then
      Numbers(Front(inputs)) + [Last(inputs).json.sequence.value]
    else Numbers(Front(inputs))
  }

  ghost predicate Consecutive(numbers: seq<nat>) {
    forall j, k :: 0 <= j <= k < |numbers| ==> numbers[k] == numbers[j] + (k - j)
  }

  /** The tracked state of one index is exactly what the stream said about it. */
  ghost predicate Tracks(inputs: seq<Input>, index: u64, calls: map<u64, PartialCall>) {
    && (index in calls <==> Streamed(inputs, index))
    && (index in calls ==>
          && calls[index].sawDelta == SawDelta(inputs, index)
          && calls[index].arguments == PreText(inputs, index) + Deltas(inputs, index)
          && Agrees(inputs, index, calls[index]))
    && (index !in calls ==>
          !SawDelta(inputs, index) && PreText(inputs, index) == [] && Deltas(inputs, index) == [])
  }

  /** Every id and name the stream gave for an index is the one recorded. */
  ghost predicate Agrees(inputs: seq<Input>, index: u64, call: PartialCall) {
    forall i :: 0 <= i < |inputs| && CallItemAt(inputs[i], index).Some? ==>
      ItemAgrees(CallItemAt(inputs[i], index).value, call)
  }

  predicate ItemAgrees(item: StreamItem, call: PartialCall)
    requires item.CallItem?
  {
    && (item.callId.Present? ==> call.callId == Some(item.callId.value))
    && (item.name.Present? ==> call.name == Some(item.name.value))
  }

  lemma {:induction false} QuantifyLast(inputs: seq<Input>, index: u64)
    requires inputs != []
    ensures Streamed(inputs, index) <==>
      Streamed(Front(inputs), index) || CallItemAt(Last(inputs), index).Some?
    ensures SawDelta(inputs, index) <==>
      SawDelta(Front(inputs), index) || DeltaAt(Last(inputs), index).Some?
  {
    FrontLast(inputs);
    assert inputs[|inputs| - 1] == Last(inputs);
    assert forall i :: 0 <= i < |inputs| - 1 ==> Front(inputs)[i] == inputs[i];
  }

  lemma {:induction false} AgreesLast(inputs: seq<Input>, index: u64, call: PartialCall)
    requires inputs != []
    ensures Agrees(inputs, index, call) <==>
      && Agrees(Front(inputs), index, call)
      && (CallItemAt(Last(inputs), index).Some? ==>
            ItemAgrees(CallItemAt(Last(inputs), index).value, call))
  {
    assert inputs[|inputs| - 1] == Last(inputs);
    assert forall i :: 0 <= i < |inputs| - 1 ==> Front(inputs)[i] == inputs[i];
  }

  /** Recording more about a call never contradicts what was said before. */
  lemma {:induction false} AgreesGrows(inputs: seq<Input>, index: u64, a: PartialCall, b: PartialCall)
    requires Agrees(inputs, index, a)
    requires a.callId.Some? ==> b.callId == a.callId
    requires a.name.Some? ==> b.name == a.name
    ensures Agrees(inputs, index, b)
  {
  }

  lemma {:induction false} NothingSaid(inputs: seq<Input>, index: u64, call: PartialCall)
    requires !Streamed(inputs, index)
    ensures Agrees(inputs, index, call)
  {
  }

  /** An input that says nothing about an index leaves its record alone. */
  lemma {:induction false} TracksSilent(inputs: seq<Input>, index: u64, calls: map<u64, PartialCall>)
    requires inputs != [] && Tracks(Front(inputs), index, calls)
    requires CallItemAt(Last(inputs), index).None?
    requires DeltaAt(Last(inputs), index).None?
    requires DoneTextAt(Last(inputs), index).None?
    ensures Tracks(inputs, index, calls)
  {
    QuantifyLast(inputs, index);
    EmptyConcat(Deltas(Front(inputs), index));
    if index in calls {
      AgreesLast(inputs, index, calls[index]);
    }
  }

  lemma {:induction false} TracksFrame(inputs: seq<Input>, index: u64,
                                       a: map<u64, PartialCall>, b: map<u64, PartialCall>)
    requires Tracks(inputs, index, a)
    requires index in a <==> index in b
    requires index in a ==> a[index] == b[index]
    ensures Tracks(inputs, index, b)
  {
  }

  lemma {:induction false} TracksItem(cfg: Settings, inputs: seq<Input>, s: Stream, index: u64,
                                      item: StreamItem, added: bool)
    requires inputs != [] && Tracks(Front(inputs), index, s.calls)
    requires item.CallItem? && CallItemAt(Last(inputs), index) == Some(item)
    requires ObserveOutputItem(cfg, s, Some(index), Some(item), added).Ok?
    ensures Tracks(inputs, index, ObserveOutputItem(cfg, s, Some(index), Some(item), added).value.calls)
  {
    var front := Front(inputs);
    var call := ObserveOutputItem(cfg, s, Some(index), Some(item), added).value.calls[index];
    QuantifyLast(inputs, index);
    EmptyConcat(Deltas(front, index));
    AgreesLast(inputs, index, call);
    if index in s.calls {
      AgreesGrows(front, index, s.calls[index], call);
      MergedText(s.calls[index], Candidate(item), PreText(front, index), Deltas(front, index));
      if !SawDelta(front, index) {
        NoDeltas(front, index);
      }
    } else {
      NothingSaid(front, index, call);
    }
    EmptyConcat(PreText(inputs, index));
  }

  lemma {:induction false} NoDeltas(inputs: seq<Input>, index: u64)
    requires !SawDelta(inputs, index)
    ensures Deltas(inputs, index) == []
  {
    if inputs != [] {
      QuantifyLast(inputs, index);
      NoDeltas(Front(inputs), index);
    }
  }

  lemma {:induction false} MergedText(existing: PartialCall, candidate: PartialCall, pre: Text, deltas: Text)
    requires MergeCall(existing, candidate).Ok?
    requires existing.arguments == pre + deltas
    ensures existing.sawDelta ==>
      MergeCall(existing, candidate).value.arguments == existing.arguments
    ensures !existing.sawDelta ==>
      MergeCall(existing, candidate).value.arguments ==
        if candidate.arguments != [] then candidate.arguments else existing.arguments
  {
  }

  lemma {:induction false} TracksDelta(cfg: Settings, inputs: seq<Input>, s: Stream, index: u64,
                                       delta: Text, itemId: Option<Text>)
    requires inputs != [] && Tracks(Front(inputs), index, s.calls)
    requires DeltaAt(Last(inputs), index) == Some(delta)
    requires ObserveArgumentsDelta(cfg, s, Some(index), Some(delta), itemId).Ok?
    ensures Tracks(inputs, index,
                   ObserveArgumentsDelta(cfg, s, Some(index), Some(delta), itemId).value.calls)
  {
    var front := Front(inputs);
    var call := ObserveArgumentsDelta(cfg, s, Some(index), Some(delta), itemId).value.calls[index];
    QuantifyLast(inputs, index);
    AgreesLast(inputs, index, call);
    AgreesGrows(front, index, s.calls[index], call);
    assert PreText(front, index) + Deltas(front, index) + delta
        == PreText(front, index) + (Deltas(front, index) + delta);
  }

  lemma {:induction false} TracksDone(inputs: seq<Input>, s: Stream, index: u64,
                                      text: Text, itemId: Option<Text>)
    requires inputs != [] && Tracks(Front(inputs), index, s.calls)
    requires DoneTextAt(Last(inputs), index) == Some(text)
    requires ObserveArgumentsDone(s, Some(index), Some(text), itemId).Ok?
    ensures Tracks(inputs, index,
                   ObserveArgumentsDone(s, Some(index), Some(text), itemId).value.calls)
  {
    var front := Front(inputs);
    var call := ObserveArgumentsDone(s, Some(index), Some(text), itemId).value.calls[index];
    QuantifyLast(inputs, index);
    EmptyConcat(Deltas(front, index));
    AgreesLast(inputs, index, call);
    AgreesGrows(front, index, s.calls[index], call);
    if !SawDelta(front, index) {
      NoDeltas(front, index);
      EmptyConcat(text);
    }
  }

  lemma {:induction false} TracksEvent(cfg: Settings, inputs: seq<Input>, s: Stream, index: u64)
    requires inputs != [] && EventOf(Last(inputs)).Some?
    requires Tracks(Front(inputs), index, s.calls)
    requires ConsumeEvent(cfg, s, EventOf(Last(inputs)).value).Ok?
    ensures Tracks(inputs, index, ConsumeEvent(cfg, s, EventOf(Last(inputs)).value).value.calls)
  {
    var after := ConsumeEvent(cfg, s, EventOf(Last(inputs)).value).value.calls;
    match EventOf(Last(inputs)).value
    case ItemAdded(Some(x), Some(item)) =>
      if x == index && item.CallItem? {
        TracksItem(cfg, inputs, s, index, item, true);
      } else {
        TracksSilent(inputs, index, s.calls);
        TracksFrame(inputs, index, s.calls, after);
      }
    case ItemDone(Some(x), Some(item)) =>
      if x == index && item.CallItem? {
        TracksItem(cfg, inputs, s, index, item, false);
      } else {
        TracksSilent(inputs, index, s.calls);
        TracksFrame(inputs, index, s.calls, after);
      }
    case ArgumentsDelta(Some(x), Some(delta), itemId) =>
      if x == index {
        TracksDelta(cfg, inputs, s, index, delta, itemId);
      } else {
        TracksSilent(inputs, index, s.calls);
        TracksFrame(inputs, index, s.calls, after);
      }
    case ArgumentsDone(Some(x), Some(text), itemId) =>
      if x == index {
        TracksDone(inputs, s, index, text, itemId);
      } else {
        TracksSilent(inputs, index, s.calls);
        TracksFrame(inputs, index, s.calls, after);
      }
    case _ =>
      TracksSilent(inputs, index, s.calls);
      TracksFrame(inputs, index, s.calls, after);
  }

  /** After any accepted stream, the record of every index is what the stream said. */
  lemma {:induction false} StreamTracked(cfg: Settings, inputs: seq<Input>, index: u64)
    requires ConsumeAll(cfg, inputs).Ok?
    ensures Tracks(inputs, index, ConsumeAll(cfg, inputs).value.calls)
  {
    if inputs != [] {
      StreamTracked(cfg, Front(inputs), index);
      var s := ConsumeAll(cfg, Front(inputs)).value;
      if Last(inputs).DoneMark? {
        TracksSilent(inputs, index, s.calls);
      } else {
        TracksEvent(cfg, inputs, ObserveSequence(s, Last(inputs).json.sequence).value, index);
      }
    }
  }

  // ---------- sequence numbers and shape ----------

  /** How an accepted input moves the sequence, completion and done marks. */
  ghost predicate StepMarks(s: Stream, input: Input, t: Stream) {
    if input.DoneMark? then s.completed.Some? && !s.done && t == s.(done := true)
    else
      && input.Json? && s.completed.None? && t.done == s.done
      && (t.completed.Some? <==> IsCompletion(input))
      && (match input.json.sequence
          case Absent => t.nextSequence == s.nextSequence
          case Malformed => false
          case Present(n) =>
            && (s.nextSequence.Some? ==> s.nextSequence.value == n)
            && n < U64_MAX && t.nextSequence == Some(n + 1))
  }

  lemma {:induction false} ConsumeMarks(cfg: Settings, s: Stream, input: Input)
    requires Consume(cfg, s, input).Ok?
    ensures StepMarks(s, input, Consume(cfg, s, input).value)
  {
    if input.Json? {
      EventCompletes(cfg, ObserveSequence(s, input.json.sequence).value, input.json.event.value);
    }
  }

  lemma {:induction false} EventCompletes(cfg: Settings, s: Stream, event: Event)
    requires ConsumeEvent(cfg, s, event).Ok? && s.completed.None?
    ensures ConsumeEvent(cfg, s, event).value.completed.Some? <==> event.Completed?
    ensures ConsumeEvent(cfg, s, event).value.done == s.done
    ensures ConsumeEvent(cfg, s, event).value.nextSequence == s.nextSequence
    ensures event.Completed? ==> ConsumeEvent(cfg, s, event).value.calls == s.calls
  {
  }

  ghost predicate SequenceFits(numbers: seq<nat>, next: Option<u64>) {
    && Consecutive(numbers)
    && if numbers == [] then next.None? else next == Some(Last(numbers) + 1)
  }

  lemma {:induction false} SequenceSnoc(numbers: seq<nat>, next: Option<u64>, n: u64)
    requires SequenceFits(numbers, next) && (next.Some? ==> next.value == n) && n < U64_MAX
    ensures SequenceFits(numbers + [n], Some(n + 1))
  {
    SnocParts(numbers, n);
  }

  lemma {:induction false} NumbersLast(inputs: seq<Input>)
    requires inputs != []
    ensures Numbers(inputs) ==
      if Last(inputs).Json? && Last(inputs).json.sequence.Present?
      then Numbers(Front(inputs)) + [Last(inputs).json.sequence.value]
      else Numbers(Front(inputs))
  {
  }

  /** Present sequence numbers are consecutive. */
  lemma {:induction false} SequenceTracked(cfg: Settings, inputs: seq<Input>)
    requires ConsumeAll(cfg, inputs).Ok?
    ensures SequenceFits(Numbers(inputs), ConsumeAll(cfg, inputs).value.nextSequence)
  {
    if inputs != [] {
      SequenceTracked(cfg, Front(inputs));
      var s := ConsumeAll(cfg, Front(inputs)).value;
      ConsumeMarks(cfg, s, Last(inputs));
      SequenceStep(inputs, s, ConsumeAll(cfg, inputs).value);
    }
  }

  lemma {:induction false} SequenceStep(inputs: seq<Input>, s: Stream, t: Stream)
    requires inputs != [] && SequenceFits(Numbers(Front(inputs)), s.nextSequence)
    requires StepMarks(s, Last(inputs), t)
    ensures SequenceFits(Numbers(inputs), t.nextSequence)
  {
    NumbersLast(inputs);
    if Last(inputs).Json? && Last(inputs).json.sequence.Present? {
      SequenceSnoc(Numbers(Front(inputs)), s.nextSequence, Last(inputs).json.sequence.value);
    }
  }

  // ---------- the terminal response ----------

  /** The shape of an accepted stream: JSON events only, then at most one completion, and
      after the completion at most one done mark. */
  ghost predicate Shaped(inputs: seq<Input>, s: Stream, k: nat) {
    && k <= |inputs|
    && (forall i :: 0 <= i < k ==> inputs[i].Json? && !IsCompletion(inputs[i]))
    && (if s.completed.None? then k == |inputs| && !s.done
        else
          && k < |inputs| && IsCompletion(inputs[k])
          && |inputs| == k + 1 + (if s.done then 1 else 0)
          && (s.done ==> inputs[k + 1].DoneMark?))
  }

  lemma {:induction false} ShapeStep(inputs: seq<Input>, s: Stream, t: Stream, k: nat)
    returns (m: nat)
    requires inputs != [] && Shaped(Front(inputs), s, k) && StepMarks(s, Last(inputs), t)
    ensures Shaped(inputs, t, m)
  {
    FrontLast(inputs);
    m := if t.completed.None? then |inputs| else k;
  }

  lemma {:induction false} StreamShape(cfg: Settings, inputs: seq<Input>) returns (k: nat)
    requires ConsumeAll(cfg, inputs).Ok?
    ensures Shaped(inputs, ConsumeAll(cfg, inputs).value, k)
  {
    if inputs == [] {
      k := 0;
    } else {
      k := StreamShape(cfg, Front(inputs));
      var s := ConsumeAll(cfg, Front(inputs)).value;
      ConsumeMarks(cfg, s, Last(inputs));
      k := ShapeStep(inputs, s, ConsumeAll(cfg, inputs).value, k);
    }
  }

  /** Every streamed call matches the terminal output at its index. */
  ghost predicate Matches(calls: map<u64, PartialCall>, output: seq<OutputItem>) {
    forall index :: index in calls ==>
      index < |output| && ReconcileItem(calls, index, output[index]).None?
  }

  lemma {:induction false} ReconcileEach(
      calls: map<u64, PartialCall>, raw: seq<Option<OutputItem>>, i: nat)
    requires ReconcileOutput(calls, raw).Ok? && i < |raw|
    ensures ReconcileItem(calls, i, ReconcileOutput(calls, raw).value[i]).None?
  {
    if i < |raw| - 1 {
      ReconcileEach(calls, Front(raw), i);
    }
  }

  lemma {:induction false} CompletionMatches(cfg: Settings, s: Stream, response: Option<ResponseBody>)
    requires ConsumeCompleted(cfg, s, response).Ok?
    ensures Matches(s.calls, ConsumeCompleted(cfg, s, response).value.completed.value.output)
  {
    var output := ReconcileOutput(s.calls, response.value.output.value).value;
    forall index | index in s.calls
      ensures index < |output| && ReconcileItem(s.calls, index, output[index]).None?
    {
      ReconcileEach(s.calls, response.value.output.value, index);
    }
  }

  lemma {:induction false} CompletedStreamMatches(cfg: Settings, inputs: seq<Input>)
    requires ConsumeAll(cfg, inputs).Ok? && ConsumeAll(cfg, inputs).value.completed.Some?
    ensures
      var s := ConsumeAll(cfg, inputs).value;
      Matches(s.calls, s.completed.value.output)
  {
    var s := ConsumeAll(cfg, Front(inputs)).value;
    if Last(inputs).DoneMark? {
      CompletedStreamMatches(cfg, Front(inputs));
    } else {
      var numbered := ObserveSequence(s, Last(inputs).json.sequence).value;
      var event := Last(inputs).json.event.value;
      EventCompletes(cfg, numbered, event);
      CompletionMatches(cfg, numbered, event.response);
    }
  }

  /** What the terminal output says about an index that was streamed as a call. */
  ghost predicate Reconciled(inputs: seq<Input>, index: u64, output: seq<OutputItem>) {
    && index < |output|
    && output[index].Call?
    && (forall i :: 0 <= i < |inputs| && CallItemAt(inputs[i], index).Some? ==>
          var item := CallItemAt(inputs[i], index).value;
          && (item.callId.Present? ==> item.callId.value == output[index].callId)
          && (item.name.Present? ==> item.name.value == output[index].name))
    && (SawDelta(inputs, index) ==>
          output[index].argumentsJson == PreText(inputs, index) + Deltas(inputs, index))
    && (!SawDelta(inputs, index) && PreText(inputs, index) != [] ==>
          output[index].argumentsJson == PreText(inputs, index))
  }

  /** If a stream finishes with a turn, then it is a sequence of JSON events, exactly one
      of them the completion, followed by at most one done mark; its sequence numbers are
      consecutive; and every index streamed as a call is a call of the terminal output
      with the streamed id, name and argument text. */
  lemma {:induction false} FinishedStreamReconciled(cfg: Settings, inputs: seq<Input>)
    requires FinishStream(cfg, inputs).Ok?
    ensures Consecutive(Numbers(inputs))
    ensures exists k: nat ::
      && k < |inputs| && IsCompletion(inputs[k])
      && (forall i :: 0 <= i < k ==> inputs[i].Json? && !IsCompletion(inputs[i]))
      && (inputs[k + 1..] == [] || inputs[k + 1..] == [DoneMark])
    ensures forall index :: Streamed(inputs, index) ==>
      Reconciled(inputs, index, FinishStream(cfg, inputs).value.output)
  {
    SequenceTracked(cfg, inputs);
    var k := StreamShape(cfg, inputs);
    assert inputs[k + 1..] == [] || inputs[k + 1..] == [DoneMark];
    forall index | Streamed(inputs, index)
      ensures Reconciled(inputs, index, FinishStream(cfg, inputs).value.output)
    {
      StreamedIndexReconciled(cfg, inputs, index);
    }
  }

  lemma {:induction false} StreamedIndexReconciled(cfg: Settings, inputs: seq<Input>, index: u64)
    requires FinishStream(cfg, inputs).Ok? && Streamed(inputs, index)
    ensures Reconciled(inputs, index, FinishStream(cfg, inputs).value.output)
  {
    StreamTracked(cfg, inputs, index);
    CompletedStreamMatches(cfg, inputs);
    if !SawDelta(inputs, index) {
      NoDeltas(inputs, index);
      EmptyConcat(PreText(inputs, index));
    }
  }
}
