/** The response stream object: decoder, reconciler and their composition. */
module ResponseStreamObject {
  import opened Base
  import Decoding = SseDecoding
  import opened SseDecoderObject
  import opened ProviderTurn
  import opened Reconciliation

  datatype StreamFault = DecodingFault(decoding: Decoding.Failure) | ProtocolFault(protocol: Failure)

  const DONE_FRAME: Text := Ascii("[DONE]")

  /** A frame is the done mark, JSON, or neither. */
  function InputOf(parse: Text -> Option<Reconciliation.Json>, frame: Text): Input {
    if frame == DONE_FRAME then DoneMark
    else if parse(frame).None? then Garbage
    else Input.Json(parse(frame).value)
  }

  function InputsOf(parse: Text -> Option<Reconciliation.Json>, frames: seq<Text>): (r: seq<Input>)
    ensures |r| == |frames|
  {
    if frames == [] then [] else InputsOf(parse, Front(frames)) + [InputOf(parse, Last(frames))]
  }

  lemma {:induction false} InputsConcat(
      parse: Text -> Option<Reconciliation.Json>, a: seq<Text>, b: seq<Text>)
    ensures InputsOf(parse, a + b) == InputsOf(parse, a) + InputsOf(parse, b)
  {
    if b == [] {
      EmptyConcat(a);
      EmptyConcat(InputsOf(parse, a));
    } else {
      InputsConcat(parse, a, Front(b));
      assert Front(a + b) == a + Front(b) && Last(a + b) == Last(b);
      assert InputsOf(parse, a) + InputsOf(parse, Front(b)) + [InputOf(parse, Last(b))]
          == InputsOf(parse, a) + InputsOf(parse, b);
    }
  }

  lemma {:induction false} InputsPrefix(
      parse: Text -> Option<Reconciliation.Json>, frames: seq<Text>, i: nat)
    requires i <= |frames|
    ensures InputsOf(parse, frames[..i]) == InputsOf(parse, frames)[..i]
    ensures i < |frames| ==> InputsOf(parse, frames)[i] == InputOf(parse, frames[i])
  {
    SplitAt(frames, i);
    InputsConcat(parse, frames[..i], frames[i..]);
    if i < |frames| {
      TakeNext(frames, i);
      InputsConcat(parse, frames[..i + 1], frames[i + 1..]);
      SplitAt(frames, i + 1);
    }
  }

  lemma {:induction false} ConsumeNext(
      cfg: Settings, start: Stream, inputs: seq<Input>, i: nat, s: Stream)
    requires i < |inputs| && ConsumeFrom(cfg, start, inputs[..i]) == Ok(s)
    ensures ConsumeFrom(cfg, start, inputs[..i + 1]) == Consume(cfg, s, inputs[i])
  {
    TakeNext(inputs, i);
  }

  class ResponseStream {
    const cfg: Settings
    const parse: Text -> Option<Reconciliation.Json>
    const decoder: SseDecoder
    var nextSequence: Option<u64>
    var partialCalls: map<u64, PartialCall>
    var completed: Option<CompletedTurn>
    var done: bool
    /** The chunks fed so far and the frames they decoded to. */
    ghost var chunks: seq<Text>
    ghost var frames: seq<Text>

    function View(): Stream
      reads this
    {
      Stream(nextSequence, partialCalls, completed, done)
    }

    /** The object is in the state that all bytes fed so far lead to. */
    ghost predicate Valid()
      reads this, decoder
    {
      && Decoding.FeedAll(decoder.lim, chunks) == Ok((decoder.View(), frames))
      && ConsumeAll(cfg, InputsOf(parse, frames)) == Ok(View())
    }

    constructor (cfg: Settings, lim: Decoding.Limits, parse: Text -> Option<Reconciliation.Json>)
      ensures Valid() && fresh(decoder) && this.cfg == cfg && this.parse == parse
      ensures decoder.lim == lim && chunks == []
    {
      this.cfg, this.parse := cfg, parse;
      decoder := new SseDecoder(lim);
      nextSequence, partialCalls, completed, done := None, map[], None, false;
      chunks, frames := [], [];
    }

    /** Feeds one chunk and consumes the frames it completes. */
    method Feed(bytes: Text) returns (fault: Option<StreamFault>)
      requires Valid()
      modifies this, decoder
      ensures
        match Decoding.FeedAll(decoder.lim, old(chunks) + [bytes])
        case Err(e) => fault == Some(DecodingFault(e))
        case Ok((_, all)) =>
          match ConsumeAll(cfg, InputsOf(parse, all))
          case Err(e) => fault == Some(ProtocolFault(e))
          case Ok(_) => fault.None? && Valid() && chunks == old(chunks) + [bytes] && frames == all
    {
      SnocParts(chunks, bytes);
      var decoded := decoder.Feed(bytes);
      if decoded.Err? {
        return Some(DecodingFault(decoded.error));
      }
      chunks := chunks + [bytes];
      var broken := ConsumeFrames(decoded.value);
      return if broken.Some? then Some(ProtocolFault(broken.value)) else None;
    }

    /** Consumes the frames of the last event and yields the completed turn. */
    method Finish() returns (r: Result<CompletedTurn, StreamFault>)
      requires Valid()
      modifies this, decoder
      ensures
        match Decoding.Finish(decoder.lim, old(decoder.View()))
        case Err(e) => r == Err(DecodingFault(e))
        case Ok((_, last)) =>
          match FinishStream(cfg, InputsOf(parse, old(frames) + last))
          case Err(e) => r == Err(ProtocolFault(e))
          case Ok(turn) => r == Ok(turn)
    {
      var decoded := decoder.Finish();
      if decoded.Err? {
        return Err(DecodingFault(decoded.error));
      }
      var broken := ConsumeFrames(decoded.value);
      if broken.Some? {
        return Err(ProtocolFault(broken.value));
      }
      if completed.None? {
        return Err(ProtocolFault(StreamIncomplete));
      }
      return Ok(completed.value);
    }

    method ConsumeFrames(batch: seq<Text>) returns (fault: Option<Failure>)
      requires ConsumeAll(cfg, InputsOf(parse, frames)) == Ok(View())
      modifies this
      ensures chunks == old(chunks) && frames == old(frames) + batch
      ensures Reports(ConsumeAll(cfg, InputsOf(parse, frames)), fault)
    {
      ghost var inputs := InputsOf(parse, batch);
      frames := frames + batch;
      InputsConcat(parse, old(frames), batch);
      ConsumeAppended(cfg, InputsOf(parse, old(frames)), inputs);
      for i := 0 to |batch|
        invariant frames == old(frames) + batch && chunks == old(chunks)
        invariant ConsumeFrom(cfg, old(View()), inputs[..i]) == Ok(View())
      {
        InputsPrefix(parse, batch, i);
        ConsumeNext(cfg, old(View()), inputs, i, View());
        fault := ConsumeFrame(batch[i]);
        if fault.Some? {
          ConsumeFromStops(cfg, old(View()), inputs, i + 1);
          return;
        }
      }
      TakeAll(inputs);
      return None;
    }

    /** The method failed with the specified error, or succeeded in the specified state. */
    ghost predicate Reports(spec: Next, fault: Option<Failure>)
      reads this
    {
      match spec
      case Ok(s) => fault.None? && View() == s
      case Err(e) => fault == Some(e)
    }

    method ConsumeFrame(frame: Text) returns (fault: Option<Failure>)
      modifies this`nextSequence, this`partialCalls, this`completed, this`done
      ensures Reports(Consume(cfg, old(View()), InputOf(parse, frame)), fault)
    {
      if frame == DONE_FRAME {
        if completed.None? {
          return Some(DoneBeforeCompleted);
        }
        if done {
          return Some(DoneDuplicate);
        }
        done := true;
        return None;
      }
      if completed.Some? {
        return Some(EventAfterCompleted);
      }
      var parsed := parse(frame);
      if parsed.None? {
        return Some(EventJsonInvalid);
      }
      if parsed.value.depth > cfg.maxDepth {
        return Some(EventJsonTooDeep);
      }
      if parsed.value.errorWithoutType {
        return Some(ErrorEnvelope);
      }
      fault := ObserveSequenceNumber(parsed.value.sequence);
      if fault.Some? {
        return;
      }
      if parsed.value.event.None? {
        return Some(EventTypeMissing);
      }
      fault := ObserveEvent(parsed.value.event.value);
    }

    method ObserveEvent(event: Event) returns (fault: Option<Failure>)
      modifies this`partialCalls, this`completed
      ensures Reports(ConsumeEvent(cfg, old(View()), event), fault)
    {
      match event
      case Completed(response) => fault := CompleteTurn(response);
      case Incomplete => fault := Some(ResponseIncomplete);
      case Failed => fault := Some(ResponseFailed);
      case Errored => fault := Some(ResponseError);
      case ItemAdded(index, item) => fault := ObserveItem(index, item, true);
      case ItemDone(index, item) => fault := ObserveItem(index, item, false);
      case ArgumentsDelta(index, delta, itemId) => fault := AppendArguments(index, delta, itemId);
      case ArgumentsDone(index, arguments, itemId) => fault := SetArguments(index, arguments, itemId);
      case Intermediate(model) =>
        fault := if model.Some? && model.value != cfg.model then Some(ModelDrift) else None;
      case HostedTool => fault := Some(UnsupportedServerTool);
      case Unknown => fault := Some(ProtocolUnknown);
    }

    method ObserveSequenceNumber(sequence: Field<u64>) returns (fault: Option<Failure>)
      modifies this`nextSequence
      ensures Reports(ObserveSequence(old(View()), sequence), fault)
    {
      match sequence
      case Absent => fault := None;
      case Malformed => fault := Some(SequenceInvalid);
      case Present(n) =>
        if nextSequence.Some? && nextSequence.value != n {
          return Some(SequenceMismatch);
        }
        if n == U64_MAX {
          return Some(SequenceInvalid);
        }
        nextSequence := Some(n + 1);
        fault := None;
    }

    method ObserveItem(index: Option<u64>, item: Option<StreamItem>, added: bool)
      returns (fault: Option<Failure>)
      modifies this`partialCalls
      ensures Reports(ObserveOutputItem(cfg, old(View()), index, item, added), fault)
    {
      if index.None? {
        return Some(OutputIndexMissing);
      }
      if item.None? {
        return Some(OutputItemInvalid);
      }
      if item.value.HostedItem? {
        return Some(UnsupportedServerTool);
      }
      if item.value.OtherItem? {
        return None;
      }
      var call := item.value;
      if call.callId.Malformed? || call.name.Malformed? || call.itemId.Malformed? {
        return Some(StringFieldInvalid);
      }
      if |call.arguments| > cfg.maxArguments {
        return Some(ArgumentsTooLarge);
      }
      if index.value !in partialCalls {
        partialCalls := partialCalls[index.value := Candidate(call)];
        return None;
      }
      if added {
        return Some(OutputIndexDuplicate);
      }
      var merged := MergeCall(partialCalls[index.value], Candidate(call));
      if merged.Err? {
        return Some(merged.error);
      }
      partialCalls := partialCalls[index.value := merged.value];
      return None;
    }

    method AppendArguments(index: Option<u64>, delta: Option<Text>, itemId: Option<Text>)
      returns (fault: Option<Failure>)
      modifies this`partialCalls
      ensures Reports(ObserveArgumentsDelta(cfg, old(View()), index, delta, itemId), fault)
    {
      if index.None? {
        return Some(OutputIndexMissing);
      }
      if delta.None? {
        return Some(ArgumentsDeltaMissing);
      }
      if index.value !in partialCalls {
        return Some(ArgumentsWithoutCall);
      }
      var call := partialCalls[index.value];
      if Disagree(call.itemId, itemId) {
        return Some(CallItemMismatch);
      }
      call := call.(arguments := call.arguments + delta.value, sawDelta := true);
      partialCalls := partialCalls[index.value := call];
      return if |call.arguments| > cfg.maxArguments then Some(ArgumentsTooLarge) else None;
    }

    method SetArguments(index: Option<u64>, arguments: Option<Text>, itemId: Option<Text>)
      returns (fault: Option<Failure>)
      modifies this`partialCalls
      ensures Reports(ObserveArgumentsDone(old(View()), index, arguments, itemId), fault)
    {
      if index.None? {
        return Some(OutputIndexMissing);
      }
      if index.value !in partialCalls {
        return Some(ArgumentsWithoutCall);
      }
      var call := partialCalls[index.value];
      if Disagree(call.itemId, itemId) {
        return Some(CallItemMismatch);
      }
      if arguments.None? {
        return None;
      }
      if call.sawDelta && call.arguments != arguments.value {
        return Some(ArgumentsMismatch);
      }
      partialCalls := partialCalls[index.value := call.(arguments := arguments.value)];
      return None;
    }

    method CompleteTurn(response: Option<ResponseBody>) returns (fault: Option<Failure>)
      modifies this`completed
      ensures Reports(ConsumeCompleted(cfg, old(View()), response), fault)
    {
      if response.None? || !response.value.wellTyped {
        return Some(CompletedInvalid);
      }
      var body := response.value;
      if body.id == [] {
        return Some(ResponseIdMissing);
      }
      if body.model.None? {
        return Some(ModelMissing);
      }
      if body.model.value != cfg.model {
        return Some(ModelDrift);
      }
      if body.output.None? {
        return Some(OutputMissing);
      }
      var output := ReconcileTerminal(body.output.value);
      if output.Err? {
        return Some(output.error);
      }
      if index :| index in partialCalls && index >= |output.value| {
        return Some(CallReconciliationFailed);
      }
      if body.costConflict {
        return Some(UsageCostConflict);
      }
      completed := Some(CompletedTurn(body.id, body.model.value, output.value));
      return None;
    }

    method ReconcileTerminal(raw: seq<Option<OutputItem>>)
      returns (r: Result<seq<OutputItem>, Failure>)
      ensures r == ReconcileOutput(partialCalls, raw)
    {
      var output: seq<OutputItem> := [];
      for i := 0 to |raw|
        invariant ReconcileOutput(partialCalls, raw[..i]) == Ok(output)
      {
        TakeNext(raw, i);
        if raw[i].None? {
          ReconcileStops(partialCalls, raw, i + 1);
          return Err(OutputItemRejected);
        }
        var mismatch := ReconcileItem(partialCalls, i, raw[i].value);
        if mismatch.Some? {
          ReconcileStops(partialCalls, raw, i + 1);
          return Err(mismatch.value);
        }
        output := output + [raw[i].value];
      }
      assert raw[..|raw|] == raw;
      return Ok(output);
    }
  }

  lemma {:induction false} ReconcileStops(
      calls: map<u64, PartialCall>, raw: seq<Option<OutputItem>>, i: nat)
    requires i <= |raw| && ReconcileOutput(calls, raw[..i]).Err?
    ensures ReconcileOutput(calls, raw) == ReconcileOutput(calls, raw[..i])
    decreases |raw| - i
  {
    if i < |raw| {
      TakeNext(raw, i);
      ReconcileStops(calls, raw, i + 1);
    } else {
      assert raw[..i] == raw;
    }
  }
}
