/** The decoder object: its methods compute exactly the functions of `SseDecoding`. */
module SseDecoderObject {
  import opened Base
  import Spec = SseDecoding
  import opened SseDecoding

  lemma {:induction false} CutFirstLine(p: Text, i: nat)
    requires i < |p| && p[i] == LF && LF !in p[..i]
    ensures Cut(p) == ([StripCr(p[..i])] + Cut(p[i + 1..]).0, Cut(p[i + 1..]).1)
  {
    SplitAt(p, i + 1);
    TakeNext(p, i);
    CutNoBreak(p[..i]);
    EmptyConcat([StripCr(p[..i])]);
    CutConcat(p[..i + 1], p[i + 1..]);
    EmptyConcat(p[i + 1..]);
  }

  /** Taking one line off `pending` keeps the lines of `all` in view. */
  lemma {:induction false} NextLine(all: Text, consumed: seq<Text>, pending: Text, i: nat)
    requires i < |pending| && pending[i] == LF && LF !in pending[..i]
    requires Cut(all) == (consumed + Cut(pending).0, Cut(pending).1)
    ensures var line, rest := StripCr(pending[..i]), pending[i + 1..];
            Cut(all) == (consumed + [line] + Cut(rest).0, Cut(rest).1)
  {
    CutFirstLine(pending, i);
    Assoc(consumed, [StripCr(pending[..i])], Cut(pending[i + 1..]).0);
  }

  lemma {:induction false} RunNext(
      lim: Limits, start: LineState, consumed: seq<Text>, s: LineState, frames: seq<Text>, line: Text)
    requires RunLines(lim, start, consumed) == Ok((s, frames))
    ensures RunLines(lim, start, consumed + [line])
         == Then(Ok((s, frames)), Spec.ConsumeLine(lim, s, line))
  {
    SnocParts(consumed, line);
  }

  lemma {:induction false} RunFails(
      lim: Limits, start: LineState, consumed: seq<Text>, more: seq<Text>)
    requires RunLines(lim, start, consumed).Err?
    ensures RunLines(lim, start, consumed + more) == RunLines(lim, start, consumed)
  {
    RunLinesConcat(lim, start, consumed, more);
  }

  /** Some lines of `all` are consumed and led to `s` and the frames; `pending` is left. */
  ghost predicate Draining(
      lim: Limits, start: LineState, all: Text, consumed: seq<Text>, pending: Text, s: LineState,
      frames: seq<Text>)
  {
    && RunLines(lim, start, consumed) == Ok((s, frames))
    && Cut(all) == (consumed + Cut(pending).0, Cut(pending).1)
  }

  lemma {:induction false} DrainStarts(lim: Limits, start: LineState, all: Text)
    ensures Draining(lim, start, all, [], all, start, [])
  {
    EmptyConcat(Cut(all).0);
  }

  lemma {:induction false} DrainNext(
      lim: Limits, start: LineState, all: Text, consumed: seq<Text>, pending: Text, s: LineState,
      frames: seq<Text>, i: nat, next: LineState, more: seq<Text>)
    requires Draining(lim, start, all, consumed, pending, s, frames)
    requires i < |pending| && pending[i] == LF && LF !in pending[..i]
    requires Spec.ConsumeLine(lim, s, StripCr(pending[..i])) == Ok((next, more))
    ensures Draining(lim, start, all, consumed + [StripCr(pending[..i])], pending[i + 1..], next,
                     frames + more)
  {
    NextLine(all, consumed, pending, i);
    RunNext(lim, start, consumed, s, frames, StripCr(pending[..i]));
  }

  lemma {:induction false} DrainFails(
      lim: Limits, start: LineState, all: Text, consumed: seq<Text>, pending: Text, s: LineState,
      frames: seq<Text>, i: nat)
    requires Draining(lim, start, all, consumed, pending, s, frames)
    requires i < |pending| && pending[i] == LF && LF !in pending[..i]
    requires Spec.ConsumeLine(lim, s, StripCr(pending[..i])).Err?
    ensures RunLines(lim, start, Cut(all).0)
         == Err(Spec.ConsumeLine(lim, s, StripCr(pending[..i])).error)
  {
    var line := StripCr(pending[..i]);
    NextLine(all, consumed, pending, i);
    RunNext(lim, start, consumed, s, frames, line);
    RunFails(lim, start, consumed + [line], Cut(pending[i + 1..]).0);
  }

  lemma {:induction false} DrainEnds(
      lim: Limits, start: LineState, all: Text, consumed: seq<Text>, pending: Text, s: LineState,
      frames: seq<Text>)
    requires Draining(lim, start, all, consumed, pending, s, frames) && LF !in pending
    ensures RunLines(lim, start, Cut(all).0) == Ok((s, frames)) && Cut(all).1 == pending
  {
    CutNoBreak(pending);
    EmptyConcat(consumed);
  }

  class SseDecoder {
    const lim: Limits
    var pending: Text
    var dataLines: seq<Text>
    var firstLine: bool
    var emittedEvents: u64
    var receivedBytes: u64

    function Lines(): LineState
      reads this
    {
      LineState(dataLines, firstLine, emittedEvents)
    }

    function View(): Decoder
      reads this
    {
      Decoder(pending, Lines(), receivedBytes)
    }

    constructor (lim: Limits)
      ensures this.lim == lim && View() == FRESH
    {
      this.lim := lim;
      pending, dataLines, firstLine, emittedEvents, receivedBytes := [], [], true, 0, 0;
    }

    method Feed(bytes: Text) returns (r: Result<seq<Text>, Failure>)
      modifies this
      ensures
        match Spec.Feed(lim, old(View()), bytes)
        case Ok((d, frames)) => View() == d && r == Ok(frames)
        case Err(e) => r == Err(e)
    {
      var total := if |bytes| <= U64_MAX then CheckedAdd(receivedBytes, |bytes|) else None;
      if total.None? || total.value > lim.maxResponseBytes {
        return Err(StreamTooLarge);
      }
      receivedBytes := total.value;
      pending := pending + bytes;
      r := DrainLines();
      if r.Ok? && |pending| > lim.maxEventBytes {
        return Err(EventTooLarge);
      }
    }

    /** Consumes every complete line of `pending`. */
    method DrainLines() returns (r: Result<seq<Text>, Failure>)
      modifies this`pending, this`dataLines, this`firstLine, this`emittedEvents
      ensures
        match RunLines(lim, old(Lines()), Cut(old(pending)).0)
        case Ok((s, frames)) => Lines() == s && pending == Cut(old(pending)).1 && r == Ok(frames)
        case Err(e) => r == Err(e)
    {
      var frames: seq<Text> := [];
      ghost var consumed: seq<Text> := [];
      ghost var start, all := Lines(), pending;
      DrainStarts(lim, start, all);
      var position := IndexOf(pending, LF);
      while position.Some?
        invariant position == IndexOf(pending, LF)
        invariant Draining(lim, start, all, consumed, pending, Lines(), frames)
        decreases |pending|
      {
        var line := StripCr(pending[..position.value]);
        ghost var before, was := Lines(), pending;
        pending := pending[position.value + 1..];
        var emitted := ConsumeLine(line);
        if emitted.Err? {
          DrainFails(lim, start, all, consumed, was, before, frames, position.value);
          return emitted;
        }
        DrainNext(lim, start, all, consumed, was, before, frames, position.value, Lines(),
                  emitted.value);
        consumed := consumed + [line];
        frames := frames + emitted.value;
        position := IndexOf(pending, LF);
      }
      DrainEnds(lim, start, all, consumed, pending, Lines(), frames);
      return Ok(frames);
    }

    method Finish() returns (r: Result<seq<Text>, Failure>)
      modifies this
      ensures
        match Spec.Finish(lim, old(View()))
        case Ok((s, frames)) => Lines() == s && pending == [] && r == Ok(frames)
        case Err(e) => r == Err(e)
    {
      var frames: seq<Text> := [];
      if pending != [] {
        var line := StripCr(pending);
        RunOne(lim, Lines(), line);
        pending := [];
        r := ConsumeLine(line);
        if r.Err? {
          return;
        }
        frames := r.value;
      }
      r := EmitFrame();
      if r.Ok? {
        r := Ok(frames + r.value);
      }
    }

    method ConsumeLine(raw: Text) returns (r: Result<seq<Text>, Failure>)
      modifies this`dataLines, this`firstLine, this`emittedEvents
      ensures
        match Spec.ConsumeLine(lim, old(Lines()), raw)
        case Ok((s, frames)) => Lines() == s && r == Ok(frames)
        case Err(e) => r == Err(e)
    {
      var line := raw;
      if firstLine {
        firstLine := false;
        if BOM <= line {
          line := line[3..];
        }
      }
      if line == [] {
        r := EmitFrame();
        return;
      }
      if line[0] == COLON {
        return Ok([]);
      }
      var (field, value) := FieldValue(line);
      if field == DATA {
        if TotalLength(dataLines) + |value| + |dataLines| > lim.maxEventBytes {
          return Err(EventTooLarge);
        }
        dataLines := dataLines + [value];
      }
      return Ok([]);
    }

    method EmitFrame() returns (r: Result<seq<Text>, Failure>)
      modifies this`dataLines, this`emittedEvents
      ensures
        match Spec.EmitFrame(lim, old(Lines()))
        case Ok((s, frames)) => Lines() == s && r == Ok(frames)
        case Err(e) => r == Err(e)
    {
      if dataLines == [] {
        return Ok([]);
      }
      if emittedEvents >= lim.maxEvents {
        return Err(EventLimitExceeded);
      }
      emittedEvents := emittedEvents + 1;
      r := Ok([Join(dataLines)]);
      dataLines := [];
    }
  }
}
