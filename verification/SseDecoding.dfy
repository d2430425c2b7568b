/** Incremental server-sent-event decoding under three limits, and its agreement with a
    whole-input line decoder for every way of cutting the input into chunks. */
module SseDecoding {
  import opened Base

  datatype Limits = Limits(maxEvents: u64, maxEventBytes: u64, maxResponseBytes: u64)

  datatype Failure = StreamTooLarge | EventTooLarge | EventLimitExceeded

  const LF: byte := 10
  const CR: byte := 13
  const COLON: byte := 58
  const SPACE: byte := 32
  const DATA: Text := [100, 97, 116, 97]
  const BOM: Text := [0xEF, 0xBB, 0xBF]

  // ---------- lines ----------

  function StripCr(line: Text): Text {
    if line != [] && Last(line) == CR then Front(line) else line
  }

  /** The LF-terminated lines of the input and the unterminated rest, byte by byte.
      A lone CR is an ordinary byte. */
  function Cut(bytes: Text): (seq<Text>, Text) {
    if bytes == [] then ([], [])
    else
      var (lines, rest) := Cut(Front(bytes));
      if Last(bytes) == LF then (lines + [StripCr(rest)], []) else (lines, rest + [Last(bytes)])
  }

  lemma {:induction false} CutNoBreak(t: Text)
    requires LF !in t
    ensures Cut(t) == ([], t)
  {
    if t != [] {
      FrontLast(t);
      CutNoBreak(Front(t));
    }
  }

  lemma {:induction false} RestHasNoBreak(t: Text)
    ensures LF !in Cut(t).1
  {
    if t != [] {
      RestHasNoBreak(Front(t));
    }
  }

  lemma {:induction false} Assoc4<T>(a: seq<T>, b: seq<T>, c: seq<T>, d: seq<T>)
    ensures a + (b + c + d) == a + b + c + d
  {
  }

  /** Cutting resumes from the rest. */
  lemma {:induction false} CutConcat(a: Text, b: Text)
    ensures Cut(a + b).0 == Cut(a).0 + Cut(Cut(a).1 + b).0
    ensures Cut(a + b).1 == Cut(Cut(a).1 + b).1
  {
    if b == [] {
      EmptyConcat(a);
      EmptyConcat(Cut(a).1);
      RestHasNoBreak(a);
      CutNoBreak(Cut(a).1);
      EmptyConcat(Cut(a).0);
    } else {
      CutConcat(a, Front(b));
      SnocConcat(a, b);
      SnocConcat(Cut(a).1, b);
    }
  }

  // ---------- one line ----------

  datatype LineState = LineState(dataLines: seq<Text>, firstLine: bool, emitted: u64)

  const START := LineState([], true, 0)

  type Outcome = Result<(LineState, seq<Text>), Failure>

  /** The data lines joined by LF. */
  function Join(lines: seq<Text>): Text {
    if lines == [] then []
    else if |lines| == 1 then lines[0]
    else Join(Front(lines)) + [LF] + Last(lines)
  }

  function TotalLength(lines: seq<Text>): nat {
    if lines == [] then 0 else TotalLength(Front(lines)) + |Last(lines)|
  }

  function EmitFrame(lim: Limits, s: LineState): Outcome {
    if s.dataLines == [] then Ok((s, []))
    else if s.emitted >= lim.maxEvents then Err(EventLimitExceeded)
    else Ok((LineState([], s.firstLine, s.emitted + 1), [Join(s.dataLines)]))
  }

  function IndexOf(t: Text, b: byte): (r: Option<nat>)
    ensures r.Some? ==> r.value < |t| && t[r.value] == b && b !in t[..r.value]
    ensures r.None? ==> b !in t
  {
    if t == [] then None
    else if t[0] == b then Some(0)
    else
      var rest := IndexOf(t[1..], b);
      if rest.None? then None
      else
        assert t[..rest.value + 1] == [t[0]] + t[1..][..rest.value];
        Some(rest.value + 1)
  }

  function FieldValue(line: Text): (Text, Text) {
    var separator := IndexOf(line, COLON);
    var field := if separator.Some? then line[..separator.value] else line;
    var value := if separator.Some? then line[separator.value + 1..] else [];
    (field, if value != [] && value[0] == SPACE then value[1..] else value)
  }

  function DropBom(s: LineState, line: Text): Text {
    if s.firstLine && BOM <= line then line[3..] else line
  }

  /** `consume_line`. */
  function ConsumeLine(lim: Limits, s: LineState, raw: Text): Outcome {
    var line := DropBom(s, raw);
    var s' := s.(firstLine := false);
    if line == [] then EmitFrame(lim, s')
    else if line[0] == COLON then Ok((s', []))
    else
      var (field, value) := FieldValue(line);
      if field != DATA then Ok((s', []))
      else if TotalLength(s'.dataLines) + |value| + |s'.dataLines| > lim.maxEventBytes
      then Err(EventTooLarge)
      else Ok((s'.(dataLines := s'.dataLines + [value]), []))
  }

  function Then(before: Outcome, next: Outcome): Outcome {
    if before.Err? then before
    else if next.Err? then next
    else Ok((next.value.0, before.value.1 + next.value.1))
  }

  /** All lines in order, collecting the emitted frames. */
  function RunLines(lim: Limits, s: LineState, lines: seq<Text>): Outcome {
    if lines == [] then Ok((s, []))
    else
      var before := RunLines(lim, s, Front(lines));
      if before.Err? then before
      else Then(before, ConsumeLine(lim, before.value.0, Last(lines)))
  }

  lemma {:induction false} RunLinesConcat(lim: Limits, s: LineState, a: seq<Text>, b: seq<Text>)
    ensures
      var first := RunLines(lim, s, a);
      RunLines(lim, s, a + b) ==
        if first.Err? then first else Then(first, RunLines(lim, first.value.0, b))
  {
    var first := RunLines(lim, s, a);
    if b == [] {
      EmptyConcat(a);
      if first.Ok? {
        EmptyConcat(first.value.1);
      }
    } else {
      RunLinesConcat(lim, s, a, Front(b));
      SnocConcat(a, b);
      if first.Ok? {
        var second := RunLines(lim, first.value.0, Front(b));
        if second.Ok? {
          ThenAssociates(first, second, ConsumeLine(lim, second.value.0, Last(b)));
        }
      }
    }
  }

  lemma {:induction false} ThenAssociates(a: Outcome, b: Outcome, c: Outcome)
    requires a.Ok? && b.Ok?
    ensures Then(Then(a, b), c) == Then(a, Then(b, c))
  {
    if c.Ok? {
      assert a.value.1 + b.value.1 + c.value.1 == a.value.1 + (b.value.1 + c.value.1);
    }
  }

  // ---------- chunks ----------

  datatype Decoder = Decoder(pending: Text, lines: LineState, received: u64)

  const FRESH := Decoder([], START, 0)

  type Fed = Result<(Decoder, seq<Text>), Failure>

  /** `feed`: one chunk. */
  function Feed(lim: Limits, d: Decoder, bytes: Text): Fed {
    if d.received + |bytes| > lim.maxResponseBytes then Err(StreamTooLarge)
    else
      var (lines, rest) := Cut(d.pending + bytes);
      var run := RunLines(lim, d.lines, lines);
      if run.Err? then Err(run.error)
      else if |rest| > lim.maxEventBytes then Err(EventTooLarge)
      else Ok((Decoder(rest, run.value.0, d.received + |bytes|), run.value.1))
  }

  /** `finish`: the unterminated last line counts as a line, then the last event is emitted. */
  function Finish(lim: Limits, d: Decoder): Outcome {
    var last := RunLines(lim, d.lines, if d.pending == [] then [] else [StripCr(d.pending)]);
    if last.Err? then last else Then(last, EmitFrame(lim, last.value.0))
  }

  function FeedAll(lim: Limits, chunks: seq<Text>): Fed {
    if chunks == [] then Ok((FRESH, []))
    else
      var before := FeedAll(lim, Front(chunks));
      if before.Err? then before
      else
        var next := Feed(lim, before.value.0, Last(chunks));
        if next.Err? then next else Ok((next.value.0, before.value.1 + next.value.1))
  }

  function Flatten(chunks: seq<Text>): Text {
    if chunks == [] then [] else Flatten(Front(chunks)) + Last(chunks)
  }

  /** The reference: all bytes at once, limited only per event and in number of events. */
  function Whole(lim: Limits, bytes: Text): Outcome {
    RunLines(lim, START, Cut(bytes).0)
  }

  /** The unterminated line never exceeds the event limit where the input was cut. */
  ghost predicate RestsFit(lim: Limits, chunks: seq<Text>) {
    forall k :: 0 <= k <= |chunks| ==> |Cut(Flatten(chunks[..k])).1| <= lim.maxEventBytes
  }

  /** When a chunking decodes. */
  ghost predicate Decodes(lim: Limits, chunks: seq<Text>) {
    && |Flatten(chunks)| <= lim.maxResponseBytes
    && Whole(lim, Flatten(chunks)).Ok?
    && RestsFit(lim, chunks)
  }

  /** A chunking decodes exactly when the whole input is within the response limit, the
      reference accepts it, and no cut leaves an oversized unterminated line; the frames
      and the end state are then those of the reference. */
  lemma {:induction false} ChunkingMeaning(lim: Limits, chunks: seq<Text>)
    ensures FeedAll(lim, chunks).Ok? <==> Decodes(lim, chunks)
    ensures FeedAll(lim, chunks).Ok? ==> FeedAll(lim, chunks).value == DecodedState(lim, Flatten(chunks))
  {
    if chunks == [] {
      assert forall k :: 0 <= k <= |chunks| ==> chunks[..k] == [];
    } else {
      ChunkingMeaning(lim, Front(chunks));
      RestsFitFront(lim, chunks);
      FeedMeaning(lim, Flatten(Front(chunks)), Last(chunks));
    }
  }

  /** End state and frames of the reference. */
  function DecodedState(lim: Limits, bytes: Text): (Decoder, seq<Text>)
    requires Whole(lim, bytes).Ok? && |bytes| <= U64_MAX
  {
    (Decoder(Cut(bytes).1, Whole(lim, bytes).value.0, |bytes|), Whole(lim, bytes).value.1)
  }

  /** One more chunk. */
  lemma {:induction false} FeedMeaning(lim: Limits, bytes: Text, more: Text)
    ensures Whole(lim, bytes).Err? ==> Whole(lim, bytes + more).Err?
    ensures Whole(lim, bytes).Ok? && |bytes| <= lim.maxResponseBytes ==>
      var (before, frames) := DecodedState(lim, bytes);
      var fed := Feed(lim, before, more);
      && (fed.Ok? <==>
            && |bytes + more| <= lim.maxResponseBytes
            && Whole(lim, bytes + more).Ok?
            && |Cut(bytes + more).1| <= lim.maxEventBytes)
      && (fed.Ok? ==> (fed.value.0, frames + fed.value.1) == DecodedState(lim, bytes + more))
  {
    WholeExtends(lim, bytes, more);
    if Whole(lim, bytes).Ok? && |bytes| <= lim.maxResponseBytes {
      var (before, _) := DecodedState(lim, bytes);
      FeedUnfolds(lim, before, more, Cut(before.pending + more).0, Cut(before.pending + more).1);
    }
  }

  lemma {:induction false} WholeExtends(lim: Limits, bytes: Text, more: Text)
    ensures var first := Whole(lim, bytes);
            Whole(lim, bytes + more) ==
              if first.Err? then first
              else Then(first, RunLines(lim, first.value.0, Cut(Cut(bytes).1 + more).0))
    ensures Cut(bytes + more).1 == Cut(Cut(bytes).1 + more).1
  {
    CutConcat(bytes, more);
    RunLinesConcat(lim, START, Cut(bytes).0, Cut(Cut(bytes).1 + more).0);
  }

  lemma {:induction false} FeedUnfolds(
      lim: Limits, d: Decoder, bytes: Text, lines: seq<Text>, rest: Text)
    requires Cut(d.pending + bytes) == (lines, rest)
    ensures Feed(lim, d, bytes).Ok? <==>
              && d.received + |bytes| <= lim.maxResponseBytes
              && RunLines(lim, d.lines, lines).Ok?
              && |rest| <= lim.maxEventBytes
    ensures Feed(lim, d, bytes).Ok? ==>
              var run := RunLines(lim, d.lines, lines).value;
              Feed(lim, d, bytes).value
                == (Decoder(rest, run.0, d.received + |bytes|), run.1)
  {
  }

  lemma {:induction false} RestsFitFront(lim: Limits, chunks: seq<Text>)
    requires chunks != []
    ensures RestsFit(lim, chunks) <==>
      RestsFit(lim, Front(chunks)) && |Cut(Flatten(chunks)).1| <= lim.maxEventBytes
  {
    var front := Front(chunks);
    assert chunks[..|chunks|] == chunks;
    assert forall k :: 0 <= k <= |front| ==> front[..k] == chunks[..k];
    if RestsFit(lim, chunks) {
      forall k | 0 <= k <= |front| ensures |Cut(Flatten(front[..k])).1| <= lim.maxEventBytes {
        assert front[..k] == chunks[..k];
      }
    }
  }

  // ---------- coarser chunkings ----------

  /** Merges each group of consecutive chunks into one chunk. */
  function Merge(groups: seq<seq<Text>>): (merged: seq<Text>)
    ensures |merged| == |groups|
  {
    if groups == [] then [] else Merge(Front(groups)) + [Flatten(Last(groups))]
  }

  /** The chunks of all groups, in order. */
  function Ungroup(groups: seq<seq<Text>>): seq<Text> {
    if groups == [] then [] else Ungroup(Front(groups)) + Last(groups)
  }

  lemma {:induction false} FlattenConcat(a: seq<Text>, b: seq<Text>)
    ensures Flatten(a + b) == Flatten(a) + Flatten(b)
  {
    if b == [] {
      EmptyConcat(a);
      EmptyConcat(Flatten(a));
    } else {
      FlattenConcat(a, Front(b));
      SnocConcat(a, b);
      assert Flatten(a) + Flatten(Front(b)) + Last(b) == Flatten(a) + (Flatten(Front(b)) + Last(b));
    }
  }

  lemma {:induction false} MergeKeepsBytes(groups: seq<seq<Text>>)
    ensures Flatten(Merge(groups)) == Flatten(Ungroup(groups))
  {
    if groups != [] {
      MergeKeepsBytes(Front(groups));
      FlattenConcat(Ungroup(Front(groups)), Last(groups));
      SnocParts(Merge(Front(groups)), Flatten(Last(groups)));
    }
  }

  /** Merging only removes cuts. */
  lemma {:induction false} MergeKeepsRests(lim: Limits, groups: seq<seq<Text>>)
    requires RestsFit(lim, Ungroup(groups))
    ensures RestsFit(lim, Merge(groups))
  {
    if groups == [] {
      assert forall k :: 0 <= k <= |Merge(groups)| ==> Merge(groups)[..k] == [];
      assert Ungroup(groups)[..0] == [];
    } else {
      var fine := Ungroup(groups);
      RestsFitPrefix(lim, Ungroup(Front(groups)), Last(groups));
      MergeKeepsRests(lim, Front(groups));
      SnocParts(Merge(Front(groups)), Flatten(Last(groups)));
      RestsFitFront(lim, Merge(groups));
      MergeKeepsBytes(groups);
      assert fine[..|fine|] == fine;
    }
  }

  lemma {:induction false} RestsFitPrefix(lim: Limits, a: seq<Text>, b: seq<Text>)
    requires RestsFit(lim, a + b)
    ensures RestsFit(lim, a)
  {
    forall k | 0 <= k <= |a| ensures |Cut(Flatten(a[..k])).1| <= lim.maxEventBytes {
      assert a[..k] == (a + b)[..k];
    }
  }

  /** If one chunking decodes, every coarser chunking decodes too, with the same frames
      and the same end state. */
  lemma {:induction false} CoarserChunking(lim: Limits, groups: seq<seq<Text>>)
    requires FeedAll(lim, Ungroup(groups)).Ok?
    ensures FeedAll(lim, Merge(groups)) == FeedAll(lim, Ungroup(groups))
  {
    ChunkingMeaning(lim, Ungroup(groups));
    ChunkingMeaning(lim, Merge(groups));
    MergeKeepsBytes(groups);
    MergeKeepsRests(lim, groups);
  }

  /** Any two successful chunkings of the same bytes agree. */
  lemma {:induction false} ChunkingsAgree(lim: Limits, a: seq<Text>, b: seq<Text>)
    requires Flatten(a) == Flatten(b)
    requires FeedAll(lim, a).Ok? && FeedAll(lim, b).Ok?
    ensures FeedAll(lim, a) == FeedAll(lim, b)
  {
    ChunkingMeaning(lim, a);
    ChunkingMeaning(lim, b);
  }

  /** A finer chunking may be refused: a comment line longer than the event limit decodes
      when its end arrives with it and fails when it is cut off before its end. */
  lemma {:induction false} FinerChunkingMayFail(lim: Limits, comment: Text)
    requires comment != [] && comment[0] == COLON && Last(comment) != CR && LF !in comment
    requires lim.maxEventBytes < |comment| < lim.maxResponseBytes
    ensures FeedAll(lim, [comment + [LF]]).Ok?
    ensures FeedAll(lim, [comment, [LF]]).Err?
  {
    CommentInOneChunk(lim, comment);
    var cut := [comment, [LF]];
    ChunkingMeaning(lim, cut);
    assert cut[..1] == [comment];
    FlattenOne(comment);
    CutNoBreak(comment);
  }

  lemma {:induction false} CommentInOneChunk(lim: Limits, comment: Text)
    requires comment != [] && comment[0] == COLON && Last(comment) != CR && LF !in comment
    requires |comment| < lim.maxResponseBytes
    ensures FeedAll(lim, [comment + [LF]]).Ok?
  {
    var bytes := comment + [LF];
    FlattenOne(bytes);
    EmptyConcat(comment);
    CutLine([], comment);
    EmptyConcat([comment]);
    RunOne(lim, START, comment);
    OneChunk(lim, bytes);
  }

  lemma {:induction false} OneChunk(lim: Limits, bytes: Text)
    requires |bytes| <= lim.maxResponseBytes && Whole(lim, bytes).Ok?
    requires |Cut(bytes).1| <= lim.maxEventBytes
    ensures FeedAll(lim, [bytes]) == Ok(DecodedState(lim, bytes))
  {
    FlattenOne(bytes);
    ChunkingMeaning(lim, [bytes]);
    assert [bytes][..0] == [] && [bytes][..1] == [bytes];
  }

  lemma {:induction false} FlattenOne(t: Text)
    ensures Flatten([t]) == t
  {
    assert Front([t]) == [];
    EmptyConcat(t);
  }

  lemma {:induction false} RunOne(lim: Limits, s: LineState, line: Text)
    ensures RunLines(lim, s, [line]) == ConsumeLine(lim, s, line)
  {
    assert Front([line]) == [] && Last([line]) == line;
    var r := ConsumeLine(lim, s, line);
    if r.Ok? {
      EmptyConcat(r.value.1);
    }
  }

  // ---------- bounds ----------

  lemma {:induction false} JoinLength(lines: seq<Text>)
    ensures lines != [] ==> |Join(lines)| == TotalLength(lines) + |lines| - 1
  {
    if |lines| == 1 {
      assert Front(lines) == [];
    } else if lines != [] {
      JoinLength(Front(lines));
    }
  }

  /** Buffered data never exceeds what one event may hold. */
  ghost predicate Bounded(lim: Limits, s: LineState) {
    |Join(s.dataLines)| <= lim.maxEventBytes && s.emitted <= lim.maxEvents
  }

  ghost predicate FramesBounded(lim: Limits, before: LineState, r: Outcome) {
    r.Ok? ==>
      && Bounded(lim, r.value.0)
      && r.value.0.emitted == before.emitted + |r.value.1|
      && forall i :: 0 <= i < |r.value.1| ==> |r.value.1[i]| <= lim.maxEventBytes
  }

  lemma {:induction false} LineBounded(lim: Limits, s: LineState, line: Text)
    requires Bounded(lim, s)
    ensures FramesBounded(lim, s, ConsumeLine(lim, s, line))
  {
    var r := ConsumeLine(lim, s, line);
    if r.Ok? && r.value.0.dataLines != s.dataLines && r.value.0.dataLines != [] {
      var value := FieldValue(DropBom(s, line)).1;
      JoinLength(s.dataLines + [value]);
      SnocParts(s.dataLines, value);
    }
  }

  lemma {:induction false} LinesBounded(lim: Limits, s: LineState, lines: seq<Text>)
    requires Bounded(lim, s)
    ensures FramesBounded(lim, s, RunLines(lim, s, lines))
  {
    if lines != [] {
      LinesBounded(lim, s, Front(lines));
      var before := RunLines(lim, s, Front(lines));
      if before.Ok? {
        LineBounded(lim, before.value.0, Last(lines));
      }
    }
  }

  /** However the input is cut, a run emits at most `maxEvents` frames, each of at most
      `maxEventBytes` bytes, including the frame emitted at the end of the stream. */
  lemma {:induction false} FramesWithinLimits(lim: Limits, chunks: seq<Text>)
    requires FeedAll(lim, chunks).Ok?
    ensures
      var (d, frames) := FeedAll(lim, chunks).value;
      var end := Finish(lim, d);
      && |frames| <= lim.maxEvents
      && (forall i :: 0 <= i < |frames| ==> |frames[i]| <= lim.maxEventBytes)
      && (end.Ok? ==>
            && |frames| + |end.value.1| <= lim.maxEvents
            && forall i :: 0 <= i < |end.value.1| ==> |end.value.1[i]| <= lim.maxEventBytes)
  {
    ChunkingMeaning(lim, chunks);
    var (d, frames) := FeedAll(lim, chunks).value;
    LinesBounded(lim, START, Cut(Flatten(chunks)).0);
    LinesBounded(lim, d.lines, if d.pending == [] then [] else [StripCr(d.pending)]);
  }

  // ---------- round trip ----------

  function SplitLf(t: Text): (lines: seq<Text>)
    ensures lines != []
  {
    if t == [] then [[]]
    else
      var lines := SplitLf(Front(t));
      if Last(t) == LF then lines + [[]]
      else Front(lines) + [Last(lines) + [Last(t)]]
  }

  /** Every line of the frame survives the decoder's CR stripping. */
  predicate CleanLine(line: Text) {
    LF !in line && (line == [] || Last(line) != CR)
  }

  function DataLine(line: Text): Text {
    DATA + [COLON, SPACE] + line
  }

  function EncodeLines(lines: seq<Text>): Text {
    if lines == [] then [] else EncodeLines(Front(lines)) + DataLine(Last(lines)) + [LF]
  }

  /** A frame, given by its lines, as `data: ` lines and a blank line. */
  function EncodeFrames(frames: seq<seq<Text>>): Text {
    if frames == [] then [] else EncodeFrames(Front(frames)) + EncodeLines(Last(frames)) + [LF]
  }

  lemma {:induction false} DataLineValue(s: LineState, line: Text)
    ensures DropBom(s, DataLine(line)) == DataLine(line)
    ensures FieldValue(DataLine(line)) == (DATA, line)
  {
    var d := DataLine(line);
    assert d[0] == 100 && d[1] == 97 && d[2] == 116 && d[3] == 97 && d[4] == COLON && d[5] == SPACE;
    var i := IndexOf(d, COLON);
    assert i.Some? && i.value == 4 by {
      assert forall k :: 0 <= k < i.value ==> d[..i.value][k] == d[k];
    }
    assert d[..4] == DATA;
    assert d[5..] == [SPACE] + line;
    assert ([SPACE] + line)[1..] == line;
  }

  lemma {:induction false} DataLineConsumed(lim: Limits, s: LineState, line: Text)
    requires |Join(s.dataLines + [line])| <= lim.maxEventBytes
    ensures ConsumeLine(lim, s, DataLine(line))
         == Ok((LineState(s.dataLines + [line], false, s.emitted), []))
  {
    DataLineValue(s, line);
    JoinLength(s.dataLines + [line]);
    SnocParts(s.dataLines, line);
  }

  /** Cutting `t + [LF]` after a cut text adds one line. */
  lemma {:induction false} CutLine(before: Text, t: Text)
    requires Cut(before).1 == [] && LF !in t && (t == [] || Last(t) != CR)
    ensures Cut(before + t + [LF]) == (Cut(before).0 + [t], [])
  {
    CutConcat(before, t);
    EmptyConcat(t);
    CutNoBreak(t);
    EmptyConcat(Cut(before).0);
    SnocParts(before + t, LF);
  }

  lemma {:induction false} DataLineClean(line: Text)
    requires CleanLine(line)
    ensures LF !in DataLine(line) && Last(DataLine(line)) != CR
  {
    var d := DataLine(line);
    assert Last(d) == if line == [] then SPACE else Last(line);
    forall i | 0 <= i < |d| ensures d[i] != LF {
      if i >= 6 {
        assert d[i] == line[i - 6];
      }
    }
  }

  function DataLines(lines: seq<Text>): seq<Text> {
    if lines == [] then [] else DataLines(Front(lines)) + [DataLine(Last(lines))]
  }

  lemma {:induction false} CutEncodedLines(before: Text, lines: seq<Text>)
    requires Cut(before).1 == []
    requires forall i :: 0 <= i < |lines| ==> CleanLine(lines[i])
    ensures Cut(before + EncodeLines(lines)) == (Cut(before).0 + DataLines(lines), [])
  {
    if lines == [] {
      EmptyConcat(before);
      EmptyConcat(Cut(before).0);
    } else {
      CutEncodedLines(before, Front(lines));
      DataLineClean(Last(lines));
      var so := before + EncodeLines(Front(lines));
      CutLine(so, DataLine(Last(lines)));
      Assoc4(before, EncodeLines(Front(lines)), DataLine(Last(lines)), [LF]);
      Assoc(Cut(before).0, DataLines(Front(lines)), [DataLine(Last(lines))]);
    }
  }

  lemma {:induction false} RunDataLines(lim: Limits, s: LineState, lines: seq<Text>)
    requires s.dataLines == [] && |Join(lines)| <= lim.maxEventBytes
    ensures RunLines(lim, s, DataLines(lines)) ==
      Ok((LineState(lines, s.firstLine && lines == [], s.emitted), []))
  {
    if lines != [] {
      JoinShorter(lines);
      RunDataLines(lim, s, Front(lines));
      SnocParts(DataLines(Front(lines)), DataLine(Last(lines)));
      FrontLast(lines);
      DataLineConsumed(lim, LineState(Front(lines), s.firstLine && Front(lines) == [], s.emitted),
                       Last(lines));
      EmptyConcat<Text>([]);
    }
  }

  lemma {:induction false} JoinShorter(lines: seq<Text>)
    requires lines != []
    ensures |Join(Front(lines))| <= |Join(lines)|
  {
    JoinLength(lines);
    JoinLength(Front(lines));
  }

  function JoinEach(frames: seq<seq<Text>>): seq<Text> {
    if frames == [] then [] else JoinEach(Front(frames)) + [Join(Last(frames))]
  }

  ghost predicate Encodable(lim: Limits, frames: seq<seq<Text>>) {
    && |frames| <= lim.maxEvents
    && forall i :: 0 <= i < |frames| ==>
         && frames[i] != []
         && |Join(frames[i])| <= lim.maxEventBytes
         && forall j :: 0 <= j < |frames[i]| ==> CleanLine(frames[i][j])
  }

  /** The reference decoder inverts the encoder. */
  lemma {:induction false} WholeRoundTrip(lim: Limits, frames: seq<seq<Text>>)
    requires Encodable(lim, frames)
    ensures Cut(EncodeFrames(frames)).1 == []
    ensures Whole(lim, EncodeFrames(frames)) ==
      Ok((LineState([], frames == [], |frames|), JoinEach(frames)))
  {
    if frames != [] {
      var front, last := Front(frames), Last(frames);
      assert Encodable(lim, front);
      WholeRoundTrip(lim, front);
      var before := EncodeFrames(front);
      assert last == frames[|frames| - 1];
      CutEncodedLines(before, last);
      CutLine(before + EncodeLines(last), []);
      EmptyConcat(before + EncodeLines(last));
      assert EncodeFrames(frames) == before + EncodeLines(last) + [] + [LF];
      var s := LineState([], front == [], |front|);
      RunLinesConcat(lim, START, Cut(before).0, DataLines(last));
      RunDataLines(lim, s, last);
      RunLinesConcat(lim, START, Cut(before).0 + DataLines(last), [[]]);
      RunBlank(lim, LineState(last, false, |front|));
      EmptyConcat(JoinEach(front));
    }
  }

  lemma {:induction false} RunBlank(lim: Limits, s: LineState)
    requires s.dataLines != [] && s.emitted < lim.maxEvents
    ensures RunLines(lim, s, [[]]) ==
      Ok((LineState([], false, s.emitted + 1), [Join(s.dataLines)]))
  {
    RunOne(lim, s, []);
  }

  /** Encoding frames as `data: ` lines and decoding them, in any chunking that decodes,
      returns exactly those frames and leaves nothing pending. */
  lemma {:induction false} RoundTrip(lim: Limits, frames: seq<seq<Text>>, chunks: seq<Text>)
    requires Encodable(lim, frames)
    requires Flatten(chunks) == EncodeFrames(frames)
    requires FeedAll(lim, chunks).Ok?
    ensures FeedAll(lim, chunks).value.1 == JoinEach(frames)
    ensures Finish(lim, FeedAll(lim, chunks).value.0) ==
      Ok((FeedAll(lim, chunks).value.0.lines, []))
  {
    ChunkingMeaning(lim, chunks);
    WholeRoundTrip(lim, frames);
    EmptyConcat<Text>([]);
  }

  /** In a single chunk the encoding always decodes when it fits the response limit. */
  lemma {:induction false} RoundTripOneChunk(lim: Limits, frames: seq<seq<Text>>)
    requires Encodable(lim, frames)
    requires |EncodeFrames(frames)| <= lim.maxResponseBytes
    ensures FeedAll(lim, [EncodeFrames(frames)]).Ok?
    ensures FeedAll(lim, [EncodeFrames(frames)]).value.1 == JoinEach(frames)
  {
    WholeRoundTrip(lim, frames);
    OneChunk(lim, EncodeFrames(frames));
  }

  /** Splitting a frame at LF and joining the lines gives the frame back, so every frame
      whose lines do not end in CR has an encoding. */
  lemma {:induction false} SplitJoin(t: Text)
    ensures Join(SplitLf(t)) == t
    ensures forall i :: 0 <= i < |SplitLf(t)| ==> LF !in SplitLf(t)[i]
  {
    SplitHasNoBreak(t);
    if t != [] {
      SplitJoin(Front(t));
      FrontLast(t);
      if Last(t) == LF {
        JoinBreak(SplitLf(Front(t)));
      } else {
        JoinExtended(SplitLf(Front(t)), Last(t));
      }
    }
  }

  lemma {:induction false} SplitHasNoBreak(t: Text)
    ensures forall i :: 0 <= i < |SplitLf(t)| ==> LF !in SplitLf(t)[i]
  {
    if t != [] {
      SplitHasNoBreak(Front(t));
    }
  }

  lemma {:induction false} JoinBreak(lines: seq<Text>)
    requires lines != []
    ensures Join(lines + [[]]) == Join(lines) + [LF]
  {
    SnocParts(lines, []);
    EmptyConcat(Join(lines) + [LF]);
  }

  lemma {:induction false} JoinExtended(lines: seq<Text>, b: byte)
    requires lines != []
    ensures Join(Front(lines) + [Last(lines) + [b]]) == Join(lines) + [b]
  {
    SnocParts(Front(lines), Last(lines) + [b]);
    if |lines| > 1 {
      Assoc(Join(Front(lines)) + [LF], Last(lines), [b]);
    }
  }
}
