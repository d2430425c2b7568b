/** Which streams decode however they are cut into chunks. */
module SseChunking {
  import opened Base
  import opened SseDecoding

  /** Every chunking of the bytes decodes. */
  ghost predicate AlwaysDecodes(lim: Limits, bytes: Text) {
    forall chunks :: Flatten(chunks) == bytes ==> FeedAll(lim, chunks).Ok?
  }

  /** Wherever the input is cut, the unterminated line is within the event limit. */
  ghost predicate PrefixesFit(lim: Limits, bytes: Text) {
    forall n :: 0 <= n <= |bytes| ==> |Cut(bytes[..n]).1| <= lim.maxEventBytes
  }

  lemma {:induction false} FlattenPrefix(chunks: seq<Text>, k: nat)
    requires k <= |chunks|
    ensures |Flatten(chunks[..k])| <= |Flatten(chunks)|
    ensures Flatten(chunks[..k]) == Flatten(chunks)[..|Flatten(chunks[..k])|]
    decreases |chunks|
  {
    if k == |chunks| {
      assert chunks[..k] == chunks;
    } else {
      FlattenPrefix(Front(chunks), k);
      assert Front(chunks)[..k] == chunks[..k];
    }
  }

  /** Byte by byte. */
  function Bytewise(bytes: Text): (chunks: seq<Text>)
    ensures |chunks| == |bytes|
  {
    seq(|bytes|, i requires 0 <= i < |bytes| => [bytes[i]])
  }

  lemma {:induction false} FlattenBytewise(bytes: Text, n: nat)
    requires n <= |bytes|
    ensures Flatten(Bytewise(bytes)[..n]) == bytes[..n]
  {
    if n > 0 {
      FlattenBytewise(bytes, n - 1);
      TakeNext(Bytewise(bytes), n - 1);
      TakeNext(bytes, n - 1);
    }
  }

  lemma {:induction false} PrefixesSuffice(lim: Limits, chunks: seq<Text>)
    requires PrefixesFit(lim, Flatten(chunks))
    ensures RestsFit(lim, chunks)
  {
    forall k | 0 <= k <= |chunks|
      ensures |Cut(Flatten(chunks[..k])).1| <= lim.maxEventBytes
    {
      FlattenPrefix(chunks, k);
    }
  }

  lemma {:induction false} BytewiseNeeds(lim: Limits, bytes: Text)
    requires RestsFit(lim, Bytewise(bytes))
    ensures PrefixesFit(lim, bytes)
  {
    forall n | 0 <= n <= |bytes| ensures |Cut(bytes[..n]).1| <= lim.maxEventBytes {
      FlattenBytewise(bytes, n);
    }
  }

  /** Every chunking of a stream decodes exactly when the whole input is within the response
      limit, the reference accepts it, and every prefix leaves a line within the event limit. */
  lemma {:induction false} AlwaysDecodesExactly(lim: Limits, bytes: Text)
    ensures AlwaysDecodes(lim, bytes) <==>
              |bytes| <= lim.maxResponseBytes && Whole(lim, bytes).Ok? && PrefixesFit(lim, bytes)
  {
    var chunks := Bytewise(bytes);
    FlattenBytewise(bytes, |bytes|);
    assert chunks[..|bytes|] == chunks && bytes[..|bytes|] == bytes;
    if AlwaysDecodes(lim, bytes) {
      ChunkingMeaning(lim, chunks);
      BytewiseNeeds(lim, bytes);
    }
    if |bytes| <= lim.maxResponseBytes && Whole(lim, bytes).Ok? && PrefixesFit(lim, bytes) {
      forall chunks | Flatten(chunks) == bytes ensures FeedAll(lim, chunks).Ok? {
        PrefixesSuffice(lim, chunks);
        ChunkingMeaning(lim, chunks);
      }
    }
  }

  // ---------- encoded frames ----------

  /** Cutting between lines, each half is judged by itself. */
  lemma {:induction false} FitConcat(lim: Limits, a: Text, b: Text)
    requires Cut(a).1 == []
    ensures PrefixesFit(lim, a + b) <==> PrefixesFit(lim, a) && PrefixesFit(lim, b)
  {
    var whole := a + b;
    forall n | 0 <= n <= |a| ensures whole[..n] == a[..n] {
    }
    forall n | 0 <= n <= |b| ensures Cut(whole[..|a| + n]).1 == Cut(b[..n]).1 {
      assert whole[..|a| + n] == a + b[..n];
      CutConcat(a, b[..n]);
      EmptyConcat(b[..n]);
    }
    if PrefixesFit(lim, whole) {
      forall n | 0 <= n <= |a| ensures |Cut(a[..n]).1| <= lim.maxEventBytes {
        assert |Cut(whole[..n]).1| <= lim.maxEventBytes;
      }
      forall n | 0 <= n <= |b| ensures |Cut(b[..n]).1| <= lim.maxEventBytes {
        assert |Cut(whole[..|a| + n]).1| <= lim.maxEventBytes;
      }
    }
    if PrefixesFit(lim, a) && PrefixesFit(lim, b) {
      forall n | 0 <= n <= |whole| ensures |Cut(whole[..n]).1| <= lim.maxEventBytes {
        if n <= |a| {
          assert |Cut(a[..n]).1| <= lim.maxEventBytes;
        } else {
          assert |Cut(b[..n - |a|]).1| <= lim.maxEventBytes;
          assert whole[..n] == whole[..|a| + (n - |a|)];
        }
      }
    }
  }

  /** One line fits when all of it does, its end not yet seen. */
  lemma {:induction false} LineFits(lim: Limits, t: Text)
    requires LF !in t
    ensures PrefixesFit(lim, t + [LF]) <==> |t| <= lim.maxEventBytes
  {
    var whole := t + [LF];
    forall n | 0 <= n <= |t| ensures Cut(whole[..n]).1 == t[..n] {
      assert whole[..n] == t[..n];
      CutNoBreak(t[..n]);
    }
    assert whole[..|whole|] == whole && t[..|t|] == t;
    SnocParts(t, LF);
    assert Cut(whole).1 == [];
    if PrefixesFit(lim, whole) {
      assert |Cut(whole[..|t|]).1| <= lim.maxEventBytes;
    }
  }

  ghost predicate LinesFit(lim: Limits, lines: seq<Text>) {
    forall j :: 0 <= j < |lines| ==> |DataLine(lines[j])| <= lim.maxEventBytes
  }

  lemma {:induction false} LinesFitFront(lim: Limits, lines: seq<Text>)
    requires lines != []
    ensures LinesFit(lim, lines) <==>
              LinesFit(lim, Front(lines)) && |DataLine(Last(lines))| <= lim.maxEventBytes
  {
    if LinesFit(lim, Front(lines)) && |DataLine(Last(lines))| <= lim.maxEventBytes {
      forall j | 0 <= j < |lines| ensures |DataLine(lines[j])| <= lim.maxEventBytes {
        if j < |lines| - 1 {
          assert Front(lines)[j] == lines[j];
        }
      }
    }
  }

  lemma {:induction false} EncodedLinesFit(lim: Limits, lines: seq<Text>)
    requires forall j :: 0 <= j < |lines| ==> CleanLine(lines[j])
    ensures PrefixesFit(lim, EncodeLines(lines)) <==> LinesFit(lim, lines)
    ensures Cut(EncodeLines(lines)).1 == []
  {
    CutEncodedLines([], lines);
    EmptyConcat(EncodeLines(lines));
    if lines != [] {
      var before, line := EncodeLines(Front(lines)), DataLine(Last(lines));
      EncodedLinesFit(lim, Front(lines));
      DataLineClean(Last(lines));
      FitConcat(lim, before, line + [LF]);
      LineFits(lim, line);
      Assoc(before, line, [LF]);
      LinesFitFront(lim, lines);
    }
  }

  /** Every `data: ` line of every frame fits the event limit. */
  ghost predicate FramesFit(lim: Limits, frames: seq<seq<Text>>) {
    forall i :: 0 <= i < |frames| ==> LinesFit(lim, frames[i])
  }

  lemma {:induction false} FramesFitFront(lim: Limits, frames: seq<seq<Text>>)
    requires frames != []
    ensures FramesFit(lim, frames) <==> FramesFit(lim, Front(frames)) && LinesFit(lim, Last(frames))
  {
    if FramesFit(lim, Front(frames)) && LinesFit(lim, Last(frames)) {
      forall i | 0 <= i < |frames| ensures LinesFit(lim, frames[i]) {
        if i < |frames| - 1 {
          assert Front(frames)[i] == frames[i];
        }
      }
    }
  }

  lemma {:induction false} EncodedFramesFit(lim: Limits, frames: seq<seq<Text>>)
    requires Encodable(lim, frames)
    ensures PrefixesFit(lim, EncodeFrames(frames)) <==> FramesFit(lim, frames)
  {
    if frames != [] {
      var front, last := Front(frames), Last(frames);
      assert Encodable(lim, front) && last == frames[|frames| - 1];
      EncodedFramesFit(lim, front);
      WholeRoundTrip(lim, front);
      EncodedLinesFit(lim, last);
      LineFits(lim, []);
      EmptyConcat([LF]);
      FitConcat(lim, EncodeLines(last), [LF]);
      FitConcat(lim, EncodeFrames(front), EncodeLines(last) + [LF]);
      Assoc(EncodeFrames(front), EncodeLines(last), [LF]);
      FramesFitFront(lim, frames);
    }
  }

  /** The encoding of frames decodes under every chunking exactly when it is within the response
      limit and each of its `data: ` lines is within the event limit, and then to these frames. */
  lemma {:induction false} EncodingAlwaysDecodes(lim: Limits, frames: seq<seq<Text>>)
    requires Encodable(lim, frames)
    ensures AlwaysDecodes(lim, EncodeFrames(frames)) <==>
              |EncodeFrames(frames)| <= lim.maxResponseBytes && FramesFit(lim, frames)
    ensures AlwaysDecodes(lim, EncodeFrames(frames)) ==>
              forall chunks :: Flatten(chunks) == EncodeFrames(frames) ==>
                FeedAll(lim, chunks).Ok? && FeedAll(lim, chunks).value.1 == JoinEach(frames)
  {
    WholeRoundTrip(lim, frames);
    AlwaysDecodesExactly(lim, EncodeFrames(frames));
    EncodedFramesFit(lim, frames);
    if AlwaysDecodes(lim, EncodeFrames(frames)) {
      forall chunks | Flatten(chunks) == EncodeFrames(frames)
        ensures FeedAll(lim, chunks).Ok? && FeedAll(lim, chunks).value.1 == JoinEach(frames)
      {
        RoundTrip(lim, frames, chunks);
      }
    }
  }
}
