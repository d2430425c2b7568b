/** Tool outputs that carry an image: what a budget footer or a cut does to them, and to the
    batch they belong to. */
module MediaOutputs {
  import opened Base
  import opened Utf8
  import opened History
  import opened MediaPolicy
  import opened MediaBatch
  import opened RequestHistory

  // ---------- footers and cuts ----------

  /** The runtime budget footer goes on a line of its own. */
  function WithFooter(raw: Text, footer: Text): (r: Text)
    requires ValidUtf8(raw) && ValidUtf8(footer)
    ensures ValidUtf8(r)
  {
    if raw != [] && Last(raw) != 10 then
      assert ValidUtf8([10]);
      ConcatValid(raw, [10]);
      ConcatValid(raw + [10], footer);
      raw + [10] + footer
    else
      ConcatValid(raw, footer);
      raw + footer
  }

  function Footered(raw: Text, footer: Option<Text>): (r: Text)
    requires ValidUtf8(raw) && (footer.Some? ==> ValidUtf8(footer.value))
    ensures ValidUtf8(r)
  {
    if footer.Some? then WithFooter(raw, footer.value) else raw
  }

  predicate NoLineFeed(t: Text) {
    forall i :: 0 <= i < |t| ==> t[i] != 10
  }

  lemma {:induction false} DecimalNoLineFeed(n: nat)
    ensures NoLineFeed(Decimal(n))
  {
    if n >= 10 {
      DecimalNoLineFeed(n / 10);
    }
  }

  lemma {:induction false} PrintableNoLineFeed(s: string)
    requires forall i :: 0 <= i < |s| ==> ' ' <= s[i] <= '~'
    ensures NoLineFeed(Ascii(s))
  {
  }

  lemma {:induction false} WordsNoLineFeed(mime: MediaType)
    ensures NoLineFeed(Ascii("read_file returned an attached image: "))
    ensures NoLineFeed(MimeText(mime))
    ensures NoLineFeed(Ascii(", ")) && NoLineFeed(Ascii("x")) && NoLineFeed(Ascii(", sha256="))
  {
    PrintableNoLineFeed("read_file returned an attached image: ");
    PrintableNoLineFeed("image/png");
    PrintableNoLineFeed("image/jpeg");
    PrintableNoLineFeed(", ");
    PrintableNoLineFeed("x");
    PrintableNoLineFeed(", sha256=");
  }

  /** The media sentence is a single line. */
  lemma {:induction false} SentenceNoLineFeed(mime: MediaType, width: u64, height: u64, sha256: Text)
    requires LowerHex64(sha256)
    ensures var s := MediaSentence(mime, width, height, sha256); NoLineFeed(s) && |s| >= 64
  {
    WordsNoLineFeed(mime);
    DecimalNoLineFeed(width);
    DecimalNoLineFeed(height);
  }

  /** A cut text always has a line feed of the marker in it, unless nothing is left. */
  lemma {:induction false} CutShows(value: Text, cap: nat, r: Text)
    requires Truncation(value, cap, r) && |value| > cap
    ensures r == [] || !NoLineFeed(r)
  {
    if cap > |TRUNCATION_MARKER| {
      var head: nat, tail: nat :|
        && head <= tail <= |value|
        && r == value[..head] + TRUNCATION_MARKER + value[tail..]
        && cap - 3 <= |r| <= cap;
      assert r[head] == TRUNCATION_MARKER[0] == 10;
    } else if r != [] {
      assert r[0] == TRUNCATION_MARKER[0] == 10;
    }
  }

  /** An output that is the media sentence is committed unchanged exactly when no footer is due
      and it fits. */
  lemma {:induction false} SentenceSurvivesExactly(
      raw: Text, footer: Option<Text>, cap: nat, output: Text)
    requires ValidUtf8(raw) && (footer.Some? ==> ValidUtf8(footer.value))
    requires raw != [] && NoLineFeed(raw)
    requires Truncation(Footered(raw, footer), cap, output)
    ensures output == raw <==> footer.None? && |raw| <= cap
  {
    var value := Footered(raw, footer);
    if |value| > cap {
      CutShows(value, cap, output);
    } else if footer.Some? {
      assert value[|raw|] == 10;
    }
  }

  // ---------- the batch ----------

  /** Everything the batch builder demands except the texts of the outputs: a base that may be
      sent, expected calls of `read_file` where there is an attachment, fresh outputs in order,
      attachments in order, and sizes far from overflowing. */
  ghost predicate BatchFrame(
      hash: Hashes, base: Items, turnIndex: u64, ids: seq<Text>, additions: Items)
  {
    && WellFormed(hash, base)
    && |additions| <= 2 * |ids| && ExpectedCalls(base, ids) && OutputsInOrder(ids, additions)
    && (forall i :: 0 <= i < |ids| ==> ids[i] !in OutputTexts(base))
    && TailAccepted(hash, base, turnIndex, ids, additions[|ids|..])
    && (forall i :: |ids| <= i < |additions| && additions[i].ToolMediaAttachment? ==>
          CallName(base, additions[i].attachment.callId) == READ_FILE)
    && Sum(Sizes(base)) + READ_FILE_MEDIA_MAX_HISTORY_BYTES <= U64_MAX
  }

  predicate TailAccepted(hash: Hashes, base: Items, turnIndex: u64, ids: seq<Text>, tail: Items) {
    var r := MediaTail(hash, base, turnIndex, ids, tail);
    r.Ok? && r.value.1 <= READ_FILE_MEDIA_MAX_HISTORY_BYTES
  }

  function SentenceOf(a: Attachment): Text {
    MediaSentence(a.mimeType, a.width, a.height, a.sha256)
  }

  /** The output of every attachment's own call is the exact sentence. */
  ghost predicate ExactOutputs(ids: seq<Text>, additions: Items) {
    forall i, p :: |ids| <= i < |additions| && 0 <= p < |ids| && Owns(additions[i], ids[p]) ==>
      additions[p] == FunctionCallOutput(ids[p], SentenceOf(additions[i].attachment))
  }

  predicate Owns(item: HistoryItem, id: Text) {
    item.ToolMediaAttachment? && item.attachment.callId == id
  }

  lemma {:induction false} ClaimedHasOutput(hash: Hashes, h: Items, id: Text)
    requires WellFormed(hash, h) && id in MediaIds(h)
    ensures id in OutputTexts(h)
  {
    WellFormedFront(hash, h);
    if id in MediaIds(Front(h)) {
      ClaimedHasOutput(hash, Front(h), id);
    }
  }

  /** In a well-formed history the batch builder's name scan finds the call's name. */
  lemma {:induction false} ScanFindsName(hash: Hashes, h: Items, id: Text)
    requires WellFormed(hash, h)
    ensures NameScan(h, id) == Some(if id in CallNames(h) then CallNames(h)[id] else [])
  {
    if h != [] {
      WellFormedFront(hash, h);
      ScanFindsName(hash, Front(h), id);
    }
  }

  /** What the attachments of an accepted tail are. */
  lemma {:induction false} TailItem(
      hash: Hashes, base: Items, turnIndex: u64, ids: seq<Text>, tail: Items, i: nat)
    requires MediaTail(hash, base, turnIndex, ids, tail).Ok? && i < |tail|
    ensures tail[i].ToolMediaAttachment?
    ensures var a := tail[i].attachment;
            && ValidAttachment(hash, a)
            && a.origin == Some(Origin(turnIndex, CallName(base, a.callId)))
            && PositionOf(ids, a.callId).Some?
            && MediaTail(hash, base, turnIndex, ids, tail).value.0.Some?
            && PositionOf(ids, a.callId).value
               <= MediaTail(hash, base, turnIndex, ids, tail).value.0.value
    ensures i < |tail| - 1 ==>
              tail[i].attachment.callId != Last(tail).attachment.callId
  {
    if i < |tail| - 1 {
      TailItem(hash, base, turnIndex, ids, Front(tail), i);
    }
  }

  lemma {:induction false} TailPrefixOk(
      hash: Hashes, base: Items, turnIndex: u64, ids: seq<Text>, tail: Items, n: nat)
    requires MediaTail(hash, base, turnIndex, ids, tail).Ok? && n <= |tail|
    ensures MediaTail(hash, base, turnIndex, ids, tail[..n]).Ok?
  {
    if MediaTail(hash, base, turnIndex, ids, tail[..n]).Err? {
      MediaTailPrefix(hash, base, turnIndex, ids, tail, n);
    }
  }

  /** `h` is the base followed by the first `n` additions, `k` of them outputs: same calls, the
      outputs so far, and media of this batch only. */
  ghost predicate Appended(
      base: Items, ids: seq<Text>, additions: Items, h: Items, k: nat, n: nat)
    requires OutputsInOrder(ids, additions) && k <= |ids| && n <= |additions|
  {
    && CallNames(h) == CallNames(base)
    && (forall id :: id in OutputTexts(h) ==> id in OutputTexts(base) || id in ids[..k])
    && (forall p :: 0 <= p < k ==>
          ids[p] in OutputTexts(h) && OutputTexts(h)[ids[p]] == additions[p].output)
    && (forall id :: id in MediaIds(h) ==> id in MediaIds(base) || Claimed(ids, additions, n, id))
  }

  ghost predicate Claimed(ids: seq<Text>, additions: Items, n: nat, id: Text)
    requires n <= |additions|
  {
    exists i :: |ids| <= i < n && Owns(additions[i], id)
  }

  lemma {:induction false} OutputSnoc(h: Items, id: Text, output: Text)
    ensures var longer := h + [FunctionCallOutput(id, output)];
            && CallNames(longer) == CallNames(h) && MediaIds(longer) == MediaIds(h)
            && OutputTexts(longer) == OutputTexts(h)[id := output]
            && Sizes(longer) == Sizes(h)
  {
    SnocParts(h, FunctionCallOutput(id, output));
    SizesFront(h + [FunctionCallOutput(id, output)]);
  }

  lemma {:induction false} MediaSnoc(h: Items, a: Attachment)
    ensures var longer := h + [ToolMediaAttachment(a)];
            && CallNames(longer) == CallNames(h) && OutputTexts(longer) == OutputTexts(h)
            && MediaIds(longer) == MediaIds(h) + {a.callId}
  {
    SnocParts(h, ToolMediaAttachment(a));
  }

  lemma {:induction false} WellFormedSnoc(hash: Hashes, h: Items, item: HistoryItem)
    requires WellFormed(hash, h) && MayFollow(hash, h, item) && Sum(Sizes(h + [item])) <= U64_MAX
    ensures WellFormed(hash, h + [item])
  {
    SnocParts(h, item);
    WellFormedFront(hash, h + [item]);
  }

  lemma {:induction false} NextOutput(base: Items, ids: seq<Text>, additions: Items, h: Items, n: nat)
    requires OutputsInOrder(ids, additions) && n < |ids| && Appended(base, ids, additions, h, n, n)
    requires forall i, j :: 0 <= i < j < |ids| ==> ids[i] != ids[j]
    requires ids[n] !in OutputTexts(base)
    ensures ids[n] !in OutputTexts(h)
    ensures Appended(base, ids, additions, h + [additions[n]], n + 1, n + 1)
  {
    OutputSnoc(h, ids[n], additions[n].output);
    TakeNext(ids, n);
    assert forall p :: 0 <= p < n ==> ids[p] != ids[n];
  }

  /** The base with the first `n` additions, one by one. */
  function With(base: Items, additions: Items, n: nat): Items
    requires n <= |additions|
  {
    if n == 0 then base else With(base, additions, n - 1) + [additions[n - 1]]
  }

  lemma {:induction false} WithIsConcat(base: Items, additions: Items, n: nat)
    requires n <= |additions|
    ensures With(base, additions, n) == base + additions[..n]
  {
    if n == 0 {
      EmptyConcat(base);
    } else {
      WithIsConcat(base, additions, n - 1);
      TakeNext(additions, n - 1);
      Assoc(base, additions[..n - 1], [additions[n - 1]]);
    }
  }

  lemma {:induction false} OutputsWellFormed(
      hash: Hashes, base: Items, ids: seq<Text>, additions: Items, n: nat)
    requires WellFormed(hash, base) && OutputsInOrder(ids, additions) && n <= |ids|
    requires forall i, j :: 0 <= i < j < |ids| ==> ids[i] != ids[j]
    requires forall i :: 0 <= i < |ids| ==> ids[i] !in OutputTexts(base)
    ensures WellFormed(hash, With(base, additions, n))
    ensures Appended(base, ids, additions, With(base, additions, n), n, n)
    ensures Sizes(With(base, additions, n)) == Sizes(base)
  {
    if n > 0 {
      OutputsWellFormed(hash, base, ids, additions, n - 1);
      OutputAdded(hash, base, ids, additions, With(base, additions, n - 1), n);
    }
  }

  lemma {:induction false} OutputAdded(
      hash: Hashes, base: Items, ids: seq<Text>, additions: Items, before: Items, n: nat)
    requires OutputsInOrder(ids, additions) && 0 < n <= |ids|
    requires WellFormed(hash, before) && Appended(base, ids, additions, before, n - 1, n - 1)
    requires forall i, j :: 0 <= i < j < |ids| ==> ids[i] != ids[j]
    requires ids[n - 1] !in OutputTexts(base)
    ensures var h := before + [additions[n - 1]];
            WellFormed(hash, h) && Appended(base, ids, additions, h, n, n) && Sizes(h) == Sizes(before)
  {
    NextOutput(base, ids, additions, before, n - 1);
    OutputSnoc(before, ids[n - 1], additions[n - 1].output);
    WellFormedSnoc(hash, before, additions[n - 1]);
  }

  /** What the tail says about one attachment: it is valid, of this turn, and belongs to an
      expected call. */
  ghost predicate FromTail(
      hash: Hashes, base: Items, turnIndex: u64, ids: seq<Text>, item: HistoryItem)
  {
    && item.ToolMediaAttachment? && ValidAttachment(hash, item.attachment)
    && item.attachment.origin
       == Some(Origin(turnIndex, CallName(base, item.attachment.callId)))
    && PositionOf(ids, item.attachment.callId).Some?
  }

  lemma {:induction false} AttachmentOfTail(
      hash: Hashes, base: Items, turnIndex: u64, ids: seq<Text>, tail: Items, k: nat)
    requires k < |tail| && MediaTail(hash, base, turnIndex, ids, tail).Ok?
    ensures FromTail(hash, base, turnIndex, ids, tail[k])
  {
    TailItem(hash, base, turnIndex, ids, tail, k);
  }

  lemma {:induction false} OwnedOnce(
      hash: Hashes, base: Items, turnIndex: u64, ids: seq<Text>, tail: Items, i: nat)
    requires MediaTail(hash, base, turnIndex, ids, tail).Ok? && i < |tail| - 1
    ensures Last(tail).ToolMediaAttachment?
    ensures !Owns(tail[i], Last(tail).attachment.callId)
  {
    TailItem(hash, base, turnIndex, ids, tail, i);
    TailItem(hash, base, turnIndex, ids, tail, |tail| - 1);
  }

  lemma {:induction false} TailUpTo(
      hash: Hashes, base: Items, turnIndex: u64, ids: seq<Text>, tail: Items, i: nat, k: nat)
    returns (part: Items)
    requires MediaTail(hash, base, turnIndex, ids, tail).Ok? && i < k < |tail|
    ensures MediaTail(hash, base, turnIndex, ids, part).Ok? && |part| == k + 1
    ensures part[i] == tail[i] && Last(part) == tail[k]
  {
    part := tail[..k + 1];
    TailPrefixOk(hash, base, turnIndex, ids, tail, k + 1);
    PrefixAt(tail, i, k);
  }

  /** No two attachments of the tail belong to the same call. */
  lemma {:induction false} OwnedByOne(
      hash: Hashes, base: Items, turnIndex: u64, ids: seq<Text>, tail: Items, i: nat, k: nat)
    requires MediaTail(hash, base, turnIndex, ids, tail).Ok? && i < k < |tail|
    ensures tail[k].ToolMediaAttachment?
    ensures !Owns(tail[i], tail[k].attachment.callId)
  {
    var part := TailUpTo(hash, base, turnIndex, ids, tail, i, k);
    OwnedOnce(hash, base, turnIndex, ids, part, i);
  }

  lemma {:induction false} UnownedAt(
      hash: Hashes, base: Items, turnIndex: u64, ids: seq<Text>, additions: Items, i: nat, n: nat)
    requires |ids| <= i < n < |additions| && additions[n].ToolMediaAttachment?
    requires MediaTail(hash, base, turnIndex, ids, additions[|ids|..]).Ok?
    ensures !Owns(additions[i], additions[n].attachment.callId)
  {
    DropAt(additions, |ids|, i);
    DropAt(additions, |ids|, n);
    OwnedByOne(hash, base, turnIndex, ids, additions[|ids|..], i - |ids|, n - |ids|);
  }

  lemma {:induction false} AttachmentUnclaimed(
      hash: Hashes, base: Items, turnIndex: u64, ids: seq<Text>, additions: Items, n: nat)
    requires |ids| <= n < |additions| && additions[n].ToolMediaAttachment?
    requires MediaTail(hash, base, turnIndex, ids, additions[|ids|..]).Ok?
    ensures !Claimed(ids, additions, n, additions[n].attachment.callId)
  {
    forall i | |ids| <= i < n ensures !Owns(additions[i], additions[n].attachment.callId) {
      UnownedAt(hash, base, turnIndex, ids, additions, i, n);
    }
  }

  /** A call of the batch is a `read_file` call not claimed before. */
  lemma {:induction false} ExpectedCall(hash: Hashes, base: Items, id: Text)
    requires WellFormed(hash, base) && id !in OutputTexts(base) && CallName(base, id) == READ_FILE
    ensures id in CallNames(base) && CallNames(base)[id] == READ_FILE && id !in MediaIds(base)
  {
    ScanFindsName(hash, base, id);
    assert |READ_FILE| == 9;
    if id in MediaIds(base) {
      ClaimedHasOutput(hash, base, id);
    }
  }

  /** Everything the attachment at `n` needs of the base and of the outputs: its call may be
      claimed with `sentence`, once. */
  ghost predicate Unclaimed(
      base: Items, ids: seq<Text>, additions: Items, n: nat, id: Text, sentence: Text)
    requires |ids| <= n < |additions|
  {
    && id in CallNames(base) && CallNames(base)[id] == READ_FILE && id !in MediaIds(base)
    && !Claimed(ids, additions, n, id)
    && exists p :: 0 <= p < |ids| && ids[p] == id && additions[p] == FunctionCallOutput(id, sentence)
  }

  ghost predicate ReadyAt(hash: Hashes, base: Items, ids: seq<Text>, additions: Items, n: nat)
    requires |ids| <= n < |additions|
  {
    && additions[n].ToolMediaAttachment?
    && var a := additions[n].attachment;
    && ValidAttachment(hash, a) && a.origin.Some? && a.origin.value.toolName == READ_FILE
    && Unclaimed(base, ids, additions, n, a.callId, SentenceOf(a))
  }

  /** What the frame says about the attachment at `n`. */
  ghost predicate Framed(
      hash: Hashes, base: Items, turnIndex: u64, ids: seq<Text>, additions: Items, n: nat)
    requires |ids| <= n < |additions|
  {
    && FromTail(hash, base, turnIndex, ids, additions[n])
    && CallName(base, additions[n].attachment.callId) == READ_FILE
    && !Claimed(ids, additions, n, additions[n].attachment.callId)
  }

  lemma {:induction false} TailAt(
      hash: Hashes, base: Items, turnIndex: u64, ids: seq<Text>, additions: Items, n: nat)
    requires |ids| <= n < |additions|
    requires MediaTail(hash, base, turnIndex, ids, additions[|ids|..]).Ok?
    ensures FromTail(hash, base, turnIndex, ids, additions[n])
  {
    AttachmentOfTail(hash, base, turnIndex, ids, additions[|ids|..], n - |ids|);
    DropAt(additions, |ids|, n);
  }

  lemma {:induction false} FramedAt(
      hash: Hashes, base: Items, turnIndex: u64, ids: seq<Text>, additions: Items, n: nat)
    requires BatchFrame(hash, base, turnIndex, ids, additions) && |ids| <= n < |additions|
    ensures Framed(hash, base, turnIndex, ids, additions, n)
  {
    TailAt(hash, base, turnIndex, ids, additions, n);
    AttachmentUnclaimed(hash, base, turnIndex, ids, additions, n);
  }

  lemma {:induction false} AttachmentReady(
      hash: Hashes, base: Items, turnIndex: u64, ids: seq<Text>, additions: Items, n: nat)
    requires WellFormed(hash, base) && ExactOutputs(ids, additions)
    requires forall i :: 0 <= i < |ids| ==> ids[i] !in OutputTexts(base)
    requires |ids| <= n < |additions| && Framed(hash, base, turnIndex, ids, additions, n)
    ensures ReadyAt(hash, base, ids, additions, n)
  {
    var p := PositionAt(ids, additions[n].attachment.callId);
    assert Owns(additions[n], ids[p]);
    ExpectedCall(hash, base, ids[p]);
  }

  lemma {:induction false} ReadyClaimable(
      base: Items, ids: seq<Text>, additions: Items, h: Items, n: nat, id: Text, sentence: Text)
    requires OutputsInOrder(ids, additions) && |ids| <= n < |additions|
    requires Appended(base, ids, additions, h, |ids|, n)
    requires Unclaimed(base, ids, additions, n, id, sentence)
    ensures Claimable(h, id, sentence)
  {
  }

  lemma {:induction false} ReadyMayFollow(
      hash: Hashes, base: Items, ids: seq<Text>, additions: Items, h: Items, n: nat)
    requires OutputsInOrder(ids, additions) && |ids| <= n < |additions|
    requires Appended(base, ids, additions, h, |ids|, n)
    requires ReadyAt(hash, base, ids, additions, n)
    ensures MayFollow(hash, h, additions[n])
  {
    var a := additions[n].attachment;
    ReadyClaimable(base, ids, additions, h, n, a.callId, SentenceOf(a));
  }

  lemma {:induction false} PositionAt(ids: seq<Text>, id: Text) returns (p: nat)
    requires PositionOf(ids, id).Some?
    ensures p < |ids| && ids[p] == id
  {
    if Last(ids) == id {
      p := |ids| - 1;
    } else {
      p := PositionAt(Front(ids), id);
    }
  }

  lemma {:induction false} TailBytes(
      hash: Hashes, base: Items, turnIndex: u64, ids: seq<Text>, tail: Items, n: nat)
    requires MediaTail(hash, base, turnIndex, ids, tail).Ok? && n <= |tail|
    ensures Sum(Sizes(tail[..n])) <= MediaTail(hash, base, turnIndex, ids, tail).value.1
  {
    MediaTailBytes(hash, base, turnIndex, ids, tail);
    SplitAt(tail, n);
    SizesConcat(tail[..n], tail[n..]);
    SumConcat(Sizes(tail[..n]), Sizes(tail[n..]));
  }

  lemma {:induction false} NextMedia(base: Items, ids: seq<Text>, additions: Items, h: Items, n: nat)
    requires OutputsInOrder(ids, additions) && |ids| < n <= |additions|
    requires Appended(base, ids, additions, h, |ids|, n - 1)
    requires additions[n - 1].ToolMediaAttachment?
    ensures Appended(base, ids, additions, h + [additions[n - 1]], |ids|, n)
  {
    var last := additions[n - 1];
    MediaSnoc(h, last.attachment);
    assert Owns(last, last.attachment.callId);
    forall id | id in MediaIds(h) && Claimed(ids, additions, n - 1, id)
      ensures Claimed(ids, additions, n, id)
    {
      var i :| |ids| <= i < n - 1 && Owns(additions[i], id);
    }
  }

  predicate Roomy(base: Items, additions: Items, n: nat)
    requires n <= |additions|
  {
    Sum(Sizes(With(base, additions, n))) <= U64_MAX
  }

  /** The base and the first `n` additions, all outputs among them. */
  ghost predicate Grown(hash: Hashes, base: Items, ids: seq<Text>, additions: Items, n: nat) {
    && OutputsInOrder(ids, additions) && |ids| <= n <= |additions|
    && WellFormed(hash, With(base, additions, n))
    && Appended(base, ids, additions, With(base, additions, n), |ids|, n)
  }

  ghost predicate MayGrow(hash: Hashes, base: Items, ids: seq<Text>, additions: Items, n: nat)
    requires |ids| < n <= |additions|
  {
    ReadyAt(hash, base, ids, additions, n - 1) && Roomy(base, additions, n)
  }

  lemma {:induction false} GrownStep(
      hash: Hashes, base: Items, ids: seq<Text>, additions: Items, n: nat)
    requires |ids| < n <= |additions| && Grown(hash, base, ids, additions, n - 1)
    requires MayGrow(hash, base, ids, additions, n)
    ensures Grown(hash, base, ids, additions, n)
  {
    var h := With(base, additions, n - 1);
    ReadyMayFollow(hash, base, ids, additions, h, n - 1);
    WellFormedSnoc(hash, h, additions[n - 1]);
    NextMedia(base, ids, additions, h, n);
  }

  lemma {:induction false} SliceSizes(additions: Items, lo: nat, n: nat)
    requires lo <= n <= |additions|
    ensures Sizes(additions[lo..n]) == Sizes(additions[lo..][..n - lo])
  {
    TakeOfDrop(additions, lo, n);
  }

  lemma {:induction false} TailTotal(
      hash: Hashes, base: Items, turnIndex: u64, ids: seq<Text>, additions: Items, n: nat)
    requires |ids| <= n <= |additions|
    requires TailAccepted(hash, base, turnIndex, ids, additions[|ids|..])
    ensures Sum(Sizes(additions[|ids|..n])) <= READ_FILE_MEDIA_MAX_HISTORY_BYTES
  {
    TailBytes(hash, base, turnIndex, ids, additions[|ids|..], n - |ids|);
    SliceSizes(additions, |ids|, n);
  }

  lemma {:induction false} BatchTotal(base: Items, ids: seq<Text>, additions: Items, n: nat)
    requires OutputsInOrder(ids, additions) && |ids| <= n <= |additions|
    requires Sum(Sizes(additions[|ids|..n])) <= READ_FILE_MEDIA_MAX_HISTORY_BYTES
    requires Sum(Sizes(base)) + READ_FILE_MEDIA_MAX_HISTORY_BYTES <= U64_MAX
    ensures Roomy(base, additions, n)
  {
    OutputsHaveNoMedia(ids, additions, |ids|);
    TotalOf(base, additions[..|ids|], additions[|ids|..n]);
    TakeOfDrop(additions, |ids|, n);
    WithIsConcat(base, additions, n);
  }

  lemma {:induction false} TotalOf(base: Items, outputs: Items, media: Items)
    requires Sizes(outputs) == []
    ensures Sum(Sizes(base + (outputs + media))) == Sum(Sizes(base)) + Sum(Sizes(media))
  {
    SizesConcat(base, outputs + media);
    SizesConcat(outputs, media);
    EmptyConcat(Sizes(media));
    SumConcat(Sizes(base), Sizes(media));
  }

  lemma {:induction false} RoomLeft(
      hash: Hashes, base: Items, turnIndex: u64, ids: seq<Text>, additions: Items, n: nat)
    requires OutputsInOrder(ids, additions) && |ids| <= n <= |additions|
    requires TailAccepted(hash, base, turnIndex, ids, additions[|ids|..])
    requires Sum(Sizes(base)) + READ_FILE_MEDIA_MAX_HISTORY_BYTES <= U64_MAX
    ensures Roomy(base, additions, n)
  {
    TailTotal(hash, base, turnIndex, ids, additions, n);
    BatchTotal(base, ids, additions, n);
  }

  /** Every attachment of the batch may be added, and there is room for it. */
  ghost predicate AllReady(hash: Hashes, base: Items, ids: seq<Text>, additions: Items) {
    forall n :: |ids| < n <= |additions| ==> MayGrow(hash, base, ids, additions, n)
  }

  lemma {:induction false} GrowsAt(
      hash: Hashes, base: Items, turnIndex: u64, ids: seq<Text>, additions: Items, n: nat)
    requires BatchFrame(hash, base, turnIndex, ids, additions) && ExactOutputs(ids, additions)
    requires |ids| < n <= |additions|
    ensures MayGrow(hash, base, ids, additions, n)
  {
    FramedAt(hash, base, turnIndex, ids, additions, n - 1);
    AttachmentReady(hash, base, turnIndex, ids, additions, n - 1);
    RoomLeft(hash, base, turnIndex, ids, additions, n);
  }

  lemma {:induction false} BatchReady(
      hash: Hashes, base: Items, turnIndex: u64, ids: seq<Text>, additions: Items)
    requires BatchFrame(hash, base, turnIndex, ids, additions) && ExactOutputs(ids, additions)
    ensures AllReady(hash, base, ids, additions)
  {
    forall n | |ids| < n <= |additions| ensures MayGrow(hash, base, ids, additions, n) {
      GrowsAt(hash, base, turnIndex, ids, additions, n);
    }
  }

  lemma {:induction false} BatchStart(
      hash: Hashes, base: Items, turnIndex: u64, ids: seq<Text>, additions: Items)
    requires BatchFrame(hash, base, turnIndex, ids, additions)
    ensures Grown(hash, base, ids, additions, |ids|)
  {
    OutputsWellFormed(hash, base, ids, additions, |ids|);
  }

  lemma {:induction false} AllGrown(
      hash: Hashes, base: Items, ids: seq<Text>, additions: Items, n: nat)
    requires AllReady(hash, base, ids, additions) && |ids| <= n <= |additions|
    requires Grown(hash, base, ids, additions, |ids|)
    ensures Grown(hash, base, ids, additions, n)
  {
    if |ids| < n {
      AllGrown(hash, base, ids, additions, n - 1);
      assert MayGrow(hash, base, ids, additions, n);
      GrownStep(hash, base, ids, additions, n);
    }
  }

  lemma {:induction false} ExactBatchWellFormed(
      hash: Hashes, base: Items, turnIndex: u64, ids: seq<Text>, additions: Items)
    requires BatchFrame(hash, base, turnIndex, ids, additions) && ExactOutputs(ids, additions)
    ensures WellFormed(hash, base + additions)
  {
    BatchReady(hash, base, turnIndex, ids, additions);
    BatchStart(hash, base, turnIndex, ids, additions);
    AllGrown(hash, base, ids, additions, |additions|);
    WithIsConcat(base, additions, |additions|);
    TakeAll(additions);
  }

  /** With everything else in order, a batch is accepted exactly when the output of every
      attachment's call is the exact media sentence; otherwise it is rejected as a whole. */
  lemma {:induction false} BatchAcceptedExactly(
      hash: Hashes, base: Items, turnIndex: u64, ids: seq<Text>, additions: Items)
    requires BatchFrame(hash, base, turnIndex, ids, additions)
    ensures PrepareBatch(hash, base, turnIndex, ids, additions).Ok? <==>
              ExactOutputs(ids, additions)
  {
    InspectionSucceeds(hash, base + additions);
    if ExactOutputs(ids, additions) {
      ExactBatchWellFormed(hash, base, turnIndex, ids, additions);
    }
    if PrepareBatch(hash, base, turnIndex, ids, additions).Ok? {
      forall i, p | |ids| <= i < |additions| && 0 <= p < |ids| && Owns(additions[i], ids[p])
        ensures additions[p] == FunctionCallOutput(ids[p], SentenceOf(additions[i].attachment))
      {
        AttachmentNeedsExactOutput(hash, base, turnIndex, ids, additions, i, p);
      }
    }
  }

  // ---------- one rejected batch ----------

  function ExampleSha(): Text {
    seq(64, i requires 0 <= i < 64 => 48 as byte)
  }

  function ExampleHashes(): Hashes {
    Hashes((t: Text) => ExampleSha(), (h: Items) => ExampleSha())
  }

  const EXAMPLE_ID: Text := [99]
  const EXAMPLE_BASE: Items := [FunctionCall(EXAMPLE_ID, READ_FILE, [])]

  function ExampleMedia(): Attachment {
    Attachment(EXAMPLE_ID, [97], Png, 1, 1, ExampleSha(), Some(Origin(0, READ_FILE)), Magic(Png))
  }

  function ExampleBatch(output: Text): Items {
    [FunctionCallOutput(EXAMPLE_ID, output), ToolMediaAttachment(ExampleMedia())]
  }

  lemma {:induction false} ExamplePath()
    ensures ValidPath([97]) && ValidLabel(EXAMPLE_ID) && ValidLabel(READ_FILE)
  {
    var t: Text := [97];
    assert t[1..] == [];
    assert Split([]) == [[]];
    assert Split(t) == [[t[0]] + Split([])[0]] + Split([])[1..];
    assert [t[0]] + Split([])[0] == [97] && Split([])[1..] == [];
    assert Split(t) == [[97]];
    assert Ascii(".")[0] == 46 && |Ascii("..")| == 2;
  }

  lemma {:induction false} ExampleValid()
    ensures ValidAttachment(ExampleHashes(), ExampleMedia())
  {
    ExamplePath();
  }

  lemma {:induction false} ExampleBaseFits()
    ensures WellFormed(ExampleHashes(), EXAMPLE_BASE) && ExpectedCalls(EXAMPLE_BASE, [EXAMPLE_ID])
    ensures CallName(EXAMPLE_BASE, EXAMPLE_ID) == READ_FILE && OutputTexts(EXAMPLE_BASE) == map[]
    ensures Sizes(EXAMPLE_BASE) == []
  {
    assert Front(EXAMPLE_BASE) == [];
    assert NameScan([], EXAMPLE_ID) == Some([]);
    WellFormedFront(ExampleHashes(), EXAMPLE_BASE);
  }

  lemma {:induction false} ExampleFrame(output: Text)
    ensures BatchFrame(ExampleHashes(), EXAMPLE_BASE, 0, [EXAMPLE_ID], ExampleBatch(output))
  {
    ExampleValid();
    ExampleBaseFits();
    var tail := ExampleBatch(output)[1..];
    assert tail == [ToolMediaAttachment(ExampleMedia())] && Front(tail) == [];
    assert PositionOf([EXAMPLE_ID], EXAMPLE_ID) == Some(0);
    assert |Magic(Png)| == 8;
  }

  /** A `read_file` call with its image is accepted with its own sentence, and rejected with any
      footer behind it or when the budget left no room for the sentence. */
  lemma {:induction false} FooterRejectsBatch(footer: Text)
    requires ValidUtf8(footer)
    ensures var raw := SentenceOf(ExampleMedia());
            && PrepareBatch(ExampleHashes(), EXAMPLE_BASE, 0, [EXAMPLE_ID], ExampleBatch(raw)).Ok?
            && PrepareBatch(ExampleHashes(), EXAMPLE_BASE, 0, [EXAMPLE_ID],
                            ExampleBatch(raw + [10] + footer)).Err?
            && PrepareBatch(ExampleHashes(), EXAMPLE_BASE, 0, [EXAMPLE_ID],
                            ExampleBatch(TRUNCATION_MARKER)).Err?
  {
    var raw := SentenceOf(ExampleMedia());
    SentenceNoLineFeed(Png, 1, 1, ExampleSha());
    ExampleDecided(raw);
    ExampleDecided(raw + [10] + footer);
    ExampleDecided(TRUNCATION_MARKER);
  }

  lemma {:induction false} ExampleDecided(output: Text)
    ensures PrepareBatch(ExampleHashes(), EXAMPLE_BASE, 0, [EXAMPLE_ID], ExampleBatch(output)).Ok?
       <==> output == SentenceOf(ExampleMedia())
  {
    ExampleFrame(output);
    BatchAcceptedExactly(ExampleHashes(), EXAMPLE_BASE, 0, [EXAMPLE_ID], ExampleBatch(output));
    assert Owns(ExampleBatch(output)[1], [EXAMPLE_ID][0]);
  }
}
