/** Conversation history items, their validation, and the single-pass inspection that
    binds every media item to the tool call and output it came from. */
module History {
  import opened Base

  datatype MediaType = Png | Jpeg

  datatype Origin = Origin(turnIndex: u64, toolName: Text)

  datatype Attachment = Attachment(
    callId: Text, logicalPath: Text, mimeType: MediaType, width: u64, height: u64,
    sha256: Text, origin: Option<Origin>, bytes: Text)

  datatype Ledger = Ledger(
    originTurnIndex: u64, originToolName: Text, callId: Text, logicalPath: Text,
    mimeType: MediaType, width: u64, height: u64, byteLength: u64, sha256: Text,
    mediaBytesVisible: bool)

  datatype HistoryItem =
    | System(content: Text)
    | User(content: Text)
    | AssistantMessage(text: Text)
    | Reasoning(payload: Text)
    | FunctionCall(callId: Text, name: Text, argumentsJson: Text)
    | FunctionCallOutput(callId: Text, output: Text)
    | ToolMediaAttachment(attachment: Attachment)
    | MediaHistoryEviction(ledger: Ledger)

  type Items = seq<HistoryItem>

  /** SHA-256 in hexadecimal, over raw bytes and over the JSON form of a history. */
  datatype Hashes = Hashes(ofBytes: Text -> Text, ofHistory: Items -> Text)

  datatype Failure =
    | MediaAttachmentInvalid
    | MediaHistoryLedgerInvalid
    | MediaHistoryOriginInvalid
    | MediaAttachmentBindingInvalid
    | MediaHistoryBytesExceeded
    | MediaCountExceeded
    | MediaHistoryReceiptInvalid
    | MediaBatchInvalid

  const READ_FILE_MEDIA_MAX_BYTES: u64 := 4 * 1024 * 1024
  const READ_FILE_MEDIA_MAX_DIMENSION: u64 := 8192
  const READ_FILE_MEDIA_MAX_PIXELS: u64 := 25_000_000
  const READ_FILE_MEDIA_MAX_HISTORY_BYTES: u64 := 8 * 1024 * 1024
  const READ_FILE_MEDIA_MAX_HISTORY_ITEMS: u64 := 4

  // ---------- validation of one media item ----------

  /** `char::is_control` on UTF-8: the C0 block, DEL and the C1 block. */
  predicate HasControl(t: Text) {
    exists i :: 0 <= i < |t| &&
      (t[i] < 0x20 || t[i] == 0x7F || (t[i] == 0xC2 && i + 1 < |t| && 0x80 <= t[i + 1] <= 0x9F))
  }

  predicate ValidLabel(t: Text) {
    0 < |t| <= 256 && !HasControl(t)
  }

  /** `t.split('/')`. */
  function Split(t: Text): (parts: seq<Text>)
    ensures parts != []
  {
    if t == [] then [[]]
    else
      var rest := Split(t[1..]);
      if t[0] == 47 then [[]] + rest else [[t[0]] + rest[0]] + rest[1..]
  }

  predicate ValidPath(t: Text) {
    && 0 < |t| <= 4096
    && t[0] != 47
    && !HasControl(t)
    && forall part: Text :: part in Split(t) ==> part != [] && part != Ascii(".") && part != Ascii("..")
  }

  predicate LowerHex64(t: Text) {
    |t| == 64 && forall i :: 0 <= i < 64 ==> 48 <= t[i] <= 57 || 97 <= t[i] <= 102
  }

  predicate ValidDimensions(width: u64, height: u64) {
    && 0 < width <= READ_FILE_MEDIA_MAX_DIMENSION
    && 0 < height <= READ_FILE_MEDIA_MAX_DIMENSION
    && width * height <= READ_FILE_MEDIA_MAX_PIXELS
  }

  function Magic(m: MediaType): Text {
    match m
    case Png => [0x89, 0x50, 0x4E, 0x47, 0x0D, 0x0A, 0x1A, 0x0A]
    case Jpeg => [0xFF, 0xD8, 0xFF]
  }

  predicate ValidAttachment(hash: Hashes, a: Attachment) {
    && ValidLabel(a.callId)
    && ValidPath(a.logicalPath)
    && ValidDimensions(a.width, a.height)
    && 0 < |a.bytes| <= READ_FILE_MEDIA_MAX_BYTES
    && Magic(a.mimeType) <= a.bytes
    && LowerHex64(a.sha256)
    && hash.ofBytes(a.bytes) == a.sha256
    && (a.origin.Some? ==> ValidLabel(a.origin.value.toolName))
  }

  predicate ValidLedger(l: Ledger) {
    && ValidLabel(l.originToolName)
    && ValidLabel(l.callId)
    && ValidPath(l.logicalPath)
    && ValidDimensions(l.width, l.height)
    && 0 < l.byteLength <= READ_FILE_MEDIA_MAX_BYTES
    && LowerHex64(l.sha256)
    && !l.mediaBytesVisible
  }

  /** The provenance record that replaces an evicted attachment. */
  function LedgerOf(a: Attachment): Ledger
    requires a.origin.Some?
  {
    Ledger(a.origin.value.turnIndex, a.origin.value.toolName, a.callId, a.logicalPath,
           a.mimeType, a.width, a.height, Clamp(|a.bytes|), a.sha256, false)
  }

  function MimeText(m: MediaType): Text {
    match m
    case Png => Ascii("image/png")
    case Jpeg => Ascii("image/jpeg")
  }

  /** The one tool output that may accompany a media item. */
  function MediaSentence(mime: MediaType, width: u64, height: u64, sha256: Text): Text {
    Ascii("read_file returned an attached image: ") + MimeText(mime) + Ascii(", ")
    + Decimal(width) + Ascii("x") + Decimal(height) + Ascii(", sha256=") + sha256
  }

  const READ_FILE: Text := Ascii("read_file")

  // ---------- inspection ----------

  datatype Inspection = Inspection(
    calls: map<Text, Text>, outputs: map<Text, Text>, media: set<Text>,
    retainedCount: u64, retainedBytes: u64, evictedTotal: u64, indices: seq<nat>)

  const NOTHING_SEEN := Inspection(map[], map[], {}, 0, 0, 0, [])

  /** The media item's call is a `read_file` call whose output is exactly `sentence`. */
  predicate Bound(s: Inspection, callId: Text, tool: Text, sentence: Text) {
    && callId in s.calls && s.calls[callId] == tool
    && tool == READ_FILE
    && callId in s.outputs && s.outputs[callId] == sentence
    && callId !in s.media
  }

  function InspectItem(hash: Hashes, s: Inspection, item: HistoryItem, index: nat)
    : Result<Inspection, Failure>
  {
    match item
    case FunctionCall(id, name, _) =>
      if id in s.calls then Err(MediaHistoryOriginInvalid)
      else Ok(s.(calls := s.calls[id := name]))
    case FunctionCallOutput(id, output) =>
      if id in s.outputs then Err(MediaAttachmentBindingInvalid)
      else Ok(s.(outputs := s.outputs[id := output]))
    case ToolMediaAttachment(a) =>
      if !ValidAttachment(hash, a) then Err(MediaAttachmentInvalid)
      else if a.origin.None? then Err(MediaHistoryOriginInvalid)
      else if !Bound(s, a.callId, a.origin.value.toolName,
                     MediaSentence(a.mimeType, a.width, a.height, a.sha256))
      then Err(MediaAttachmentBindingInvalid)
      else
        var total := CheckedAdd(s.retainedBytes, Clamp(|a.bytes|));
        if total.None? then Err(MediaHistoryBytesExceeded)
        else Ok(s.(media := s.media + {a.callId}, indices := s.indices + [index],
                   retainedCount := SatAdd(s.retainedCount, 1), retainedBytes := total.value))
    case MediaHistoryEviction(l) =>
      if !ValidLedger(l) then Err(MediaHistoryLedgerInvalid)
      else if !Bound(s, l.callId, l.originToolName,
                     MediaSentence(l.mimeType, l.width, l.height, l.sha256))
      then Err(MediaAttachmentBindingInvalid)
      else Ok(s.(media := s.media + {l.callId}, evictedTotal := SatAdd(s.evictedTotal, 1)))
    case _ => Ok(s)
  }

  /** The inspection of a whole history, item by item from the oldest. */
  function Inspect(hash: Hashes, h: Items): Result<Inspection, Failure> {
    if h == [] then Ok(NOTHING_SEEN)
    else
      var before := Inspect(hash, Front(h));
      if before.Err? then before else InspectItem(hash, before.value, Last(h), |h| - 1)
  }

  lemma {:induction false} InspectPrefix(hash: Hashes, h: Items, more: Items)
    ensures Inspect(hash, h).Err? ==> Inspect(hash, h + more) == Inspect(hash, h)
  {
    if more == [] {
      assert h + more == h;
    } else {
      InspectPrefix(hash, h, Front(more));
      assert Front(h + more) == h + Front(more);
    }
  }

  /** `inspect_media_history`: the loop computes `Inspect`. */
  method InspectMediaHistory(hash: Hashes, h: Items) returns (r: Result<Inspection, Failure>)
    ensures r == Inspect(hash, h)
  {
    var state := NOTHING_SEEN;
    for i := 0 to |h|
      invariant Inspect(hash, h[..i]) == Ok(state)
    {
      assert Front(h[..i + 1]) == h[..i];
      var next := InspectItem(hash, state, h[i], i);
      if next.Err? {
        InspectPrefix(hash, h[..i + 1], h[i + 1..]);
        assert h == h[..i + 1] + h[i + 1..];
        return next;
      }
      state := next.value;
    }
    assert h[..|h|] == h;
    return Ok(state);
  }

  // ---------- what a successful inspection means ----------

  /** Sizes of the attachments, oldest first. */
  function Sizes(h: Items): seq<nat> {
    if h == [] then []
    else if Last(h).ToolMediaAttachment? then
      Sizes(Front(h)) + [|Last(h).attachment.bytes|]
    else Sizes(Front(h))
  }

  /** Number of attachments already evicted. */
  function Ledgers(h: Items): nat {
    if h == [] then 0
    else Ledgers(Front(h)) + if Last(h).MediaHistoryEviction? then 1 else 0
  }

  /** Positions of the attachments, oldest first. */
  function AttachmentIndices(h: Items): (indices: seq<nat>)
    ensures |indices| == |Sizes(h)|
  {
    if h == [] then []
    else if Last(h).ToolMediaAttachment? then AttachmentIndices(Front(h)) + [|h| - 1]
    else AttachmentIndices(Front(h))
  }

  function Sum(s: seq<nat>): nat {
    if s == [] then 0 else Sum(Front(s)) + Last(s)
  }

  function CallNames(h: Items): map<Text, Text> {
    if h == [] then map[]
    else if Last(h).FunctionCall? then CallNames(Front(h))[Last(h).callId := Last(h).name]
    else CallNames(Front(h))
  }

  function OutputTexts(h: Items): map<Text, Text> {
    if h == [] then map[]
    else if Last(h).FunctionCallOutput? then
      OutputTexts(Front(h))[Last(h).callId := Last(h).output]
    else OutputTexts(Front(h))
  }

  function MediaIds(h: Items): set<Text> {
    if h == [] then {}
    else MediaIds(Front(h)) +
         match Last(h)
         case ToolMediaAttachment(a) => {a.callId}
         case MediaHistoryEviction(l) => {l.callId}
         case _ => {}
  }

  /** What may follow `before`: a fresh call, a fresh output, or a valid media item whose
      `read_file` call and exact output are already in `before` and not yet claimed. */
  predicate MayFollow(hash: Hashes, before: Items, item: HistoryItem) {
    match item
    case FunctionCall(id, _, _) => id !in CallNames(before)
    case FunctionCallOutput(id, _) => id !in OutputTexts(before)
    case ToolMediaAttachment(a) =>
      && ValidAttachment(hash, a)
      && a.origin.Some? && a.origin.value.toolName == READ_FILE
      && Claimable(before, a.callId, MediaSentence(a.mimeType, a.width, a.height, a.sha256))
    case MediaHistoryEviction(l) =>
      && ValidLedger(l) && l.originToolName == READ_FILE
      && Claimable(before, l.callId, MediaSentence(l.mimeType, l.width, l.height, l.sha256))
    case _ => true
  }

  predicate Claimable(before: Items, callId: Text, sentence: Text) {
    && callId in CallNames(before) && CallNames(before)[callId] == READ_FILE
    && callId in OutputTexts(before) && OutputTexts(before)[callId] == sentence
    && callId !in MediaIds(before)
  }

  predicate FollowsAt(hash: Hashes, h: Items, i: nat)
    requires i < |h|
  {
    MayFollow(hash, h[..i], h[i])
  }

  /** Every item may follow the items before it, and the attachments total at most 2^64-1 bytes. */
  ghost predicate WellFormed(hash: Hashes, h: Items) {
    && (forall i :: 0 <= i < |h| ==> FollowsAt(hash, h, i))
    && Sum(Sizes(h)) <= U64_MAX
  }

  lemma {:induction false} FollowsFront(hash: Hashes, h: Items, i: nat)
    requires h != [] && i < |h|
    ensures i < |h| - 1 ==> (FollowsAt(hash, h, i) <==> FollowsAt(hash, Front(h), i))
    ensures i == |h| - 1 ==> (FollowsAt(hash, h, i) <==> MayFollow(hash, Front(h), Last(h)))
  {
    if i < |h| - 1 {
      TakeLess(h, i, |h| - 1);
      TakeLess(h, i + 1, |h| - 1);
    }
  }

  lemma {:induction false} WellFormedFront(hash: Hashes, h: Items)
    requires h != []
    ensures WellFormed(hash, h) <==>
      WellFormed(hash, Front(h)) && MayFollow(hash, Front(h), Last(h)) && Sum(Sizes(h)) <= U64_MAX
  {
    SizesFront(h);
    if WellFormed(hash, Front(h)) && MayFollow(hash, Front(h), Last(h)) && Sum(Sizes(h)) <= U64_MAX {
      forall i | 0 <= i < |h| ensures FollowsAt(hash, h, i) {
        FollowsFront(hash, h, i);
      }
    }
    if WellFormed(hash, h) {
      assert FollowsAt(hash, h, |h| - 1);
      FollowsFront(hash, h, |h| - 1);
      forall i | 0 <= i < |Front(h)| ensures FollowsAt(hash, Front(h), i) {
        FollowsFront(hash, h, i);
      }
    }
  }

  lemma {:induction false} SumSnoc(s: seq<nat>, x: nat)
    ensures Sum(s + [x]) == Sum(s) + x
  {
    SnocParts(s, x);
  }

  lemma {:induction false} SizesFront(h: Items)
    requires h != []
    ensures !Last(h).ToolMediaAttachment? ==> Sizes(h) == Sizes(Front(h))
    ensures Last(h).ToolMediaAttachment? ==>
      && Sizes(h) == Sizes(Front(h)) + [|Last(h).attachment.bytes|]
      && Sum(Sizes(h)) == Sum(Sizes(Front(h))) + |Last(h).attachment.bytes|
  {
    if Last(h).ToolMediaAttachment? {
      SumSnoc(Sizes(Front(h)), |Last(h).attachment.bytes|);
    }
  }

  /** The exact record of calls, outputs, claimed media, clamped totals and positions. */
  function Summary(h: Items): Inspection {
    Inspection(CallNames(h), OutputTexts(h), MediaIds(h),
               Clamp(|Sizes(h)|), Clamp(Sum(Sizes(h))), Clamp(Ledgers(h)), AttachmentIndices(h))
  }

  /** One more item: the step succeeds exactly when the item may follow, and then it
      yields the summary of the longer history. */
  ghost predicate StepAgrees(hash: Hashes, h: Items)
    requires h != []
  {
    var step := InspectItem(hash, Summary(Front(h)), Last(h), |h| - 1);
    && (step.Ok? <==> MayFollow(hash, Front(h), Last(h)) && Sum(Sizes(h)) <= U64_MAX)
    && (step.Ok? ==> step.value == Summary(h))
  }

  lemma {:induction false} NoNewAttachment(h: Items)
    requires h != [] && !Last(h).ToolMediaAttachment?
    ensures Sizes(h) == Sizes(Front(h)) && AttachmentIndices(h) == AttachmentIndices(Front(h))
  {
  }

  lemma {:induction false} SummaryOfAttachment(h: Items)
    requires h != [] && Last(h).ToolMediaAttachment? && Sum(Sizes(Front(h))) <= U64_MAX
    ensures var before, a := Summary(Front(h)), Last(h).attachment;
            && Sum(Sizes(h)) == before.retainedBytes + |a.bytes|
            && (Sum(Sizes(h)) <= U64_MAX ==>
                  Summary(h) == before.(
                    media := before.media + {a.callId}, indices := before.indices + [|h| - 1],
                    retainedCount := SatAdd(before.retainedCount, 1),
                    retainedBytes := before.retainedBytes + |a.bytes|))
  {
    SizesFront(h);
  }

  lemma {:induction false} InspectAttachment(hash: Hashes, h: Items)
    requires h != [] && Sum(Sizes(Front(h))) <= U64_MAX
    requires Last(h).ToolMediaAttachment?
    ensures StepAgrees(hash, h)
  {
    SummaryOfAttachment(h);
  }

  lemma {:induction false} SummaryOfLedger(h: Items)
    requires h != [] && Last(h).MediaHistoryEviction?
    ensures var before := Summary(Front(h));
            Summary(h) == before.(media := before.media + {Last(h).ledger.callId},
                                  evictedTotal := SatAdd(before.evictedTotal, 1))
    ensures Sizes(h) == Sizes(Front(h))
  {
    NoNewAttachment(h);
  }

  lemma {:induction false} InspectLedger(hash: Hashes, h: Items)
    requires h != [] && Sum(Sizes(Front(h))) <= U64_MAX
    requires Last(h).MediaHistoryEviction?
    ensures StepAgrees(hash, h)
  {
    SummaryOfLedger(h);
  }

  lemma {:induction false} SummaryOfCall(h: Items)
    requires h != [] && (Last(h).FunctionCall? || Last(h).FunctionCallOutput?)
    ensures var before := Summary(Front(h));
            Summary(h) == match Last(h)
              case FunctionCall(id, name, _) => before.(calls := before.calls[id := name])
              case FunctionCallOutput(id, output) => before.(outputs := before.outputs[id := output])
    ensures Sizes(h) == Sizes(Front(h))
  {
    NoNewAttachment(h);
  }

  lemma {:induction false} InspectCall(hash: Hashes, h: Items)
    requires h != [] && Sum(Sizes(Front(h))) <= U64_MAX
    requires Last(h).FunctionCall? || Last(h).FunctionCallOutput?
    ensures StepAgrees(hash, h)
  {
    SummaryOfCall(h);
  }

  predicate Unbound(item: HistoryItem) {
    item.System? || item.User? || item.AssistantMessage? || item.Reasoning?
  }

  lemma {:induction false} SummaryOfOther(h: Items)
    requires h != [] && Unbound(Last(h))
    ensures Summary(h) == Summary(Front(h)) && Sizes(h) == Sizes(Front(h))
  {
    NoNewAttachment(h);
  }

  lemma {:induction false} InspectOther(hash: Hashes, h: Items)
    requires h != [] && Sum(Sizes(Front(h))) <= U64_MAX && Unbound(Last(h))
    ensures StepAgrees(hash, h)
  {
    SummaryOfOther(h);
  }

  lemma {:induction false} InspectItemMeaning(hash: Hashes, h: Items)
    requires h != [] && Sum(Sizes(Front(h))) <= U64_MAX
    ensures StepAgrees(hash, h)
  {
    match Last(h)
    case ToolMediaAttachment(_) => InspectAttachment(hash, h);
    case MediaHistoryEviction(_) => InspectLedger(hash, h);
    case FunctionCall(_, _, _) => InspectCall(hash, h);
    case FunctionCallOutput(_, _) => InspectCall(hash, h);
    case _ => InspectOther(hash, h);
  }

  /** Inspection succeeds exactly on well-formed histories, and its result is `Summary`. */
  lemma {:induction false} InspectionMeaning(hash: Hashes, h: Items)
    ensures Inspect(hash, h).Ok? <==> WellFormed(hash, h)
    ensures Inspect(hash, h).Ok? ==> Inspect(hash, h).value == Summary(h)
  {
    if h != [] {
      InspectionMeaning(hash, Front(h));
      WellFormedFront(hash, h);
      if WellFormed(hash, Front(h)) {
        InspectItemMeaning(hash, h);
      }
    }
  }

  lemma {:induction false} InspectionSucceeds(hash: Hashes, h: Items)
    ensures Inspect(hash, h).Ok? <==> WellFormed(hash, h)
  {
    InspectionMeaning(hash, h);
  }
}
