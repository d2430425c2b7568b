/** The in-place policy, receipt validation, and the all-or-nothing extension of a
    history by one tool turn. */
module MediaBatch {
  import opened Base
  import opened History
  import opened MediaPolicy

  // ---------- the policy as an in-place algorithm ----------

  lemma {:induction false} IndexedSize(h: Items, p: nat)
    requires p < |Sizes(h)|
    ensures AttachmentIndices(h)[p] < |h| && h[AttachmentIndices(h)[p]].ToolMediaAttachment?
    ensures Sizes(h)[p] == |h[AttachmentIndices(h)[p]].attachment.bytes|
  {
    if p < |Sizes(Front(h))| {
      IndexedSize(Front(h), p);
      OlderIndex(h, p);
    } else {
      NewestIndex(h, p);
    }
  }

  lemma {:induction false} OlderIndex(h: Items, p: nat)
    requires h != [] && p < |Sizes(Front(h))| && AttachmentIndices(Front(h))[p] < |h| - 1
    ensures p < |Sizes(h)| && Sizes(h)[p] == Sizes(Front(h))[p]
    ensures AttachmentIndices(h)[p] == AttachmentIndices(Front(h))[p]
    ensures h[AttachmentIndices(h)[p]] == Front(h)[AttachmentIndices(Front(h))[p]]
  {
    SizesFront(h);
  }

  lemma {:induction false} NewestIndex(h: Items, p: nat)
    requires h != [] && |Sizes(Front(h))| <= p < |Sizes(h)|
    ensures AttachmentIndices(h)[p] == |h| - 1 && Last(h).ToolMediaAttachment?
    ensures Sizes(h)[p] == |Last(h).attachment.bytes|
  {
    SizesFront(h);
  }

  /** The history with the attachment at `i` replaced by its ledger. */
  function Ledgered(h: Items, evicted: Items, i: nat): Items
    requires i < |h| == |evicted| && Evictable(h[i])
  {
    evicted[i := MediaHistoryEviction(LedgerOf(h[i].attachment))]
  }

  /** Evicting one more attachment is one write at that attachment's position. */
  lemma {:induction false} EvictOneMore(h: Items, j: nat)
    requires j < |Sizes(h)| && AllEvictable(h)
    ensures
      var i := AttachmentIndices(h)[j];
      && i < |h| && Evictable(h[i])
      && EvictOldest(h, j)[i] == h[i]
      && EvictOldest(h, j + 1) == Ledgered(h, EvictOldest(h, j), i)
  {
    if j < |Sizes(Front(h))| {
      EvictOneMore(Front(h), j);
      OlderIndex(h, j);
      LedgeredStep(h, j, AttachmentIndices(h)[j]);
    } else {
      EvictNewest(h, j);
    }
  }

  lemma {:induction false} LedgeredStep(h: Items, j: nat, i: nat)
    requires h != [] && i < |h| - 1 && j < |Sizes(Front(h))| && Evictable(Front(h)[i])
    requires EvictOldest(Front(h), j)[i] == Front(h)[i]
    requires EvictOldest(Front(h), j + 1) == Ledgered(Front(h), EvictOldest(Front(h), j), i)
    ensures EvictOldest(h, j)[i] == h[i]
    ensures EvictOldest(h, j + 1) == Ledgered(h, EvictOldest(h, j), i)
  {
    EvictSnoc(h, j);
    EvictSnoc(h, j + 1);
    SnocEqual(EvictOldest(h, j + 1), Ledgered(h, EvictOldest(h, j), i));
  }

  lemma {:induction false} EvictNewest(h: Items, j: nat)
    requires h != [] && |Sizes(Front(h))| <= j < |Sizes(h)| && AllEvictable(h)
    ensures AttachmentIndices(h)[j] == |h| - 1 && Evictable(Last(h))
    ensures EvictOldest(h, j)[|h| - 1] == Last(h)
    ensures EvictOldest(h, j + 1) == Ledgered(h, EvictOldest(h, j), |h| - 1)
  {
    NewestIndex(h, j);
    SizesFront(h);
    assert Evictable(h[|h| - 1]);
    EvictSnoc(h, j);
    EvictSnoc(h, j + 1);
    EvictAll(Front(h), j, j + 1);
    SnocEqual(EvictOldest(h, j + 1), Ledgered(h, EvictOldest(h, j), |h| - 1));
  }

  lemma {:induction false} EvictAll(h: Items, j: nat, k: nat)
    requires |Sizes(h)| <= j && |Sizes(h)| <= k
    ensures EvictOldest(h, j) == EvictOldest(h, k)
  {
    if h != [] {
      SizesFront(h);
      EvictAll(Front(h), j, k);
    }
  }

  /** The scan from the newest attachment that finds the first one to keep. */
  method RetainFrom(sizes: seq<nat>, maxItems: u64, maxBytes: u64)
    returns (retainFrom: nat, retainedCount: u64, retainedBytes: u64)
    requires forall i :: 0 <= i < |sizes| ==> sizes[i] <= U64_MAX
    ensures LeastDrop(sizes, maxItems, maxBytes, retainFrom)
    ensures retainedCount == Clamp(|sizes| - retainFrom)
    ensures retainedBytes == Sum(sizes[retainFrom..])
  {
    retainFrom, retainedCount, retainedBytes := |sizes|, 0, 0;
    while retainFrom > 0
      invariant retainFrom <= |sizes|
      invariant retainedCount == Clamp(|sizes| - retainFrom)
      invariant retainedBytes == Sum(sizes[retainFrom..])
      invariant Fits(sizes[retainFrom..], maxItems, maxBytes)
    {
      var position := retainFrom - 1;
      var nextCount := SatAdd(retainedCount, 1);
      var nextBytes := CheckedAdd(retainedBytes, Clamp(sizes[position]));
      SumCons(sizes, position);
      if nextCount > maxItems || nextBytes.None? || nextBytes.value > maxBytes {
        NothingLongerFits(sizes, maxItems, maxBytes, position);
        return;
      }
      retainFrom, retainedCount, retainedBytes := position, nextCount, nextBytes.value;
    }
  }

  lemma {:induction false} SumCons(sizes: seq<nat>, p: nat)
    requires p < |sizes|
    ensures Sum(sizes[p..]) == sizes[p] + Sum(sizes[p + 1..])
  {
    assert sizes[p..] == [sizes[p]] + sizes[p + 1..];
    SumConcat([sizes[p]], sizes[p + 1..]);
    SumSnoc([], sizes[p]);
    assert [] + [sizes[p]] == [sizes[p]];
  }

  lemma {:induction false} NothingLongerFits(sizes: seq<nat>, maxItems: u64, maxBytes: u64, p: nat)
    requires p < |sizes| && !Fits(sizes[p..], maxItems, maxBytes)
    ensures forall j :: 0 <= j <= p ==> !Fits(sizes[j..], maxItems, maxBytes)
  {
    forall j | 0 <= j <= p ensures !Fits(sizes[j..], maxItems, maxBytes) {
      SumConcat(sizes[j..p], sizes[p..]);
      assert sizes[j..] == sizes[j..p] + sizes[p..];
    }
  }

  predicate AllBounded(h: Items) {
    forall i :: 0 <= i < |h| ==> h[i].ToolMediaAttachment? ==>
      |h[i].attachment.bytes| <= READ_FILE_MEDIA_MAX_BYTES
  }

  lemma {:induction false} WellFormedBounded(hash: Hashes, h: Items)
    requires WellFormed(hash, h)
    ensures AllBounded(h)
  {
    forall i | 0 <= i < |h| && h[i].ToolMediaAttachment?
      ensures |h[i].attachment.bytes| <= READ_FILE_MEDIA_MAX_BYTES
    {
      assert FollowsAt(hash, h, i);
    }
  }

  method AttachmentSizes(h: Items, indices: seq<nat>) returns (sizes: seq<nat>)
    requires indices == AttachmentIndices(h)
    requires AllBounded(h)
    ensures sizes == Sizes(h)
    ensures forall i :: 0 <= i < |sizes| ==> sizes[i] <= U64_MAX
  {
    sizes := [];
    for p := 0 to |indices|
      invariant sizes == Sizes(h)[..p]
      invariant forall i :: 0 <= i < |sizes| ==> sizes[i] <= U64_MAX
    {
      IndexedSize(h, p);
      sizes := sizes + [|h[indices[p]].attachment.bytes|];
    }
  }

  /** `apply_media_history_policy_with_limits`: rewrites the history in place to the
      windowed history of `Policy`, or leaves it untouched when inspection fails. */
  method ApplyMediaHistoryPolicy(
      hash: Hashes, history: array<HistoryItem>, maxItems: u64, maxBytes: u64)
    returns (r: Result<Receipt, Failure>)
    modifies history
    ensures
      match Policy(hash, old(history[..]), maxItems, maxBytes)
      case Ok((windowed, receipt)) => history[..] == windowed && r == Ok(receipt)
      case Err(e) => history[..] == old(history[..]) && r == Err(e)
  {
    ghost var h := history[..];
    var seen := InspectMediaHistory(hash, history[..]);
    if seen.Err? {
      return Err(seen.error);
    }
    InspectedHistory(hash, h);
    var indices := seen.value.indices;
    var sizes := AttachmentSizes(history[..], indices);
    var retainFrom, retainedCount, retainedBytes := RetainFrom(sizes, maxItems, maxBytes);
    WindowOutcome(hash, h, maxItems, maxBytes, retainFrom);
    EvictInPlace(history, indices, retainFrom);
    r := Ok(Receipt(hash.ofHistory(history[..]), retainedCount, retainedBytes,
                    SatAdd(seen.value.evictedTotal, Clamp(retainFrom))));
  }

  /** The policy's result, from the number of attachments the scan drops. */
  lemma {:induction false} WindowOutcome(
      hash: Hashes, h: Items, maxItems: u64, maxBytes: u64, k: nat)
    requires Inspect(hash, h).Ok? && LeastDrop(Sizes(h), maxItems, maxBytes, k)
    ensures var windowed := EvictOldest(h, k);
            Policy(hash, h, maxItems, maxBytes) == Ok((windowed, Receipt(
              hash.ofHistory(windowed), Clamp(|Sizes(h)| - k), Clamp(Sum(Sizes(h)[k..])),
              SatAdd(Inspect(hash, h).value.evictedTotal, Clamp(k)))))
  {
    InspectedHistory(hash, h);
    LeastDropUnique(Sizes(h), maxItems, maxBytes, k);
    ReceiptAfter(hash, h, k);
  }

  lemma {:induction false} ReceiptAfter(hash: Hashes, h: Items, k: nat)
    requires AllEvictable(h) && k <= |Sizes(h)|
    ensures ReceiptFor(hash, EvictOldest(h, k)) == Receipt(
              hash.ofHistory(EvictOldest(h, k)), Clamp(|Sizes(h)| - k), Clamp(Sum(Sizes(h)[k..])),
              SatAdd(Clamp(Ledgers(h)), Clamp(k)))
  {
    ReceiptTotals(h, k);
  }

  lemma {:induction false} InspectedHistory(hash: Hashes, h: Items)
    requires Inspect(hash, h).Ok?
    ensures Inspect(hash, h).value.indices == AttachmentIndices(h)
    ensures Inspect(hash, h).value.evictedTotal == Clamp(Ledgers(h))
    ensures AllEvictable(h) && AllBounded(h) && Sum(Sizes(h)) <= U64_MAX
  {
    InspectionMeaning(hash, h);
    WellFormedEvictable(hash, h);
    WellFormedBounded(hash, h);
  }

  lemma {:induction false} ReceiptTotals(h: Items, k: nat)
    requires AllEvictable(h) && k <= |Sizes(h)|
    ensures Sizes(EvictOldest(h, k)) == Sizes(h)[k..]
    ensures Clamp(Ledgers(EvictOldest(h, k))) == SatAdd(Clamp(Ledgers(h)), Clamp(k))
  {
    SizesAfterEviction(h, k);
  }

  /** Replaces the `count` oldest attachments by their ledgers, one write each. */
  method EvictInPlace(history: array<HistoryItem>, indices: seq<nat>, count: nat)
    requires indices == AttachmentIndices(history[..]) && count <= |indices|
    requires AllEvictable(history[..])
    modifies history
    ensures history[..] == EvictOldest(old(history[..]), count)
  {
    ghost var h := history[..];
    EvictNothing(h);
    for j := 0 to count
      invariant history[..] == EvictOldest(h, j)
    {
      EvictOneMore(h, j);
      IndexedSize(h, j);
      ghost var before := history[..];
      assert before[indices[j]] == history[indices[j]];
      var ledger := LedgerOf(history[indices[j]].attachment);
      history[indices[j]] := MediaHistoryEviction(ledger);
      assert history[..] == before[indices[j] := MediaHistoryEviction(ledger)];
    }
  }

  // ---------- receipts ----------

  /** `validate_media_history_policy_receipt`. */
  function ValidateReceipt(hash: Hashes, h: Items, receipt: Receipt): Result<(), Failure> {
    var seen := Inspect(hash, h);
    if seen.Err? then Err(seen.error)
    else if seen.value.retainedCount > READ_FILE_MEDIA_MAX_HISTORY_ITEMS then Err(MediaCountExceeded)
    else if seen.value.retainedBytes > READ_FILE_MEDIA_MAX_HISTORY_BYTES then
      Err(MediaHistoryBytesExceeded)
    else if receipt != Receipt(hash.ofHistory(h), seen.value.retainedCount,
                               seen.value.retainedBytes, seen.value.evictedTotal)
    then Err(MediaHistoryReceiptInvalid)
    else Ok(())
  }

  /** The live policy's own receipt always validates against the history it returned, and
      no other receipt does. */
  lemma {:induction false} ReceiptValidates(hash: Hashes, h: Items, receipt: Receipt)
    requires LivePolicy(hash, h).Ok?
    ensures
      var (windowed, issued) := LivePolicy(hash, h).value;
      ValidateReceipt(hash, windowed, receipt).Ok? <==> receipt == issued
  {
    PolicyKeepsNewestSuffix(hash, h, READ_FILE_MEDIA_MAX_HISTORY_ITEMS,
                            READ_FILE_MEDIA_MAX_HISTORY_BYTES);
    var windowed := LivePolicy(hash, h).value.0;
    InspectionMeaning(hash, windowed);
  }

  // ---------- one tool turn as an indivisible batch ----------

  /** The name recorded for an id while scanning calls from the oldest: empty while none
      was seen, `None` once a named call is followed by another call of that id. */
  function NameScan(h: Items, id: Text): Option<Text> {
    if h == [] then Some([]) else NameStep(NameScan(Front(h), id), Last(h), id)
  }

  function NameStep(seen: Option<Text>, item: HistoryItem, id: Text): Option<Text> {
    if seen.None? || !item.FunctionCall? || item.callId != id then seen
    else if seen.value != [] then None
    else Some(item.name)
  }

  function CallName(h: Items, id: Text): Text {
    var seen := NameScan(h, id);
    if seen.None? then [] else seen.value
  }

  lemma {:induction false} NameScanNext(h: Items, i: nat, id: Text)
    requires i < |h|
    ensures NameScan(h[..i + 1], id) == NameStep(NameScan(h[..i], id), h[i], id)
  {
    TakeNext(h, i);
  }

  lemma {:induction false} NameScanStuck(h: Items, i: nat, id: Text)
    requires i <= |h| && NameScan(h[..i], id).None?
    ensures NameScan(h, id).None?
    decreases |h| - i
  {
    if i < |h| {
      NameScanNext(h, i, id);
      NameScanStuck(h, i + 1, id);
    } else {
      assert h[..i] == h;
    }
  }

  /** Every expected id is nonempty, new in the list, and names a call of the base. */
  predicate ExpectedCalls(base: Items, ids: seq<Text>) {
    && ids != [] && DistinctIds(ids)
    && (forall i :: 0 <= i < |ids| ==> CallName(base, ids[i]) != [])
  }

  predicate OutputsInOrder(ids: seq<Text>, additions: Items) {
    && |ids| <= |additions|
    && forall i :: 0 <= i < |ids| ==>
         additions[i].FunctionCallOutput? && additions[i].callId == ids[i]
  }

  function PositionOf(ids: seq<Text>, id: Text): Option<nat> {
    if ids == [] then None
    else if Last(ids) == id then Some(|ids| - 1)
    else PositionOf(Front(ids), id)
  }

  /** The attachments after the outputs: valid, from this turn and this call's tool, at
      most one per call and in call order. Yields the last position and the total bytes. */
  function MediaTail(hash: Hashes, base: Items, turnIndex: u64, ids: seq<Text>, tail: Items)
    : Result<(Option<nat>, u64), Failure>
  {
    if tail == [] then Ok((None, 0))
    else
      var before := MediaTail(hash, base, turnIndex, ids, Front(tail));
      if before.Err? then before
      else MediaTailItem(hash, base, turnIndex, ids, before.value, Last(tail))
  }

  function MediaTailItem(
      hash: Hashes, base: Items, turnIndex: u64, ids: seq<Text>,
      before: (Option<nat>, u64), item: HistoryItem)
    : Result<(Option<nat>, u64), Failure>
  {
    if !item.ToolMediaAttachment? then Err(MediaBatchInvalid)
    else
      var a := item.attachment;
      if !ValidAttachment(hash, a) then Err(MediaAttachmentInvalid)
      else
        var position := PositionOf(ids, a.callId);
        if position.None? then Err(MediaBatchInvalid)
        else if before.0.Some? && before.0.value >= position.value then Err(MediaBatchInvalid)
        else if a.origin.None? then Err(MediaHistoryOriginInvalid)
        else if a.origin.value != Origin(turnIndex, CallName(base, a.callId))
        then Err(MediaHistoryOriginInvalid)
        else
          var total := CheckedAdd(before.1, Clamp(|a.bytes|));
          if total.None? then Err(MediaHistoryBytesExceeded) else Ok((position, total.value))
  }

  /** `prepare_media_history_batch`. */
  function PrepareBatch(hash: Hashes, base: Items, turnIndex: u64, ids: seq<Text>, additions: Items)
    : Result<(Items, Receipt), Failure>
  {
    if |additions| > 2 * |ids| || !ExpectedCalls(base, ids) || !OutputsInOrder(ids, additions)
    then Err(MediaBatchInvalid)
    else
      var tail := MediaTail(hash, base, turnIndex, ids, additions[|ids|..]);
      if tail.Err? then Err(tail.error)
      else if tail.value.1 > READ_FILE_MEDIA_MAX_HISTORY_BYTES then Err(MediaHistoryBytesExceeded)
      else LivePolicy(hash, base + additions)
  }

  lemma {:induction false} MediaTailBytes(
      hash: Hashes, base: Items, turnIndex: u64, ids: seq<Text>, tail: Items)
    requires MediaTail(hash, base, turnIndex, ids, tail).Ok?
    ensures Sum(Sizes(tail)) == MediaTail(hash, base, turnIndex, ids, tail).value.1
    ensures |Sizes(tail)| == |tail|
  {
    if tail != [] {
      MediaTailBytes(hash, base, turnIndex, ids, Front(tail));
      SizesFront(tail);
    }
  }

  lemma {:induction false} OutputsHaveNoMedia(ids: seq<Text>, additions: Items, n: nat)
    requires OutputsInOrder(ids, additions) && n <= |ids|
    ensures Sizes(additions[..n]) == []
  {
    if n > 0 {
      OutputsHaveNoMedia(ids, additions, n - 1);
      TakeNext(additions, n - 1);
      SizesFront(additions[..n]);
    }
  }

  /** The sizes carried by an accepted batch are those of its tail and fit the byte cap. */
  lemma {:induction false} BatchSizes(
      hash: Hashes, base: Items, turnIndex: u64, ids: seq<Text>, additions: Items)
    requires PrepareBatch(hash, base, turnIndex, ids, additions).Ok?
    ensures Sum(Sizes(additions)) <= READ_FILE_MEDIA_MAX_HISTORY_BYTES
    ensures |Sizes(additions)| == |additions| - |ids|
  {
    var tail := additions[|ids|..];
    MediaTailBytes(hash, base, turnIndex, ids, tail);
    OutputsHaveNoMedia(ids, additions, |ids|);
    SizesConcat(additions[..|ids|], tail);
    SplitAt(additions, |ids|);
    EmptyConcat(Sizes(tail));
  }

  /** An accepted batch whose attachments are within the item cap is appended verbatim:
      none of its own media is evicted, and only older attachments make room for it. */
  lemma {:induction false} BatchKeepsItsMedia(
      hash: Hashes, base: Items, turnIndex: u64, ids: seq<Text>, additions: Items)
    requires PrepareBatch(hash, base, turnIndex, ids, additions).Ok?
    requires |additions| - |ids| <= READ_FILE_MEDIA_MAX_HISTORY_ITEMS
    ensures
      var (extended, _) := PrepareBatch(hash, base, turnIndex, ids, additions).value;
      && |extended| == |base| + |additions|
      && extended[|base|..] == additions
      && exists k: nat :: extended[..|base|] == EvictOldest(base, k)
  {
    var k := BatchWindow(hash, base, turnIndex, ids, additions);
    ConcatParts(EvictOldest(base, k), additions);
  }

  lemma {:induction false} BatchWindow(
      hash: Hashes, base: Items, turnIndex: u64, ids: seq<Text>, additions: Items)
    returns (k: nat)
    requires PrepareBatch(hash, base, turnIndex, ids, additions).Ok?
    requires |additions| - |ids| <= READ_FILE_MEDIA_MAX_HISTORY_ITEMS
    ensures PrepareBatch(hash, base, turnIndex, ids, additions).value.0
         == EvictOldest(base, k) + additions
  {
    BatchSizes(hash, base, turnIndex, ids, additions);
    WholeEvictable(hash, base, additions);
    k := OlderDropped(base, additions);
    EvictThenExtend(base, additions, k);
  }

  lemma {:induction false} WholeEvictable(hash: Hashes, base: Items, additions: Items)
    requires Inspect(hash, base + additions).Ok?
    ensures AllEvictable(base)
  {
    InspectedHistory(hash, base + additions);
    assert forall i :: 0 <= i < |base| ==> base[i] == (base + additions)[i];
  }

  lemma {:induction false} OlderDropped(base: Items, additions: Items) returns (k: nat)
    requires Sum(Sizes(additions)) <= READ_FILE_MEDIA_MAX_HISTORY_BYTES
    requires |Sizes(additions)| <= READ_FILE_MEDIA_MAX_HISTORY_ITEMS
    ensures k == DropCount(Sizes(base + additions), READ_FILE_MEDIA_MAX_HISTORY_ITEMS,
                           READ_FILE_MEDIA_MAX_HISTORY_BYTES) <= |Sizes(base)|
  {
    SizesConcat(base, additions);
    DropOnlyOlder(Sizes(base), Sizes(additions), READ_FILE_MEDIA_MAX_HISTORY_ITEMS,
                  READ_FILE_MEDIA_MAX_HISTORY_BYTES);
    k := DropCount(Sizes(base + additions), READ_FILE_MEDIA_MAX_HISTORY_ITEMS,
                   READ_FILE_MEDIA_MAX_HISTORY_BYTES);
  }

  lemma {:induction false} DropOnlyOlder(a: seq<nat>, b: seq<nat>, maxItems: u64, maxBytes: u64)
    requires Fits(b, maxItems, maxBytes)
    ensures DropCount(a + b, maxItems, maxBytes) <= |a|
  {
    DropCountIsLeast(a + b, maxItems, maxBytes);
    ConcatParts(a, b);
  }

  // ---------- the batch builder's loops ----------

  /** No id is empty or repeated. */
  predicate DistinctIds(ids: seq<Text>) {
    && (forall i :: 0 <= i < |ids| ==> ids[i] != [])
    && (forall i, j :: 0 <= i < j < |ids| ==> ids[i] != ids[j])
  }

  /** The map gives every id its position. */
  ghost predicate Positions(ids: seq<Text>, positions: map<Text, nat>) {
    forall id ::
      (id in positions <==> PositionOf(ids, id).Some?) &&
      (id in positions ==> PositionOf(ids, id) == Some(positions[id]))
  }

  lemma {:induction false} PositionFound(ids: seq<Text>, id: Text)
    ensures PositionOf(ids, id).Some? <==> exists k :: 0 <= k < |ids| && ids[k] == id
  {
    if ids != [] {
      PositionFound(Front(ids), id);
      if exists k :: 0 <= k < |ids| && ids[k] == id {
        var k :| 0 <= k < |ids| && ids[k] == id;
        assert k < |ids| - 1 ==> Front(ids)[k] == id;
      }
      if PositionOf(Front(ids), id).Some? {
        var k :| 0 <= k < |Front(ids)| && Front(ids)[k] == id;
        assert ids[k] == id;
      }
    }
  }

  lemma {:induction false} DistinctSnoc(ids: seq<Text>, id: Text)
    ensures DistinctIds(ids + [id]) <==>
              DistinctIds(ids) && id != [] && PositionOf(ids, id).None?
  {
    var longer := ids + [id];
    PositionFound(ids, id);
    assert longer[|ids|] == id;
    assert forall k :: 0 <= k < |ids| ==> longer[k] == ids[k];
    if DistinctIds(longer) {
      forall i, j | 0 <= i < j < |ids| ensures ids[i] != ids[j] {
        assert longer[i] != longer[j];
      }
      forall k | 0 <= k < |ids| ensures ids[k] != [] && ids[k] != id {
        assert longer[k] != [] && longer[k] != longer[|ids|];
      }
    }
  }

  lemma {:induction false} DistinctPrefix(ids: seq<Text>, n: nat)
    requires n <= |ids| && DistinctIds(ids)
    ensures DistinctIds(ids[..n])
  {
  }

  lemma {:induction false} PositionsSnoc(ids: seq<Text>, id: Text, positions: map<Text, nat>)
    requires Positions(ids, positions)
    ensures Positions(ids + [id], positions[id := |ids|])
  {
    SnocParts(ids, id);
  }

  /** Registers the expected ids; `None` when one is empty or repeated. */
  method RegisterExpected(ids: seq<Text>) returns (r: Option<map<Text, nat>>)
    ensures r.Some? <==> DistinctIds(ids)
    ensures r.Some? ==> Positions(ids, r.value)
  {
    var positions: map<Text, nat> := map[];
    for i := 0 to |ids|
      invariant DistinctIds(ids[..i]) && Positions(ids[..i], positions)
    {
      TakeNext(ids, i);
      DistinctSnoc(ids[..i], ids[i]);
      if ids[i] == [] || ids[i] in positions {
        if DistinctIds(ids) {
          DistinctPrefix(ids, i + 1);
        }
        return None;
      }
      PositionsSnoc(ids[..i], ids[i], positions);
      positions := positions[ids[i] := i];
    }
    TakeAll(ids);
    return Some(positions);
  }

  /** Fills in the tool name of every expected call; `None` when a named call repeats or a
      call is missing. */
  method ResolveNames(base: Items, ids: seq<Text>, positions: map<Text, nat>)
    returns (r: Option<map<Text, Text>>)
    requires forall id :: id in positions <==> id in ids
    ensures r.Some? <==> forall id :: id in ids ==> CallName(base, id) != []
    ensures r.Some? ==> forall id :: id in ids ==>
      id in r.value && r.value[id] == CallName(base, id)
  {
    var names: map<Text, Text> := map id | id in positions :: [];
    for i := 0 to |base|
      invariant forall id :: id in names <==> id in ids
      invariant Resolved(base[..i], names)
    {
      if base[i].FunctionCall? && base[i].callId in names {
        var id := base[i].callId;
        if names[id] != [] {
          NameScanNext(base, i, id);
          NameScanStuck(base, i + 1, id);
          return None;
        }
        ResolvedNext(base, i, names);
        names := names[id := base[i].name];
      } else {
        ResolvedNext(base, i, names);
      }
    }
    assert base[..|base|] == base;
    if id :| id in names && names[id] == [] {
      assert NameScan(base, id) == Some(names[id]);
      return None;
    }
    forall id | id in ids ensures names[id] == CallName(base, id) {
      assert NameScan(base, id) == Some(names[id]);
    }
    return Some(names);
  }

  /** `names` holds, for each expected id, what the scan has recorded so far. */
  ghost predicate Resolved(h: Items, names: map<Text, Text>) {
    forall id :: id in names ==> NameScan(h, id) == Some(names[id])
  }

  lemma {:induction false} ResolvedNext(base: Items, i: nat, names: map<Text, Text>)
    requires i < |base| && Resolved(base[..i], names)
    ensures
      if base[i].FunctionCall? && base[i].callId in names then
        names[base[i].callId] == [] ==>
          Resolved(base[..i + 1], names[base[i].callId := base[i].name])
      else Resolved(base[..i + 1], names)
  {
    forall id | id in names
      ensures NameScan(base[..i + 1], id) == NameStep(Some(names[id]), base[i], id)
    {
      NameScanNext(base, i, id);
    }
  }

  method CheckOutputs(ids: seq<Text>, additions: Items) returns (ok: bool)
    requires |ids| <= |additions|
    ensures ok <==> OutputsInOrder(ids, additions)
  {
    for i := 0 to |ids|
      invariant forall k :: 0 <= k < i ==>
        additions[k].FunctionCallOutput? && additions[k].callId == ids[k]
    {
      if !additions[i].FunctionCallOutput? || additions[i].callId != ids[i] {
        return false;
      }
    }
    return true;
  }

  lemma {:induction false} MediaTailPrefix(
      hash: Hashes, base: Items, turnIndex: u64, ids: seq<Text>, tail: Items, i: nat)
    requires i <= |tail| && MediaTail(hash, base, turnIndex, ids, tail[..i]).Err?
    ensures MediaTail(hash, base, turnIndex, ids, tail)
         == MediaTail(hash, base, turnIndex, ids, tail[..i])
    decreases |tail| - i
  {
    if i < |tail| {
      assert Front(tail[..i + 1]) == tail[..i];
      MediaTailPrefix(hash, base, turnIndex, ids, tail, i + 1);
    } else {
      assert tail[..i] == tail;
    }
  }

  /** The scan over the attachments of the batch. */
  method CheckMediaTail(
      hash: Hashes, base: Items, turnIndex: u64, ids: seq<Text>, tail: Items,
      positions: map<Text, nat>, names: map<Text, Text>)
    returns (r: Result<u64, Failure>)
    requires forall id ::
      (id in positions <==> PositionOf(ids, id).Some?) &&
      (id in positions ==> PositionOf(ids, id) == Some(positions[id]))
    requires forall id :: id in positions ==>
      id in names && names[id] == CallName(base, id)
    ensures
      match MediaTail(hash, base, turnIndex, ids, tail)
      case Ok((_, bytes)) => r == Ok(bytes)
      case Err(e) => r == Err(e)
  {
    var previous: Option<nat> := None;
    var total: u64 := 0;
    for i := 0 to |tail|
      invariant MediaTail(hash, base, turnIndex, ids, tail[..i]) == Ok((previous, total))
    {
      ghost var next := MediaTail(hash, base, turnIndex, ids, tail[..i + 1]);
      assert Front(tail[..i + 1]) == tail[..i];
      assert next == MediaTailItem(hash, base, turnIndex, ids, (previous, total), tail[i]);
      if next.Err? {
        MediaTailPrefix(hash, base, turnIndex, ids, tail, i + 1);
      }
      if !tail[i].ToolMediaAttachment? {
        return Err(MediaBatchInvalid);
      }
      var a := tail[i].attachment;
      if !ValidAttachment(hash, a) {
        return Err(MediaAttachmentInvalid);
      }
      if a.callId !in positions {
        return Err(MediaBatchInvalid);
      }
      if previous.Some? && previous.value >= positions[a.callId] {
        return Err(MediaBatchInvalid);
      }
      if a.origin.None? || a.origin.value.turnIndex != turnIndex
         || a.origin.value.toolName != names[a.callId] {
        return Err(MediaHistoryOriginInvalid);
      }
      var sum := CheckedAdd(total, Clamp(|a.bytes|));
      if sum.None? {
        return Err(MediaHistoryBytesExceeded);
      }
      previous, total := Some(positions[a.callId]), sum.value;
    }
    assert tail[..|tail|] == tail;
    return Ok(total);
  }

  lemma {:induction false} PositionMembership(ids: seq<Text>, id: Text)
    ensures PositionOf(ids, id).Some? <==> id in ids
  {
    if ids != [] {
      FrontLast(ids);
      PositionMembership(Front(ids), id);
    }
  }

  method PrepareMediaHistoryBatch(
      hash: Hashes, base: Items, turnIndex: u64, ids: seq<Text>, additions: Items)
    returns (r: Result<(Items, Receipt), Failure>)
    ensures r == PrepareBatch(hash, base, turnIndex, ids, additions)
  {
    if ids == [] || |additions| < |ids| || |additions| > 2 * |ids| {
      return Err(MediaBatchInvalid);
    }
    var positions := RegisterExpected(ids);
    if positions.None? {
      return Err(MediaBatchInvalid);
    }
    forall id ensures id in positions.value <==> id in ids {
      PositionMembership(ids, id);
    }
    var names := ResolveNames(base, ids, positions.value);
    if names.None? {
      return Err(MediaBatchInvalid);
    }
    assert ExpectedCalls(base, ids);
    var ordered := CheckOutputs(ids, additions);
    if !ordered {
      return Err(MediaBatchInvalid);
    }
    var bytes := CheckMediaTail(
      hash, base, turnIndex, ids, additions[|ids|..], positions.value, names.value);
    if bytes.Err? {
      return Err(bytes.error);
    }
    if bytes.value > READ_FILE_MEDIA_MAX_HISTORY_BYTES {
      return Err(MediaHistoryBytesExceeded);
    }
    var extended := base + additions;
    var history := new HistoryItem[|extended|](i requires 0 <= i < |extended| => extended[i]);
    assert history[..] == extended;
    var receipt := ApplyMediaHistoryPolicy(
      hash, history, READ_FILE_MEDIA_MAX_HISTORY_ITEMS, READ_FILE_MEDIA_MAX_HISTORY_BYTES);
    if receipt.Err? {
      return Err(receipt.error);
    }
    return Ok((history[..], receipt.value));
  }
}
