/** What every history sent to the provider satisfies, and how each edit the agent loop
    makes to its history keeps it. */
module RequestHistory {
  import opened Base
  import opened History
  import opened MediaPolicy
  import opened MediaBatch

  /** Every function call has an output at some later position. */
  ghost predicate CallsAnswered(h: Items) {
    forall i :: 0 <= i < |h| && h[i].FunctionCall? ==> AnsweredAfter(h, i, h[i].callId)
  }

  ghost predicate AnsweredAfter(h: Items, i: nat, id: Text) {
    exists j :: i < j < |h| && h[j].FunctionCallOutput? && h[j].callId == id
  }

  /** Call ids are unique, and so are output ids. */
  ghost predicate UniqueIds(h: Items) {
    && (forall i, j :: 0 <= i < j < |h| && h[i].FunctionCall? && h[j].FunctionCall? ==>
          h[i].callId != h[j].callId)
    && (forall i, j :: 0 <= i < j < |h| && h[i].FunctionCallOutput? && h[j].FunctionCallOutput? ==>
          h[i].callId != h[j].callId)
  }

  /** A history the loop may send: bound media, unique ids, every call answered once. */
  ghost predicate Settled(hash: Hashes, h: Items) {
    WellFormed(hash, h) && CallsAnswered(h)
  }

  /** The history together with a receipt that the request encoder accepts. */
  ghost predicate Sendable(hash: Hashes, h: Items, receipt: Receipt) {
    Settled(hash, h) && ValidateReceipt(hash, h, receipt).Ok?
  }

  lemma {:induction false} CallRecorded(h: Items, i: nat)
    requires i < |h|
    ensures h[i].FunctionCall? ==> h[i].callId in CallNames(h)
    ensures h[i].FunctionCallOutput? ==> h[i].callId in OutputTexts(h)
  {
    if i < |h| - 1 {
      CallRecorded(Front(h), i);
    }
  }

  /** In a sendable history ids are unique, so each call has exactly one output. */
  lemma {:induction false} WellFormedUnique(hash: Hashes, h: Items)
    requires WellFormed(hash, h)
    ensures UniqueIds(h)
  {
    forall i, j | 0 <= i < j < |h|
      ensures h[i].FunctionCall? && h[j].FunctionCall? ==> h[i].callId != h[j].callId
      ensures h[i].FunctionCallOutput? && h[j].FunctionCallOutput? ==> h[i].callId != h[j].callId
    {
      assert FollowsAt(hash, h, j);
      TakeLess(h, i, j);
      CallRecorded(h[..j], i);
    }
  }

  /** Eviction moves no call and no output. */
  lemma {:induction false} EvictionKeepsAnswers(h: Items, k: nat)
    requires CallsAnswered(h)
    ensures CallsAnswered(EvictOldest(h, k))
  {
    var e := EvictOldest(h, k);
    forall i | 0 <= i < |h|
      ensures !h[i].ToolMediaAttachment? ==> e[i] == h[i]
      ensures e[i].FunctionCall? ==> e[i] == h[i]
    {
      EvictionIsInPlace(h, k, i);
    }
    forall i | 0 <= i < |e| && e[i].FunctionCall? ensures AnsweredAfter(e, i, e[i].callId) {
      assert AnsweredAfter(h, i, h[i].callId);
      var j :| i < j < |h| && h[j].FunctionCallOutput? && h[j].callId == h[i].callId;
      assert e[j] == h[j];
    }
  }

  /** Windowing a settled history always succeeds and yields a sendable one. */
  lemma {:induction false} WindowSettled(hash: Hashes, h: Items)
    requires Settled(hash, h)
    ensures LivePolicy(hash, h).Ok?
    ensures Sendable(hash, LivePolicy(hash, h).value.0, LivePolicy(hash, h).value.1)
    ensures |LivePolicy(hash, h).value.0| == |h|
  {
    PolicyKeepsNewestSuffix(hash, h, READ_FILE_MEDIA_MAX_HISTORY_ITEMS,
                            READ_FILE_MEDIA_MAX_HISTORY_BYTES);
    EvictionKeepsAnswers(h, DropCount(Sizes(h), READ_FILE_MEDIA_MAX_HISTORY_ITEMS,
                                      READ_FILE_MEDIA_MAX_HISTORY_BYTES));
    ReceiptValidates(hash, h, LivePolicy(hash, h).value.1);
  }

  predicate Plain(item: HistoryItem) {
    item.System? || item.User? || item.AssistantMessage? || item.Reasoning?
  }

  lemma {:induction false} AppendPlain(hash: Hashes, h: Items, item: HistoryItem)
    requires Plain(item)
    ensures WellFormed(hash, h) ==> WellFormed(hash, h + [item])
    ensures CallsAnswered(h) ==> CallsAnswered(h + [item])
  {
    SnocParts(h, item);
    SizesFront(h + [item]);
    WellFormedFront(hash, h + [item]);
    if CallsAnswered(h) {
      AnswersExtend(h, [item]);
    }
  }

  lemma {:induction false} AnswersExtend(h: Items, more: Items)
    requires CallsAnswered(h)
    requires forall i :: 0 <= i < |more| ==> !more[i].FunctionCall?
    ensures CallsAnswered(h + more)
  {
    var w := h + more;
    forall i | 0 <= i < |w| && w[i].FunctionCall? ensures AnsweredAfter(w, i, w[i].callId) {
      assert w[i] == h[i];
      assert AnsweredAfter(h, i, h[i].callId);
      var j :| i < j < |h| && h[j].FunctionCallOutput? && h[j].callId == h[i].callId;
      assert w[j] == h[j];
    }
  }

  lemma {:induction false} AppendPlains(hash: Hashes, h: Items, more: Items)
    requires forall i :: 0 <= i < |more| ==> Plain(more[i])
    requires Settled(hash, h)
    ensures Settled(hash, h + more)
  {
    if more == [] {
      assert h + more == h;
    } else {
      AppendPlains(hash, h, Front(more));
      AppendPlain(hash, h + Front(more), Last(more));
      assert h + more == h + Front(more) + [Last(more)];
    }
  }

  lemma {:induction false} PlainSettled(hash: Hashes, h: Items)
    requires forall i :: 0 <= i < |h| ==> Plain(h[i])
    ensures Settled(hash, h)
  {
    AppendPlains(hash, [], h);
    assert [] + h == h;
  }

  /** An accepted tool batch answers every call of the response it belongs to. */
  lemma {:induction false} BatchAnswers(
      hash: Hashes, h: Items, response: Items, turnIndex: u64, ids: seq<Text>, additions: Items)
    requires Settled(hash, h)
    requires forall i :: 0 <= i < |response| && response[i].FunctionCall? ==> response[i].callId in ids
    requires PrepareBatch(hash, h + response, turnIndex, ids, additions).Ok?
    ensures
      var (extended, receipt) := PrepareBatch(hash, h + response, turnIndex, ids, additions).value;
      Sendable(hash, extended, receipt)
  {
    var base := h + response;
    var whole := base + additions;
    InspectionSucceeds(hash, whole);
    forall i | 0 <= i < |additions| ensures !additions[i].FunctionCall? {
      AdditionsHaveNoCalls(hash, base, turnIndex, ids, additions, i);
    }
    CallsOfBatchAnswered(h, response, ids, additions);
    WindowSettled(hash, whole);
  }

  /** Earlier calls stay answered, and the calls of the response are answered by the outputs. */
  lemma {:induction false} CallsOfBatchAnswered(
      h: Items, response: Items, ids: seq<Text>, additions: Items)
    requires CallsAnswered(h) && OutputsInOrder(ids, additions)
    requires forall i :: 0 <= i < |response| && response[i].FunctionCall? ==> response[i].callId in ids
    requires forall i :: 0 <= i < |additions| ==> !additions[i].FunctionCall?
    ensures CallsAnswered(h + response + additions)
  {
    var base := h + response;
    var whole := base + additions;
    forall i | 0 <= i < |whole| && whole[i].FunctionCall?
      ensures AnsweredAfter(whole, i, whole[i].callId)
    {
      if i < |h| {
        OlderAnswered(h, response + additions, i);
        Assoc(h, response, additions);
      } else {
        assert i < |base| && whole[i] == response[i - |h|];
        ResponseAnswered(base, ids, additions, i, whole[i].callId);
      }
    }
  }

  lemma {:induction false} OlderAnswered(h: Items, more: Items, i: nat)
    requires CallsAnswered(h) && i < |h| && h[i].FunctionCall?
    ensures AnsweredAfter(h + more, i, h[i].callId)
  {
    assert AnsweredAfter(h, i, h[i].callId);
    var j :| i < j < |h| && h[j].FunctionCallOutput? && h[j].callId == h[i].callId;
    assert (h + more)[j] == h[j];
  }

  lemma {:induction false} ResponseAnswered(
      base: Items, ids: seq<Text>, additions: Items, i: nat, id: Text)
    requires i < |base| && OutputsInOrder(ids, additions) && id in ids
    ensures AnsweredAfter(base + additions, i, id)
  {
    var p :| 0 <= p < |ids| && ids[p] == id;
    assert (base + additions)[|base| + p] == additions[p];
  }

  lemma {:induction false} AdditionsHaveNoCalls(
      hash: Hashes, base: Items, turnIndex: u64, ids: seq<Text>, additions: Items, i: nat)
    requires PrepareBatch(hash, base, turnIndex, ids, additions).Ok? && i < |additions|
    ensures !additions[i].FunctionCall?
  {
    if i >= |ids| {
      var tail := additions[|ids|..];
      TailIsMedia(hash, base, turnIndex, ids, tail, i - |ids|);
      assert tail[i - |ids|] == additions[i];
    }
  }

  lemma {:induction false} TailIsMedia(
      hash: Hashes, base: Items, turnIndex: u64, ids: seq<Text>, tail: Items, i: nat)
    requires MediaTail(hash, base, turnIndex, ids, tail).Ok? && i < |tail|
    ensures tail[i].ToolMediaAttachment?
  {
    if i < |tail| - 1 {
      TailIsMedia(hash, base, turnIndex, ids, Front(tail), i);
    }
  }

  /** A batch is accepted only if every attachment's own output is the exact media
      sentence: a footer or a truncation on that output rejects the whole batch. */
  lemma {:induction false} AttachmentNeedsExactOutput(
      hash: Hashes, base: Items, turnIndex: u64, ids: seq<Text>, additions: Items, i: nat, p: nat)
    requires PrepareBatch(hash, base, turnIndex, ids, additions).Ok?
    requires i < |additions| && additions[i].ToolMediaAttachment?
    requires p < |ids| && ids[p] == additions[i].attachment.callId
    ensures
      var a := additions[i].attachment;
      additions[p] == FunctionCallOutput(
        a.callId, MediaSentence(a.mimeType, a.width, a.height, a.sha256))
  {
    InspectionSucceeds(hash, base + additions);
    BoundOutputInBatch(hash, base, additions, i, p);
  }

  lemma {:induction false} BoundOutputInBatch(
      hash: Hashes, base: Items, additions: Items, i: nat, p: nat)
    requires WellFormed(hash, base + additions)
    requires i < |additions| && additions[i].ToolMediaAttachment?
    requires p < |additions| && additions[p].FunctionCallOutput?
    requires additions[p].callId == additions[i].attachment.callId
    ensures
      var a := additions[i].attachment;
      additions[p].output == MediaSentence(a.mimeType, a.width, a.height, a.sha256)
  {
    var whole := base + additions;
    ConcatAt(base, additions, i);
    ConcatAt(base, additions, p);
    BoundOutput(hash, whole, |base| + i, |base| + p);
  }

  lemma {:induction false} BoundOutput(hash: Hashes, h: Items, at: nat, out: nat)
    requires WellFormed(hash, h) && at < |h| && out < |h|
    requires h[at].ToolMediaAttachment?
    requires h[out].FunctionCallOutput? && h[out].callId == h[at].attachment.callId
    ensures
      var a := h[at].attachment;
      h[out].output == MediaSentence(a.mimeType, a.width, a.height, a.sha256)
  {
    assert FollowsAt(hash, h, at);
    OutputUnique(hash, h, at, out);
  }

  lemma {:induction false} OutputUnique(hash: Hashes, h: Items, at: nat, out: nat)
    requires WellFormed(hash, h) && at < |h| && out < |h| && out != at
    requires h[out].FunctionCallOutput? && h[out].callId in OutputTexts(h[..at])
    ensures OutputTexts(h[..at])[h[out].callId] == h[out].output
  {
    var j := OutputAt(h[..at], h[out].callId);
    assert h[j] == h[..at][j];
    WellFormedUnique(hash, h);
  }

  lemma {:induction false} OutputAt(h: Items, id: Text) returns (j: nat)
    requires id in OutputTexts(h)
    ensures j < |h| && h[j] == FunctionCallOutput(id, OutputTexts(h)[id])
  {
    if Last(h).FunctionCallOutput? && Last(h).callId == id {
      j := |h| - 1;
    } else {
      j := OutputAt(Front(h), id);
    }
  }
}
