/** The rolling media window: keep the newest attachments that fit both caps, replace
    every older one in place by its provenance ledger, and issue a receipt. */
module MediaPolicy {
  import opened Base
  import opened History

  datatype Receipt = Receipt(
    historySha256: Text, retainedCount: u64, retainedBytes: u64, evictedTotal: u64)

  // ---------- the longest newest suffix that fits ----------

  predicate Fits(sizes: seq<nat>, maxItems: u64, maxBytes: u64) {
    Clamp(|sizes|) <= maxItems && Sum(sizes) <= maxBytes
  }

  /** Number of oldest attachments to drop so that the rest fits. */
  function DropCount(sizes: seq<nat>, maxItems: u64, maxBytes: u64): (k: nat)
    ensures k <= |sizes|
  {
    if sizes == [] || Fits(sizes, maxItems, maxBytes) then 0
    else 1 + DropCount(sizes[1..], maxItems, maxBytes)
  }

  lemma {:induction false} SumConcat(a: seq<nat>, b: seq<nat>)
    ensures Sum(a + b) == Sum(a) + Sum(b)
  {
    if b == [] {
      assert a + b == a;
    } else {
      SumConcat(a, Front(b));
      assert Front(a + b) == a + Front(b);
    }
  }

  /** Dropping `k` leaves the longest newest suffix within both caps: what is kept fits,
      and every longer suffix does not. */
  ghost predicate LeastDrop(sizes: seq<nat>, maxItems: u64, maxBytes: u64, k: nat) {
    && k <= |sizes|
    && Fits(sizes[k..], maxItems, maxBytes)
    && forall j :: 0 <= j < k ==> !Fits(sizes[j..], maxItems, maxBytes)
  }

  lemma {:induction false} DropCountIsLeast(sizes: seq<nat>, maxItems: u64, maxBytes: u64)
    ensures LeastDrop(sizes, maxItems, maxBytes, DropCount(sizes, maxItems, maxBytes))
  {
    assert sizes[0..] == sizes;
    if sizes != [] && !Fits(sizes, maxItems, maxBytes) {
      var rest := sizes[1..];
      DropCountIsLeast(rest, maxItems, maxBytes);
      assert forall j :: 0 < j <= |sizes| ==> sizes[j..] == rest[j - 1..];
    }
  }

  lemma {:induction false} LeastDropUnique(sizes: seq<nat>, maxItems: u64, maxBytes: u64, k: nat)
    requires LeastDrop(sizes, maxItems, maxBytes, k)
    ensures k == DropCount(sizes, maxItems, maxBytes)
  {
    DropCountIsLeast(sizes, maxItems, maxBytes);
  }

  /** A suffix of a fitting sequence fits. */
  lemma {:induction false} FitsExtends(a: seq<nat>, b: seq<nat>, maxItems: u64, maxBytes: u64)
    requires Fits(a + b, maxItems, maxBytes)
    ensures Fits(a, maxItems, maxBytes)
  {
    SumConcat(a, b);
  }

  /** Dropping for `a` first never drops too much, so dropping in two rounds drops as
      many as dropping once. */
  lemma {:induction false} DropInTwoRounds(
      a: seq<nat>, b: seq<nat>, maxItems: u64, maxBytes: u64, k: nat, m: nat)
    requires LeastDrop(a, maxItems, maxBytes, k)
    requires LeastDrop(a[k..] + b, maxItems, maxBytes, m)
    ensures LeastDrop(a + b, maxItems, maxBytes, k + m)
  {
    CutAcross(a, b, k, k + m);
    forall j | 0 <= j < k + m ensures !Fits((a + b)[j..], maxItems, maxBytes) {
      if j < k {
        assert (a + b)[j..] == a[j..] + b;
        if Fits(a[j..] + b, maxItems, maxBytes) {
          FitsExtends(a[j..], b, maxItems, maxBytes);
        }
      } else {
        CutAcross(a, b, k, j);
      }
    }
  }

  lemma {:induction false} CutAcross(a: seq<nat>, b: seq<nat>, k: nat, j: nat)
    requires k <= |a| && k <= j <= |a| + |b|
    ensures (a + b)[j..] == (a[k..] + b)[j - k..]
  {
  }

  // ---------- in-place eviction ----------

  predicate Evictable(item: HistoryItem) {
    item.ToolMediaAttachment? && item.attachment.origin.Some?
  }

  /** The history after its `k` oldest attachments became ledgers. */
  function EvictOldest(h: Items, k: nat): (r: Items)
    ensures |r| == |h|
  {
    if h == [] then []
    else EvictOldest(Front(h), k) + [EvictIf(Last(h), |Sizes(Front(h))| < k)]
  }

  function EvictIf(item: HistoryItem, evict: bool): HistoryItem {
    if evict && Evictable(item) then MediaHistoryEviction(LedgerOf(item.attachment)) else item
  }

  lemma {:induction false} EvictSnoc(h: Items, k: nat)
    requires h != []
    ensures EvictOldest(h, k) != []
    ensures Front(EvictOldest(h, k)) == EvictOldest(Front(h), k)
    ensures Last(EvictOldest(h, k)) == EvictIf(Last(h), |Sizes(Front(h))| < k)
  {
  }

  /** Eviction keeps length, order and every item except the evicted attachments, each of
      which becomes the ledger of its own provenance at the same position. */
  lemma {:induction false} EvictionIsInPlace(h: Items, k: nat, i: nat)
    requires i < |h|
    ensures EvictOldest(h, k)[i] == EvictIf(h[i], |Sizes(h[..i])| < k)
  {
    if i == |h| - 1 {
      assert h[..i] == Front(h);
    } else {
      EvictionIsInPlace(Front(h), k, i);
      assert Front(h)[..i] == h[..i];
    }
  }

  lemma {:induction false} SizesConcat(h: Items, more: Items)
    ensures Sizes(h + more) == Sizes(h) + Sizes(more)
    ensures Ledgers(h + more) == Ledgers(h) + Ledgers(more)
  {
    if more == [] {
      assert h + more == h;
    } else {
      SizesConcat(h, Front(more));
      assert Front(h + more) == h + Front(more);
    }
  }

  /** Two histories that end in the same item, the first with `k` attachments fewer before it, stay
      alike when `m` and `k + m` attachments are evicted. */
  lemma {:induction false} EvictAlike(a: Items, b: Items, k: nat, m: nat)
    requires a != [] && b != [] && Last(a) == Last(b)
    requires |Sizes(Front(a))| + k == |Sizes(Front(b))|
    requires EvictOldest(Front(a), m) == EvictOldest(Front(b), k + m)
    ensures EvictOldest(a, m) == EvictOldest(b, k + m)
  {
  }

  lemma {:induction false} SizesAlike(h: Items, more: Items, k: nat)
    requires k <= |Sizes(h)| && AllEvictable(h)
    ensures |Sizes(EvictOldest(h, k) + more)| + k == |Sizes(h + more)|
  {
    SizesAfterEviction(h, k);
    SizesConcat(EvictOldest(h, k), more);
    SizesConcat(h, more);
  }

  /** Evicting the `k` oldest, extending, and evicting `m` more equals extending first
      and evicting `k + m`. */
  lemma {:induction false} EvictInTwoRounds(h: Items, more: Items, k: nat, m: nat)
    requires k <= |Sizes(h)|
    requires AllEvictable(h)
    ensures EvictOldest(EvictOldest(h, k) + more, m) == EvictOldest(h + more, k + m)
    decreases |more|
  {
    if more != [] {
      EvictInTwoRounds(h, Front(more), k, m);
      SizesAlike(h, Front(more), k);
      SnocConcat(EvictOldest(h, k), more);
      SnocConcat(h, more);
      EvictAlike(EvictOldest(h, k) + more, h + more, k, m);
    } else {
      EmptyConcat(EvictOldest(h, k));
      EmptyConcat(h);
      EvictAgain(h, k, m);
    }
  }

  lemma {:induction false} EvictAgain(h: Items, k: nat, m: nat)
    requires AllEvictable(h)
    ensures EvictOldest(EvictOldest(h, k), m) == EvictOldest(h, k + m)
  {
    if h != [] {
      var once := EvictOldest(h, k);
      EvictAgain(Front(h), k, m);
      EvictSnoc(h, k);
      EvictSnoc(h, k + m);
      EvictSnoc(once, m);
      SizesAfterEviction(Front(h), k);
      assert Last(h).ToolMediaAttachment? ==> Evictable(h[|h| - 1]);
      SnocEqual(EvictOldest(once, m), EvictOldest(h, k + m));
    }
  }

  lemma {:induction false} SnocEqual<T>(s: seq<T>, t: seq<T>)
    requires s != [] && t != [] && Front(s) == Front(t) && Last(s) == Last(t)
    ensures s == t
  {
    FrontLast(s);
    FrontLast(t);
  }

  function Drop(s: seq<nat>, k: nat): seq<nat> {
    s[Min(k, |s|)..]
  }

  lemma {:induction false} DropSnoc(s: seq<nat>, x: nat, k: nat)
    ensures Drop(s + [x], k) == if |s| < k then [] else Drop(s, k) + [x]
    ensures |s| <= k ==> Drop(s, k) == []
  {
  }

  lemma {:induction false} DropSum(s: seq<nat>, k: nat)
    ensures Sum(Drop(s, k)) <= Sum(s)
  {
    SumConcat(s[..Min(k, |s|)], Drop(s, k));
    assert s == s[..Min(k, |s|)] + Drop(s, k);
  }

  predicate AllEvictable(h: Items) {
    forall i :: 0 <= i < |h| ==> h[i].ToolMediaAttachment? ==> Evictable(h[i])
  }

  lemma {:induction false} SizesAfterEviction(h: Items, k: nat)
    requires AllEvictable(h)
    ensures Sizes(EvictOldest(h, k)) == Drop(Sizes(h), k)
    ensures Ledgers(EvictOldest(h, k)) == Ledgers(h) + Min(k, |Sizes(h)|)
  {
    if h != [] {
      var front, evicted := Front(h), EvictOldest(h, k);
      SizesAfterEviction(front, k);
      EvictSnoc(h, k);
      SizesFront(h);
      SizesFront(evicted);
      if Last(h).ToolMediaAttachment? {
        assert Evictable(h[|h| - 1]);
        DropSnoc(Sizes(front), |Last(h).attachment.bytes|, k);
      }
    }
  }

  lemma {:induction false} WellFormedEvictable(hash: Hashes, h: Items)
    requires WellFormed(hash, h)
    ensures AllEvictable(h)
  {
    forall i | 0 <= i < |h| && h[i].ToolMediaAttachment? ensures Evictable(h[i]) {
      assert FollowsAt(hash, h, i);
    }
  }

  /** Eviction changes neither what is called, nor what is output, nor what is claimed. */
  lemma {:induction false} EvictionKeepsBindings(h: Items, k: nat)
    ensures CallNames(EvictOldest(h, k)) == CallNames(h)
    ensures OutputTexts(EvictOldest(h, k)) == OutputTexts(h)
    ensures MediaIds(EvictOldest(h, k)) == MediaIds(h)
  {
    if h != [] {
      EvictionKeepsBindings(Front(h), k);
      EvictSnoc(h, k);
    }
  }

  lemma {:induction false} EvictionKeepsWellFormed(hash: Hashes, h: Items, k: nat)
    requires WellFormed(hash, h)
    ensures WellFormed(hash, EvictOldest(h, k))
  {
    if h != [] {
      var front, evicted := Front(h), EvictOldest(h, k);
      WellFormedFront(hash, h);
      WellFormedFront(hash, evicted);
      EvictSnoc(h, k);
      EvictionKeepsBindings(front, k);
      EvictionKeepsWellFormed(hash, front, k);
      assert MayFollow(hash, EvictOldest(front, k), Last(evicted));
      WellFormedEvictable(hash, h);
      SizesAfterEviction(h, k);
      DropSum(Sizes(h), k);
    }
  }

  // ---------- the policy ----------

  /** `build_media_history_receipt` from the totals of an inspected history. */
  function ReceiptFor(hash: Hashes, h: Items): Receipt {
    Receipt(hash.ofHistory(h), Clamp(|Sizes(h)|), Clamp(Sum(Sizes(h))), Clamp(Ledgers(h)))
  }

  /** The windowed history and its receipt; `Err` exactly when inspection fails. */
  function Policy(hash: Hashes, h: Items, maxItems: u64, maxBytes: u64)
    : Result<(Items, Receipt), Failure>
  {
    var seen := Inspect(hash, h);
    if seen.Err? then Err(seen.error)
    else
      var windowed := EvictOldest(h, DropCount(Sizes(h), maxItems, maxBytes));
      Ok((windowed, ReceiptFor(hash, windowed)))
  }

  function LivePolicy(hash: Hashes, h: Items): Result<(Items, Receipt), Failure> {
    Policy(hash, h, READ_FILE_MEDIA_MAX_HISTORY_ITEMS, READ_FILE_MEDIA_MAX_HISTORY_BYTES)
  }

  /** The item is the provenance record of an attachment. */
  predicate IsLedgerOf(item: HistoryItem, was: HistoryItem) {
    Evictable(was) && item == MediaHistoryEviction(LedgerOf(was.attachment))
  }

  /** Everything the window promises: the kept attachments are exactly the longest newest
      suffix within both caps, every item stays at its place except that each older attachment
      is replaced by its ledger, and the result is again well-formed. */
  lemma {:induction false} PolicyKeepsNewestSuffix(hash: Hashes, h: Items, maxItems: u64, maxBytes: u64)
    ensures Policy(hash, h, maxItems, maxBytes).Ok? <==> WellFormed(hash, h)
    ensures Policy(hash, h, maxItems, maxBytes).Ok? ==>
      var (windowed, receipt) := Policy(hash, h, maxItems, maxBytes).value;
      && |windowed| == |h|
      && WellFormed(hash, windowed)
      && CallNames(windowed) == CallNames(h)
      && OutputTexts(windowed) == OutputTexts(h)
      && MediaIds(windowed) == MediaIds(h)
      && (forall i :: 0 <= i < |h| ==> windowed[i] == h[i] || IsLedgerOf(windowed[i], h[i]))
      && (exists k: nat ::
          && LeastDrop(Sizes(h), maxItems, maxBytes, k)
          && windowed == EvictOldest(h, k)
          && Sizes(windowed) == Sizes(h)[k..]
          && Ledgers(windowed) == Ledgers(h) + k)
      && receipt.retainedBytes <= maxBytes
      && receipt.retainedCount <= maxItems
  {
    InspectionMeaning(hash, h);
    if WellFormed(hash, h) {
      var k := DropCount(Sizes(h), maxItems, maxBytes);
      WellFormedEvictable(hash, h);
      EvictionKeepsBindings(h, k);
      EvictionKeepsWellFormed(hash, h, k);
      SizesAfterEviction(h, k);
      DropCountIsLeast(Sizes(h), maxItems, maxBytes);
      forall i | 0 <= i < |h|
        ensures EvictOldest(h, k)[i] == h[i] || IsLedgerOf(EvictOldest(h, k)[i], h[i])
      {
        EvictionIsInPlace(h, k, i);
      }
    }
  }

  /** Turn-by-turn windowing equals one-shot windowing: whenever the policy accepts
      `h + more`, windowing `h`, appending `more` and windowing again gives the same
      history and the same receipt. */
  lemma {:induction false} TurnByTurnEqualsOneShot(hash: Hashes, h: Items, more: Items, maxItems: u64, maxBytes: u64)
    requires Policy(hash, h + more, maxItems, maxBytes).Ok?
    ensures Policy(hash, h, maxItems, maxBytes).Ok?
    ensures
      var windowed := Policy(hash, h, maxItems, maxBytes).value.0;
      Policy(hash, windowed + more, maxItems, maxBytes) == Policy(hash, h + more, maxItems, maxBytes)
  {
    WindowTwice(hash, h, more, maxItems, maxBytes, DropCount(Sizes(h), maxItems, maxBytes));
  }

  lemma {:induction false} WindowTwice(
      hash: Hashes, h: Items, more: Items, maxItems: u64, maxBytes: u64, k: nat)
    requires Inspect(hash, h + more).Ok? && k == DropCount(Sizes(h), maxItems, maxBytes)
    ensures Inspect(hash, h).Ok?
    ensures Policy(hash, EvictOldest(h, k) + more, maxItems, maxBytes)
         == Policy(hash, h + more, maxItems, maxBytes)
  {
    DropCountIsLeast(Sizes(h), maxItems, maxBytes);
    WindowThenExtend(hash, h, more, k);
    var m := RoundsMeet(hash, h, more, maxItems, maxBytes, k);
    SameOutcome(hash, EvictOldest(h, k) + more, h + more, maxItems, maxBytes, m, k + m);
  }

  lemma {:induction false} RoundsMeet(
      hash: Hashes, h: Items, more: Items, maxItems: u64, maxBytes: u64, k: nat)
    returns (m: nat)
    requires AllEvictable(h) && k == DropCount(Sizes(h), maxItems, maxBytes) <= |Sizes(h)|
    ensures m == DropCount(Sizes(EvictOldest(h, k) + more), maxItems, maxBytes)
    ensures k + m == DropCount(Sizes(h + more), maxItems, maxBytes)
    ensures EvictOldest(EvictOldest(h, k) + more, m) == EvictOldest(h + more, k + m)
  {
    m := SecondRound(hash, h, more, maxItems, maxBytes);
    EvictInTwoRounds(h, more, k, m);
  }

  lemma {:induction false} SameOutcome(
      hash: Hashes, x: Items, y: Items, maxItems: u64, maxBytes: u64, dx: nat, dy: nat)
    requires Inspect(hash, x).Ok? && Inspect(hash, y).Ok?
    requires dx == DropCount(Sizes(x), maxItems, maxBytes)
    requires dy == DropCount(Sizes(y), maxItems, maxBytes)
    requires EvictOldest(x, dx) == EvictOldest(y, dy)
    ensures Policy(hash, x, maxItems, maxBytes) == Policy(hash, y, maxItems, maxBytes)
  {
  }

  lemma {:induction false} SecondRound(hash: Hashes, h: Items, more: Items, maxItems: u64, maxBytes: u64)
    returns (m: nat)
    requires AllEvictable(h)
    ensures
      var k := DropCount(Sizes(h), maxItems, maxBytes);
      && m == DropCount(Sizes(EvictOldest(h, k) + more), maxItems, maxBytes)
      && k + m == DropCount(Sizes(h + more), maxItems, maxBytes)
  {
    var k := DropCount(Sizes(h), maxItems, maxBytes);
    m := DropCount(Sizes(EvictOldest(h, k) + more), maxItems, maxBytes);
    SizesAfterWindow(hash, h, more, k);
    DropCountIsLeast(Sizes(h), maxItems, maxBytes);
    DropCountIsLeast(Sizes(h)[k..] + Sizes(more), maxItems, maxBytes);
    DropInTwoRounds(Sizes(h), Sizes(more), maxItems, maxBytes, k, m);
    LeastDropUnique(Sizes(h) + Sizes(more), maxItems, maxBytes, k + m);
  }

  /** A windowed history accepts whatever the original accepts. */
  lemma {:induction false} WindowThenExtend(hash: Hashes, h: Items, more: Items, k: nat)
    requires Inspect(hash, h + more).Ok? && k <= |Sizes(h)|
    ensures Inspect(hash, h).Ok? && AllEvictable(h)
    ensures Inspect(hash, EvictOldest(h, k) + more).Ok?
  {
    InspectPrefix(hash, h, more);
    InspectionSucceeds(hash, h);
    WellFormedEvictable(hash, h);
    EvictThenExtend(h, more, k);
    InspectionSucceeds(hash, h + more);
    EvictionKeepsWellFormed(hash, h + more, k);
    InspectionSucceeds(hash, EvictOldest(h + more, k));
  }

  lemma {:induction false} EvictThenExtend(h: Items, more: Items, k: nat)
    requires k <= |Sizes(h)| && AllEvictable(h)
    ensures EvictOldest(h, k) + more == EvictOldest(h + more, k)
  {
    EvictInTwoRounds(h, more, k, 0);
    EvictNothing(EvictOldest(h, k) + more);
  }

  lemma {:induction false} SizesAfterWindow(hash: Hashes, h: Items, more: Items, k: nat)
    requires AllEvictable(h) && k <= |Sizes(h)|
    ensures Sizes(EvictOldest(h, k) + more) == Sizes(h)[k..] + Sizes(more)
    ensures Sizes(h + more) == Sizes(h) + Sizes(more)
  {
    SizesAfterEviction(h, k);
    SizesConcat(EvictOldest(h, k), more);
    SizesConcat(h, more);
  }

  lemma {:induction false} EvictNothing(h: Items)
    ensures EvictOldest(h, 0) == h
  {
    if h != [] {
      EvictNothing(Front(h));
      FrontLast(h);
    }
  }

  /** Windowing a windowed history changes nothing. */
  lemma {:induction false} PolicyIdempotent(hash: Hashes, h: Items, maxItems: u64, maxBytes: u64)
    requires Policy(hash, h, maxItems, maxBytes).Ok?
    ensures Policy(hash, Policy(hash, h, maxItems, maxBytes).value.0, maxItems, maxBytes)
         == Policy(hash, h, maxItems, maxBytes)
  {
    assert h + [] == h;
    var windowed := Policy(hash, h, maxItems, maxBytes).value.0;
    assert windowed + [] == windowed;
    TurnByTurnEqualsOneShot(hash, h, [], maxItems, maxBytes);
  }
}
