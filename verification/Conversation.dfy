/** The conversation only grows: what is once in it stays at its place, media aside, which may
    turn into ledgers. */
module Conversation {
  import opened History
  import opened MediaPolicy

  /** `after` begins with `before`, some of whose oldest attachments were evicted. */
  ghost predicate Continues(before: Items, after: Items) {
    |before| <= |after| && exists k: nat :: after[..|before|] == EvictOldest(before, k)
  }

  ghost predicate Extends(before: Items, after: Items) {
    AllEvictable(before) && Continues(before, after)
  }

  lemma {:induction false} EvictPrefix(h: Items, n: nat, k: nat)
    requires n <= |h|
    ensures EvictOldest(h, k)[..n] == EvictOldest(h[..n], k)
  {
    var whole, part := EvictOldest(h, k), EvictOldest(h[..n], k);
    forall i | 0 <= i < n ensures whole[i] == part[i] {
      EvictionIsInPlace(h, k, i);
      EvictionIsInPlace(h[..n], k, i);
      assert h[..n][..i] == h[..i];
    }
  }

  /** Appending continues a conversation. */
  lemma {:induction false} AppendContinues(h: Items, more: Items)
    ensures Continues(h, h + more)
  {
    EvictNothing(h);
    assert (h + more)[..|h|] == EvictOldest(h, 0);
  }

  /** So does appending and windowing. */
  lemma {:induction false} WindowContinues(hash: Hashes, h: Items, more: Items)
    requires LivePolicy(hash, h + more).Ok?
    ensures Continues(h, LivePolicy(hash, h + more).value.0)
  {
    var whole := h + more;
    var k := DropCount(Sizes(whole), READ_FILE_MEDIA_MAX_HISTORY_ITEMS,
                       READ_FILE_MEDIA_MAX_HISTORY_BYTES);
    EvictPrefix(whole, |h|, k);
    assert whole[..|h|] == h;
  }

  lemma {:induction false} ContinuesOn(a: Items, b: Items, c: Items)
    requires Extends(a, b) && Continues(b, c)
    ensures Extends(a, c)
  {
    var k: nat :| b[..|a|] == EvictOldest(a, k);
    var m: nat :| c[..|b|] == EvictOldest(b, m);
    EvictPrefix(b, |a|, m);
    EvictAgain(a, k, m);
    assert c[..|a|] == c[..|b|][..|a|];
    assert c[..|a|] == EvictOldest(a, k + m);
  }

  lemma {:induction false} ExtendsNothing(h: Items)
    ensures Extends([], h)
  {
    assert h[..0] == EvictOldest([], 0);
  }

  /** Everything said stays: each item is still at its index, or it was an attachment and its
      ledger stands there. */
  lemma {:induction false} ContinuesKeeps(before: Items, after: Items, i: nat)
    requires Continues(before, after) && i < |before|
    ensures i < |after|
    ensures after[i] == before[i]
         || (Evictable(before[i]) && after[i] == MediaHistoryEviction(LedgerOf(before[i].attachment)))
  {
    var k: nat :| after[..|before|] == EvictOldest(before, k);
    EvictionIsInPlace(before, k, i);
    assert after[i] == after[..|before|][i];
  }
}
