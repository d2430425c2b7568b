/** UTF-8 well-formedness (section 3 of RFC 3629) and bounded truncation on
    character boundaries. */
module Utf8 {
  import opened Base

  predicate Continuation(b: byte) {
    0x80 <= b <= 0xBF
  }

  /** Number of bytes announced by a lead byte; 0 for a byte that cannot lead. */
  function LeadLength(b: byte): nat {
    if b <= 0x7F then 1
    else if 0xC2 <= b <= 0xDF then 2
    else if 0xE0 <= b <= 0xEF then 3
    else if 0xF0 <= b <= 0xF4 then 4
    else 0
  }

  /** The second byte excludes overlong forms, surrogates and values above U+10FFFF. */
  predicate SecondByte(lead: byte, b: byte) {
    if lead == 0xE0 then 0xA0 <= b <= 0xBF
    else if lead == 0xED then 0x80 <= b <= 0x9F
    else if lead == 0xF0 then 0x90 <= b <= 0xBF
    else if lead == 0xF4 then 0x80 <= b <= 0x8F
    else Continuation(b)
  }

  /** `s` is the encoding of exactly one scalar value. */
  predicate Scalar(s: Text)
    ensures Scalar(s) ==> 1 <= |s| <= 4 && !Continuation(s[0])
    ensures Scalar(s) ==> forall i :: 0 < i < |s| ==> Continuation(s[i])
  {
    && |s| >= 1
    && |s| == LeadLength(s[0])
    && (|s| >= 2 ==> SecondByte(s[0], s[1]))
    && (|s| >= 3 ==> Continuation(s[2]))
    && (|s| >= 4 ==> Continuation(s[3]))
  }

  /** The text is a sequence of scalars. */
  predicate ValidUtf8(t: Text) {
    t == [] ||
    var n := LeadLength(t[0]);
    n <= |t| && Scalar(t[..n]) && ValidUtf8(t[n..])
  }

  /** `str::is_char_boundary`. */
  predicate IsCharBoundary(t: Text, i: nat) {
    i == 0 || i == |t| || (i < |t| && !Continuation(t[i]))
  }

  lemma {:induction false} ConsValid(scalar: Text, rest: Text)
    requires Scalar(scalar) && ValidUtf8(rest)
    ensures ValidUtf8(scalar + rest)
  {
    var t := scalar + rest;
    assert t[..|scalar|] == scalar && t[|scalar|..] == rest;
  }

  lemma {:induction false} LeadByte(t: Text)
    requires ValidUtf8(t) && t != []
    ensures !Continuation(t[0])
  {
    var scalar := t[..LeadLength(t[0])];
    assert scalar[0] == t[0];
  }

  lemma {:induction false} ConcatValid(t: Text, u: Text)
    requires ValidUtf8(t) && ValidUtf8(u)
    ensures ValidUtf8(t + u)
    decreases |t|
  {
    if t == [] {
      assert t + u == u;
    } else {
      var n := LeadLength(t[0]);
      ConcatValid(t[n..], u);
      ConsValid(t[..n], t[n..] + u);
      Regroup(t, n, u);
    }
  }

  /** A boundary splits a well-formed text into two well-formed texts. */
  lemma {:induction false} SplitValid(t: Text, i: nat)
    requires ValidUtf8(t) && i <= |t| && IsCharBoundary(t, i)
    ensures ValidUtf8(t[..i]) && ValidUtf8(t[i..])
    decreases |t|
  {
    if i == 0 {
      assert t[0..] == t;
    } else {
      SplitAfterScalar(t, i, LeadLength(t[0]));
    }
  }

  lemma {:induction false} SplitAfterScalar(t: Text, i: nat, n: nat)
    requires t != [] && n == LeadLength(t[0]) && n <= |t| && Scalar(t[..n]) && ValidUtf8(t[n..])
    requires 0 < i <= |t| && IsCharBoundary(t, i)
    ensures ValidUtf8(t[..i]) && ValidUtf8(t[i..])
    decreases |t|, 0
  {
    var scalar, rest := t[..n], t[n..];
    assert n <= i by {
      assert forall k :: 0 < k < n ==> Continuation(scalar[k]);
    }
    assert i < |t| ==> rest[i - n] == t[i];
    SplitValid(rest, i - n);
    ConsValid(scalar, rest[..i - n]);
    CutBehind(t, n, i);
  }

  /** A run of continuation bytes in a well-formed text is at most three bytes long. */
  lemma {:induction false} ShortRun(t: Text, start: nat, end: nat)
    requires ValidUtf8(t) && start <= end <= |t|
    requires forall k :: start <= k < end ==> Continuation(t[k])
    ensures end - start <= 3
    decreases |t|
  {
    if start < end {
      var n := LeadLength(t[0]);
      var scalar, rest := t[..n], t[n..];
      assert scalar[0] == t[0];
      if start < n < end {
        assert rest[0] == t[n];
        assert Continuation(t[n]);
        LeadByte(rest);
        assert false;
      } else if n <= start {
        assert forall k :: start - n <= k < end - n ==> rest[k] == t[k + n];
        ShortRun(rest, start - n, end - n);
      }
    }
  }

  const TRUNCATION_MARKER: Text := Ascii("\n... output truncated ...\n")

  lemma {:induction false} AsciiTextValid(t: Text)
    requires forall i :: 0 <= i < |t| ==> t[i] <= 0x7F
    ensures ValidUtf8(t)
  {
    if t != [] {
      AsciiTextValid(t[1..]);
    }
  }

  lemma {:induction false} MarkerPrefixValid(n: nat)
    requires n <= |TRUNCATION_MARKER|
    ensures ValidUtf8(TRUNCATION_MARKER[..n])
  {
    AsciiTextValid(TRUNCATION_MARKER[..n]);
  }

  /** What a truncated text may look like: unchanged when it fits, otherwise a prefix of
      the marker, or a prefix and a disjoint suffix of the value around the marker. */
  ghost predicate Truncation(value: Text, cap: nat, r: Text) {
    if |value| <= cap then r == value
    else if cap <= |TRUNCATION_MARKER| then r == TRUNCATION_MARKER[..cap]
    else
      exists head: nat, tail: nat ::
        && head <= tail <= |value|
        && r == value[..head] + TRUNCATION_MARKER + value[tail..]
        && cap - 3 <= |r| <= cap
  }

  /** `truncate_utf8`. */
  method TruncateUtf8(value: Text, maxBytes: nat) returns (r: Text)
    requires ValidUtf8(value)
    ensures ValidUtf8(r)
    ensures Truncation(value, maxBytes, r)
    ensures |r| <= maxBytes
  {
    if |value| <= maxBytes {
      return value;
    }
    if maxBytes <= |TRUNCATION_MARKER| {
      // The marker is ASCII, so every offset is a boundary and the scan stops at once.
      var end := maxBytes;
      MarkerPrefixValid(end);
      return TRUNCATION_MARKER[..end];
    }
    var remaining := maxBytes - |TRUNCATION_MARKER|;
    var headEnd := remaining / 2;
    while !IsCharBoundary(value, headEnd)
      invariant 0 <= headEnd <= remaining / 2
      decreases headEnd
    {
      headEnd := headEnd - 1;
    }
    var start := |value| - (remaining - headEnd);
    var tailStart := start;
    while tailStart < |value| && !IsCharBoundary(value, tailStart)
      invariant start <= tailStart <= |value|
      invariant forall k :: start <= k < tailStart ==> Continuation(value[k])
    {
      tailStart := tailStart + 1;
    }
    ShortRun(value, start, tailStart);
    AroundMarker(value, headEnd, tailStart);
    r := value[..headEnd] + TRUNCATION_MARKER + value[tailStart..];
  }

  /** A prefix and a suffix cut at boundaries stay well-formed around the marker. */
  lemma {:induction false} AroundMarker(value: Text, headEnd: nat, tailStart: nat)
    requires ValidUtf8(value) && headEnd <= |value| && tailStart <= |value|
    requires IsCharBoundary(value, headEnd) && IsCharBoundary(value, tailStart)
    ensures ValidUtf8(value[..headEnd] + TRUNCATION_MARKER + value[tailStart..])
  {
    SplitValid(value, headEnd);
    SplitValid(value, tailStart);
    MarkerPrefixValid(|TRUNCATION_MARKER|);
    assert TRUNCATION_MARKER[..|TRUNCATION_MARKER|] == TRUNCATION_MARKER;
    ConcatValid(value[..headEnd], TRUNCATION_MARKER);
    ConcatValid(value[..headEnd] + TRUNCATION_MARKER, value[tailStart..]);
  }
}
