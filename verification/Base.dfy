/** Bytes, text, options and the fixed-width arithmetic shared by every component. */
module Base {

  newtype byte = b: int | 0 <= b < 256

  /** A Rust `String` or byte vector. Lengths are therefore byte lengths. */
  type Text = seq<byte>

  datatype Option<+T> = None | Some(value: T)

  datatype Result<+T, +E> = Ok(value: T) | Err(error: E)

  const U64_MAX: nat := 0xFFFF_FFFF_FFFF_FFFF

  type u64 = n: nat | n <= U64_MAX

  function Min(a: int, b: int): int {
    if a <= b then a else b
  }

  function Max(a: int, b: int): int {
    if a <= b then b else a
  }

  /** `u64::saturating_add`. */
  function SatAdd(a: u64, b: u64): u64 {
    if a + b <= U64_MAX then a + b else U64_MAX
  }

  /** `u64::saturating_sub`. */
  function SatSub(a: nat, b: nat): nat {
    if b <= a then a - b else 0
  }

  /** `u64::checked_add`. */
  function CheckedAdd(a: u64, b: u64): Option<u64> {
    if a + b <= U64_MAX then Some(a + b) else None
  }

  /** `u64::try_from(len).unwrap_or(u64::MAX)`. */
  function Clamp(n: nat): u64 {
    if n <= U64_MAX then n else U64_MAX
  }

  // ---------- text ----------

  /** The bytes of an ASCII literal. */
  function Ascii(s: string): (t: Text)
    ensures |t| == |s|
  {
    seq(|s|, i requires 0 <= i < |s| => (s[i] as int % 128) as byte)
  }

  function Decimal(n: nat): (t: Text)
    ensures |t| >= 1
  {
    if n < 10 then [(48 + n) as byte] else Decimal(n / 10) + [(48 + n % 10) as byte]
  }

  function Pow10(k: nat): (p: nat)
    ensures p >= 1
  {
    if k == 0 then 1 else 10 * Pow10(k - 1)
  }

  /** A number has exactly `k` decimal digits when it lies in `[10^(k-1), 10^k)`. */
  lemma {:induction false} DecimalLength(n: nat, k: nat)
    requires k >= 1
    ensures n < Pow10(k) ==> |Decimal(n)| <= k
    ensures n >= Pow10(k - 1) ==> |Decimal(n)| >= k
  {
    if k > 1 {
      DecimalLength(n / 10, k - 1);
      assert Pow10(k) == 10 * Pow10(k - 1);
      assert Pow10(k - 1) == 10 * Pow10(k - 2);
    }
  }

  lemma {:induction false} Pow10Nineteen()
    ensures Pow10(19) == 10_000_000_000_000_000_000
    ensures Pow10(20) == 100_000_000_000_000_000_000
  {
    assert Pow10(5) == 100_000;
    assert Pow10(10) == 100_000 * Pow10(5);
    assert Pow10(15) == 100_000 * Pow10(10);
    assert Pow10(20) == 100_000 * Pow10(15);
  }

  /** Every 64-bit number prints in at most 20 digits, and the largest needs all 20. */
  lemma {:induction false} U64Digits(n: nat)
    requires n <= U64_MAX
    ensures 1 <= |Decimal(n)| <= 20
    ensures |Decimal(U64_MAX)| == 20
  {
    Pow10Nineteen();
    DecimalLength(n, 20);
    DecimalLength(U64_MAX, 20);
  }

  // ---------- sequences ----------

  function Last<T>(s: seq<T>): T
    requires s != []
  {
    s[|s| - 1]
  }

  function Front<T>(s: seq<T>): seq<T>
    requires s != []
  {
    s[..|s| - 1]
  }

  lemma {:induction false} SnocParts<T>(s: seq<T>, x: T)
    ensures Front(s + [x]) == s && Last(s + [x]) == x
  {
  }

  lemma {:induction false} FrontLast<T>(s: seq<T>)
    requires s != []
    ensures s == Front(s) + [Last(s)]
  {
  }

  lemma {:induction false} SplitAt<T>(s: seq<T>, n: nat)
    requires n <= |s|
    ensures s == s[..n] + s[n..]
  {
  }

  lemma {:induction false} TakeNext<T>(s: seq<T>, i: nat)
    requires i < |s|
    ensures s[..i + 1] == s[..i] + [s[i]]
    ensures Front(s[..i + 1]) == s[..i] && Last(s[..i + 1]) == s[i]
  {
  }

  lemma {:induction false} SnocConcat<T>(a: seq<T>, b: seq<T>)
    requires b != []
    ensures Front(a + b) == a + Front(b) && Last(a + b) == Last(b)
  {
  }

  lemma {:induction false} TakeAll<T>(s: seq<T>)
    ensures s[..|s|] == s && s[0..] == s
  {
  }

  lemma {:induction false} TakeLess<T>(s: seq<T>, m: nat, n: nat)
    requires m <= n <= |s|
    ensures s[..n][..m] == s[..m]
    ensures m < n ==> s[..n][m] == s[m]
  {
  }

  lemma {:induction false} PrefixAt<T>(s: seq<T>, i: nat, k: nat)
    requires i <= k < |s|
    ensures |s[..k + 1]| == k + 1 && s[..k + 1][i] == s[i] && Last(s[..k + 1]) == s[k]
  {
  }

  /** A slice is a prefix of a suffix. */
  lemma {:induction false} TakeOfDrop<T>(s: seq<T>, lo: nat, hi: nat)
    requires lo <= hi <= |s|
    ensures s[lo..hi] == s[lo..][..hi - lo] && s[..hi] == s[..lo] + s[lo..hi]
  {
  }

  lemma {:induction false} DropAt<T>(s: seq<T>, lo: nat, i: nat)
    requires lo <= i < |s|
    ensures s[lo..][i - lo] == s[i]
  {
  }

  lemma {:induction false} ConcatAt<T>(a: seq<T>, b: seq<T>, i: nat)
    ensures i < |a| ==> (a + b)[i] == a[i]
    ensures i < |b| ==> (a + b)[|a| + i] == b[i]
  {
  }

  lemma {:induction false} ConcatParts<T>(a: seq<T>, b: seq<T>)
    ensures (a + b)[..|a|] == a && (a + b)[|a|..] == b
  {
  }

  lemma {:induction false} EmptyConcat<T>(s: seq<T>)
    ensures [] + s == s && s + [] == s
  {
  }

  lemma {:induction false} Assoc<T>(a: seq<T>, b: seq<T>, c: seq<T>)
    ensures a + (b + c) == a + b + c
  {
  }

  lemma {:induction false} Regroup<T>(s: seq<T>, n: nat, u: seq<T>)
    requires n <= |s|
    ensures s + u == s[..n] + (s[n..] + u)
  {
  }

  lemma {:induction false} CutBehind<T>(s: seq<T>, n: nat, i: nat)
    requires n <= i <= |s|
    ensures s[..i] == s[..n] + s[n..][..i - n]
    ensures s[i..] == s[n..][i - n..]
  {
  }
}
