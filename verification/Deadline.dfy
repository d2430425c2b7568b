/** Launch deadlines: reserve arithmetic, absolute cutoffs, and their projection onto the
    runtime's own clock. Absolute times are 64-bit nanoseconds. */
module Deadline {
  import opened Base

  const NANOS_PER_MILLISECOND: nat := 1_000_000

  datatype Reserves = Reserves(
    cleanupMs: u64, terminalizationMs: u64, providerSendMs: u64, processSettlementMs: u64)

  const FROZEN := Reserves(20_000, 15_000, 30_000, 10_000)

  datatype Cutoffs = Cutoffs(
    actorDone: u64, toolSettled: u64, lastSend: u64, runtimeFinal: u64, cleanupStart: u64,
    hardDeadline: u64)

  datatype DeadlineError =
    | ArgumentInvalid | SchemaInvalid | SourceInvalid | IdentityInvalid | RunSpecHashInvalid
    | IdentityBindingInvalid | RunSpecBindingInvalid | RootBindingInvalid
    | TimeoutBindingInvalid | ReserveBindingInvalid | ProfileBindingInvalid
    | ReserveInvalid | ReserveUnderflow | CutoffBindingInvalid | Expired | ClockInvalid

  // ---------- cutoffs ----------

  /** `total_ms`. */
  function TotalMs(r: Reserves): Result<u64, DeadlineError> {
    var a := CheckedAdd(r.cleanupMs, r.terminalizationMs);
    if a.None? then Err(ReserveInvalid)
    else
      var b := CheckedAdd(a.value, r.providerSendMs);
      if b.None? then Err(ReserveInvalid)
      else
        var c := CheckedAdd(b.value, r.processSettlementMs);
        if c.None? then Err(ReserveInvalid) else Ok(c.value)
  }

  function SubtractMs(value: u64, ms: u64): Result<u64, DeadlineError> {
    if ms * NANOS_PER_MILLISECOND > U64_MAX then Err(ReserveInvalid)
    else if value <= ms * NANOS_PER_MILLISECOND then Err(ReserveUnderflow)
    else Ok(value - ms * NANOS_PER_MILLISECOND)
  }

  /** `derive_cutoffs`. */
  function DeriveCutoffs(hard: u64, timeoutMs: u64, r: Reserves): Result<Cutoffs, DeadlineError> {
    var total := TotalMs(r);
    if total.Err? then Err(total.error)
    else if timeoutMs <= total.value then Err(ReserveUnderflow)
    else
      var cleanup := SubtractMs(hard, r.cleanupMs);
      if cleanup.Err? then Err(cleanup.error)
      else
        var final := SubtractMs(cleanup.value, r.terminalizationMs);
        if final.Err? then Err(final.error)
        else
          var settled := SubtractMs(final.value, r.providerSendMs);
          if settled.Err? then Err(settled.error)
          else
            var done := SubtractMs(settled.value, r.processSettlementMs);
            if done.Err? then Err(done.error)
            else Ok(Cutoffs(done.value, settled.value, final.value, final.value, cleanup.value,
                            hard))
  }

  /** The reserves added up without any width. */
  function TrueTotalMs(r: Reserves): nat {
    r.cleanupMs + r.terminalizationMs + r.providerSendMs + r.processSettlementMs
  }

  /** The cutoffs sit at exact distances before the hard deadline. */
  ghost predicate ExactGaps(c: Cutoffs, r: Reserves) {
    && c.hardDeadline == c.cleanupStart + r.cleanupMs * NANOS_PER_MILLISECOND
    && c.cleanupStart == c.runtimeFinal + r.terminalizationMs * NANOS_PER_MILLISECOND
    && c.lastSend == c.runtimeFinal
    && c.lastSend == c.toolSettled + r.providerSendMs * NANOS_PER_MILLISECOND
    && c.toolSettled == c.actorDone + r.processSettlementMs * NANOS_PER_MILLISECOND
    && c.actorDone > 0
  }

  /** Cutoffs exist exactly when the agent timeout exceeds the reserves and the hard deadline
      leaves room for them; then no subtraction wrapped and every gap is exact. */
  lemma {:induction false} CutoffsExactly(hard: u64, timeoutMs: u64, r: Reserves)
    ensures DeriveCutoffs(hard, timeoutMs, r).Ok?
       <==> timeoutMs > TrueTotalMs(r) && hard > TrueTotalMs(r) * NANOS_PER_MILLISECOND
    ensures DeriveCutoffs(hard, timeoutMs, r).Ok? ==>
              var c := DeriveCutoffs(hard, timeoutMs, r).value;
              c.hardDeadline == hard && ExactGaps(c, r)
  {
  }

  ghost predicate StrictChain(c: Cutoffs) {
    c.actorDone < c.toolSettled < c.lastSend == c.runtimeFinal < c.cleanupStart < c.hardDeadline
  }

  /** The chain of cutoffs is strict exactly when every reserve is positive. */
  lemma {:induction false} ChainStrictExactly(hard: u64, timeoutMs: u64, r: Reserves)
    requires DeriveCutoffs(hard, timeoutMs, r).Ok?
    ensures StrictChain(DeriveCutoffs(hard, timeoutMs, r).value)
       <==> r.cleanupMs > 0 && r.terminalizationMs > 0 && r.providerSendMs > 0
            && r.processSettlementMs > 0
  {
    CutoffsExactly(hard, timeoutMs, r);
  }

  // ---------- projection ----------

  /** One paired clock reading. An instant is a number of nanoseconds up to `instantMax`. */
  datatype Anchor = Anchor(monotonic: u64, instant: nat, instantMax: nat)

  /** `MonotonicAnchor::project`. */
  function Project(a: Anchor, cutoff: u64): Result<nat, DeadlineError> {
    var remaining := SatSub(cutoff, a.monotonic);
    if a.instant + remaining > a.instantMax then Err(ClockInvalid) else Ok(a.instant + remaining)
  }

  /** Projection keeps the order of any two cutoffs, keeps them apart when the later one is
      still ahead, and succeeds for every cutoff before one for which it succeeds. */
  lemma {:induction false} ProjectionKeepsOrder(a: Anchor, early: u64, late: u64)
    requires early <= late && Project(a, late).Ok? && a.instant <= a.instantMax
    ensures Project(a, early).Ok?
    ensures a.instant <= Project(a, early).value <= Project(a, late).value
    ensures early < late && a.monotonic < late ==>
              Project(a, early).value < Project(a, late).value
  {
  }

  /** The two clocks tick together: at physical time `t` they read `t` plus a fixed offset. */
  datatype Clocks = Clocks(instantOffset: nat, monotonicOffset: nat)

  function ReadInstant(c: Clocks, t: nat): nat { t + c.instantOffset }

  function ReadMonotonic(c: Clocks, t: nat): nat { t + c.monotonicOffset }

  /** `capture`: the instant is read at `first`, the monotonic clock at `second`. */
  predicate Captured(a: Anchor, c: Clocks, first: nat, second: nat) {
    a.instant == ReadInstant(c, first) && a.monotonic == ReadMonotonic(c, second)
  }

  /** A check `now < projected cutoff`, made at time `t`. */
  predicate CheckPasses(a: Anchor, c: Clocks, cutoff: u64, t: nat) {
    Project(a, cutoff).Ok? && ReadInstant(c, t) < Project(a, cutoff).value
  }

  /** Because the instant is read first, a check made after the capture passes exactly while
      the absolute time plus the capture skew is before the cutoff; so never at or after it. */
  lemma {:induction false} NeverPassesLate(
      a: Anchor, c: Clocks, first: nat, second: nat, cutoff: u64, t: nat)
    requires first <= second <= t && Captured(a, c, first, second) && Project(a, cutoff).Ok?
    ensures CheckPasses(a, c, cutoff, t) <==> ReadMonotonic(c, t) + (second - first) < cutoff
    ensures ReadMonotonic(c, t) >= cutoff ==> !CheckPasses(a, c, cutoff, t)
  {
  }

  /** Reading the monotonic clock first would not do: for every skew there is then a check
      that passes at the cutoff itself. */
  lemma {:induction false} ReversedCapturePassesLate(
      a: Anchor, c: Clocks, monotonicFirst: nat, instantSecond: nat, cutoff: u64)
    requires monotonicFirst < instantSecond && Captured(a, c, instantSecond, monotonicFirst)
    requires a.monotonic < cutoff && Project(a, cutoff).Ok?
    requires cutoff >= ReadMonotonic(c, instantSecond)
    ensures CheckPasses(a, c, cutoff, cutoff - c.monotonicOffset)
    ensures ReadMonotonic(c, cutoff - c.monotonicOffset) >= cutoff
  {
  }

  // ---------- the launch receipt ----------

  /** A parsed receipt; string shapes are reduced to whether they are well formed. */
  datatype Receipt = Receipt(
    schemaSupported: bool, sourceValid: bool, identitiesValid: bool, hashValid: bool,
    identity: Text, runSpecSha256: Text, hardDeadline: u64, agentTimeoutMs: u64,
    reserves: Reserves, cutoffs: Cutoffs)

  datatype RunSpec = RunSpec(identity: Text, sha256: Result<Text, ()>, agentTimeoutSec: u64)

  /** `validate_receipt`. */
  function ValidateReceipt(r: Receipt, spec: RunSpec, profile: Reserves, cliHard: u64)
    : Result<(), DeadlineError>
  {
    if !r.schemaSupported then Err(SchemaInvalid)
    else if !r.sourceValid then Err(SourceInvalid)
    else if !r.identitiesValid then Err(IdentityInvalid)
    else if !r.hashValid then Err(RunSpecHashInvalid)
    else if r.identity != spec.identity then Err(IdentityBindingInvalid)
    else if spec.sha256.Err? || r.runSpecSha256 != spec.sha256.value then
      Err(RunSpecBindingInvalid)
    else if r.hardDeadline != cliHard then Err(RootBindingInvalid)
    else if spec.agentTimeoutSec * 1_000 > U64_MAX
            || r.agentTimeoutMs != spec.agentTimeoutSec * 1_000 then Err(TimeoutBindingInvalid)
    else if r.reserves != FROZEN then Err(ReserveBindingInvalid)
    else if profile != r.reserves then Err(ProfileBindingInvalid)
    else
      var expected := DeriveCutoffs(r.hardDeadline, r.agentTimeoutMs, r.reserves);
      if expected.Err? then Err(expected.error)
      else if r.cutoffs != expected.value then Err(CutoffBindingInvalid)
      else Ok(())
  }

  datatype Instants = Instants(
    actorDone: nat, toolSettled: nat, lastSend: nat, runtimeFinal: nat, cleanupStart: nat,
    hardDeadline: nat)

  /** `from_bytes_at`, after parsing. */
  function Load(r: Receipt, spec: RunSpec, profile: Reserves, cliHard: u64, a: Anchor)
    : Result<Instants, DeadlineError>
  {
    if cliHard == 0 then Err(ArgumentInvalid)
    else
      var checked := ValidateReceipt(r, spec, profile, cliHard);
      if checked.Err? then Err(checked.error)
      else if r.hardDeadline <= a.monotonic then Err(Expired)
      else
        var done := Project(a, r.cutoffs.actorDone);
        var settled := Project(a, r.cutoffs.toolSettled);
        var send := Project(a, r.cutoffs.lastSend);
        var final := Project(a, r.cutoffs.runtimeFinal);
        var cleanup := Project(a, r.cutoffs.cleanupStart);
        var hard := Project(a, r.cutoffs.hardDeadline);
        if done.Err? || settled.Err? || send.Err? || final.Err? || cleanup.Err? || hard.Err?
        then Err(ClockInvalid)
        else Ok(Instants(done.value, settled.value, send.value, final.value, cleanup.value,
                         hard.value))
  }

  /** An accepted receipt carries the frozen reserves, 75 seconds in all, in a strict chain
      before the hard deadline given on the command line, under a timeout that exceeds them. */
  lemma {:induction false} AcceptedReceipt(
      r: Receipt, spec: RunSpec, profile: Reserves, cliHard: u64)
    requires ValidateReceipt(r, spec, profile, cliHard).Ok?
    ensures StrictChain(r.cutoffs) && ExactGaps(r.cutoffs, FROZEN)
    ensures r.cutoffs.hardDeadline == cliHard
    ensures cliHard - r.cutoffs.actorDone == 75_000 * NANOS_PER_MILLISECOND
    ensures spec.agentTimeoutSec > 75
  {
    CutoffsExactly(r.hardDeadline, r.agentTimeoutMs, r.reserves);
    ChainStrictExactly(r.hardDeadline, r.agentTimeoutMs, r.reserves);
  }

  /** Loaded instants keep the order of the absolute cutoffs, and every check against one of
      them, made after the capture, fails at or after the absolute cutoff it stands for. */
  lemma {:induction false} LoadedDeadlinesAreSafe(
      r: Receipt, spec: RunSpec, profile: Reserves, cliHard: u64, a: Anchor, c: Clocks,
      first: nat, second: nat, t: nat)
    requires first <= second <= t && Captured(a, c, first, second)
    requires Load(r, spec, profile, cliHard, a).Ok?
    ensures var i := Load(r, spec, profile, cliHard, a).value;
            && i.actorDone <= i.toolSettled <= i.lastSend == i.runtimeFinal
            && i.runtimeFinal <= i.cleanupStart <= i.hardDeadline
            && a.instant < i.hardDeadline
            && (ReadInstant(c, t) < i.actorDone ==> ReadMonotonic(c, t) < r.cutoffs.actorDone)
            && (ReadInstant(c, t) < i.lastSend ==> ReadMonotonic(c, t) < r.cutoffs.lastSend)
            && (ReadInstant(c, t) < i.hardDeadline ==>
                  ReadMonotonic(c, t) < r.cutoffs.hardDeadline)
  {
    AcceptedReceipt(r, spec, profile, cliHard);
    NeverPassesLate(a, c, first, second, r.cutoffs.actorDone, t);
    NeverPassesLate(a, c, first, second, r.cutoffs.lastSend, t);
    NeverPassesLate(a, c, first, second, r.cutoffs.hardDeadline, t);
  }
}
