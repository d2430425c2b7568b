/** How long a completion review can get, derived from the challenge automaton, and whether the
    capacity checks leave room for it. */
module ReviewPath {
  import opened Base
  import opened Review

  /** What one response of the actor leads to during a review. `extras` counts the history items
      that are neither calls, outputs, attachments nor the review's own prompts: reasoning,
      messages and notices. */
  datatype ReviewStep =
    | ToolBatch(
        effects: seq<Effect>, dispatched: bool, mutated: bool, attachments: nat, extras: nat)
    | OverLimit(extras: nat)

  function ReadOnlyCalls(effects: seq<Effect>): (n: nat)
    ensures n <= |effects|
    ensures Mutating in effects ==> n < |effects|
  {
    if effects == [] then 0
    else
      FrontLast(effects);
      ReadOnlyCalls(Front(effects)) + if Last(effects).ReadOnly? then 1 else 0
  }

  function After(c: Challenge, s: ReviewStep): Challenge {
    match s
    case ToolBatch(effects, dispatched, mutated, _, _) =>
      AfterBatch(c, AdmitStage(c, effects), dispatched, mutated)
    case OverLimit(_) => c
  }

  /** A batch may follow while the review is not over; nothing of it is dispatched unless a
      stage was admitted, and only read-only calls return images. A response over the call limit
      is recovered from once, and only when there is nothing to fall back on. */
  predicate StepAllowed(c: Challenge, recovery: bool, per: nat, s: ReviewStep) {
    && !RequiresFinalOnly(c)
    && match s
       case ToolBatch(effects, dispatched, mutated, attachments, _) =>
         && 0 < |effects| <= per
         && (AdmitStage(c, effects).None? ==> !dispatched)
         && (mutated ==> dispatched && Mutating in effects)
         && attachments <= (if dispatched then ReadOnlyCalls(effects) else 0)
       case OverLimit(_) => recovery && c.provisional.None?
  }

  predicate PathAllowed(c: Challenge, recovery: bool, per: nat, path: seq<ReviewStep>)
    decreases |path|
  {
    path == [] ||
    (StepAllowed(c, recovery, per, path[0])
     && PathAllowed(After(c, path[0]), recovery && !path[0].OverLimit?, per, path[1..]))
  }

  // ---------- what a path uses up ----------

  function Batches(path: seq<ReviewStep>): nat {
    if path == [] then 0 else (if path[0].ToolBatch? then 1 else 0) + Batches(path[1..])
  }

  /** Batches in which a tool ran. */
  function Runs(path: seq<ReviewStep>): (n: nat)
    ensures n <= Batches(path)
  {
    if path == [] then 0
    else (if path[0].ToolBatch? && path[0].dispatched then 1 else 0) + Runs(path[1..])
  }

  function StepCalls(s: ReviewStep): nat {
    if s.ToolBatch? then |s.effects| else 0
  }

  function PathCalls(path: seq<ReviewStep>): nat {
    if path == [] then 0 else StepCalls(path[0]) + PathCalls(path[1..])
  }

  function PathExtras(path: seq<ReviewStep>): nat {
    if path == [] then 0 else path[0].extras + PathExtras(path[1..])
  }

  function PathImages(path: seq<ReviewStep>): nat {
    if path == [] then 0
    else (if path[0].ToolBatch? then path[0].attachments else 0) + PathImages(path[1..])
  }

  /** Items a step adds to the history: each call and its output, images, extras, the decision
      prompt after a dispatched validation, or the notice of a recovery. */
  function StepItems(c: Challenge, s: ReviewStep): nat {
    match s
    case ToolBatch(effects, dispatched, _, attachments, extras) =>
      2 * |effects| + attachments + extras + (if c.phase.Validation? && dispatched then 1 else 0)
    case OverLimit(extras) => 1 + extras
  }

  function PathItems(c: Challenge, path: seq<ReviewStep>): nat
    decreases |path|
  {
    if path == [] then 0 else StepItems(c, path[0]) + PathItems(After(c, path[0]), path[1..])
  }

  /** Batches the automaton still allows in a phase. */
  function BatchesLeft(phase: ReviewPhase): nat {
    4 - PhaseRank(phase)
  }

  /** History items these batches can still add, extras and recoveries aside. */
  function ItemsLeft(phase: ReviewPhase, per: nat): nat {
    match phase
    case NotIssued => 0
    case Validation => 9 * per
    case Decision => if per == 0 then 0 else 6 * per - 1
    case Correction => 3 * per
    case Revalidation => 0
  }

  lemma {:induction false} StepBound(c: Challenge, recovery: bool, per: nat, s: ReviewStep)
    requires !c.phase.NotIssued? && StepAllowed(c, recovery, per, s)
    ensures !After(c, s).phase.NotIssued?
    ensures s.ToolBatch? ==> BatchesLeft(After(c, s).phase) < BatchesLeft(c.phase)
    ensures s.OverLimit? ==> After(c, s).phase == c.phase
    ensures StepItems(c, s) + ItemsLeft(After(c, s).phase, per)
         <= ItemsLeft(c.phase, per) + s.extras + (if s.OverLimit? then 1 else 0)
  {
    if s.ToolBatch? {
      BatchMovesReviewForward(c, s.effects, s.dispatched, s.mutated);
    }
  }

  function Spare(recovery: bool): nat {
    if recovery then 1 else 0
  }

  /** From any phase of a review, the automaton allows at most as many batches as phases are
      left, each call returning at most one image, and one recovery at most. */
  lemma {:induction false} PathBound(c: Challenge, recovery: bool, per: nat, path: seq<ReviewStep>)
    requires !c.phase.NotIssued? && PathAllowed(c, recovery, per, path)
    ensures Batches(path) <= BatchesLeft(c.phase)
    ensures |path| <= Batches(path) + Spare(recovery)
    ensures PathCalls(path) <= Batches(path) * per
    ensures PathItems(c, path) <= ItemsLeft(c.phase, per) + Spare(recovery) + PathExtras(path)
    decreases |path|
  {
    if path != [] {
      var s := path[0];
      StepBound(c, recovery, per, s);
      PathBound(After(c, s), recovery && !s.OverLimit?, per, path[1..]);
      if s.ToolBatch? {
        var rest := Batches(path[1..]);
        assert (1 + rest) * per == per + rest * per;
      }
    }
  }

  /** Three batches end every review: whatever the calls were and did, the next request is the
      final one. */
  lemma {:induction false} ThreeBatchesEndReview(
      c: Challenge, recovery: bool, per: nat, path: seq<ReviewStep>)
    requires !c.phase.NotIssued? && PathAllowed(c, recovery, per, path) && Batches(path) >= 3
    ensures RequiresFinalOnly(AfterPath(c, path))
  {
    PathRank(c, recovery, per, path);
  }

  function AfterPath(c: Challenge, path: seq<ReviewStep>): Challenge
    decreases |path|
  {
    if path == [] then c else AfterPath(After(c, path[0]), path[1..])
  }

  lemma {:induction false} PathRank(c: Challenge, recovery: bool, per: nat, path: seq<ReviewStep>)
    requires !c.phase.NotIssued? && PathAllowed(c, recovery, per, path)
    ensures PhaseRank(AfterPath(c, path).phase) >= PhaseRank(c.phase) + Batches(path)
    decreases |path|
  {
    if path != [] {
      StepBound(c, recovery, per, path[0]);
      PathRank(After(c, path[0]), recovery && !path[0].OverLimit?, per, path[1..]);
    }
  }

  // ---------- the longest path ----------

  function Reads(n: nat): seq<Effect> {
    seq(n, i requires 0 <= i < n => ReadOnly)
  }

  lemma {:induction false} ReadsAreReadOnly(n: nat)
    ensures ReadOnlyCalls(Reads(n)) == n
    ensures n > 0 ==> ReadOnlyCalls([Mutating] + Reads(n - 1)) == n - 1
  {
    if n > 0 {
      ReadsAreReadOnly(n - 1);
      assert Front(Reads(n)) == Reads(n - 1);
      if n > 1 {
        assert Front([Mutating] + Reads(n - 1)) == [Mutating] + Reads(n - 2);
      } else {
        assert [Mutating] + Reads(0) == [Mutating] && Front([Mutating]) == [];
      }
    }
  }

  function Validate(per: nat, extras: nat): ReviewStep {
    ToolBatch(Reads(per), true, false, per, extras)
  }

  function Correct(per: nat): ReviewStep
    requires per > 0
  {
    ToolBatch([Mutating] + Reads(per - 1), true, true, per - 1, 0)
  }

  /** Validation, correction, possibly a recovery, revalidation; every call it may read returns
      an image. */
  function LongestPath(per: nat, recovery: bool, extras: nat): seq<ReviewStep>
    requires per > 0
  {
    [Validate(per, extras), Correct(per)]
    + (if recovery then [OverLimit(0)] else []) + [Validate(per, 0)]
  }

  lemma {:induction false} EndOfPath(c: Challenge, per: nat)
    requires per > 0 && c.phase.Correction?
    ensures var path := [Validate(per, 0)];
            && PathAllowed(c, false, per, path)
            && |path| == Runs(path) == 1 && PathCalls(path) == per && PathExtras(path) == 0
            && PathItems(c, path) == 3 * per
  {
    ReadsAreReadOnly(per);
    var path := [Validate(per, 0)];
    assert path[1..] == [];
    assert PathAllowed(After(c, path[0]), false, per, []);
  }

  lemma {:induction false} RecoveredPath(c: Challenge, recovery: bool, per: nat)
    requires per > 0 && c.phase.Correction? && c.provisional.None?
    ensures var path := (if recovery then [OverLimit(0)] else []) + [Validate(per, 0)];
            && PathAllowed(c, recovery, per, path)
            && |path| == 1 + Spare(recovery) && PathCalls(path) == per && PathExtras(path) == 0
            && Runs(path) == 1
            && PathItems(c, path) == 3 * per + Spare(recovery)
  {
    EndOfPath(c, per);
    var path := (if recovery then [OverLimit(0)] else []) + [Validate(per, 0)];
    if recovery {
      assert path[0] == OverLimit(0) && path[1..] == [Validate(per, 0)];
    } else {
      assert path == [Validate(per, 0)];
      assert path[1..] == [];
      ReadsAreReadOnly(per);
    }
  }

  lemma {:induction false} CorrectedPath(
      c: Challenge, recovery: bool, per: nat, rest: seq<ReviewStep>)
    requires per > 0 && c.phase.Decision?
    requires rest == (if recovery then [OverLimit(0)] else []) + [Validate(per, 0)]
    ensures var path := [Correct(per)] + rest;
            && PathAllowed(c, recovery, per, path)
            && |path| == 2 + Spare(recovery) && PathCalls(path) == 2 * per && PathExtras(path) == 0
            && Runs(path) == 2
            && PathItems(c, path) == 6 * per - 1 + Spare(recovery)
  {
    var s := Correct(per);
    var path := [s] + rest;
    ReadsAreReadOnly(per);
    assert s.effects[0] == Mutating;
    assert path[0] == s && path[1..] == rest;
    assert AdmitStage(c, s.effects) == Some(CorrectionStage);
    RecoveredPath(After(c, s), recovery, per);
  }

  /** The longest path is a path of the automaton and uses up all that `PathBound` allows. */
  lemma {:induction false} LongestPathAttained(
      text: Text, per: nat, recovery: bool, extras: nat)
    requires per > 0
    ensures var c := Issue(UNISSUED, text);
            var path := LongestPath(per, recovery, extras);
            && PathAllowed(c, recovery, per, path)
            && |path| == 3 + Spare(recovery) && Runs(path) == 3
            && PathCalls(path) == 3 * per
            && PathExtras(path) == extras
            && PathItems(c, path) == 9 * per + Spare(recovery) + extras
  {
    var c := Issue(UNISSUED, text);
    var path := LongestPath(per, recovery, extras);
    var s := Validate(per, extras);
    var rest := (if recovery then [OverLimit(0)] else []) + [Validate(per, 0)];
    assert path[0] == s && path[1..] == [Correct(per)] + rest;
    ReadsAreReadOnly(per);
    assert AdmitStage(c, s.effects) == Some(ValidationStage);
    CorrectedPath(After(c, s), recovery, per, rest);
  }

  // ---------- capacity ----------

  /** A review along `path` stays within the turn, call and history limits: a critic's request
      if there is a critic, one request a step, and a last one; the challenge prompt and what the
      steps add. */
  predicate FitsCounts(c: FreshCapacity, critic: bool, start: Challenge, path: seq<ReviewStep>) {
    && c.turns + Spare(critic) + |path| + 1 <= c.maxTurns
    && c.calls + PathCalls(path) <= c.maxCallsPerRun
    && c.historyItems + 1 + PathItems(start, path) <= c.maxHistoryItems
  }

  /** What requests and tool batches may take at most, each within its own bound. */
  function TimeOf(requests: nat, batches: nat): nat {
    requests * FINAL_RESPONSE_LATENCY_RESERVE + batches * REVIEW_BOUNDED_TOOL_RESERVE
  }

  /** It also ends by the last send, however long its requests and batches take within their
      bounds; the time between them is not counted. */
  predicate FitsTime(c: FreshCapacity, critic: bool, path: seq<ReviewStep>) {
    c.now + TimeOf(Spare(critic) + |path| + 1, Runs(path)) <= c.lastSend
  }

  predicate Fits(c: FreshCapacity, critic: bool, start: Challenge, path: seq<ReviewStep>) {
    FitsCounts(c, critic, start, path) && FitsTime(c, critic, path)
  }

  /** Every review the automaton allows fits, if it adds at most `extras` other items. */
  ghost predicate EveryReviewFits(
      c: FreshCapacity, critic: bool, recovery: bool, extras: nat, text: Text)
  {
    var start := Issue(UNISSUED, text);
    forall path ::
      PathAllowed(start, recovery, c.maxCallsPerResponse, path) && PathExtras(path) <= extras ==>
        Fits(c, critic, start, path)
  }

  /** Room for the critic, three batches of full width with an image for every call that can
      have one, a recovery if it is still unused, and the final response. */
  predicate RoomForLongest(c: FreshCapacity, critic: bool, recovery: bool, extras: nat) {
    var per := c.maxCallsPerResponse;
    if per == 0 then
      && c.turns + Spare(critic) + 1 <= c.maxTurns
      && c.calls <= c.maxCallsPerRun
      && c.historyItems + 1 <= c.maxHistoryItems
      && c.now + TimeOf(Spare(critic) + 1, 0) <= c.lastSend
    else
      && c.turns + Spare(critic) + 4 + Spare(recovery) <= c.maxTurns
      && c.calls + 3 * per <= c.maxCallsPerRun
      && c.historyItems + 1 + 9 * per + Spare(recovery) + extras <= c.maxHistoryItems
      && c.now + TimeOf(Spare(critic) + 4 + Spare(recovery), 3) <= c.lastSend
  }

  /** Every review fits exactly when the longest one does. */
  lemma {:induction false} EveryReviewFitsExactly(
      c: FreshCapacity, critic: bool, recovery: bool, extras: nat, text: Text)
    ensures EveryReviewFits(c, critic, recovery, extras, text) <==>
              RoomForLongest(c, critic, recovery, extras)
  {
    if RoomForLongest(c, critic, recovery, extras) {
      forall path | PathAllowed(Issue(UNISSUED, text), recovery, c.maxCallsPerResponse, path)
                    && PathExtras(path) <= extras
        ensures Fits(c, critic, Issue(UNISSUED, text), path)
      {
        RoomSuffices(c, critic, recovery, extras, Issue(UNISSUED, text), path);
      }
    }
    if EveryReviewFits(c, critic, recovery, extras, text) {
      LongestNeedsRoom(c, critic, recovery, extras, text);
    }
  }

  lemma {:induction false} LongestNeedsRoom(
      c: FreshCapacity, critic: bool, recovery: bool, extras: nat, text: Text)
    requires EveryReviewFits(c, critic, recovery, extras, text)
    ensures RoomForLongest(c, critic, recovery, extras)
  {
    var start, per := Issue(UNISSUED, text), c.maxCallsPerResponse;
    if per == 0 {
      assert PathAllowed(start, recovery, per, []);
      assert Fits(c, critic, start, []);
    } else {
      var longest := LongestPath(per, recovery, extras);
      LongestPathAttained(text, per, recovery, extras);
      assert Fits(c, critic, start, longest);
      LongestRoom(c, critic, recovery, extras, start, longest);
    }
  }

  lemma {:induction false} LongestRoom(
      c: FreshCapacity, critic: bool, recovery: bool, extras: nat, start: Challenge,
      path: seq<ReviewStep>)
    requires c.maxCallsPerResponse > 0 && Fits(c, critic, start, path)
    requires |path| == 3 + Spare(recovery) && Runs(path) == 3
    requires PathCalls(path) == 3 * c.maxCallsPerResponse
    requires PathItems(start, path) == 9 * c.maxCallsPerResponse + Spare(recovery) + extras
    ensures RoomForLongest(c, critic, recovery, extras)
  {
  }

  lemma {:induction false} RoomSuffices(
      c: FreshCapacity, critic: bool, recovery: bool, extras: nat, start: Challenge,
      path: seq<ReviewStep>)
    requires start.phase.Validation? && start.provisional.Some?
    requires PathAllowed(start, recovery, c.maxCallsPerResponse, path)
    requires PathExtras(path) <= extras && RoomForLongest(c, critic, recovery, extras)
    ensures Fits(c, critic, start, path)
  {
    var per := c.maxCallsPerResponse;
    PathBound(start, recovery, per, path);
    if per == 0 {
      assert path == [];
    } else {
      Scaled(Batches(path), 3, per);
      LessTime(Spare(critic) + |path| + 1, Spare(critic) + 4 + Spare(recovery), Runs(path), 3);
    }
  }

  lemma {:induction false} LessTime(r: nat, s: nat, b: nat, c: nat)
    requires r <= s && b <= c
    ensures TimeOf(r, b) <= TimeOf(s, c)
  {
    Scaled(r, s, FINAL_RESPONSE_LATENCY_RESERVE);
    Scaled(b, c, REVIEW_BOUNDED_TOOL_RESERVE);
  }

  lemma {:induction false} Scaled(a: nat, b: nat, n: nat)
    requires a <= b
    ensures a * n <= b * n
  {
  }

  /** What the check for a fresh critic does leave room for: every review of at most two batches
      without a recovery, as long as images and extras together are at most six. */
  lemma {:induction false} FreshCapacityCovers(
      p: ReviewPolicy, c: FreshCapacity, text: Text, path: seq<ReviewStep>)
    requires HasFreshPathCapacity(p, c)
    requires PathAllowed(Issue(UNISSUED, text), false, c.maxCallsPerResponse, path)
    requires Batches(path) <= 2 && PathImages(path) + PathExtras(path) <= 6
    ensures Fits(c, true, Issue(UNISSUED, text), path)
  {
    var start, per := Issue(UNISSUED, text), c.maxCallsPerResponse;
    PathBound(start, false, per, path);
    Scaled(Batches(path), 2, per);
    ItemsByKind(start, per, path);
    LessTime(|path| + 2, 4, Runs(path), 2);
  }

  /** Without a recovery, the items of a path are its calls and outputs, its images, its extras
      and at most one decision prompt. */
  lemma {:induction false} ItemsByKind(c: Challenge, per: nat, path: seq<ReviewStep>)
    requires !c.phase.NotIssued? && PathAllowed(c, false, per, path)
    ensures PathItems(c, path)
         <= 2 * PathCalls(path) + PathImages(path) + PathExtras(path)
            + (if c.phase.Validation? then 1 else 0)
    decreases |path|
  {
    if path != [] {
      StepBound(c, false, per, path[0]);
      ItemsByKind(After(c, path[0]), per, path[1..]);
    }
  }

  /** It does not leave room for a third batch: after a first turn, with one call per response and
      room for two, the check passes and the longest path does not fit. */
  lemma {:induction false} FreshCapacityMissesThirdBatch(text: Text)
    ensures var c := FreshCapacity(0, 601 * NANOS_PER_SECOND, true, false, 1, 5, 3, 15, 0, 1, 2);
            && HasFreshPathCapacity(FreshEvidenceDebt, c)
            && PathAllowed(Issue(UNISSUED, text), false, 1, LongestPath(1, false, 0))
            && !FitsCounts(c, true, Issue(UNISSUED, text), LongestPath(1, false, 0))
  {
    LongestPathAttained(text, 1, false, 0);
  }

  /** Nor for its time: the reserve is 600 seconds, the longest review may take 810, and 900 with
      a recovery. With room for everything else, reviews fit exactly from there on. */
  lemma {:induction false} ReserveMissesThirdBatch(
      p: ReviewPolicy, c: FreshCapacity, recovery: bool, extras: nat, text: Text)
    requires HasFreshPathCapacity(p, c) && c.maxCallsPerResponse > 0
    requires RoomForLongest(c.(lastSend := c.now + 900 * NANOS_PER_SECOND), true, recovery, extras)
    ensures EveryReviewFits(c, true, recovery, extras, text) <==>
              c.lastSend - c.now >= (if recovery then 900 else 810) * NANOS_PER_SECOND
    ensures RequiredReserve(p) == Some(600 * NANOS_PER_SECOND)
  {
    EveryReviewFitsExactly(c, true, recovery, extras, text);
  }

  function TwoImageBatches(): seq<ReviewStep> {
    [Validate(4, 0), Correct(4)]
  }

  /** Nor for the images of two batches: with four calls per response, seven images overrun the
      history limit although the check passes. */
  lemma {:induction false} FreshCapacityMissesImages(text: Text)
    ensures var c := FreshCapacity(0, 601 * NANOS_PER_SECOND, true, false, 1, 5, 3, 27, 0, 4, 8);
            && HasFreshPathCapacity(FreshEvidenceDebt, c)
            && PathAllowed(Issue(UNISSUED, text), false, 4, TwoImageBatches())
            && !FitsCounts(c, true, Issue(UNISSUED, text), TwoImageBatches())
  {
    var start := Issue(UNISSUED, text);
    var path := TwoImageBatches();
    var first, second := path[0], path[1];
    ReadsAreReadOnly(4);
    assert AdmitStage(start, first.effects) == Some(ValidationStage);
    var c1 := After(start, first);
    assert second.effects[0] == Mutating;
    assert AdmitStage(c1, second.effects) == Some(CorrectionStage);
    assert path[1..] == [second] && [second][1..] == [];
    assert PathAllowed(c1, false, 4, [second]);
    assert PathItems(c1, [second]) == StepItems(c1, second);
  }
}
