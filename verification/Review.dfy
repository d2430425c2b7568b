/** Completion review: the challenge automaton and the capacity rules that admit it. Durations
    are in nanoseconds. */
module Review {
  import opened Base

  // ---------- the challenge automaton ----------

  datatype ReviewPhase = NotIssued | Validation | Decision | Correction | Revalidation

  function PhaseRank(p: ReviewPhase): nat {
    match p
    case NotIssued => 0
    case Validation => 1
    case Decision => 2
    case Correction => 3
    case Revalidation => 4
  }

  datatype Stage = ValidationStage | CorrectionStage | RevalidationStage

  datatype Effect = Mutating | ReadOnly

  datatype Challenge = Challenge(
    phase: ReviewPhase, provisional: Option<Text>, workspaceMutated: bool)

  const UNISSUED := Challenge(NotIssued, None, false)

  function Issue(c: Challenge, text: Text): Challenge
    requires c.phase.NotIssued?
  {
    Challenge(Validation, Some(text), false)
  }

  function AdmitStage(c: Challenge, effects: seq<Effect>): Option<Stage> {
    if effects == [] then None
    else match c.phase
      case NotIssued => None
      case Validation => Some(ValidationStage)
      case Decision => if Mutating in effects then Some(CorrectionStage) else None
      case Correction =>
        if forall i :: 0 <= i < |effects| ==> effects[i].ReadOnly? then Some(RevalidationStage)
        else None
      case Revalidation => None
  }

  function CommitStage(c: Challenge, stage: Stage, dispatched: bool, mutated: bool): Challenge {
    var kept := if mutated then c.(workspaceMutated := true, provisional := None) else c;
    if !dispatched then kept
    else kept.(phase :=
      match (kept.phase, stage)
      case (Validation, ValidationStage) => Decision
      case (Decision, CorrectionStage) => Correction
      case (Correction, RevalidationStage) => Revalidation
      case (phase, _) => phase)
  }

  /** The stage a phase waits for. */
  predicate Awaits(phase: ReviewPhase, stage: Stage) {
    match phase
    case Validation => stage.ValidationStage?
    case Decision => stage.CorrectionStage?
    case Correction => stage.RevalidationStage?
    case _ => false
  }

  function TakeFallback(c: Challenge): (Challenge, Option<Text>) {
    if c.workspaceMutated then (c, None) else (c.(provisional := None), c.provisional)
  }

  function CloseReview(c: Challenge): Challenge {
    if c.phase.NotIssued? then c else c.(phase := Revalidation)
  }

  predicate RequiresFinalOnly(c: Challenge) {
    c.phase.Revalidation?
  }

  /** What the loop does with the challenge after a tool batch. */
  function AfterBatch(c: Challenge, stage: Option<Stage>, dispatched: bool, mutated: bool)
    : Challenge
  {
    match stage
    case Some(s) =>
      var committed := CommitStage(c, s, dispatched, mutated);
      if dispatched then committed else CloseReview(committed)
    case None => if c.phase.NotIssued? then c else CloseReview(c)
  }

  /** A batch made during a review moves the phase strictly forward, or the phase was already
      the last. */
  lemma {:induction false} BatchMovesReviewForward(
      c: Challenge, effects: seq<Effect>, dispatched: bool, mutated: bool)
    requires effects != [] && !c.phase.NotIssued?
    requires AdmitStage(c, effects).None? ==> !dispatched
    ensures var after := AfterBatch(c, AdmitStage(c, effects), dispatched, mutated);
            if c.phase.Revalidation? then after.phase.Revalidation?
            else PhaseRank(after.phase) > PhaseRank(c.phase)
  {
  }

  // ---------- every use of the challenge ----------

  datatype ChallengeOp =
    | IssueOp(text: Text)
    | CommitOp(stage: Stage, dispatched: bool, mutated: bool)
    | TakeOp
    | CloseOp

  function Apply(c: Challenge, op: ChallengeOp): Challenge {
    match op
    case IssueOp(text) => if c.phase.NotIssued? then Issue(c, text) else c
    case CommitOp(stage, dispatched, mutated) => CommitStage(c, stage, dispatched, mutated)
    case TakeOp => TakeFallback(c).0
    case CloseOp => CloseReview(c)
  }

  function Run(ops: seq<ChallengeOp>): Challenge {
    if ops == [] then UNISSUED else Apply(Run(Front(ops)), Last(ops))
  }

  /** A review is issued at most once. */
  predicate Legal(ops: seq<ChallengeOp>) {
    ops != [] ==>
      Legal(Front(ops)) && (Last(ops).IssueOp? ==> Run(Front(ops)).phase.NotIssued?)
  }

  /** What makes a staged answer unfit as a fallback: a committed mutation, or its being
      taken. */
  predicate Spoils(op: ChallengeOp) {
    op.TakeOp? || (op.CommitOp? && op.mutated)
  }

  /** The answer was staged and nothing has spoiled it since. */
  ghost predicate Safe(ops: seq<ChallengeOp>, text: Text) {
    exists i :: SafeSince(ops, i, text)
  }

  ghost predicate SafeSince(ops: seq<ChallengeOp>, i: int, text: Text) {
    && 0 <= i < |ops| && ops[i] == IssueOp(text)
    && forall j :: i < j < |ops| ==> !Spoils(ops[j])
  }

  /** One more operation keeps an answer safe exactly when it spoils nothing or stages it. */
  lemma {:induction false} SafeSnoc(ops: seq<ChallengeOp>, op: ChallengeOp, text: Text)
    ensures Safe(ops + [op], text) <==> op == IssueOp(text) || (Safe(ops, text) && !Spoils(op))
  {
    var longer := ops + [op];
    assert longer[|ops|] == op;
    assert forall j :: 0 <= j < |ops| ==> longer[j] == ops[j];
    if op == IssueOp(text) {
      assert SafeSince(longer, |ops|, text);
    } else if Safe(ops, text) && !Spoils(op) {
      var i :| SafeSince(ops, i, text);
      assert SafeSince(longer, i, text);
    }
    if Safe(longer, text) && op != IssueOp(text) {
      var i :| SafeSince(longer, i, text);
      assert SafeSince(ops, i, text);
    }
  }

  /** The challenge offers a text exactly when it was staged, no mutation was committed since,
      and it was not taken yet. */
  lemma {:induction false} FallbackMeaning(ops: seq<ChallengeOp>, text: Text)
    requires Legal(ops)
    ensures TakeFallback(Run(ops)).1 == Some(text) <==> Safe(ops, text)
    ensures Run(ops).phase.NotIssued? ==> Run(ops).provisional.None?
    ensures Run(ops).provisional.Some? ==> !Run(ops).workspaceMutated
  {
    if ops != [] {
      FallbackMeaning(Front(ops), text);
      SafeSnoc(Front(ops), Last(ops), text);
      FrontLast(ops);
    }
  }

  lemma {:induction false} NeverMovesBack(ops: seq<ChallengeOp>, op: ChallengeOp)
    ensures PhaseRank(Run(ops).phase) <= PhaseRank(Run(ops + [op]).phase)
  {
    SnocParts(ops, op);
  }

  // ---------- capacity ----------

  datatype ReviewPolicy =
    | Disabled | IndependentFalsification | EvidenceDebt | FreshEvidenceDebt | FreshCheckpoint

  const NANOS_PER_SECOND: nat := 1_000_000_000
  const FINAL_RESPONSE_LATENCY_RESERVE: nat := 90 * NANOS_PER_SECOND
  const REVIEW_BOUNDED_TOOL_RESERVE: nat := 120 * NANOS_PER_SECOND
  const CHECKPOINT_POST_RESET_RESERVE: nat := 120 * NANOS_PER_SECOND

  predicate UsesFreshContext(p: ReviewPolicy) {
    p.FreshEvidenceDebt? || p.FreshCheckpoint?
  }

  /** `review_required_reserve_v1`: provider stages, tool stages, and one final response. */
  function RequiredReserve(p: ReviewPolicy): Option<nat> {
    if p.Disabled? then None
    else
      var providerStages := if UsesFreshContext(p) then 3 else 2;
      var toolStages := if UsesFreshContext(p) then 2 else 1;
      Some(FINAL_RESPONSE_LATENCY_RESERVE * providerStages
           + REVIEW_BOUNDED_TOOL_RESERVE * toolStages
           + FINAL_RESPONSE_LATENCY_RESERVE)
  }

  datatype Capacity = Capacity(
    now: nat, lastSend: nat, turns: u64, maxTurns: u64, historyItems: nat, maxHistoryItems: u64)

  /** `has_capacity`. */
  predicate HasCapacity(p: ReviewPolicy, c: Capacity) {
    && !p.Disabled?
    && SatSub(c.maxTurns, c.turns) >= (if UsesFreshContext(p) then 4 else 2)
    && c.historyItems <= c.maxHistoryItems
    && c.maxHistoryItems - c.historyItems >= (if UsesFreshContext(p) then 4 else 1)
    && c.now <= c.lastSend
    && c.lastSend - c.now > RequiredReserve(p).value
  }

  /** Capacity leaves a review its prompt, its turns and more than its reserve, and is
      monotone: with more time, turns and history left it stays. */
  lemma {:induction false} CapacityMonotone(p: ReviewPolicy, c: Capacity, d: Capacity)
    requires HasCapacity(p, c)
    requires d.now <= c.now && c.lastSend <= d.lastSend && d.turns <= c.turns
    requires c.maxTurns <= d.maxTurns && d.historyItems <= c.historyItems
    requires c.maxHistoryItems <= d.maxHistoryItems
    ensures HasCapacity(p, d)
    ensures c.turns + 2 <= c.maxTurns && c.historyItems + 1 <= c.maxHistoryItems
    ensures c.now + 390 * NANOS_PER_SECOND < c.lastSend
  {
  }

  const FRESH_CRITIC_RESPONSES: nat := 4
  const FRESH_CRITIC_BATCHES: nat := 2
  const FRESH_CRITIC_FIXED_ITEMS: nat := 8
  const FRESH_CRITIC_ITEMS_PER_CALL: nat := 2

  datatype FreshCapacity = FreshCapacity(
    now: nat, lastSend: nat, finalNonempty: bool, alreadyInvoked: bool, turns: u64,
    maxTurns: u64, historyItems: u64, maxHistoryItems: u64, calls: u64,
    maxCallsPerResponse: u64, maxCallsPerRun: u64)

  /** `FreshCriticCapacity::has_capacity`, with its checked arithmetic. */
  predicate FreshHasCapacity(c: FreshCapacity, required: nat) {
    && c.finalNonempty && !c.alreadyInvoked
    && c.now <= c.lastSend && c.lastSend - c.now > required
    && c.turns <= c.maxTurns && c.maxTurns - c.turns >= FRESH_CRITIC_RESPONSES
    && var future := c.maxCallsPerResponse * FRESH_CRITIC_BATCHES;
    && future <= U64_MAX
    && c.calls <= c.maxCallsPerRun && c.maxCallsPerRun - c.calls >= future
    && var items := future * FRESH_CRITIC_ITEMS_PER_CALL + FRESH_CRITIC_FIXED_ITEMS;
    && future * FRESH_CRITIC_ITEMS_PER_CALL <= U64_MAX && items <= U64_MAX
    && c.historyItems <= c.maxHistoryItems && c.maxHistoryItems - c.historyItems >= items
  }

  predicate HasFreshPathCapacity(p: ReviewPolicy, c: FreshCapacity) {
    UsesFreshContext(p) && FreshHasCapacity(c, RequiredReserve(p).value)
  }

  // ---------- the context checkpoint ----------

  datatype CheckpointCapacity = CheckpointCapacity(
    alreadyInvoked: bool, turns: u64, maxTurns: u64, inputTokens: u64, historyItems: u64,
    unresolvedBackground: u64, remaining: nat)

  predicate ShouldCheckpoint(p: ReviewPolicy, c: CheckpointCapacity) {
    && p.FreshCheckpoint?
    && !c.alreadyInvoked
    && c.unresolvedBackground == 0
    && c.turns >= 12 && c.inputTokens >= 250_000 && c.historyItems >= 32
    && c.turns <= c.maxTurns && c.maxTurns - c.turns >= 12
    && c.remaining > RequiredReserve(p).value + CHECKPOINT_POST_RESET_RESERVE
  }

  /** Room for the calls of two batches, and for what they and the review add to the history. */
  predicate CallAndItemRoom(c: FreshCapacity) {
    var future := c.maxCallsPerResponse * FRESH_CRITIC_BATCHES;
    var items := future * FRESH_CRITIC_ITEMS_PER_CALL + FRESH_CRITIC_FIXED_ITEMS;
    && items <= U64_MAX
    && c.calls + future <= c.maxCallsPerRun
    && c.historyItems + items <= c.maxHistoryItems
  }

  /** The capacity question of a first review asked `elapsed` after a checkpoint and `spent` turns
      later. */
  predicate AskedAfter(k: CheckpointCapacity, c: FreshCapacity, elapsed: nat, spent: nat) {
    && c.finalNonempty && !c.alreadyInvoked
    && c.maxTurns == k.maxTurns && c.turns == k.turns + spent
    && c.lastSend == c.now + SatSub(k.remaining, elapsed) && elapsed <= k.remaining
  }

  /** A checkpoint is only taken with twelve turns and more than twelve minutes left. A review
      asked for within eight turns and two minutes after it is admitted exactly when call and
      history room suffice. */
  lemma {:induction false} CheckpointLeavesReview(
      p: ReviewPolicy, k: CheckpointCapacity, c: FreshCapacity, elapsed: nat, spent: nat)
    requires ShouldCheckpoint(p, k) && AskedAfter(k, c, elapsed, spent)
    requires elapsed <= CHECKPOINT_POST_RESET_RESERVE && spent <= 8
    ensures k.remaining > 720 * NANOS_PER_SECOND && k.turns + 12 <= k.maxTurns
    ensures HasFreshPathCapacity(p, c) <==> CallAndItemRoom(c)
  {
  }
}

/** The challenge object, with everything that was done with it. */
module ReviewObject {
  import opened Base
  import opened Review

  class CompletionChallengeState {
    var phase: ReviewPhase
    var provisional: Option<Text>
    var workspaceMutated: bool
    ghost var history: seq<ChallengeOp>

    function Value(): Challenge
      reads this
    {
      Challenge(phase, provisional, workspaceMutated)
    }

    ghost predicate Valid()
      reads this
    {
      Legal(history) && Value() == Run(history)
    }

    constructor ()
      ensures Valid() && history == [] && phase.NotIssued?
    {
      phase, provisional, workspaceMutated := NotIssued, None, false;
      history := [];
    }

    ghost method Record(op: ChallengeOp)
      requires Legal(history) && Value() == Apply(Run(history), op)
      requires op.IssueOp? ==> Run(history).phase.NotIssued?
      modifies this`history
      ensures Valid() && history == old(history) + [op]
    {
      SnocParts(history, op);
      history := history + [op];
    }

    /** Stages the answer: until something spoils it, it is the one to fall back on. */
    method Issue(text: Text)
      requires Valid() && phase.NotIssued?
      modifies this
      ensures Valid() && history == old(history) + [IssueOp(text)]
      ensures phase.Validation? && Safe(history, text)
      ensures forall other :: Safe(history, other) ==> other == text
    {
      ghost var op := IssueOp(text);
      phase, provisional, workspaceMutated := Validation, Some(text), false;
      Record(op);
      forall other | Safe(history, other) ensures other == text {
        FallbackMeaning(history, other);
      }
      FallbackMeaning(history, text);
    }

    /** The phase moves to the next one exactly when the stage it waits for was dispatched; a
        mutation leaves nothing to fall back on, anything else leaves the fallback alone. */
    method CommitToolStage(stage: Stage, dispatched: bool, mutated: bool)
      requires Valid()
      modifies this
      ensures Valid() && history == old(history) + [CommitOp(stage, dispatched, mutated)]
      ensures PhaseRank(phase)
           == PhaseRank(old(phase)) + (if dispatched && Awaits(old(phase), stage) then 1 else 0)
      ensures forall text :: Safe(history, text) <==> Safe(old(history), text) && !mutated
    {
      ghost var op := CommitOp(stage, dispatched, mutated);
      forall text ensures Safe(history + [op], text) <==> Safe(history, text) && !mutated {
        SafeSnoc(history, op, text);
      }
      if mutated {
        workspaceMutated := true;
        provisional := None;
      }
      if dispatched {
        match (phase, stage)
        case (Validation, ValidationStage) => phase := Decision;
        case (Decision, CorrectionStage) => phase := Correction;
        case (Correction, RevalidationStage) => phase := Revalidation;
        case _ =>
      }
      Record(op);
    }

    /** Gives the staged answer exactly while it is safe, and so at most once and never after a
        mutation. */
    method TakeSafeFallback() returns (text: Option<Text>)
      requires Valid()
      modifies this
      ensures Valid() && history == old(history) + [TakeOp]
      ensures forall t :: text == Some(t) <==> Safe(old(history), t)
      ensures forall t :: !Safe(history, t)
      ensures phase == old(phase)
    {
      forall t
        ensures TakeFallback(Value()).1 == Some(t) <==> Safe(history, t)
        ensures !Safe(history + [TakeOp], t)
      {
        FallbackMeaning(history, t);
        SafeSnoc(history, TakeOp, t);
      }
      if workspaceMutated {
        text := None;
      } else {
        text := provisional;
        provisional := None;
      }
      Record(TakeOp);
    }

    /** Ends a review that was started, without touching its fallback. */
    method CloseReview()
      requires Valid()
      modifies this
      ensures Valid() && history == old(history) + [CloseOp]
      ensures phase == if old(phase).NotIssued? then NotIssued else Revalidation
      ensures forall text :: Safe(history, text) <==> Safe(old(history), text)
    {
      forall text ensures Safe(history + [CloseOp], text) <==> Safe(history, text) {
        SafeSnoc(history, CloseOp, text);
      }
      if !phase.NotIssued? { phase := Revalidation; }
      Record(CloseOp);
    }
  }
}
