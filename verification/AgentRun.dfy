/** Tool turns, and the loop that ties the turns together. */
module AgentRun {
  import opened Base
  import opened History
  import opened MediaPolicy
  import opened MediaBatch
  import opened RequestHistory
  import opened Review
  import opened ProviderTurn
  import opened Response
  import opened AgentTrace
  import opened AgentState
  import opened AgentExit
  import opened AgentTools
  import opened AgentLoop
  import opened AgentTurn
  import opened Conversation
  import F = Finish
  import U = Usage
  import D = Deadline

  // ---------- admitting a batch ----------

  /** What the review and the finish controller decide about a batch. */
  datatype Plan = Plan(
    stage: Option<Stage>, rejected: bool, cutoff: nat, finish: F.Controller, soft: bool)

  function PlanBatch(
      e: Setup, deadlineNow: nat, now: nat, review: Challenge, finish: F.Controller,
      effects: seq<Effect>): Plan
  {
    var soft := finish.state.SoftFinish?;
    var stage := AdmitStage(review, effects);
    var bounded := stage.Some? || soft;
    var toolDeadline := Min(deadlineNow + REVIEW_BOUNDED_TOOL_RESERVE, e.toolSettled);
    var requested := if bounded then Min(toolDeadline, e.actorDone) else e.actorDone;
    var (next, admission) := F.AdmitActionBatch(
      finish, now, requested, SoftActionCutoff(e.lastSend), e.toolSettled);
    Plan(stage, (!review.phase.NotIssued? && stage.None?) || admission.Rejected?,
         if admission.Admitted? then admission.semanticDeadline else requested, next, soft)
  }

  /** Whatever is admitted ends before the actor cutoff; a batch admitted outside the open
      phase is the soft one, and settling it closes the action phase; a review that admits no
      stage rejects the batch. */
  ghost predicate PlanSound(
      e: Setup, review: Challenge, finish: F.Controller, effects: seq<Effect>, p: Plan)
  {
    && p.cutoff <= e.actorDone
    && F.Rank(finish.state) <= F.Rank(p.finish.state) && !p.finish.state.TerminalCommit?
    && (!p.rejected ==> !p.finish.state.FinalOnly?)
    && (!p.rejected && !p.finish.state.ActionOpen? ==>
          p.soft && F.SettleActionBatch(p.finish).state.FinalOnly?)
    && p.stage == AdmitStage(review, effects)
    && (!review.phase.NotIssued? && p.stage.None? ==> p.rejected)
  }

  lemma {:induction false} PlansAreSound(
      e: Setup, deadlineNow: nat, now: nat, review: Challenge, finish: F.Controller,
      effects: seq<Effect>)
    requires !finish.state.TerminalCommit?
    ensures PlanSound(e, review, finish, effects,
                      PlanBatch(e, deadlineNow, now, review, finish, effects))
  {
  }

  /** A soft batch leaves the final response its 90 seconds and itself lasts at most 120. */
  lemma {:induction false} SoftBatchLeavesReserve(
      e: Setup, deadlineNow: nat, now: nat, review: Challenge, finish: F.Controller,
      effects: seq<Effect>)
    requires finish.state.SoftFinish? && e.lastSend >= 90 * NANOS_PER_SECOND
    ensures var p := PlanBatch(e, deadlineNow, now, review, finish, effects);
            !p.rejected ==>
              && now < p.cutoff
              && p.cutoff + 90 * NANOS_PER_SECOND <= e.lastSend
              && p.cutoff <= deadlineNow + 120 * NANOS_PER_SECOND
              && p.cutoff <= e.toolSettled
  {
  }

  function Effects(e: Setup, calls: seq<OutputItem>): (effects: seq<Effect>)
    requires forall i :: 0 <= i < |calls| ==> calls[i].Call?
    ensures |effects| == |calls|
  {
    seq(|calls|, i requires 0 <= i < |calls| =>
      if calls[i].name in e.mutatingTools then Mutating else ReadOnly)
  }

  // ---------- the review after a batch ----------

  /** The candidate after a batch that dispatched calls in a phase of its review. */
  function CandidateAfter(before: Candidate, mutated: bool, ran: bool, phase: ReviewPhase): Candidate {
    before.(mutated := before.mutated || (mutated && before.staged.Some?),
            asked := before.asked && phase == before.phase,
            ran := ran && phase == before.phase,
            phase := phase)
  }

  /** The challenge automaton after a batch agrees with what the monitor saw, and a review has
      moved on to a later phase, in which nothing was asked and nothing ran yet. */
  lemma {:induction false} ReviewAfterBatch(
      before: Candidate, review: Challenge, effects: seq<Effect>, dispatched: bool, mutated: bool,
      ran: bool)
    requires CandidateAgrees(before, review) && effects != [] && !before.ran
    requires !review.phase.Revalidation?
    requires before.staged.None? ==> !ran
    requires mutated ==> dispatched
    requires !review.phase.NotIssued? && AdmitStage(review, effects).None? ==> !dispatched
    ensures var stage := AdmitStage(review, effects);
            var after := AfterBatch(review, stage, stage.Some? && dispatched,
                                    stage.Some? && mutated);
            var next := CandidateAfter(before, mutated, ran, after.phase);
            && CandidateAgrees(next, after) && !next.asked && !next.ran
            && (after.phase != review.phase ==>
                  PhaseRank(after.phase) > PhaseRank(review.phase) && before.staged.Some?)
  {
    if !review.phase.NotIssued? {
      BatchMovesReviewForward(review, effects, dispatched, mutated);
    }
  }

  /** Installs the new challenge; a change of phase is an action of the trace. */
  method MoveReview(e: Setup, ghost legal: TraceProperty, s0: Core, review: Challenge)
    returns (s: Core)
    requires legal(e, s0.trace, s0.seen)
    requires Working(s0.seen) && s0.seen.candidate.phase == s0.review.phase
    requires review.phase != s0.review.phase ==>
               PhaseRank(review.phase) > PhaseRank(s0.review.phase)
               && s0.seen.candidate.staged.Some?
    ensures legal(e, s.trace, s.seen)
    ensures s == s0.(review := review, trace := s.trace, seen := s.seen)
    ensures s.seen == s0.seen.(candidate := s.seen.candidate)
    ensures s.seen.candidate == (if review.phase == s0.review.phase then s0.seen.candidate
                                 else s0.seen.candidate.(phase := review.phase, asked := false,
                                                         ran := false))
  {
    s := s0;
    if review.phase != s.review.phase {
      Emits(e, legal, s, ReviewMoved(review.phase));
      s := Emit(s, ReviewMoved(review.phase));
    }
    s := s.(review := review);
  }

  // ---------- one batch ----------

  /** The state between settling and committing a batch. */
  ghost predicate BatchStaged(e: Setup, legal: TraceProperty, s0: Core, s: Core, plan: Plan, b: Batch) {
    && legal(e, s.trace, s.seen)
    && s == s0.(calls := s.calls, trace := s.trace, seen := s.seen)
    && InBatch(s0.seen, s.seen, Ids(b.done), plan.rejected, b.mutated)
    && s.calls == Clamp(s.seen.tools.registered)
    && b.projected == s.outputBytes + OutputSum(b.done) <= e.perRunBytes
    && (plan.rejected ==> !b.dispatched)
    && (b.mutated ==> b.dispatched)
  }

  /** Settles the calls of a batch and prepares its history as a whole. A footer or a cut on
      the output of a call with an attachment rejects the batch. */
  method StageBatch(
      e: Setup, ghost legal: TraceProperty, s0: Core, now: nat, base: Items,
      output: seq<OutputItem>, plan: Plan)
    returns (s: Core, b: Batch, held: Held, exit: Option<Exit>, ghost made: seq<Making>)
    requires At(e, legal, s0, false, false) && s0.turns > 0 && Reviewable(s0)
    requires Settled(e.hash, base) && Calls(output) != []
    requires s0.seen.talk.calls == CallIds(Calls(output))
    requires Clamp(s0.seen.tools.registered + |Calls(output)|) <= e.maxCallsPerRun
    requires plan.cutoff <= e.actorDone
    requires !plan.rejected ==> !s0.finish.state.FinalOnly?
    ensures exit.Some? ==> Done(e, legal, s, exit.value)
    ensures exit.None? ==>
              && BatchStaged(e, legal, s0, s, plan, b)
              && s.calls <= e.maxCallsPerRun && |b.done| == |s0.seen.talk.calls|
              && Ready(e.hash, held)
              && Extends(base + HistoryItems(output) + Outputs(b.done), held.history)
              && AllMade(e, b.done, made) && ImagesUndisturbed(e, b.done, made)
  {
    var calls := Calls(output);
    held, exit := Held([], Receipt([], 0, 0, 0)), None;
    var turnIndex := s0.turns - 1;
    var p, r;
    p, r, made := SettleCalls(
      e, legal, Progress(now, s0.calls, s0.trace, s0.seen), calls, turnIndex, plan.rejected,
      plan.cutoff, s0.outputBytes);
    s := s0.(calls := p.calls, trace := p.trace, seen := p.seen);
    if r.Err? {
      var failed;
      s, failed := FinalizeFailure(e, legal, s, r.error);
      return s, Batch([], 0, false, false), held, Some(failed), made;
    }
    b := r.value;
    var prepared;
    prepared := PrepareHistory(e, base, output, turnIndex, b.done, made);
    if prepared.None? {
      var failed;
      s, failed := FinalizeFailure(e, legal, s, BatchRejected);
      return s, b, held, Some(failed), made;
    }
    held := prepared.value;
  }

  /** A windowed batch continues the conversation up to its outputs. */
  lemma {:induction false} BatchExtends(hash: Hashes, said: Items, outputs: Items, media: Items)
    requires LivePolicy(hash, said + (outputs + media)).Ok?
    ensures Extends(said + outputs, LivePolicy(hash, said + (outputs + media)).value.0)
  {
    var whole := said + (outputs + media);
    Assoc(said, outputs, media);
    WindowContinues(hash, said + outputs, media);
    InspectedHistory(hash, whole);
    assert forall i :: 0 <= i < |said + outputs| ==> (said + outputs)[i] == whole[i];
  }

  /** Every properly described image of the batch was described undisturbed. */
  ghost predicate ImagesUndisturbed(e: Setup, done: seq<Completion>, made: seq<Making>)
    requires |made| == |done|
  {
    forall p :: 0 <= p < |done| && done[p].attachment.Some? && Described(done[p], made[p]) ==>
      Undisturbed(e, made[p])
  }

  lemma {:induction false} AcceptedImages(
      e: Setup, base: Items, turnIndex: u64, done: seq<Completion>, made: seq<Making>)
    requires AllMade(e, done, made)
    requires PrepareBatch(
               e.hash, base, turnIndex, Ids(done), Outputs(done) + Attachments(done)).Ok?
    ensures ImagesUndisturbed(e, done, made)
  {
    forall p | 0 <= p < |done| && done[p].attachment.Some? && Described(done[p], made[p])
      ensures Undisturbed(e, made[p])
    {
      AcceptedImageUndisturbed(e, base, turnIndex, done, made, p);
    }
  }

  /** `prepare_turn_history_batch`. */
  method PrepareHistory(
      e: Setup, base: Items, output: seq<OutputItem>, turnIndex: u64, done: seq<Completion>,
      ghost made: seq<Making>)
    returns (held: Option<Held>)
    requires Settled(e.hash, base) && Ids(done) == CallIds(Calls(output))
    requires AllMade(e, done, made)
    ensures held.Some? ==>
              && Ready(e.hash, held.value)
              && Extends(base + HistoryItems(output) + Outputs(done), held.value.history)
              && ImagesUndisturbed(e, done, made)
  {
    var additions := Outputs(done) + Attachments(done);
    var prepared := PrepareMediaHistoryBatch(
      e.hash, base + HistoryItems(output), turnIndex, Ids(done), additions);
    if prepared.Err? {
      return None;
    }
    HistoryCallsListed(output);
    BatchAnswers(e.hash, base, HistoryItems(output), turnIndex, Ids(done), additions);
    BatchExtends(e.hash, base + HistoryItems(output), Outputs(done), Attachments(done));
    AcceptedImages(e, base + HistoryItems(output), turnIndex, done, made);
    held := Some(Held(prepared.value.0, prepared.value.1));
  }

  /** Everything is committed but the finish controller, which has not heard of it yet. */
  ghost predicate BatchCommitted(e: Setup, legal: TraceProperty, s: Core, plan: Plan) {
    && legal(e, s.trace, s.seen)
    && FlowAt(s, false, false)
    && ToolsAgree(e, s) && s.seen.tools.pending == []
    && (s.seen.tools.lateUsed ==>
          s.finish.state.FinalOnly? || (!plan.rejected && !s.finish.state.ActionOpen?))
    && CandidateAgrees(s.seen.candidate, s.review) && !s.seen.candidate.asked
    && !s.seen.candidate.ran
    && Accounts(e, s) && s.turns == SettledCalls(s)
  }

  /** Settling the batch with the controller brings the loop back to rest. */
  lemma {:induction false} RestAfterBatch(
      e: Setup, legal: TraceProperty, s: Core, effects: seq<Effect>, review: Challenge, plan: Plan)
    requires BatchCommitted(e, legal, s, plan)
    requires s.finish == plan.finish && PlanSound(e, review, s.finish, effects, plan)
    ensures At(e, legal, s.(finish := AfterPlan(plan)), false, false)
  {
  }

  function AfterPlan(plan: Plan): F.Controller {
    if plan.soft then F.SettleActionBatch(plan.finish) else plan.finish
  }

  /** The log half of committing: late batches and refused completions end the run. */
  method LogBatch(
      e: Setup, ghost legal: TraceProperty, ghost s0: Core, s1: Core, now: nat, plan: Plan, b: Batch)
    returns (s: Core, exit: Option<Exit>)
    requires At(e, legal, s0, false, false) && Reviewable(s0)
    requires BatchStaged(e, legal, s0, s1, plan, b) && s1.calls <= e.maxCallsPerRun
    requires |b.done| == |s0.seen.talk.calls|
    ensures exit.Some? ==> Done(e, legal, s, exit.value)
    ensures exit.None? ==>
              && legal(e, s.trace, s.seen)
              && s == s1.(trace := s.trace, seen := s.seen)
              && s.seen == s1.seen.(
                   tools := s1.seen.tools.(pending := [], outputBytes := b.projected),
                   talk := Talk(s0.seen.talk.known + Outputs(b.done), s0.seen.talk.answer, []))
  {
    s, exit := s1, None;
    if e.commitCutoff.Some? && now >= e.commitCutoff.value {
      var failed;
      s, failed := FinalizeFailure(e, legal, s, CommitDeadlineExceeded);
      return s, Some(failed);
    }
    var p, ok := CommitCalls(e, legal, Progress(now, s.calls, s.trace, s.seen), b.done);
    s := s.(trace := p.trace, seen := p.seen);
    if !ok {
      return s, Some(Abandoned(Refusal.CommitRefused));
    }
  }

  /** Commits a staged batch: the log first, then the counters and the review. */
  method CommitBatch(
      e: Setup, ghost legal: TraceProperty, ghost s0: Core, s1: Core, now: nat, plan: Plan,
      effects: seq<Effect>, b: Batch)
    returns (s: Core, exit: Option<Exit>)
    requires At(e, legal, s0, false, false) && Reviewable(s0)
    requires BatchStaged(e, legal, s0, s1, plan, b) && s1.calls <= e.maxCallsPerRun
    requires |b.done| == |s0.seen.talk.calls|
    requires effects != [] && plan.stage == AdmitStage(s0.review, effects)
    requires !s0.review.phase.NotIssued? && plan.stage.None? ==> plan.rejected
    ensures exit.Some? ==> Done(e, legal, s, exit.value)
    ensures exit.None? ==>
              && BatchCommitted(e, legal, s, plan) && s.turns == s0.turns && s.finish == s0.finish
              && s.seen.talk.known == s0.seen.talk.known + Outputs(b.done)
              && s.seen.talk.calls == []
  {
    s, exit := LogBatch(e, legal, s0, s1, now, plan, b);
    if exit.Some? {
      return;
    }
    s := s.(outputBytes := b.projected);
    ReviewAfterBatch(s0.seen.candidate, s0.review, effects, b.dispatched, b.mutated,
                     s1.seen.candidate.ran);
    var review := AfterBatch(s.review, plan.stage, plan.stage.Some? && b.dispatched,
                             plan.stage.Some? && b.mutated);
    s := MoveReview(e, legal, s, review);
  }

  /** Asks the review and the finish controller. */
  method AdmitBatch(
      e: Setup, ghost legal: TraceProperty, s0: Core, deadlineNow: nat, now: nat,
      effects: seq<Effect>)
    returns (s: Core, plan: Plan)
    requires At(e, legal, s0, false, false)
    ensures At(e, legal, s, false, false)
    ensures s.finish == plan.finish && PlanSound(e, s.review, s.finish, effects, plan)
    ensures s == s0.(finish := s.finish, trace := s.trace, seen := s.seen)
    ensures s.seen == s0.seen.(tools := s.seen.tools)
    ensures s.seen.tools.registered == s0.seen.tools.registered
  {
    PlansAreSound(e, deadlineNow, now, s0.review, s0.finish, effects);
    plan := PlanBatch(e, deadlineNow, now, s0.review, s0.finish, effects);
    s := MoveFinish(e, legal, s0, plan.finish);
  }

  /** One batch from admission to settlement. */
  method RunBatch(
      e: Setup, ghost legal: TraceProperty, s0: Core, now: nat, base: Held,
      output: seq<OutputItem>, effects: seq<Effect>, plan: Plan)
    returns (s: Core, held: Held, dispatched: bool, exit: Option<Exit>)
    requires At(e, legal, s0, false, false) && s0.turns > 0 && Reviewable(s0)
    requires Ready(e.hash, base) && Calls(output) != [] && effects != []
    requires Clamp(s0.seen.tools.registered + |Calls(output)|) <= e.maxCallsPerRun
    requires s0.finish == plan.finish && PlanSound(e, s0.review, s0.finish, effects, plan)
    requires s0.seen.talk.known == base.history + HistoryItems(output)
    requires s0.seen.talk.calls == CallIds(Calls(output))
    ensures exit.Some? ==> Done(e, legal, s, exit.value)
    ensures exit.None? ==>
              && At(e, legal, s, false, false) && s.turns == s0.turns
              && !s.seen.candidate.asked && s.seen.talk.calls == []
              && Ready(e.hash, held) && Extends(s.seen.talk.known, held.history)
  {
    var b;
    ghost var made;
    s, b, held, exit, made := StageBatch(e, legal, s0, now, base.history, output, plan);
    dispatched := b.dispatched;
    if exit.Some? {
      return;
    }
    var commitNow: nat :| now <= commitNow;
    s, exit := CommitBatch(e, legal, s0, s, commitNow, plan, effects, b);
    if exit.Some? {
      return;
    }
    RestAfterBatch(e, legal, s, effects, s0.review, plan);
    s := s.(finish := AfterPlan(plan));
  }

  /** The batch of one response, from the clock readings before its admission on; `prompted` says
      that it was a dispatched validation. */
  method HandleBatch(e: Setup, ghost legal: TraceProperty, s0: LoopState, output: seq<OutputItem>)
    returns (s: Core, now: nat, held: Held, prompted: bool, exit: Option<Exit>)
    requires AfterAnswer(e, legal, s0, output) && s0.core.turns > 0
    requires Calls(output) != []
    requires Clamp(s0.core.seen.tools.registered + |Calls(output)|) <= e.maxCallsPerRun
    ensures exit.Some? ==> Done(e, legal, s, exit.value)
    ensures exit.None? ==>
              && At(e, legal, s, false, false) && s.turns == s0.core.turns
              && !s.seen.candidate.asked && s.seen.talk.calls == []
              && Ready(e.hash, held) && Extends(s.seen.talk.known, held.history)
  {
    var effects := Effects(e, Calls(output));
    var deadlineNow: nat :| s0.now <= deadlineNow;
    now :| deadlineNow <= now;
    var plan, dispatched;
    s, plan := AdmitBatch(e, legal, s0.core, deadlineNow, now, effects);
    s, held, dispatched, exit := RunBatch(e, legal, s, now, s0.held, output, effects, plan);
    prompted := plan.stage == Some(ValidationStage) && dispatched;
  }

  /** A response with tool calls: one batch, then the next phase. */
  method ToolTurn(e: Setup, ghost legal: TraceProperty, s0: LoopState, output: seq<OutputItem>)
    returns (s: LoopState, exit: Option<Exit>)
    requires AfterAnswer(e, legal, s0, output) && s0.core.turns > 0
    requires Calls(output) != []
    requires Clamp(s0.core.seen.tools.registered + |Calls(output)|) <= e.maxCallsPerRun
    ensures exit.Some? ==> Done(e, legal, s.core, exit.value)
    ensures exit.None? ==> Top(e, legal, s) && s.core.turns == s0.core.turns
  {
    s := s0.(phase := Settling);
    var core, now, held, prompted;
    core, now, held, prompted, exit := HandleBatch(e, legal, s0, output);
    s := s.(core := core, now := now);
    if exit.Some? {
      return;
    }
    s := NextTurn(e, legal, s, held, prompted);
  }

  /** The decision prompt after a dispatched validation, and the phase of the next turn, which
      replaces the settling one. */
  method NextTurn(
      e: Setup, ghost legal: TraceProperty, s0: LoopState, held0: Held, prompted: bool)
    returns (s: LoopState)
    requires s0.phase.Settling?
    requires At(e, legal, s0.core, false, false) && !s0.finalSendStarted
    requires !s0.core.seen.candidate.asked && s0.core.seen.talk.calls == []
    requires Ready(e.hash, held0) && Extends(s0.core.seen.talk.known, held0.history)
    ensures Top(e, legal, s) && s.core == s0.core
  {
    var held := held0;
    if prompted {
      held := PushNotice(e, held, s0.core.seen.talk.known);
    }
    var now: nat :| s0.now <= now;
    s := s0.(held := held, now := now, phase := PhaseAfterBatch(e, s0.core, now));
  }

  function PhaseAfterBatch(e: Setup, core: Core, now: nat): (phase: ProviderPhase)
    ensures phase.Finalizing? || (phase.Acting? && !RequiresFinalOnly(core.review))
  {
    if RequiresFinalOnly(core.review) || core.finish.state.FinalOnly? then Finalizing
    else if e.phaseSplit then
      ProviderPhaseAt(now, e.actorDone, e.lastSend, e.minSendWindow, false)
    else Acting
  }

  // ---------- answers ----------

  lemma {:induction false} ClampAdds(a: nat, b: nat)
    ensures SatAdd(Clamp(a), Clamp(b)) == Clamp(a + b)
  {
  }

  lemma {:induction false} ReadyExtends(hash: Hashes, held: Held)
    requires Ready(hash, held)
    ensures Extends(held.history, held.history)
  {
    WellFormedEvictable(hash, held.history);
    AppendContinues(held.history, []);
    EmptyConcat(held.history);
  }

  /** A rejected response: recover once from a call limit, or fall back, or fail. */
  method RejectAnswer(
      e: Setup, ghost legal: TraceProperty, s0: LoopState, overLimit: bool, code: Code,
      usage: Option<U.Report>)
    returns (s: LoopState, exit: Option<Exit>)
    requires At(e, legal, s0.core, true, false)
    requires Ready(e.hash, s0.held) && s0.core.seen.talk.known == s0.held.history
    requires s0.phase.Acting? && !s0.finalSendStarted && Reviewable(s0.core)
    ensures exit.Some? ==> Done(e, legal, s.core, exit.value)
    ensures exit.None? ==> Top(e, legal, s) && s.core.turns == s0.core.turns
  {
    var core;
    core, exit := SettleRequest(e, legal, s0.core, false, usage, [], false);
    s := s0.(core := core);
    if exit.Some? {
      return;
    }
    if overLimit && !core.recoveryUsed && core.review.provisional.None? {
      var held;
      core, held := Recover(e, legal, core, s.held);
      ReadyExtends(e.hash, held);
      s := s.(core := core, held := held);
      return;
    }
    var ended;
    core, ended := FallbackOr(e, legal, core, code, false);
    s, exit := s.(core := core), Some(ended);
  }

  method AcceptAnswer(
      e: Setup, ghost legal: TraceProperty, s0: LoopState, output: seq<OutputItem>,
      usage: Option<U.Report>)
    returns (s: LoopState, exit: Option<Exit>)
    requires At(e, legal, s0.core, true, false) && Validated(OutsideOf(e), output)
    requires Ready(e.hash, s0.held) && s0.core.seen.talk.known == s0.held.history
    requires s0.phase.Acting? && !s0.finalSendStarted && Reviewable(s0.core)
    requires SatAdd(s0.core.calls, Clamp(|Calls(output)|)) <= e.maxCallsPerRun
    ensures exit.Some? ==> Done(e, legal, s.core, exit.value)
    ensures exit.None? ==> Top(e, legal, s) && s.core.turns >= s0.core.turns
  {
    var core;
    core, exit := SettleRequest(e, legal, s0.core, true, usage, output, false);
    s := s0.(core := core);
    if exit.Some? {
      return;
    }
    if Calls(output) == [] {
      s, exit := AnswerText(e, legal, s, output);
    } else {
      ClampAdds(core.seen.tools.registered, |Calls(output)|);
      s, exit := ToolTurn(e, legal, s, output);
    }
  }

  /** An action request and everything its answer leads to. */
  method ActionTurn(e: Setup, ghost legal: TraceProperty, s0: LoopState)
    returns (s: LoopState, exit: Option<Exit>)
    requires Top(e, legal, s0)
    requires s0.phase.Acting? && s0.core.turns < e.maxTurns
    ensures exit.Some? ==> Done(e, legal, s.core, exit.value)
    ensures exit.None? ==> Top(e, legal, s) && s.core.turns > s0.core.turns
  {
    var core, reply;
    core, reply, exit := SendRequest(e, legal, s0.core, ActionRequest, s0.held);
    s := s0.(core := core);
    if exit.Some? {
      return;
    }
    if !reply.Answer? {
      var ended;
      if reply.TimedOut? {
        var code := if core.review.phase.NotIssued? then ActionDeadlineExceeded
                    else ReviewDeadlineExceeded;
        core, ended := TimeOut(e, legal, core, code, false);
      } else {
        core, ended := FailRequest(e, legal, core, ProviderFailed, None, false);
      }
      return s.(core := core), Some(ended);
    }
    var failure := ValidateAuthoritative(reply.turn, LimitsOf(e));
    var calls := Calls(reply.turn.output);
    if failure.Some? {
      s, exit := RejectAnswer(
        e, legal, s, failure.value.CallLimitExceeded?, ProviderFailed, reply.usage);
    } else if SatAdd(core.calls, Clamp(|calls|)) > e.maxCallsPerRun {
      s, exit := RejectAnswer(e, legal, s, true, RunCallLimitExceeded, reply.usage);
    } else {
      assert ValidatedAs(OutsideOf(e), reply.turn, reply.turn.output);
      s, exit := AcceptAnswer(e, legal, s, reply.turn.output, reply.usage);
    }
  }

  /** One iteration of the loop. The phase is never one that makes no request, so the arms for
      a leaked settlement and for a second final request are never reached. */
  method Turn(e: Setup, ghost legal: TraceProperty, s0: LoopState, timeTrigger: bool)
    returns (s: LoopState, exit: Option<Exit>)
    requires Top(e, legal, s0)
    ensures exit.Some? ==> Done(e, legal, s.core, exit.value)
    ensures exit.None? ==> Top(e, legal, s) && s.core.turns > s0.core.turns
  {
    s, exit := Prologue(e, legal, s0, timeTrigger);
    if exit.Some? {
      return;
    }
    match s.phase
    case Acting => s, exit := ActionTurn(e, legal, s);
    case Finalizing =>
      var core, ended := FinalTurn(e, legal, s.core, s.held);
      s, exit := s.(core := core, finalSendStarted := true, phase := Terminal), Some(ended);
    case Settling => assert false;
    case Terminal => assert false;
  }

  // ---------- the run ----------

  /** Accepted, with sound contents, and watched by the monitor. */
  ghost predicate Recorded(e: Setup, t: Trace, m: Monitor) {
    Accepted(RulesOf(e), t) && Sound(OutsideOf(e), t) && Watch(t) == m
  }

  lemma {:induction false} RecordedStep(e: Setup, t: Trace, m: Monitor, a: Action)
    requires Recorded(e, t, m) && Steps(e, m, a)
    ensures Recorded(e, t + [a], Advance(m, a))
  {
    Extend(RulesOf(e), t, a);
    SoundExtends(OutsideOf(e), t, a);
  }

  lemma {:induction false} RecordedIsKept(legal: (Setup, Trace, Monitor) -> bool)
    requires forall e, t, m :: legal(e, t, m) <==> Recorded(e, t, m)
    ensures Kept(legal)
  {
    forall e, t, m, a | legal(e, t, m) && Steps(e, m, a)
      ensures legal(e, t + [a], Advance(m, a))
    {
      RecordedStep(e, t, m, a);
    }
  }

  /** `run_agent_bound_with_cancellation`. Every run terminates, because each turn that does
      not end it makes at least one request; its trace is accepted, sound and finished; the usage
      accumulator has a balanced account of its requests; and what a successful run reports is
      what its trace shows. */
  method RunAgent(e: Setup) returns (s: Core, exit: Exit)
    ensures Accepted(RulesOf(e), s.trace) && Sound(OutsideOf(e), s.trace) && Over(s.trace)
    ensures exit.Finished? ==> Last(s.trace) == Ended(exit.success)
    ensures exit.Abandoned? <==> CutShort(s.trace)
    ensures s.turns == RequestCount(s.trace) <= e.maxTurns
    ensures Balanced(U.Snapshot(U.Account(s.billed)).0, s.turns, 1)
    ensures exit.Finished? && exit.success ==>
              && Balanced(U.Snapshot(U.Account(s.billed)).0, AnswerCount(s.trace), 0)
              && s.calls == Clamp(|RegisteredIds(s.trace)|) <= e.maxCallsPerRun
              && RegisteredIds(s.trace) == CommittedIds(s.trace)
              && s.outputBytes == CommittedBytes(s.trace) <= e.perRunBytes
  {
    ghost var recorded := (e: Setup, t: Trace, m: Monitor) => Recorded(e, t, m);
    RecordedIsKept(recorded);
    ghost var legal: TraceProperty := recorded;
    var held := FreshHistory(e, [System(e.systemPrompt), User(e.userRequest)]);
    var started: bool := *;
    var core := BeginRun(e, legal, started);
    if !started {
      s, exit := core, Abandoned(Refusal.StartRefused);
      Reported(e, legal, s, exit);
      return;
    }
    var now: nat := *;
    var phase :=
      if e.phaseSplit then
        InitialProviderPhaseAt(now, e.actorDone, e.lastSend, e.minSendWindow)
      else Acting;
    var timeTrigger := now < SoftFinishCutoff(e.lastSend);
    var state := LoopState(core, held, now, phase, false, false, false, false);
    ExtendsNothing(held.history);
    var ended: Option<Exit> := None;
    while ended.None?
      invariant ended.None? ==> Top(e, legal, state)
      invariant ended.Some? ==> Done(e, legal, state.core, ended.value)
      decreases ended.None?, e.maxTurns - state.core.turns
    {
      state, ended := Turn(e, legal, state, timeTrigger);
    }
    s, exit := state.core, ended.value;
    Reported(e, legal, s, exit);
  }

  /** `run.started`, or the end of a run whose first event the log refused. */
  method BeginRun(e: Setup, ghost legal: TraceProperty, started: bool) returns (s: Core)
    requires legal(e, [], START)
    ensures started ==> At(e, legal, s, false, false) && s.review == UNISSUED
    ensures started ==> s.seen.talk == START.talk && !s.seen.candidate.asked
    ensures !started ==> Done(e, legal, s, Abandoned(Refusal.StartRefused))
  {
    var a := if started then Started else Refused(Refusal.StartRefused);
    s := Core(0, [], 0, 0, false, F.NEW, UNISSUED, [], START);
    Emits(e, legal, s, a);
    s := Emit(s, a);
  }

  /** The coverage the usage accumulator reports: every request is completed, failed, or one of
      at most `open` in flight. */
  ghost predicate Balanced(c: U.Coverage, requests: nat, open: nat) {
    && U.ValidCoverage(c)
    && c.requested == requests == c.completed + c.failed + c.inFlight
    && c.inFlight <= open
  }

  lemma {:induction false} AccountBalances(e: Setup, s: Core, open: nat)
    requires Accounts(e, s) && s.turns <= SettledCalls(s) + open
    ensures Balanced(U.Snapshot(U.Account(s.billed)).0, s.turns, open)
  {
    U.AccountTallies(s.billed);
    U.CoverageBalances(U.Account(s.billed), s.billed);
    U.ExactCounts(U.Account(s.billed), s.billed);
  }

  /** What a finished run reports is what its trace shows. */
  lemma {:induction false} Reported(e: Setup, legal: TraceProperty, s: Core, exit: Exit)
    requires Done(e, legal, s, exit) && Recorded(e, s.trace, s.seen)
    ensures Over(s.trace) && (exit.Abandoned? <==> CutShort(s.trace))
    ensures exit.Finished? ==> Last(s.trace) == Ended(exit.success)
    ensures s.turns == RequestCount(s.trace) <= e.maxTurns
    ensures Balanced(U.Snapshot(U.Account(s.billed)).0, s.turns, 1)
    ensures exit.Finished? && exit.success ==>
              && Balanced(U.Snapshot(U.Account(s.billed)).0, AnswerCount(s.trace), 0)
              && s.calls == Clamp(|RegisteredIds(s.trace)|) <= e.maxCallsPerRun
              && RegisteredIds(s.trace) == CommittedIds(s.trace)
              && s.outputBytes == CommittedBytes(s.trace) <= e.perRunBytes
  {
    OverExactly(RulesOf(e), s.trace);
    CountsTally(RulesOf(e), s.trace);
    AccountBalances(e, s, 1);
    if exit.Finished? && exit.success {
      SuccessIsSettled(RulesOf(e), s.trace);
      AccountBalances(e, s, 0);
    }
  }

  /** With a loaded launch receipt a footer is due after a clamped wait and in the last 60 seconds
      before the last send, which begin 20 seconds before the actor cutoff unless that had passed
      already when the receipt was loaded. */
  lemma {:induction false} FooterDueExactly(
      e: Setup, now: nat, clamped: bool, r: D.Receipt, spec: D.RunSpec, profile: D.Reserves,
      cliHard: u64, a: D.Anchor)
    requires e.phaseSplit && D.Load(r, spec, profile, cliHard, a).Ok?
    requires e.lastSend == D.Load(r, spec, profile, cliHard, a).value.lastSend
    requires e.providerSendMs == profile.providerSendMs
    ensures FooterDue(e, now, clamped) <==> clamped || now + 60 * NANOS_PER_SECOND > e.lastSend
    ensures r.cutoffs.actorDone >= a.monotonic ==>
              D.Load(r, spec, profile, cliHard, a).value.actorDone + 40 * NANOS_PER_SECOND
              == e.lastSend
  {
    D.AcceptedReceipt(r, spec, profile, cliHard);
  }

  /** A run that takes its actor cutoff from a loaded launch receipt dispatches no tool at or
      after the absolute cutoff the receipt names, on the host's own clock. */
  lemma {:induction false} NoDispatchAfterAbsoluteCutoff(
      e: Setup, trace: Trace, i: nat, r: D.Receipt, spec: D.RunSpec, profile: D.Reserves,
      cliHard: u64, a: D.Anchor, c: D.Clocks, first: nat, second: nat, time: nat)
    requires Accepted(RulesOf(e), trace) && i < |trace| && trace[i].Dispatched?
    requires D.Load(r, spec, profile, cliHard, a).Ok?
    requires e.actorDone == D.Load(r, spec, profile, cliHard, a).value.actorDone
    requires first <= second <= time && D.Captured(a, c, first, second)
    requires trace[i].now == D.ReadInstant(c, time)
    ensures D.ReadMonotonic(c, time) < r.cutoffs.actorDone
         == cliHard - 75_000 * D.NANOS_PER_MILLISECOND
  {
    DispatchOnTime(RulesOf(e), trace, i);
    D.AcceptedReceipt(r, spec, profile, cliHard);
    D.LoadedDeadlinesAreSafe(r, spec, profile, cliHard, a, c, first, second, time);
  }
}
