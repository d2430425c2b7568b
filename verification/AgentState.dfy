/** The state the agent loop threads through its turns, and what holds of it between steps. */
module AgentState {
  import opened Base
  import opened History
  import opened MediaPolicy
  import opened RequestHistory
  import opened Review
  import opened AgentTrace
  import opened Conversation
  import opened ProviderTurn
  import opened Response
  import F = Finish
  import U = Usage

  /** `ActionOpen`, `SettlingAccepted`, `FinalOnly` and `TerminalCommit` in the source. */
  datatype ProviderPhase = Acting | Settling | Finalizing | Terminal

  datatype Setup = Setup(
    hash: Hashes,
    /** A signed deadline is present: the run splits into an action and a final phase. */
    phaseSplit: bool,
    policy: ReviewPolicy,
    systemPrompt: Text, userRequest: Text, model: Text,
    knownTools: set<Text>, mutatingTools: set<Text>,
    maxTurns: u64, maxCallsPerResponse: u64, maxCallsPerRun: u64, maxArgumentsBytes: u64,
    maxHistoryItems: u64, perCallBytes: u64, perRunBytes: u64,
    actorDone: nat, toolSettled: nat, lastSend: nat, minSendWindow: nat,
    commitCutoff: Option<nat>, terminalMaxTimeout: nat, providerSendMs: u64,
    /** Which turns the provider stream may yield, and the JSON parser for call arguments. */
    streams: CompletedTurn -> bool, parse: Text -> Arguments)

  function RulesOf(e: Setup): Rules {
    Rules(e.maxTurns, e.maxCallsPerRun, e.perRunBytes, e.actorDone)
  }

  function OutsideOf(e: Setup): Outside {
    Outside(e.hash, e.streams, LimitsOf(e))
  }

  function LimitsOf(e: Setup): Limits {
    Limits(e.model, e.knownTools, e.maxCallsPerResponse, e.maxArgumentsBytes, e.parse)
  }

  /** The part of the loop's state its exits and its trace depend on. `billed` is what the usage
      accumulator was given; `seen` is what the monitor remembers of `trace`. */
  datatype Core = Core(
    turns: nat, billed: seq<U.Call>, calls: u64, outputBytes: nat, recoveryUsed: bool,
    finish: F.Controller, review: Challenge, trace: Trace, seen: Monitor)

  /** The conversation and the receipt of its last windowing. */
  datatype Held = Held(history: Items, receipt: Receipt)

  datatype LoopState = LoopState(
    core: Core, held: Held, now: nat, phase: ProviderPhase, finalSendStarted: bool,
    noticeIssued: bool, criticInvoked: bool, checkpointed: bool)

  datatype Code =
    | Completed
    | CooperativeCancelled
    | MaxTurnsExceeded
    | ActionDeadlineExceeded | SendWindowExhausted | FinalDeadlineExceeded
    | ReviewDeadlineExceeded
    | HistoryItemLimitExceeded
    | PreflightFailed
    | ArtifactFailed
    | ProviderFailed
    | RunCallLimitExceeded
    | FinalOnlyToolCall | FinalOutputMissing | OutputWithoutAction
    | MediaAttachmentRejected | BatchRejected
    | ToolFatal | CommitDeadlineExceeded

  /** The run record was published; or not; or the log refused the first event or a batch's
      completion, which ends the run without any finalization. */
  datatype Exit = Finished(success: bool, code: Code) | Incomplete(code: Code) | Abandoned(at: Refusal)

  // ---------- clock arithmetic ----------

  function CheckedSub(a: nat, b: nat): Option<nat> {
    if b <= a then Some(a - b) else None
  }

  function ProviderPhaseAt(
      now: nat, actorDone: nat, lastSend: nat, minSendWindow: nat, finalSendStarted: bool)
    : ProviderPhase
  {
    if finalSendStarted then Terminal
    else
      var latency := CheckedSub(lastSend, FINAL_RESPONSE_LATENCY_RESERVE);
      var window := CheckedSub(actorDone, minSendWindow);
      if latency.None? || window.None? then Finalizing
      else if now < Min(window.value, latency.value) then Acting
      else Finalizing
  }

  function InitialProviderPhaseAt(now: nat, actorDone: nat, lastSend: nat, minSendWindow: nat)
    : ProviderPhase
  {
    var strict := ProviderPhaseAt(now, actorDone, lastSend, minSendWindow, false);
    if !strict.Finalizing? then strict
    else
      var window := CheckedSub(actorDone, minSendWindow);
      if now <= lastSend && lastSend - now < FINAL_RESPONSE_LATENCY_RESERVE
         && window.Some? && now < window.value
      then Acting else strict
  }

  /** Without a final send no phase decision is terminal, and the first turn may act exactly
      when any turn may, or when the launch itself left less than the final-response reserve
      but the action window is still open. Either way acting means being before the actor
      cutoff by more than the minimum send window. */
  lemma {:induction false} PhaseDecisions(now: nat, actorDone: nat, lastSend: nat, minWindow: nat)
    ensures ProviderPhaseAt(now, actorDone, lastSend, minWindow, false) in {Acting, Finalizing}
    ensures InitialProviderPhaseAt(now, actorDone, lastSend, minWindow) in {Acting, Finalizing}
    ensures ProviderPhaseAt(now, actorDone, lastSend, minWindow, false).Acting? <==>
              now + minWindow < actorDone && now + FINAL_RESPONSE_LATENCY_RESERVE < lastSend
    ensures InitialProviderPhaseAt(now, actorDone, lastSend, minWindow).Acting? <==>
              && now + minWindow < actorDone
              && now <= lastSend
              && now + FINAL_RESPONSE_LATENCY_RESERVE != lastSend
  {
  }

  function SoftFinishCutoff(lastSend: nat): nat {
    var reserve := 2 * FINAL_RESPONSE_LATENCY_RESERVE + REVIEW_BOUNDED_TOOL_RESERVE;
    if reserve <= lastSend then lastSend - reserve else lastSend
  }

  function SoftActionCutoff(lastSend: nat): nat {
    if FINAL_RESPONSE_LATENCY_RESERVE <= lastSend then lastSend - FINAL_RESPONSE_LATENCY_RESERVE
    else lastSend
  }

  // ---------- what holds between steps ----------

  /** The action may be taken here and carries what it should. */
  ghost predicate Steps(e: Setup, m: Monitor, a: Action) {
    Allowed(RulesOf(e), m, a) && Fitting(OutsideOf(e), m.talk.known, a)
  }

  /** The property survives every step. */
  ghost predicate Kept(legal: (Setup, Trace, Monitor) -> bool) {
    forall e, t, m, a {:trigger legal(e, t, m), Steps(e, m, a)} ::
      legal(e, t, m) && Steps(e, m, a) ==> legal(e, t + [a], Advance(m, a))
  }

  /** A property of traces, with the monitor that has watched them, that every run keeps. */
  type TraceProperty = legal: (Setup, Trace, Monitor) -> bool | Kept(legal)
    witness (e: Setup, t: Trace, m: Monitor) => false

  /** Requests and settlements the usage accumulator was told of. */
  function Billed(s: Core): nat {
    U.CountIf(s.billed, U.IsRequest)
  }

  function SettledCalls(s: Core): nat {
    U.CountIf(s.billed, U.IsSettled)
  }

  /** Every turn was billed, and at most one is not settled. */
  ghost predicate Accounts(e: Setup, s: Core) {
    && s.turns == Billed(s) <= e.maxTurns
    && SettledCalls(s) <= s.turns <= SettledCalls(s) + 1
  }

  /** The run has not exited, and at most one request is unsettled. */
  ghost predicate Live(e: Setup, legal: TraceProperty, s: Core) {
    && legal(e, s.trace, s.seen)
    && Leavable(s.seen.flow)
    && s.turns == s.seen.flow.requests
    && Accounts(e, s)
  }

  /** The exit may be taken, whatever is in flight. */
  predicate Leavable(f: Flow) {
    f.started && !f.published && !f.stuck && f.ended.None?
  }

  /** The monitor's view of the tool calls agrees with the loop's counters. */
  ghost predicate ToolsAgree(e: Setup, s: Core) {
    && Clamp(s.seen.tools.registered) == s.calls <= e.maxCallsPerRun
    && s.seen.tools.outputBytes == s.outputBytes <= e.perRunBytes
    && s.seen.tools.open == s.finish.state.ActionOpen?
  }

  /** The staged answer agrees with the challenge automaton: while it may still serve as a
      fallback, no mutating call was dispatched since it was staged. */
  ghost predicate CandidateAgrees(c: Candidate, review: Challenge) {
    && c.phase == review.phase
    && (c.staged.None? <==> review.phase.NotIssued?)
    && (review.provisional.Some? ==> review.provisional == c.staged && !review.workspaceMutated)
    && (c.staged.Some? ==> c.mutated == review.workspaceMutated)
    && (c.staged.None? ==> !c.asked)
  }

  ghost predicate FlowAt(s: Core, inFlight: bool, final: bool) {
    s.seen.flow
    == Flow(true, s.turns, inFlight, final, s.recoveryUsed, false, false, false, None)
  }

  /** Between two steps, with or without a request in flight, and before or after the
      final-only request. */
  ghost predicate At(e: Setup, legal: TraceProperty, s: Core, inFlight: bool, final: bool) {
    && legal(e, s.trace, s.seen)
    && FlowAt(s, inFlight, final)
    && ToolsAgree(e, s) && s.seen.tools.pending == []
    && (s.seen.tools.lateUsed ==> s.finish.state.FinalOnly?)
    && CandidateAgrees(s.seen.candidate, s.review) && !s.seen.candidate.ran
    && !s.finish.state.TerminalCommit?
    && Accounts(e, s)
    && s.turns == SettledCalls(s) + (if inFlight then 1 else 0)
  }

  /** The held receipt belongs to the held history, which may be sent. */
  ghost predicate Ready(hash: Hashes, held: Held) {
    Sendable(hash, held.history, held.receipt)
  }

  /** At the top of the loop the held history may be sent and continues the conversation, the
      provider phase is one of the two that make a request, the actor was not asked yet in this
      phase of a review, a finished review leaves only the final request, and the final send has
      not started. */
  ghost predicate Top(e: Setup, legal: TraceProperty, s: LoopState) {
    && At(e, legal, s.core, false, false)
    && Ready(e.hash, s.held)
    && Extends(s.core.seen.talk.known, s.held.history) && s.core.seen.talk.calls == []
    && !s.finalSendStarted
    && !s.core.seen.candidate.asked
    && (s.phase.Finalizing? || (s.phase.Acting? && !s.core.review.phase.Revalidation?))
  }

  /** How a run may be left: with its terminal event, or stuck at an append that was refused;
      the exit says when that append was the first event or a batch's completion. */
  ghost predicate Done(e: Setup, legal: TraceProperty, s: Core, exit: Exit) {
    && legal(e, s.trace, s.seen)
    && Accounts(e, s)
    && s.turns == s.seen.flow.requests
    && (s.seen.flow.ended.Some? || s.seen.flow.stuck)
    && ExitTells(s.trace, exit)
    && (exit.Finished? ==> s.seen.flow.ended == Some(exit.success))
    && (exit.Finished? && exit.success ==>
          && s.turns == SettledCalls(s)
          && s.calls == Clamp(s.seen.tools.registered) <= e.maxCallsPerRun
          && s.outputBytes == s.seen.tools.outputBytes <= e.perRunBytes)
  }

  predicate ExitTells(t: Trace, exit: Exit) {
    && t != []
    && if exit.Abandoned? then Last(t) == Refused(exit.at) && exit.at in {StartRefused, CommitRefused}
       else Leaves(Last(t))
  }

  function Emit(s: Core, a: Action): Core {
    s.(trace := s.trace + [a], seen := Advance(s.seen, a))
  }

  /** Taking a step keeps every kept property. */
  lemma {:induction false} Emits(e: Setup, legal: TraceProperty, s: Core, a: Action)
    requires legal(e, s.trace, s.seen)
    requires Allowed(RulesOf(e), s.seen, a) && Fitting(OutsideOf(e), s.seen.talk.known, a)
    ensures legal(e, Emit(s, a).trace, Emit(s, a).seen)
  {
    assert Steps(e, s.seen, a);
  }
}

/** The exits of the loop. */
module AgentExit {
  import opened Base
  import opened Review
  import opened AgentTrace
  import opened AgentState

  /** The last action of a run that did not succeed: the terminal event of a failure, or a
      refused append on the way to it. */
  predicate Fails(a: Action) {
    Leaves(a) && a != Ended(true)
  }

  /** The run failed and published nothing more. */
  ghost predicate FailedWith(s0: Core, s: Core, exit: Exit, code: Code) {
    && (exit == Finished(false, code) || exit == Incomplete(code))
    && s.billed == s0.billed
    && s.trace != [] && s.trace == s0.trace + [Last(s.trace)] && Fails(Last(s.trace))
  }

  /** As above, because the log refused an event. */
  ghost predicate RefusedWith(s0: Core, s: Core, exit: Exit, code: Code) {
    FailedWith(Emit(s0, Refused(EventRefused)), s, exit, code)
  }

  /** The text was published and the run ended in success or at a refused append, or the log
      refused the text itself. */
  ghost predicate AnsweredWith(s0: Core, s: Core, exit: Exit, text: Text, fallback: bool) {
    || RefusedWith(s0, s, exit, ArtifactFailed)
    || (&& (exit == Finished(true, Completed) || exit == Incomplete(Completed))
        && s.billed == s0.billed
        && s.trace != [] && s.trace == s0.trace + [Published(text, fallback)] + [Last(s.trace)]
        && Leaves(Last(s.trace)) && Last(s.trace) != Ended(false))
  }

  /** The last action of a run. */
  predicate Closing(a: Action, success: bool) {
    a == Ended(success) || a == Refused(FlushFailed) || a == Refused(ClosingRefused)
  }

  lemma {:induction false} ClosingStep(m: Monitor, a: Action, success: bool)
    requires Closing(a, success)
    ensures Advance(m, a) == m.(flow := if a.Ended? then m.flow.(ended := Some(success))
                                        else m.flow.(stuck := true))
  {
  }

  /** The last action was taken, and nothing else. */
  predicate Closed(s0: Core, s: Core, last: Action) {
    && s.trace != [] && Last(s.trace) == last
    && s == s0.(trace := s0.trace + [last], seen := s.seen)
    && s.seen == s0.seen.(flow := s.seen.flow)
    && s.seen.flow == (if last.Ended? then s0.seen.flow.(ended := Some(last.success))
                       else s0.seen.flow.(stuck := true))
  }

  lemma {:induction false} ClosedWithFailure(
      e: Setup, legal: TraceProperty, s0: Core, s: Core, last: Action, exit: Exit, code: Code)
    requires Accounts(e, s0) && s0.turns == s0.seen.flow.requests && legal(e, s.trace, s.seen)
    requires Closing(last, false) && Closed(s0, s, last)
    requires exit == Incomplete(code) || (last.Ended? && exit == Finished(false, code))
    ensures Done(e, legal, s, exit) && FailedWith(s0, s, exit, code)
  {
    assert Billed(s) == Billed(s0) && SettledCalls(s) == SettledCalls(s0);
  }

  /** Flushes the staged receipts and writes the terminal event. */
  method EndRun(e: Setup, ghost legal: TraceProperty, s0: Core, success: bool)
    returns (s: Core, last: Action)
    requires legal(e, s0.trace, s0.seen)
    requires s0.seen.flow.started && !s0.seen.flow.stuck && s0.seen.flow.ended.None?
    requires success ==>
               && s0.seen.flow.published && !s0.seen.flow.failing && !s0.seen.flow.inFlight
               && s0.seen.tools.pending == []
    ensures legal(e, s.trace, s.seen)
    ensures Closing(last, success) && Closed(s0, s, last)
  {
    var flushed: bool := *;
    var closed: bool := *;
    last := if !flushed then Refused(FlushFailed)
            else if !closed then Refused(ClosingRefused) else Ended(success);
    Emits(e, legal, s0, last);
    ClosingStep(s0.seen, last, success);
    s := Emit(s0, last);
  }

  /** `finalize_once` with a failure: flushing, the terminal append or the publication may
      themselves fail. */
  method FinalizeFailure(e: Setup, ghost legal: TraceProperty, s0: Core, code: Code)
    returns (s: Core, exit: Exit)
    requires Live(e, legal, s0)
    ensures Done(e, legal, s, exit) && FailedWith(s0, s, exit, code)
  {
    var last;
    s, last := EndRun(e, legal, s0, false);
    var published: bool := *;
    exit := if last.Ended? && published then Finished(false, code) else Incomplete(code);
    ClosedWithFailure(e, legal, s0, s, last, exit, code);
  }

  /** A refused event ends the run. */
  method RefuseEvent(e: Setup, ghost legal: TraceProperty, s0: Core)
    returns (s: Core, exit: Exit)
    requires Live(e, legal, s0) && !s0.seen.flow.failing
    ensures Done(e, legal, s, exit) && RefusedWith(s0, s, exit, ArtifactFailed)
  {
    Emits(e, legal, s0, Refused(EventRefused));
    s, exit := FinalizeFailure(e, legal, Emit(s0, Refused(EventRefused)), ArtifactFailed);
  }

  /** `finalize_with_text`: the answer, then the terminal event of a success. */
  method FinalizeWithText(
      e: Setup, ghost legal: TraceProperty, s0: Core, text: Text, fallback: bool, ghost final: bool)
    returns (s: Core, exit: Exit)
    requires At(e, legal, s0, false, final)
    requires if fallback then
               s0.seen.candidate.staged == Some(text) && !s0.seen.candidate.mutated
             else s0.seen.talk.answer == Some(text) && text != []
    ensures Done(e, legal, s, exit) && AnsweredWith(s0, s, exit, text, fallback)
  {
    var answer := Published(text, fallback);
    var appended: bool := *;
    if !appended {
      s, exit := RefuseEvent(e, legal, s0);
      return;
    }
    Emits(e, legal, s0, answer);
    var last;
    s, last := EndRun(e, legal, Emit(s0, answer), true);
    var published: bool := *;
    exit := if last.Ended? && published then Finished(true, Completed) else Incomplete(Completed);
  }

  /** The challenge still offered the staged answer and it was published, or the run failed. */
  ghost predicate FellBack(s0: Core, s: Core, exit: Exit, code: Code) {
    match TakeFallback(s0.review).1
    case Some(text) => AnsweredWith(s0, s, exit, text, true)
    case None => FailedWith(s0, s, exit, code)
  }

  /** Publishes the staged answer if it is still safe, and fails otherwise. */
  method FallbackOr(
      e: Setup, ghost legal: TraceProperty, s0: Core, code: Code, ghost final: bool)
    returns (s: Core, exit: Exit)
    requires At(e, legal, s0, false, final)
    ensures Done(e, legal, s, exit)
    ensures FellBack(s0, s, exit, code)
  {
    var (_, text) := TakeFallback(s0.review);
    if text.Some? {
      s, exit := FinalizeWithText(e, legal, s0, text.value, true, final);
    } else {
      s, exit := FinalizeFailure(e, legal, s0, code);
    }
  }
}
