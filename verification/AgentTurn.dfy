/** One turn of the loop: a request, its answer, and what the answer leads to. */
module AgentTurn {
  import opened Base
  import opened History
  import opened MediaPolicy
  import opened RequestHistory
  import opened Review
  import opened ProviderTurn
  import opened Response
  import opened AgentTrace
  import opened AgentState
  import opened AgentExit
  import opened AgentLoop
  import opened Conversation
  import U = Usage

  // ---------- requests ----------

  /** A reply, with the usage the provider reported. */
  datatype Reply =
    | ProviderError
    | TimedOut
    | Answer(turn: CompletedTurn, usage: Option<U.Report>)

  /** Only the request bookkeeping differs. */
  predicate SameWork(s: Core, s0: Core) {
    && s.calls == s0.calls && s.outputBytes == s0.outputBytes
    && s.recoveryUsed == s0.recoveryUsed && s.finish == s0.finish && s.review == s0.review
    && s.seen.tools.registered == s0.seen.tools.registered
  }

  /** What the monitor remembers of a request during a review. */
  function AskedBy(c: Candidate, mode: Mode): Candidate {
    c.(critic := c.critic || mode.CriticRequest?,
       asked := c.asked || (mode.ActionRequest? && c.staged.Some?))
  }

  /** A request may be made in the current phase of a review. */
  predicate MayAsk(c: Candidate, mode: Mode) {
    match mode
    case CriticRequest => c.staged.Some? && !c.critic && !c.asked
    case ActionRequest => c.staged.Some? ==> !c.asked && !c.phase.Revalidation?
    case FinalRequest => true
  }

  /** The log refused an event or the run was cancelled, and nothing was published. */
  predicate Interrupted(s: Core, exit: Exit) {
    && s.trace != [] && Fails(Last(s.trace))
    && (exit.Finished? || exit.Incomplete?) && exit.code in {ArtifactFailed, CooperativeCancelled}
    && (exit.Finished? ==> !exit.success)
  }

  /** The core after its request was logged and billed. */
  function Asked(s: Core, mode: Mode, held: Held): Core {
    Emit(s, Requested(mode, held.history, held.receipt)).(
      turns := s.turns + 1, billed := s.billed + [U.Requested])
  }

  lemma {:induction false} RequestBilled(e: Setup, s: Core)
    requires Accounts(e, s) && s.turns == SettledCalls(s) < e.maxTurns
    ensures var after := s.(turns := s.turns + 1, billed := s.billed + [U.Requested]);
            Accounts(e, after) && after.turns == SettledCalls(after) + 1
  {
    U.CountSnoc(s.billed, U.Requested, U.IsRequest);
    U.CountSnoc(s.billed, U.Requested, U.IsSettled);
  }

  lemma {:induction false} SettlementBilled(e: Setup, s: Core, call: U.Call)
    requires Accounts(e, s) && s.turns == SettledCalls(s) + 1 && !call.Requested?
    ensures var after := s.(billed := s.billed + [call]);
            Accounts(e, after) && after.turns == SettledCalls(after)
  {
    U.CountSnoc(s.billed, call, U.IsRequest);
    U.CountSnoc(s.billed, call, U.IsSettled);
  }

  /** One more request is on its way, and nothing else has changed. */
  ghost predicate Sent(e: Setup, legal: TraceProperty, s0: Core, s: Core, mode: Mode, held: Held) {
    && At(e, legal, s, true, mode.FinalRequest?)
    && SameWork(s, s0) && s.turns == s0.turns + 1
    && s.seen.candidate == AskedBy(s0.seen.candidate, mode)
    && s.seen.talk.known == (if mode.CriticRequest? then s0.seen.talk.known else held.history)
    && s0.trace <= s.trace
  }

  lemma {:induction false} SendsRequest(
      e: Setup, legal: TraceProperty, s: Core, mode: Mode, held: Held)
    requires At(e, legal, s, false, false)
    requires s.turns < e.maxTurns && Ready(e.hash, held) && MayAsk(s.seen.candidate, mode)
    requires s.seen.talk.calls == []
    requires mode.CriticRequest? || Continues(s.seen.talk.known, held.history)
    ensures At(e, legal, Asked(s, mode, held), true, mode.FinalRequest?)
  {
    var a := Requested(mode, held.history, held.receipt);
    RequestBilled(e, s);
    assert Allowed(RulesOf(e), s.seen, a);
    assert Fitting(OutsideOf(e), s.seen.talk.known, a);
    assert Steps(e, s.seen, a);
  }

  lemma {:induction false} SentAsAsked(
      e: Setup, legal: TraceProperty, s: Core, mode: Mode, held: Held)
    requires At(e, legal, Asked(s, mode, held), true, mode.FinalRequest?)
    ensures Sent(e, legal, s, Asked(s, mode, held), mode, held)
  {
  }

  /** Logs the request and sends it. The history it carries passes the preflight. */
  method SendRequest(e: Setup, ghost legal: TraceProperty, s0: Core, mode: Mode, held: Held)
    returns (s: Core, reply: Reply, exit: Option<Exit>)
    requires At(e, legal, s0, false, false)
    requires s0.turns < e.maxTurns && Ready(e.hash, held) && MayAsk(s0.seen.candidate, mode)
    requires s0.seen.talk.calls == []
    requires mode.CriticRequest? || Continues(s0.seen.talk.known, held.history)
    ensures exit.Some? ==> Done(e, legal, s, exit.value) && Interrupted(s, exit.value)
    ensures exit.None? ==>
              && Sent(e, legal, s0, s, mode, held)
              && (reply.Answer? ==> e.streams(reply.turn))
  {
    s, reply, exit := s0, *, None;
    var appended: bool := *;
    if !appended {
      var failed;
      s, failed := RefuseEvent(e, legal, s);
      return s, reply, Some(failed);
    }
    SendsRequest(e, legal, s, mode, held);
    SentAsAsked(e, legal, s, mode, held);
    s := Asked(s, mode, held);
    var cancelled: bool := *;
    if cancelled {
      var failed;
      s, failed := FinalizeFailure(e, legal, s, CooperativeCancelled);
      return s, reply, Some(failed);
    }
    // What arrives is what the provider's stream was decoded and reconciled to.
    reply :| reply.Answer? ==> e.streams(reply.turn);
  }

  function Charged(s: Core, completed: bool, usage: Option<U.Report>): Core {
    s.(billed := s.billed + [if completed then U.Completed(usage) else U.Failed(usage)])
  }

  lemma {:induction false} SettlesRequest(
      e: Setup, legal: TraceProperty, s: Core, completed: bool, usage: Option<U.Report>,
      output: seq<OutputItem>, final: bool)
    requires At(e, legal, s, true, final) && (output == [] || Validated(OutsideOf(e), output))
    ensures Live(e, legal, Charged(s, completed, usage))
    ensures At(e, legal, Emit(Charged(s, completed, usage), Answered(completed, output)), false, final)
  {
    var a := Answered(completed, output);
    SettlementBilled(e, s, if completed then U.Completed(usage) else U.Failed(usage));
    assert Allowed(RulesOf(e), s.seen, a);
    assert Fitting(OutsideOf(e), s.seen.talk.known, a);
    assert Steps(e, s.seen, a);
  }

  /** Bills the settled request and logs `provider.completed` or `provider.failed`. */
  method SettleRequest(
      e: Setup, ghost legal: TraceProperty, s0: Core, completed: bool,
      usage: Option<U.Report>, output: seq<OutputItem>, ghost final: bool)
    returns (s: Core, exit: Option<Exit>)
    requires At(e, legal, s0, true, final) && (output == [] || Validated(OutsideOf(e), output))
    ensures exit.Some? ==>
              && Done(e, legal, s, exit.value)
              && RefusedWith(Charged(s0, completed, usage), s, exit.value, ArtifactFailed)
    ensures exit.None? ==>
              && At(e, legal, s, false, final)
              && s == Emit(Charged(s0, completed, usage), Answered(completed, output))
  {
    SettlesRequest(e, legal, s0, completed, usage, output, final);
    s, exit := Charged(s0, completed, usage), None;
    var appended: bool := *;
    if !appended {
      var failed;
      s, failed := RefuseEvent(e, legal, s);
      return s, Some(failed);
    }
    s := Emit(s, Answered(completed, output));
  }

  /** A failed request was settled and billed, and the run then ended with the staged answer, if
      it is still safe, or with the failure. */
  ghost predicate FailedRequest(
      s0: Core, s: Core, exit: Exit, code: Code, usage: Option<U.Report>)
  {
    var charged := Charged(s0, false, usage);
    var settled := Emit(charged, Answered(false, []));
    || RefusedWith(charged, s, exit, ArtifactFailed)
    || FellBack(settled, s, exit, code)
  }

  /** Settles a failed request, then falls back to the staged answer or fails. */
  method FailRequest(
      e: Setup, ghost legal: TraceProperty, s0: Core, code: Code, usage: Option<U.Report>,
      ghost final: bool)
    returns (s: Core, exit: Exit)
    requires At(e, legal, s0, true, final)
    ensures Done(e, legal, s, exit) && FailedRequest(s0, s, exit, code, usage)
  {
    var settled;
    s, settled := SettleRequest(e, legal, s0, false, usage, [], final);
    if settled.Some? {
      return s, settled.value;
    }
    s, exit := FallbackOr(e, legal, s, code, final);
  }

  /** A timeout settles the request only when a staged answer can still be published. */
  method TimeOut(e: Setup, ghost legal: TraceProperty, s0: Core, code: Code, ghost final: bool)
    returns (s: Core, exit: Exit)
    requires At(e, legal, s0, true, final)
    ensures Done(e, legal, s, exit)
    ensures if TakeFallback(s0.review).1.Some? then FailedRequest(s0, s, exit, code, None)
            else FailedWith(s0, s, exit, code)
  {
    if TakeFallback(s0.review).1.Some? {
      s, exit := FailRequest(e, legal, s0, code, None, final);
    } else {
      s, exit := FinalizeFailure(e, legal, s0, code);
    }
  }

  // ---------- the final-only request ----------

  /** The final-only request ends the run, whatever it yields. */
  method FinalTurn(e: Setup, ghost legal: TraceProperty, s0: Core, held: Held)
    returns (s: Core, exit: Exit)
    requires At(e, legal, s0, false, false)
    requires s0.turns < e.maxTurns && Ready(e.hash, held)
    requires Continues(s0.seen.talk.known, held.history) && s0.seen.talk.calls == []
    ensures Done(e, legal, s, exit)
  {
    var reply, ended;
    s, reply, ended := SendRequest(e, legal, s0, FinalRequest, held);
    if ended.Some? {
      return s, ended.value;
    }
    match reply
    case ProviderError => s, exit := FailRequest(e, legal, s, ProviderFailed, None, true);
    case TimedOut => s, exit := TimeOut(e, legal, s, FinalDeadlineExceeded, true);
    case Answer(turn, usage) =>
      var failure := ValidateAuthoritative(turn, LimitsOf(e));
      if failure.Some? {
        s, exit := FailRequest(e, legal, s, ProviderFailed, usage, true);
        return;
      }
      assert ValidatedAs(OutsideOf(e), turn, turn.output);
      s, ended := SettleRequest(e, legal, s, true, usage, turn.output, true);
      if ended.Some? {
        return s, ended.value;
      }
      s, exit := FinalAnswer(e, legal, s, turn.output);
  }

  method FinalAnswer(e: Setup, ghost legal: TraceProperty, s0: Core, output: seq<OutputItem>)
    returns (s: Core, exit: Exit)
    requires At(e, legal, s0, false, true)
    requires s0.seen.talk.answer == FinalText(output)
    ensures Done(e, legal, s, exit)
  {
    var text := FinalText(output);
    if Calls(output) != [] {
      s, exit := FinalizeFailure(e, legal, s0, FinalOnlyToolCall);
    } else if text.Some? && text.value != [] {
      s, exit := FinalizeWithText(e, legal, s0, text.value, false, true);
    } else {
      s, exit := FinalizeFailure(e, legal, s0, FinalOutputMissing);
    }
  }

  // ---------- call-limit recovery ----------

  /** The rejected response leaves no trace in the history but one notice. */
  method Recover(e: Setup, ghost legal: TraceProperty, s0: Core, held0: Held)
    returns (s: Core, held: Held)
    requires At(e, legal, s0, false, false)
    requires !s0.recoveryUsed && Ready(e.hash, held0) && s0.seen.talk.known == held0.history
    ensures At(e, legal, s, false, false) && Ready(e.hash, held)
    ensures s.seen.talk == s0.seen.talk.(known := held.history) && !s.seen.candidate.asked
    ensures s.turns == s0.turns && s.recoveryUsed && s.review == s0.review
  {
    var notice: Text := *;
    held := PushUser(e, held0.history, notice);
    Recovers(e, legal, s0, held.history);
    s := Emit(s0, Recovered(held.history)).(recoveryUsed := true);
  }

  lemma {:induction false} Recovers(e: Setup, legal: TraceProperty, s: Core, after: Items)
    requires At(e, legal, s, false, false) && !s.recoveryUsed
    requires NoticeAdded(e.hash, s.seen.talk.known, after)
    ensures At(e, legal, Emit(s, Recovered(after)).(recoveryUsed := true), false, false)
  {
    Emits(e, legal, s, Recovered(after));
  }

  // ---------- completion review ----------

  /** The text was published instead of a review, or the run was interrupted. */
  predicate Withdrawn(s: Core, exit: Exit, text: Text) {
    || Interrupted(s, exit)
    || (&& |s.trace| >= 2 && s.trace[|s.trace| - 2] == Published(text, true)
        && exit in {Finished(true, Completed), Incomplete(Completed)})
  }

  lemma {:induction false} AnsweredWithdraws(s0: Core, s: Core, exit: Exit, text: Text)
    requires AnsweredWith(s0, s, exit, text, true)
    ensures Withdrawn(s, exit, text)
  {
  }

  /** A fresh candidate is staged: no request of its review was made yet. */
  ghost predicate Candid(s: Core, text: Text) {
    && s.seen.candidate == Candidate(Some(text), false, Validation, s.seen.candidate.critic, false, false)
    && s.review == Challenge(Validation, Some(text), false)
  }

  /** The isolated critic: one request with a history of its own. Unless the log refuses an event
      or the run is cancelled, whatever goes wrong publishes the candidate it was to examine. */
  method Critic(e: Setup, ghost legal: TraceProperty, s0: Core, text: Text)
    returns (s: Core, exit: Option<Exit>)
    requires At(e, legal, s0, false, false) && s0.turns < e.maxTurns
    requires Candid(s0, text) && !s0.seen.candidate.critic && s0.seen.talk.calls == []
    ensures exit.Some? ==> Done(e, legal, s, exit.value) && Withdrawn(s, exit.value, text)
    ensures exit.None? ==>
              && At(e, legal, s, false, false) && Candid(s, text) && s.turns == s0.turns + 1
              && s.seen.talk.known == s0.seen.talk.known && s.seen.talk.calls == []
              && s0.trace <= s.trace
  {
    var system: Text := *;
    var request: Text := *;
    var held := FreshHistory(e, [System(system), User(request)]);
    var encoded: bool := *;
    var ended;
    if !encoded {
      s, ended := FinalizeWithText(e, legal, s0, text, true, false);
      AnsweredWithdraws(s0, s, ended, text);
      return s, Some(ended);
    }
    var reply;
    s, reply, exit := SendRequest(e, legal, s0, CriticRequest, held);
    if exit.Some? {
      return;
    }
    s, exit := CriticReply(e, legal, s, reply, text);
  }

  method CriticReply(e: Setup, ghost legal: TraceProperty, s0: Core, reply: Reply, text: Text)
    returns (s: Core, exit: Option<Exit>)
    requires At(e, legal, s0, true, false) && Candid(s0, text)
    ensures exit.Some? ==> Done(e, legal, s, exit.value) && Withdrawn(s, exit.value, text)
    ensures exit.None? ==>
              && At(e, legal, s, false, false) && Candid(s, text) && s.turns == s0.turns
              && s.seen.talk.known == s0.seen.talk.known && s.seen.talk.calls == []
              && s0.trace <= s.trace
  {
    var valid, advised := false, false;
    if reply.Answer? {
      var failure :=
        ValidateAuthoritative(reply.turn, LimitsOf(e).(known := {}, maxCalls := 0));
      valid := failure.None?;
      var advice := FinalText(reply.turn.output);
      advised := valid && advice.Some? && advice.value != [];
    }
    var usage := if reply.Answer? then reply.usage else None;
    s, exit := SettleRequest(e, legal, s0, valid, usage, [], false);
    EmptyConcat(s0.seen.talk.known);
    if exit.None? && !advised {
      var settled := s;
      var ended;
      s, ended := FinalizeWithText(e, legal, settled, text, true, false);
      AnsweredWithdraws(settled, s, ended, text);
      exit := Some(ended);
    }
  }

  /** Stages the candidate answer. */
  method StageCandidate(e: Setup, ghost legal: TraceProperty, s0: Core, text: Text)
    returns (s: Core)
    requires At(e, legal, s0, false, false) && s0.review.phase.NotIssued?
    requires s0.seen.talk.answer == Some(text) && text != []
    ensures At(e, legal, s, false, false) && s.turns == s0.turns && s.seen.talk == s0.seen.talk
    ensures Candid(s, text) && !s.seen.candidate.critic
    ensures s.trace == s0.trace + [Staged(text)]
  {
    Emits(e, legal, s0, Staged(text));
    s := Emit(s0, Staged(text)).(review := Issue(s0.review, text));
  }

  /** Whether a review of the candidate may start. */
  predicate ReviewAdmitted(e: Setup, s: LoopState, items: nat) {
    && e.phaseSplit
    && s.core.review.phase.NotIssued?
    && s.core.turns <= U64_MAX
    && if UsesFreshContext(e.policy) then
         HasFreshPathCapacity(e.policy, FreshCapacity(
           s.now, e.lastSend, true, s.criticInvoked, s.core.turns, e.maxTurns, Clamp(items),
           e.maxHistoryItems, s.core.calls, e.maxCallsPerResponse, e.maxCallsPerRun))
       else
         HasCapacity(e.policy, Capacity(
           s.now, e.lastSend, s.core.turns, e.maxTurns, items, e.maxHistoryItems))
  }

  /** Stages the answer and asks for its review, after the critic's advice where the policy wants
      it. */
  method StartReview(
      e: Setup, ghost legal: TraceProperty, s0: LoopState, history: Items, text: Text)
    returns (s: LoopState, exit: Option<Exit>)
    requires At(e, legal, s0.core, false, false)
    requires ReviewAdmitted(e, s0, |history|) && Settled(e.hash, history)
    requires s0.core.seen.talk == Talk(history, Some(text), []) && text != []
    requires s0.phase.Acting? && !s0.finalSendStarted
    ensures exit.Some? ==> Done(e, legal, s.core, exit.value) && Withdrawn(s.core, exit.value, text)
    ensures exit.None? ==>
              && Top(e, legal, s) && s.core.turns >= s0.core.turns
              && Candid(s.core, text) && s0.core.trace + [Staged(text)] <= s.core.trace
  {
    var core := StageCandidate(e, legal, s0.core, text);
    s, exit := s0.(core := core), None;
    if UsesFreshContext(e.policy) {
      core, exit := Critic(e, legal, core, text);
      s := s.(core := core, criticInvoked := true);
      if exit.Some? {
        return;
      }
    }
    var prompt: Text := *;
    var held := PushUser(e, history, prompt);
    WellFormedEvictable(e.hash, history);
    s := s.(held := held);
  }

  // ---------- answers without tool calls ----------

  /** An accepted response, not yet acted on: the conversation is the held history followed by
      the response, and during a review the actor was asked for it. */
  ghost predicate AfterAnswer(
      e: Setup, legal: TraceProperty, s: LoopState, output: seq<OutputItem>)
  {
    && At(e, legal, s.core, false, false)
    && Ready(e.hash, s.held)
    && s.core.seen.talk == Talk(s.held.history + HistoryItems(output), FinalText(output),
                                CallIds(Calls(output)))
    && Reviewable(s.core)
    && s.phase.Acting? && !s.finalSendStarted
  }

  /** During a review the actor was asked, and the review is not over. */
  predicate Reviewable(s: Core) {
    && (s.seen.candidate.staged.Some? ==> s.seen.candidate.asked)
    && !s.review.phase.Revalidation?
  }

  method AnswerText(
      e: Setup, ghost legal: TraceProperty, s0: LoopState, output: seq<OutputItem>)
    returns (s: LoopState, exit: Option<Exit>)
    requires AfterAnswer(e, legal, s0, output) && Calls(output) == []
    ensures exit.Some? ==> Done(e, legal, s.core, exit.value)
    ensures exit.None? ==> Top(e, legal, s) && s.core.turns >= s0.core.turns
  {
    var history := s0.held.history + HistoryItems(output);
    NoCallsArePlain(output);
    AppendPlains(e.hash, s0.held.history, HistoryItems(output));
    var now: nat :| s0.now <= now;
    s := s0.(now := now);
    var text := FinalText(output);
    if text.Some? && text.value != [] && ReviewAdmitted(e, s, |history|) {
      s, exit := StartReview(e, legal, s, history, text.value);
      return;
    }
    var core, ended := Conclude(e, legal, s.core, text);
    s, exit := s.(core := core), Some(ended);
  }

  method Conclude(e: Setup, ghost legal: TraceProperty, s0: Core, text: Option<Text>)
    returns (s: Core, exit: Exit)
    requires At(e, legal, s0, false, false) && s0.seen.talk.answer == text
    ensures Done(e, legal, s, exit)
  {
    if text.Some? && text.value != [] {
      s, exit := FinalizeWithText(e, legal, s0, text.value, false, false);
    } else {
      s, exit := FallbackOr(e, legal, s0, OutputWithoutAction, false);
    }
  }
}
