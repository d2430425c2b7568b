/** The serial agent loop. Whatever the clock, the provider, the tools, the log and the
    cancellation flag do, every run emits an acceptable trace. */
module AgentLoop {
  import opened Base
  import opened History
  import opened MediaPolicy
  import opened RequestHistory
  import opened Review
  import opened AgentTrace
  import opened AgentState
  import opened AgentExit
  import opened Conversation
  import F = Finish

  // ---------- history edits ----------

  /** Appends a user notice and windows the history again. Windowing a settled history cannot
      fail, so none of the loop's windowing-failure exits can be taken. */
  method PushUser(e: Setup, history: Items, text: Text) returns (held: Held)
    requires Settled(e.hash, history)
    ensures Ready(e.hash, held)
    ensures NoticeAdded(e.hash, history, held.history)
    ensures Continues(history, held.history)
  {
    AppendPlain(e.hash, history, User(text));
    WindowSettled(e.hash, history + [User(text)]);
    var windowed := LivePolicy(e.hash, history + [User(text)]).value;
    assert WindowedWith(e.hash, history, text, windowed.0, windowed.1);
    WindowContinues(e.hash, history, [User(text)]);
    held := Held(windowed.0, windowed.1);
  }

  /** Pushes some notice onto a ready history. */
  method PushNotice(e: Setup, held0: Held, ghost known: Items) returns (held: Held)
    requires Ready(e.hash, held0) && Extends(known, held0.history)
    ensures Ready(e.hash, held) && Extends(known, held.history)
  {
    var notice: Text := *;
    held := PushUser(e, held0.history, notice);
    ContinuesOn(known, held0.history, held.history);
  }

  /** A history of prompts only, windowed. */
  method FreshHistory(e: Setup, prompts: Items) returns (held: Held)
    requires forall i :: 0 <= i < |prompts| ==> Plain(prompts[i])
    ensures Ready(e.hash, held)
  {
    PlainSettled(e.hash, prompts);
    WindowSettled(e.hash, prompts);
    var windowed := LivePolicy(e.hash, prompts).value;
    held := Held(windowed.0, windowed.1);
  }

  // ---------- before a request ----------

  /** Moves the finish controller; leaving the open phase is an action of the trace. */
  method MoveFinish(e: Setup, ghost legal: TraceProperty, s0: Core, f: F.Controller)
    returns (s: Core)
    requires At(e, legal, s0, false, false)
    requires F.Rank(s0.finish.state) <= F.Rank(f.state) && !f.state.TerminalCommit?
    ensures At(e, legal, s, false, false)
    ensures s == s0.(finish := f, trace := s.trace, seen := s.seen)
    ensures s.seen == s0.seen.(tools := s.seen.tools)
    ensures s.seen.tools.registered == s0.seen.tools.registered
  {
    s := s0;
    if s.finish.state.ActionOpen? && !f.state.ActionOpen? {
      Emits(e, legal, s, LeftActionOpen);
      s := Emit(s, LeftActionOpen);
    }
    s := s.(finish := f);
  }

  /** What the phase-split block decides from the clock and the turn count. */
  function NextPhase(
      e: Setup, now: nat, turns: nat, phase: ProviderPhase, f: F.Controller, timeTrigger: bool)
    : (ProviderPhase, F.Controller)
  {
    var initial := InitialProviderPhaseAt(now, e.actorDone, e.lastSend, e.minSendWindow);
    var strict := ProviderPhaseAt(now, e.actorDone, e.lastSend, e.minSendWindow, false);
    var exception := turns == 0 && initial.Acting? && strict.Finalizing?;
    var observed :=
      if phase.Acting? && !exception && (timeTrigger || turns >= F.SOFT_FINISH_PROVIDER_TURN)
      then F.Observe(f, now, SoftFinishCutoff(e.lastSend), turns).0 else f;
    var decided :=
      if !phase.Acting? then phase
      else match observed.state
        case SoftFinish => Acting
        case ActionOpen => if turns == 0 then initial else strict
        case _ => Finalizing;
    (decided, if decided.Finalizing? then F.CloseActions(observed) else observed)
  }

  /** The decision only moves the controller forward, never leaves the two requesting phases,
      and closes the action phase for good when it decides to finalize, at turn 48 at the
      latest. While the action phase stays open after the first turn, fewer than 40 turns were
      used and the final response reserve, with the time trigger even the whole finish reserve,
      is still ahead. */
  lemma {:induction false} NextPhaseMovesOn(
      e: Setup, now: nat, turns: nat, phase: ProviderPhase, f: F.Controller, timeTrigger: bool)
    requires phase.Acting? || phase.Finalizing?
    requires !f.state.TerminalCommit?
    ensures var (decided, next) := NextPhase(e, now, turns, phase, f, timeTrigger);
            && (decided.Acting? || decided.Finalizing?)
            && (decided.Acting? ==> phase.Acting?)
            && F.Rank(f.state) <= F.Rank(next.state)
            && !next.state.TerminalCommit?
            && (decided.Finalizing? ==> next.state.FinalOnly?)
            && (phase.Acting? && turns >= F.FINAL_ONLY_PROVIDER_TURN ==> decided.Finalizing?)
            && (decided.Acting? && turns > 0 && next.state.ActionOpen? ==>
                  && turns < F.SOFT_FINISH_PROVIDER_TURN
                  && now + e.minSendWindow < e.actorDone
                  && now + 90 * NANOS_PER_SECOND < e.lastSend
                  && (timeTrigger && e.lastSend >= 300 * NANOS_PER_SECOND ==>
                        now + 300 * NANOS_PER_SECOND < e.lastSend))
  {
    PhaseDecisions(now, e.actorDone, e.lastSend, e.minSendWindow);
  }

  /** The phase-split block at the top of the loop. */
  method ObserveFinish(
      e: Setup, ghost legal: TraceProperty, s0: Core, now: nat, phase0: ProviderPhase,
      timeTrigger: bool)
    returns (s: Core, phase: ProviderPhase, noticed: bool)
    requires At(e, legal, s0, false, false)
    requires phase0.Acting? || phase0.Finalizing?
    ensures At(e, legal, s, false, false)
    ensures s == s0.(finish := s.finish, trace := s.trace, seen := s.seen)
    ensures s.seen == s0.seen.(tools := s.seen.tools)
    ensures (phase.Acting? && phase0.Acting?) || (phase.Finalizing? && s.finish.state.FinalOnly?)
  {
    NextPhaseMovesOn(e, now, s0.turns, phase0, s0.finish, timeTrigger);
    var (decided, next) := NextPhase(e, now, s0.turns, phase0, s0.finish, timeTrigger);
    var (finish, given) := F.TakeNotice(next);
    s := MoveFinish(e, legal, s0, finish);
    phase, noticed := decided, given;
  }

  /** The context checkpoint replaces the history by a fresh one. */
  method Checkpoint(e: Setup, ghost legal: TraceProperty, s0: LoopState)
    returns (s: LoopState, exit: Option<Exit>)
    requires Top(e, legal, s0)
    ensures exit.Some? ==> Done(e, legal, s.core, exit.value)
    ensures exit.None? ==> Top(e, legal, s) && s.core.turns == s0.core.turns
  {
    var tokens: u64 := *;
    var background: u64 := *;
    var now: nat :| s0.now <= now;
    s, exit := s0.(now := now), None;
    if !s.phase.Acting? || !s.core.finish.state.ActionOpen? || !s.core.review.phase.NotIssued? {
      return;
    }
    var capacity := CheckpointCapacity(
      s.checkpointed, s.core.turns, e.maxTurns, tokens, Clamp(|s.held.history|), background,
      SatSub(e.lastSend, now));
    if !ShouldCheckpoint(e.policy, capacity) {
      return;
    }
    var notice: Text := *;
    var held := FreshHistory(e, [System(e.systemPrompt), User(e.userRequest), User(notice)]);
    var core, failed := NoteCheckpoint(e, legal, s.core);
    s := s.(core := core, held := held, checkpointed := true);
    exit := failed;
    ExtendsNothing(held.history);
  }

  method NoteCheckpoint(e: Setup, ghost legal: TraceProperty, s0: Core)
    returns (s: Core, exit: Option<Exit>)
    requires At(e, legal, s0, false, false)
    ensures exit.Some? ==> Done(e, legal, s, exit.value)
    ensures exit.None? ==>
              && At(e, legal, s, false, false)
              && s == s0.(trace := s.trace, seen := s.seen)
              && s.seen == s0.seen.(talk := s0.seen.talk.(known := []))
  {
    var appended: bool := *;
    if !appended {
      var failed;
      s, failed := RefuseEvent(e, legal, s0);
      return s, Some(failed);
    }
    Emits(e, legal, s0, Checkpointed);
    s, exit := Emit(s0, Checkpointed), None;
  }

  /** Without a signed deadline the send window is checked before every request: the code of
      the failure, if it is too late. */
  function SendWindow(e: Setup, now: nat, phase: ProviderPhase): (r: Option<Code>)
    ensures r.None? && phase.Acting? && !e.phaseSplit ==> now + e.minSendWindow <= e.actorDone
  {
    if !phase.Acting? || e.phaseSplit then None
    else if now > e.actorDone then Some(ActionDeadlineExceeded)
    else if e.actorDone - now < e.minSendWindow then Some(SendWindowExhausted)
    else None
  }

  /** The phase decision with its notice, under a signed deadline. */
  method ObservePhase(e: Setup, ghost legal: TraceProperty, s0: LoopState, timeTrigger: bool)
    returns (s: LoopState)
    requires Top(e, legal, s0)
    ensures Top(e, legal, s) && s.core.turns == s0.core.turns
  {
    s := s0;
    if e.phaseSplit {
      var now: nat :| s.now <= now;
      var core, phase, noticed :=
        ObserveFinish(e, legal, s.core, now, s.phase, timeTrigger);
      s := s.(core := core, now := now, phase := phase);
      if noticed {
        var held := PushNotice(e, s.held, s.core.seen.talk.known);
        s := s.(held := held, noticeIssued := true);
      }
    }
  }

  /** Everything before the request: cancellation, the turn limit, the phase decision and its
      notice, the checkpoint, and the checks that may end the run instead. */
  method Prologue(e: Setup, ghost legal: TraceProperty, s0: LoopState, timeTrigger: bool)
    returns (s: LoopState, exit: Option<Exit>)
    requires Top(e, legal, s0)
    ensures exit.Some? ==> Done(e, legal, s.core, exit.value)
    ensures exit.None? ==> Top(e, legal, s) && s.core.turns == s0.core.turns < e.maxTurns
  {
    s, exit := s0, None;
    var cancelled: bool := *;
    if cancelled {
      var core, failed := FinalizeFailure(e, legal, s.core, CooperativeCancelled);
      return s.(core := core), Some(failed);
    }
    if s.core.turns >= e.maxTurns {
      var core, failed := FallbackOr(e, legal, s.core, MaxTurnsExceeded, false);
      return s.(core := core), Some(failed);
    }
    s := ObservePhase(e, legal, s, timeTrigger);
    s, exit := Checkpoint(e, legal, s);
    if exit.None? {
      s, exit := Gates(e, legal, s, timeTrigger);
    }
  }

  /** The checks between the checkpoint and the request. */
  method Gates(e: Setup, ghost legal: TraceProperty, s0: LoopState, timeTrigger: bool)
    returns (s: LoopState, exit: Option<Exit>)
    requires Top(e, legal, s0)
    ensures exit.Some? ==> Done(e, legal, s.core, exit.value)
    ensures exit.None? ==> Top(e, legal, s) && s.core.turns == s0.core.turns
  {
    var now: nat :| s0.now <= now;
    s, exit := s0.(now := now), None;
    var late := SendWindow(e, now, s.phase);
    if (!s.phase.Acting? && TakeFallback(s.core.review).1.Some?) || late.Some? {
      var core, failed :=
        FallbackOr(e, legal, s.core, if late.Some? then late.value else FinalOutputMissing, false);
      return s.(core := core), Some(failed);
    }
    if s.phase.Finalizing? && now >= e.lastSend {
      var core, failed := FinalizeFailure(e, legal, s.core, FinalDeadlineExceeded);
      return s.(core := core), Some(failed);
    }
    if !s.noticeIssued && !timeTrigger && s.phase.Acting? && e.phaseSplit
       && now <= e.actorDone && e.actorDone - now <= e.terminalMaxTimeout
    {
      var held := PushNotice(e, s.held, s.core.seen.talk.known);
      s := s.(held := held, noticeIssued := true);
    }
    // The preflight rechecks the media history, which cannot fail here, and encodes it.
    var encoded: bool := *;
    if |s.held.history| > e.maxHistoryItems || !encoded {
      var core, failed := FallbackOr(
        e, legal, s.core, if encoded then HistoryItemLimitExceeded else PreflightFailed, false);
      return s.(core := core), Some(failed);
    }
  }
}
