/** One tool batch: registering, dispatching and settling each call, then committing all of
    them to the log and the history at once. */
module AgentTools {
  import opened Base
  import opened Utf8
  import opened History
  import opened MediaBatch
  import opened RequestHistory
  import opened MediaOutputs
  import opened ProviderTurn
  import opened Response
  import opened AgentTrace
  import opened AgentState

  /** `StagedToolCompletion`. */
  datatype Completion = Completion(
    callId: Text, output: Text, dispatched: bool, attachment: Option<HistoryItem>)

  function Ids(done: seq<Completion>): (ids: seq<Text>)
    ensures |ids| == |done|
  {
    if done == [] then [] else Ids(Front(done)) + [Last(done).callId]
  }

  function OutputSum(done: seq<Completion>): nat {
    if done == [] then 0 else OutputSum(Front(done)) + |Last(done).output|
  }

  lemma {:induction false} CompletionSnoc(done: seq<Completion>, c: Completion)
    ensures Ids(done + [c]) == Ids(done) + [c.callId]
    ensures OutputSum(done + [c]) == OutputSum(done) + |c.output|
  {
    SnocParts(done, c);
  }

  /** What moves while a batch settles: the clock, the call counter and the trace. */
  datatype Progress = Progress(now: nat, calls: u64, trace: Trace, seen: Monitor)

  function Noted(p: Progress, a: Action): Progress {
    p.(trace := p.trace + [a], seen := Advance(p.seen, a))
  }

  /** Tool calls may be handled: nothing is in flight, the final request was not sent, and
      during a review the actor was asked. */
  predicate Working(m: Monitor) {
    && m.flow.started && !m.flow.inFlight && !m.flow.finalSent && !m.flow.published
    && !m.flow.failing && !m.flow.stuck && m.flow.ended.None?
    && (m.candidate.staged.Some? ==> m.candidate.asked)
  }

  /** How far a batch that began at `before` has come. A rejected batch dispatches nothing, and
      a batch dispatched after the action phase closed is the only one. */
  ghost predicate InBatch(
      before: Monitor, m: Monitor, pending: seq<Text>, rejected: bool, mutated: bool)
  {
    && m.flow == before.flow
    && |pending| <= |before.talk.calls|
    && m.talk == before.talk.(calls := before.talk.calls[|pending|..])
    && m.candidate == before.candidate.(
         mutated := before.candidate.mutated || (mutated && before.candidate.staged.Some?),
         ran := m.candidate.ran)
    && (before.candidate.staged.None? ==> m.candidate.ran == before.candidate.ran)
    && m.tools.pending == pending
    && m.tools.registered == before.tools.registered + |pending|
    && m.tools.open == before.tools.open
    && m.tools.outputBytes == before.tools.outputBytes
    && (m.tools.lateUsed ==> before.tools.lateUsed || (!rejected && !m.tools.open))
    && (rejected || m.tools.open || !m.tools.lateUsed || m.tools.lateBatch)
  }

  /** A budget footer is due when the tool's wait was clamped, or less than twice the send reserve
      is left before the last send. */
  predicate FooterDue(e: Setup, now: nat, clamped: bool) {
    e.phaseSplit
    && (|| clamped || e.lastSend < now
        || e.lastSend - now < Clamp(2 * e.providerSendMs) * NANOS_PER_MILLISECOND)
  }

  const NANOS_PER_MILLISECOND: nat := 1_000_000

  /** What an output was made from: the tool's text, a footer, the room left for it, when it was
      made, and whether the tool's wait was clamped. */
  datatype Making = Making(raw: Text, footer: Option<Text>, cap: nat, now: nat, clamped: bool)

  ghost predicate MadeFrom(e: Setup, output: Text, m: Making) {
    && ValidUtf8(m.raw) && (m.footer.Some? ==> ValidUtf8(m.footer.value))
    && (m.footer.Some? <==> FooterDue(e, m.now, m.clamped))
    && Truncation(Footered(m.raw, m.footer), m.cap, output)
  }

  /** The completion was made so, and its attachment belongs to its call. */
  ghost predicate Made(e: Setup, c: Completion, m: Making) {
    && MadeFrom(e, c.output, m)
    && (c.attachment.Some? ==> Owns(c.attachment.value, c.callId))
  }

  /** `prepare_tool_completion`: a footer may be added, then the output is cut to what the
      call and the run still allow. */
  method PrepareCompletion(
      e: Setup, callId: Text, name: Text, turnIndex: u64, raw: Text, footer: Option<Text>,
      media: Option<Attachment>, projected: nat)
    returns (r: Result<Completion, Code>)
    requires ValidUtf8(raw) && (footer.Some? ==> ValidUtf8(footer.value))
    requires projected <= e.perRunBytes
    ensures r.Ok? ==>
              && r.value.callId == callId && !r.value.dispatched
              && ValidUtf8(r.value.output)
              && |r.value.output| <= Min(e.perCallBytes, e.perRunBytes - projected)
              && Truncation(Footered(raw, footer), Min(e.perCallBytes, e.perRunBytes - projected),
                            r.value.output)
              && (r.value.attachment.Some? <==> media.Some?)
              && (media.Some? ==>
                    r.value.attachment == Some(ToolMediaAttachment(
                      media.value.(callId := callId, origin := Some(Origin(turnIndex, name))))))
  {
    var output := raw;
    if footer.Some? {
      output := WithFooter(output, footer.value);
    }
    var cap := Min(e.perCallBytes, e.perRunBytes - projected);
    output := TruncateUtf8(output, cap);
    if media.Some? {
      var attachment := media.value.(callId := callId, origin := Some(Origin(turnIndex, name)));
      if !ValidAttachment(e.hash, attachment) {
        return Err(MediaAttachmentRejected);
      }
      return Ok(Completion(callId, output, false, Some(ToolMediaAttachment(attachment))));
    }
    return Ok(Completion(callId, output, false, None));
  }

  /** Registering a call adds it to the pending ones. */
  lemma {:induction false} RegisterStep(
      r: Rules, before: Monitor, m: Monitor, id: Text, pending: seq<Text>, rejected: bool,
      mutated: bool)
    requires Working(before) && InBatch(before, m, pending, rejected, mutated)
    requires Clamp(m.tools.registered + 1) <= r.maxCallsPerRun
    requires |pending| < |before.talk.calls| && before.talk.calls[|pending|] == id
    ensures Allowed(r, m, Registered(id))
    ensures InBatch(before, Advance(m, Registered(id)), pending + [id], rejected, mutated)
  {
    assert before.talk.calls[|pending|..][1..] == before.talk.calls[|pending| + 1..];
  }

  /** A dispatch before the cutoff, in a batch that was not rejected. */
  lemma {:induction false} DispatchStep(
      r: Rules, before: Monitor, m: Monitor, id: Text, mutating: bool, now: nat,
      pending: seq<Text>, mutated: bool)
    requires Working(before) && InBatch(before, m, pending, false, mutated)
    requires pending != [] && Last(pending) == id && now < r.actorDone
    ensures Allowed(r, m, Dispatched(id, mutating, now))
    ensures InBatch(before, Advance(m, Dispatched(id, mutating, now)), pending, false,
                    mutated || mutating)
  {
  }

  lemma {:induction false} FailureStep(
      r: Rules, before: Monitor, m: Monitor, id: Text, pending: seq<Text>, mutated: bool)
    requires Working(before) && InBatch(before, m, pending, false, mutated)
    requires pending != [] && Last(pending) == id
    ensures Allowed(r, m, ToolFailed(id)) && Advance(m, ToolFailed(id)) == m
  {
  }

  lemma {:induction false} Notes(e: Setup, legal: TraceProperty, p: Progress, a: Action)
    requires legal(e, p.trace, p.seen)
    requires Allowed(RulesOf(e), p.seen, a) && !a.Requested? && !a.Answered? && !a.Recovered?
    ensures legal(e, Noted(p, a).trace, Noted(p, a).seen)
  {
    assert Steps(e, p.seen, a);
  }

  /** The log refuses an event of the batch: only the exit is left. */
  method Refuse(e: Setup, ghost legal: TraceProperty, p0: Progress) returns (p: Progress)
    requires legal(e, p0.trace, p0.seen) && Working(p0.seen)
    ensures legal(e, p.trace, p.seen) && p.calls == p0.calls
    ensures p.seen.flow == p0.seen.flow.(failing := true)
  {
    Notes(e, legal, p0, Refused(EventRefused));
    p := Noted(p0, Refused(EventRefused));
  }

  /** A batch that began with `f` was broken off. */
  predicate BrokenOff(f: Flow, p: Progress) {
    p.seen.flow == f.(failing := p.seen.flow.failing)
  }

  lemma {:induction false} DispatchNoted(
      e: Setup, legal: TraceProperty, before: Monitor, p: Progress, id: Text, mutating: bool,
      now: nat, pending: seq<Text>, mutated: bool)
    requires legal(e, p.trace, p.seen)
    requires Working(before) && InBatch(before, p.seen, pending, false, mutated)
    requires pending != [] && Last(pending) == id && now < e.actorDone
    ensures var after := Noted(p, Dispatched(id, mutating, now));
            && legal(e, after.trace, after.seen)
            && InBatch(before, after.seen, pending, false, mutated || mutating)
  {
    DispatchStep(RulesOf(e), before, p.seen, id, mutating, now, pending, mutated);
    Notes(e, legal, p, Dispatched(id, mutating, now));
  }

  lemma {:induction false} FailureNoted(
      e: Setup, legal: TraceProperty, before: Monitor, p: Progress, id: Text,
      pending: seq<Text>, mutated: bool)
    requires legal(e, p.trace, p.seen)
    requires Working(before) && InBatch(before, p.seen, pending, false, mutated)
    requires pending != [] && Last(pending) == id
    ensures var after := Noted(p, ToolFailed(id));
            legal(e, after.trace, after.seen) && after.seen == p.seen
  {
    FailureStep(RulesOf(e), before, p.seen, id, pending, mutated);
    Notes(e, legal, p, ToolFailed(id));
  }

  /** What executing a dispatched call yields; `clamped` says that its wait was cut short. */
  datatype Execution = Result(output: Text, media: Option<Attachment>, clamped: bool) | Fatal

  /** The dispatching half of `settle_tool_call`. */
  method DispatchCall(
      e: Setup, ghost legal: TraceProperty, p0: Progress, id: Text, mutating: bool, cutoff: nat,
      ghost before: Monitor, ghost pending: seq<Text>, ghost mutated: bool)
    returns (p: Progress, dispatched: bool, r: Option<Execution>)
    requires legal(e, p0.trace, p0.seen)
    requires Working(before) && InBatch(before, p0.seen, pending, false, mutated)
    requires pending != [] && Last(pending) == id
    requires cutoff <= e.actorDone
    ensures legal(e, p.trace, p.seen) && p.calls == p0.calls && BrokenOff(before.flow, p)
    ensures r.Some? ==>
              && InBatch(before, p.seen, pending, false, mutated || (dispatched && mutating))
              && r.value.Result? && ValidUtf8(r.value.output)
  {
    var now: nat :| p0.now <= now;
    p, dispatched := p0.(now := now), false;
    if now >= cutoff {
      var rejection := AnyText();
      r := Some(Result(rejection, None, false));
      return;
    }
    var appended: bool := *;
    if !appended {
      p := Refuse(e, legal, p);
      r := None;
      return;
    }
    DispatchNoted(e, legal, before, p, id, mutating, now, pending, mutated);
    p := Noted(p, Dispatched(id, mutating, now));
    dispatched := true;
    r := Execute();
    if r.None? {
      var diagnosed: bool := *;
      var recorded: bool := *;
      if diagnosed && !recorded {
        p := Refuse(e, legal, p);
      } else if diagnosed {
        FailureNoted(e, legal, before, p, id, pending, mutated || mutating);
        p := Noted(p, ToolFailed(id));
      }
    }
  }

  /** The executor: any text and any media, or a fatal failure, a cancellation, a timeout. */
  method Execute() returns (r: Option<Execution>)
    ensures r.Some? ==> r.value.Result? && ValidUtf8(r.value.output)
  {
    var fatal: bool := *;
    var media: Option<Attachment> := *;
    var clamped: bool := *;
    if fatal {
      return None;
    }
    var output := AnyText();
    r := Some(Result(output, media, clamped));
  }

  method AnyText() returns (text: Text)
    ensures ValidUtf8(text)
  {
    text :| ValidUtf8(text);
  }

  /** The registering half of `settle_tool_call`. */
  method RegisterCall(
      e: Setup, ghost legal: TraceProperty, p0: Progress, id: Text,
      ghost before: Monitor, ghost pending: seq<Text>, ghost rejected: bool, ghost mutated: bool)
    returns (p: Progress, ok: bool)
    requires legal(e, p0.trace, p0.seen)
    requires Working(before) && InBatch(before, p0.seen, pending, rejected, mutated)
    requires p0.calls == Clamp(p0.seen.tools.registered)
    requires Clamp(p0.seen.tools.registered + 1) <= e.maxCallsPerRun
    requires |pending| < |before.talk.calls| && before.talk.calls[|pending|] == id
    ensures legal(e, p.trace, p.seen) && BrokenOff(before.flow, p)
    ensures ok ==>
              && InBatch(before, p.seen, pending + [id], rejected, mutated)
              && p.calls == Clamp(p.seen.tools.registered)
  {
    var now: nat :| p0.now <= now;
    p := p0.(now := now, calls := SatAdd(p0.calls, 1));
    ok := *;
    if !ok {
      p := Refuse(e, legal, p);
      return;
    }
    RegisterStep(RulesOf(e), before, p.seen, id, pending, rejected, mutated);
    Notes(e, legal, p, Registered(id));
    p := Noted(p, Registered(id));
  }

  /** A registered call is refused or dispatched. Protected targets, git-history requests and
      invalid arguments are refused. */
  method HandleCall(
      e: Setup, ghost legal: TraceProperty, p0: Progress, call: OutputItem, rejected: bool,
      cutoff: nat, ghost before: Monitor, ghost pending: seq<Text>, ghost mutated: bool)
    returns (p: Progress, dispatched: bool, execution: Option<Execution>)
    requires call.Call? && legal(e, p0.trace, p0.seen)
    requires Working(before) && InBatch(before, p0.seen, pending, rejected, mutated)
    requires pending != [] && Last(pending) == call.callId
    requires cutoff <= e.actorDone
    ensures legal(e, p.trace, p.seen) && p.calls == p0.calls && BrokenOff(before.flow, p)
    ensures rejected ==> !dispatched
    ensures execution.Some? ==>
              && InBatch(before, p.seen, pending, rejected,
                         mutated || (dispatched && call.name in e.mutatingTools))
              && execution.value.Result? && ValidUtf8(execution.value.output)
  {
    var refused: bool := *;
    if refused || rejected || p0.now >= cutoff {
      var rejection := AnyText();
      return p0, false, Some(Result(rejection, None, false));
    }
    p, dispatched, execution :=
      DispatchCall(e, legal, p0, call.callId, call.name in e.mutatingTools, cutoff,
                   before, pending, mutated);
  }

  /** `settle_tool_call`: the call is registered, then refused or dispatched, and its output
      is cut to the budget. Refused calls are never dispatched. */
  method SettleCall(
      e: Setup, ghost legal: TraceProperty, p0: Progress, call: OutputItem, turnIndex: u64,
      rejected: bool, cutoff: nat, projected: nat,
      ghost before: Monitor, ghost pending: seq<Text>, ghost mutated: bool)
    returns (p: Progress, r: Result<Completion, Code>, ghost made: Making)
    requires call.Call?
    requires legal(e, p0.trace, p0.seen)
    requires Working(before) && InBatch(before, p0.seen, pending, rejected, mutated)
    requires p0.calls == Clamp(p0.seen.tools.registered)
    requires Clamp(p0.seen.tools.registered + 1) <= e.maxCallsPerRun
    requires |pending| < |before.talk.calls| && before.talk.calls[|pending|] == call.callId
    requires cutoff <= e.actorDone && projected <= e.perRunBytes
    ensures legal(e, p.trace, p.seen) && BrokenOff(before.flow, p)
    ensures r.Ok? ==>
              && Settles(r.value, call.callId, e.perRunBytes - projected)
              && Made(e, r.value, made) && made.now == p.now
              && (rejected ==> !r.value.dispatched)
              && InBatch(before, p.seen, pending + [call.callId], rejected,
                         mutated || (r.value.dispatched && call.name in e.mutatingTools))
              && p.calls == Clamp(p.seen.tools.registered)
  {
    var ok, dispatched, execution;
    made := Making([], None, 0, 0, false);
    p, ok := RegisterCall(e, legal, p0, call.callId, before, pending, rejected, mutated);
    if !ok {
      return p, Err(ArtifactFailed), made;
    }
    SnocParts(pending, call.callId);
    p, dispatched, execution := HandleCall(e, legal, p, call, rejected, cutoff, before,
                                           pending + [call.callId], mutated);
    if execution.None? {
      return p, Err(ToolFatal), made;
    }
    var now: nat :| p.now <= now;
    p := p.(now := now);
    r, made := Complete(e, call, turnIndex, execution.value, dispatched, projected, now);
  }

  /** A completion of call `id` whose output is well-formed and within the budget. */
  ghost predicate Settles(c: Completion, id: Text, budget: nat) {
    && c.callId == id && ValidUtf8(c.output) && |c.output| <= budget
  }

  method Complete(
      e: Setup, call: OutputItem, turnIndex: u64, result: Execution, dispatched: bool,
      projected: nat, now: nat)
    returns (r: Result<Completion, Code>, ghost made: Making)
    requires call.Call? && result.Result? && ValidUtf8(result.output)
    requires projected <= e.perRunBytes
    ensures r.Ok? ==>
              && Settles(r.value, call.callId, e.perRunBytes - projected)
              && r.value.dispatched == dispatched
              && Made(e, r.value, made) && made.now == now
  {
    var footer: Option<Text> := None;
    if FooterDue(e, now, result.clamped) {
      var text := AnyText();
      footer := Some(text);
    }
    made := Making(result.output, footer, Min(e.perCallBytes, e.perRunBytes - projected), now,
                   result.clamped);
    r := PrepareCompletion(e, call.callId, call.name, turnIndex, result.output, footer,
                           result.media, projected);
    if r.Ok? {
      r := Ok(r.value.(dispatched := dispatched));
    }
  }

  // ---------- the whole batch ----------

  ghost predicate AllMade(e: Setup, done: seq<Completion>, made: seq<Making>) {
    |made| == |done| && forall p :: 0 <= p < |done| ==> Made(e, done[p], made[p])
  }

  lemma {:induction false} AllMadeSnoc(
      e: Setup, done: seq<Completion>, made: seq<Making>, c: Completion, m: Making)
    requires AllMade(e, done, made) && Made(e, c, m)
    ensures AllMade(e, done + [c], made + [m])
  {
  }

  /** `TurnBatchStaging`, with what the review needs to know about the batch. */
  datatype Batch = Batch(
    done: seq<Completion>, projected: nat, dispatched: bool, mutated: bool)

  /** How far settling has come: the calls of `pending` are registered and have their completions
      in the batch. */
  ghost predicate Underway(
      e: Setup, before: Monitor, p: Progress, pending: seq<Text>, b: Batch, made: seq<Making>,
      rejected: bool, committed: nat)
  {
    && InBatch(before, p.seen, pending, rejected, b.mutated)
    && Ids(b.done) == pending && AllMade(e, b.done, made)
    && b.projected == committed + OutputSum(b.done) <= e.perRunBytes
    && (rejected ==> !b.dispatched)
    && (b.mutated ==> b.dispatched)
    && p.calls == Clamp(p.seen.tools.registered)
  }

  /** The batch with one more completion. */
  function Joined(b: Batch, c: Completion, mutating: bool): Batch {
    Batch(b.done + [c], b.projected + |c.output|, b.dispatched || c.dispatched,
          b.mutated || (c.dispatched && mutating))
  }

  lemma {:induction false} JoinedUnderway(
      e: Setup, before: Monitor, p0: Progress, p: Progress, pending: seq<Text>, b: Batch,
      made: seq<Making>, rejected: bool, committed: nat, c: Completion, m: Making, mutating: bool)
    requires Underway(e, before, p0, pending, b, made, rejected, committed)
    requires Settles(c, c.callId, e.perRunBytes - b.projected) && Made(e, c, m)
    requires rejected ==> !c.dispatched
    requires InBatch(before, p.seen, pending + [c.callId], rejected,
                     Joined(b, c, mutating).mutated)
    requires p.calls == Clamp(p.seen.tools.registered)
    ensures Underway(e, before, p, pending + [c.callId], Joined(b, c, mutating), made + [m],
                     rejected, committed)
  {
    CompletionSnoc(b.done, c);
    AllMadeSnoc(e, b.done, made, c, m);
  }

  method SettleNext(
      e: Setup, ghost legal: TraceProperty, p0: Progress, call: OutputItem, turnIndex: u64,
      rejected: bool, cutoff: nat, b0: Batch, ghost before: Monitor, ghost pending: seq<Text>,
      ghost made0: seq<Making>, ghost committed: nat)
    returns (p: Progress, r: Result<Batch, Code>, ghost made: seq<Making>)
    requires call.Call? && legal(e, p0.trace, p0.seen) && Working(before)
    requires Underway(e, before, p0, pending, b0, made0, rejected, committed)
    requires Clamp(p0.seen.tools.registered + 1) <= e.maxCallsPerRun
    requires |pending| < |before.talk.calls| && before.talk.calls[|pending|] == call.callId
    requires cutoff <= e.actorDone
    ensures legal(e, p.trace, p.seen) && BrokenOff(before.flow, p)
    ensures r.Ok? ==>
              Underway(e, before, p, pending + [call.callId], r.value, made, rejected, committed)
  {
    var completion;
    ghost var making;
    p, completion, making := SettleCall(e, legal, p0, call, turnIndex, rejected, cutoff,
                                        b0.projected, before, pending, b0.mutated);
    if completion.Err? {
      return p, Err(completion.error), made0;
    }
    var c, mutating := completion.value, call.name in e.mutatingTools;
    JoinedUnderway(e, before, p0, p, pending, b0, made0, rejected, committed, c, making, mutating);
    r, made := Ok(Joined(b0, c, mutating)), made0 + [making];
  }

  /** Settles the calls of one response in order; the first fatal failure ends the run. */
  method SettleCalls(
      e: Setup, ghost legal: TraceProperty, p0: Progress, calls: seq<OutputItem>,
      turnIndex: u64, rejected: bool, cutoff: nat, committed: nat)
    returns (p: Progress, r: Result<Batch, Code>, ghost made: seq<Making>)
    requires forall i :: 0 <= i < |calls| ==> calls[i].Call?
    requires legal(e, p0.trace, p0.seen)
    requires Working(p0.seen) && InBatch(p0.seen, p0.seen, [], rejected, false)
    requires p0.seen.talk.calls == CallIds(calls)
    requires p0.calls == Clamp(p0.seen.tools.registered)
    requires Clamp(p0.seen.tools.registered + |calls|) <= e.maxCallsPerRun
    requires cutoff <= e.actorDone && committed <= e.perRunBytes
    ensures legal(e, p.trace, p.seen) && BrokenOff(p0.seen.flow, p)
    ensures r.Ok? ==>
              Underway(e, p0.seen, p, CallIds(calls), r.value, made, rejected, committed)
  {
    var b := Batch([], committed, false, false);
    p, made := p0, [];
    for i := 0 to |calls|
      invariant legal(e, p.trace, p.seen)
      invariant Underway(e, p0.seen, p, CallIds(calls)[..i], b, made, rejected, committed)
    {
      var next;
      TakeNext(CallIds(calls), i);
      p, next, made := SettleNext(e, legal, p, calls[i], turnIndex, rejected, cutoff, b, p0.seen,
                                  CallIds(calls)[..i], made, committed);
      if next.Err? {
        return p, next, made;
      }
      b := next.value;
    }
    r := Ok(b);
    assert CallIds(calls)[..|calls|] == CallIds(calls);
  }

  function Outputs(done: seq<Completion>): Items {
    if done == [] then []
    else Outputs(Front(done)) + [FunctionCallOutput(Last(done).callId, Last(done).output)]
  }

  function Attachments(done: seq<Completion>): Items {
    if done == [] then []
    else if Last(done).attachment.Some? then
      Attachments(Front(done)) + [Last(done).attachment.value]
    else Attachments(Front(done))
  }

  lemma {:induction false} IdAt(done: seq<Completion>, i: nat)
    requires i < |done|
    ensures Ids(done)[i] == done[i].callId
  {
    if i < |done| - 1 {
      IdAt(Front(done), i);
    }
  }

  lemma {:induction false} CommitStep(
      r: Rules, m: Monitor, done: seq<Completion>, i: nat, base: nat, said: Items)
    requires i < |done| && Working(m)
    requires m.tools.pending == Ids(done)[i..]
    requires m.tools.outputBytes == base + OutputSum(done[..i])
    requires m.talk.known == said + Outputs(done[..i])
    requires base + OutputSum(done) <= r.perRunBytes
    ensures Allowed(r, m, Committed(done[i].callId, done[i].output))
    ensures Advance(m, Committed(done[i].callId, done[i].output))
         == m.(tools := m.tools.(pending := Ids(done)[i + 1..],
                                 outputBytes := base + OutputSum(done[..i + 1])),
               talk := m.talk.(known := said + Outputs(done[..i + 1])))
  {
    IdAt(done, i);
    TakeNext(done, i);
    PartialSum(done, i + 1);
    assert Ids(done)[i..][1..] == Ids(done)[i + 1..];
    Assoc(said, Outputs(done[..i]), [FunctionCallOutput(done[i].callId, done[i].output)]);
  }

  lemma {:induction false} PartialSum(done: seq<Completion>, i: nat)
    requires i <= |done|
    ensures OutputSum(done[..i]) <= OutputSum(done)
    decreases |done| - i
  {
    if i < |done| {
      TakeNext(done, i);
      PartialSum(done, i + 1);
    } else {
      assert done[..i] == done;
    }
  }

  // ---------- images under footers and cuts ----------

  /** The completion's attachment belongs to its call, and its tool described it in the one
      sentence the history accepts. */
  predicate Described(c: Completion, m: Making) {
    c.attachment.Some? ==>
      && c.attachment.value.ToolMediaAttachment?
      && c.attachment.value.attachment.callId == c.callId
      && LowerHex64(c.attachment.value.attachment.sha256)
      && m.raw == SentenceOf(c.attachment.value.attachment)
  }

  lemma {:induction false} OutputsAt(done: seq<Completion>, p: nat)
    requires p < |done|
    ensures |Outputs(done)| == |done|
    ensures Outputs(done)[p] == FunctionCallOutput(done[p].callId, done[p].output)
  {
    if p < |done| - 1 {
      OutputsAt(Front(done), p);
    } else if |done| > 1 {
      OutputsAt(Front(done), 0);
    }
  }

  lemma {:induction false} AttachmentFrom(done: seq<Completion>, i: nat) returns (q: nat)
    requires i < |Attachments(done)|
    ensures q < |done| && done[q].attachment == Some(Attachments(done)[i])
  {
    if i < |Attachments(Front(done))| {
      q := AttachmentFrom(Front(done), i);
    } else {
      q := |done| - 1;
    }
  }

  lemma {:induction false} AttachmentListed(done: seq<Completion>, q: nat) returns (i: nat)
    requires q < |done| && done[q].attachment.Some?
    ensures i < |Attachments(done)| && Attachments(done)[i] == done[q].attachment.value
  {
    if q < |done| - 1 {
      i := AttachmentListed(Front(done), q);
    } else {
      i := |Attachments(done)| - 1;
    }
  }

  /** The completion carries no image, or its output is the image's sentence. */
  predicate Exact(c: Completion) {
    c.attachment.Some? && c.attachment.value.ToolMediaAttachment? ==>
      c.output == SentenceOf(c.attachment.value.attachment)
  }

  lemma {:induction false} AdditionAt(done: seq<Completion>, p: nat)
    requires p < |done|
    ensures |Outputs(done)| == |done| && Ids(done)[p] == done[p].callId
    ensures (Outputs(done) + Attachments(done))[p]
         == FunctionCallOutput(done[p].callId, done[p].output)
  {
    IdAt(done, p);
    OutputsAt(done, p);
  }

  lemma {:induction false} ExactOutputsGive(done: seq<Completion>, p: nat)
    requires ExactOutputs(Ids(done), Outputs(done) + Attachments(done)) && p < |done|
    requires done[p].attachment.Some? ==> Owns(done[p].attachment.value, done[p].callId)
    ensures Exact(done[p])
  {
    if done[p].attachment.Some? {
      AdditionAt(done, p);
      var i := AttachmentListed(done, p);
      assert Owns((Outputs(done) + Attachments(done))[|done| + i], Ids(done)[p]);
    }
  }

  lemma {:induction false} ExactCompletionsGive(done: seq<Completion>, i: nat, p: nat)
    requires forall q :: 0 <= q < |done| ==> Exact(done[q])
    requires forall q, r :: 0 <= q < r < |done| ==> done[q].callId != done[r].callId
    requires forall q :: 0 <= q < |done| && done[q].attachment.Some? ==>
               Owns(done[q].attachment.value, done[q].callId)
    requires p < |done| <= i < |Outputs(done) + Attachments(done)|
    requires Owns((Outputs(done) + Attachments(done))[i], Ids(done)[p])
    ensures var additions := Outputs(done) + Attachments(done);
            additions[p] == FunctionCallOutput(Ids(done)[p], SentenceOf(additions[i].attachment))
  {
    AdditionAt(done, p);
    var q := AttachmentFrom(done, i - |done|);
    assert Exact(done[q]) && Owns(done[q].attachment.value, done[q].callId);
  }

  /** The exact sentences of the batch, call by call. */
  lemma {:induction false} ExactOutputsByCall(done: seq<Completion>)
    requires forall p, q :: 0 <= p < q < |done| ==> done[p].callId != done[q].callId
    requires forall p :: 0 <= p < |done| && done[p].attachment.Some? ==>
               Owns(done[p].attachment.value, done[p].callId)
    ensures ExactOutputs(Ids(done), Outputs(done) + Attachments(done)) <==>
              forall p :: 0 <= p < |done| ==> Exact(done[p])
  {
    var ids, additions := Ids(done), Outputs(done) + Attachments(done);
    if ExactOutputs(ids, additions) {
      forall p | 0 <= p < |done| ensures Exact(done[p]) {
        ExactOutputsGive(done, p);
      }
    }
    if forall p :: 0 <= p < |done| ==> Exact(done[p]) {
      forall i, p | |ids| <= i < |additions| && 0 <= p < |ids| && Owns(additions[i], ids[p])
        ensures additions[p] == FunctionCallOutput(ids[p], SentenceOf(additions[i].attachment))
      {
        ExactCompletionsGive(done, i, p);
      }
    }
  }

  /** No footer was due when the output was made, and it fits its room. */
  predicate Undisturbed(e: Setup, m: Making) {
    !FooterDue(e, m.now, m.clamped) && |m.raw| <= m.cap
  }

  /** A batch whose images were described properly is accepted exactly when each was described
      while no footer was due and fits its room: one image read late, or after a clamped wait, or
      near the output cap rejects the whole batch, and the run fails. */
  lemma {:induction false} ImagesSurviveExactly(
      e: Setup, base: Items, turnIndex: u64, done: seq<Completion>, made: seq<Making>)
    requires AllMade(e, done, made)
    requires forall p :: 0 <= p < |done| ==> Described(done[p], made[p])
    requires BatchFrame(e.hash, base, turnIndex, Ids(done), Outputs(done) + Attachments(done))
    ensures PrepareBatch(
              e.hash, base, turnIndex, Ids(done), Outputs(done) + Attachments(done)).Ok? <==>
              forall p :: 0 <= p < |done| && done[p].attachment.Some? ==> Undisturbed(e, made[p])
  {
    BatchAcceptedExactly(e.hash, base, turnIndex, Ids(done), Outputs(done) + Attachments(done));
    DistinctCalls(base, done);
    ExactOutputsByCall(done);
    forall p | 0 <= p < |done| && done[p].attachment.Some?
      ensures Exact(done[p]) <==> Undisturbed(e, made[p])
    {
      DescribedSurvives(e, done[p], made[p]);
    }
  }

  lemma {:induction false} AdditionOf(done: seq<Completion>, p: nat) returns (i: nat)
    requires p < |done| && done[p].attachment.Some?
    ensures i < |Outputs(done) + Attachments(done)|
    ensures (Outputs(done) + Attachments(done))[i] == done[p].attachment.value
  {
    var k := AttachmentListed(done, p);
    ConcatAt(Outputs(done), Attachments(done), k);
    i := |Outputs(done)| + k;
  }

  lemma {:induction false} AcceptedImageExact(
      hash: Hashes, base: Items, turnIndex: u64, done: seq<Completion>, p: nat)
    requires p < |done| && done[p].attachment.Some?
    requires Owns(done[p].attachment.value, done[p].callId)
    requires PrepareBatch(hash, base, turnIndex, Ids(done), Outputs(done) + Attachments(done)).Ok?
    ensures Exact(done[p])
  {
    var i := AdditionOf(done, p);
    AdditionAt(done, p);
    AttachmentNeedsExactOutput(
      hash, base, turnIndex, Ids(done), Outputs(done) + Attachments(done), i, p);
  }

  /** Whatever else a batch holds: once it is accepted, every image described properly was
      described undisturbed. */
  lemma {:induction false} AcceptedImageUndisturbed(
      e: Setup, base: Items, turnIndex: u64, done: seq<Completion>, made: seq<Making>, p: nat)
    requires AllMade(e, done, made) && p < |done|
    requires done[p].attachment.Some? && Described(done[p], made[p])
    requires PrepareBatch(
               e.hash, base, turnIndex, Ids(done), Outputs(done) + Attachments(done)).Ok?
    ensures Undisturbed(e, made[p])
  {
    assert Made(e, done[p], made[p]);
    AcceptedImageExact(e.hash, base, turnIndex, done, p);
    DescribedSurvives(e, done[p], made[p]);
  }

  lemma {:induction false} DistinctCalls(base: Items, done: seq<Completion>)
    requires ExpectedCalls(base, Ids(done))
    ensures forall p, q :: 0 <= p < q < |done| ==> done[p].callId != done[q].callId
  {
    forall p, q | 0 <= p < q < |done| ensures done[p].callId != done[q].callId {
      IdAt(done, p);
      IdAt(done, q);
    }
  }

  lemma {:induction false} DescribedSurvives(e: Setup, c: Completion, m: Making)
    requires MadeFrom(e, c.output, m) && Described(c, m) && c.attachment.Some?
    ensures Exact(c) <==> Undisturbed(e, m)
  {
    var a := c.attachment.value.attachment;
    SentenceNoLineFeed(a.mimeType, a.width, a.height, a.sha256);
    SentenceSurvivesExactly(m.raw, m.footer, m.cap, c.output);
  }

  lemma {:induction false} CommitNoted(
      e: Setup, legal: TraceProperty, p: Progress, done: seq<Completion>, i: nat, base: nat,
      said: Items)
    requires legal(e, p.trace, p.seen)
    requires i < |done| && Working(p.seen)
    requires p.seen.tools.pending == Ids(done)[i..]
    requires p.seen.tools.outputBytes == base + OutputSum(done[..i])
    requires p.seen.talk.known == said + Outputs(done[..i])
    requires base + OutputSum(done) <= e.perRunBytes
    ensures var after := Noted(p, Committed(done[i].callId, done[i].output));
            && legal(e, after.trace, after.seen)
            && after.seen == p.seen.(
                 tools := p.seen.tools.(pending := Ids(done)[i + 1..],
                                        outputBytes := base + OutputSum(done[..i + 1])),
                 talk := p.seen.talk.(known := said + Outputs(done[..i + 1])))
  {
    CommitStep(RulesOf(e), p.seen, done, i, base, said);
    Notes(e, legal, p, Committed(done[i].callId, done[i].output));
  }

  /** A refused completion ends the run at once. */
  method AbandonCommit(e: Setup, ghost legal: TraceProperty, p0: Progress) returns (p: Progress)
    requires legal(e, p0.trace, p0.seen) && Working(p0.seen)
    ensures legal(e, p.trace, p.seen) && p.calls == p0.calls
    ensures p.seen.flow == p0.seen.flow.(stuck := true)
    ensures p.trace != [] && Last(p.trace) == Refused(CommitRefused)
  {
    Notes(e, legal, p0, Refused(CommitRefused));
    p := Noted(p0, Refused(CommitRefused));
  }

  /** The log half of `commit_turn_history_batch`: one `tool.completed` event per call, in
      call order. A refused append abandons the run. */
  method CommitCalls(e: Setup, ghost legal: TraceProperty, p0: Progress, done: seq<Completion>)
    returns (p: Progress, ok: bool)
    requires legal(e, p0.trace, p0.seen) && Working(p0.seen)
    requires p0.seen.tools.pending == Ids(done)
    requires p0.seen.tools.outputBytes + OutputSum(done) <= e.perRunBytes
    ensures legal(e, p.trace, p.seen) && p.calls == p0.calls
    ensures !ok ==>
              && p.seen.flow == p0.seen.flow.(stuck := true)
              && p.trace != [] && Last(p.trace) == Refused(CommitRefused)
    ensures ok ==>
              p.seen == p0.seen.(tools := p0.seen.tools.(
                          pending := [],
                          outputBytes := p0.seen.tools.outputBytes + OutputSum(done)),
                        talk := p0.seen.talk.(known := p0.seen.talk.known + Outputs(done)))
  {
    p := p0;
    ghost var base, said := p0.seen.tools.outputBytes, p0.seen.talk.known;
    EmptyConcat(said);
    assert Ids(done)[0..] == Ids(done);
    for i := 0 to |done|
      invariant legal(e, p.trace, p.seen) && p.calls == p0.calls
      invariant p.seen == p0.seen.(tools := p0.seen.tools.(
                            pending := Ids(done)[i..],
                            outputBytes := base + OutputSum(done[..i])),
                          talk := p0.seen.talk.(known := said + Outputs(done[..i])))
    {
      var appended: bool := *;
      if !appended {
        p := AbandonCommit(e, legal, p);
        return p, false;
      }
      CommitNoted(e, legal, p, done, i, base, said);
      p := Noted(p, Committed(done[i].callId, done[i].output));
    }
    assert done[..|done|] == done;
    ok := true;
  }
}
