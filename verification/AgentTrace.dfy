/** What an agent run may do, as a monitor over its trace of actions, and the whole-run
    properties every accepted trace has. */
module AgentTrace {
  import opened Base
  import opened History
  import opened MediaPolicy
  import opened RequestHistory
  import opened Review
  import opened ProviderTurn
  import opened Response
  import opened Conversation

  datatype Mode = ActionRequest | FinalRequest | CriticRequest

  /** An append to the event log that did not take place: of an event, of the first event, of a
      batch's completions, of staged receipts, of the terminal event. */
  datatype Refusal = EventRefused | StartRefused | CommitRefused | FlushFailed | ClosingRefused

  /** Log events, refused appends, and the internal moves the properties speak about. */
  datatype Action =
    | Started
    | Refused(what: Refusal)
    | Requested(mode: Mode, history: Items, receipt: Receipt)
    | Answered(completed: bool, response: seq<OutputItem>)
    | Recovered(after: Items)
    | LeftActionOpen
    | Checkpointed
    | Registered(id: Text)
    | Dispatched(id: Text, mutating: bool, now: nat)
    | ToolFailed(id: Text)
    | Committed(id: Text, output: Text)
    | Staged(text: Text)
    | ReviewMoved(phase: ReviewPhase)
    | Published(text: Text, fallback: bool)
    | Ended(success: bool)

  type Trace = seq<Action>

  datatype Rules = Rules(
    maxTurns: u64, maxCallsPerRun: u64, perRunBytes: u64, actorDone: nat)

  /** Requests and exits. `failing` says that an event was refused, so that only the exit is
      left, `stuck` that the exit itself failed. */
  datatype Flow = Flow(
    started: bool, requests: nat, inFlight: bool, finalSent: bool, recovered: bool,
    published: bool, failing: bool, stuck: bool, ended: Option<bool>)

  /** Tool calls. `lateUsed` says that a tool was dispatched after the action phase closed,
      `lateBatch` that this happened in the current batch. */
  datatype Tools = Tools(
    registered: nat, pending: seq<Text>, open: bool, lateUsed: bool, lateBatch: bool,
    outputBytes: nat)

  /** The staged answer, whether a mutating tool ran since, and the review of it: whether the
      critic and, in the current phase, the actor were asked, and whether a tool ran in the
      current phase. */
  datatype Candidate = Candidate(
    staged: Option<Text>, mutated: bool, phase: ReviewPhase, critic: bool, asked: bool, ran: bool)

  /** The conversation with the actor so far, the text of its last answer, and the calls of that
      answer not yet registered. */
  datatype Talk = Talk(known: Items, answer: Option<Text>, calls: seq<Text>)

  datatype Monitor = Monitor(flow: Flow, tools: Tools, candidate: Candidate, talk: Talk)

  const START := Monitor(
    Flow(false, 0, false, false, false, false, false, false, None),
    Tools(0, [], true, false, false, 0),
    Candidate(None, false, NotIssued, false, false, false),
    Talk([], None, []))

  /** Actions that need the run to be at rest: no request in flight, no call awaiting its
      result. */
  predicate NeedsRest(a: Action) {
    a.Requested? || a.Recovered? || a.Checkpointed? || a.Staged? || a.Published? || a == Ended(true)
  }

  /** A refused event can only be followed by the exit; a refused start, commit, flush or
      terminal event by nothing. */
  predicate Leaves(a: Action) {
    a.Ended? || (a.Refused? && (a.what.FlushFailed? || a.what.ClosingRefused?))
  }

  predicate FlowAllows(r: Rules, f: Flow, a: Action) {
    && f.ended.None? && !f.stuck
    && (f.started <==> !a.Started? && a != Refused(StartRefused))
    && (f.failing ==> Leaves(a) && a != Ended(true))
    && (f.published ==> Leaves(a))
    && (f.inFlight ==> a.Answered? || a.Refused? || a == Ended(false))
    && (a.Requested? ==> !f.finalSent && f.requests < r.maxTurns)
    && (a.Answered? ==> f.inFlight)
    && (a.Recovered? ==> !f.recovered)
    && (a.Registered? || a.Dispatched? ==> !f.finalSent)
    && (a == Ended(true) ==> f.published)
  }

  predicate ToolsAllow(r: Rules, t: Tools, a: Action) {
    && (NeedsRest(a) ==> t.pending == [])
    && match a
       case LeftActionOpen => t.open
       case Registered(_) => Clamp(t.registered + 1) <= r.maxCallsPerRun
       case Dispatched(id, _, now) =>
         && t.pending != [] && Last(t.pending) == id
         && now < r.actorDone
         && (t.open || !t.lateUsed || t.lateBatch)
       case ToolFailed(id) => t.pending != [] && Last(t.pending) == id
       case Committed(id, output) =>
         && t.pending != [] && t.pending[0] == id
         && t.outputBytes + |output| <= r.perRunBytes
       case _ => true
  }

  /** During a review the critic is asked at most once and first; the actor is asked once a
      phase, and not at all after the last one; tools run only for that one request. */
  predicate CandidateAllows(c: Candidate, a: Action) {
    match a
    case Requested(mode, _, _) =>
      && (mode.CriticRequest? ==> c.staged.Some? && !c.critic && !c.asked)
      && (mode.ActionRequest? && c.staged.Some? ==> !c.asked && !c.phase.Revalidation?)
    case Dispatched(_, _, _) => c.staged.Some? ==> c.asked
    case Recovered(_) => !c.ran
    case Staged(_) => c.staged.None? && c.phase.NotIssued?
    case ReviewMoved(phase) => PhaseRank(phase) > PhaseRank(c.phase) && c.staged.Some?
    case Published(text, fallback) => fallback ==> c.staged == Some(text) && !c.mutated
    case _ => true
  }

  /** Only a nonempty answer is staged or published directly, only its calls are registered, in
      order, and nothing more is asked before all of them are. */
  predicate TalkAllows(talk: Talk, a: Action) {
    && (a.Staged? || (a.Published? && !a.fallback) ==>
          talk.answer == Some(a.text) && a.text != [])
    && (a.Registered? ==> talk.calls != [] && talk.calls[0] == a.id)
    && (a.Requested? ==> talk.calls == [])
  }

  predicate Allowed(r: Rules, m: Monitor, a: Action) {
    && FlowAllows(r, m.flow, a) && ToolsAllow(r, m.tools, a)
    && CandidateAllows(m.candidate, a) && TalkAllows(m.talk, a)
  }

  function AdvanceFlow(f: Flow, a: Action): Flow {
    match a
    case Started => f.(started := true)
    case Refused(what) =>
      if what.EventRefused? then f.(failing := true) else f.(stuck := true)
    case Requested(mode, _, _) =>
      f.(requests := f.requests + 1, inFlight := true, finalSent := mode.FinalRequest?)
    case Answered(_, _) => f.(inFlight := false)
    case Recovered(_) => f.(recovered := true)
    case Published(_, _) => f.(published := true)
    case Ended(success) => f.(ended := Some(success))
    case _ => f
  }

  function AdvanceTools(t: Tools, a: Action): Tools {
    match a
    case Requested(_, _, _) => t.(lateBatch := false)
    case LeftActionOpen => t.(open := false)
    case Registered(id) => t.(registered := t.registered + 1, pending := t.pending + [id])
    case Dispatched(_, _, _) =>
      t.(lateUsed := t.lateUsed || !t.open, lateBatch := t.lateBatch || !t.open)
    case Committed(_, output) =>
      t.(pending := if t.pending == [] then [] else t.pending[1..],
         outputBytes := t.outputBytes + |output|)
    case _ => t
  }

  function AdvanceCandidate(c: Candidate, a: Action): Candidate {
    match a
    case Requested(mode, _, _) =>
      c.(critic := c.critic || mode.CriticRequest?,
         asked := c.asked || (mode.ActionRequest? && c.staged.Some?))
    case Dispatched(_, mutating, _) =>
      c.(mutated := c.mutated || (mutating && c.staged.Some?), ran := c.ran || c.staged.Some?)
    case Recovered(_) => c.(asked := false)
    case Staged(text) => Candidate(Some(text), false, Validation, false, false, false)
    case ReviewMoved(phase) => c.(phase := phase, asked := false, ran := false)
    case _ => c
  }

  /** The critic's request and advice are not part of the conversation; an answer and the
      committed outputs are; a checkpoint starts over. */
  function AdvanceTalk(talk: Talk, a: Action): Talk {
    match a
    case Requested(mode, history, _) =>
      talk.(known := if mode.CriticRequest? then talk.known else history, answer := None)
    case Answered(completed, output) =>
      if completed then
        Talk(talk.known + HistoryItems(output), FinalText(output), CallIds(Calls(output)))
      else talk.(answer := None, calls := [])
    case Recovered(after) => talk.(known := after)
    case Checkpointed => talk.(known := [])
    case Registered(_) => talk.(calls := if talk.calls == [] then [] else talk.calls[1..])
    case Committed(id, output) => talk.(known := talk.known + [FunctionCallOutput(id, output)])
    case _ => talk
  }

  function Advance(m: Monitor, a: Action): Monitor {
    Monitor(AdvanceFlow(m.flow, a), AdvanceTools(m.tools, a), AdvanceCandidate(m.candidate, a),
            AdvanceTalk(m.talk, a))
  }

  function Watch(t: Trace): Monitor {
    if t == [] then START else Advance(Watch(Front(t)), Last(t))
  }

  predicate Accepted(r: Rules, t: Trace) {
    t != [] ==> Accepted(r, Front(t)) && Allowed(r, Watch(Front(t)), Last(t))
  }

  // ---------- contents ----------

  /** The history grew by one user notice and was windowed again. */
  ghost predicate NoticeAdded(hash: Hashes, before: Items, after: Items) {
    exists text: Text, receipt: Receipt :: WindowedWith(hash, before, text, after, receipt)
  }

  predicate WindowedWith(hash: Hashes, before: Items, text: Text, after: Items, receipt: Receipt) {
    LivePolicy(hash, before + [User(text)]) == Ok((after, receipt))
  }

  /** What the run does not decide itself: the hashes, which turns the provider stream may yield,
      and what an answer is validated against. */
  datatype Outside = Outside(hash: Hashes, streams: CompletedTurn -> bool, limits: Limits)

  /** The stream yielded a turn with this output, and the turn passed validation. */
  ghost predicate Validated(o: Outside, response: seq<OutputItem>) {
    exists turn :: ValidatedAs(o, turn, response)
  }

  ghost predicate ValidatedAs(o: Outside, turn: CompletedTurn, response: seq<OutputItem>) {
    o.streams(turn) && turn.output == response && Authoritative(turn, o.limits)
  }

  /** A request carries a sendable history with its receipt; unless it is the critic's, the
      history continues the conversation so far; an answer is the output of a validated turn, or
      empty; and a recovery adds exactly one notice. */
  ghost predicate Fitting(o: Outside, known: Items, a: Action) {
    match a
    case Requested(mode, history, receipt) =>
      Sendable(o.hash, history, receipt) && (mode.CriticRequest? || Continues(known, history))
    case Answered(_, response) => response == [] || Validated(o, response)
    case Recovered(after) => NoticeAdded(o.hash, known, after)
    case _ => true
  }

  ghost predicate Sound(o: Outside, t: Trace) {
    forall i :: 0 <= i < |t| ==> Fitting(o, Watch(t[..i]).talk.known, t[i])
  }

  // ---------- steps ----------

  /** How a run extends its trace. */
  lemma {:induction false} Extend(r: Rules, t: Trace, a: Action)
    requires Accepted(r, t) && Allowed(r, Watch(t), a)
    ensures Accepted(r, t + [a]) && Watch(t + [a]) == Advance(Watch(t), a)
  {
    SnocParts(t, a);
  }

  lemma {:induction false} SoundExtends(o: Outside, t: Trace, a: Action)
    requires Sound(o, t) && Fitting(o, Watch(t).talk.known, a)
    ensures Sound(o, t + [a])
  {
    var longer := t + [a];
    assert longer[..|t|] == t;
    forall i | 0 <= i < |longer| ensures Fitting(o, Watch(longer[..i]).talk.known, longer[i]) {
      if i < |t| {
        assert longer[..i] == t[..i];
      }
    }
  }

  /** Every step of an accepted trace was allowed where it was taken. */
  lemma {:induction false} AllowedAt(r: Rules, t: Trace, i: nat)
    requires Accepted(r, t) && i < |t|
    ensures Accepted(r, t[..i]) && Allowed(r, Watch(t[..i]), t[i])
    ensures Watch(t[..i + 1]) == Advance(Watch(t[..i]), t[i])
  {
    TakeNext(t, i);
    if i == |t| - 1 {
      assert t[..i] == Front(t);
    } else {
      AllowedAt(r, Front(t), i);
      assert Front(t)[..i] == t[..i];
    }
  }

  // ---------- what never goes back ----------

  /** `later` may follow `earlier` in one run. */
  predicate Onward(earlier: Monitor, later: Monitor) {
    && (earlier.flow.finalSent ==> later.flow.finalSent)
    && (earlier.flow.recovered ==> later.flow.recovered)
    && (!earlier.tools.open ==> !later.tools.open)
    && (earlier.tools.lateUsed ==> later.tools.lateUsed)
    && (earlier.flow.published ==> later.flow.published)
    && (earlier.flow.ended.Some? ==> later.flow.ended.Some?)
    && (earlier.flow.started ==> later.flow.started)
    && PhaseRank(earlier.candidate.phase) <= PhaseRank(later.candidate.phase)
  }

  lemma {:induction false} StepOnward(r: Rules, start: Monitor, m: Monitor, a: Action)
    requires Onward(start, m) && Allowed(r, m, a)
    ensures Onward(start, Advance(m, a))
  {
  }

  /** `w` gives the monitor before each action. */
  ghost predicate StepsAt(r: Rules, t: Trace, w: nat -> Monitor, k: nat)
    requires k < |t|
  {
    Allowed(r, w(k), t[k]) && w(k + 1) == Advance(w(k), t[k])
  }

  ghost predicate Watched(r: Rules, t: Trace, w: nat -> Monitor) {
    forall k :: 0 <= k < |t| ==> StepsAt(r, t, w, k)
  }

  function WatchOf(t: Trace): nat -> Monitor {
    (k: nat) => if k <= |t| then Watch(t[..k]) else START
  }

  lemma {:induction false} AcceptedWatched(r: Rules, t: Trace)
    requires Accepted(r, t)
    ensures Watched(r, t, WatchOf(t))
  {
    forall k | 0 <= k < |t| ensures StepsAt(r, t, WatchOf(t), k) {
      AllowedAt(r, t, k);
    }
  }

  lemma {:induction false} OnwardAlong(r: Rules, t: Trace, w: nat -> Monitor, i: nat, j: nat)
    requires Watched(r, t, w) && i <= j <= |t|
    ensures Onward(w(i), w(j))
    decreases j - i
  {
    if i < j {
      OnwardAlong(r, t, w, i, j - 1);
      assert StepsAt(r, t, w, j - 1);
      StepOnward(r, w(i), w(j - 1), t[j - 1]);
    }
  }

  lemma {:induction false} OnwardBetween(r: Rules, t: Trace, i: nat, j: nat)
    requires Accepted(r, t) && i <= j <= |t|
    ensures Onward(Watch(t[..i]), Watch(t[..j]))
  {
    AcceptedWatched(r, t);
    OnwardAlong(r, t, WatchOf(t), i, j);
  }

  /** After the final-only request no request of any kind follows. */
  lemma {:induction false} FinalRequestIsLast(r: Rules, t: Trace, i: nat, j: nat)
    requires Accepted(r, t) && i < j < |t|
    requires t[i].Requested? && t[i].mode.FinalRequest?
    ensures !t[j].Requested?
  {
    AllowedAt(r, t, i);
    OnwardBetween(r, t, i + 1, j);
    AllowedAt(r, t, j);
  }

  /** The terminal event is the last. */
  lemma {:induction false} EndedIsLast(r: Rules, t: Trace, i: nat)
    requires Accepted(r, t) && i < |t| && t[i].Ended?
    ensures i == |t| - 1
  {
    AllowedAt(r, t, i);
    if i < |t| - 1 {
      NotEndedBefore(r, t, i + 1);
    }
  }

  lemma {:induction false} NotEndedBefore(r: Rules, t: Trace, i: nat)
    requires Accepted(r, t) && i < |t|
    ensures Watch(t[..i]).flow.ended.None?
  {
    AllowedAt(r, t, i);
  }

  /** Nothing follows an exit that failed. */
  lemma {:induction false} StuckIsLast(r: Rules, t: Trace, i: nat)
    requires Accepted(r, t) && i < |t| && t[i].Refused? && !t[i].what.EventRefused?
    ensures i == |t| - 1
  {
    AllowedAt(r, t, i);
    if i < |t| - 1 {
      AllowedAt(r, t, i + 1);
    }
  }

  /** A finished trace: the terminal event, or an append whose refusal ends the run at once. */
  predicate Over(t: Trace) {
    t != [] && (Last(t).Ended? || (Last(t).Refused? && !Last(t).what.EventRefused?))
  }

  /** The first event or a batch's completion was refused. */
  predicate CutShort(t: Trace) {
    t != [] && (Last(t) == Refused(StartRefused) || Last(t) == Refused(CommitRefused))
  }

  /** A trace is finished exactly when its monitor has ended or is stuck. */
  lemma {:induction false} OverExactly(r: Rules, t: Trace)
    requires Accepted(r, t)
    ensures Over(t) <==> Watch(t).flow.ended.Some? || Watch(t).flow.stuck
    ensures Over(t) ==>
              && (Last(t).Ended? <==> Watch(t).flow.ended.Some?)
              && (Last(t).Ended? ==> Watch(t).flow.ended == Some(Last(t).success))
  {
  }

  /** Call-limit recovery happens at most once. */
  lemma {:induction false} RecoveredOnce(r: Rules, t: Trace, i: nat, j: nat)
    requires Accepted(r, t) && i < j < |t| && t[i].Recovered?
    ensures !t[j].Recovered?
  {
    AllowedAt(r, t, i);
    OnwardBetween(r, t, i + 1, j);
    AllowedAt(r, t, j);
  }

  /** At most one answer is published. */
  lemma {:induction false} PublishedOnce(r: Rules, t: Trace, i: nat, j: nat)
    requires Accepted(r, t) && i < j < |t| && t[i].Published?
    ensures !t[j].Published?
  {
    AllowedAt(r, t, i);
    OnwardBetween(r, t, i + 1, j);
    AllowedAt(r, t, j);
  }

  /** Review phases only move forward. */
  lemma {:induction false} ReviewMovesForward(r: Rules, t: Trace, i: nat, j: nat)
    requires Accepted(r, t) && i < j < |t| && t[i].ReviewMoved? && t[j].ReviewMoved?
    ensures PhaseRank(t[i].phase) < PhaseRank(t[j].phase)
  {
    AllowedAt(r, t, i);
    OnwardBetween(r, t, i + 1, j);
    AllowedAt(r, t, j);
  }

  // ---------- the last batch ----------

  /** The one late batch is over. */
  predicate LateOver(t: Tools) {
    !t.open && t.lateUsed && !t.lateBatch
  }

  lemma {:induction false} LateOverStep(r: Rules, t: Tools, a: Action)
    requires LateOver(t) && ToolsAllow(r, t, a)
    ensures LateOver(AdvanceTools(t, a)) && !a.Dispatched?
  {
  }

  lemma {:induction false} LateOverAlong(r: Rules, t: Trace, w: nat -> Monitor, i: nat, j: nat)
    requires Watched(r, t, w) && i <= j <= |t| && LateOver(w(i).tools)
    ensures LateOver(w(j).tools)
    ensures j < |t| ==> !t[j].Dispatched?
    decreases j - i
  {
    if i < j {
      LateOverAlong(r, t, w, i, j - 1);
      assert StepsAt(r, t, w, j - 1);
      LateOverStep(r, w(j - 1).tools, t[j - 1]);
    }
    if j < |t| {
      assert StepsAt(r, t, w, j);
      LateOverStep(r, w(j).tools, t[j]);
    }
  }

  /** After the action phase was left, a dispatch uses up the late batch. */
  lemma {:induction false} LateDispatch(
      r: Rules, t: Trace, w: nat -> Monitor, left: nat, i: nat)
    requires Watched(r, t, w) && left < i < |t| && t[left].LeftActionOpen? && t[i].Dispatched?
    ensures !w(i + 1).tools.open && w(i + 1).tools.lateUsed
  {
    assert StepsAt(r, t, w, left);
    OnwardAlong(r, t, w, left + 1, i);
    assert StepsAt(r, t, w, i);
  }

  lemma {:induction false} RequestEndsBatch(
      r: Rules, t: Trace, w: nat -> Monitor, i: nat, k: nat)
    requires Watched(r, t, w) && i <= k < |t| && t[k].Requested?
    requires !w(i).tools.open && w(i).tools.lateUsed
    ensures LateOver(w(k + 1).tools)
  {
    OnwardAlong(r, t, w, i, k);
    assert StepsAt(r, t, w, k);
  }

  /** Once the action phase has closed, tools are dispatched in at most one batch: no request
      separates two dispatches. */
  lemma {:induction false} OneLateBatch(r: Rules, t: Trace, left: nat, i: nat, k: nat, j: nat)
    requires Accepted(r, t) && left < i < k < j < |t|
    requires t[left].LeftActionOpen? && t[i].Dispatched? && t[j].Dispatched?
    ensures !t[k].Requested?
  {
    AcceptedWatched(r, t);
    LateDispatch(r, t, WatchOf(t), left, i);
    if t[k].Requested? {
      RequestEndsBatch(r, t, WatchOf(t), i + 1, k);
      LateOverAlong(r, t, WatchOf(t), k + 1, j);
    }
  }

  // ---------- fallbacks ----------

  /** A candidate staged and not yet outdated: no mutating dispatch came after it. */
  ghost predicate StagedAt(t: Trace, j: nat, text: Text)
    requires j < |t|
  {
    && t[j] == Staged(text)
    && forall l :: j < l < |t| && t[l].Dispatched? ==> !t[l].mutating
  }

  lemma {:induction false} StagedStep(c: Candidate, a: Action)
    requires !a.Staged?
    requires var next := AdvanceCandidate(c, a); next.staged.Some? && !next.mutated
    ensures c.staged == AdvanceCandidate(c, a).staged && !c.mutated
    ensures a.Dispatched? ==> !a.mutating
  {
  }

  lemma {:induction false} StagedWhere(r: Rules, t: Trace) returns (j: nat)
    requires Accepted(r, t) && Watch(t).candidate.staged.Some? && !Watch(t).candidate.mutated
    ensures j < |t| && StagedAt(t, j, Watch(t).candidate.staged.value)
  {
    if Last(t).Staged? {
      j := |t| - 1;
    } else {
      StagedStep(Watch(Front(t)).candidate, Last(t));
      j := StagedWhere(r, Front(t));
      StagedExtends(t, j, Watch(t).candidate.staged.value);
    }
  }

  lemma {:induction false} StagedExtends(t: Trace, j: nat, text: Text)
    requires t != [] && j < |t| - 1 && StagedAt(Front(t), j, text)
    requires Last(t).Dispatched? ==> !Last(t).mutating
    ensures StagedAt(t, j, text)
  {
    assert forall l :: 0 <= l < |t| - 1 ==> Front(t)[l] == t[l];
  }

  /** A staged answer is published as a fallback only if no mutating tool call was dispatched
      since it was staged. */
  lemma {:induction false} FallbackIsSafe(r: Rules, t: Trace, k: nat) returns (j: nat)
    requires Accepted(r, t) && k < |t| && t[k].Published? && t[k].fallback
    ensures j < k && t[j] == Staged(t[k].text)
    ensures forall l :: j < l < k && t[l].Dispatched? ==> !t[l].mutating
  {
    AllowedAt(r, t, k);
    j := StagedWhere(r, t[..k]);
    assert forall l :: 0 <= l < k ==> t[..k][l] == t[l];
  }

  // ---------- counting ----------

  function RequestCount(t: Trace): nat {
    if t == [] then 0 else RequestCount(Front(t)) + if Last(t).Requested? then 1 else 0
  }

  function AnswerCount(t: Trace): nat {
    if t == [] then 0 else AnswerCount(Front(t)) + if Last(t).Answered? then 1 else 0
  }

  /** The registered call ids, in order. */
  function RegisteredIds(t: Trace): seq<Text> {
    if t == [] then []
    else if Last(t).Registered? then RegisteredIds(Front(t)) + [Last(t).id]
    else RegisteredIds(Front(t))
  }

  /** The ids with a `tool.completed` event, in order. */
  function CommittedIds(t: Trace): seq<Text> {
    if t == [] then []
    else if Last(t).Committed? then CommittedIds(Front(t)) + [Last(t).id]
    else CommittedIds(Front(t))
  }

  function CommittedBytes(t: Trace): nat {
    if t == [] then 0 else CommittedBytes(Front(t)) + if Last(t).Committed? then |Last(t).output| else 0
  }

  /** The monitor's counters are the trace's. */
  predicate Counted(r: Rules, m: Monitor, requests: nat, answers: nat, bytes: nat, ids: nat) {
    && requests == m.flow.requests <= r.maxTurns
    && answers + (if m.flow.inFlight then 1 else 0) == requests
    && bytes == m.tools.outputBytes <= r.perRunBytes
    && ids == m.tools.registered
    && (ids > 0 ==> Clamp(ids) <= r.maxCallsPerRun)
  }

  lemma {:induction false} CountedStep(
      r: Rules, m: Monitor, a: Action, requests: nat, answers: nat, bytes: nat, ids: nat)
    requires Counted(r, m, requests, answers, bytes, ids) && Allowed(r, m, a)
    ensures Counted(r, Advance(m, a), requests + (if a.Requested? then 1 else 0),
                    answers + (if a.Answered? then 1 else 0),
                    bytes + (if a.Committed? then |a.output| else 0),
                    ids + (if a.Registered? then 1 else 0))
  {
  }

  /** Requests stay within the turn limit, calls within the run's call limit, and committed
      output within the run's byte cap. */
  lemma {:induction false} CountsTally(r: Rules, t: Trace)
    requires Accepted(r, t)
    ensures Counted(r, Watch(t), RequestCount(t), AnswerCount(t), CommittedBytes(t),
                    |RegisteredIds(t)|)
  {
    if t != [] {
      CountsTally(r, Front(t));
      CountedStep(r, Watch(Front(t)), Last(t), RequestCount(Front(t)), AnswerCount(Front(t)),
                  CommittedBytes(Front(t)), |RegisteredIds(Front(t))|);
    }
  }

  lemma {:induction false} ShiftHead<T>(a: seq<T>, b: seq<T>)
    requires b != []
    ensures a + b == a + [b[0]] + b[1..]
  {
  }

  /** The registered calls are the completed ones followed by the pending ones. */
  lemma {:induction false} IdsTally(r: Rules, t: Trace)
    requires Accepted(r, t)
    ensures RegisteredIds(t) == CommittedIds(t) + Watch(t).tools.pending
  {
    if t != [] {
      IdsTally(r, Front(t));
      IdsStep(r, Watch(Front(t)).tools, Last(t), CommittedIds(Front(t)));
    }
  }

  lemma {:induction false} IdsStep(r: Rules, tools: Tools, a: Action, committed: seq<Text>)
    requires ToolsAllow(r, tools, a)
    ensures var before := committed + tools.pending;
            (if a.Registered? then before + [a.id] else before)
            == (if a.Committed? then committed + [a.id] else committed)
               + AdvanceTools(tools, a).pending
  {
    match a
    case Registered(id) => Assoc(committed, tools.pending, [id]);
    case Committed(id, _) => ShiftHead(committed, tools.pending);
    case _ =>
  }

  /** At every request the conversation is settled: the history and its receipt pass the
      preflight, every earlier request was answered, and every registered call has its
      completion, in call order. */
  lemma {:induction false} EveryRequestIsSettled(o: Outside, r: Rules, t: Trace, i: nat)
    requires Accepted(r, t) && Sound(o, t) && i < |t| && t[i].Requested?
    ensures Sendable(o.hash, t[i].history, t[i].receipt)
    ensures UniqueIds(t[i].history) && CallsAnswered(t[i].history)
    ensures AnswerCount(t[..i]) == RequestCount(t[..i]) < r.maxTurns
    ensures RegisteredIds(t[..i]) == CommittedIds(t[..i])
  {
    AllowedAt(r, t, i);
    CountsTally(r, t[..i]);
    IdsTally(r, t[..i]);
    EmptyConcat(CommittedIds(t[..i]));
    assert Fitting(o, Watch(t[..i]).talk.known, t[i]);
    WellFormedUnique(o.hash, t[i].history);
  }

  /** A successful run leaves nothing open: each request was answered once, each registered
      call completed once, in order, and an answer was published before the terminal event. */
  lemma {:induction false} SuccessIsSettled(r: Rules, t: Trace)
    requires Accepted(r, t) && t != [] && Last(t) == Ended(true)
    ensures AnswerCount(t) == RequestCount(t)
    ensures RegisteredIds(t) == CommittedIds(t)
    ensures Watch(Front(t)).flow.published
  {
    CountsTally(r, t);
    IdsTally(r, t);
    EmptyConcat(CommittedIds(t));
  }

  /** Every dispatch is of the call just registered, strictly before the actor cutoff. */
  lemma {:induction false} DispatchOnTime(r: Rules, t: Trace, i: nat)
    requires Accepted(r, t) && i < |t| && t[i].Dispatched?
    ensures t[i].now < r.actorDone
    ensures RegisteredIds(t[..i]) != [] && Last(RegisteredIds(t[..i])) == t[i].id
  {
    AllowedAt(r, t, i);
    IdsTally(r, t[..i]);
  }

  /** Call-limit recovery leaves the conversation as it was, media aside, with one user notice
      behind it, and adds no call. */
  lemma {:induction false} RecoveryAddsNoCalls(o: Outside, t: Trace, i: nat)
    returns (text: Text, k: nat)
    requires Sound(o, t) && i < |t| && t[i].Recovered?
    ensures t[i].after == EvictOldest(Watch(t[..i]).talk.known, k) + [User(text)]
    ensures CallNames(t[i].after) == CallNames(Watch(t[..i]).talk.known)
  {
    var known := Watch(t[..i]).talk.known;
    assert Fitting(o, known, t[i]);
    var notice, receipt :| WindowedWith(o.hash, known, notice, t[i].after, receipt);
    text := notice;
    k := NoticeKeepsCalls(o.hash, known, text);
  }

  lemma {:induction false} NoticeKeepsCalls(hash: Hashes, h: Items, text: Text) returns (k: nat)
    requires LivePolicy(hash, h + [User(text)]).Ok?
    ensures var after := LivePolicy(hash, h + [User(text)]).value.0;
            after == EvictOldest(h, k) + [User(text)] && CallNames(after) == CallNames(h)
  {
    var longer := h + [User(text)];
    k := DropCount(Sizes(longer), READ_FILE_MEDIA_MAX_HISTORY_ITEMS,
                   READ_FILE_MEDIA_MAX_HISTORY_BYTES);
    SnocParts(h, User(text));
    EvictSnoc(longer, k);
    EvictionKeepsBindings(longer, k);
    FrontLast(EvictOldest(longer, k));
  }

  // ---------- the conversation ----------

  /** Every request to the actor carries the whole conversation since the start or the last
      checkpoint: each earlier item at its place, answers and committed outputs included. */
  lemma {:induction false} NothingSaidIsLost(o: Outside, t: Trace, i: nat, k: nat)
    requires Sound(o, t) && i < |t| && t[i].Requested? && !t[i].mode.CriticRequest?
    requires k < |Watch(t[..i]).talk.known|
    ensures k < |t[i].history|
    ensures var said := Watch(t[..i]).talk.known[k];
            || t[i].history[k] == said
            || (Evictable(said)
                && t[i].history[k] == MediaHistoryEviction(LedgerOf(said.attachment)))
  {
    assert Fitting(o, Watch(t[..i]).talk.known, t[i]);
    ContinuesKeeps(Watch(t[..i]).talk.known, t[i].history, k);
  }

  /** The monitor's last answer is the text of the last completed response, with no request
      since. */
  ghost predicate AnsweredAt(t: Trace, j: nat, text: Text)
    requires j < |t|
  {
    && t[j].Answered? && t[j].completed && FinalText(t[j].response) == Some(text)
    && forall l :: j < l < |t| ==> !t[l].Requested?
  }

  lemma {:induction false} AnsweredWhere(t: Trace) returns (j: nat)
    requires Watch(t).talk.answer.Some?
    ensures j < |t| && AnsweredAt(t, j, Watch(t).talk.answer.value)
  {
    if Last(t).Answered? {
      j := |t| - 1;
    } else {
      AnswerStays(Watch(Front(t)).talk, Last(t));
      j := AnsweredWhere(Front(t));
      AnsweredExtends(t, j, Watch(t).talk.answer.value);
    }
  }

  lemma {:induction false} AnswerStays(talk: Talk, a: Action)
    requires !a.Answered? && AdvanceTalk(talk, a).answer.Some?
    ensures talk.answer == AdvanceTalk(talk, a).answer && !a.Requested?
  {
  }

  lemma {:induction false} AnsweredExtends(t: Trace, j: nat, text: Text)
    requires t != [] && j < |t| - 1 && AnsweredAt(Front(t), j, text) && !Last(t).Requested?
    ensures AnsweredAt(t, j, text)
  {
    assert forall l :: 0 <= l < |t| - 1 ==> Front(t)[l] == t[l];
  }

  /** A text published directly, or staged for review, is the final text of the response just
      received. */
  lemma {:induction false} PublishedIsTheAnswer(r: Rules, t: Trace, k: nat) returns (j: nat)
    requires Accepted(r, t) && k < |t|
    requires t[k].Staged? || (t[k].Published? && !t[k].fallback)
    ensures t[k].text != [] && j < k && t[j].Answered? && t[j].completed
    ensures FinalText(t[j].response) == Some(t[k].text)
    ensures forall l :: j < l < k ==> !t[l].Requested?
  {
    AllowedAt(r, t, k);
    j := AnsweredWhere(t[..k]);
    assert forall l :: 0 <= l < k ==> t[..k][l] == t[l];
  }

  /** The calls of an answer are the ones registered since, followed by those still open. */
  ghost predicate CallsSince(t: Trace, j: nat, k: nat)
    requires j < k <= |t| && t[j].Answered?
  {
    && CallIds(Calls(t[j].response)) == RegisteredIds(t[j + 1..k]) + Watch(t[..k]).talk.calls
    && !Watch(t[..k]).flow.inFlight
  }

  lemma {:induction false} RegisteredNext(t: Trace, j: nat, k: nat)
    requires j < k < |t|
    ensures RegisteredIds(t[j + 1..k + 1])
         == if t[k].Registered? then RegisteredIds(t[j + 1..k]) + [t[k].id]
            else RegisteredIds(t[j + 1..k])
  {
    assert t[j + 1..k + 1] == t[j + 1..k] + [t[k]];
    SnocParts(t[j + 1..k], t[k]);
  }

  /** `ids` gives the calls registered since the answer at `j`, before each action. */
  ghost predicate RegistersAt(t: Trace, ids: nat -> seq<Text>, k: nat)
    requires k < |t|
  {
    ids(k + 1) == if t[k].Registered? then ids(k) + [t[k].id] else ids(k)
  }

  ghost predicate RegisteredAlong(t: Trace, j: nat, ids: nat -> seq<Text>) {
    ids(j + 1) == [] && forall k :: j < k < |t| ==> RegistersAt(t, ids, k)
  }

  function RegisteredOf(t: Trace, j: nat): nat -> seq<Text> {
    (k: nat) => if j < k <= |t| then RegisteredIds(t[j + 1..k]) else []
  }

  lemma {:induction false} RegisteredHolds(t: Trace, j: nat)
    requires j < |t|
    ensures RegisteredAlong(t, j, RegisteredOf(t, j))
  {
    assert t[j + 1..j + 1] == [];
    forall k | j < k < |t| ensures RegistersAt(t, RegisteredOf(t, j), k) {
      RegisteredNext(t, j, k);
    }
  }

  lemma {:induction false} AnswerOpensCalls(r: Rules, t: Trace, w: nat -> Monitor, j: nat)
    requires Watched(r, t, w) && j < |t| && t[j].Answered? && t[j].completed
    ensures w(j + 1).talk.calls == CallIds(Calls(t[j].response)) && !w(j + 1).flow.inFlight
  {
    assert StepsAt(r, t, w, j);
  }

  lemma {:induction false} CallsAlong(
      r: Rules, t: Trace, w: nat -> Monitor, ids: nat -> seq<Text>, calls: seq<Text>, j: nat, k: nat)
    requires Watched(r, t, w) && RegisteredAlong(t, j, ids) && j < k <= |t|
    requires forall l :: j < l < k ==> !t[l].Requested?
    requires w(j + 1).talk.calls == calls && !w(j + 1).flow.inFlight
    ensures calls == ids(k) + w(k).talk.calls && !w(k).flow.inFlight
    decreases k
  {
    if k == j + 1 {
      EmptyConcat(calls);
    } else {
      CallsAlong(r, t, w, ids, calls, j, k - 1);
      assert StepsAt(r, t, w, k - 1) && RegistersAt(t, ids, k - 1);
      CallsStep(w(k - 1).talk, t[k - 1], ids(k - 1));
    }
  }

  lemma {:induction false} CallsSinceAnswer(r: Rules, t: Trace, j: nat, k: nat)
    requires Accepted(r, t) && j < k <= |t| && t[j].Answered? && t[j].completed
    requires forall l :: j < l < k ==> !t[l].Requested?
    ensures CallsSince(t, j, k)
  {
    var calls := CallIds(Calls(t[j].response));
    AcceptedWatched(r, t);
    RegisteredHolds(t, j);
    AnswerOpensCalls(r, t, WatchOf(t), j);
    CallsAlong(r, t, WatchOf(t), RegisteredOf(t, j), calls, j, k);
  }

  /** From an answer on the calls registered are those of the answer, in its order, and at the
      next request they all are: none is invented, repeated or skipped. */
  lemma {:induction false} CallsInOrder(r: Rules, t: Trace, j: nat, k: nat)
    requires Accepted(r, t) && j < k < |t| && t[j].Answered? && t[j].completed
    requires forall l :: j < l < k ==> !t[l].Requested?
    ensures RegisteredIds(t[j + 1..k]) <= CallIds(Calls(t[j].response))
    ensures t[k].Requested? ==> RegisteredIds(t[j + 1..k]) == CallIds(Calls(t[j].response))
  {
    CallsSinceAnswer(r, t, j, k);
    AllowedAt(r, t, k);
    EmptyConcat(RegisteredIds(t[j + 1..k]));
  }

  lemma {:induction false} CallsStep(talk: Talk, a: Action, registered: seq<Text>)
    requires TalkAllows(talk, a) && !a.Requested? && !a.Answered?
    ensures registered + talk.calls
         == (if a.Registered? then registered + [a.id] else registered)
            + AdvanceTalk(talk, a).calls
  {
    if a.Registered? {
      ShiftHead(registered, talk.calls);
    }
  }

  lemma {:induction false} OpenCallsWhere(r: Rules, t: Trace) returns (j: nat)
    requires Accepted(r, t) && Watch(t).talk.calls != []
    ensures j < |t| && t[j].Answered? && t[j].completed
    ensures forall l :: j < l < |t| ==> !t[l].Requested?
  {
    if Last(t).Answered? {
      j := |t| - 1;
    } else {
      j := OpenCallsWhere(r, Front(t));
    }
  }

  /** Every registered call, and so every tool that runs, is a call of an accepted answer, and the
      first of its calls not yet registered. */
  lemma {:induction false} RegisteredIsAnswered(r: Rules, t: Trace, k: nat) returns (j: nat, n: nat)
    requires Accepted(r, t) && k < |t| && t[k].Registered?
    ensures j < k && t[j].Answered? && t[j].completed
    ensures n == |RegisteredIds(t[j + 1..k])| < |Calls(t[j].response)|
    ensures Calls(t[j].response)[n].callId == t[k].id
  {
    AllowedAt(r, t, k);
    j := OpenCallsWhere(r, t[..k]);
    assert forall l :: 0 <= l < k ==> t[..k][l] == t[l];
    n := |RegisteredIds(t[j + 1..k])|;
    CallsSinceAnswer(r, t, j, k);
    assert CallIds(Calls(t[j].response))[n] == Watch(t[..k]).talk.calls[0];
  }

  /** What validation says about each call of a response: a known tool, arguments that parse to an
      object within the limit, an id no other call of the response has. */
  ghost predicate ValidAmong(calls: seq<OutputItem>, n: nat, l: Limits)
    requires n < |calls| && forall i :: 0 <= i < |calls| ==> calls[i].Call?
  {
    && ValidCall(calls[n], l)
    && Clamp(|calls|) <= l.maxCalls
    && forall i :: 0 <= i < |calls| && i != n ==> calls[i].callId != calls[n].callId
  }

  /** Every registered call, and so every tool that runs, was validated. */
  lemma {:induction false} RegisteredIsValid(o: Outside, r: Rules, t: Trace, k: nat)
    returns (j: nat, n: nat)
    requires Accepted(r, t) && Sound(o, t) && k < |t| && t[k].Registered?
    ensures j < k && t[j].Answered? && t[j].completed && n < |Calls(t[j].response)|
    ensures n == |RegisteredIds(t[j + 1..k])| && Calls(t[j].response)[n].callId == t[k].id
    ensures Validated(o, t[j].response) && ValidAmong(Calls(t[j].response), n, o.limits)
  {
    j, n := RegisteredIsAnswered(r, t, k);
    AnswerIsValid(o, t, j);
    ValidatedCalls(o, t[j].response, n);
  }

  lemma {:induction false} AnswerIsValid(o: Outside, t: Trace, j: nat)
    requires Sound(o, t) && j < |t| && t[j].Answered? && t[j].response != []
    ensures Validated(o, t[j].response)
  {
    assert Fitting(o, Watch(t[..j]).talk.known, t[j]);
  }

  lemma {:induction false} ValidatedCalls(o: Outside, response: seq<OutputItem>, n: nat)
    requires Validated(o, response) && n < |Calls(response)|
    ensures ValidAmong(Calls(response), n, o.limits)
  {
    var turn :| ValidatedAs(o, turn, response);
    var calls := Calls(response);
    assert ValidCalls(calls, o.limits);
    forall i | 0 <= i < |calls| && i != n ensures calls[i].callId != calls[n].callId {
      if i < n {
        assert calls[i].callId != calls[n].callId;
      } else {
        assert calls[n].callId != calls[i].callId;
      }
    }
  }

  // ---------- how long a review gets ----------

  /** Requests that may still be made once an answer is staged: the critic's, one in each phase
      left, one more after a recovery, and the final one. */
  function RequestsLeft(m: Monitor): nat {
    (if m.candidate.critic then 0 else 1)
    + SatSub(4 - PhaseRank(m.candidate.phase), if m.candidate.asked then 1 else 0)
    + (if m.flow.recovered then 0 else 1)
    + (if m.flow.finalSent then 0 else 1)
  }

  /** What a review keeps: the actor is not asked after the last phase, and tools run only for
      the request of the phase. */
  predicate Reviewing(m: Monitor) {
    && m.candidate.staged.Some?
    && (m.candidate.asked ==> !m.candidate.phase.Revalidation?)
    && (m.candidate.ran ==> m.candidate.asked)
  }

  lemma {:induction false} ReviewStepAllowed(r: Rules, m: Monitor, a: Action)
    requires Reviewing(m) && Allowed(r, m, a)
    ensures Reviewing(Advance(m, a))
    ensures RequestsLeft(Advance(m, a)) + (if a.Requested? then 1 else 0) <= RequestsLeft(m)
  {
  }

  lemma {:induction false} ReviewAlong(r: Rules, t: Trace, w: nat -> Monitor, j: nat, k: nat)
    requires Watched(r, t, w) && j < k <= |t| && t[j].Staged?
    ensures Reviewing(w(k))
    ensures w(k).flow.requests + RequestsLeft(w(k)) <= w(j).flow.requests + RequestsLeft(w(j + 1))
    decreases k
  {
    assert StepsAt(r, t, w, k - 1);
    if k - 1 > j {
      ReviewAlong(r, t, w, j, k - 1);
      ReviewStepAllowed(r, w(k - 1), t[k - 1]);
    }
  }

  /** Once an answer is staged for review, at most five more requests are made, or six if a
      call-limit recovery is still possible: critic, validation, correction, revalidation and the
      final one. */
  lemma {:induction false} ReviewRequestsBounded(r: Rules, t: Trace, j: nat)
    requires Accepted(r, t) && j < |t| && t[j].Staged?
    ensures RequestCount(t)
         <= RequestCount(t[..j]) + 5 + (if Watch(t[..j]).flow.recovered then 0 else 1)
  {
    ReviewRequests(r, t, j);
    StagedStarts(r, t, j);
    CountsTally(r, t);
    AllowedAt(r, t, j);
    CountsTally(r, t[..j]);
  }

  lemma {:induction false} ReviewRequests(r: Rules, t: Trace, j: nat)
    requires Accepted(r, t) && j < |t| && t[j].Staged?
    ensures Watch(t).flow.requests
         <= Watch(t[..j]).flow.requests + RequestsLeft(Watch(t[..j + 1]))
  {
    AcceptedWatched(r, t);
    ReviewAlong(r, t, WatchOf(t), j, |t|);
    TakeAll(t);
  }

  lemma {:induction false} StagedStarts(r: Rules, t: Trace, j: nat)
    requires Accepted(r, t) && j < |t| && t[j].Staged?
    ensures RequestsLeft(Watch(t[..j + 1]))
         <= 5 + (if Watch(t[..j]).flow.recovered then 0 else 1)
  {
    AllowedAt(r, t, j);
  }

  /** A tool was dispatched since the last request. */
  predicate Dispatching(t: Trace) {
    t != [] && !Last(t).Requested? && (Last(t).Dispatched? || Dispatching(Front(t)))
  }

  /** Batches in which at least one tool was dispatched. */
  function BatchCount(t: Trace): nat {
    if t == [] then 0
    else BatchCount(Front(t)) + if Last(t).Dispatched? && !Dispatching(Front(t)) then 1 else 0
  }

  function BatchesLeft(c: Candidate): nat {
    SatSub(4 - PhaseRank(c.phase), if c.ran then 1 else 0)
  }

  lemma {:induction false} BatchStep(r: Rules, m: Monitor, a: Action, dispatching: bool)
    requires Reviewing(m) && Allowed(r, m, a)
    requires m.candidate.ran ==> dispatching || m.flow.finalSent
    ensures var next := Advance(m, a);
            && (next.candidate.ran ==>
                  || next.flow.finalSent
                  || (!a.Requested? && (a.Dispatched? || dispatching)))
            && BatchesLeft(next.candidate) + (if a.Dispatched? && !dispatching then 1 else 0)
               <= BatchesLeft(m.candidate)
  {
  }

  /** `d` and `n` give, before each action, whether a batch is being dispatched and the number of
      batches so far. */
  ghost predicate CountsAt(t: Trace, d: nat -> bool, n: nat -> nat, k: nat)
    requires k < |t|
  {
    && n(k + 1) == n(k) + (if t[k].Dispatched? && !d(k) then 1 else 0)
    && (d(k + 1) <==> !t[k].Requested? && (t[k].Dispatched? || d(k)))
  }

  ghost predicate BatchesCounted(t: Trace, d: nat -> bool, n: nat -> nat) {
    forall k :: 0 <= k < |t| ==> CountsAt(t, d, n, k)
  }

  function DispatchingOf(t: Trace): nat -> bool {
    (k: nat) => k <= |t| && Dispatching(t[..k])
  }

  function BatchCountOf(t: Trace): nat -> nat {
    (k: nat) => if k <= |t| then BatchCount(t[..k]) else 0
  }

  lemma {:induction false} CountsHold(t: Trace)
    ensures BatchesCounted(t, DispatchingOf(t), BatchCountOf(t))
  {
    forall k | 0 <= k < |t| ensures CountsAt(t, DispatchingOf(t), BatchCountOf(t), k) {
      TakeNext(t, k);
    }
  }

  lemma {:induction false} BatchAlong(
      r: Rules, t: Trace, w: nat -> Monitor, d: nat -> bool, n: nat -> nat, j: nat, k: nat)
    requires Watched(r, t, w) && BatchesCounted(t, d, n) && j < k <= |t| && t[j].Staged?
    ensures w(k).candidate.ran ==> d(k) || w(k).flow.finalSent
    ensures n(k) + BatchesLeft(w(k).candidate) <= n(j) + 3
    decreases k
  {
    assert StepsAt(r, t, w, k - 1) && CountsAt(t, d, n, k - 1);
    if k - 1 > j {
      BatchAlong(r, t, w, d, n, j, k - 1);
      ReviewAlong(r, t, w, j, k - 1);
      BatchStep(r, w(k - 1), t[k - 1], d(k - 1));
    }
  }

  /** Once an answer is staged for review, tools are dispatched in at most three batches. */
  lemma {:induction false} ReviewBatchesBounded(r: Rules, t: Trace, j: nat)
    requires Accepted(r, t) && j < |t| && t[j].Staged?
    ensures BatchCount(t) <= BatchCount(t[..j]) + 3
  {
    AcceptedWatched(r, t);
    CountsHold(t);
    BatchAlong(r, t, WatchOf(t), DispatchingOf(t), BatchCountOf(t), j, |t|);
    TakeAll(t);
  }
}
