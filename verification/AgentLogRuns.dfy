/** Two runs of the loop with the logs they leave: one that a full log cuts short, and one whose
    published log file does not agree with its digest. */
module AgentLogRuns {
  import opened Base
  import opened History
  import opened RequestHistory
  import opened ProviderTurn
  import opened Response
  import opened Review
  import opened AgentTrace
  import opened AgentState
  import opened EventLog
  import opened LogJson
  import opened AgentLog
  import Conversation
  import W = MediaPolicy

  // ---------- a JSON log on disk ----------

  function EventName(a: Action): Text {
    match a
    case Started => Ascii("run.started")
    case Requested(_, _, _) => Ascii("provider.requested")
    case Answered(completed, _) =>
      if completed then Ascii("provider.completed") else Ascii("provider.failed")
    case Registered(_) => Ascii("tool.registered")
    case Dispatched(_, _, _) => Ascii("tool.dispatched")
    case Committed(_, _) => Ascii("tool.completed")
    case _ => []
  }

  /** JSON lines and ordinary limits, but for the number of events. */
  function JsonDisk(maxEvents: u64, faulty: bool): Disk {
    Disk(Config((e: Event) => JsonLine([], e), JSON_PUNCTUATION_BYTES, maxEvents, 4096, 65536, 4096),
         EventName, (code: Text) => ReservedText(code), faulty)
  }

  /** The note of an action; its payload is the empty object. */
  function NoteBody(a: Action): Body {
    Operational(EventName(a), [123, 125], true)
  }

  lemma {:induction false} NameShort(a: Action)
    ensures |EventName(a)| <= 18
  {
  }

  lemma {:induction false} NoteShort(n: nat, a: Action)
    requires n < 10
    ensures n <= U64_MAX && 0 < |JsonLine([], Event(n, 0, NoteBody(a)))| <= 100
  {
    NameShort(a);
    assert |Decimal(n)| == 1 && |Decimal(0)| == 1;
  }

  lemma {:induction false} JsonDiskFits(maxEvents: u64, faulty: bool)
    requires maxEvents >= 2
    ensures ValidConfig(JsonDisk(maxEvents, faulty).cfg) && Steady(JsonDisk(maxEvents, faulty).cfg)
    ensures Reserve(JsonDisk(maxEvents, faulty).cfg) == 223
    ensures !faulty ==> Calm(JsonDisk(maxEvents, faulty))
  {
    JsonObeysSizeLaw([], JsonDisk(maxEvents, faulty).cfg);
    ReserveSize(JsonDisk(maxEvents, faulty).cfg);
  }

  /** A log of `n` events and, behind its lines, `junk` torn bytes. */
  predicate Holding(w: Log, n: nat, junk: nat) {
    && w.nextSeq == n && w.bytesWritten <= 100 * n && |w.file| == |w.hashed| + junk
    && !w.poisoned && !w.terminalWritten && w.omitted == 0 && w.marker.None?
  }

  /** The log the trace left. */
  ghost predicate Left(d: Disk, t: Trace, w: Log, n: nat, junk: nat) {
    ValidConfig(d.cfg) && Realizes(d, t, w) && Holding(w, n, junk)
  }

  lemma {:induction false} NoteAdmitted(d: Disk, w: Log, a: Action, n: nat)
    requires n < 10 && n + 1 < d.cfg.maxEvents && d == JsonDisk(d.cfg.maxEvents, d.faulty)
    requires Holding(w, n, 0)
    ensures ValidConfig(d.cfg) && Admit(d.cfg, w, Event(n, 0, NoteBody(a))).None?
  {
    JsonDiskFits(d.cfg.maxEvents, d.faulty);
    NoteShort(n, a);
  }

  lemma {:induction false} NoteWritten(d: Disk, w: Log, a: Action, n: nat) returns (next: Log)
    requires d == JsonDisk(d.cfg.maxEvents, d.faulty) && n < 10 && n + 1 < d.cfg.maxEvents
    requires Holding(w, n, 0)
    ensures ValidConfig(d.cfg) && Notes(d, w, d.tag(a), next, true) && Holding(next, n + 1, 0)
  {
    NoteAdmitted(d, w, a, n);
    NoteShort(n, a);
    next := AppendOperational(d.cfg, w, 0, NoteBody(a), Clean).0;
    assert NotesWith(d, w, d.tag(a), next, true, 0, [123, 125], true, Clean);
  }

  lemma {:induction false} NoteTaken(d: Disk, t: Trace, w: Log, a: Action, n: nat)
    returns (next: Log)
    requires d == JsonDisk(d.cfg.maxEvents, d.faulty) && n < 10 && n + 1 < d.cfg.maxEvents
    requires Left(d, t, w, n, 0) && Logged(a) && !a.Ended?
    ensures Left(d, t + [a], next, n + 1, 0)
  {
    next := NoteWritten(d, w, a, n);
    SnocParts(t, a);
    assert Takes(d, w, a, next);
  }

  // ---------- a run up to its first tool call ----------

  /** A setup that allows a request and a call, and a validated turn that makes one. */
  ghost predicate OneCall(e: Setup, turn: CompletedTurn) {
    && e.streams(turn) && Authoritative(turn, LimitsOf(e)) && |Calls(turn.output)| == 1
    && e.maxTurns > 0 && e.maxCallsPerRun > 0 && e.actorDone > 0
  }

  /** What the loop sends first: its two prompts, windowed, with the receipt of the window. */
  ghost predicate FirstHeld(e: Setup, held: Held) {
    && W.LivePolicy(e.hash, [System(e.systemPrompt), User(e.userRequest)])
       == Ok((held.history, held.receipt))
    && Sendable(e.hash, held.history, held.receipt)
  }

  lemma {:induction false} FirstHistory(e: Setup) returns (held: Held)
    ensures FirstHeld(e, held)
  {
    var prompts := [System(e.systemPrompt), User(e.userRequest)];
    PlainSettled(e.hash, prompts);
    WindowSettled(e.hash, prompts);
    var windowed := W.LivePolicy(e.hash, prompts).value;
    held := Held(windowed.0, windowed.1);
  }

  function Ask(held: Held): Action {
    Requested(ActionRequest, held.history, held.receipt)
  }

  function Begun(): Monitor {
    Advance(START, Started)
  }

  function Asked(held: Held): Monitor {
    Advance(Begun(), Ask(held))
  }

  function Told(held: Held, turn: CompletedTurn): Monitor {
    Advance(Asked(held), Answered(true, turn.output))
  }

  function Called(held: Held, turn: CompletedTurn, id: Text): Monitor {
    Advance(Told(held, turn), Registered(id))
  }

  lemma {:induction false} StartSteps(e: Setup)
    ensures Steps(e, START, Started)
  {
  }

  lemma {:induction false} AskSteps(e: Setup, held: Held)
    requires e.maxTurns > 0 && FirstHeld(e, held)
    ensures Steps(e, Begun(), Ask(held))
  {
    Conversation.ExtendsNothing(held.history);
  }

  lemma {:induction false} ToldSteps(e: Setup, held: Held, turn: CompletedTurn)
    requires OneCall(e, turn)
    ensures Steps(e, Asked(held), Answered(true, turn.output))
  {
    assert ValidatedAs(OutsideOf(e), turn, turn.output);
  }

  lemma {:induction false} CalledSteps(e: Setup, held: Held, turn: CompletedTurn, id: Text)
    requires OneCall(e, turn) && CallIds(Calls(turn.output)) == [id]
    ensures Steps(e, Told(held, turn), Registered(id))
  {
  }

  /** The one call is registered, and nothing else has happened since the first request. */
  predicate CallOpen(m: Monitor, id: Text) {
    && m.flow == Flow(true, 1, false, false, false, false, false, false, None)
    && m.tools.pending == [id] && m.tools.open && m.candidate.staged.None?
  }

  lemma {:induction false} CalledOpen(held: Held, turn: CompletedTurn, id: Text)
    ensures CallOpen(Called(held, turn, id), id)
  {
  }

  lemma {:induction false} RunSteps(e: Setup, m: Monitor, id: Text, mutating: bool)
    requires CallOpen(m, id) && e.actorDone > 0
    ensures Steps(e, m, Dispatched(id, mutating, 0))
    ensures Steps(e, Advance(m, Dispatched(id, mutating, 0)), Refused(Refusal.CommitRefused))
  {
  }

  /** An accepted, sound trace, the monitor that watched it and the log it left. */
  ghost predicate Reaches(e: Setup, d: Disk, t: Trace, m: Monitor, w: Log, n: nat, junk: nat) {
    && Accepted(RulesOf(e), t) && Sound(OutsideOf(e), t) && Watch(t) == m
    && Left(d, t, w, n, junk)
  }

  lemma {:induction false} Goes(e: Setup, t: Trace, m: Monitor, a: Action)
    requires Accepted(RulesOf(e), t) && Sound(OutsideOf(e), t) && Watch(t) == m && Steps(e, m, a)
    ensures Accepted(RulesOf(e), t + [a]) && Sound(OutsideOf(e), t + [a])
    ensures Watch(t + [a]) == Advance(m, a)
  {
    Extend(RulesOf(e), t, a);
    SoundExtends(OutsideOf(e), t, a);
  }

  lemma {:induction false} Next(
      e: Setup, d: Disk, t: Trace, m: Monitor, w: Log, n: nat, a: Action)
    returns (next: Log)
    requires Reaches(e, d, t, m, w, n, 0) && Steps(e, m, a) && Logged(a) && !a.Ended?
    requires d == JsonDisk(d.cfg.maxEvents, d.faulty) && n < 10 && n + 1 < d.cfg.maxEvents
    ensures Reaches(e, d, t + [a], Advance(m, a), next, n + 1, 0)
  {
    Goes(e, t, m, a);
    next := NoteTaken(d, t, w, a, n);
  }

  lemma {:induction false} Nothing(e: Setup, d: Disk)
    requires ValidConfig(d.cfg)
    ensures Reaches(e, d, [], START, EMPTY, 0, 0)
  {
  }

  lemma {:induction false} FirstEvent(e: Setup, d: Disk) returns (w: Log)
    requires d == JsonDisk(d.cfg.maxEvents, d.faulty) && d.cfg.maxEvents > 1
    requires Reaches(e, d, [], START, EMPTY, 0, 0)
    ensures Reaches(e, d, [Started], Begun(), w, 1, 0)
  {
    StartSteps(e);
    EmptyConcat([Started]);
    w := Next(e, d, [], START, EMPTY, 0, Started);
  }

  /** One request on the way. */
  lemma {:induction false} FirstRequest(e: Setup, d: Disk, held: Held) returns (w: Log)
    requires d == JsonDisk(d.cfg.maxEvents, d.faulty) && d.cfg.maxEvents > 2
    requires e.maxTurns > 0 && FirstHeld(e, held)
    ensures Reaches(e, d, [Started] + [Ask(held)], Asked(held), w, 2, 0)
  {
    JsonDiskFits(d.cfg.maxEvents, d.faulty);
    Nothing(e, d);
    w := FirstEvent(e, d);
    AskSteps(e, held);
    w := Next(e, d, [Started], Begun(), w, 1, Ask(held));
  }

  // ---------- a refused completion ----------

  /** Room for exactly the events up to the dispatch. */
  function SixEvents(): Disk {
    JsonDisk(6, false)
  }

  /** The request of the two prompts, its answer, and the one call of the answer, registered. */
  function CallTrace(held: Held, turn: CompletedTurn, id: Text): Trace {
    [Started] + [Ask(held)] + [Answered(true, turn.output)] + [Registered(id)]
  }

  /** The call then runs, and its completion is refused. */
  function CutTrace(held: Held, turn: CompletedTurn, id: Text, mutating: bool): Trace {
    CallTrace(held, turn, id) + [Dispatched(id, mutating, 0)] + [Refused(Refusal.CommitRefused)]
  }

  lemma {:induction false} FirstAnswer(e: Setup, held: Held, turn: CompletedTurn) returns (w: Log)
    requires OneCall(e, turn) && FirstHeld(e, held)
    ensures Reaches(e, SixEvents(), [Started] + [Ask(held)] + [Answered(true, turn.output)],
                    Told(held, turn), w, 3, 0)
  {
    w := FirstRequest(e, SixEvents(), held);
    ToldSteps(e, held, turn);
    w := Next(e, SixEvents(), [Started] + [Ask(held)], Asked(held), w, 2,
              Answered(true, turn.output));
  }

  lemma {:induction false} FirstCall(e: Setup, held: Held, turn: CompletedTurn, id: Text)
    returns (m: Monitor, w: Log)
    requires OneCall(e, turn) && FirstHeld(e, held) && CallIds(Calls(turn.output)) == [id]
    ensures Reaches(e, SixEvents(), CallTrace(held, turn, id), m, w, 4, 0) && CallOpen(m, id)
  {
    w := FirstAnswer(e, held, turn);
    CalledSteps(e, held, turn, id);
    w := Next(e, SixEvents(), [Started] + [Ask(held)] + [Answered(true, turn.output)],
              Told(held, turn), w, 3, Registered(id));
    m := Called(held, turn, id);
    CalledOpen(held, turn, id);
  }

  /** The call runs, and the log is full when its completion is due. */
  lemma {:induction false} CallRuns(
      e: Setup, t0: Trace, m: Monitor, w0: Log, id: Text, mutating: bool)
    returns (t: Trace, w: Log)
    requires Reaches(e, SixEvents(), t0, m, w0, 4, 0) && CallOpen(m, id) && e.actorDone > 0
    ensures t == t0 + [Dispatched(id, mutating, 0)] + [Refused(Refusal.CommitRefused)]
    ensures Accepted(RulesOf(e), t) && Sound(OutsideOf(e), t)
    ensures Realizes(SixEvents(), t, w) && !w.terminalWritten
  {
    var ran := Dispatched(id, mutating, 0);
    JsonDiskFits(6, false);
    RunSteps(e, m, id, mutating);
    w := Next(e, SixEvents(), t0, m, w0, 4, ran);
    t := t0 + [ran];
    Goes(e, t, Advance(m, ran), Refused(Refusal.CommitRefused));
    CompletionRefused(t, w);
    t := t + [Refused(Refusal.CommitRefused)];
  }

  lemma {:induction false} CompletionRefused(t: Trace, w: Log)
    requires Left(SixEvents(), t, w, 5, 0)
    ensures Realizes(SixEvents(), t + [Refused(Refusal.CommitRefused)], w)
  {
    var d, a := SixEvents(), Refused(Refusal.CommitRefused);
    var tag := Ascii("tool.completed");
    assert NotesWith(d, w, tag, w, false, 0, [123, 125], true, Clean);
    assert Notes(d, w, tag, w, false);
    SnocParts(t, a);
    assert Takes(d, w, a, w);
  }

  /** Whatever the setup and the turn, a log with room for six events is full up to its reserve
      when the completion of the call is to be written: the run ends without a terminal event. */
  lemma {:induction false} RefusedCommitLosesTerminal(e: Setup, turn: CompletedTurn)
    returns (t: Trace, w: Log, held: Held)
    requires OneCall(e, turn)
    ensures FirstHeld(e, held)
    ensures var call := Calls(turn.output)[0];
            t == CutTrace(held, turn, call.callId, call.name in e.mutatingTools)
    ensures Accepted(RulesOf(e), t) && Sound(OutsideOf(e), t) && Over(t) && CutShort(t)
    ensures ValidConfig(SixEvents().cfg) && Calm(SixEvents())
    ensures Realizes(SixEvents(), t, w) && !w.terminalWritten
  {
    var call := Calls(turn.output)[0];
    var id, mutating := call.callId, call.name in e.mutatingTools;
    assert CallIds(Calls(turn.output)) == [id];
    JsonDiskFits(6, false);
    held := FirstHistory(e);
    var m;
    m, w := FirstCall(e, held, turn, id);
    t, w := CallRuns(e, CallTrace(held, turn, id), m, w, id, mutating);
  }

  /** One known tool, called with an empty object. */
  function ExampleTurn(): CompletedTurn {
    CompletedTurn([114], [109], [OutputItem.Call([105], READ_FILE, [123, 125])])
  }

  function ExampleSetup(): Setup {
    Setup(Hashes((t: Text) => t, (h: Items) => []), false, Disabled, [115], [117], [109],
          {READ_FILE}, {}, 8, 4, 16, 4096, 64, 4096, 65536, 1000, 1000, 1000, 10, None, 100, 30_000,
          (turn: CompletedTurn) => turn == ExampleTurn(),
          (text: Text) => if text == [123, 125] then AnObject else Unparsable)
  }

  /** There are such setups and turns. */
  lemma {:induction false} ExampleHasOneCall()
    ensures OneCall(ExampleSetup(), ExampleTurn())
  {
    var call := OutputItem.Call([105], READ_FILE, [123, 125]);
    assert Calls([call]) == Calls([]) + [call];
    assert READ_FILE != [] by { assert |READ_FILE| == 9; }
  }

  // ---------- a torn event ----------

  /** An ordinary disk on which appends may be torn. */
  function TornDisk(): Disk {
    JsonDisk(64, true)
  }

  /** The answer's event is torn after its first byte. */
  lemma {:induction false} AnswerTorn(w: Log) returns (next: Log)
    requires Holding(w, 2, 0)
    ensures ValidConfig(TornDisk().cfg) && Holding(next, 2, 1)
    ensures Takes(TornDisk(), w, Refused(EventRefused), next)
  {
    var d, a := TornDisk(), Answered(true, []);
    NoteAdmitted(d, w, a, 2);
    NoteShort(2, a);
    next := AppendOperational(d.cfg, w, 0, NoteBody(a), Torn(1)).0;
    assert NotesWith(d, w, EventName(a), next, false, 0, [123, 125], true, Torn(1));
    assert Notes(d, w, EventName(a), next, false);
  }

  /** The terminal event is then accepted behind the torn byte. */
  lemma {:induction false} ClosedBehindJunk(w: Log, code: Text) returns (next: Log)
    requires ValidConfig(TornDisk().cfg) && Open(TornDisk().cfg, w) && Holding(w, 2, 1)
    requires ReservedText(code)
    ensures Takes(TornDisk(), w, Ended(false), next)
    ensures next.terminalWritten && next.marker.None? && |next.file| == |next.hashed| + 1
  {
    var d, body := TornDisk(), RunFailed(code, 0);
    JsonDiskFits(64, true);
    ReserveHolds(d.cfg, w, 0, body);
    next := AppendTerminal(d.cfg, w, 0, body, Clean).0;
    assert ClosesWith(d, w, false, next, true, 0, code, Clean);
    assert AllPossible(d, []) && FlushAll(d.cfg, w, []) == (w, true);
    assert Flushes(d, w, w, true) && Closes(d, w, false, next, true);
  }

  /** The first request is in flight. */
  predicate Awaiting(m: Monitor) {
    m.flow == Flow(true, 1, true, false, false, false, false, false, None)
  }

  lemma {:induction false} TornSteps(e: Setup, m: Monitor)
    requires Awaiting(m)
    ensures Steps(e, m, Refused(EventRefused))
    ensures Steps(e, Advance(m, Refused(EventRefused)), Ended(false))
  {
  }

  lemma {:induction false} TornEvent(e: Setup, t0: Trace, m: Monitor, w0: Log)
    returns (t: Trace, w: Log)
    requires Reaches(e, TornDisk(), t0, m, w0, 2, 0) && Steps(e, m, Refused(EventRefused))
    ensures t == t0 + [Refused(EventRefused)]
    ensures Reaches(e, TornDisk(), t, Advance(m, Refused(EventRefused)), w, 2, 1)
  {
    w := AnswerTorn(w0);
    t := t0 + [Refused(EventRefused)];
    SnocParts(t0, Refused(EventRefused));
    Goes(e, t0, m, Refused(EventRefused));
  }

  lemma {:induction false} TornEnd(e: Setup, t0: Trace, m: Monitor, w0: Log, code: Text)
    returns (t: Trace, w: Log)
    requires Reaches(e, TornDisk(), t0, m, w0, 2, 1) && Steps(e, m, Ended(false))
    requires ReservedText(code)
    ensures t == t0 + [Ended(false)]
    ensures Accepted(RulesOf(e), t) && Sound(OutsideOf(e), t)
    ensures Realizes(TornDisk(), t, w)
    ensures w.terminalWritten && w.marker.None? && |w.file| == |w.hashed| + 1
  {
    LogMirrorsTrace(TornDisk(), RulesOf(e), t0, w0);
    w := ClosedBehindJunk(w0, code);
    t := t0 + [Ended(false)];
    SnocParts(t0, Ended(false));
    Goes(e, t0, m, Ended(false));
  }

  lemma {:induction false} TornThenEnds(e: Setup, t0: Trace, m: Monitor, w0: Log, code: Text)
    returns (t: Trace, w: Log)
    requires Reaches(e, TornDisk(), t0, m, w0, 2, 0) && Awaiting(m) && ReservedText(code)
    ensures t == t0 + [Refused(EventRefused)] + [Ended(false)]
    ensures Accepted(RulesOf(e), t) && Sound(OutsideOf(e), t) && Realizes(TornDisk(), t, w)
    ensures w.terminalWritten && w.marker.None? && |w.file| == |w.hashed| + 1
  {
    TornSteps(e, m);
    t, w := TornEvent(e, t0, m, w0);
    t, w := TornEnd(e, t, Advance(m, Refused(EventRefused)), w, code);
  }

  lemma {:induction false} RequestSent(e: Setup, held: Held) returns (m: Monitor, w: Log)
    requires e.maxTurns > 0 && FirstHeld(e, held)
    ensures Reaches(e, TornDisk(), [Started] + [Ask(held)], m, w, 2, 0) && Awaiting(m)
  {
    w := FirstRequest(e, TornDisk(), held);
    m := Asked(held);
  }

  lemma {:induction false} Publishes(w: Log)
    requires w.terminalWritten && w.marker.None?
    ensures Commit(TornDisk().cfg, w, Record([], true, true), NoCommitFault).1 == Ok(Durable)
  {
  }

  /** The request of the two prompts, the refusal of its answer's event, and the end. */
  function TornTrace(held: Held): Trace {
    [Started] + [Ask(held)] + [Refused(EventRefused)] + [Ended(false)]
  }

  /** Whatever the setup, one torn append is enough: the run fails, writes its terminal event and
      publishes its record, over a file that does not agree with the digest. */
  lemma {:induction false} TornRunIsPublished(e: Setup, code: Text)
    returns (t: Trace, w: Log, held: Held)
    requires e.maxTurns > 0 && ReservedText(code)
    ensures FirstHeld(e, held) && t == TornTrace(held)
    ensures Accepted(RulesOf(e), t) && Sound(OutsideOf(e), t) && Over(t)
    ensures ValidConfig(TornDisk().cfg) && Realizes(TornDisk(), t, w)
    ensures w.terminalWritten && w.file != w.hashed
    ensures Commit(TornDisk().cfg, w, Record([], true, true), NoCommitFault).1 == Ok(Durable)
  {
    var m;
    held := FirstHistory(e);
    m, w := RequestSent(e, held);
    t, w := TornThenEnds(e, [Started] + [Ask(held)], m, w, code);
    Publishes(w);
  }
}
