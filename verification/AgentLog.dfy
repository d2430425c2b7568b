/** The run's trace on disk. The loop does not decide whether the log takes an event; here its
    traces are joined with the event log, which does. */
module AgentLog {
  import opened Base
  import opened AgentTrace
  import opened EventLog

  /** The disk side of a run: the writer's limits, the event names of actions, the codes a terminal
      event may carry, and whether appends may be torn or events invalid. */
  datatype Disk = Disk(cfg: Config, tag: Action -> Text, codes: Text -> bool, faulty: bool)

  /** What a log says, tool receipts and payloads aside. */
  datatype Entry = Note(tag: Text) | Closing(success: bool)

  predicate Logged(a: Action) {
    !(a.Refused? || a.Recovered? || a.LeftActionOpen? || a.Staged? || a.ReviewMoved?)
  }

  /** `tag` gives the event name of an action. */
  function EntryOf(tag: Action -> Text, a: Action): Entry {
    if a.Ended? then Closing(a.success) else Note(tag(a))
  }

  /** What an event says; a tool receipt says nothing here. */
  function EventEntry(body: Body): Option<Entry> {
    match body
    case Operational(tag, _, _) => Some(Note(tag))
    case ToolReceipt(_, _) => None
    case RunCompleted(_, _) => Some(Closing(true))
    case RunFailed(_, _) => Some(Closing(false))
  }

  function Saying(entries: seq<Entry>, e: Option<Entry>): seq<Entry> {
    match e
    case Some(entry) => entries + [entry]
    case None => entries
  }

  function Entries(events: seq<Event>): seq<Entry> {
    if events == [] then [] else Saying(Entries(Front(events)), EventEntry(Last(events).body))
  }

  function TraceEntries(tag: Action -> Text, t: Trace): seq<Entry> {
    if t == [] then [] else Saying(TraceEntries(tag, Front(t)), ActionEntry(tag, Last(t)))
  }

  function ActionEntry(tag: Action -> Text, a: Action): Option<Entry> {
    if Logged(a) then Some(EntryOf(tag, a)) else None
  }

  /** A log some use of the writer leads to. */
  ghost predicate Reached(cfg: Config, w: Log) {
    ValidConfig(cfg) && exists ops :: Run(cfg, ops) == w
  }

  lemma {:induction false} ReachedOn(cfg: Config, w: Log, op: Op)
    requires Reached(cfg, w)
    ensures Consistent(cfg, w) && Reached(cfg, Apply(cfg, w, op))
  {
    var ops :| Run(cfg, ops) == w;
    RunConsistent(cfg, ops);
    SnocParts(ops, op);
    assert Run(cfg, ops + [op]) == Apply(cfg, w, op);
  }

  lemma {:induction false} EmptyReached(cfg: Config)
    requires ValidConfig(cfg)
    ensures Reached(cfg, EMPTY)
  {
    assert Run(cfg, []) == EMPTY;
  }

  /** The writer still takes events. */
  ghost predicate Open(cfg: Config, w: Log) {
    Reached(cfg, w) && !w.poisoned && !w.terminalWritten
  }

  /** The log went from `w` to `next` and now says `more`, if anything. Without faults the file
      still agrees with the digest if it did before. */
  ghost predicate Writes(cfg: Config, faulty: bool, w: Log, more: Option<Entry>, next: Log) {
    && Reached(cfg, next)
    && Entries(next.accepted) == Saying(Entries(w.accepted), more)
    && (next.terminalWritten <==> w.terminalWritten || (more.Some? && more.value.Closing?))
    && (!faulty && w.file == w.hashed ==> next.file == next.hashed)
  }

  // ---------- appends ----------

  lemma {:induction false} EntriesSnoc(events: seq<Event>, e: Event)
    ensures Entries(events + [e]) == Saying(Entries(events), EventEntry(e.body))
  {
    SnocParts(events, e);
  }

  /** What one append adds to the log's entries. */
  lemma {:induction false} AppendEntries(
      cfg: Config, faulty: bool, w: Log, elapsedMs: u64, body: Body, fault: WriteFault)
    requires ValidConfig(cfg) && (!faulty ==> fault.Clean?)
    ensures var (next, r) := Append(cfg, w, elapsedMs, body, fault);
            && Entries(next.accepted)
               == Saying(Entries(w.accepted), if r.Ok? then EventEntry(body) else None)
            && (!faulty && w.file == w.hashed ==> next.file == next.hashed)
            && next.terminalWritten == (w.terminalWritten || (r.Ok? && Terminal(body)))
            && next.poisoned == w.poisoned
  {
    EntriesSnoc(w.accepted, Event(w.nextSeq, elapsedMs, body));
  }

  /** The limits are far enough from 2^64 that no length overflows, and the encoder is as
      assumed. */
  ghost predicate Steady(cfg: Config) {
    SizeLaw(cfg) && cfg.maxLineBytes + cfg.maxLogBytes <= U64_MAX
  }

  /** Without faults an event is refused only because the log is full up to its reserve or the
      line is too long. */
  lemma {:induction false} OnlyFull(cfg: Config, w: Log, elapsedMs: u64, body: Body)
    requires Open(cfg, w) && Steady(cfg) && !Terminal(body) && ValidBody(body)
    requires Consistent(cfg, w)
    ensures var r := Append(cfg, w, elapsedMs, body, Clean).1;
            r.Err? ==> r.error.TerminalReserveExhausted? || r.error.LineLimitExceeded?
  {
  }

  // ---------- attempts ----------

  /** One mandatory append; `ok` says whether it was accepted. */
  ghost predicate Notes(d: Disk, w: Log, tag: Text, next: Log, ok: bool)
    requires ValidConfig(d.cfg)
  {
    exists elapsedMs, data, valid, fault :: NotesWith(d, w, tag, next, ok, elapsedMs, data, valid, fault)
  }

  predicate NotesWith(
      d: Disk, w: Log, tag: Text, next: Log, ok: bool, elapsedMs: u64, data: Text, valid: bool,
      fault: WriteFault)
    requires ValidConfig(d.cfg)
  {
    && (d.faulty || (valid && fault.Clean?))
    && var r := AppendOperational(d.cfg, w, elapsedMs, Operational(tag, data, valid), fault);
       r.0 == next && r.1.Ok? == ok
  }

  /** A staged tool receipt and what befalls it. */
  datatype Staged = Staged(
    elapsedMs: u64, data: Text, valid: bool, fault: WriteFault, restoreFails: bool)

  predicate Possible(d: Disk, receipt: Staged) {
    d.faulty || (receipt.valid && receipt.fault.Clean?)
  }

  function AppendStaged(cfg: Config, w: Log, receipt: Staged): (Log, bool)
    requires ValidConfig(cfg)
  {
    var r := AppendReceipt(cfg, w, receipt.elapsedMs, ToolReceipt(receipt.data, receipt.valid),
                           receipt.fault, receipt.restoreFails);
    (r.0, r.1.Ok?)
  }

  /** `flush_staged_tool_receipts`: the receipts in order, up to the first error. */
  function FlushAll(cfg: Config, w: Log, receipts: seq<Staged>): (Log, bool)
    requires ValidConfig(cfg)
  {
    if receipts == [] then (w, true)
    else
      var before := FlushAll(cfg, w, Front(receipts));
      if !before.1 then before else AppendStaged(cfg, before.0, Last(receipts))
  }

  predicate AllPossible(d: Disk, receipts: seq<Staged>) {
    forall i :: 0 <= i < |receipts| ==> Possible(d, receipts[i])
  }

  ghost predicate Flushes(d: Disk, w: Log, next: Log, ok: bool)
    requires ValidConfig(d.cfg)
  {
    exists receipts: seq<Staged> ::
      AllPossible(d, receipts) && FlushAll(d.cfg, w, receipts) == (next, ok)
  }

  /** The terminal append. */
  ghost predicate Closes(d: Disk, w: Log, success: bool, next: Log, ok: bool)
    requires ValidConfig(d.cfg)
  {
    exists elapsedMs, code, fault :: ClosesWith(d, w, success, next, ok, elapsedMs, code, fault)
  }

  predicate ClosesWith(
      d: Disk, w: Log, success: bool, next: Log, ok: bool, elapsedMs: u64, code: Text,
      fault: WriteFault)
    requires ValidConfig(d.cfg)
  {
    && d.codes(code) && (d.faulty || fault.Clean?)
    && var r := AppendTerminal(d.cfg, w, elapsedMs, ClosingBody(success, code), fault);
       r.0 == next && r.1.Ok? == ok
  }

  function ClosingBody(success: bool, code: Text): Body {
    if success then RunCompleted(code, 0) else RunFailed(code, 0)
  }

  /** What an action does to the log. The terminal event, written or refused, comes after the
      staged receipts. */
  ghost predicate Takes(d: Disk, w: Log, a: Action, next: Log)
    requires ValidConfig(d.cfg)
  {
    match a
    case Ended(success) =>
      exists flushed :: Flushes(d, w, flushed, true) && Closes(d, flushed, success, next, true)
    case Refused(what) =>
      (match what
       case FlushFailed => Flushes(d, w, next, false)
       case ClosingRefused =>
         exists flushed, success ::
           Flushes(d, w, flushed, true) && Closes(d, flushed, success, next, false)
       case _ => exists tag :: Notes(d, w, tag, next, false))
    case _ => if Logged(a) then Notes(d, w, d.tag(a), next, true) else next == w
  }

  /** The log the trace leaves on disk. */
  ghost predicate Realizes(d: Disk, t: Trace, w: Log)
    requires ValidConfig(d.cfg)
  {
    if t == [] then w == EMPTY
    else exists before :: Realizes(d, Front(t), before) && Takes(d, before, Last(t), w)
  }

  // ---------- what each attempt does ----------

  lemma {:induction false} NotesWrites(d: Disk, w: Log, tag: Text, next: Log, ok: bool)
    requires Open(d.cfg, w) && Notes(d, w, tag, next, ok)
    ensures Writes(d.cfg, d.faulty, w, if ok then Some(Note(tag)) else None, next) && Open(d.cfg, next)
  {
    var elapsedMs, data, valid, fault :|
      NotesWith(d, w, tag, next, ok, elapsedMs, data, valid, fault);
    var body := Operational(tag, data, valid);
    AppendEntries(d.cfg, d.faulty, w, elapsedMs, body, fault);
    ReachedOn(d.cfg, w, Mandatory(elapsedMs, body, fault));
  }

  lemma {:induction false} ReceiptWrites(d: Disk, w: Log, receipt: Staged)
    requires Open(d.cfg, w) && Possible(d, receipt)
    ensures var (next, ok) := AppendStaged(d.cfg, w, receipt);
            && Writes(d.cfg, d.faulty, w, None, next) && !next.terminalWritten
            && (ok ==> Open(d.cfg, next))
            && (!d.faulty && Steady(d.cfg) ==> ok)
  {
    var body := ToolReceipt(receipt.data, receipt.valid);
    AppendEntries(d.cfg, d.faulty, w, receipt.elapsedMs, body, receipt.fault);
    ReachedOn(d.cfg, w, Receipt(receipt.elapsedMs, body, receipt.fault, receipt.restoreFails));
    if !d.faulty && Steady(d.cfg) {
      OnlyFull(d.cfg, w, receipt.elapsedMs, body);
    }
  }

  lemma {:induction false} WritesNothing(cfg: Config, faulty: bool, w: Log, next: Log, after: Log)
    requires Writes(cfg, faulty, w, None, next) && Writes(cfg, faulty, next, None, after)
    ensures Writes(cfg, faulty, w, None, after)
  {
  }

  lemma {:induction false} FlushAllWrites(d: Disk, w: Log, receipts: seq<Staged>)
    requires Open(d.cfg, w) && AllPossible(d, receipts)
    ensures var (next, ok) := FlushAll(d.cfg, w, receipts);
            && Writes(d.cfg, d.faulty, w, None, next) && !next.terminalWritten
            && (ok ==> Open(d.cfg, next))
            && (!d.faulty && Steady(d.cfg) ==> ok)
  {
    if receipts != [] {
      FlushAllWrites(d, w, Front(receipts));
      var (before, ok) := FlushAll(d.cfg, w, Front(receipts));
      if ok {
        ReceiptWrites(d, before, Last(receipts));
        WritesNothing(d.cfg, d.faulty, w, before, AppendStaged(d.cfg, before, Last(receipts)).0);
      }
    }
  }

  lemma {:induction false} FlushesWrites(d: Disk, w: Log, next: Log, ok: bool)
    requires Open(d.cfg, w) && Flushes(d, w, next, ok)
    ensures Writes(d.cfg, d.faulty, w, None, next) && !next.terminalWritten
    ensures ok ==> Open(d.cfg, next)
    ensures !d.faulty && Steady(d.cfg) ==> ok
  {
    var receipts: seq<Staged> :|
      AllPossible(d, receipts) && FlushAll(d.cfg, w, receipts) == (next, ok);
    FlushAllWrites(d, w, receipts);
  }

  /** A code that has its place in the reserve, whatever the outcome. */
  predicate ReservedText(code: Text) {
    ValidCode(code) && |code| <= 125
  }

  /** Without faults the reserve is always there for the terminal event. */
  lemma {:induction false} ReserveHolds(cfg: Config, w: Log, elapsedMs: u64, body: Body)
    requires Open(cfg, w) && Steady(cfg) && ReservedCode(body)
    ensures AppendTerminal(cfg, w, elapsedMs, body, Clean).1.Ok?
  {
    ReachedOn(cfg, w, Omit(0));
    ReservedTerminalFits(cfg, w, elapsedMs, body);
  }

  lemma {:induction false} TerminalEntries(
      cfg: Config, faulty: bool, w: Log, elapsedMs: u64, body: Body, fault: WriteFault)
    requires ValidConfig(cfg) && Terminal(body) && (!faulty ==> fault.Clean?)
    ensures var (next, r) := AppendTerminal(cfg, w, elapsedMs, body, fault);
            && Entries(next.accepted)
               == Saying(Entries(w.accepted), if r.Ok? then EventEntry(body) else None)
            && (!faulty && w.file == w.hashed ==> next.file == next.hashed)
            && next.terminalWritten == (w.terminalWritten || r.Ok?)
            && next.poisoned == w.poisoned
  {
    TerminalIsOneAppend(cfg, w, elapsedMs, body, fault);
    AppendEntries(cfg, faulty, w, elapsedMs, WithOmitted(body, w.omitted), fault);
    AppendEntries(cfg, faulty, w, elapsedMs, WithOmitted(body, 0), fault);
    assert EventEntry(WithOmitted(body, w.omitted)) == EventEntry(WithOmitted(body, 0))
        == EventEntry(body);
  }

  lemma {:induction false} ClosesWrites(d: Disk, w: Log, success: bool, next: Log, ok: bool)
    requires Open(d.cfg, w) && Closes(d, w, success, next, ok)
    ensures Writes(d.cfg, d.faulty, w, if ok then Some(Closing(success)) else None, next)
    ensures !ok ==> Open(d.cfg, next)
    ensures Calm(d) ==> ok
  {
    var elapsedMs, code, fault :| ClosesWith(d, w, success, next, ok, elapsedMs, code, fault);
    var body := ClosingBody(success, code);
    TerminalEntries(d.cfg, d.faulty, w, elapsedMs, body, fault);
    ReachedOn(d.cfg, w, Finish(elapsedMs, body, fault));
    if Calm(d) {
      ReserveHolds(d.cfg, w, elapsedMs, body);
    }
  }

  /** Nothing can go wrong on disk, and every code has its place in the terminal reserve. */
  ghost predicate Calm(d: Disk) {
    !d.faulty && Steady(d.cfg) && forall code :: d.codes(code) ==> ReservedText(code)
  }

  // ---------- the mirror ----------

  lemma {:induction false} EndedWrites(d: Disk, w: Log, success: bool, next: Log)
    requires Open(d.cfg, w) && Takes(d, w, Ended(success), next)
    ensures Writes(d.cfg, d.faulty, w, Some(Closing(success)), next)
  {
    var flushed :| Flushes(d, w, flushed, true) && Closes(d, flushed, success, next, true);
    FlushesWrites(d, w, flushed, true);
    ClosesWrites(d, flushed, success, next, true);
  }

  lemma {:induction false} NotedWrites(d: Disk, w: Log, a: Action, next: Log)
    requires Open(d.cfg, w) && Takes(d, w, a, next) && !a.Ended? && !a.Refused?
    ensures Writes(d.cfg, d.faulty, w, ActionEntry(d.tag, a), next) && Open(d.cfg, next)
  {
    if Logged(a) {
      NotesWrites(d, w, d.tag(a), next, true);
    }
  }

  lemma {:induction false} TakesWrites(d: Disk, w: Log, a: Action, next: Log)
    requires Open(d.cfg, w) && Takes(d, w, a, next)
    ensures Writes(d.cfg, d.faulty, w, ActionEntry(d.tag, a), next)
    ensures !(a.Refused? && !a.what.EventRefused?) && !a.Ended? ==> Open(d.cfg, next)
    ensures Calm(d) ==> a != Refused(FlushFailed) && a != Refused(ClosingRefused)
    ensures a == Refused(StartRefused) || a == Refused(CommitRefused) ==> Open(d.cfg, next)
  {
    match a
    case Ended(success) => EndedWrites(d, w, success, next);
    case Refused(what) => RefusedWrites(d, w, what, next);
    case _ => NotedWrites(d, w, a, next);
  }

  lemma {:induction false} RefusedWrites(d: Disk, w: Log, what: Refusal, next: Log)
    requires Open(d.cfg, w) && Takes(d, w, Refused(what), next)
    ensures Writes(d.cfg, d.faulty, w, None, next)
    ensures !what.FlushFailed? ==> Open(d.cfg, next)
    ensures Calm(d) ==> !what.FlushFailed? && !what.ClosingRefused?
  {
    match what
    case FlushFailed => FlushesWrites(d, w, next, false);
    case ClosingRefused =>
      var flushed, success :|
        Flushes(d, w, flushed, true) && Closes(d, flushed, success, next, false);
      FlushesWrites(d, w, flushed, true);
      ClosesWrites(d, flushed, success, next, false);
      WritesNothing(d.cfg, d.faulty, w, flushed, next);
    case _ =>
      var tag :| Notes(d, w, tag, next, false);
      NotesWrites(d, w, tag, next, false);
  }

  /** The log says what the trace says, and is closed exactly when the run has ended. */
  ghost predicate Mirrors(d: Disk, t: Trace, flow: Flow, w: Log) {
    && Reached(d.cfg, w)
    && Entries(w.accepted) == TraceEntries(d.tag, t)
    && (w.terminalWritten <==> flow.ended.Some?)
    && (w.poisoned ==> flow.stuck)
    && (!d.faulty ==> w.file == w.hashed)
  }

  lemma {:induction false} MirrorStep(
      d: Disk, r: Rules, t: Trace, flow: Flow, a: Action, w: Log, next: Log)
    requires ValidConfig(d.cfg) && Mirrors(d, t, flow, w) && FlowAllows(r, flow, a)
    requires Takes(d, w, a, next)
    ensures Mirrors(d, t + [a], AdvanceFlow(flow, a), next)
    ensures Calm(d) ==> a != Refused(FlushFailed) && a != Refused(ClosingRefused)
    ensures a == Refused(StartRefused) || a == Refused(CommitRefused) ==> Open(d.cfg, next)
  {
    TakesWrites(d, w, a, next);
    SnocParts(t, a);
  }

  /** The accepted lines say exactly what the trace says, whatever was refused or torn; the log is
      closed exactly when the run has ended; without faults the file agrees with its digest. */
  lemma {:induction false} LogMirrorsTrace(d: Disk, r: Rules, t: Trace, w: Log)
    requires ValidConfig(d.cfg) && Accepted(r, t) && Realizes(d, t, w)
    ensures Mirrors(d, t, Watch(t).flow, w)
  {
    if t == [] {
      EmptyReached(d.cfg);
    } else {
      var before := LastStep(d, r, t, w);
      LogMirrorsTrace(d, r, Front(t), before);
      MirrorStep(d, r, Front(t), Watch(Front(t)).flow, Last(t), before, w);
      FrontLast(t);
    }
  }

  lemma {:induction false} LastStep(d: Disk, r: Rules, t: Trace, w: Log) returns (before: Log)
    requires ValidConfig(d.cfg) && Accepted(r, t) && Realizes(d, t, w) && t != []
    ensures Realizes(d, Front(t), before) && Takes(d, before, Last(t), w)
    ensures FlowAllows(r, Watch(Front(t)).flow, Last(t))
  {
    before :| Realizes(d, Front(t), before) && Takes(d, before, Last(t), w);
  }

  /** What the last action left behind. */
  lemma {:induction false} LastTaken(d: Disk, r: Rules, t: Trace, w: Log)
    requires ValidConfig(d.cfg) && Accepted(r, t) && Realizes(d, t, w) && t != []
    ensures w.terminalWritten <==> Watch(t).flow.ended.Some?
    ensures Calm(d) ==> Last(t) != Refused(FlushFailed) && Last(t) != Refused(ClosingRefused)
    ensures CutShort(t) ==> Open(d.cfg, w)
  {
    var before := LastStep(d, r, t, w);
    LogMirrorsTrace(d, r, Front(t), before);
    MirrorStep(d, r, Front(t), Watch(Front(t)).flow, Last(t), before, w);
  }

  lemma {:induction false} CutOrEnded(r: Rules, t: Trace)
    requires Accepted(r, t) && Over(t)
    requires Last(t) != Refused(FlushFailed) && Last(t) != Refused(ClosingRefused)
    ensures Watch(t).flow.ended.Some? <==> !CutShort(t)
  {
    OverExactly(r, t);
  }

  lemma {:induction false} ReserveAfterCut(
      d: Disk, r: Rules, t: Trace, w: Log, elapsedMs: u64, body: Body)
    requires ValidConfig(d.cfg) && Calm(d) && Accepted(r, t) && Realizes(d, t, w)
    requires CutShort(t) && ReservedCode(body)
    ensures AppendTerminal(d.cfg, w, elapsedMs, body, Clean).1.Ok?
  {
    LastTaken(d, r, t, w);
    ReserveHolds(d.cfg, w, elapsedMs, body);
  }

  /** Without faults, a finished run lacks its terminal event exactly when the log refused its
      first event or the completion of a tool batch. In that case the reserve is still free: the
      terminal event would have been accepted. */
  lemma {:induction false} TerminalEventExactly(
      d: Disk, r: Rules, t: Trace, w: Log, elapsedMs: u64, body: Body)
    requires ValidConfig(d.cfg) && Calm(d)
    requires Accepted(r, t) && Realizes(d, t, w) && Over(t) && ReservedCode(body)
    ensures w.terminalWritten <==> !CutShort(t)
    ensures CutShort(t) ==> AppendTerminal(d.cfg, w, elapsedMs, body, Clean).1.Ok?
  {
    LastTaken(d, r, t, w);
    CutOrEnded(r, t);
    if CutShort(t) {
      ReserveAfterCut(d, r, t, w, elapsedMs, body);
    }
  }
}
