/** The append-only event log as a value: lines, limits, the terminal reserve, torn
    writes, poisoning, and the write-once run record. */
module EventLog {
  import opened Base

  datatype Body =
    | Operational(tag: Text, data: Text, valid: bool)
    | ToolReceipt(data: Text, valid: bool)
    | RunCompleted(code: Text, omitted: u64)
    | RunFailed(code: Text, omitted: u64)

  predicate Terminal(body: Body) {
    body.RunCompleted? || body.RunFailed?
  }

  /** How events are rendered, and the limits. `render` gives one line, newline included;
      `fixed` counts the bytes of a terminal line that no field contributes to. */
  datatype Config = Config(
    render: Event -> Text, fixed: nat,
    maxEvents: u64, maxLineBytes: u64, maxLogBytes: u64, maxRecordBytes: u64)

  datatype Event = Event(number: u64, elapsedMs: u64, body: Body)

  datatype Error =
    | LogUnrecoverable | AfterTerminal | CountLimitExceeded | TerminalReserveExhausted
    | ValidationFailed | LineLimitExceeded | LengthOverflow | LogLimitExceeded | SyncFailed | RestoreFailed
    | TerminalRequiresReservedAppend | ReservedAppendRequiresTerminal
    | RecordWithoutTerminal | RecordSchemaUnsupported | RecordInvalid | RecordLimitExceeded
    | RecordTempCreateFailed | RecordTempSyncFailed | RecordPublishFailed

  const MAX_TERMINAL_CODE_BYTES: nat := 128
  const MIN_RUN_RECORD_BYTES: nat := 4096

  // ---------- line sizes ----------

  const RUN_COMPLETED_TAG_BYTES: nat := 13
  const RUN_FAILED_TAG_BYTES: nat := 10
  const OMISSION_FIELD_BYTES: nat := 30

  function TagBytes(body: Body): nat
    requires Terminal(body)
  {
    if body.RunCompleted? then RUN_COMPLETED_TAG_BYTES else RUN_FAILED_TAG_BYTES
  }

  /** The omission field is left out of the JSON object when the count is zero. */
  function OmissionBytes(omitted: u64): nat {
    if omitted == 0 then 0 else OMISSION_FIELD_BYTES + |Decimal(omitted)|
  }

  function TerminalSize(fixed: nat, e: Event): nat
    requires Terminal(e.body)
  {
    fixed + |Decimal(e.number)| + |Decimal(e.elapsedMs)|
    + TagBytes(e.body) + |e.body.code| + OmissionBytes(e.body.omitted)
  }

  /** Bytes of `[a-z0-9_.-]`, none of which a JSON string escapes. */
  predicate PlainCode(code: Text) {
    forall i :: 0 <= i < |code| ==>
      || 97 <= code[i] <= 122
      || 48 <= code[i] <= 57
      || code[i] == 95 || code[i] == 45 || code[i] == 46
  }

  /** What the proofs need to know about the JSON encoding of a terminal event: its size, for
      codes that need no escape. */
  ghost predicate SizeLaw(cfg: Config) {
    forall e: Event :: Terminal(e.body) && PlainCode(e.body.code) ==>
      |cfg.render(e)| == TerminalSize(cfg.fixed, e)
  }

  /** `validate_code`: nonempty, at most 128 bytes of `[a-z0-9_.-]`. */
  predicate ValidCode(code: Text) {
    0 < |code| <= MAX_TERMINAL_CODE_BYTES && PlainCode(code)
  }

  predicate ValidBody(body: Body) {
    match body
    case Operational(_, _, valid) => valid
    case ToolReceipt(_, valid) => valid
    case RunCompleted(code, _) => ValidCode(code)
    case RunFailed(code, _) => ValidCode(code)
  }

  /** The worst-case terminal line the writer reserves room for. */
  function Reserve(cfg: Config): nat {
    |cfg.render(Event(U64_MAX, U64_MAX,
                      RunFailed(seq(MAX_TERMINAL_CODE_BYTES, _ => 120 as byte), 0)))|
  }

  /** What `create` demands. */
  predicate ValidConfig(cfg: Config) {
    && cfg.maxEvents >= 2
    && cfg.maxRecordBytes >= MIN_RUN_RECORD_BYTES
    && Reserve(cfg) <= cfg.maxLineBytes
    && Reserve(cfg) <= cfg.maxLogBytes
  }

  // ---------- the writer's state ----------

  /** `file` is what the disk holds, `hashed` what the digest has consumed. */
  datatype Log = Log(
    file: Text, hashed: Text, accepted: seq<Event>, nextSeq: u64, bytesWritten: u64,
    terminalWritten: bool, poisoned: bool, omitted: u64, marker: Option<Text>)

  const EMPTY := Log([], [], [], 0, 0, false, false, 0, None)

  /** An append either reaches the disk or leaves a prefix of the line behind. */
  datatype WriteFault = Clean | Torn(written: nat)

  type Appended = (Log, Result<Event, Error>)

  /** The checks before any byte is written. */
  function Admit(cfg: Config, w: Log, e: Event): Option<Error>
    requires ValidConfig(cfg)
  {
    if w.poisoned then Some(LogUnrecoverable)
    else if w.terminalWritten then Some(AfterTerminal)
    else if w.nextSeq >= cfg.maxEvents - (if Terminal(e.body) then 0 else 1) then
      Some(if Terminal(e.body) then CountLimitExceeded else TerminalReserveExhausted)
    else if !ValidBody(e.body) then Some(ValidationFailed)
    else if |cfg.render(e)| > cfg.maxLineBytes then Some(LineLimitExceeded)
    else if w.bytesWritten + |cfg.render(e)| > U64_MAX then Some(LengthOverflow)
    else if w.bytesWritten + |cfg.render(e)|
            > cfg.maxLogBytes - (if Terminal(e.body) then 0 else Reserve(cfg)) then
      Some(if Terminal(e.body) then LogLimitExceeded else TerminalReserveExhausted)
    else None
  }

  /** `append_inner`. */
  function Append(cfg: Config, w: Log, elapsedMs: u64, body: Body, fault: WriteFault): Appended
    requires ValidConfig(cfg)
  {
    var e := Event(w.nextSeq, elapsedMs, body);
    var refused := Admit(cfg, w, e);
    if refused.Some? then (w, Err(refused.value))
    else
      var line := cfg.render(e);
      match fault
      case Torn(n) => (w.(file := w.file + line[..Min(n, |line|)]), Err(SyncFailed))
      case Clean =>
        (w.(file := w.file + line, hashed := w.hashed + line, accepted := w.accepted + [e],
            nextSeq := w.nextSeq + 1, bytesWritten := w.bytesWritten + |line|,
            terminalWritten := Terminal(body)),
         Ok(e))
  }

  /** `append_operational` and `append_diagnostic_failure`. */
  function AppendOperational(cfg: Config, w: Log, elapsedMs: u64, body: Body, fault: WriteFault)
    : Appended
    requires ValidConfig(cfg)
  {
    if Terminal(body) then (w, Err(TerminalRequiresReservedAppend))
    else Append(cfg, w, elapsedMs, body, fault)
  }

  /** `append_tool_receipt`: refused or torn receipts are counted as omitted; a torn write is
      undone by restoring the last good length, and a failed restore poisons the log. */
  function AppendReceipt(
      cfg: Config, w: Log, elapsedMs: u64, body: Body, fault: WriteFault, restoreFails: bool)
    : (Log, Result<Option<Event>, Error>)
    requires ValidConfig(cfg)
  {
    var (after, r) := AppendOperational(cfg, w, elapsedMs, body, fault);
    match r
    case Ok(e) => (after, Ok(Some(e)))
    case Err(error) =>
      if error.CountLimitExceeded? || error.TerminalReserveExhausted? || error.LineLimitExceeded?
      then (after.(omitted := SatAdd(after.omitted, 1)), Ok(None))
      else if error.SyncFailed? then
        if restoreFails then (after.(poisoned := true), Err(RestoreFailed))
        else (after.(file := SetLength(after.file, after.bytesWritten),
                     omitted := SatAdd(after.omitted, 1)), Ok(None))
      else (after, Err(error))
  }

  /** `File::set_len`. */
  function SetLength(file: Text, n: nat): Text {
    if n <= |file| then file[..n] else file + seq(n - |file|, _ => 0 as byte)
  }

  function WithOmitted(body: Body, omitted: u64): Body {
    match body
    case RunCompleted(code, _) => RunCompleted(code, omitted)
    case RunFailed(code, _) => RunFailed(code, omitted)
    case _ => body
  }

  /** `append_terminal`: with the omission count if it fits, without it otherwise. */
  function AppendTerminal(cfg: Config, w: Log, elapsedMs: u64, body: Body, fault: WriteFault)
    : Appended
    requires ValidConfig(cfg)
  {
    if !Terminal(body) then (w, Err(ReservedAppendRequiresTerminal))
    else
      var first := Append(cfg, w, elapsedMs, WithOmitted(body, w.omitted), fault);
      if w.omitted > 0 && first.1.Err?
         && (first.1.error.LineLimitExceeded? || first.1.error.LogLimitExceeded?)
      then Append(cfg, w, elapsedMs, WithOmitted(body, 0), fault)
      else first
  }

  datatype Publication = Durable | DurabilityUncertain

  /** Where publishing the record fails, if anywhere. */
  datatype CommitFault = NoCommitFault | TempCreate | TempSync | Rename | DirectorySync

  datatype Record = Record(bytes: Text, supported: bool, valid: bool)

  /** `commit_run_record`: the rename never replaces an existing record. */
  function Commit(cfg: Config, w: Log, record: Record, fault: CommitFault)
    : (Log, Result<Publication, Error>)
  {
    if !w.terminalWritten then (w, Err(RecordWithoutTerminal))
    else if !record.supported then (w, Err(RecordSchemaUnsupported))
    else if !record.valid then (w, Err(RecordInvalid))
    else if |record.bytes| > cfg.maxRecordBytes then (w, Err(RecordLimitExceeded))
    else if fault.TempCreate? then (w, Err(RecordTempCreateFailed))
    else if fault.TempSync? then (w, Err(RecordTempSyncFailed))
    else if fault.Rename? || w.marker.Some? then (w, Err(RecordPublishFailed))
    else (w.(marker := Some(record.bytes)),
          Ok(if fault.DirectorySync? then DurabilityUncertain else Durable))
  }

  // ---------- runs of the writer ----------

  datatype Op =
    | Mandatory(elapsedMs: u64, body: Body, fault: WriteFault)
    | Receipt(elapsedMs: u64, body: Body, fault: WriteFault, restoreFails: bool)
    | Omit(count: u64)
    | Finish(elapsedMs: u64, body: Body, fault: WriteFault)
    | Publish(record: Record, commitFault: CommitFault)

  function Apply(cfg: Config, w: Log, op: Op): Log
    requires ValidConfig(cfg)
  {
    match op
    case Mandatory(elapsed, body, fault) => AppendOperational(cfg, w, elapsed, body, fault).0
    case Receipt(elapsed, body, fault, restoreFails) =>
      AppendReceipt(cfg, w, elapsed, body, fault, restoreFails).0
    case Omit(count) => w.(omitted := SatAdd(w.omitted, count))
    case Finish(elapsed, body, fault) => AppendTerminal(cfg, w, elapsed, body, fault).0
    case Publish(record, fault) => Commit(cfg, w, record, fault).0
  }

  function Run(cfg: Config, ops: seq<Op>): Log
    requires ValidConfig(cfg)
  {
    if ops == [] then EMPTY else Apply(cfg, Run(cfg, Front(ops)), Last(ops))
  }

  function Lines(cfg: Config, events: seq<Event>): Text {
    if events == [] then [] else Lines(cfg, Front(events)) + cfg.render(Last(events))
  }

  /** The accepted events are numbered from zero, the digest covers exactly their lines, a
      terminal event can only be the last, and until then there is room for one more. */
  ghost predicate Accounted(
      cfg: Config, hashed: Text, accepted: seq<Event>, nextSeq: nat, bytes: nat, terminal: bool)
    requires ValidConfig(cfg)
  {
    && hashed == Lines(cfg, accepted)
    && bytes == |hashed|
    && nextSeq == |accepted|
    && (forall i :: 0 <= i < |accepted| ==> accepted[i].number == i)
    && (forall i :: 0 <= i < |accepted| - 1 ==> !Terminal(accepted[i].body))
    && (terminal <==> accepted != [] && Terminal(Last(accepted).body))
    && (!terminal ==> nextSeq <= cfg.maxEvents - 1 && bytes <= cfg.maxLogBytes - Reserve(cfg))
  }

  /** What every reachable writer state satisfies, whatever faults were injected. */
  ghost predicate Consistent(cfg: Config, w: Log)
    requires ValidConfig(cfg)
  {
    && Accounted(cfg, w.hashed, w.accepted, w.nextSeq, w.bytesWritten, w.terminalWritten)
    && (w.poisoned ==> !w.terminalWritten)
    && (w.marker.Some? ==> w.terminalWritten)
  }

  lemma {:induction false} AppendConsistent(
      cfg: Config, w: Log, elapsedMs: u64, body: Body, fault: WriteFault)
    requires ValidConfig(cfg) && Consistent(cfg, w)
    ensures Consistent(cfg, Append(cfg, w, elapsedMs, body, fault).0)
  {
    var e := Event(w.nextSeq, elapsedMs, body);
    if Admit(cfg, w, e).None? && fault.Clean? {
      SnocParts(w.accepted, e);
      assert w.accepted != [] ==> !Terminal(w.accepted[|w.accepted| - 1].body);
    }
  }

  lemma {:induction false} ReceiptConsistent(
      cfg: Config, w: Log, elapsedMs: u64, body: Body, fault: WriteFault, restoreFails: bool)
    requires ValidConfig(cfg) && Consistent(cfg, w)
    ensures Consistent(cfg, AppendReceipt(cfg, w, elapsedMs, body, fault, restoreFails).0)
  {
    AppendConsistent(cfg, w, elapsedMs, body, fault);
  }

  lemma {:induction false} TerminalConsistent(
      cfg: Config, w: Log, elapsedMs: u64, body: Body, fault: WriteFault)
    requires ValidConfig(cfg) && Consistent(cfg, w)
    ensures Consistent(cfg, AppendTerminal(cfg, w, elapsedMs, body, fault).0)
  {
    AppendConsistent(cfg, w, elapsedMs, WithOmitted(body, w.omitted), fault);
    AppendConsistent(cfg, w, elapsedMs, WithOmitted(body, 0), fault);
  }

  lemma {:induction false} ApplyConsistent(cfg: Config, w: Log, op: Op)
    requires ValidConfig(cfg) && Consistent(cfg, w)
    ensures Consistent(cfg, Apply(cfg, w, op))
  {
    match op
    case Mandatory(elapsed, body, fault) => AppendConsistent(cfg, w, elapsed, body, fault);
    case Receipt(elapsed, body, fault, restoreFails) =>
      ReceiptConsistent(cfg, w, elapsed, body, fault, restoreFails);
    case Finish(elapsed, body, fault) => TerminalConsistent(cfg, w, elapsed, body, fault);
    case _ =>
  }

  /** Every reachable log is consistent, whatever faults were injected. */
  lemma {:induction false} RunConsistent(cfg: Config, ops: seq<Op>)
    requires ValidConfig(cfg)
    ensures Consistent(cfg, Run(cfg, ops))
  {
    if ops != [] {
      RunConsistent(cfg, Front(ops));
      ApplyConsistent(cfg, Run(cfg, Front(ops)), Last(ops));
    }
  }

  // ---------- the terminal reserve ----------

  /** The worst-case line leaves exactly 40 digits for the two numbers and 138 bytes for the
      tag and the code. */
  lemma {:induction false} ReserveSize(cfg: Config)
    requires SizeLaw(cfg)
    ensures Reserve(cfg) == cfg.fixed + 40 + RUN_FAILED_TAG_BYTES + MAX_TERMINAL_CODE_BYTES
  {
    U64Digits(0);
  }

  /** A terminal line without the omission field fits the reserve, at every sequence number
      and every clock reading, exactly when its tag and code share the worst case's 138 bytes:
      at most 128 bytes of code for `run.failed`, at most 125 for `run.completed`. */
  lemma {:induction false} ReserveCoversExactly(cfg: Config, body: Body)
    requires SizeLaw(cfg) && Terminal(body) && PlainCode(body.code) && body.omitted == 0
    ensures (forall number: u64, elapsed: u64 ::
               |cfg.render(Event(number, elapsed, body))| <= Reserve(cfg))
        <==> |body.code| <= (if body.RunCompleted? then 125 else 128)
  {
    ReserveSize(cfg);
    U64Digits(0);
    var worst := cfg.render(Event(U64_MAX, U64_MAX, body));
    assert |worst| == TerminalSize(cfg.fixed, Event(U64_MAX, U64_MAX, body));
    forall number: u64, elapsed: u64
      ensures |cfg.render(Event(number, elapsed, body))| <= |worst|
    {
      U64Digits(number);
      U64Digits(elapsed);
      assert |cfg.render(Event(number, elapsed, body))|
          == TerminalSize(cfg.fixed, Event(number, elapsed, body));
    }
  }

  /** Codes the reserve was sized for. */
  predicate ReservedCode(body: Body) {
    && Terminal(body)
    && ValidCode(body.code)
    && (body.RunCompleted? ==> |body.code| <= 125)
  }

  /** The first attempt, which carries the omission count, overflows the 64-bit length before
      the log limit can refuse it. */
  ghost predicate LengthOverflows(cfg: Config, w: Log, elapsedMs: u64, body: Body) {
    var line := cfg.render(Event(w.nextSeq, elapsedMs, WithOmitted(body, w.omitted)));
    |line| <= cfg.maxLineBytes && w.bytesWritten + |line| > U64_MAX
  }

  /** From a consistent state that is neither poisoned nor terminated, a terminal event with
      a reserved code is always accepted, with the omission count or with zero in its place;
      the one exception is a log limit so close to 2^64 that the addition overflows. */
  lemma {:induction false} ReservedTerminalFits(
      cfg: Config, w: Log, elapsedMs: u64, body: Body)
    requires ValidConfig(cfg) && SizeLaw(cfg) && Consistent(cfg, w)
    requires !w.poisoned && !w.terminalWritten && ReservedCode(body)
    ensures var r := AppendTerminal(cfg, w, elapsedMs, body, Clean);
            && (r.1.Ok? <==> !LengthOverflows(cfg, w, elapsedMs, body))
            && (r.1.Ok? ==>
                  || r.1.value.body == WithOmitted(body, w.omitted)
                  || r.1.value.body == WithOmitted(body, 0))
  {
    ReserveCoversExactly(cfg, WithOmitted(body, 0));
    var plain := Event(w.nextSeq, elapsedMs, WithOmitted(body, 0));
    var full := Event(w.nextSeq, elapsedMs, WithOmitted(body, w.omitted));
    assert |cfg.render(plain)| <= Reserve(cfg);
    AdmitTerminal(cfg, w, plain);
    AdmitTerminal(cfg, w, full);
    TerminalOutcome(cfg, w, elapsedMs, body, plain, full);
  }

  lemma {:induction false} TerminalOutcome(
      cfg: Config, w: Log, elapsedMs: u64, body: Body, plain: Event, full: Event)
    requires ValidConfig(cfg) && Terminal(body)
    requires plain == Event(w.nextSeq, elapsedMs, WithOmitted(body, 0))
    requires full == Event(w.nextSeq, elapsedMs, WithOmitted(body, w.omitted))
    requires Admit(cfg, w, plain).None?
    ensures AppendTerminal(cfg, w, elapsedMs, body, Clean).1
         == match Admit(cfg, w, full)
            case None => Ok(full)
            case Some(error) =>
              if error.LineLimitExceeded? || error.LogLimitExceeded? then Ok(plain)
              else Err(error)
  {
    assert w.omitted == 0 ==> full == plain;
    AppendUnfolds(cfg, w, elapsedMs, plain.body);
    AppendUnfolds(cfg, w, elapsedMs, full.body);
  }

  lemma {:induction false} AppendUnfolds(cfg: Config, w: Log, elapsedMs: u64, body: Body)
    requires ValidConfig(cfg)
    ensures Append(cfg, w, elapsedMs, body, Clean).1
         == match Admit(cfg, w, Event(w.nextSeq, elapsedMs, body))
            case None => Ok(Event(w.nextSeq, elapsedMs, body))
            case Some(error) => Err(error)
  {
  }

  lemma {:induction false} AdmitTerminal(cfg: Config, w: Log, e: Event)
    requires ValidConfig(cfg) && Terminal(e.body) && ValidBody(e.body)
    requires !w.poisoned && !w.terminalWritten && w.nextSeq <= cfg.maxEvents - 1
    ensures Admit(cfg, w, e)
         == if |cfg.render(e)| > cfg.maxLineBytes then Some(LineLimitExceeded)
            else if w.bytesWritten + |cfg.render(e)| > U64_MAX then Some(LengthOverflow)
            else if w.bytesWritten + |cfg.render(e)| > cfg.maxLogBytes then Some(LogLimitExceeded)
            else None
  {
  }

  /** Whatever a run appended, omitted, refused or rolled back, an unpoisoned writer that has
      not terminated still accepts its terminal event. */
  lemma {:induction false} TerminalReserve(
      cfg: Config, ops: seq<Op>, elapsedMs: u64, body: Body)
    requires ValidConfig(cfg) && SizeLaw(cfg) && ReservedCode(body)
    requires cfg.maxLogBytes <= U64_MAX - OMISSION_FIELD_BYTES - 20
    requires !Run(cfg, ops).poisoned && !Run(cfg, ops).terminalWritten
    ensures AppendTerminal(cfg, Run(cfg, ops), elapsedMs, body, Clean).1.Ok?
  {
    var w := Run(cfg, ops);
    RunConsistent(cfg, ops);
    ReservedTerminalFits(cfg, w, elapsedMs, body);
    ReserveCoversExactly(cfg, WithOmitted(body, 0));
    var plain := Event(w.nextSeq, elapsedMs, WithOmitted(body, 0));
    var full := Event(w.nextSeq, elapsedMs, WithOmitted(body, w.omitted));
    assert |cfg.render(plain)| <= Reserve(cfg);
    assert |cfg.render(full)| == TerminalSize(cfg.fixed, full);
    assert |cfg.render(plain)| == TerminalSize(cfg.fixed, plain);
    U64Digits(w.omitted);
  }

  // ---------- frozen states ----------

  predicate SameLog(a: Log, b: Log) {
    a.file == b.file && a.hashed == b.hashed && a.accepted == b.accepted
  }

  lemma {:induction false} FrozenStep(cfg: Config, w: Log, op: Op)
    requires ValidConfig(cfg)
    requires w.poisoned || w.terminalWritten
    ensures var after := Apply(cfg, w, op);
            && SameLog(after, w)
            && after.poisoned == w.poisoned
            && after.terminalWritten == w.terminalWritten
            && (w.marker.Some? || (w.poisoned && !w.terminalWritten) ==> after.marker == w.marker)
  {
    match op
    case Mandatory(_, _, _) =>
    case Receipt(_, _, _, _) =>
    case Finish(_, _, _) =>
    case _ =>
  }

  function RunFrom(cfg: Config, w: Log, ops: seq<Op>): Log
    requires ValidConfig(cfg)
  {
    if ops == [] then w else Apply(cfg, RunFrom(cfg, w, Front(ops)), Last(ops))
  }

  /** A poisoned or terminated log never changes again; a published record is never replaced;
      and a poisoned log never gets a terminal event or a record. */
  lemma {:induction false} FrozenForever(cfg: Config, w: Log, more: seq<Op>)
    requires ValidConfig(cfg) && Consistent(cfg, w)
    requires w.poisoned || w.terminalWritten
    ensures var later := RunFrom(cfg, w, more);
            && SameLog(later, w)
            && later.poisoned == w.poisoned
            && later.terminalWritten == w.terminalWritten
            && (w.marker.Some? || w.poisoned ==> later.marker == w.marker)
  {
    if more != [] {
      FrozenForever(cfg, w, Front(more));
      FrozenStep(cfg, RunFrom(cfg, w, Front(more)), Last(more));
    }
  }

  // ---------- torn writes ----------

  predicate ReceiptFaultsOnly(ops: seq<Op>) {
    forall i :: 0 <= i < |ops| ==> ReceiptFault(ops[i])
  }

  predicate ReceiptFault(op: Op) {
    op.Mandatory? || op.Finish? ==> op.fault.Clean?
  }

  lemma {:induction false} CutTail(file: Text, tail: Text)
    ensures SetLength(file + tail, |file|) == file
  {
  }

  lemma {:induction false} ReceiptAgrees(
      cfg: Config, w: Log, elapsedMs: u64, body: Body, fault: WriteFault, restoreFails: bool)
    requires ValidConfig(cfg) && w.bytesWritten == |w.hashed|
    requires w.file == w.hashed
    ensures var after := AppendReceipt(cfg, w, elapsedMs, body, fault, restoreFails).0;
            after.poisoned || after.file == after.hashed
  {
    var line := cfg.render(Event(w.nextSeq, elapsedMs, body));
    if fault.Torn? {
      CutTail(w.file, line[..Min(fault.written, |line|)]);
    }
  }

  /** The file holds exactly the accepted lines, or the writer is poisoned with neither a terminal
      event nor a run record. */
  ghost predicate Uncorrupted(cfg: Config, w: Log)
    requires ValidConfig(cfg)
  {
    && Consistent(cfg, w)
    && if w.poisoned then !w.terminalWritten && w.marker.None? else w.file == w.hashed
  }

  lemma {:induction false} UncorruptedStep(cfg: Config, w: Log, op: Op)
    requires ValidConfig(cfg) && Uncorrupted(cfg, w) && ReceiptFault(op)
    ensures Uncorrupted(cfg, Apply(cfg, w, op))
  {
    ApplyConsistent(cfg, w, op);
    if w.poisoned {
      FrozenStep(cfg, w, op);
    } else {
      match op
      case Receipt(elapsed, body, fault, restoreFails) =>
        ReceiptAgrees(cfg, w, elapsed, body, fault, restoreFails);
      case _ =>
    }
  }

  /** With torn writes injected into receipt appends only, the file holds exactly the accepted
      lines, or the writer is poisoned with neither a terminal event nor a run record. */
  lemma {:induction false} ReceiptFaultsNeverCorrupt(cfg: Config, ops: seq<Op>)
    requires ValidConfig(cfg) && ReceiptFaultsOnly(ops)
    ensures var w := Run(cfg, ops);
            && Uncorrupted(cfg, w)
            && (!w.poisoned ==> w.file == Lines(cfg, w.accepted) && |w.file| == w.bytesWritten)
  {
    if ops == [] {
      RunConsistent(cfg, ops);
    } else {
      ReceiptFaultsNeverCorrupt(cfg, Front(ops));
      UncorruptedStep(cfg, Run(cfg, Front(ops)), Last(ops));
    }
  }

  /** A published record means the log ends in its only terminal event, numbered consecutively
      from zero, and no later operation changes the log or the record. */
  lemma {:induction false} PublishedIsFinal(cfg: Config, ops: seq<Op>, more: seq<Op>)
    requires ValidConfig(cfg) && Run(cfg, ops).marker.Some?
    ensures var w := Run(cfg, ops);
            && w.accepted != []
            && Terminal(Last(w.accepted).body)
            && (forall i :: 0 <= i < |w.accepted| - 1 ==> !Terminal(w.accepted[i].body))
            && (forall i :: 0 <= i < |w.accepted| ==> w.accepted[i].number == i)
    ensures SameLog(RunFrom(cfg, Run(cfg, ops), more), Run(cfg, ops))
    ensures RunFrom(cfg, Run(cfg, ops), more).marker == Run(cfg, ops).marker
  {
    RunConsistent(cfg, ops);
    FrozenForever(cfg, Run(cfg, ops), more);
  }

  // ---------- receipts ----------

  function ReceiptCount(events: seq<Event>): nat {
    if events == [] then 0
    else ReceiptCount(Front(events)) + if Last(events).body.ToolReceipt? then 1 else 0
  }

  /** An append that is not an error either adds its event or, for a receipt, raises the
      omission counter; an error does neither. */
  lemma {:induction false} ReceiptEffect(
      cfg: Config, w: Log, elapsedMs: u64, body: Body, fault: WriteFault, restoreFails: bool)
    requires ValidConfig(cfg) && body.ToolReceipt?
    ensures var (after, r) := AppendReceipt(cfg, w, elapsedMs, body, fault, restoreFails);
            && ReceiptCount(after.accepted)
               == ReceiptCount(w.accepted) + (if r.Ok? && r.value.Some? then 1 else 0)
            && after.omitted == (if r == Ok(None) then SatAdd(w.omitted, 1) else w.omitted)
            && after.marker == w.marker && after.terminalWritten == w.terminalWritten
  {
    SnocParts(w.accepted, Event(w.nextSeq, elapsedMs, body));
  }

  lemma {:induction false} AppendEffect(
      cfg: Config, w: Log, elapsedMs: u64, body: Body, fault: WriteFault)
    requires ValidConfig(cfg) && !body.ToolReceipt?
    ensures var (after, r) := Append(cfg, w, elapsedMs, body, fault);
            && ReceiptCount(after.accepted) == ReceiptCount(w.accepted)
            && after.omitted == w.omitted
            && after.marker == w.marker
            && after.accepted == (if r.Ok? then w.accepted + [r.value] else w.accepted)
            && (r.Ok? ==>
                  && r.value == Event(w.nextSeq, elapsedMs, body)
                  && after.bytesWritten == w.bytesWritten + |cfg.render(r.value)|)
            && after.terminalWritten == (w.terminalWritten || (r.Ok? && Terminal(body)))
  {
    SnocParts(w.accepted, Event(w.nextSeq, elapsedMs, body));
  }

  /** An accepted terminal event carries the omission counter, unless with it the line or the
      log would be too long: then it carries zero. */
  lemma {:induction false} TerminalEffect(
      cfg: Config, w: Log, elapsedMs: u64, body: Body, fault: WriteFault)
    requires ValidConfig(cfg) && Terminal(body)
    ensures var (after, r) := AppendTerminal(cfg, w, elapsedMs, body, fault);
            var full := Event(w.nextSeq, elapsedMs, WithOmitted(body, w.omitted));
            && ReceiptCount(after.accepted) == ReceiptCount(w.accepted)
            && after.omitted == w.omitted
            && after.marker == w.marker
            && (r.Ok? ==>
                  && after.terminalWritten
                  && after.accepted == w.accepted + [r.value]
                  && r.value.number == w.nextSeq
                  && r.value.elapsedMs == elapsedMs
                  && after.bytesWritten == w.bytesWritten + |cfg.render(r.value)|
                  && r.value.body == WithOmitted(body, if Oversized(cfg, w, full) then 0 else w.omitted))
  {
    AppendSizes(cfg, w, elapsedMs, WithOmitted(body, w.omitted), fault);
    AppendEffect(cfg, w, elapsedMs, WithOmitted(body, w.omitted), fault);
    AppendEffect(cfg, w, elapsedMs, WithOmitted(body, 0), fault);
    TerminalIsOneAppend(cfg, w, elapsedMs, body, fault);
  }

  /** A terminal append is the append with the counter, or the append without it when the
      first was refused for its size. */
  lemma {:induction false} TerminalIsOneAppend(
      cfg: Config, w: Log, elapsedMs: u64, body: Body, fault: WriteFault)
    requires ValidConfig(cfg) && Terminal(body)
    ensures var first := Append(cfg, w, elapsedMs, WithOmitted(body, w.omitted), fault);
            AppendTerminal(cfg, w, elapsedMs, body, fault) ==
              (if w.omitted > 0 && SizeRefusal(first.1)
               then Append(cfg, w, elapsedMs, WithOmitted(body, 0), fault) else first)
  {
  }

  predicate SizeRefusal(r: Result<Event, Error>) {
    r.Err? && (r.error.LineLimitExceeded? || r.error.LogLimitExceeded?)
  }

  lemma {:induction false} AppendSizes(
      cfg: Config, w: Log, elapsedMs: u64, body: Body, fault: WriteFault)
    requires ValidConfig(cfg) && Terminal(body)
    ensures var r := Append(cfg, w, elapsedMs, body, fault).1;
            var e := Event(w.nextSeq, elapsedMs, body);
            && (SizeRefusal(r) ==> Oversized(cfg, w, e))
            && (r.Ok? ==> !Oversized(cfg, w, e))
  {
  }

  /** The line is too long for the line limit, or for what is left of the log. */
  predicate Oversized(cfg: Config, w: Log, e: Event) {
    || |cfg.render(e)| > cfg.maxLineBytes
    || w.bytesWritten + |cfg.render(e)| > cfg.maxLogBytes
  }
}
