/** The event writer object: every method moves the fields as the value-level log says. */
module EventWriterObject {
  import opened Base
  import opened EventLog
  import Spec = EventLog

  /** What creating the writer finds on disk. */
  datatype Directory = Directory(usable: bool, recordExists: bool, logExists: bool)

  datatype CreateError =
    | DirectoryInvalid | TerminalReserveTooSmall | RecordReserveTooSmall
    | MarkerExists | LogCreateFailed

  /** `create_with_io`. */
  method Create(cfg: Config, dir: Directory) returns (r: Result<EventWriter, CreateError>)
    ensures r.Ok? <==>
              dir.usable && ValidConfig(cfg) && !dir.recordExists && !dir.logExists
    ensures r.Ok? ==>
              fresh(r.value) && r.value.Valid() && r.value.cfg == cfg && r.value.State() == EMPTY
  {
    if !dir.usable { return Err(DirectoryInvalid); }
    if cfg.maxEvents < 2 { return Err(TerminalReserveTooSmall); }
    if cfg.maxRecordBytes < MIN_RUN_RECORD_BYTES { return Err(RecordReserveTooSmall); }
    var reserve := Reserve(cfg);
    if reserve > cfg.maxLineBytes || reserve > cfg.maxLogBytes {
      return Err(TerminalReserveTooSmall);
    }
    if dir.recordExists { return Err(MarkerExists); }
    if dir.logExists { return Err(LogCreateFailed); }
    var writer := new EventWriter(cfg);
    return Ok(writer);
  }

  class EventWriter {
    const cfg: Config
    const terminalReserve: nat
    var file: Text
    var hashed: Text
    ghost var accepted: seq<Event>
    var nextSeq: u64
    var bytesWritten: u64
    var terminalWritten: bool
    var poisoned: bool
    var omitted: u64
    var marker: Option<Text>

    ghost function State(): Log
      reads this
    {
      Log(file, hashed, accepted, nextSeq, bytesWritten, terminalWritten, poisoned, omitted,
          marker)
    }

    ghost predicate Valid()
      reads this
    {
      && ValidConfig(cfg)
      && terminalReserve == Reserve(cfg)
      && Consistent(cfg, State())
    }

    constructor (cfg: Config)
      requires ValidConfig(cfg)
      ensures Valid() && this.cfg == cfg && State() == EMPTY
    {
      this.cfg := cfg;
      terminalReserve := Reserve(cfg);
      file, hashed, accepted := [], [], [];
      nextSeq, bytesWritten, omitted := 0, 0, 0;
      terminalWritten, poisoned, marker := false, false, None;
      new;
      assert State() == EMPTY;
    }

    /** `append_inner`. */
    method AppendInner(elapsedMs: u64, body: Body, fault: WriteFault)
      returns (r: Result<Event, Error>)
      requires Valid()
      modifies this
      ensures Valid()
      ensures (State(), r) == Spec.Append(cfg, old(State()), elapsedMs, body, fault)
    {
      if poisoned { return Err(LogUnrecoverable); }
      if terminalWritten { return Err(AfterTerminal); }
      var terminal := Terminal(body);
      var eventLimit := if terminal then cfg.maxEvents else cfg.maxEvents - 1;
      if nextSeq >= eventLimit {
        return Err(if terminal then CountLimitExceeded else TerminalReserveExhausted);
      }
      var event := Event(nextSeq, elapsedMs, body);
      if !ValidBody(body) { return Err(ValidationFailed); }
      var line := cfg.render(event);
      if |line| > cfg.maxLineBytes { return Err(LineLimitExceeded); }
      if bytesWritten + |line| > U64_MAX { return Err(LengthOverflow); }
      var logLimit := if terminal then cfg.maxLogBytes else cfg.maxLogBytes - terminalReserve;
      if bytesWritten + |line| > logLimit {
        return Err(if terminal then LogLimitExceeded else TerminalReserveExhausted);
      }
      AppendConsistent(cfg, State(), elapsedMs, body, fault);
      match fault
      case Torn(n) =>
        file := file + line[..Min(n, |line|)];
        r := Err(SyncFailed);
      case Clean =>
        file := file + line;
        hashed := hashed + line;
        accepted := accepted + [event];
        bytesWritten := bytesWritten + |line|;
        nextSeq := nextSeq + 1;
        if terminal { terminalWritten := true; }
        r := Ok(event);
    }

    /** `append_operational` and `append_diagnostic_failure`. */
    method AppendOperational(elapsedMs: u64, body: Body, fault: WriteFault)
      returns (r: Result<Event, Error>)
      requires Valid()
      modifies this
      ensures Valid()
      ensures (State(), r) == Spec.AppendOperational(cfg, old(State()), elapsedMs, body, fault)
    {
      if Terminal(body) { return Err(TerminalRequiresReservedAppend); }
      r := AppendInner(elapsedMs, body, fault);
    }

    /** `append_tool_receipt`. */
    method AppendToolReceipt(elapsedMs: u64, body: Body, fault: WriteFault, restoreFails: bool)
      returns (r: Result<Option<Event>, Error>)
      requires Valid()
      modifies this
      ensures Valid()
      ensures (State(), r)
           == Spec.AppendReceipt(cfg, old(State()), elapsedMs, body, fault, restoreFails)
    {
      ReceiptConsistent(cfg, State(), elapsedMs, body, fault, restoreFails);
      var attempt := AppendOperational(elapsedMs, body, fault);
      match attempt
      case Ok(event) => r := Ok(Some(event));
      case Err(error) =>
        if error.CountLimitExceeded? || error.TerminalReserveExhausted?
           || error.LineLimitExceeded?
        {
          omitted := SatAdd(omitted, 1);
          r := Ok(None);
        } else if error.SyncFailed? {
          if restoreFails {
            poisoned := true;
            r := Err(RestoreFailed);
          } else {
            file := SetLength(file, bytesWritten);
            omitted := SatAdd(omitted, 1);
            r := Ok(None);
          }
        } else {
          r := Err(error);
        }
    }

    /** `record_tool_receipt_omissions`. */
    method RecordOmissions(count: u64)
      requires Valid()
      modifies this
      ensures Valid()
      ensures State() == Apply(cfg, old(State()), Omit(count))
    {
      ApplyConsistent(cfg, State(), Omit(count));
      omitted := SatAdd(omitted, count);
    }

    /** `append_terminal`. */
    method AppendTerminal(elapsedMs: u64, body: Body, fault: WriteFault)
      returns (r: Result<Event, Error>)
      requires Valid()
      modifies this
      ensures Valid()
      ensures (State(), r) == Spec.AppendTerminal(cfg, old(State()), elapsedMs, body, fault)
    {
      if !Terminal(body) { return Err(ReservedAppendRequiresTerminal); }
      var omittedSamples := omitted;
      r := AppendInner(elapsedMs, WithOmitted(body, omittedSamples), fault);
      if r.Err? && omittedSamples > 0
         && (r.error.LineLimitExceeded? || r.error.LogLimitExceeded?)
      {
        r := AppendInner(elapsedMs, WithOmitted(body, 0), fault);
      }
    }

    /** `commit_run_record`. */
    method CommitRunRecord(record: Record, fault: CommitFault)
      returns (r: Result<Publication, Error>)
      requires Valid()
      modifies this
      ensures Valid()
      ensures (State(), r) == Commit(cfg, old(State()), record, fault)
    {
      if !terminalWritten { return Err(RecordWithoutTerminal); }
      if !record.supported { return Err(RecordSchemaUnsupported); }
      if !record.valid { return Err(RecordInvalid); }
      if |record.bytes| > cfg.maxRecordBytes { return Err(RecordLimitExceeded); }
      if fault.TempCreate? { return Err(RecordTempCreateFailed); }
      if fault.TempSync? { return Err(RecordTempSyncFailed); }
      if fault.Rename? || marker.Some? { return Err(RecordPublishFailed); }
      marker := Some(record.bytes);
      r := Ok(if fault.DirectorySync? then DurabilityUncertain else Durable);
    }
  }
}
