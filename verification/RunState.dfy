/** The state of one run: staged tool receipts, provider accounting, and the exit that
    finalizes once. */
module RunStateObject {
  import opened Base
  import opened EventLog
  import opened EventWriterObject
  import opened Usage
  import opened UsageObject

  const MAX_STAGED_SAMPLES: nat := 256
  const MAX_STAGED_BYTES: nat := 256 * 1024

  /** A tool receipt and its JSON encoding. */
  datatype Sample = Sample(encoded: Text, valid: bool)

  datatype Status =
    | Success | ProviderFailure | ToolFailure | DeadlineFailure | Cancelled | RuntimeFailure

  datatype Phase =
    | ProviderPhase | ToolPhase | BridgePhase | DeadlinePhase | CancellationPhase
    | ArtifactPhase | RuntimePhase

  datatype Outcome = Outcome(status: Status, phase: Option<Phase>, code: Text)

  datatype RunRecord = RunRecord(
    outcome: Outcome, finalEventSeq: u64, endElapsedMs: u64, turnCount: u64, callCount: u64,
    coverage: Coverage, totals: Totals, digest: Text)

  datatype RunError =
    | Writer(error: Error)
    | RecordRejected
    | TerminalFailure(code: Text, publication: Publication)

  datatype Finalized = Finalized(record: RunRecord, publication: Publication)

  /** `validate_modern_run_record`, identities and digest shapes aside. */
  predicate ValidOutcome(o: Outcome) {
    && ValidCode(o.code)
    && match o.status
       case Success => o.phase.None?
       case ProviderFailure => o.phase == Some(ProviderPhase)
       case ToolFailure => o.phase == Some(ToolPhase) || o.phase == Some(BridgePhase)
       case DeadlineFailure => o.phase == Some(DeadlinePhase)
       case Cancelled => o.phase == Some(CancellationPhase)
       case RuntimeFailure => o.phase == Some(RuntimePhase) || o.phase == Some(ArtifactPhase)
  }

  predicate ValidRecord(r: RunRecord) {
    ValidOutcome(r.outcome) && ValidCoverage(r.coverage) && r.turnCount == r.coverage.requested
  }

  function EncodedBytes(samples: seq<Sample>): nat {
    if samples == [] then 0 else EncodedBytes(Front(samples)) + |Last(samples).encoded|
  }

  lemma {:induction false} EncodedSnoc(samples: seq<Sample>, s: Sample)
    ensures EncodedBytes(samples + [s]) == EncodedBytes(samples) + |s.encoded|
  {
    SnocParts(samples, s);
  }

  function TerminalBody(o: Outcome): Body {
    if o.status.Success? then RunCompleted(o.code, 0) else RunFailed(o.code, 0)
  }

  /** The result a settled run gives, the first time and every later time. */
  function Settled(f: Finalized): Result<Finalized, RunError> {
    if f.record.outcome.status.Success? then Ok(f)
    else Err(TerminalFailure(f.record.outcome.code, f.publication))
  }

  /** One receipt append, seen from the run: written, omitted, or an error. */
  method WriteReceipt(writer: EventWriter, sample: Sample) returns (r: Result<bool, Error>)
    requires writer.Valid()
    modifies writer
    ensures writer.Valid()
    ensures ReceiptCount(writer.accepted)
         == old(ReceiptCount(writer.accepted)) + (if r == Ok(true) then 1 else 0)
    ensures writer.omitted
         == (if r == Ok(false) then SatAdd(old(writer.omitted), 1) else old(writer.omitted))
    ensures writer.marker == old(writer.marker)
  {
    var elapsedMs: u64 := *;
    var fault: WriteFault := *;
    var restoreFails: bool := *;
    var body := ToolReceipt(sample.encoded, sample.valid);
    ReceiptEffect(writer.cfg, writer.State(), elapsedMs, body, fault, restoreFails);
    var attempt := writer.AppendToolReceipt(elapsedMs, body, fault, restoreFails);
    r := if attempt.Ok? then Ok(attempt.value.Some?) else Err(attempt.error);
  }

  /** The loop of `flush_staged_tool_receipts`: each sample is written, omitted, or, after an
      error, left unsettled. */
  method WriteReceipts(writer: EventWriter, samples: seq<Sample>, ghost omissions: nat)
    returns (r: Result<(), Error>, ghost omittedNow: nat, ghost unsettled: nat)
    requires writer.Valid() && writer.omitted == Clamp(omissions)
    modifies writer
    ensures writer.Valid() && writer.marker == old(writer.marker)
    ensures writer.omitted == Clamp(omissions + omittedNow)
    ensures ReceiptCount(writer.accepted) + omittedNow + unsettled
         == old(ReceiptCount(writer.accepted)) + |samples|
    ensures r.Ok? ==> unsettled == 0
  {
    omittedNow, unsettled := 0, |samples|;
    for i := 0 to |samples|
      invariant writer.Valid() && writer.marker == old(writer.marker)
      invariant writer.omitted == Clamp(omissions + omittedNow)
      invariant unsettled == |samples| - i
      invariant ReceiptCount(writer.accepted) + omittedNow + unsettled
             == old(ReceiptCount(writer.accepted)) + |samples|
    {
      var written := WriteReceipt(writer, samples[i]);
      if written.Err? {
        r := Err(written.error);
        return;
      }
      unsettled := unsettled - 1;
      if !written.value {
        omittedNow := omittedNow + 1;
      }
    }
    r := Ok(());
  }

  /** The terminal append: its event carries the omission counter unless that made the line
      too long. */
  method WriteTerminal(writer: EventWriter, elapsedMs: u64, outcome: Outcome, fault: WriteFault)
    returns (r: Result<Event, Error>)
    requires writer.Valid()
    modifies writer
    ensures writer.Valid()
    ensures ReceiptCount(writer.accepted) == old(ReceiptCount(writer.accepted))
    ensures writer.omitted == old(writer.omitted) && writer.marker == old(writer.marker)
    ensures r.Ok? ==>
              && writer.terminalWritten
              && writer.accepted == old(writer.accepted) + [r.value]
              && r.value.elapsedMs == elapsedMs
              && CarriesCounter(writer.cfg, writer.bytesWritten, r.value, outcome, writer.omitted)
  {
    TerminalEffect(writer.cfg, writer.State(), elapsedMs, TerminalBody(outcome), fault);
    r := writer.AppendTerminal(elapsedMs, TerminalBody(outcome), fault);
  }

  /** A terminal event that ends a log of `bytes` bytes carries the omission counter, or zero
      exactly when the line with the counter would have passed a limit. */
  ghost predicate CarriesCounter(
      cfg: Config, bytes: nat, e: Event, o: Outcome, omitted: u64)
  {
    var full := e.(body := WithOmitted(TerminalBody(o), omitted));
    var start := bytes - |cfg.render(e)|;
    e.body ==
      if |cfg.render(full)| > cfg.maxLineBytes || start + |cfg.render(full)| > cfg.maxLogBytes
      then TerminalBody(o) else full.body
  }

  method PublishRecord(writer: EventWriter, bytes: Text, fault: CommitFault)
    returns (r: Result<Publication, Error>)
    requires writer.Valid()
    modifies writer
    ensures writer.Valid()
    ensures writer.State()
         == old(writer.State()).(marker := if r.Ok? then Some(bytes) else old(writer.marker))
  {
    r := writer.CommitRunRecord(Record(bytes, true, true), fault);
  }

  class RunState {
    const writer: EventWriter
    const usage: UsageAccumulator
    const sha: Text -> Text
    const encode: RunRecord -> Text
    var providerTurnCount: u64
    var toolCallCount: u64
    var staged: seq<Sample>
    var stagedBytes: nat
    var finalized: Option<Finalized>
    /** Receipts offered for staging plus receipts reported as omitted. */
    ghost var offered: nat
    /** The omission counter without saturation. */
    ghost var omissions: nat
    /** Receipts dropped because a flush failed part way. */
    ghost var lost: nat

    /** Receipts are conserved: each one offered was written, counted as omitted, is still
        staged, or was dropped by a failed flush. */
    ghost predicate Conserved()
      reads this, writer
    {
      && ReceiptCount(writer.accepted) + omissions + |staged| + lost == offered
      && writer.omitted == Clamp(omissions)
    }

    ghost predicate Valid()
      reads this, writer, usage
    {
      && writer.Valid()
      && usage.Valid()
      && Conserved()
      && |staged| <= MAX_STAGED_SAMPLES
      && stagedBytes == EncodedBytes(staged) <= MAX_STAGED_BYTES
      && providerTurnCount == usage.requested
      && (finalized.None? ==> writer.marker.None?)
      && (finalized.Some? ==>
            && writer.marker == Some(encode(finalized.value.record))
            && writer.terminalWritten)
    }

    constructor (writer: EventWriter, sha: Text -> Text, encode: RunRecord -> Text)
      requires writer.Valid() && writer.State() == EMPTY
      ensures Valid() && this.writer == writer && fresh(usage)
      ensures this.sha == sha && this.encode == encode
      ensures finalized.None? && staged == [] && offered == lost == 0
      ensures providerTurnCount == toolCallCount == 0 && usage.log == []
    {
      this.writer := writer;
      usage := new UsageAccumulator();
      this.sha := sha;
      this.encode := encode;
      providerTurnCount, toolCallCount, staged, stagedBytes, finalized := 0, 0, [], 0, None;
      offered, omissions, lost := 0, 0, 0;
      new;
      assert writer.State() == EMPTY;
    }

    /** `append_operational`. */
    method AppendOperational(elapsedMs: u64, body: Body, fault: WriteFault)
      returns (r: Result<(), Error>)
      requires Valid() && !body.ToolReceipt?
      modifies writer
      ensures Valid()
      ensures var spec :=
                EventLog.AppendOperational(writer.cfg, old(writer.State()), elapsedMs, body, fault);
              writer.State() == spec.0 && r.Ok? == spec.1.Ok?
    {
      AppendEffect(writer.cfg, writer.State(), elapsedMs, body, fault);
      var attempt := writer.AppendOperational(elapsedMs, body, fault);
      r := if attempt.Ok? then Ok(()) else Err(attempt.error);
    }

    /** `record_tool_receipt_omissions`. */
    method RecordToolReceiptOmissions(count: u64)
      requires Valid()
      modifies this`offered, this`omissions, writer
      ensures Valid()
      ensures offered == old(offered) + count
      ensures writer.accepted == old(writer.accepted) && writer.file == old(writer.file)
    {
      writer.RecordOmissions(count);
      offered := offered + count;
      omissions := omissions + count;
    }

    /** `stage_tool_receipt`: kept while both staging limits allow it, counted as omitted
        otherwise. */
    method StageToolReceipt(sample: Sample)
      requires Valid()
      modifies this`staged, this`stagedBytes, this`offered, this`omissions, writer
      ensures Valid()
      ensures offered == old(offered) + 1
      ensures staged == if |old(staged)| < MAX_STAGED_SAMPLES
                           && EncodedBytes(old(staged)) + |sample.encoded| <= MAX_STAGED_BYTES
                        then old(staged) + [sample] else old(staged)
    {
      var projected := stagedBytes + |sample.encoded|;
      if |staged| >= MAX_STAGED_SAMPLES || projected > MAX_STAGED_BYTES {
        RecordToolReceiptOmissions(1);
        return;
      }
      EncodedSnoc(staged, sample);
      stagedBytes := projected;
      staged := staged + [sample];
      offered := offered + 1;
    }

    /** `flush_staged_tool_receipts`: the staging area is emptied first, so an error part way
        loses what was not yet written. */
    method FlushStagedToolReceipts() returns (r: Result<(), Error>)
      requires Valid() && finalized.None?
      modifies this`staged, this`stagedBytes, this`omissions, this`lost, writer
      ensures Valid() && staged == []
      ensures r.Ok? ==> lost == old(lost)
    {
      var taken := staged;
      staged, stagedBytes := [], 0;
      ghost var omittedNow, unsettled;
      r, omittedNow, unsettled := WriteReceipts(writer, taken, omissions);
      omissions := omissions + omittedNow;
      lost := lost + unsettled;
    }

    /** `provider_requested`. */
    method ProviderRequested()
      requires Valid()
      modifies this`providerTurnCount, usage
      ensures Valid() && usage.log == old(usage.log) + [Requested]
    {
      usage.ObserveRequested();
      providerTurnCount := SatAdd(providerTurnCount, 1);
    }

    /** `provider_completed`. */
    method ProviderCompleted(report: Option<Report>)
      requires Valid()
      modifies usage
      ensures Valid() && usage.log == old(usage.log) + [Completed(report)]
    {
      usage.ObserveCompleted(report);
    }

    /** `provider_failed`. */
    method ProviderFailed(report: Option<Report>)
      requires Valid()
      modifies usage
      ensures Valid() && usage.log == old(usage.log) + [Failed(report)]
    {
      usage.ObserveFailed(report);
    }

    /** What a settled run left behind: every receipt accounted for, and a log closed by the
        terminal event the record names. */
    ghost predicate Closed(outcome: Outcome, lostBefore: nat)
      reads this, writer
    {
      && finalized.Some?
      && staged == []
      && ReceiptCount(writer.accepted) + omissions + lostBefore == offered
      && var record := finalized.value.record;
      && ValidRecord(record)
      && record.outcome == outcome
      && record.digest == sha(Lines(writer.cfg, writer.accepted))
      && record.turnCount == providerTurnCount
      && record.callCount == toolCallCount
      && writer.accepted != []
      && var last := Last(writer.accepted);
      && last.number == record.finalEventSeq == |writer.accepted| - 1
      && last.elapsedMs == record.endElapsedMs
      && CarriesCounter(writer.cfg, writer.bytesWritten, last, outcome, writer.omitted)
    }

    /** The second half of `finalize_once`: terminal event, record, publication. */
    method CloseLog(
        outcome: Outcome, elapsedMs: u64, fault: WriteFault, commitFault: CommitFault)
      returns (r: Result<Finalized, RunError>)
      requires Valid() && finalized.None? && staged == []
      modifies this`finalized, writer
      ensures Valid()
      ensures finalized.Some? ==> r == Settled(finalized.value) && Closed(outcome, lost)
      ensures finalized.None? ==> r.Err?
    {
      var appended := WriteTerminal(writer, elapsedMs, outcome, fault);
      if appended.Err? {
        return Err(Writer(appended.error));
      }
      var terminal := appended.value;
      var coverage, totals := usage.TakeSnapshot();
      var record := RunRecord(outcome, terminal.number, terminal.elapsedMs, providerTurnCount,
                              toolCallCount, coverage, totals, sha(writer.hashed));
      if !ValidRecord(record) {
        return Err(RecordRejected);
      }
      var published := PublishRecord(writer, encode(record), commitFault);
      if published.Err? {
        return Err(Writer(published.error));
      }
      finalized := Some(Finalized(record, published.value));
      r := Settled(finalized.value);
    }

    /** `finalize_once`: a finalized run is not touched again and answers as before; the first
        finalization accounts for every receipt and closes the log. */
    method FinalizeOnce(
        outcome: Outcome, elapsedMs: u64, fault: WriteFault, commitFault: CommitFault)
      returns (r: Result<Finalized, RunError>)
      requires Valid()
      modifies this`staged, this`stagedBytes, this`omissions, this`lost, this`finalized, writer
      ensures Valid()
      ensures old(finalized.Some?) ==>
                && finalized == old(finalized)
                && r == Settled(finalized.value)
                && writer.State() == old(writer.State())
      ensures old(finalized.None?) && finalized.Some? ==>
                r == Settled(finalized.value) && Closed(outcome, old(lost))
      ensures finalized.None? ==> r.Err?
    {
      if finalized.Some? {
        return Settled(finalized.value);
      }
      var flushed := FlushStagedToolReceipts();
      if flushed.Err? {
        return Err(Writer(flushed.error));
      }
      r := CloseLog(outcome, elapsedMs, fault, commitFault);
    }
  }
}
