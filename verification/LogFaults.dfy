/** What torn appends leave in the log file, over every run with any faults. */
module LogFaults {
  import opened Base
  import opened EventLog
  import opened LogJson

  /** The file against the digest: the hashed bytes with `junk` behind them, or, once a line was
      accepted on top of junk, something else for good. */
  datatype Residue = Behind(junk: Text) | Buried

  /** A line accepted behind junk. The hashed bytes are still the start of the file exactly
      when the line is the start of the junk followed by the line. */
  function Bury(junk: Text, line: Text): Residue {
    if line <= junk + line then Behind((junk + line)[|line|..]) else Buried
  }

  function AppendResidue(cfg: Config, w: Log, e: Event, fault: WriteFault, junk: Text): Residue
    requires ValidConfig(cfg)
  {
    if Admit(cfg, w, e).Some? then Behind(junk)
    else match fault
      case Torn(n) => Behind(junk + cfg.render(e)[..Min(n, |cfg.render(e)|)])
      case Clean => Bury(junk, cfg.render(e))
  }

  /** The event a terminal append finally tries to write. */
  function TerminalTried(cfg: Config, w: Log, elapsedMs: u64, body: Body): Event
    requires ValidConfig(cfg)
  {
    var full := Event(w.nextSeq, elapsedMs, WithOmitted(body, w.omitted));
    var refused := Admit(cfg, w, full);
    if w.omitted > 0 && (refused == Some(LineLimitExceeded) || refused == Some(LogLimitExceeded))
    then Event(w.nextSeq, elapsedMs, WithOmitted(body, 0)) else full
  }

  /** A torn append leaves its bytes behind, whichever append it was; only restoring the length
      after a torn receipt removes what lies behind the hashed bytes. */
  function ResidueStep(cfg: Config, w: Log, op: Op, d: Residue): Residue
    requires ValidConfig(cfg)
  {
    if d.Buried? then Buried
    else match op
      case Mandatory(elapsed, body, fault) =>
        if Terminal(body) then d
        else AppendResidue(cfg, w, Event(w.nextSeq, elapsed, body), fault, d.junk)
      case Receipt(elapsed, body, fault, restoreFails) =>
        var e := Event(w.nextSeq, elapsed, body);
        if Terminal(body) then d
        else if Admit(cfg, w, e).None? && fault.Torn? && !restoreFails then Behind([])
        else AppendResidue(cfg, w, e, fault, d.junk)
      case Finish(elapsed, body, fault) =>
        if !Terminal(body) then d
        else AppendResidue(cfg, w, TerminalTried(cfg, w, elapsed, body), fault, d.junk)
      case _ => d
  }

  function ResidueOf(cfg: Config, ops: seq<Op>): Residue
    requires ValidConfig(cfg)
  {
    if ops == [] then Behind([])
    else ResidueStep(cfg, Run(cfg, Front(ops)), Last(ops), ResidueOf(cfg, Front(ops)))
  }

  ghost predicate Shows(file: Text, hashed: Text, d: Residue) {
    match d
    case Behind(junk) => file == hashed + junk
    case Buried => |hashed| <= |file| && !(hashed <= file)
  }

  lemma {:induction false} BuryShows(file: Text, hashed: Text, junk: Text, line: Text)
    requires file == hashed + junk
    ensures Shows(file + line, hashed + line, Bury(junk, line))
  {
    var whole := file + line;
    assert whole == hashed + (junk + line);
    assert whole[..|hashed| + |line|] == hashed + (junk + line)[..|line|];
    if line <= junk + line {
      assert whole == hashed + line + (junk + line)[|line|..];
    } else {
      var i :| 0 <= i < |line| && line[i] != (junk + line)[i];
      assert (hashed + line)[|hashed| + i] == line[i];
      assert whole[|hashed| + i] == (junk + line)[i];
    }
  }

  /** Bytes that differ stay different, whatever is appended or cut off behind them. */
  lemma {:induction false} BuriedShows(file: Text, hashed: Text, more: Text, line: Text)
    requires Shows(file, hashed, Buried)
    ensures Shows(file + more, hashed, Buried)
    ensures Shows(file + line, hashed + line, Buried)
    ensures Shows(SetLength(file, |hashed|), hashed, Buried)
  {
    var i :| 0 <= i < |hashed| && hashed[i] != file[i];
    assert (file + more)[i] == (file + line)[i] == file[i] && (hashed + line)[i] == hashed[i];
    assert SetLength(file, |hashed|)[i] == file[i];
  }

  lemma {:induction false} AppendShows(
      cfg: Config, w: Log, elapsedMs: u64, body: Body, fault: WriteFault, d: Residue)
    requires ValidConfig(cfg) && Shows(w.file, w.hashed, d)
    ensures var after := Append(cfg, w, elapsedMs, body, fault).0;
            var e := Event(w.nextSeq, elapsedMs, body);
            Shows(after.file, after.hashed,
                  if d.Buried? then Buried else AppendResidue(cfg, w, e, fault, d.junk))
  {
    var line := cfg.render(Event(w.nextSeq, elapsedMs, body));
    var torn := if fault.Torn? then line[..Min(fault.written, |line|)] else [];
    match d
    case Behind(junk) =>
      Assoc(w.hashed, junk, torn);
      BuryShows(w.file, w.hashed, junk, line);
    case Buried => BuriedShows(w.file, w.hashed, torn, line);
  }

  lemma {:induction false} RestoreShows(file: Text, hashed: Text, torn: Text, d: Residue)
    requires Shows(file, hashed, d)
    ensures Shows(SetLength(file + torn, |hashed|), hashed,
                  if d.Buried? then Buried else Behind([]))
  {
    match d
    case Behind(junk) =>
      Assoc(hashed, junk, torn);
      CutTail(hashed, junk + torn);
      EmptyConcat(hashed);
    case Buried =>
      BuriedShows(file, hashed, torn, []);
      BuriedShows(file + torn, hashed, [], []);
  }

  lemma {:induction false} ReceiptShows(
      cfg: Config, w: Log, elapsedMs: u64, body: Body, fault: WriteFault, restoreFails: bool,
      d: Residue)
    requires ValidConfig(cfg) && Shows(w.file, w.hashed, d) && w.bytesWritten == |w.hashed|
    ensures var after := AppendReceipt(cfg, w, elapsedMs, body, fault, restoreFails).0;
            Shows(after.file, after.hashed,
                  ResidueStep(cfg, w, Receipt(elapsedMs, body, fault, restoreFails), d))
  {
    AppendShows(cfg, w, elapsedMs, body, fault, d);
    var line := cfg.render(Event(w.nextSeq, elapsedMs, body));
    if fault.Torn? {
      RestoreShows(w.file, w.hashed, line[..Min(fault.written, |line|)], d);
    }
  }

  lemma {:induction false} FinishShows(
      cfg: Config, w: Log, elapsedMs: u64, body: Body, fault: WriteFault, d: Residue)
    requires ValidConfig(cfg) && Shows(w.file, w.hashed, d) && Terminal(body)
    ensures var after := AppendTerminal(cfg, w, elapsedMs, body, fault).0;
            Shows(after.file, after.hashed,
                  ResidueStep(cfg, w, Finish(elapsedMs, body, fault), d))
  {
    TerminalIsOneAppend(cfg, w, elapsedMs, body, fault);
    AppendShows(cfg, w, elapsedMs, WithOmitted(body, w.omitted), fault, d);
    AppendShows(cfg, w, elapsedMs, WithOmitted(body, 0), fault, d);
  }

  /** Over every run, with any torn appends and any restores: the file agrees with its digest
      exactly when nothing is left behind the hashed bytes. Torn mandatory and terminal appends
      leave bytes there and poison nothing; a restored receipt removes them as long as no line
      was accepted on top of them; once one was, the file never agrees again. */
  lemma {:induction false} FileAgreesExactly(cfg: Config, ops: seq<Op>)
    requires ValidConfig(cfg)
    ensures Shows(Run(cfg, ops).file, Run(cfg, ops).hashed, ResidueOf(cfg, ops))
    ensures Run(cfg, ops).file == Run(cfg, ops).hashed <==> ResidueOf(cfg, ops) == Behind([])
  {
    if ops != [] {
      var w, d := Run(cfg, Front(ops)), ResidueOf(cfg, Front(ops));
      FileAgreesExactly(cfg, Front(ops));
      RunConsistent(cfg, Front(ops));
      match Last(ops)
      case Mandatory(elapsed, body, fault) => AppendShows(cfg, w, elapsed, body, fault, d);
      case Receipt(elapsed, body, fault, restoreFails) =>
        ReceiptShows(cfg, w, elapsed, body, fault, restoreFails, d);
      case Finish(elapsed, body, fault) =>
        if Terminal(body) {
          FinishShows(cfg, w, elapsed, body, fault, d);
        }
      case _ =>
    }
    EmptyConcat(Run(cfg, ops).hashed);
  }

  lemma {:induction false} BuriedForever(cfg: Config, ops: seq<Op>, more: seq<Op>)
    requires ValidConfig(cfg) && ResidueOf(cfg, ops).Buried?
    ensures Run(cfg, ops + more).file != Run(cfg, ops + more).hashed
  {
    BuriedStays(cfg, ops, more);
    FileAgreesExactly(cfg, ops + more);
  }

  lemma {:induction false} BuriedStays(cfg: Config, ops: seq<Op>, more: seq<Op>)
    requires ValidConfig(cfg) && ResidueOf(cfg, ops).Buried?
    ensures ResidueOf(cfg, ops + more).Buried?
  {
    if more == [] {
      EmptyConcat(ops);
    } else {
      BuriedStays(cfg, ops, Front(more));
      assert Front(ops + more) == ops + Front(more);
    }
  }

  /** One line of the log: its only line feed is its last byte. */
  predicate OneLine(line: Text) {
    && line != [] && Last(line) == 10
    && forall i :: 0 <= i < |line| - 1 ==> line[i] != 10
  }

  /** On junk, a line can only be accepted without harm if the whole same line was already
      written there, its synchronisation having failed. */
  lemma {:induction false} LineBuriesJunk(junk: Text, line: Text)
    requires OneLine(line) && junk != []
    ensures Bury(junk, line).Buried? <==> !(line <= junk)
  {
    var whole := junk + line;
    if |line| <= |junk| {
      assert whole[..|line|] == junk[..|line|];
    } else {
      assert whole[|line| - 1] == line[|line| - 1 - |junk|] != 10;
    }
  }

  // ---------- witness runs ----------

  /** A writer with JSON lines and ordinary limits. */
  function JsonConfig(): Config {
    Config((e: Event) => JsonLine([], e), JSON_PUNCTUATION_BYTES, 64, 4096, 65536, 4096)
  }

  const PROGRESS := Operational(Ascii("tool.registered"), Ascii("{}"), true)
  /** The bytes of "completed". */
  const COMPLETED := RunCompleted([99, 111, 109, 112, 108, 101, 116, 101, 100], 0)

  lemma {:induction false} JsonConfigFits()
    ensures ValidConfig(JsonConfig()) && SizeLaw(JsonConfig()) && Reserve(JsonConfig()) == 223
  {
    JsonObeysSizeLaw([], JsonConfig());
    ReserveSize(JsonConfig());
  }

  lemma {:induction false} JsonLines()
    ensures 0 < |JsonLine([], Event(0, 0, PROGRESS))| <= 100
    ensures 0 < |JsonLine([], Event(0, 0, ToolReceipt([], true)))| <= 100
  {
    assert |Decimal(0)| == 1;
  }

  lemma {:induction false} CloseCode()
    ensures ReservedCode(COMPLETED) && |COMPLETED.code| == 9
  {
  }

  lemma {:induction false} CloseLine(code: Text)
    requires PlainCode(code) && |code| == 9
    ensures |JsonLine([], Event(0, 0, RunCompleted(code, 0)))| == 69
  {
    assert |Decimal(0)| == 1;
    PlainCodeUnescaped(code);
    JsonSize([], Event(0, 0, RunCompleted(code, 0)));
  }

  const TORN := Mandatory(0, PROGRESS, Torn(1))
  const CLOSED := Finish(0, COMPLETED, Clean)
  const TORN_CLOSE := Finish(0, COMPLETED, Torn(1))
  const RESTORED := Receipt(0, ToolReceipt([], true), Torn(0), false)
  const PUBLISHED := Publish(Record([], true, true), NoCommitFault)

  /** An empty log accepts the first line of `body`, which is not empty. */
  predicate Opens(cfg: Config, body: Body)
    requires ValidConfig(cfg)
  {
    Admit(cfg, EMPTY, Event(0, 0, body)).None? && |cfg.render(Event(0, 0, body))| > 0
  }

  lemma {:induction false} ShortLineOpens(cfg: Config, body: Body)
    requires ValidConfig(cfg) && ValidBody(body)
    requires 0 < |cfg.render(Event(0, 0, body))| <= 100
    requires 100 <= cfg.maxLineBytes && Reserve(cfg) + 100 <= cfg.maxLogBytes
    ensures Opens(cfg, body)
  {
  }

  lemma {:induction false} TornFirst(cfg: Config)
    requires ValidConfig(cfg) && Opens(cfg, PROGRESS)
    ensures var w := Run(cfg, [TORN]); w == EMPTY.(file := w.file) && |w.file| == 1
  {
    assert Front([TORN]) == [] && Last([TORN]) == TORN;
  }

  lemma {:induction false} TornThenClosed(cfg: Config)
    requires ValidConfig(cfg) && Opens(cfg, PROGRESS) && Opens(cfg, COMPLETED)
    ensures var w := Run(cfg, [TORN, CLOSED]);
            w.terminalWritten && !w.poisoned && w.marker.None? && |w.file| == |w.hashed| + 1
  {
    TornFirst(cfg);
    assert Front([TORN, CLOSED]) == [TORN] && Last([TORN, CLOSED]) == CLOSED;
    assert Admit(cfg, Run(cfg, [TORN]), Event(0, 0, COMPLETED)).None?;
  }

  /** One torn mandatory append is enough: the run still writes its terminal event and publishes
      its record, and the file does not agree with the digest. */
  lemma {:induction false} TornAppendIsPublished(cfg: Config)
    requires ValidConfig(cfg) && Opens(cfg, PROGRESS) && Opens(cfg, COMPLETED)
    ensures var w := Run(cfg, [TORN, CLOSED, PUBLISHED]);
            w.marker.Some? && !w.poisoned && w.file != w.hashed
  {
    TornThenClosed(cfg);
    assert Front([TORN, CLOSED, PUBLISHED]) == [TORN, CLOSED];
    assert Last([TORN, CLOSED, PUBLISHED]) == PUBLISHED;
  }

  /** A torn terminal append disagrees as well. */
  lemma {:induction false} TornTerminalDisagrees(cfg: Config)
    requires ValidConfig(cfg) && Opens(cfg, COMPLETED)
    ensures var w := Run(cfg, [TORN_CLOSE]); w.file != w.hashed
  {
    assert Front([TORN_CLOSE]) == [] && Last([TORN_CLOSE]) == TORN_CLOSE;
  }

  /** A torn receipt restored right after a torn mandatory append makes the file agree again. */
  lemma {:induction false} RestoringHeals(cfg: Config)
    requires ValidConfig(cfg) && Opens(cfg, PROGRESS) && Opens(cfg, ToolReceipt([], true))
    ensures var w := Run(cfg, [TORN, RESTORED]); w.file == w.hashed && w.omitted == 1
  {
    TornFirst(cfg);
    assert Front([TORN, RESTORED]) == [TORN] && Last([TORN, RESTORED]) == RESTORED;
    assert Admit(cfg, Run(cfg, [TORN]), Event(0, 0, ToolReceipt([], true))).None?;
  }

  /** All three runs exist: the JSON writer opens its log with these lines. */
  lemma {:induction false} JsonOpens()
    ensures ValidConfig(JsonConfig())
    ensures Opens(JsonConfig(), PROGRESS) && Opens(JsonConfig(), COMPLETED)
    ensures Opens(JsonConfig(), ToolReceipt([], true))
  {
    JsonConfigFits();
    JsonLines();
    CloseCode();
    CloseLine(COMPLETED.code);
    ShortLineOpens(JsonConfig(), PROGRESS);
    ShortLineOpens(JsonConfig(), COMPLETED);
    ShortLineOpens(JsonConfig(), ToolReceipt([], true));
  }
}
