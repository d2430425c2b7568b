/** Log lines as JSON, with the escapes of JSON strings. */
module LogJson {
  import opened Base
  import opened EventLog

  function TagOf(body: Body): Text {
    match body
    case Operational(tag, _, _) => tag
    case ToolReceipt(_, _) => Ascii("tool.receipt")
    case RunCompleted(_, _) => Ascii("run.completed")
    case RunFailed(_, _) => Ascii("run.failed")
  }

  function HexDigit(n: nat): byte
    requires n < 16
  {
    if n < 10 then (48 + n) as byte else (87 + n) as byte
  }

  /** How a byte stands in a JSON string. */
  function EscapedByte(b: byte): Text {
    if b == 34 then Ascii("\\\"")
    else if b == 92 then Ascii("\\\\")
    else if b == 8 then Ascii("\\b")
    else if b == 9 then Ascii("\\t")
    else if b == 10 then Ascii("\\n")
    else if b == 12 then Ascii("\\f")
    else if b == 13 then Ascii("\\r")
    else if b < 32 then Ascii("\\u00") + [HexDigit(b as nat / 16), HexDigit(b as nat % 16)]
    else [b]
  }

  function Escaped(t: Text): Text {
    if t == [] then [] else Escaped(Front(t)) + EscapedByte(Last(t))
  }

  lemma {:induction false} PlainCodeUnescaped(code: Text)
    requires PlainCode(code)
    ensures Escaped(code) == code
  {
    if code != [] {
      PlainCodeUnescaped(Front(code));
      FrontLast(code);
    }
  }

  function TerminalData(code: Text, omitted: u64): Text {
    Ascii("{\"code\":\"") + Escaped(code) + Ascii("\"")
    + (if omitted == 0 then []
       else Ascii(",\"tool_receipt_omitted_count\":") + Decimal(omitted))
    + Ascii("}")
  }

  function DataOf(body: Body): Text {
    match body
    case Operational(_, data, _) => data
    case ToolReceipt(data, _) => data
    case RunCompleted(code, omitted) => TerminalData(code, omitted)
    case RunFailed(code, omitted) => TerminalData(code, omitted)
  }

  /** One JSON line; `identity` renders the schema and the run, trial and attempt ids. */
  function JsonLine(identity: Text, e: Event): Text {
    identity + Decimal(e.number) + Ascii(",\"elapsed_ms\":") + Decimal(e.elapsedMs)
    + Ascii(",\"type\":\"") + TagOf(e.body) + Ascii("\",\"data\":") + DataOf(e.body) + Ascii("}\n")
  }

  const JSON_PUNCTUATION_BYTES: nat := 45

  /** The JSON encoding, escapes included, has the assumed sizes; a code outside the alphabet
      would not. */
  lemma {:induction false} JsonObeysSizeLaw(identity: Text, cfg: Config)
    requires cfg.render == ((e: Event) => JsonLine(identity, e))
    requires cfg.fixed == |identity| + JSON_PUNCTUATION_BYTES
    ensures SizeLaw(cfg)
    ensures var quote := Event(0, 0, RunFailed([34], 0));
            |cfg.render(quote)| == TerminalSize(cfg.fixed, quote) + 1
  {
    forall e: Event | Terminal(e.body) && PlainCode(e.body.code)
      ensures |cfg.render(e)| == TerminalSize(cfg.fixed, e)
    {
      PlainCodeUnescaped(e.body.code);
      JsonSize(identity, e);
    }
    assert Escaped([34]) == Escaped([]) + EscapedByte(34);
    JsonSize(identity, Event(0, 0, RunFailed([34], 0)));
  }

  lemma {:induction false} JsonSize(identity: Text, e: Event)
    requires Terminal(e.body)
    ensures |JsonLine(identity, e)|
         == TerminalSize(|identity| + JSON_PUNCTUATION_BYTES, e)
            + |Escaped(e.body.code)| - |e.body.code|
  {
    assert |TagOf(e.body)| == TagBytes(e.body);
    assert |DataOf(e.body)| == 11 + |Escaped(e.body.code)| + OmissionBytes(e.body.omitted);
  }
}
