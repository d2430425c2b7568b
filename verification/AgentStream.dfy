/** The provider's side of a run: from the bytes of its streams to the calls the run executes. */
module AgentStream {
  import opened Base
  import opened ProviderTurn
  import opened Response
  import opened AgentTrace
  import opened ResponseStreamObject
  import D = SseDecoding
  import R = Reconciliation

  /** Stream limits, and the parser of a frame. */
  datatype Provider = Provider(
    cfg: R.Settings, lim: D.Limits, parse: Text -> Option<R.Json>)

  /** What the frames of a whole response say, if its bytes can be decoded. */
  function Inputs(p: Provider, chunks: seq<Text>): Option<seq<R.Input>> {
    match D.FeedAll(p.lim, chunks)
    case Err(_) => None
    case Ok((decoder, frames)) =>
      match D.Finish(p.lim, decoder)
      case Err(_) => None
      case Ok((_, last)) => Some(InputsOf(p.parse, frames + last))
  }

  /** The chunks are received as this turn. */
  predicate Receives(p: Provider, chunks: seq<Text>, turn: CompletedTurn) {
    && Inputs(p, chunks).Some?
    && R.FinishStream(p.cfg, Inputs(p, chunks).value) == Ok(turn)
  }

  /** The run takes its answers from this provider. */
  ghost predicate Speaks(p: Provider, o: Outside) {
    forall turn :: o.streams(turn) ==> exists chunks :: Receives(p, chunks, turn)
  }

  /** Everything a stream said about a call is what the answer says. */
  ghost predicate SaidAlike(inputs: seq<R.Input>, output: seq<OutputItem>) {
    forall index :: R.Streamed(inputs, index) ==> R.Reconciled(inputs, index, output)
  }

  lemma {:induction false} ReceivedAlike(p: Provider, chunks: seq<Text>, turn: CompletedTurn)
    requires Receives(p, chunks, turn)
    ensures SaidAlike(Inputs(p, chunks).value, turn.output)
  {
    R.FinishedStreamReconciled(p.cfg, Inputs(p, chunks).value);
  }

  /** Every call a run registers was received and validated: it is one of the calls of a validated
      turn, that turn is what some chunks of bytes decode and reconcile to, and wherever those
      chunks streamed a call, its id, name and arguments are the turn's. */
  lemma {:induction false} RegisteredIsReceived(
      p: Provider, o: Outside, r: Rules, t: Trace, k: nat)
    returns (turn: CompletedTurn, n: nat, chunks: seq<Text>)
    requires Speaks(p, o) && Accepted(r, t) && Sound(o, t) && k < |t| && t[k].Registered?
    ensures exists j :: 0 <= j < k && t[j] == Answered(true, turn.output)
    ensures n < |Calls(turn.output)| && Calls(turn.output)[n].callId == t[k].id
    ensures Authoritative(turn, o.limits) && Receives(p, chunks, turn)
    ensures SaidAlike(Inputs(p, chunks).value, turn.output)
  {
    var j;
    j, n := RegisteredIsValid(o, r, t, k);
    turn :| ValidatedAs(o, turn, t[j].response);
    chunks :| Receives(p, chunks, turn);
    ReceivedAlike(p, chunks, turn);
  }
}
