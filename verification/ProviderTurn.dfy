/** A completed provider response, as the stream reconciler hands it to the agent loop. */
module ProviderTurn {
  import opened Base

  datatype OutputItem =
    | Message(text: Text)
    | Thought(payload: Text)
    | Call(callId: Text, name: Text, argumentsJson: Text)

  datatype CompletedTurn = CompletedTurn(responseId: Text, model: Text, output: seq<OutputItem>)
}
