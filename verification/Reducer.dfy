/** The state an `Agent` rebuilds from the events of its run. */
module Reducer {
  import opened Prelude
  import opened Transcript

  class AgentState {
    var messages: seq<Message>
    var streaming: Option<Message>
    var pending: set<string>
    var error: Option<string>
    var isStreaming: bool

    constructor (messages: seq<Message>)
      ensures View() == Reduced(messages, None, {}, None) && !isStreaming
    {
      this.messages, streaming, pending, error, isStreaming := messages, None, {}, None, false;
    }

    ghost function View(): Reduced
      reads this
    {
      Reduced(messages, streaming, pending, error)
    }

    method ApplyEvent(e: Event)
      modifies this`messages, this`streaming, this`pending, this`error
      ensures View() == Reduce(old(View()), e)
    {
      if (e.MessageStart? && e.message.Assistant?) || e.MessageUpdate? {
        streaming := Some(e.message);
      } else if e.MessageEnd? {
        messages := messages + [e.message];
        if e.message.Assistant? {
          streaming := None;
          if e.message.stop == Error || e.message.stop == Aborted {
            error := e.message.error;
          }
        }
      } else if e.ToolStart? {
        pending := pending + {e.id};
      } else if e.ToolEnd? {
        pending := pending - {e.id};
      }
    }
  }
}
