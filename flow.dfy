/**
 * One chat turn across the browser widget and the relay: the widget sends
 * the trimmed text as `{ message }`, the relay answers `{ reply }` with a
 * status, and the widget shows the reply without looking at the status.
 */
module Flow {
  import opened Wrappers
  import opened Text
  import Relay
  import Widget

  /** `JSON.stringify({ message })`, as the relay's `req.json()` reads it back. */
  function RequestBody(message: string): (body: Relay.Body) {
    Relay.Parsed(Relay.Str(message))
  }

  /** `response.json()` on a relay response: only `reply` is used. */
  function Delivered(r: Relay.Response): (d: Widget.Delivery) {
    Widget.Reply(Some(r.reply))
  }

  /** What the user reads for each way the model call can end. */
  function Shown(u: Relay.Upstream): (shown: string) {
    match u
    case Generated(text) => if text != "" then text else Widget.NoReplyText
    case Threw(_) => Relay.UnavailableReply
  }

  /**
   * A message the widget accepts always passes the relay's validation: the
   * model is asked exactly once, with the trimmed text in the prompt, and
   * the assistant turn shows the model's text, the widget's fallback for an
   * empty text, or the relay's service-unavailable reply.
   */
  lemma {:induction false} AcceptedMessageReachesModel(text: string, policy: string, generate: Relay.ModelCall -> Relay.Upstream)
    requires !IsBlank(text)
    ensures var x := Relay.Post(policy, RequestBody(Trim(text)), generate);
            x.call == Some(Relay.ModelCall(Relay.ModelName, policy, Relay.Prompt(Trim(text))))
            && x.response.status != 400
            && Widget.AssistantContent(Delivered(x.response)) == Shown(generate(x.call.value))
  {
  }

  /**
   * The whole of `handleSendMessage` when the request reaches the relay (or,
   * with `reachable` false, cannot be made): an accepted message adds exactly
   * one user turn and one assistant turn and leaves the widget idle; a
   * refused one changes nothing and asks nothing of the model.
   */
  method HandleSendMessage(w: Widget.ChatWidget, text: string, reachable: bool, policy: string,
                           generate: Relay.ModelCall -> Relay.Upstream)
    returns (call: Option<Relay.ModelCall>)
    requires w.Valid()
    modifies w`messages, w`isLoading, w`sent
    ensures w.Valid()
    ensures !IsBlank(text) && !old(w.isLoading) ==>
              !w.isLoading && w.sent == old(w.sent) + [Trim(text)]
              && w.messages == old(w.messages)
                 + [Widget.Turn(Widget.User, Trim(text)),
                    Widget.Turn(Widget.Assistant,
                                if reachable then Shown(generate(Relay.ModelCall(Relay.ModelName, policy, Relay.Prompt(Trim(text)))))
                                else Widget.TransportFailureText)]
              && (call.Some? <==> reachable)
    ensures IsBlank(text) || old(w.isLoading) ==>
              call.None? && w.messages == old(w.messages) && w.isLoading == old(w.isLoading) && w.sent == old(w.sent)
  {
    var request := w.Submit(text);
    if request.None? {
      return None;
    }
    ghost var userTurns := w.messages;
    if reachable {
      AcceptedMessageReachesModel(text, policy, generate);
      var x := Relay.Post(policy, RequestBody(request.value), generate);
      call := x.call;
      w.Complete(Delivered(x.response));
      assert w.messages == userTurns + [Widget.Turn(Widget.Assistant, Shown(generate(x.call.value)))];
    } else {
      call := None;
      w.Complete(Widget.TransportFailure);
    }
  }
}
