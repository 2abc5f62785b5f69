/** POST /api/orders/send-tickets (app/api/orders/send-tickets/route.ts):
    asks the ticketing provider to e-mail the tickets of an order. The
    request body is the parsed JSON value (None when it is not JSON); the
    one provider call is answered by the `provider` parameter. */
module SendTickets {
  import opened Wrappers
  import opened Text
  import opened JsValues
  import opened Http

  const DefaultMode := "pdf"
  const MissingFieldsMessage := "Order ID and email are required"
  const SendFailedMessage := "Failed to send tickets"
  const ServerErrorMessage := "Internal server error"
  const SentMessagePrefix := "Billets envoyés à "

  /** The POST the route sends: the endpoint path and the body `{ email }`. */
  datatype SendCall = SendCall(path: string, email: JsValue)

  datatype SendReply =
    | Invalid                                  // 400, MissingFieldsMessage
    | ProviderFailed(status: int, details: string)  // the provider's status, SendFailedMessage
    | Sent(message: string)                    // 200, `success: true`
    | ServerFailed(error: Option<string>)      // 500, ServerErrorMessage, error as details
  {
    /** The HTTP status of the reply. */
    function Status(): int {
      match this
      case Invalid => 400
      case ProviderFailed(status, _) => status
      case Sent(_) => 200
      case ServerFailed(_) => 500
    }
  }

  /** What the route did: its reply and the provider call it made, if any. */
  datatype Handled = Handled(reply: SendReply, call: Option<SendCall>)

  /** `const { orderId, email, mode = 'pdf' } = body`: the default applies
      only when `mode` is undefined. */
  function ModeOf(body: JsValue): JsValue
    requires !Nullish(body)
  {
    var mode := Prop(body, "mode");
    if mode.Undefined? then Str(DefaultMode) else mode
  }

  /** `mode && mode !== 'pdf'` chooses the endpoint with the mode appended. */
  function EndpointPath(orderId: JsValue, mode: JsValue): string {
    var base := "/order/" + ToText(orderId) + "/send-tickets";
    if Truthy(mode) && mode != Str(DefaultMode) then base + "/" + ToText(mode) else base
  }

  /** The answer to the call, as the route reads it: a thrown fetch or body
      read is a 500, a response that is not ok carries its status and text. */
  function ReplyTo(outcome: Outcome, email: JsValue): SendReply {
    match outcome
    case Thrown(reason) => ServerFailed(Some(reason))
    case Answered(status, text, _) =>
      if outcome.Ok() then Sent(SentMessagePrefix + ToText(email)) else ProviderFailed(status, text)
  }

  /** The route. A body that is not JSON, or is null, throws before the
      checks and gives a 500 whose details are the engine's error message,
      which the model does not spell out (None). */
  function Post(request: Option<JsValue>, provider: SendCall -> Outcome): Handled {
    if request.None? then Handled(ServerFailed(None), None)
    else if Nullish(request.value) then Handled(ServerFailed(None), None)
    else
      var body := request.value;
      var orderId := Prop(body, "orderId");
      var email := Prop(body, "email");
      if !Truthy(orderId) || !Truthy(email) then Handled(Invalid, None)
      else
        var call := SendCall(EndpointPath(orderId, ModeOf(body)), email);
        Handled(ReplyTo(provider(call), email), Some(call))
  }

  /** The fields of an object body. */
  predicate Complete(body: JsValue)
    requires !Nullish(body)
  {
    Truthy(Prop(body, "orderId")) && Truthy(Prop(body, "email"))
  }

  // ---------------------------------------------------------------------
  // Properties

  /** The provider is called exactly when the body is an object value with
      a truthy orderId and a truthy email; otherwise the reply is a 400 for
      a missing field and a 500 for a body that is not JSON or is null. */
  lemma CallOnlyWhenComplete(request: Option<JsValue>, provider: SendCall -> Outcome)
    ensures var h := Post(request, provider);
            && (h.call.Some? <==> request.Some? && !Nullish(request.value) && Complete(request.value))
            && (request.Some? && !Nullish(request.value) && !Complete(request.value) ==> h.reply == Invalid)
            && (request.None? || Nullish(request.value) ==> h.reply.ServerFailed?)
  {
  }

  /** With no mode, and with mode 'pdf', the endpoint is the order's
      send-tickets path. */
  lemma DefaultModeIsPdf(body: JsValue)
    requires !Nullish(body) && (Prop(body, "mode").Undefined? || Prop(body, "mode") == Str("pdf"))
    ensures EndpointPath(Prop(body, "orderId"), ModeOf(body)) == "/order/" + ToText(Prop(body, "orderId")) + "/send-tickets"
  {
  }

  /** A truthy mode other than 'pdf' is appended as a last path segment; a
      falsy one (null, "", 0, false) selects the base endpoint like 'pdf'. */
  lemma ModeSelectsEndpoint(orderId: JsValue, mode: JsValue)
    ensures Truthy(mode) && mode != Str("pdf") ==>
      EndpointPath(orderId, mode) == "/order/" + ToText(orderId) + "/send-tickets/" + ToText(mode)
    ensures !Truthy(mode) || mode == Str("pdf") ==>
      EndpointPath(orderId, mode) == "/order/" + ToText(orderId) + "/send-tickets"
  {
    var base := "/order/" + ToText(orderId) + "/send-tickets";
    assert base + "/" + ToText(mode) == "/order/" + ToText(orderId) + "/send-tickets/" + ToText(mode);
  }

  /** Every endpoint is under the order's own send-tickets path. */
  lemma EndpointUnderOrder(orderId: JsValue, mode: JsValue)
    ensures StartsWith(EndpointPath(orderId, mode), "/order/" + ToText(orderId) + "/send-tickets")
  {
    var base := "/order/" + ToText(orderId) + "/send-tickets";
    var p := EndpointPath(orderId, mode);
    assert p[..|base|] == base;
  }

  /** The body sent is the request's email and nothing else, and the reply
      follows the provider's answer: its status and text when not ok, a
      message naming the e-mail when ok, a 500 when the call throws. */
  lemma ReplyFollowsAnswer(body: JsValue, provider: SendCall -> Outcome)
    requires !Nullish(body) && Complete(body)
    ensures var h := Post(Some(body), provider);
            var email := Prop(body, "email");
            && h.call == Some(SendCall(EndpointPath(Prop(body, "orderId"), ModeOf(body)), email))
            && var answer := provider(h.call.value);
               && (answer.Answered? && !answer.Ok() ==> h.reply == ProviderFailed(answer.status, answer.text))
               && (answer.Ok() ==> h.reply == Sent(SentMessagePrefix + ToText(email)))
               && (answer.Thrown? ==> h.reply == ServerFailed(Some(answer.reason)))
  {
  }

  /** The success message names the e-mail it was sent to. */
  lemma SentMessageNamesEmail(outcome: Outcome, email: JsValue)
    requires outcome.Ok()
    ensures ReplyTo(outcome, email).Sent?
    ensures Contains(ReplyTo(outcome, email).message, ToText(email))
  {
    var m := SentMessagePrefix + ToText(email);
    assert m[|SentMessagePrefix|..|SentMessagePrefix| + |ToText(email)|] == ToText(email);
    assert OccursAt(m, ToText(email), |SentMessagePrefix|);
  }

  /** A 2xx status is returned exactly when the tickets were sent. */
  lemma SuccessStatusOnlyWhenSent(request: Option<JsValue>, provider: SendCall -> Outcome)
    ensures var r := Post(request, provider).reply;
            200 <= r.Status() <= 299 <==> r.Sent?
  {
  }

  /** The reply depends on the provider only through its answer to the one
      call the route makes. */
  lemma ReplyDependsOnlyOnTheCall(request: Option<JsValue>, p1: SendCall -> Outcome, p2: SendCall -> Outcome)
    requires var h := Post(request, p1);
             h.call.Some? ==> p1(h.call.value) == p2(h.call.value)
    ensures Post(request, p1) == Post(request, p2)
  {
  }
}
