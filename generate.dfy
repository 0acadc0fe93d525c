/** The POST handler of the generation proxy. The handler validates the
    request body, forwards it to the configured n8n webhook and classifies
    the webhook's reply. The environment variable, the webhook's reply and
    the parsing of JSON are inputs; the result records whether the webhook
    was called, with what, and the response sent back. */
module GenerateRoute {
  import opened Web

  /** The fields of the request body; None when absent or null. */
  datatype GenerateRequest = GenerateRequest(
    imageUrl: Option<string>,
    location: Option<string>,
    customPrompt: Option<string>)

  /** The JSON body forwarded to the webhook. */
  datatype Payload = Payload(imageUrl: string, location: string, customPrompt: string)

  datatype WebhookCall = WebhookCall(url: string, payload: Payload)

  /** What the webhook answered: its status, its body text and, when that
      text is JSON, the parsed value. */
  datatype WebhookReply<J> = WebhookReply(status: nat, text: string, parsed: Option<J>)

  /** A JSON error object, or the webhook's parsed reply passed through. */
  datatype Body<J> = ErrorJson(error: string) | Passthrough(data: J)

  datatype Response<J> = Response(status: nat, body: Body<J>)

  datatype Exchange<J> = Exchange(call: Option<WebhookCall>, response: Response<J>)

  const EmptyReplyError := "n8n webhook returned empty response - workflow may have timed out or errored"
  const InvalidJsonPrefix := "n8n returned invalid JSON: "
  const FailedPrefix := "Generate failed: "

  /** The error text for a non-ok webhook status. */
  function WebhookFailedError(status: nat, text: string): string {
    "n8n webhook failed (" + Decimal(status) + "): " + text
  }

  function Fail<J>(status: nat, error: string): Response<J> {
    Response(status, ErrorJson(error))
  }

  /** The request passes both field checks. */
  predicate WellFormed(req: GenerateRequest) {
    Truthy(req.imageUrl) && Truthy(req.location)
  }

  /** The webhook answered ok with non-blank text that parsed. */
  predicate Usable<J>(reply: Outcome<WebhookReply<J>>) {
    reply.Returned? && IsOk(reply.value.status) && !IsBlank(reply.value.text) && reply.value.parsed.Some?
  }

  /** Classifies the webhook's reply; a throw while fetching or reading it
      falls to the handler's outer catch. */
  function ClassifyReply<J>(reply: Outcome<WebhookReply<J>>): (r: Response<J>)
    ensures r.status == 200 <==> Usable(reply)
    ensures r.status != 200 ==> r.status == 500 && r.body.ErrorJson?
    ensures Usable(reply) ==> r.body == Passthrough(reply.value.parsed.value)
    ensures reply.Threw? ==> r.body == ErrorJson(FailedPrefix + ErrorMessage(reply.thrown))
    ensures reply.Returned? && !IsOk(reply.value.status) ==>
      r.body == ErrorJson(WebhookFailedError(reply.value.status, reply.value.text))
    ensures reply.Returned? && IsOk(reply.value.status) && IsBlank(reply.value.text) ==>
      r.body == ErrorJson(EmptyReplyError)
    ensures reply.Returned? && IsOk(reply.value.status) && !IsBlank(reply.value.text) && reply.value.parsed.None? ==>
      r.body == ErrorJson(InvalidJsonPrefix + Substring(reply.value.text, 200))
  {
    match reply
    case Threw(e) => Fail(500, FailedPrefix + ErrorMessage(e))
    case Returned(w) =>
      if !IsOk(w.status) then Fail(500, WebhookFailedError(w.status, w.text))
      else if IsBlank(w.text) then Fail(500, EmptyReplyError)
      else match w.parsed
        case Some(data) => Response(200, Passthrough(data))
        case None => Fail(500, InvalidJsonPrefix + Substring(w.text, 200))
  }

  /** POST /api/generate. `request` is the parsed body (or what reading it
      threw), `webhookUrl` the N8N_WEBHOOK_URL setting, `reply` what the
      webhook answers if it is called. */
  function Post<J>(request: Outcome<GenerateRequest>, webhookUrl: Option<string>, reply: Outcome<WebhookReply<J>>): (x: Exchange<J>)
    ensures request.Threw? ==>
      x == Exchange(None, Fail(500, FailedPrefix + ErrorMessage(request.thrown)))
    ensures request.Returned? && !Truthy(request.value.imageUrl) ==>
      x == Exchange(None, Fail(400, "Image URL is required"))
    ensures request.Returned? && Truthy(request.value.imageUrl) && !Truthy(request.value.location) ==>
      x == Exchange(None, Fail(400, "Location is required"))
    ensures request.Returned? && WellFormed(request.value) && !Truthy(webhookUrl) ==>
      x == Exchange(None, Fail(500, "N8N_WEBHOOK_URL not configured"))
    ensures x.call.Some? <==> request.Returned? && WellFormed(request.value) && Truthy(webhookUrl)
    ensures x.call.Some? ==>
      x.call.value.url == webhookUrl.value &&
      x.call.value.payload.imageUrl == request.value.imageUrl.value &&
      x.call.value.payload.location == request.value.location.value &&
      x.call.value.payload.customPrompt == OrEmpty(request.value.customPrompt)
    ensures x.call.Some? ==> x.response == ClassifyReply(reply)
    ensures x.response.status == 400 <==> request.Returned? && !WellFormed(request.value)
    ensures x.response.status == 200 <==> x.call.Some? && Usable(reply)
    ensures x.response.status in {200, 400, 500}
  {
    match request
    case Threw(e) => Exchange(None, Fail(500, FailedPrefix + ErrorMessage(e)))
    case Returned(req) =>
      if !Truthy(req.imageUrl) then Exchange(None, Fail(400, "Image URL is required"))
      else if !Truthy(req.location) then Exchange(None, Fail(400, "Location is required"))
      else if !Truthy(webhookUrl) then Exchange(None, Fail(500, "N8N_WEBHOOK_URL not configured"))
      else
        var payload := Payload(req.imageUrl.value, req.location.value, OrEmpty(req.customPrompt));
        Exchange(Some(WebhookCall(webhookUrl.value, payload)), ClassifyReply(reply))
  }

  /** The webhook's status and full body can be read back out of the error
      for a non-ok reply: the digits between the parentheses, and the text
      after them. */
  lemma FailureErrorNamesStatus(status: nat, text: string)
    ensures var e := WebhookFailedError(status, text);
      var p := |"n8n webhook failed ("|;
      var d := |Decimal(status)|;
      |e| == p + d + 3 + |text| &&
      AllDigits(e[p..p + d]) && ParseDecimal(e[p..p + d]) == status &&
      e[p + d] == ')' && e[p + d + 3..] == text
  {
    var e := WebhookFailedError(status, text);
    var p, d := |"n8n webhook failed ("|, |Decimal(status)|;
    assert e[p..p + d] == Decimal(status);
    assert e[p + d + 3..] == text;
    DecimalRoundTrip(status);
  }

  /** A body without either field is refused for the image URL first. */
  lemma ImageCheckedFirst<J>(webhookUrl: Option<string>, prompt: Option<string>, reply: Outcome<WebhookReply<J>>)
    ensures Post(Returned(GenerateRequest(None, None, prompt)), webhookUrl, reply)
      == Exchange(None, Fail(400, "Image URL is required"))
  {
  }
}
