/** `exports.handler` of netlify/functions/chat.js as a function of what it
    reads: the HTTP event, the `GEMINI_API_KEY` environment value and the
    upstream reply. It returns the HTTP response together with the payload
    it sent upstream, if it got that far. */
module Handler {
  import opened Optional
  import opened Payload
  import opened Extraction

  /** The parsed request body `{ chatHistory, userName }`. A missing or
      non-array `chatHistory` is `None`: mapping it throws. */
  datatype RequestBody = RequestBody(chatHistory: Option<seq<Message>>, userName: Option<string>)

  /** The incoming event. `body` is `None` when `JSON.parse` fails or the
      parsed value cannot be destructured. */
  datatype Event = Event(httpMethod: string, body: Option<RequestBody>)

  /** What the upstream call produced: the fetch itself failed, the service
      answered with a non-ok status, or it answered ok with a body that was
      (`Some`) or was not (`None`) valid JSON. */
  datatype UpstreamReply = Unreachable | NotOk | Ok(data: Option<GenerateResponse>)

  datatype ResponseBody =
    | PlainText(text: string)
    | ResponseTextJson(responseText: string)
    | ErrorJson(error: string)

  datatype Response = Response(statusCode: int, headers: map<string, string>, body: ResponseBody)

  /** The response, and the payload sent upstream (`None` when no call was
      made). */
  datatype Outcome = Outcome(response: Response, sent: Option<GeminiPayload>)

  const MethodNotAllowed: Response := Response(405, map[], PlainText("Method Not Allowed"))

  const GenericError: string := "Ocorreu um erro interno no servidor."

  /** The single response every failure inside the `try` becomes. */
  const InternalError: Response := Response(500, map[], ErrorJson(GenericError))

  function Success(responseText: string): Response
  {
    Response(200, map["Content-Type" := "application/json"], ResponseTextJson(responseText))
  }

  /** The handler reaches the upstream call: a POST whose body parses with a
      chat history, while a truthy API key is configured. */
  predicate CallsUpstream(event: Event, apiKey: Option<string>)
  {
    && event.httpMethod == "POST"
    && event.body.Some?
    && Truthy(apiKey)
    && event.body.value.chatHistory.Some?
  }

  function Handle(event: Event, apiKey: Option<string>, reply: UpstreamReply): (out: Outcome)
    ensures event.httpMethod != "POST" ==> out == Outcome(MethodNotAllowed, None)
    ensures out.sent.Some? <==> CallsUpstream(event, apiKey)
    ensures out.sent.Some? ==>
      out.sent.value == BuildPayload(event.body.value.chatHistory.value, event.body.value.userName)
    ensures out.response.statusCode == 200 <==> CallsUpstream(event, apiKey) && reply.Ok? && reply.data.Some?
    ensures out.response.statusCode == 200 ==> out.response == Success(ExtractText(reply.data.value))
    ensures out.response.statusCode != 200 ==> out.response in {MethodNotAllowed, InternalError}
    ensures out.response.statusCode == 500 <==> event.httpMethod == "POST" && out.response.statusCode != 200
  {
    if event.httpMethod != "POST" then Outcome(MethodNotAllowed, None)
    else if event.body.None? then Outcome(InternalError, None)
    else if !Truthy(apiKey) then Outcome(InternalError, None)
    else if event.body.value.chatHistory.None? then Outcome(InternalError, None)
    else
      var body := event.body.value;
      var payload := BuildPayload(body.chatHistory.value, body.userName);
      match reply
      case Unreachable => Outcome(InternalError, Some(payload))
      case NotOk => Outcome(InternalError, Some(payload))
      case Ok(data) =>
        if data.None? then Outcome(InternalError, Some(payload))
        else Outcome(Success(ExtractText(data.value)), Some(payload))
  }

  /** Without an upstream call the reply cannot influence the outcome. */
  lemma NoCallIgnoresReply(event: Event, apiKey: Option<string>, r1: UpstreamReply, r2: UpstreamReply)
    requires !CallsUpstream(event, apiKey)
    ensures Handle(event, apiKey, r1) == Handle(event, apiKey, r2)
  {
  }

  /** A missing or empty API key is always an internal error, never a call
      made with a default key. */
  lemma MissingKeyFails(event: Event, apiKey: Option<string>, reply: UpstreamReply)
    requires event.httpMethod == "POST"
    requires !Truthy(apiKey)
    ensures Handle(event, apiKey, reply) == Outcome(InternalError, None)
  {
  }

  /** An upstream failure is the generic error, whatever the request: no
      reply text reaches the caller. */
  lemma UpstreamFailureIsGeneric(event: Event, apiKey: Option<string>, reply: UpstreamReply)
    requires CallsUpstream(event, apiKey)
    requires reply.Unreachable? || reply.NotOk? || reply == Ok(None)
    ensures Handle(event, apiKey, reply).response == InternalError
  {
  }

  /** The reply text sent back is split into exactly the first candidate's
      part texts when none of them holds a newline. */
  lemma SuccessCarriesParts(event: Event, apiKey: Option<string>, data: GenerateResponse)
    requires CallsUpstream(event, apiKey)
    requires FirstCandidateParts(data) != []
    requires forall i :: 0 <= i < |FirstCandidateParts(data)| ==>
      '\n' !in PartText(FirstCandidateParts(data)[i])
    ensures var r := Handle(event, apiKey, Ok(Some(data))).response;
      r.statusCode == 200 && Text.Split(r.body.responseText, '\n') == PartTexts(FirstCandidateParts(data))
  {
    ExtractSplitsIntoParts(data);
  }

  /** An ok reply whose first candidate has a single part relays that
      part's text unchanged, blank lines and sentinel lines included. */
  lemma SuccessPassesSinglePartThrough(event: Event, apiKey: Option<string>, text: string, others: seq<Candidate>)
    requires CallsUpstream(event, apiKey)
    ensures var data := GenerateResponse(Some(
              [Candidate(Some(CandidateContent(Some([ResponsePart(Some(text))]))))] + others));
            Handle(event, apiKey, Ok(Some(data))).response == Success(text)
  {
    ExtractSinglePart(text, others);
  }

  /** The request sent upstream is in name-capture mode (fixed text,
      temperature 0.2) exactly when `userName` is falsy, and otherwise in
      counsellor mode (text naming the user and holding the purchase
      sentinel, temperature 0.6). */
  lemma ModeFollowsUserName(event: Event, apiKey: Option<string>, reply: UpstreamReply)
    requires CallsUpstream(event, apiKey)
    ensures var p := Handle(event, apiKey, reply).sent.value;
      var userName := event.body.value.userName;
      var instruction := p.systemInstruction.parts[0].text;
      && (!Truthy(userName) ==> instruction == Instruction.NameCaptureInstruction && p.generationConfig.temperature == 0.2)
      && (Truthy(userName) ==>
            && instruction == Instruction.CounselorInstruction(userName.value)
            && instruction != Instruction.NameCaptureInstruction
            && Text.Contains(instruction, userName.value)
            && Text.Contains(instruction, Instruction.PurchaseSentinel)
            && p.generationConfig.temperature == 0.6)
  {
  }
}
