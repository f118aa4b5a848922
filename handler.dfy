/** The `POST` handler of /api/destination-details: validation, the first call
    to the language model, the single retry, extraction, the fallback, and the
    status codes. The model endpoint and `JSON.parse` are parameters. */
module Handler {

  import opened Wrappers
  import opened Text
  import opened JsonValues
  import opened Duration
  import opened Prompts
  import opened Extraction
  import opened Fallback

  /** The fields of the request body. An absent or empty `destination` or
      `section` is the empty string; `guests` is already `parseInt(guests, 10)`. */
  datatype RequestBody = RequestBody(destination: string, startDate: Option<DateInput>,
                                     endDate: Option<DateInput>, guests: Option<int>,
                                     section: string)

  /** One outbound call: the reply text (the empty string when the envelope has
      none), or the message of the exception `fetch` or `response.json()` throws. */
  datatype Reply = Reply(text: string) | Fault(message: string)

  /** The model endpoint: what call number `attempt` with the given system and
      user instructions yields. */
  type Llm = (nat, string, string) -> Reply

  datatype Response = Response(status: nat, body: JsonValue)

  /** The stricter wording the retry appends to the system instruction (route.js:269)
      and puts before the shape in the user instruction (route.js:274); the prose
      is left unspecified. */
  const RetrySystemSuffix: string
  const RetryUserConnector: string

  /** `!destination || !section`. */
  predicate MissingRequired(body: RequestBody) {
    body.destination == "" || body.section == ""
  }

  function MissingParameters(): (r: JsonValue)
    ensures Get(r, "error") == Some(JString("Missing required parameters"))
  {
    var members := [("error", JString("Missing required parameters"))];
    LookupAt(members, 0, "error");
    JObject(members)
  }

  /** The 500 response for an exception caught at the top of the handler. */
  function ServerError(message: string): (r: Response)
    ensures r.status == 500
    ensures Get(r.body, "error") == Some(JString("Failed to process request"))
    ensures Get(r.body, "details") == Some(JString(message))
  {
    var members := [("error", JString("Failed to process request")), ("details", JString(message))];
    LookupAt(members, 0, "error");
    LookupAt(members, 1, "details");
    Response(500, JObject(members))
  }

  function TripOf(body: RequestBody): Trip {
    Trip(body.destination, body.startDate, body.endDate, body.guests)
  }

  /** The retry gate: the reply fails the strict parse and has no brace at all. */
  predicate NeedsRetry(parse: Parser, reply: string) {
    !IsValidJSON(parse, reply) && '{' !in reply && '}' !in reply
  }

  /** The reply an issued call produced. */
  function ReplyTo(llm: Llm, calls: seq<(string, string)>, i: nat): Reply
    requires i < |calls|
  {
    llm(i, calls[i].0, calls[i].1)
  }

  /** The body of a 200 response: the extracted value, or the section's fallback. */
  function SuccessBody(parse: Parser, body: RequestBody, reply: string): (r: JsonValue)
    ensures ExtractJSON(parse, reply).Ok? ==> r == ExtractJSON(parse, reply).value
    ensures ExtractJSON(parse, reply).Err? ==> r == FallbackResponse(body.section, body.destination)
  {
    var extracted := ExtractJSON(parse, reply);
    if extracted.Ok? then extracted.value else FallbackResponse(body.section, body.destination)
  }

  /** The instructions of the retry call; the originals are their prefixes. */
  function RetryInstructions(prompt: PromptBundle): (r: (string, string))
    ensures prompt.systemPrompt <= r.0 && prompt.userPrompt <= r.1
    ensures r.0 == prompt.systemPrompt + RetrySystemSuffix
    ensures r.1 == prompt.userPrompt + RetryUserConnector + TemplateText(prompt.responseFormat)
    ensures EndsWith(r.1, TemplateText(prompt.responseFormat))
  {
    var user := prompt.userPrompt + RetryUserConnector + TemplateText(prompt.responseFormat);
    EndsWithAppended(prompt.userPrompt + RetryUserConnector, TemplateText(prompt.responseFormat));
    (prompt.systemPrompt + RetrySystemSuffix, user)
  }

  /** The system and user instructions of the first call for a request. */
  function FirstInstructions(body: RequestBody): (string, string) {
    var prompt := GeneratePrompt(TripOf(body), body.section);
    (prompt.systemPrompt, prompt.userPrompt)
  }

  /** The instructions of the retry call for a request. */
  function SecondInstructions(body: RequestBody): (string, string) {
    RetryInstructions(GeneratePrompt(TripOf(body), body.section))
  }

  /** The calls carry the request's first instructions and, on a retry, the retry's. */
  predicate Issued(body: RequestBody, calls: seq<(string, string)>) {
    1 <= |calls| <= 2 && calls[0] == FirstInstructions(body)
    && (|calls| == 2 ==> calls[1] == SecondInstructions(body))
  }

  /** The outbound part of `POST`: the first call, the retry when the gate asks
      for it, and the reply text that extraction then works on, or the message of
      the exception one of the calls threw. */
  method Converse(parse: Parser, prompt: PromptBundle, llm: Llm)
    returns (outcome: Result<string, string>, ghost calls: seq<(string, string)>)
    ensures 1 <= |calls| <= 2
    ensures calls[0] == (prompt.systemPrompt, prompt.userPrompt)
    ensures |calls| == 2 <==> ReplyTo(llm, calls, 0).Reply? && NeedsRetry(parse, ReplyTo(llm, calls, 0).text)
    ensures |calls| == 2 ==> calls[1] == RetryInstructions(prompt)
    ensures ReplyTo(llm, calls, |calls| - 1).Fault? ==> outcome == Err(ReplyTo(llm, calls, |calls| - 1).message)
    ensures ReplyTo(llm, calls, |calls| - 1).Reply? ==> outcome == Ok(ReplyTo(llm, calls, |calls| - 1).text)
  {
    // first attempt
    calls := [(prompt.systemPrompt, prompt.userPrompt)];
    var reply := llm(0, prompt.systemPrompt, prompt.userPrompt);
    if reply.Fault? {
      outcome := Err(reply.message);
      return;
    }
    var botResponse := reply.text;

    if NeedsRetry(parse, botResponse) {
      var retry := RetryInstructions(prompt);
      calls := calls + [retry];
      reply := llm(1, retry.0, retry.1);
      if reply.Fault? {
        outcome := Err(reply.message);
        return;
      }
      botResponse := reply.text;
    }
    outcome := Ok(botResponse);
  }

  /** What `POST` does once the body is parsed and both required fields are
      present: build the prompts, converse with the model, and answer with the
      extracted value or the fallback, or with 500 when a call threw. */
  method Serve(parse: Parser, body: RequestBody, llm: Llm)
    returns (response: Response, ghost calls: seq<(string, string)>)
    requires !MissingRequired(body)
    ensures 1 <= |calls| <= 2
    ensures Issued(body, calls)
    ensures |calls| == 2 <==> ReplyTo(llm, calls, 0).Reply? && NeedsRetry(parse, ReplyTo(llm, calls, 0).text)
    ensures ReplyTo(llm, calls, |calls| - 1).Fault? ==>
              response == ServerError(ReplyTo(llm, calls, |calls| - 1).message)
    ensures ReplyTo(llm, calls, |calls| - 1).Reply? ==>
              response == Response(200, SuccessBody(parse, body, ReplyTo(llm, calls, |calls| - 1).text))
  {
    var prompt := GeneratePrompt(TripOf(body), body.section);
    var outcome;
    outcome, calls := Converse(parse, prompt, llm);
    if outcome.Err? {
      response := ServerError(outcome.error);
    } else {
      response := Response(200, SuccessBody(parse, body, outcome.value));
    }
  }

  /** `POST(req)`. `request` is what `await req.json()` yields or throws; the
      ghost `calls` records the instructions of each outbound call, in order. */
  method Post(parse: Parser, request: Result<RequestBody, string>, llm: Llm)
    returns (response: Response, ghost calls: seq<(string, string)>)
    // at most two outbound calls, and none for a body that fails to parse or lacks a field
    ensures |calls| <= 2
    ensures request.Err? ==> response == ServerError(request.error) && calls == []
    ensures request.Ok? && MissingRequired(request.value) ==>
              response == Response(400, MissingParameters()) && calls == []
    ensures request.Ok? && !MissingRequired(request.value) ==> Issued(request.value, calls)
    // the retry is issued exactly when the first reply fails the gate
    ensures |calls| == 2 <==>
              |calls| >= 1 && ReplyTo(llm, calls, 0).Reply? && NeedsRetry(parse, ReplyTo(llm, calls, 0).text)
    // the status codes
    ensures response.status == 200 || response.status == 400 || response.status == 500
    ensures response.status == 400 <==> request.Ok? && MissingRequired(request.value)
    ensures response.status == 500 <==>
              request.Err? || (|calls| >= 1 && ReplyTo(llm, calls, |calls| - 1).Fault?)
    ensures response.status == 500 && request.Ok? ==>
              response == ServerError(ReplyTo(llm, calls, |calls| - 1).message)
    ensures response.status == 200 ==>
              request.Ok? && |calls| >= 1 && ReplyTo(llm, calls, |calls| - 1).Reply?
              && response.body == SuccessBody(parse, request.value, ReplyTo(llm, calls, |calls| - 1).text)
  {
    if request.Err? {
      response, calls := ServerError(request.error), [];
      return;
    }
    var body := request.value;
    if MissingRequired(body) {
      response, calls := Response(400, MissingParameters()), [];
      return;
    }
    response, calls := Serve(parse, body, llm);
  }

  /** An empty reply (also what a missing text field becomes) is retried, since
      `JSON.parse("")` throws. */
  lemma EmptyReplyRetries(parse: Parser)
    requires !IsValidJSON(parse, "")
    ensures NeedsRetry(parse, "")
  {
  }

  /** A reply with a brace is never retried, however malformed. */
  lemma BraceSuppressesRetry(parse: Parser, reply: string)
    requires '{' in reply || '}' in reply
    ensures !NeedsRetry(parse, reply)
  {
  }
}
