/**
 * The analysis handler: it sets the cross-origin headers, walks a ladder of
 * checks with early exits (pre-flight, method, text, credential), calls the
 * text-generation service once, cleans the model's answer and parses it.
 *
 * The outbound call, the JSON parser and the environment are inputs here: the
 * upstream service is a test double that records every prompt it is sent and
 * answers with a fixed abstract reply; the parser is a function parameter; the
 * credential is an optional string passed in.
 */
module Oracle {
  import Fences

  datatype Option<T> = None | Some(value: T)

  /** A JSON value, as the parser produces it and `response.json` sends it. */
  datatype Json =
    | Null
    | Bool(b: bool)
    | Number(literal: string)
    | Str(s: string)
    | Array(items: seq<Json>)
    | Object(members: seq<(string, Json)>)

  /**
   * The parts of a request the handler reads: its method and the `text`
   * field of its body (`None` when the field is missing, null or undefined).
   */
  datatype Request = Request(httpMethod: string, text: Option<string>)

  /** JavaScript truthiness of a value that is a string or absent. */
  predicate Truthy(v: Option<string>) {
    v.Some? && v.value != ""
  }

  /**
   * What the outbound call comes back with.
   * - `FetchThrew`: the request itself failed.
   * - `NotOk(errorText)`: a non-success status; `errorText` is the body the
   *   handler reads for its log, `None` when reading it failed.
   * - `Ok(content)`: a success status; `content` is the string found at
   *   `candidates[0].content.parts[0].text`, `None` when decoding the reply
   *   or following that path fails or does not give a string.
   */
  datatype UpstreamReply =
    | FetchThrew
    | NotOk(errorText: Option<string>)
    | Ok(content: Option<string>)

  /** The terminal outcomes of the handler: exactly one per request. */
  datatype Outcome =
    | PreflightAck
    | MethodNotAllowed
    | MissingText
    | MissingApiKey
    | UpstreamFailure
    | InternalError
    | Success(result: Json)

  /** What the response carries once it is sent: nothing, or a JSON value. */
  datatype Body = NoBody | JsonBody(value: Json)

  const MethodMessage: string := "Only POST requests are allowed"
  const NoTextMessage: string := "No text provided for analysis."
  const NoKeyMessage: string := "API key is not configured on Vercel."
  const UpstreamMessage: string := "Failed to get a response from the AI."
  const InternalMessage: string := "An internal error occurred."

  function ErrorObject(message: string): Json {
    Object([("error", Str(message))])
  }

  /** The four cross-origin headers, in the order they are set. */
  const CorsHeaders: seq<(string, string)> := [
    ("Access-Control-Allow-Credentials", "true"),
    ("Access-Control-Allow-Origin", "*"),
    ("Access-Control-Allow-Methods", "POST, OPTIONS"),
    ("Access-Control-Allow-Headers", "Content-Type")
  ]

  /** The same headers as the map they leave on the response. */
  const CorsHeaderMap: map<string, string> := map[
    CorsHeaders[0].0 := CorsHeaders[0].1,
    CorsHeaders[1].0 := CorsHeaders[1].1,
    CorsHeaders[2].0 := CorsHeaders[2].1,
    CorsHeaders[3].0 := CorsHeaders[3].1
  ]

  /** The instructions that precede the caller's text in the prompt. */
  const Instructions: string :=
    "\n    You are \"The Oracle,\" a world-class literary analyst. Analyze the following text meticulously.\n"
    + "    Provide a JSON object as your response with three keys: \"style\", \"structure\", and \"narrative\".\n"
    + "    - For \"style\", give three specific, actionable suggestions to improve word choice, tone, or evocative language.\n"
    + "    - For \"structure\", give two suggestions on improving paragraph flow or sentence variation.\n"
    + "    - For \"narrative\", give one core insight about the potential narrative arc, theme, or character voice.\n"
    + "    \n"
    + "    Text to analyze:\n"

  const OpeningDelimiter: string := "    ---\n    "
  const ClosingDelimiter: string := "\n    ---\n  "

  /** The prompt sent upstream: the caller's text, verbatim, between `---` lines. */
  function Prompt(text: string): string {
    Instructions + OpeningDelimiter + text + ClosingDelimiter
  }

  /** Reads the caller's text back out of a prompt. */
  function EmbeddedText(prompt: string): string
    requires |Instructions| + |OpeningDelimiter| + |ClosingDelimiter| <= |prompt|
  {
    prompt[|Instructions| + |OpeningDelimiter|..|prompt| - |ClosingDelimiter|]
  }

  /** The request gets past every check and reaches the outbound call. */
  predicate CallsUpstream(request: Request, apiKey: Option<string>) {
    request.httpMethod == "POST" && Truthy(request.text) && Truthy(apiKey)
  }

  /** The outcome of the part of the handler inside its `try`. */
  function ReplyOutcome(reply: UpstreamReply, parse: string -> Option<Json>): Outcome {
    match reply
    case FetchThrew => InternalError
    case NotOk(errorText) => if errorText.Some? then UpstreamFailure else InternalError
    case Ok(content) =>
      if content.None? then InternalError
      else
        match parse(Fences.Clean(content.value))
        case None => InternalError
        case Some(value) => Success(value)
  }

  /** The handler's decision ladder, check by check. */
  function Classify(request: Request, apiKey: Option<string>, reply: UpstreamReply,
                    parse: string -> Option<Json>): Outcome
  {
    if request.httpMethod == "OPTIONS" then PreflightAck
    else if request.httpMethod != "POST" then MethodNotAllowed
    else if !Truthy(request.text) then MissingText
    else if !Truthy(apiKey) then MissingApiKey
    else ReplyOutcome(reply, parse)
  }

  function StatusOf(outcome: Outcome): nat {
    match outcome
    case PreflightAck => 200
    case MethodNotAllowed => 405
    case MissingText => 400
    case MissingApiKey => 500
    case UpstreamFailure => 500
    case InternalError => 500
    case Success(_) => 200
  }

  function BodyOf(outcome: Outcome): Body {
    match outcome
    case PreflightAck => NoBody
    case MethodNotAllowed => JsonBody(Object([("message", Str(MethodMessage))]))
    case MissingText => JsonBody(ErrorObject(NoTextMessage))
    case MissingApiKey => JsonBody(ErrorObject(NoKeyMessage))
    case UpstreamFailure => JsonBody(ErrorObject(UpstreamMessage))
    case InternalError => JsonBody(ErrorObject(InternalMessage))
    case Success(result) => JsonBody(result)
  }

  /** One observable action on the response, in the order it happens. */
  datatype Event = HeaderSet(name: string, value: string) | StatusSet(code: nat) | Sent(body: Body)

  /** Setting the cross-origin headers one after the other. */
  const CorsEvents: seq<Event> := [
    HeaderSet(CorsHeaders[0].0, CorsHeaders[0].1),
    HeaderSet(CorsHeaders[1].0, CorsHeaders[1].1),
    HeaderSet(CorsHeaders[2].0, CorsHeaders[2].1),
    HeaderSet(CorsHeaders[3].0, CorsHeaders[3].1)
  ]

  /** The events the handler leaves on the response for a given outcome. */
  function HandlerEvents(outcome: Outcome): seq<Event> {
    CorsEvents + [StatusSet(StatusOf(outcome)), Sent(BodyOf(outcome))]
  }

  /** The platform's response object, with the calls the handler makes on it. */
  class Response {
    var headers: map<string, string>
    var statusCode: nat
    var body: Body
    var finished: bool
    var events: seq<Event>

    constructor ()
      ensures headers == map[] && statusCode == 200 && body == NoBody
      ensures !finished && events == []
    {
      headers := map[];
      statusCode := 200;
      body := NoBody;
      finished := false;
      events := [];
    }

    /** `response.setHeader(name, value)` */
    method SetHeader(name: string, value: string)
      modifies this
      ensures headers == old(headers)[name := value]
      ensures statusCode == old(statusCode) && body == old(body) && finished == old(finished)
      ensures events == old(events) + [HeaderSet(name, value)]
    {
      headers := headers[name := value];
      events := events + [HeaderSet(name, value)];
    }

    /** `response.status(code)` */
    method Status(code: nat)
      modifies this
      ensures statusCode == code
      ensures headers == old(headers) && body == old(body) && finished == old(finished)
      ensures events == old(events) + [StatusSet(code)]
    {
      statusCode := code;
      events := events + [StatusSet(code)];
    }

    /** `response.json(value)` */
    method SendJson(value: Json)
      modifies this
      ensures body == JsonBody(value) && finished
      ensures headers == old(headers) && statusCode == old(statusCode)
      ensures events == old(events) + [Sent(JsonBody(value))]
    {
      body := JsonBody(value);
      finished := true;
      events := events + [Sent(JsonBody(value))];
    }

    /** `response.end()` */
    method End()
      modifies this
      ensures body == NoBody && finished
      ensures headers == old(headers) && statusCode == old(statusCode)
      ensures events == old(events) + [Sent(NoBody)]
    {
      body := NoBody;
      finished := true;
      events := events + [Sent(NoBody)];
    }
  }

  /** The text-generation service as a test double: a fixed reply, a call log. */
  class Upstream {
    const reply: UpstreamReply
    var prompts: seq<string>

    constructor (reply: UpstreamReply)
      ensures this.reply == reply && prompts == []
    {
      this.reply := reply;
      prompts := [];
    }

    /** One outbound request carrying `prompt`. */
    method Generate(prompt: string) returns (r: UpstreamReply)
      modifies this
      ensures r == reply
      ensures prompts == old(prompts) + [prompt]
    {
      r := reply;
      prompts := prompts + [prompt];
    }
  }

  /** The four `setHeader` calls that open the handler. */
  method SetCorsHeaders(response: Response)
    modifies response
    ensures response.headers == old(response.headers) + CorsHeaderMap
    ensures response.statusCode == old(response.statusCode) && response.body == old(response.body)
    ensures response.finished == old(response.finished)
    ensures response.events == old(response.events) + CorsEvents
  {
    response.SetHeader("Access-Control-Allow-Credentials", "true");
    response.SetHeader("Access-Control-Allow-Origin", "*");
    response.SetHeader("Access-Control-Allow-Methods", "POST, OPTIONS");
    response.SetHeader("Access-Control-Allow-Headers", "Content-Type");
  }

  /**
   * The exported handler. The response ends with the four cross-origin
   * headers added, the status and body of the outcome `Classify` assigns, and
   * exactly the event sequence headers-then-status-then-send; the upstream
   * service is called once, with the prompt for the request's text, when the
   * request passes every check, and not at all otherwise.
   */
  method Handle(request: Request, apiKey: Option<string>, upstream: Upstream,
                response: Response, parse: string -> Option<Json>)
    modifies response, upstream
    ensures var outcome := Classify(request, apiKey, upstream.reply, parse);
            && response.headers == old(response.headers) + CorsHeaderMap
            && response.statusCode == StatusOf(outcome)
            && response.body == BodyOf(outcome)
            && response.finished
            && response.events == old(response.events) + HandlerEvents(outcome)
    ensures upstream.prompts == old(upstream.prompts)
              + (if CallsUpstream(request, apiKey) then [Prompt(request.text.value)] else [])
  {
    SetCorsHeaders(response);

    if request.httpMethod == "OPTIONS" {
      response.Status(200);
      response.End();
      return;
    }
    if request.httpMethod != "POST" {
      response.Status(405);
      response.SendJson(Object([("message", Str(MethodMessage))]));
      return;
    }
    if !Truthy(request.text) {
      response.Status(400);
      response.SendJson(ErrorObject(NoTextMessage));
      return;
    }
    if !Truthy(apiKey) {
      response.Status(500);
      response.SendJson(ErrorObject(NoKeyMessage));
      return;
    }

    AskService(request.text.value, upstream, response, parse);
  }

  /**
   * The part of the handler inside its `try`: one outbound request carrying
   * the prompt, then the response the reply calls for, with every failure
   * turned into the generic internal error.
   */
  method AskService(text: string, upstream: Upstream, response: Response,
                    parse: string -> Option<Json>)
    modifies response, upstream
    ensures var outcome := ReplyOutcome(upstream.reply, parse);
            && response.headers == old(response.headers)
            && response.statusCode == StatusOf(outcome)
            && response.body == BodyOf(outcome)
            && response.finished
            && response.events == old(response.events) + [StatusSet(StatusOf(outcome)), Sent(BodyOf(outcome))]
    ensures upstream.prompts == old(upstream.prompts) + [Prompt(text)]
  {
    var prompt := Prompt(text);
    var reply := upstream.Generate(prompt);
    match reply {
      case FetchThrew =>
        response.Status(500);
        response.SendJson(ErrorObject(InternalMessage));
      case NotOk(errorText) =>
        if errorText.None? {
          response.Status(500);
          response.SendJson(ErrorObject(InternalMessage));
        } else {
          response.Status(500);
          response.SendJson(ErrorObject(UpstreamMessage));
        }
      case Ok(content) =>
        if content.None? {
          response.Status(500);
          response.SendJson(ErrorObject(InternalMessage));
        } else {
          var cleaned := Fences.Clean(content.value);
          var parsed := parse(cleaned);
          if parsed.None? {
            response.Status(500);
            response.SendJson(ErrorObject(InternalMessage));
          } else {
            response.Status(200);
            response.SendJson(parsed.value);
          }
        }
    }
  }

  // ---------------------------------------------------------------------
  // Properties of the decision ladder
  // ---------------------------------------------------------------------

  /** Every response carries one of four status codes; 200 only for the ack and success. */
  lemma StatusCodes(outcome: Outcome)
    ensures StatusOf(outcome) in {200, 400, 405, 500}
    ensures StatusOf(outcome) == 200 <==> (outcome.PreflightAck? || outcome.Success?)
    ensures BodyOf(outcome) == NoBody <==> outcome.PreflightAck?
  {
  }

  /** A pre-flight request is acknowledged with 200 and no body, whatever else it carries. */
  lemma PreflightAlwaysAcknowledged(text: Option<string>, apiKey: Option<string>,
                                    reply: UpstreamReply, parse: string -> Option<Json>)
    ensures Classify(Request("OPTIONS", text), apiKey, reply, parse) == PreflightAck
    ensures StatusOf(PreflightAck) == 200 && BodyOf(PreflightAck) == NoBody
  {
  }

  /** Exactly the methods other than OPTIONS and POST are refused with 405. */
  lemma MethodNotAllowedExactly(request: Request, apiKey: Option<string>,
                                reply: UpstreamReply, parse: string -> Option<Json>)
    ensures Classify(request, apiKey, reply, parse) == MethodNotAllowed
            <==> request.httpMethod != "OPTIONS" && request.httpMethod != "POST"
    ensures StatusOf(MethodNotAllowed) == 405
    ensures BodyOf(MethodNotAllowed) == JsonBody(Object([("message", Str(MethodMessage))]))
  {
  }

  /** A refused method never looks at the text, the credential or the service. */
  lemma MethodCheckIgnoresPayload(httpMethod: string, text1: Option<string>, text2: Option<string>,
                                  key1: Option<string>, key2: Option<string>,
                                  reply1: UpstreamReply, reply2: UpstreamReply,
                                  parse1: string -> Option<Json>, parse2: string -> Option<Json>)
    requires httpMethod != "OPTIONS" && httpMethod != "POST"
    ensures Classify(Request(httpMethod, text1), key1, reply1, parse1)
            == Classify(Request(httpMethod, text2), key2, reply2, parse2)
  {
  }

  /**
   * Exactly the POST requests with missing or empty text get 400; the
   * credential plays no part, so this check comes before the credential check.
   */
  lemma MissingTextExactly(request: Request, apiKey: Option<string>,
                           reply: UpstreamReply, parse: string -> Option<Json>)
    ensures Classify(request, apiKey, reply, parse) == MissingText
            <==> request.httpMethod == "POST" && !Truthy(request.text)
    ensures StatusOf(MissingText) == 400 && BodyOf(MissingText) == JsonBody(ErrorObject(NoTextMessage))
  {
  }

  /** Exactly the POST requests with text but no credential get the configuration error. */
  lemma MissingApiKeyExactly(request: Request, apiKey: Option<string>,
                             reply: UpstreamReply, parse: string -> Option<Json>)
    ensures Classify(request, apiKey, reply, parse) == MissingApiKey
            <==> request.httpMethod == "POST" && Truthy(request.text) && !Truthy(apiKey)
    ensures StatusOf(MissingApiKey) == 500 && BodyOf(MissingApiKey) == JsonBody(ErrorObject(NoKeyMessage))
  {
  }

  /**
   * The outcome depends on the service exactly when every check has passed:
   * the outcomes of the outbound call are reached only then, and the ladder's
   * own outcomes only otherwise.
   */
  lemma ServiceReachedOnlyPastChecks(request: Request, apiKey: Option<string>,
                                     reply: UpstreamReply, parse: string -> Option<Json>)
    ensures var outcome := Classify(request, apiKey, reply, parse);
            CallsUpstream(request, apiKey)
            <==> (outcome.UpstreamFailure? || outcome.InternalError? || outcome.Success?)
    ensures CallsUpstream(request, apiKey) ==> Truthy(apiKey)
  {
  }

  /** A failed upstream status gives the generic 500, whatever the service said. */
  lemma UpstreamErrorNotEchoed(request: Request, apiKey: Option<string>, errorText: string,
                               parse: string -> Option<Json>)
    requires CallsUpstream(request, apiKey)
    ensures Classify(request, apiKey, NotOk(Some(errorText)), parse) == UpstreamFailure
    ensures StatusOf(UpstreamFailure) == 500
    ensures BodyOf(UpstreamFailure) == JsonBody(ErrorObject(UpstreamMessage))
  {
  }

  /**
   * Past the checks, the internal error is exactly a failure to fetch, to
   * read the error body, to extract the answer or to parse it.
   */
  lemma InternalErrorExactly(request: Request, apiKey: Option<string>,
                             reply: UpstreamReply, parse: string -> Option<Json>)
    requires CallsUpstream(request, apiKey)
    ensures Classify(request, apiKey, reply, parse) == InternalError
            <==> || reply.FetchThrew?
                 || (reply.NotOk? && reply.errorText.None?)
                 || (reply.Ok? && (reply.content.None? || parse(Fences.Clean(reply.content.value)).None?))
  {
  }

  /** Success is exactly a parsed answer, and the response carries that value. */
  lemma SuccessExactly(request: Request, apiKey: Option<string>,
                       reply: UpstreamReply, parse: string -> Option<Json>)
    ensures var outcome := Classify(request, apiKey, reply, parse);
            outcome.Success?
            <==> CallsUpstream(request, apiKey) && reply.Ok? && reply.content.Some?
                 && parse(Fences.Clean(reply.content.value)).Some?
    ensures var outcome := Classify(request, apiKey, reply, parse);
            outcome.Success? ==>
              && outcome.result == parse(Fences.Clean(reply.content.value)).value
              && StatusOf(outcome) == 200 && BodyOf(outcome) == JsonBody(outcome.result)
  {
  }

  /**
   * An answer wrapped in a tagged code fence reaches the parser as the bare
   * JSON text, so the caller gets what the parser makes of that text.
   */
  lemma FencedAnswerSucceeds(request: Request, apiKey: Option<string>, answer: string,
                             parse: string -> Option<Json>, value: Json)
    requires CallsUpstream(request, apiKey)
    requires !Fences.HasFence(answer) && Fences.IsTrimmed(answer)
    requires parse(answer) == Some(value)
    ensures Classify(request, apiKey,
                     Ok(Some(Fences.JsonFence + "\n" + answer + "\n" + Fences.Fence)), parse)
            == Success(value)
  {
    Fences.CleanFencedBody(answer);
  }

  /** The same holds for an answer wrapped in an untagged code fence. */
  lemma PlainFencedAnswerSucceeds(request: Request, apiKey: Option<string>, answer: string,
                                  parse: string -> Option<Json>, value: Json)
    requires CallsUpstream(request, apiKey)
    requires !Fences.HasFence(answer) && Fences.IsTrimmed(answer)
    requires parse(answer) == Some(value)
    ensures Classify(request, apiKey,
                     Ok(Some(Fences.Fence + "\n" + answer + "\n" + Fences.Fence)), parse)
            == Success(value)
  {
    Fences.CleanPlainFencedBody(answer);
  }

  /** The caller's text can be read back from the prompt unchanged. */
  lemma PromptEmbedsTextVerbatim(text: string)
    ensures |Instructions| + |OpeningDelimiter| + |ClosingDelimiter| <= |Prompt(text)|
    ensures EmbeddedText(Prompt(text)) == text
  {
  }
}
