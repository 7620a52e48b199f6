/**
 * The prediction API of pkg/server/handler.go: the origin gate that wraps
 * every route (`AddHeaders`), the prediction handler's dispatch on the
 * request method, the reading of the language model's reply
 * (`GetPrediction`) and the all-or-nothing reply after the image fan-out.
 */
module Handler {
  import opened Basics
  import opened GoStrings
  import opened Types
  import opened HttpModel
  import opened PromptLines
  import opened FanOut

  const AllowedOrigin := "https://ptspuf.github.io"
  const AllowOrigin := "Access-Control-Allow-Origin"
  const AllowCredentials := "Access-Control-Allow-Credentials"

  /** Only the published web app and the opaque origin "null" may call the API. */
  predicate OriginAllowed(origin: string) {
    origin == AllowedOrigin || origin == "null"
  }

  /** The CORS headers for an allowed origin, which is echoed back. */
  function CorsHeaders(origin: string): Headers {
    map[
      AllowOrigin := origin,
      "Access-Control-Allow-Methods" := "POST, GET, OPTIONS, HEAD",
      "Access-Control-Allow-Headers" := "Content-Type, Authorization, Accept, Origin",
      AllowCredentials := "true",
      "Access-Control-Max-Age" := "3600",
      "Vary" := "Origin"
    ]
  }

  /** The Content-Security-Policy value, one directive per piece. */
  const ContentSecurityPolicy: string :=
    "default-src 'self' https://telegram.org; "
    + "img-src 'self' data: https:; "
    + "style-src 'self' 'unsafe-inline'; "
    + "script-src 'self' 'unsafe-inline' https://telegram.org;"

  /** The security and caching headers set before the wrapped handler runs. */
  function SecurityHeaders(): Headers {
    map[
      "X-Content-Type-Options" := "nosniff",
      "X-Frame-Options" := "DENY",
      "X-XSS-Protection" := "1; mode=block",
      "Referrer-Policy" := "strict-origin-when-cross-origin",
      "Content-Security-Policy" := ContentSecurityPolicy,
      "Strict-Transport-Security" := "max-age=31536000; includeSubDomains",
      "Cache-Control" := "no-store, no-cache, must-revalidate, proxy-revalidate",
      "Pragma" := "no-cache",
      "Expires" := "0"
    ]
  }

  /** What the gate does with a request: answer it itself, or pass it on with the headers set so far. */
  datatype Gate = Answer(reply: Reply) | PassOn(headers: Headers)

  /**
   * AddHeaders: the wrapped handler runs exactly when the origin is allowed
   * and the request is not a preflight; a preflight gets 200 with the CORS
   * headers from an allowed origin and a bare 403 otherwise; any other
   * request from another origin is refused with 403.
   */
  function AddHeaders(origin: string, httpMethod: string): (gate: Gate)
    ensures gate.PassOn? <==> OriginAllowed(origin) && httpMethod != "OPTIONS"
    ensures gate.PassOn? ==> gate.headers == CorsHeaders(origin) + SecurityHeaders()
    ensures httpMethod == "OPTIONS" && OriginAllowed(origin) ==> gate == Answer(Reply(StatusOK, CorsHeaders(origin), NoBody))
    ensures httpMethod == "OPTIONS" && !OriginAllowed(origin) ==> gate == Answer(Reply(StatusForbidden, map[], NoBody))
    ensures httpMethod != "OPTIONS" && !OriginAllowed(origin) ==>
      gate == Answer(Error(map[], "CORS Origin Not Allowed", StatusForbidden))
  {
    var headers: Headers := if OriginAllowed(origin) then CorsHeaders(origin) else map[];
    if !OriginAllowed(origin) && httpMethod == "OPTIONS" then Answer(Reply(StatusForbidden, headers, NoBody))
    else if httpMethod == "OPTIONS" then Answer(Reply(StatusOK, headers, NoBody))
    else if !OriginAllowed(origin) then Answer(Error(headers, "CORS Origin Not Allowed", StatusForbidden))
    else PassOn(headers + SecurityHeaders())
  }

  /** The image prompt used for each missing one. */
  function DefaultImagePrompt(name: string): string {
    "A mystical tarot card for " + name + ", with abstract shapes in Kandinsky style, vibrant colors"
  }

  const MissingKeyMessage := "OPENROUTER_API_KEY не установлен"

  /** GetPrediction as a value: the text lines and the first three prompts, padded with the default. */
  function PredictionFor(profile: Profile, apiKey: string, complete: string -> Result<string, string>): (r: Result<Prediction, string>)
    ensures r.Ok? ==> |r.value.imagePrompts| == ImageCount
  {
    if apiKey == "" then Err(MissingKeyMessage)
    else
      match complete(RequestPrompt(profile))
      case Err(e) => Err("error creating chat completion: " + e)
      case Ok(response) =>
        var lines := Split(response, LineBreak);
        PaddedShape(PromptsOf(lines), DefaultImagePrompt(profile.name));
        Ok(Prediction(Join(TextLinesOf(lines), LineBreak), Padded(PromptsOf(lines), DefaultImagePrompt(profile.name))))
  }

  /** Without an API key the prediction fails before the model is asked anything. */
  lemma MissingKeyAsksNothing(profile: Profile, complete1: string -> Result<string, string>, complete2: string -> Result<string, string>)
    ensures PredictionFor(profile, "", complete1) == PredictionFor(profile, "", complete2) == Err(MissingKeyMessage)
  {
  }

  /** A prediction holds the first three prompt lines' prompts in order, then the default for the client's name. */
  lemma PredictionPrompts(profile: Profile, apiKey: string, complete: string -> Result<string, string>)
    requires apiKey != "" && complete(RequestPrompt(profile)).Ok?
    ensures var prompts := PromptsOf(Split(complete(RequestPrompt(profile)).value, LineBreak));
            var p := PredictionFor(profile, apiKey, complete);
            && p.Ok?
            && forall i :: 0 <= i < ImageCount ==>
                 p.value.imagePrompts[i] == if i < |prompts| then prompts[i] else DefaultImagePrompt(profile.name)
  {
    var lines := Split(complete(RequestPrompt(profile)).value, LineBreak);
    var filler := DefaultImagePrompt(profile.name);
    PaddedShape(PromptsOf(lines), filler);
    assert PredictionFor(profile, apiKey, complete).value.imagePrompts == Padded(PromptsOf(lines), filler);
  }

  /** A reply without prompt lines is its own text. */
  lemma PredictionTextWithoutPrompts(profile: Profile, apiKey: string, complete: string -> Result<string, string>)
    requires apiKey != "" && complete(RequestPrompt(profile)).Ok?
    requires PromptsOf(Split(complete(RequestPrompt(profile)).value, LineBreak)) == []
    ensures PredictionFor(profile, apiKey, complete).Ok?
    ensures PredictionFor(profile, apiKey, complete).value.text == complete(RequestPrompt(profile)).value
  {
    var response := complete(RequestPrompt(profile)).value;
    var lines := Split(response, LineBreak);
    assert PredictionFor(profile, apiKey, complete).value.text == Join(TextLinesOf(lines), LineBreak);
    NoPromptsAllText(lines);
    JoinSplit(response, LineBreak);
  }

  /** GetPrediction: ask the model, route the reply's lines, pad the prompts to three. */
  method GetPrediction(profile: Profile, apiKey: string, complete: string -> Result<string, string>) returns (r: Result<Prediction, string>)
    ensures r == PredictionFor(profile, apiKey, complete)
  {
    var prompt := RequestPrompt(profile);
    if apiKey == "" {
      return Err(MissingKeyMessage);
    }
    var response := complete(prompt);
    if response.Err? {
      return Err("error creating chat completion: " + response.error);
    }
    var imagePrompts, textParts := RouteLines(response.value);
    imagePrompts := PadPrompts(imagePrompts, DefaultImagePrompt(profile.name));
    r := Ok(Prediction(Join(textParts, LineBreak), imagePrompts));
  }

  /** The headers a POST sets before reading the body. */
  function PostHeaders(): Headers {
    map[
      ContentType := JsonContentType,
      "Cache-Control" := "no-store, no-cache, must-revalidate, proxy-revalidate",
      "Pragma" := "no-cache",
      "Expires" := "0"
    ]
  }

  /** HandlePrediction as a value: dispatch on the request method, then the prediction and its images. */
  function HandlerReply(
    headers: Headers, httpMethod: string, body: RequestBody, apiKey: string, complete: string -> Result<string, string>,
    generate: (nat, string) -> Result<Bytes, string>, order: seq<nat>): Reply
  {
    if httpMethod == "OPTIONS" then Reply(StatusOK, headers, NoBody)
    else if httpMethod == "HEAD" then Reply(StatusOK, headers[ContentType := JsonContentType], NoBody)
    else if httpMethod != "POST" then Error(headers, "Only POST method is allowed", StatusMethodNotAllowed)
    else PostReply(headers + PostHeaders(), body, (profile: Profile) => PredictionFor(profile, apiKey, complete), generate, order)
  }

  /** Requests other than POST are answered from the method alone: 200 for OPTIONS and HEAD, 405 otherwise. */
  lemma NonPostIgnoresRequest(
    headers: Headers, httpMethod: string, body1: RequestBody, body2: RequestBody, apiKey: string,
    complete: string -> Result<string, string>, generate: (nat, string) -> Result<Bytes, string>, order: seq<nat>)
    requires httpMethod != "POST"
    ensures HandlerReply(headers, httpMethod, body1, apiKey, complete, generate, order)
         == HandlerReply(headers, httpMethod, body2, "", complete, generate, order)
    ensures HandlerReply(headers, httpMethod, body1, apiKey, complete, generate, order).status
         == if httpMethod == "OPTIONS" || httpMethod == "HEAD" then StatusOK else StatusMethodNotAllowed
  {
  }

  /** A body that cannot be read or decoded gives 400 before any prediction is asked for. */
  lemma BadBodyAsksNothing(
    headers: Headers, body: RequestBody, apiKey: string,
    complete1: string -> Result<string, string>, complete2: string -> Result<string, string>,
    generate: (nat, string) -> Result<Bytes, string>, order: seq<nat>)
    requires !body.Parsed?
    ensures HandlerReply(headers, "POST", body, apiKey, complete1, generate, order)
         == HandlerReply(headers, "POST", body, "", complete2, generate, order)
    ensures HandlerReply(headers, "POST", body, apiKey, complete1, generate, order).status == StatusBadRequest
  {
  }

  /** The reply never touches a CORS header that the gate set: the handler only sets content and caching headers. */
  lemma HandlerKeepsCorsHeaders(
    headers: Headers, httpMethod: string, body: RequestBody, apiKey: string, complete: string -> Result<string, string>,
    generate: (nat, string) -> Result<Bytes, string>, order: seq<nat>, key: string)
    requires key == AllowOrigin || key == AllowCredentials
    ensures var reply := HandlerReply(headers, httpMethod, body, apiKey, complete, generate, order);
            (key in reply.headers <==> key in headers) && (key in headers ==> reply.headers[key] == headers[key])
  {
    assert key != ContentType && key != "X-Content-Type-Options";
    if httpMethod == "POST" {
      assert key !in PostHeaders();
    }
  }

  /** The API behind its gate: what a client gets back for a request from `origin`. */
  function Serve(
    origin: string, httpMethod: string, body: RequestBody, apiKey: string, complete: string -> Result<string, string>,
    generate: (nat, string) -> Result<Bytes, string>, order: seq<nat>): Reply
  {
    match AddHeaders(origin, httpMethod)
    case Answer(reply) => reply
    case PassOn(headers) => HandlerReply(headers, httpMethod, body, apiKey, complete, generate, order)
  }

  /**
   * Section 3.2 of the WHATWG Fetch Standard: a response that allows
   * credentials must name the requesting origin rather than "*". Every reply
   * that carries an Access-Control-Allow-Origin header names exactly the
   * allowed origin of the request and allows credentials.
   */
  lemma CredentialedRepliesNameTheOrigin(
    origin: string, httpMethod: string, body: RequestBody, apiKey: string, complete: string -> Result<string, string>,
    generate: (nat, string) -> Result<Bytes, string>, order: seq<nat>)
    ensures var reply := Serve(origin, httpMethod, body, apiKey, complete, generate, order);
            (AllowOrigin in reply.headers <==> OriginAllowed(origin))
            && (AllowOrigin in reply.headers ==>
                 reply.headers[AllowOrigin] == origin != "*"
                 && AllowCredentials in reply.headers && reply.headers[AllowCredentials] == "true")
  {
    var gate := AddHeaders(origin, httpMethod);
    GateSetsCorsHeaders(origin, httpMethod);
    if gate.PassOn? {
      HandlerKeepsCorsHeaders(gate.headers, httpMethod, body, apiKey, complete, generate, order, AllowOrigin);
      HandlerKeepsCorsHeaders(gate.headers, httpMethod, body, apiKey, complete, generate, order, AllowCredentials);
    }
  }

  /** The headers the gate sets or answers with name the origin and allow credentials exactly when the origin is allowed. */
  lemma GateSetsCorsHeaders(origin: string, httpMethod: string)
    ensures var gate := AddHeaders(origin, httpMethod);
            var headers := if gate.PassOn? then gate.headers else gate.reply.headers;
            (AllowOrigin in headers <==> OriginAllowed(origin))
            && (AllowOrigin in headers ==>
                 headers[AllowOrigin] == origin
                 && AllowCredentials in headers && headers[AllowCredentials] == "true")
  {
    assert AllowOrigin !in SecurityHeaders() && AllowCredentials !in SecurityHeaders();
    if !OriginAllowed(origin) && httpMethod != "OPTIONS" {
      assert AllowOrigin != ContentType && AllowOrigin != "X-Content-Type-Options";
    }
  }

  /** HandlePrediction: dispatch, read the body, get the prediction, fan out the images, reply. */
  method HandlePrediction(
    headers: Headers, httpMethod: string, body: RequestBody, apiKey: string, complete: string -> Result<string, string>,
    generate: (nat, string) -> Result<Bytes, string>, order: seq<nat>)
    returns (reply: Reply)
    requires IsSchedule(order)
    ensures reply == HandlerReply(headers, httpMethod, body, apiKey, complete, generate, order)
  {
    if httpMethod == "OPTIONS" {
      return Reply(StatusOK, headers, NoBody);
    }
    if httpMethod == "HEAD" {
      return Reply(StatusOK, headers[ContentType := JsonContentType], NoBody);
    }
    if httpMethod != "POST" {
      return Error(headers, "Only POST method is allowed", StatusMethodNotAllowed);
    }
    var h := headers + PostHeaders();
    if body.Unreadable? {
      return Error(h, "Error reading request body", StatusBadRequest);
    }
    if body.Malformed? {
      return Error(h, "Invalid JSON in request body", StatusBadRequest);
    }
    var prediction := GetPrediction(body.profile, apiKey, complete);
    if prediction.Err? {
      return Error(h, "Error getting prediction: " + prediction.error, StatusInternalServerError);
    }
    reply := RespondWithImages(h, prediction.value, generate, order);
  }
}
