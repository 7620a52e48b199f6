/**
 * The standalone server of cmd/server/server.go: its prediction handler
 * sets wildcard CORS headers itself, and its `getPrediction` falls back to
 * the last three paragraphs of the reply, then to three fixed prompts, when
 * the reply has fewer than three prompt lines.
 */
module CmdServer {
  import opened Basics
  import opened GoStrings
  import opened Types
  import opened HttpModel
  import opened PromptLines
  import opened FanOut

  /** The CORS headers set before anything else, whatever the origin. */
  function WildcardCorsHeaders(): Headers {
    map[
      "Access-Control-Allow-Origin" := "*",
      "Access-Control-Allow-Methods" := "POST, GET, OPTIONS, HEAD",
      "Access-Control-Allow-Headers" := "Content-Type, Authorization",
      "Access-Control-Max-Age" := "3600"
    ]
  }

  const ParagraphBreak := "\n\n"
  const MissingKeyMessage := "OPENROUTER_API_KEY не установлен"

  /** The three prompts used when the reply can be split neither by prefix nor by paragraph. */
  function FixedPrompts(): seq<string> {
    [
      "Abstract spiritual energy "
      + "in Kandinsky style with vibrant colors",
      "Mystical symbols and patterns "
      + "in Kandinsky composition",
      "Cosmic harmony and balance "
      + "in abstract Kandinsky expressionism"
    ]
  }

  /** The filler of the padding loop. */
  const PaddingPrompt := "Abstract spiritual energy " + "in Kandinsky style"

  /** The paragraph fallback: the last three paragraphs are the prompts, the ones before them the text. */
  function LastThreeParagraphs(parts: seq<string>): (p: Prediction)
    requires |parts| >= 4
    ensures |p.imagePrompts| == 3
  {
    Prediction(Join(parts[..|parts| - 3], ParagraphBreak), parts[|parts| - 3..])
  }

  /** The text and prompts after the fallbacks, before padding and truncation. */
  function Candidates(response: string): (c: Prediction)
    ensures |c.imagePrompts| >= 3
  {
    var lines := Split(response, LineBreak);
    var prompts := PromptsOf(lines);
    var text := Join(TextLinesOf(lines), LineBreak);
    if |prompts| >= 3 then Prediction(text, prompts)
    else
      var parts := Split(response, ParagraphBreak);
      if |parts| >= 4 then LastThreeParagraphs(parts)
      else Prediction(text, FixedPrompts())
  }

  /** The prediction read from the model's reply: the candidates, padded and cut to three prompts. */
  function Extracted(response: string): (p: Prediction)
    ensures |p.imagePrompts| == ImageCount
  {
    var c := Candidates(response);
    PaddedShape(c.imagePrompts, PaddingPrompt);
    Prediction(c.text, Padded(c.imagePrompts, PaddingPrompt))
  }

  /**
   * The padding loop never adds a prompt: every branch already has three
   * or more, so the result is the first three candidates whatever the filler.
   */
  lemma PaddingNeverRuns(response: string, filler: string)
    ensures Extracted(response).imagePrompts == Candidates(response).imagePrompts[..3] == Padded(Candidates(response).imagePrompts, filler)
  {
  }

  /** With three or more prompt lines, the prompts are the first three and the text is every other line. */
  lemma PromptLinesFirst(response: string)
    requires |PromptsOf(Split(response, LineBreak))| >= 3
    ensures Extracted(response) == Prediction(Join(TextLinesOf(Split(response, LineBreak)), LineBreak), PromptsOf(Split(response, LineBreak))[..3])
  {
  }

  /**
   * With fewer prompt lines but four or more paragraphs, the last three
   * paragraphs are the prompts, raw, and the rest is the text; the prompt
   * lines found first are dropped, and nothing of the reply is lost.
   */
  lemma ParagraphFallback(response: string)
    requires |PromptsOf(Split(response, LineBreak))| < 3
    requires |Split(response, ParagraphBreak)| >= 4
    ensures var parts := Split(response, ParagraphBreak);
            var p := Extracted(response);
            && p.imagePrompts == parts[|parts| - 3..]
            && p.text == Join(parts[..|parts| - 3], ParagraphBreak)
  {
    ParagraphFallbackTakesLastThree(response);
    LastThreeParagraphsText(Split(response, ParagraphBreak));
  }

  /** In the paragraph fallback nothing of the reply is lost: text and prompts join back to it. */
  lemma ParagraphFallbackJoinsBack(response: string)
    requires |PromptsOf(Split(response, LineBreak))| < 3
    requires |Split(response, ParagraphBreak)| >= 4
    ensures var p := Extracted(response);
            p.text + ParagraphBreak + Join(p.imagePrompts, ParagraphBreak) == response
  {
    ParagraphFallbackTakesLastThree(response);
    LastThreeJoinBack(response, Split(response, ParagraphBreak));
  }

  lemma LastThreeJoinBack(s: string, parts: seq<string>)
    requires parts == Split(s, ParagraphBreak) && |parts| >= 4
    ensures var p := LastThreeParagraphs(parts);
            p.text + ParagraphBreak + Join(p.imagePrompts, ParagraphBreak) == s
  {
    LastThreeParagraphsText(parts);
    SplitCutJoin(s, ParagraphBreak, |parts| - 3);
  }

  lemma ParagraphFallbackTakesLastThree(response: string)
    requires |PromptsOf(Split(response, LineBreak))| < 3
    requires |Split(response, ParagraphBreak)| >= 4
    ensures Extracted(response) == LastThreeParagraphs(Split(response, ParagraphBreak))
  {
    assert Candidates(response) == LastThreeParagraphs(Split(response, ParagraphBreak));
  }

  lemma LastThreeParagraphsText(parts: seq<string>)
    requires |parts| >= 4
    ensures LastThreeParagraphs(parts).text == Join(parts[..|parts| - 3], ParagraphBreak)
    ensures LastThreeParagraphs(parts).imagePrompts == parts[|parts| - 3..]
  {
  }

  /** Otherwise the fixed prompts are used and the text is every line that is not a prompt line. */
  lemma FixedFallback(response: string)
    requires |PromptsOf(Split(response, LineBreak))| < 3
    requires |Split(response, ParagraphBreak)| < 4
    ensures Extracted(response) == Prediction(Join(TextLinesOf(Split(response, LineBreak)), LineBreak), FixedPrompts())
  {
  }

  /** getPrediction as a value. */
  function PredictionFor(profile: Profile, apiKey: string, complete: string -> Result<string, string>): (r: Result<Prediction, string>)
    ensures r.Ok? ==> |r.value.imagePrompts| == ImageCount
  {
    if apiKey == "" then Err(MissingKeyMessage)
    else
      match complete(RequestPrompt(profile))
      case Err(e) => Err("error creating chat completion: " + e)
      case Ok(response) => Ok(Extracted(response))
  }

  /** Without an API key the prediction fails before the model is asked anything. */
  lemma MissingKeyAsksNothing(profile: Profile, complete1: string -> Result<string, string>, complete2: string -> Result<string, string>)
    ensures PredictionFor(profile, "", complete1) == PredictionFor(profile, "", complete2) == Err(MissingKeyMessage)
  {
  }

  /** getPrediction: route the lines, fall back, pad and cut. */
  method GetPrediction(profile: Profile, apiKey: string, complete: string -> Result<string, string>) returns (r: Result<Prediction, string>)
    ensures r == PredictionFor(profile, apiKey, complete)
  {
    var prompt := RequestPrompt(profile);
    if apiKey == "" {
      return Err(MissingKeyMessage);
    }
    var response := complete(prompt);
    if response.Err? {
      return Err("error creating chat completion: " + response.error);
    }
    var imagePrompts, textParts := RouteLines(response.value);
    var text := Join(textParts, LineBreak);
    if |imagePrompts| < 3 {
      var parts := Split(response.value, ParagraphBreak);
      if |parts| >= 4 {
        var fallback := LastThreeParagraphs(parts);
        text, imagePrompts := fallback.text, fallback.imagePrompts;
      } else {
        imagePrompts := FixedPrompts();
      }
    }
    assert imagePrompts == Candidates(response.value).imagePrompts;
    imagePrompts := PadPrompts(imagePrompts, PaddingPrompt);
    r := Ok(Prediction(text, imagePrompts));
  }

  /** handlePrediction as a value. */
  function HandlerReply(
    httpMethod: string, body: RequestBody, apiKey: string, complete: string -> Result<string, string>,
    generate: (nat, string) -> Result<Bytes, string>, order: seq<nat>): (r: Reply)
  {
    var headers := WildcardCorsHeaders();
    if httpMethod == "OPTIONS" then Reply(StatusOK, headers, NoBody)
    else if httpMethod == "HEAD" then Reply(StatusOK, headers[ContentType := JsonContentType], NoBody)
    else if httpMethod != "POST" then Error(headers, "Only POST method is allowed", StatusMethodNotAllowed)
    else PostReply(headers[ContentType := JsonContentType], body, (profile: Profile) => PredictionFor(profile, apiKey, complete), generate, order)
  }

  /** Every reply carries the wildcard CORS headers, unchanged. */
  lemma RepliesCarryWildcardCors(
    httpMethod: string, body: RequestBody, apiKey: string, complete: string -> Result<string, string>,
    generate: (nat, string) -> Result<Bytes, string>, order: seq<nat>, key: string)
    requires key in WildcardCorsHeaders()
    ensures var reply := HandlerReply(httpMethod, body, apiKey, complete, generate, order);
            key in reply.headers && reply.headers[key] == WildcardCorsHeaders()[key]
  {
    WildcardKeysAreNotContentHeaders(key);
    HandlerKeepsWildcardCors(httpMethod, body, apiKey, complete, generate, order);
  }

  lemma HandlerKeepsWildcardCors(
    httpMethod: string, body: RequestBody, apiKey: string, complete: string -> Result<string, string>,
    generate: (nat, string) -> Result<Bytes, string>, order: seq<nat>)
    ensures KeepsOtherHeaders(WildcardCorsHeaders(), HandlerReply(httpMethod, body, apiKey, complete, generate, order).headers)
  {
    var headers := WildcardCorsHeaders();
    var h := headers[ContentType := JsonContentType];
    var reply := HandlerReply(httpMethod, body, apiKey, complete, generate, order);
    if httpMethod == "POST" {
      assert KeepsOtherHeaders(headers, h);
      KeepsOtherHeadersTransitive(headers, h, reply.headers);
    }
  }

  lemma WildcardKeysAreNotContentHeaders(key: string)
    requires key in WildcardCorsHeaders()
    ensures key != ContentType && key != "X-Content-Type-Options"
  {
  }

  /** OPTIONS and HEAD get 200 and other methods but POST 405, without reading the body or asking the model. */
  lemma NonPostIgnoresRequest(
    httpMethod: string, body: RequestBody, apiKey: string, complete: string -> Result<string, string>,
    generate: (nat, string) -> Result<Bytes, string>, order: seq<nat>)
    requires httpMethod != "POST"
    ensures var reply := HandlerReply(httpMethod, body, apiKey, complete, generate, order);
            && reply == HandlerReply(httpMethod, Unreadable(""), "", complete, generate, order)
            && reply.status == if httpMethod == "OPTIONS" || httpMethod == "HEAD" then StatusOK else StatusMethodNotAllowed
  {
  }

  /** A body that cannot be read or decoded gets 400 before the model is asked. */
  lemma BadBodyAsksNothing(
    body: RequestBody, apiKey: string, complete1: string -> Result<string, string>, complete2: string -> Result<string, string>,
    generate: (nat, string) -> Result<Bytes, string>, order: seq<nat>)
    requires !body.Parsed?
    ensures HandlerReply("POST", body, apiKey, complete1, generate, order) == HandlerReply("POST", body, "", complete2, generate, order)
    ensures HandlerReply("POST", body, apiKey, complete1, generate, order).status == StatusBadRequest
  {
  }

  /** handlePrediction: CORS headers, dispatch, body, prediction, fan-out, reply. */
  method HandlePrediction(
    httpMethod: string, body: RequestBody, apiKey: string, complete: string -> Result<string, string>,
    generate: (nat, string) -> Result<Bytes, string>, order: seq<nat>)
    returns (reply: Reply)
    requires IsSchedule(order)
    ensures reply == HandlerReply(httpMethod, body, apiKey, complete, generate, order)
  {
    var headers := WildcardCorsHeaders();
    if httpMethod == "OPTIONS" {
      return Reply(StatusOK, headers, NoBody);
    }
    if httpMethod == "HEAD" {
      return Reply(StatusOK, headers[ContentType := JsonContentType], NoBody);
    }
    if httpMethod != "POST" {
      return Error(headers, "Only POST method is allowed", StatusMethodNotAllowed);
    }
    headers := headers[ContentType := JsonContentType];
    if body.Unreadable? {
      return Error(headers, "Error reading request body", StatusBadRequest);
    }
    if body.Malformed? {
      return Error(headers, "Invalid JSON in request body", StatusBadRequest);
    }
    var prediction := GetPrediction(body.profile, apiKey, complete);
    if prediction.Err? {
      return Error(headers, "Error getting prediction: " + prediction.error, StatusInternalServerError);
    }
    reply := RespondWithImages(headers, prediction.value, generate, order);
  }
}
