/**
 * The older single-file server of server.go: `handleWebRequest` answers
 * every route with wildcard CORS headers, reports its status on GET, and on
 * POST returns the model's answer to a prompt built from the client's
 * profile, with a sentence about the partner when both partner fields are given.
 */
module RootServer {
  import opened Basics
  import opened GoStrings
  import opened HttpModel

  /** The headers set on every reply before dispatch. */
  function ServerHeaders(): Headers {
    map[
      "Access-Control-Allow-Origin" := "*",
      "Access-Control-Allow-Methods" := "POST, GET, HEAD, OPTIONS",
      "Access-Control-Allow-Headers" := "*",
      "Access-Control-Max-Age" := "3600",
      "Cache-Control" := "no-store, no-cache, must-revalidate, proxy-revalidate",
      "Pragma" := "no-cache",
      "Expires" := "0"
    ]
  }

  // The fixed pieces of the prompt, between the profile fields.
  const Greeting := "Ты - опытная гадалка на картах Таро. " + "Пользователь по имени "
  const BornOn := ", родившийся "
  const AskedAbout := ", задал вопрос: \""
  const AreaIs := "\"\nСфера вопроса: "
  const Tasks :=
    "\n\nСделай предсказание, которое:\n"
    + "1. Напрямую отвечает на вопрос пользователя\n"
    + "2. Дает конкретные рекомендации\n"
    + "3. Учитывает сферу вопроса ("
  const Closing := ")\n\nПиши живым, эмоциональным языком, " + "но сохраняй профессионализм."

  /** The prompt without the partner sentence; the mode is named twice. */
  function BasePrompt(profile: Profile): string {
    Greeting + profile.name + BornOn + profile.birthDate + AskedAbout + profile.question
    + AreaIs + profile.mode + Tasks + profile.mode + Closing
  }

  /** The sentence about the partner. */
  function PartnerSentence(profile: Profile): string {
    "\n\nПартнер: " + profile.partnerName + ", родился(ась) " + profile.partnerBirth + "."
  }

  predicate HasPartner(profile: Profile) {
    profile.partnerName != "" && profile.partnerBirth != ""
  }

  /** The prompt sent to the model. */
  function PredictionPrompt(profile: Profile): string {
    if HasPartner(profile) then BasePrompt(profile) + PartnerSentence(profile) else BasePrompt(profile)
  }

  /** A text occurs at the end of itself appended to another. */
  lemma OccursAtEnd(s: string, sub: string)
    ensures OccursAt(s + sub, sub, |s|)
  {
    assert (s + sub)[|s|..|s| + |sub|] == sub;
  }

  /** An occurrence stays where it is when more text is appended. */
  lemma OccursInLonger(s: string, more: string, sub: string, i: int)
    requires OccursAt(s, sub, i)
    ensures OccursAt(s + more, sub, i)
  {
    assert (s + more)[i..i + |sub|] == s[i..i + |sub|];
  }

  /** Five fields placed between six fixed pieces occur where they were placed. */
  lemma FieldsOccurInPlace(s0: string, f1: string, s1: string, f2: string, s2: string, f3: string,
                           s3: string, f4: string, s4: string, f5: string, s5: string)
    ensures var w := s0 + f1 + s1 + f2 + s2 + f3 + s3 + f4 + s4 + f5 + s5;
            && OccursAt(w, f1, |s0|)
            && OccursAt(w, f2, |s0 + f1 + s1|)
            && OccursAt(w, f3, |s0 + f1 + s1 + f2 + s2|)
            && OccursAt(w, f4, |s0 + f1 + s1 + f2 + s2 + f3 + s3|)
            && OccursAt(w, f5, |s0 + f1 + s1 + f2 + s2 + f3 + s3 + f4 + s4|)
  {
    var t1 := s0 + f1;
    var t2 := t1 + s1;
    var t3 := t2 + f2;
    var t4 := t3 + s2;
    var t5 := t4 + f3;
    var t6 := t5 + s3;
    var t7 := t6 + f4;
    var t8 := t7 + s4;
    var t9 := t8 + f5;
    var w := t9 + s5;
    OccursAtEnd(s0, f1);
    OccursAtEnd(t2, f2);
    OccursAtEnd(t4, f3);
    OccursAtEnd(t6, f4);
    OccursAtEnd(t8, f5);
    OccursInLonger(t1, s1, f1, |s0|);
    OccursInLonger(t2, f2, f1, |s0|);
    OccursInLonger(t3, s2, f1, |s0|);
    OccursInLonger(t3, s2, f2, |t2|);
    OccursInLonger(t4, f3, f1, |s0|);
    OccursInLonger(t4, f3, f2, |t2|);
    OccursInLonger(t5, s3, f1, |s0|);
    OccursInLonger(t5, s3, f2, |t2|);
    OccursInLonger(t5, s3, f3, |t4|);
    OccursInLonger(t6, f4, f1, |s0|);
    OccursInLonger(t6, f4, f2, |t2|);
    OccursInLonger(t6, f4, f3, |t4|);
    OccursInLonger(t7, s4, f1, |s0|);
    OccursInLonger(t7, s4, f2, |t2|);
    OccursInLonger(t7, s4, f3, |t4|);
    OccursInLonger(t7, s4, f4, |t6|);
    OccursInLonger(t8, f5, f1, |s0|);
    OccursInLonger(t8, f5, f2, |t2|);
    OccursInLonger(t8, f5, f3, |t4|);
    OccursInLonger(t8, f5, f4, |t6|);
    OccursInLonger(t9, s5, f1, |s0|);
    OccursInLonger(t9, s5, f2, |t2|);
    OccursInLonger(t9, s5, f3, |t4|);
    OccursInLonger(t9, s5, f4, |t6|);
    OccursInLonger(t9, s5, f5, |t8|);
  }

  /**
   * The prompt names the client, their birth date and their question, and
   * names the mode at two different places.
   */
  lemma PromptEmbedsProfile(profile: Profile)
    ensures var prompt := PredictionPrompt(profile);
            && Contains(prompt, profile.name)
            && Contains(prompt, profile.birthDate)
            && Contains(prompt, profile.question)
            && exists i, j :: i < j && OccursAt(prompt, profile.mode, i) && OccursAt(prompt, profile.mode, j)
  {
    var p := profile;
    var base := BasePrompt(p);
    var prompt := PredictionPrompt(p);
    FieldsOccurInPlace(Greeting, p.name, BornOn, p.birthDate, AskedAbout, p.question, AreaIs, p.mode, Tasks, p.mode, Closing);
    var at1 := |Greeting|;
    var at2 := |Greeting + p.name + BornOn|;
    var at3 := |Greeting + p.name + BornOn + p.birthDate + AskedAbout|;
    var at4 := |Greeting + p.name + BornOn + p.birthDate + AskedAbout + p.question + AreaIs|;
    var at5 := |Greeting + p.name + BornOn + p.birthDate + AskedAbout + p.question + AreaIs + p.mode + Tasks|;
    assert at4 < at5;
    var rest := if HasPartner(p) then PartnerSentence(p) else "";
    assert prompt == base + rest;
    OccursInLonger(base, rest, p.name, at1);
    OccursInLonger(base, rest, p.birthDate, at2);
    OccursInLonger(base, rest, p.question, at3);
    OccursInLonger(base, rest, p.mode, at4);
    OccursInLonger(base, rest, p.mode, at5);
  }

  /**
   * The prompt is the base prompt, followed by the partner sentence exactly
   * when both partner fields are non-empty; the sentence names both.
   */
  lemma PartnerSentenceIffBothGiven(profile: Profile)
    ensures var prompt := PredictionPrompt(profile);
            && HasPrefix(prompt, BasePrompt(profile))
            && (prompt != BasePrompt(profile) <==> profile.partnerName != "" && profile.partnerBirth != "")
            && (prompt != BasePrompt(profile) ==>
                 Contains(prompt, profile.partnerName) && Contains(prompt, profile.partnerBirth))
  {
    var p := profile;
    var base := BasePrompt(p);
    var prompt := PredictionPrompt(p);
    if HasPartner(p) {
      var head := "\n\nПартнер: ";
      var mid := ", родился(ась) ";
      var sentence := PartnerSentence(p);
      assert sentence == head + p.partnerName + mid + p.partnerBirth + ".";
      assert prompt == base + sentence;
      assert prompt[..|base|] == base;
      PartnerFieldsInPlace(base, head, p.partnerName, mid, p.partnerBirth, ".");
    }
  }

  /** The two partner fields occur where the sentence places them. */
  lemma PartnerFieldsInPlace(base: string, head: string, name: string, mid: string, birth: string, stop: string)
    ensures var w := base + (head + name + mid + birth + stop);
            && OccursAt(w, name, |base + head|)
            && OccursAt(w, birth, |base + head + name + mid|)
  {
    var t1 := base + head + name;
    var t2 := t1 + mid;
    var t3 := t2 + birth;
    assert base + (head + name + mid + birth + stop) == t3 + stop;
    OccursAtEnd(base + head, name);
    OccursInLonger(t1, mid, name, |base + head|);
    OccursInLonger(t2, birth, name, |base + head|);
    OccursInLonger(t3, stop, name, |base + head|);
    OccursAtEnd(t2, birth);
    OccursInLonger(t3, stop, birth, |t2|);
  }

  /** What the chat completion call gives back: an error, or the contents of its choices in order. */
  datatype ChatReply = ChatFailed(error: string) | Choices(contents: seq<string>)

  const NoChoiceMessage := "не получен ответ от модели"

  /** The prediction taken from the model's reply. */
  function PredictionOf(reply: ChatReply): (r: Result<string, string>)
    ensures r.Ok? <==> reply.Choices? && |reply.contents| > 0
    ensures r.Ok? ==> r.value == reply.contents[0]
    ensures reply == Choices([]) ==> r == Err(NoChoiceMessage)
    ensures reply.ChatFailed? ==> r == Err("ошибка при получении предсказания: " + reply.error)
  {
    match reply
    case ChatFailed(e) => Err("ошибка при получении предсказания: " + e)
    case Choices(contents) => if |contents| == 0 then Err(NoChoiceMessage) else Ok(contents[0])
  }

  /** startServer goes on to serve only when the key is set. */
  predicate ServerStarts(apiKey: string) {
    apiKey != ""
  }

  /** A run of getPrediction as written: it completes, or the slice of the key for the log panics. */
  datatype Run = Completed(result: Result<string, string>) | SlicePanic

  /**
   * getPrediction as written: before anything else the key is sliced to its
   * first four bytes for the log, which panics when the key is shorter.
   */
  function GetPredictionAsWritten(profile: Profile, apiKey: string, chat: (string, string) -> ChatReply): Run {
    if Utf8Length(apiKey) < 4 then SlicePanic
    else Completed(PredictionOf(chat(apiKey, PredictionPrompt(profile))))
  }

  /**
   * startServer accepts any non-empty key, but getPrediction then panics
   * whenever the key is one to three bytes long: "abc" is one, while two
   * Cyrillic letters already make four bytes.
   */
  lemma ShortAcceptedKeyPanics(profile: Profile, apiKey: string, chat: (string, string) -> ChatReply)
    ensures ServerStarts(apiKey) && GetPredictionAsWritten(profile, apiKey, chat) == SlicePanic
        <==> 1 <= Utf8Length(apiKey) <= 3
    ensures ServerStarts("abc") && GetPredictionAsWritten(profile, "abc", chat) == SlicePanic
    ensures GetPredictionAsWritten(profile, "юл", chat) != SlicePanic
  {
    assert Utf8Length("abc") == 3 by {
      assert "abc"[1..] == "bc" && "bc"[1..] == "c" && "c"[1..] == "";
    }
    assert Utf8Length("юл") == 4 by {
      assert "юл"[1..] == "л" && "л"[1..] == "";
    }
  }

  /** The part of the key shown in the log: its first four characters, or all of a shorter key. */
  function KeyPreview(apiKey: string): (preview: string)
    ensures HasPrefix(apiKey, preview)
    ensures |preview| == Min(4, |apiKey|)
  {
    apiKey[..Min(4, |apiKey|)]
  }

  /** getPrediction with the preview cut safely: the key only reaches the log, so this is the model's answer. */
  function PredictionFor(profile: Profile, apiKey: string, chat: (string, string) -> ChatReply): Result<string, string> {
    PredictionOf(chat(apiKey, PredictionPrompt(profile)))
  }

  /** The corrected getPrediction never panics and agrees with the code wherever the code completes. */
  lemma CorrectedPredictionAgrees(profile: Profile, apiKey: string, chat: (string, string) -> ChatReply)
    ensures GetPredictionAsWritten(profile, apiKey, chat) != SlicePanic ==>
      GetPredictionAsWritten(profile, apiKey, chat) == Completed(PredictionFor(profile, apiKey, chat))
    ensures GetPredictionAsWritten(profile, apiKey, chat) == SlicePanic <==> Utf8Length(apiKey) < 4
  {
  }

  /** getPrediction, corrected: build the prompt, add the partner sentence, ask the model, take the first choice. */
  method GetPrediction(profile: Profile, apiKey: string, chat: (string, string) -> ChatReply)
    returns (preview: string, r: Result<string, string>)
    ensures preview == KeyPreview(apiKey)
    ensures r == PredictionFor(profile, apiKey, chat)
  {
    preview := apiKey[..Min(4, |apiKey|)];
    var prompt := BasePrompt(profile);
    if profile.partnerName != "" && profile.partnerBirth != "" {
      prompt := prompt + PartnerSentence(profile);
    }
    var reply := chat(apiKey, prompt);
    if reply.ChatFailed? {
      return preview, Err("ошибка при получении предсказания: " + reply.error);
    }
    if |reply.contents| == 0 {
      return preview, Err(NoChoiceMessage);
    }
    r := Ok(reply.contents[0]);
  }

  /** handleWebRequest as a value. */
  function WebReply(httpMethod: string, body: RequestBody, apiKey: string, chat: (string, string) -> ChatReply): Reply {
    var headers := ServerHeaders();
    if httpMethod == "OPTIONS" then Reply(StatusOK, headers, NoBody)
    else if httpMethod == "HEAD" then Reply(StatusOK, headers[ContentType := JsonContentType], NoBody)
    else if httpMethod == "GET" then
      Reply(StatusOK, headers[ContentType := JsonContentType], JsonObject(map["status" := "Server is running"]))
    else if httpMethod != "POST" then Error(headers, "Method not allowed", StatusMethodNotAllowed)
    else
      match body
      case Unreadable(_) => Error(headers, "Error reading request body", StatusBadRequest)
      case Malformed(_) => Error(headers, "Invalid request body", StatusBadRequest)
      case Parsed(profile) =>
        match PredictionFor(profile, apiKey, chat)
        case Err(e) => Error(headers, "Failed to generate prediction: " + e, StatusInternalServerError)
        case Ok(text) => Reply(StatusOK, headers[ContentType := JsonContentType], JsonObject(map["prediction" := text]))
  }

  /**
   * Dispatch: OPTIONS and HEAD get 200 with no body, GET gets the status
   * object, and any other method but POST gets 405, all without reading the
   * body or asking the model; on POST a body that cannot be read or decoded
   * gets 400 before the model is asked.
   */
  lemma DispatchOnMethod(httpMethod: string, body: RequestBody, apiKey: string, chat1: (string, string) -> ChatReply, chat2: (string, string) -> ChatReply)
    ensures httpMethod != "POST" ==>
      var reply := WebReply(httpMethod, body, apiKey, chat1);
      && reply == WebReply(httpMethod, Unreadable(""), apiKey, chat2)
      && reply.status == (if httpMethod in {"OPTIONS", "HEAD", "GET"} then StatusOK else StatusMethodNotAllowed)
      && (reply.body.JsonObject? <==> httpMethod == "GET")
    ensures httpMethod == "POST" && !body.Parsed? ==>
      WebReply(httpMethod, body, apiKey, chat1) == WebReply(httpMethod, body, apiKey, chat2)
      && WebReply(httpMethod, body, apiKey, chat1).status == StatusBadRequest
  {
  }

  /**
   * A decoded POST succeeds exactly when the model gave at least one
   * choice, and the reply's only field is the first choice, unchanged.
   */
  lemma PostRepliesWithFirstChoice(profile: Profile, apiKey: string, chat: (string, string) -> ChatReply)
    ensures var reply := WebReply("POST", Parsed(profile), apiKey, chat);
            var answer := chat(apiKey, PredictionPrompt(profile));
            && (reply.status == StatusOK <==> answer.Choices? && |answer.contents| > 0)
            && (reply.status == StatusOK ==> reply.body == JsonObject(map["prediction" := answer.contents[0]]))
            && (reply.status != StatusOK ==> reply.status == StatusInternalServerError && reply.body.PlainText?)
  {
  }

  /**
   * A run of handleWebRequest as written: it answers, or getPrediction panics.
   * net/http recovers a handler's panic and closes the connection without a
   * reply; HandlerPanic stands for that outcome.
   */
  datatype WebRun = Answered(reply: Reply) | HandlerPanic

  /** handleWebRequest as written: only a POST whose body reads and decodes calls getPrediction. */
  function WebRunAsWritten(httpMethod: string, body: RequestBody, apiKey: string, chat: (string, string) -> ChatReply): WebRun {
    if httpMethod == "POST" && body.Parsed? && GetPredictionAsWritten(body.profile, apiKey, chat) == SlicePanic then HandlerPanic
    else Answered(WebReply(httpMethod, body, apiKey, chat))
  }

  /**
   * A short key panics exactly on the POSTs whose body reads and decodes;
   * every other request, and every request with a key of four bytes or
   * more, gets the corrected handler's reply.
   */
  lemma ShortKeyPanicsOnDecodedPosts(httpMethod: string, body: RequestBody, apiKey: string, chat: (string, string) -> ChatReply)
    ensures WebRunAsWritten(httpMethod, body, apiKey, chat) == HandlerPanic
        <==> httpMethod == "POST" && body.Parsed? && Utf8Length(apiKey) < 4
    ensures WebRunAsWritten(httpMethod, body, apiKey, chat) != HandlerPanic ==>
      WebRunAsWritten(httpMethod, body, apiKey, chat) == Answered(WebReply(httpMethod, body, apiKey, chat))
  {
  }

  /** handleWebRequest: headers, dispatch, body, prediction, reply. */
  method HandleWebRequest(httpMethod: string, body: RequestBody, apiKey: string, chat: (string, string) -> ChatReply)
    returns (reply: Reply)
    ensures reply == WebReply(httpMethod, body, apiKey, chat)
  {
    var headers := ServerHeaders();
    if httpMethod == "OPTIONS" {
      return Reply(StatusOK, headers, NoBody);
    }
    if httpMethod == "HEAD" {
      return Reply(StatusOK, headers[ContentType := JsonContentType], NoBody);
    }
    if httpMethod == "GET" {
      return Reply(StatusOK, headers[ContentType := JsonContentType], JsonObject(map["status" := "Server is running"]));
    }
    if httpMethod != "POST" {
      return Error(headers, "Method not allowed", StatusMethodNotAllowed);
    }
    if body.Unreadable? {
      return Error(headers, "Error reading request body", StatusBadRequest);
    }
    if body.Malformed? {
      return Error(headers, "Invalid request body", StatusBadRequest);
    }
    var _, prediction := GetPrediction(body.profile, apiKey, chat);
    if prediction.Err? {
      return Error(headers, "Failed to generate prediction: " + prediction.error, StatusInternalServerError);
    }
    reply := Reply(StatusOK, headers[ContentType := JsonContentType], JsonObject(map["prediction" := prediction.value]));
  }
}
