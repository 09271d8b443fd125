/**
 * The text-generation client: the request it builds around the user's
 * question, the classification of the reply (or of the exception thrown
 * while fetching or parsing it) into the one string the page shows, and
 * the API-key check. The HTTP exchange itself is a parameter: `service`
 * maps a request to what the fetch-and-parse produced.
 */
module Gemini {
  import opened Base
  import opened Text

  /** The fields of the parsed JSON reply the client looks at; a missing field is `None`. */
  datatype Part = Part(text: Option<string>)
  datatype Content = Content(parts: Option<seq<Part>>)
  datatype Candidate = Candidate(content: Option<Content>)
  datatype ApiError = ApiError(status: Option<string>, message: Option<string>)
  datatype Reply = Reply(candidates: Option<seq<Candidate>>, error: Option<ApiError>)

  /** The awaited fetch and `response.json()` either give a reply or throw an error with a message. */
  datatype ApiResult = Parsed(data: Reply) | Threw(message: string)

  /** The integer generation settings and the key the request is sent with. */
  datatype Request = Request(apiKey: string, text: string, topK: int, maxOutputTokens: int)

  const HealthInstruction := "You are a helpful health assistant. Answer the following health-related question with practical suggestions for prevention and management. Provide specific, actionable advice in simple language. Keep your response brief (3-4 sentences) and focus on home remedies, lifestyle changes, and self-care tips when appropriate. Avoid simply telling the user to \"see a doctor\" unless it's a clear emergency: "
  const TopK := 40
  const MaxOutputTokens := 300

  const KeyErrorPrefix := "API key" + " error: "
  const KeyErrorSuffix := ". Please check your API key in the .env file."
  const ErrorPrefix := "I'm sorry, I encountered an " + "error" + ": "
  const UnknownError := "Unknown error"
  /** Kept in pieces of eight characters: the proof that it names no problem reads it position by position. */
  const UnexpectedFormat := "I'm sorr" + "y, I cou" + "ldn't pr" + "ocess yo" + "ur reque" + "st. Plea" + "se try a" + "gain lat" + "er."
  /** The two failure notices, written around the word that validateApiKey looks for. */
  const NetworkFailure := "There was a network " + "error" + " connecting to the AI service. Please check your API key and internet connection."
  const GenericFailure := "I'm sorry, there was an " + "error" + " processing your request. Please check your API key and try again."
  const PlaceholderKey := "your_gemini_api_key_here"
  const ProbePrompt := "Hello, this is a test message."

  /** A template literal `${x}` of a possibly missing string. */
  function Interpolate(s: Option<string>): string
  {
    if s.Some? then s.value else "undefined"
  }

  /** A possibly missing string is truthy when present and not empty. */
  predicate Truthy(s: Option<string>)
  {
    s.Some? && s.value != ""
  }

  /** The user's question with the fixed health-assistant instruction in front of it. */
  function WrapPrompt(prompt: string): (r: string)
    ensures |r| == |HealthInstruction| + |prompt|
    ensures r[..|HealthInstruction|] == HealthInstruction && r[|HealthInstruction|..] == prompt
  {
    HealthInstruction + prompt
  }

  /** Distinct questions give distinct prompts: the question is the prompt's suffix after the instruction. */
  lemma WrapPromptInjective(a: string, b: string)
    ensures WrapPrompt(a) == WrapPrompt(b) <==> a == b
  {
    if WrapPrompt(a) == WrapPrompt(b) {
      assert a == WrapPrompt(a)[|HealthInstruction|..];
    }
  }

  /** The payload of the request; a missing key is sent as the text "undefined". */
  function RequestFor(key: Option<string>, prompt: string): (r: Request)
    ensures r.text == WrapPrompt(prompt) && r.topK == TopK && r.maxOutputTokens == MaxOutputTokens
    ensures key.Some? ==> r.apiKey == key.value
    ensures key.None? ==> r.apiKey == "undefined"
  {
    Request(Interpolate(key), WrapPrompt(prompt), TopK, MaxOutputTokens)
  }

  /** `data.candidates[0]?.content?.parts?.[0]?.text`, when it is truthy. */
  function CandidateText(data: Reply): (r: Option<string>)
    ensures r.Some? <==>
      && data.candidates.Some? && |data.candidates.value| > 0
      && data.candidates.value[0].content.Some?
      && data.candidates.value[0].content.value.parts.Some?
      && |data.candidates.value[0].content.value.parts.value| > 0
      && Truthy(data.candidates.value[0].content.value.parts.value[0].text)
    ensures r.Some? ==> r.value != "" && r == data.candidates.value[0].content.value.parts.value[0].text
  {
    match data.candidates
    case None => None
    case Some(cs) =>
      if |cs| == 0 then None
      else match cs[0].content
        case None => None
        case Some(content) =>
          match content.parts
          case None => None
          case Some(ps) =>
            if |ps| > 0 && Truthy(ps[0].text) then ps[0].text else None
  }

  /** The error statuses and messages the client reports as a key problem. */
  predicate IsKeyError(e: ApiError)
  {
    e.status == Some("INVALID_ARGUMENT") || e.status == Some("PERMISSION_DENIED") ||
    (e.message.Some? && Contains(e.message.value, "API key"))
  }

  /** The string getGeminiResponse resolves with, for what the fetch-and-parse produced. */
  function Classify(result: ApiResult): (r: string)
    ensures result.Parsed? && CandidateText(result.data).Some? ==> r == CandidateText(result.data).value
    ensures result.Parsed? && CandidateText(result.data).None? && result.data.error.Some? ==>
      if IsKeyError(result.data.error.value)
      then r == KeyErrorPrefix + Interpolate(result.data.error.value.message) + KeyErrorSuffix
      else r == ErrorPrefix + (if Truthy(result.data.error.value.message) then result.data.error.value.message.value else UnknownError)
    ensures result.Parsed? && CandidateText(result.data).None? && result.data.error.None? ==> r == UnexpectedFormat
    ensures result.Threw? ==>
      r == if Contains(result.message, "Failed to fetch") || Contains(result.message, "NetworkError")
           then NetworkFailure else GenericFailure
  {
    match result
    case Parsed(data) =>
      var text := CandidateText(data);
      if text.Some? then text.value
      else if data.error.Some? then
        var e := data.error.value;
        if IsKeyError(e) then KeyErrorPrefix + Interpolate(e.message) + KeyErrorSuffix
        else ErrorPrefix + (if Truthy(e.message) then e.message.value else UnknownError)
      else UnexpectedFormat
    case Threw(message) =>
      if Contains(message, "Failed to fetch") || Contains(message, "NetworkError") then NetworkFailure
      else GenericFailure
  }

  /**
   * getGeminiResponse: the service is asked once, with the wrapped prompt
   * and the fixed settings, and every outcome of that exchange, a thrown
   * error included, is turned into the string the page shows.
   */
  function GetGeminiResponse(key: Option<string>, prompt: string, service: Request -> ApiResult): (r: string)
    ensures r == Classify(service(RequestFor(key, prompt)))
    ensures var result := service(RequestFor(key, prompt));
      || (result.Parsed? && CandidateText(result.data).Some?)
      || (result.Parsed? && result.data.error.None?)
      || !LooksValid(r)
  {
    var result := service(RequestFor(key, prompt));
    if result.Threw? then ThrownLooksInvalid(result.message); Classify(result)
    else if CandidateText(result.data).None? && result.data.error.Some? then ErrorReplyLooksInvalid(result.data); Classify(result)
    else Classify(result)
  }

  /** A response string that names no problem. */
  predicate LooksValid(response: string)
  {
    !Contains(response, "error") && !Contains(response, "API key")
  }

  /** `!GEMINI_API_KEY || GEMINI_API_KEY === "your_gemini_api_key_here"`. */
  predicate KeyMissing(key: Option<string>)
  {
    !Truthy(key) || key.value == PlaceholderKey
  }

  /** validateApiKey: a missing or placeholder key fails at once; otherwise a probe question is sent. */
  function ValidateApiKey(key: Option<string>, service: Request -> ApiResult): (r: bool)
    ensures KeyMissing(key) ==> !r
    ensures !KeyMissing(key) ==> (r <==> LooksValid(GetGeminiResponse(key, ProbePrompt, service)))
  {
    if KeyMissing(key) then false
    else LooksValid(GetGeminiResponse(key, ProbePrompt, service))
  }

  /** Without a usable key the answer does not depend on the service: no request is made. */
  lemma MissingKeyMakesNoCall(key: Option<string>, s1: Request -> ApiResult, s2: Request -> ApiResult)
    requires KeyMissing(key)
    ensures ValidateApiKey(key, s1) == ValidateApiKey(key, s2) == false
  {
  }

  /** The only doubled "r" of the apology is the one of "sorry", which "y" follows. */
  lemma OnlyDoubleR(i: nat)
    requires i + 3 < |UnexpectedFormat|
    ensures UnexpectedFormat[i + 1] == 'r' && UnexpectedFormat[i + 2] == 'r' ==> UnexpectedFormat[i + 3] == 'y'
  {
  }

  lemma NoLetterK(i: nat)
    requires i < |UnexpectedFormat|
    ensures UnexpectedFormat[i] != 'k'
  {
  }

  lemma UnexpectedFormatLooksValid()
    ensures LooksValid(UnexpectedFormat)
  {
    var u := UnexpectedFormat;
    forall i: nat | i + 5 <= |u| ensures !MatchAt(u, "error", i) {
      var w := u[i..i + 5];
      assert w[1] == u[i + 1] && w[2] == u[i + 2] && w[3] == u[i + 3];
      OnlyDoubleR(i);
    }
    forall i: nat | i + 7 <= |u| ensures !MatchAt(u, "API key", i) {
      var w := u[i..i + 7];
      assert w[4] == u[i + 4];
      NoLetterK(i + 4);
    }
  }

  /** A thrown error always gives a notice that mentions an error. */
  lemma ThrownLooksInvalid(message: string)
    ensures !LooksValid(Classify(Threw(message)))
  {
    if Contains(message, "Failed to fetch") || Contains(message, "NetworkError") {
      ContainsInfix("There was a network ", "error", " connecting to the AI service. Please check your API key and internet connection.");
    } else {
      ContainsInfix("I'm sorry, there was an ", "error", " processing your request. Please check your API key and try again.");
    }
  }

  /** A key-error notice names the key. */
  lemma KeyNoticeNamesKey(m: string)
    ensures Contains(KeyErrorPrefix + m + KeyErrorSuffix, "API key")
  {
    var rest := " error: " + m + KeyErrorSuffix;
    ContainsInfix("", "API key", rest);
    assert KeyErrorPrefix + m + KeyErrorSuffix == "" + "API key" + rest;
  }

  /** Any other error notice mentions an error. */
  lemma ErrorNoticeNamesError(m: string)
    ensures Contains(ErrorPrefix + m, "error")
  {
    var rest := ": " + m;
    ContainsInfix("I'm sorry, I encountered an ", "error", rest);
    assert ErrorPrefix + m == "I'm sorry, I encountered an " + "error" + rest;
  }

  /** An error reply without candidate text always gives a notice that names the problem. */
  lemma ErrorReplyLooksInvalid(data: Reply)
    requires CandidateText(data).None? && data.error.Some?
    ensures !LooksValid(Classify(Parsed(data)))
  {
    var e := data.error.value;
    if IsKeyError(e) {
      KeyNoticeNamesKey(Interpolate(e.message));
    } else {
      ErrorNoticeNamesError(if Truthy(e.message) then e.message.value else UnknownError);
    }
  }

  /**
   * Which replies validateApiKey accepts, given a usable key: a candidate
   * text that mentions neither "error" nor "API key", and also a reply with
   * neither candidate text nor an error object, whose fixed apology names
   * no problem. Every error reply and every thrown error is refused.
   */
  lemma {:induction false} ValidateApiKeyAccepts(key: Option<string>, service: Request -> ApiResult)
    requires !KeyMissing(key)
    ensures var result := service(RequestFor(key, ProbePrompt));
      ValidateApiKey(key, service) <==>
        && result.Parsed?
        && (CandidateText(result.data).Some? ==> LooksValid(CandidateText(result.data).value))
        && (CandidateText(result.data).None? ==> result.data.error.None?)
  {
    var result := service(RequestFor(key, ProbePrompt));
    match result
    case Threw(message) =>
      ThrownLooksInvalid(message);
    case Parsed(data) =>
      if CandidateText(data).None? {
        if data.error.Some? {
          ErrorReplyLooksInvalid(data);
        } else {
          UnexpectedFormatLooksValid();
        }
      }
  }
}
