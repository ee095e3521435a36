/**
 * The request pipeline of both front ends: from the user's text, the stored
 * configuration and the outcome of one HTTP exchange to either the enhanced
 * text or a classified error. The exchange itself is an input value: a
 * transport failure with its `NSURLError` code, or an HTTP reply with a
 * status code (section 15 of RFC 9110; 429 is section 4 of RFC 6585) and
 * possibly a body.
 */
module Pipeline {
  import opened Wrappers
  import opened Text
  import opened Json
  import opened Prompts
  import opened LLMProviders
  import opened SettingsStore

  /** What the HTTP client reports for one request. */
  datatype Exchange =
    | TransportFailure(code: int, description: string)
    | HttpReply(status: int, data: Option<Body>)

  /** A request as it is handed to the HTTP client. */
  datatype Request = Request(endpoint: string, headers: map<string, string>, body: Json)

  // ---------------------------------------------------------------------------
  // macOS: the formatted prompt

  /** The fixed instruction appended to every prompt on macOS. */
  const CriticalInstruction: string :=
    "\n\nCRITICAL INSTRUCTION: You MUST ONLY return the enhanced version of the text. \n"
    + "DO NOT include ANY explanations, introductions, commentary, responses to the user, greetings, farewells, or quotation marks.\n"
    + "DO NOT acknowledge or respond to the user in ANY way.\n"
    + "If you cannot process the text, simply return the original text unchanged."

  /** The prompt text macOS uses: the selected prompt's, else the legacy last-used prompt. */
  function PromptTextSwift(prompts: seq<Prompt>, selectedPromptId: Option<Uuid>, lastUsedPrompt: string): (r: string)
    ensures Selected(prompts, selectedPromptId).Some? ==> r == Selected(prompts, selectedPromptId).value.text
    ensures Selected(prompts, selectedPromptId).Some? ==>
              r == prompts[IndexOfId(prompts, selectedPromptId.value).value].text
    ensures Selected(prompts, selectedPromptId).None? ==> r == lastUsedPrompt
  {
    match Selected(prompts, selectedPromptId)
    case Some(p) => p.text
    case None => lastUsedPrompt
  }

  /** `getFormattedPrompt()`. */
  function FormattedPrompt(prompts: seq<Prompt>, selectedPromptId: Option<Uuid>, lastUsedPrompt: string): string {
    PromptTextSwift(prompts, selectedPromptId, lastUsedPrompt) + CriticalInstruction
  }

  /** The instruction can be taken off the formatted prompt again, leaving the chosen prompt text. */
  lemma {:induction false} FormattedPromptRoundTrip(prompts: seq<Prompt>, selectedPromptId: Option<Uuid>, lastUsedPrompt: string)
    ensures var f := FormattedPrompt(prompts, selectedPromptId, lastUsedPrompt);
            EndsWith(f, CriticalInstruction)
            && f[..|f| - |CriticalInstruction|] == PromptTextSwift(prompts, selectedPromptId, lastUsedPrompt)
  {
    var t := PromptTextSwift(prompts, selectedPromptId, lastUsedPrompt);
    var f := t + CriticalInstruction;
    assert f[|f| - |CriticalInstruction|..] == CriticalInstruction;
    assert f[..|f| - |CriticalInstruction|] == t;
  }

  // ---------------------------------------------------------------------------
  // macOS: `processWithLLM`

  const MissingKeyMessage: string := "Missing API Key. Please set your key in the menu."
  const NoDataCode: int := 102

  /** `NSURLError` codes the transport mapping recognises. */
  const CannotFindHost: int := -1003
  const TimedOut: int := -1001
  const NetworkConnectionLost: int := -1005
  const NotConnectedToInternet: int := -1009

  const HostUnreachableTail: string := " API server. Please check your internet connection and try again."
  const TimedOutMessage: string := "Request timed out. The server is taking too long to respond."
  const ConnectionLostMessage: string := "Network connection was lost. Please try again."
  const OfflineMessage: string := "No internet connection available. Please check your network settings."

  /** The user-facing message for a transport failure. */
  function TransportMessage(p: ProviderType, code: int, description: string): string {
    if code == CannotFindHost then "Cannot connect to " + DisplayName(p) + HostUnreachableTail
    else if code == TimedOut then TimedOutMessage
    else if code == NetworkConnectionLost then ConnectionLostMessage
    else if code == NotConnectedToInternet then OfflineMessage
    else description
  }

  predicate IsSuccessStatus(status: int) {
    200 <= status < 300
  }

  const UnauthorizedMessage: string := "Authentication failed: Please check your API key."
  // Split in two: the verifier reads the characters of shorter literals only.
  const ForbiddenMessage: string := "Access denied: You may not have permission" + " to use this model or API."
  const NotFoundMessage: string := "API endpoint not found. The service may have changed."
  const RateLimitMessage: string := "Rate limit exceeded. Please try again later."
  const ServerErrorMessage: string := "API server error. The service may be experiencing issues."

  /**
   * The message a failing status starts with before the body is consulted.
   * Each of the common statuses, and only it, gets its own message; the
   * server errors share one; any other status gets a message naming it.
   */
  function StatusMessage(status: int): (r: string)
    ensures r == UnauthorizedMessage <==> status == 401
    ensures r == ForbiddenMessage <==> status == 403
    ensures r == NotFoundMessage <==> status == 404
    ensures r == RateLimitMessage <==> status == 429
    ensures r == ServerErrorMessage <==> status in {500, 502, 503, 504}
  {
    if status == 401 then UnauthorizedMessage
    else if status == 403 then ForbiddenMessage
    else if status == 404 then NotFoundMessage
    else if status == 429 then RateLimitMessage
    else if status in {500, 502, 503, 504} then ServerErrorMessage
    else
      var generic := "API server error (Status " + IntToString(status) + ")";
      assert generic[17] == '(' && |generic| > 17;
      assert UnauthorizedMessage[17] != '(';
      assert ForbiddenMessage[17] != '(';
      assert NotFoundMessage[17] != '(';
      assert RateLimitMessage[17] != '(';
      assert ServerErrorMessage[17] != '(';
      generic
  }

  /** `error.message` of an error body, when the body is an object whose `error` object has a string `message`. */
  function BodyErrorMessage(b: Body): Option<string> {
    if b.parsed.Parsed? && b.parsed.value.JObj? then
      var err := AsObject(Get(b.parsed.value, "error"));
      if err.Some? then AsString(Get(err.value, "message")) else None
    else None
  }

  /** The message for a failing status: its class, replaced by the body's `error.message`, with the body appended when it mentions "error". */
  function HttpErrorMessage(status: int, data: Option<Body>): string {
    match data
    case None => StatusMessage(status)
    case Some(b) =>
      var head := if BodyErrorMessage(b).Some? then "API Error: " + BodyErrorMessage(b).value else StatusMessage(status);
      if Contains(b.raw, "error") then head + "\n\nDetailed error: " + b.raw else head
  }

  /** The request macOS sends; an empty custom model means the provider's default. */
  function BuildRequestSwift(p: ProviderType, apiKey: string, customModel: string, prompt: string, text: string): (r: Request)
    ensures r.endpoint == ApiEndpoint(p) && CredentialOf(p, r.headers) == Some(apiKey)
    ensures customModel == "" ==>
              IsEnvelope(r.body, DefaultModel(p), "user", prompt + " " + text, "4000")
    ensures customModel != "" ==>
              IsEnvelope(r.body, NormalizeModel(p, customModel), "user", prompt + " " + text, "4000")
  {
    CredentialRoundTrip(p, apiKey);
    RequestBodyShape(p, prompt, text, if customModel == "" then None else Some(customModel));
    Request(ApiEndpoint(p), Headers(p, apiKey),
            RequestBodySwift(p, prompt, text, if customModel == "" then None else Some(customModel)))
  }

  /**
   * `processWithLLM(text:completion:)`: the request it sends (none when the
   * key is missing) and the result it completes with, given the exchange.
   */
  function ProcessWithLLM(p: ProviderType, apiKey: string, customModel: string, prompt: string, text: string,
                          exchange: Exchange): (r: (Option<Request>, Result<string, NSError>))
    ensures r.0.Some? <==> apiKey != ""
    ensures r.1.Success? ==> exchange.HttpReply? && IsSuccessStatus(exchange.status) && exchange.data.Some?
    ensures apiKey != "" && exchange.HttpReply? && !IsSuccessStatus(exchange.status) ==>
              r.1.Failure? && r.1.error.code == exchange.status
  {
    if apiKey == "" then (None, Failure(NSError(400, MissingKeyMessage)))
    else
      var request := BuildRequestSwift(p, apiKey, customModel, prompt, text);
      var result :=
        match exchange
        case TransportFailure(code, description) => Failure(NSError(code, TransportMessage(p, code, description)))
        case HttpReply(status, data) =>
          if !IsSuccessStatus(status) then Failure(NSError(status, HttpErrorMessage(status, data)))
          else if data.None? then Failure(NSError(NoDataCode, "No data received from API"))
          else ExtractResponseSwift(p, data.value);
      (Some(request), result)
  }

  /** An empty key fails with code 400 before any request is built, whatever the exchange would have been. */
  lemma {:induction false} MissingKeyShortCircuits(p: ProviderType, customModel: string, prompt: string, text: string, e1: Exchange, e2: Exchange)
    ensures ProcessWithLLM(p, "", customModel, prompt, text, e1) == ProcessWithLLM(p, "", customModel, prompt, text, e2)
    ensures ProcessWithLLM(p, "", customModel, prompt, text, e1) == (None, Failure(NSError(400, MissingKeyMessage)))
  {
  }

  /**
   * With a key, the request goes to the provider's endpoint with the headers
   * carrying that key, and its body holds the formatted prompt and the text
   * for the custom model, or the default model when none is set.
   */
  lemma {:induction false} RequestCarriesConfiguration(p: ProviderType, apiKey: string, customModel: string, prompt: string, text: string, e: Exchange)
    requires apiKey != ""
    ensures var (req, _) := ProcessWithLLM(p, apiKey, customModel, prompt, text, e);
            && req.Some?
            && req.value.endpoint == ApiEndpoint(p)
            && CredentialOf(p, req.value.headers) == Some(apiKey)
            && IsEnvelope(req.value.body, NormalizeModel(p, if customModel == "" then DefaultModel(p) else customModel),
                          "user", prompt + " " + text, "4000")
  {
    CredentialRoundTrip(p, apiKey);
    RequestBodyShape(p, prompt, text, if customModel == "" then None else Some(customModel));
  }

  /**
   * A transport failure keeps its code; the four common codes get a fixed
   * explanation (the host one names the provider), any other code keeps the
   * system's description.
   */
  lemma {:induction false} TransportFailureClassified(p: ProviderType, apiKey: string, customModel: string, prompt: string, text: string,
                                   code: int, description: string)
    requires apiKey != ""
    ensures var r := ProcessWithLLM(p, apiKey, customModel, prompt, text, TransportFailure(code, description)).1;
            && r.Failure? && r.error.code == code
            && (code == CannotFindHost ==> Contains(r.error.message, DisplayName(p)))
            && (code == TimedOut ==> r.error.message == TimedOutMessage)
            && (code == NetworkConnectionLost ==> r.error.message == ConnectionLostMessage)
            && (code == NotConnectedToInternet ==> r.error.message == OfflineMessage)
            && (code !in {CannotFindHost, TimedOut, NetworkConnectionLost, NotConnectedToInternet} ==>
                  r.error.message == description)
  {
    if code == CannotFindHost {
      var pre := "Cannot connect to ";
      var post := HostUnreachableTail;
      ContainsPrefix(DisplayName(p) + post, DisplayName(p));
      ContainsAfterPrefix(pre, DisplayName(p) + post, DisplayName(p));
      assert pre + (DisplayName(p) + post) == pre + DisplayName(p) + post;
    }
  }

  /**
   * A status outside 200..299 always fails with that status as the code.
   * The message starts with `"API Error: " + error.message` when the body
   * carries one, and with the status class otherwise; the body is appended
   * exactly when it mentions "error".
   */
  lemma {:induction false} HttpErrorClassified(p: ProviderType, apiKey: string, customModel: string, prompt: string, text: string,
                            status: int, b: Body)
    requires apiKey != "" && !IsSuccessStatus(status)
    ensures var r := ProcessWithLLM(p, apiKey, customModel, prompt, text, HttpReply(status, Some(b))).1;
            var head := if BodyErrorMessage(b).Some? then "API Error: " + BodyErrorMessage(b).value
                        else StatusMessage(status);
            && r.Failure? && r.error.code == status
            && StartsWith(r.error.message, head)
            && (Contains(b.raw, "error") <==> r.error.message == head + "\n\nDetailed error: " + b.raw)
            && (!Contains(b.raw, "error") ==> r.error.message == head)
  {
    assert ProcessWithLLM(p, apiKey, customModel, prompt, text, HttpReply(status, Some(b))).1
           == Failure(NSError(status, HttpErrorMessage(status, Some(b))));
    HttpErrorMessageShape(status, b);
  }

  /** The message of a failing status with a body: its head, then the body exactly when it mentions "error". */
  lemma {:induction false} HttpErrorMessageShape(status: int, b: Body)
    ensures var m := HttpErrorMessage(status, Some(b));
            var head := if BodyErrorMessage(b).Some? then "API Error: " + BodyErrorMessage(b).value
                        else StatusMessage(status);
            && StartsWith(m, head)
            && (Contains(b.raw, "error") <==> m == head + "\n\nDetailed error: " + b.raw)
            && (!Contains(b.raw, "error") ==> m == head)
  {
    var head := if BodyErrorMessage(b).Some? then "API Error: " + BodyErrorMessage(b).value else StatusMessage(status);
    var tail := "\n\nDetailed error: " + b.raw;
    assert (head + "\n\nDetailed error: " + b.raw)[..|head|] == head;
    if !Contains(b.raw, "error") {
      assert |head + tail| > |head|;
    }
  }

  /** Each status class has its own message, and the fallback names the status. */
  lemma {:induction false} StatusClasses(status: int)
    ensures status == 429 ==> StatusMessage(status) == RateLimitMessage
    ensures status == 401 ==> StatusMessage(status) == UnauthorizedMessage
    ensures status == 403 ==> StatusMessage(status) == ForbiddenMessage
    ensures status == 404 ==> StatusMessage(status) == NotFoundMessage
    ensures status in {500, 502, 503, 504} ==> StatusMessage(status) == ServerErrorMessage
    ensures status !in {401, 403, 404, 429, 500, 502, 503, 504} ==>
              StatusMessage(status) == "API server error (Status " + IntToString(status) + ")"
  {
  }

  /** A successful status hands the body to the provider's extractor; no body at all is error 102. */
  lemma {:induction false} SuccessDelegatesToExtractor(p: ProviderType, apiKey: string, customModel: string, prompt: string, text: string,
                                    status: int, data: Option<Body>)
    requires apiKey != "" && IsSuccessStatus(status)
    ensures var r := ProcessWithLLM(p, apiKey, customModel, prompt, text, HttpReply(status, data)).1;
            && (data.Some? ==> r == ExtractResponseSwift(p, data.value))
            && (data.None? ==> r == Failure(NSError(NoDataCode, "No data received from API")))
  {
  }

  /** End to end: a vendor reply in its current success shape yields exactly the text it carries. */
  lemma {:induction false} SwiftEndToEnd(p: ProviderType, apiKey: string, customModel: string, prompt: string, text: string,
                      reply: string)
    requires apiKey != ""
    ensures ProcessWithLLM(p, apiKey, customModel, prompt, text,
                           HttpReply(200, Some(BodyOf(SuccessPayload(p, reply))))).1 == Success(reply)
  {
    SwiftExtractRoundTrip(p, reply);
  }

  // ---------------------------------------------------------------------------
  // Windows: `LLMService.ProcessText`

  /** The value handed to `ProcessText`'s callback. */
  datatype LLMProcessResult = LLMProcessResult(isSuccess: bool, processedText: Option<string>, error: Option<string>)

  function Succeeded(text: string): LLMProcessResult {
    LLMProcessResult(true, Some(text), None)
  }

  function Failed(message: string): LLMProcessResult {
    LLMProcessResult(false, None, Some(message))
  }

  const ApiKeyNotSetMessage: string := "API key is not set. Please set your API key in Settings."

  /** The prompt text Windows uses: the selected prompt's text when found, else the last-used prompt. */
  function ResolvePromptText(s: Settings): (r: string)
    ensures s.selectedPromptId.Some? && s.selectedPromptId.value in IdsOf(s.prompts) ==>
              IndexOfId(s.prompts, s.selectedPromptId.value).Some?
              && r == s.prompts[IndexOfId(s.prompts, s.selectedPromptId.value).value].text
    ensures !(s.selectedPromptId.Some? && s.selectedPromptId.value in IdsOf(s.prompts)) ==> r == s.lastUsedPrompt
  {
    if s.selectedPromptId.Some? then
      match FindById(s.prompts, s.selectedPromptId.value)
      case Some(p) => p.text
      case None => s.lastUsedPrompt
    else s.lastUsedPrompt
  }

  /** The request Windows sends, or none when the key is null or whitespace. */
  function BuildRequestCs(s: Settings, text: string): (r: Option<Request>)
    ensures r.None? <==> IsBlank(s.apiKey)
  {
    if IsBlank(s.apiKey) then None
    else
      var p := GetProvider(s.selectedProvider).providerType;
      Some(Request(ApiEndpoint(p), Headers(p, s.apiKey),
                   RequestBodyCs(p, ResolvePromptText(s), text, Some(s.customModel))))
  }

  /**
   * `ProcessText(text, callback)`: the request sent and the one result the
   * callback receives. Any exception (transport or extraction) becomes
   * "Error: " and its message.
   */
  function ProcessText(s: Settings, text: string, exchange: Exchange): (r: (Option<Request>, LLMProcessResult))
    ensures r.0.None? <==> IsBlank(s.apiKey)
    ensures r.1.isSuccess ==> exchange.HttpReply? && IsSuccessStatus(exchange.status)
    ensures !IsBlank(s.apiKey) && exchange.TransportFailure? ==> r.1 == Failed("Error: " + exchange.description)
  {
    var request := BuildRequestCs(s, text);
    if request.None? then (None, Failed(ApiKeyNotSetMessage))
    else
      var p := s.selectedProvider;
      var result :=
        match exchange
        case TransportFailure(_, description) => Failed("Error: " + description)
        case HttpReply(status, data) =>
          var content := if data.Some? then data.value.raw else "";
          if IsSuccessStatus(status) then
            match ExtractResponseCs(p, if data.Some? then data.value else Body("", Malformed(EmptyBodyMessage)))
            case Success(t) => Succeeded(t)
            case Failure(m) => Failed("Error: " + m)
          else Failed("API Error (" + IntToString(status) + "): " + content);
      (request, result)
  }

  /** What Json.NET reports for an empty document. */
  const EmptyBodyMessage: string := "Error reading JObject from JsonReader. Path '', line 0, position 0."

  /**
   * The callback's result is always well formed: a success carries text and
   * no error, a failure an error and no text. A blank key fails without a
   * request; every other call sends exactly one.
   */
  lemma {:induction false} ProcessTextResultShape(s: Settings, text: string, e: Exchange)
    ensures var (req, r) := ProcessText(s, text, e);
            && (r.isSuccess <==> r.processedText.Some?)
            && (r.isSuccess <==> r.error.None?)
            && (req.None? <==> IsBlank(s.apiKey))
            && (IsBlank(s.apiKey) ==> r == Failed(ApiKeyNotSetMessage))
  {
    var r := ProcessText(s, text, e).1;
    if !IsBlank(s.apiKey) && e.HttpReply? && IsSuccessStatus(e.status) {
      var b := if e.data.Some? then e.data.value else Body("", Malformed(EmptyBodyMessage));
      var x := ExtractResponseCs(s.selectedProvider, b);
      assert r == (if x.Success? then Succeeded(x.value) else Failed("Error: " + x.error));
    }
  }

  /**
   * With a key: a non-success status reports "API Error (<code>): <body>";
   * a success status carries the extractor's text, and an extraction failure
   * surfaces as "Error: Error extracting response: ...".
   */
  lemma {:induction false} ProcessTextClassified(s: Settings, text: string, status: int, b: Body)
    requires !IsBlank(s.apiKey)
    ensures var r := ProcessText(s, text, HttpReply(status, Some(b))).1;
            && (!IsSuccessStatus(status) ==> r == Failed("API Error (" + IntToString(status) + "): " + b.raw))
            && (IsSuccessStatus(status) && ExtractResponseCs(s.selectedProvider, b).Success? ==>
                  r == Succeeded(ExtractResponseCs(s.selectedProvider, b).value))
            && (IsSuccessStatus(status) && ExtractResponseCs(s.selectedProvider, b).Failure? ==>
                  r == Failed("Error: " + ExtractResponseCs(s.selectedProvider, b).error)
                  && StartsWith(r.error.value, "Error: " + ExtractErrorPrefix))
  {
    if IsSuccessStatus(status) && ExtractResponseCs(s.selectedProvider, b).Failure? {
      var m := ExtractResponseCs(s.selectedProvider, b).error;
      assert StartsWith(m, ExtractErrorPrefix);
      assert ("Error: " + m)[..|"Error: " + ExtractErrorPrefix|] == "Error: " + m[..|ExtractErrorPrefix|];
    }
  }

  /**
   * With a key, a reply with no body reads as the empty string: a success
   * status makes Json.NET throw on the empty document, which surfaces as
   * "Error: Error extracting response: ..."; any other status reports
   * "API Error (<code>): " with nothing after it.
   */
  lemma {:induction false} ProcessTextEmptyReply(s: Settings, text: string, status: int)
    requires !IsBlank(s.apiKey)
    ensures var r := ProcessText(s, text, HttpReply(status, None)).1;
            && (IsSuccessStatus(status) ==> r == Failed("Error: " + ExtractErrorPrefix + EmptyBodyMessage))
            && (!IsSuccessStatus(status) ==> r == Failed("API Error (" + IntToString(status) + "): "))
  {
    if IsSuccessStatus(status) {
      assert ExtractResponseCs(s.selectedProvider, Body("", Malformed(EmptyBodyMessage)))
               == Failure(ExtractErrorPrefix + EmptyBodyMessage);
      assert "Error: " + (ExtractErrorPrefix + EmptyBodyMessage) == "Error: " + ExtractErrorPrefix + EmptyBodyMessage;
    } else {
      assert "API Error (" + IntToString(status) + "): " + "" == "API Error (" + IntToString(status) + "): ";
    }
  }

  /**
   * The request carries the selected provider's endpoint, the key in its
   * headers and the resolved prompt text and model in its body.
   */
  lemma {:induction false} RequestFromSettings(s: Settings, text: string)
    requires !IsBlank(s.apiKey)
    ensures var req := BuildRequestCs(s, text);
            && req.Some?
            && req.value.endpoint == ApiEndpoint(s.selectedProvider)
            && CredentialOf(s.selectedProvider, req.value.headers) == Some(s.apiKey)
            && IsEnvelope(req.value.body, ResolveModelCs(s.selectedProvider, Some(s.customModel)),
                          "user", ResolvePromptText(s) + " " + text, "4000")
  {
    CredentialRoundTrip(s.selectedProvider, s.apiKey);
    RequestBodyShape(s.selectedProvider, ResolvePromptText(s), text, Some(s.customModel));
  }

  /** The two platforms agree on a well-formed reply: the same text comes back. */
  lemma {:induction false} PlatformsAgreeOnSuccess(s: Settings, text: string, reply: string)
    requires !IsBlank(s.apiKey)
    ensures ProcessText(s, text, HttpReply(200, Some(BodyOf(SuccessPayload(s.selectedProvider, reply))))).1
              == Succeeded(reply)
    ensures ProcessWithLLM(s.selectedProvider, s.apiKey, s.customModel, "", text,
                           HttpReply(200, Some(BodyOf(SuccessPayload(s.selectedProvider, reply))))).1
              == Success(reply)
  {
    CsExtractRoundTrip(s.selectedProvider, reply);
    SwiftExtractRoundTrip(s.selectedProvider, reply);
  }
}
