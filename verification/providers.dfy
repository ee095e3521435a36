/**
 * The provider adapter: the closed set of two vendors (OpenAI, Anthropic) and,
 * for each, the endpoint, the default model, the header set, the model-name
 * normalisation, the request body and the layered response extraction.
 * The macOS (`LLMProvider` enum) and Windows (`LLMProvider` class) versions
 * share everything but model resolution of blank names and the way an
 * unrecognised response is reported; both versions are kept.
 */
module LLMProviders {
  import opened Wrappers
  import opened Text
  import opened Json

  datatype ProviderType = OpenAI | Anthropic

  /** Swift's raw value and the Windows `DisplayName`. */
  function DisplayName(p: ProviderType): string {
    match p
    case OpenAI => "OpenAI"
    case Anthropic => "Anthropic"
  }

  function ApiEndpoint(p: ProviderType): string {
    match p
    case OpenAI => "https://api.openai.com/v1/chat/completions"
    case Anthropic => "https://api.anthropic.com/v1/messages"
  }

  function DefaultModel(p: ProviderType): string {
    match p
    case OpenAI => "gpt-4o"
    case Anthropic => "claude-3-haiku-20240307"
  }

  // ---------------------------------------------------------------------------
  // Provider look-up

  /** A Windows provider instance: its type and its display name. */
  datatype Provider = Provider(providerType: ProviderType, displayName: string)

  const OpenAIProvider: Provider := Provider(OpenAI, "OpenAI")
  const AnthropicProvider: Provider := Provider(Anthropic, "Anthropic")
  const AllProviders: seq<Provider> := [OpenAIProvider, AnthropicProvider]

  /** `LLMProvider.GetProvider(type)`: the static instance of that type. */
  function GetProvider(t: ProviderType): (r: Provider)
    ensures r.providerType == t && r.displayName == DisplayName(t)
    ensures r in AllProviders
  {
    match t
    case OpenAI => OpenAIProvider
    case Anthropic => AnthropicProvider
  }

  /** The first provider of `ps` whose display name equals `name` ignoring case. */
  function FirstNamed(ps: seq<Provider>, name: string): (r: Option<Provider>)
    ensures r.Some? ==> r.value in ps && EqualsIgnoreCase(r.value.displayName, name)
    ensures r.None? ==> forall i :: 0 <= i < |ps| ==> !EqualsIgnoreCase(ps[i].displayName, name)
  {
    if |ps| == 0 then None
    else if EqualsIgnoreCase(ps[0].displayName, name) then Some(ps[0])
    else FirstNamed(ps[1..], name)
  }

  /** `LLMProvider.GetProviderByName(name)`: case-insensitive match, OpenAI otherwise. */
  function GetProviderByName(name: string): (r: Provider)
    ensures r in AllProviders
    ensures EqualsIgnoreCase(r.displayName, name)
            || (r == OpenAIProvider
                && forall i :: 0 <= i < |AllProviders| ==> !EqualsIgnoreCase(AllProviders[i].displayName, name))
  {
    match FirstNamed(AllProviders, name)
    case Some(p) => p
    case None => OpenAIProvider
  }

  /** Looking a provider up by its own display name, in any case, finds it again. */
  lemma {:induction false} GetProviderByNameFindsEach(t: ProviderType, name: string)
    requires Lower(name) == Lower(DisplayName(t))
    ensures GetProviderByName(name) == GetProvider(t)
  {
    if t == OpenAI {
      assert FirstNamed(AllProviders, name) == Some(OpenAIProvider);
    } else {
      assert AllProviders[1..] == [AnthropicProvider];
      assert |Lower("OpenAI")| != |Lower(name)|;
      assert !EqualsIgnoreCase(AllProviders[0].displayName, name);
      assert FirstNamed(AllProviders, name) == FirstNamed([AnthropicProvider], name);
    }
  }

  /** Swift `selectedProvider`: the stored raw value, or OpenAI when it names no case. */
  function SelectedProvider(raw: string): (r: ProviderType)
    ensures DisplayName(r) == raw || (r == OpenAI && raw != "OpenAI" && raw != "Anthropic")
  {
    if raw == "Anthropic" then Anthropic else OpenAI
  }

  /** Storing a provider's raw value and reading it back gives the same provider. */
  lemma {:induction false} SelectedProviderRoundTrip(p: ProviderType)
    ensures SelectedProvider(DisplayName(p)) == p
  {
  }

  // ---------------------------------------------------------------------------
  // Headers

  /**
   * The header set. OpenAI authenticates with a bearer token (section 2.1 of
   * RFC 6750); Anthropic with `x-api-key` plus a fixed API version header.
   */
  function Headers(p: ProviderType, apiKey: string): (h: map<string, string>)
    ensures "Content-Type" in h && h["Content-Type"] == "application/json"
    ensures p == OpenAI ==> h.Keys == {"Content-Type", "Authorization"}
    ensures p == Anthropic ==> h.Keys == {"Content-Type", "anthropic-version", "x-api-key"}
                               && h["anthropic-version"] == "2023-06-01"
  {
    match p
    case OpenAI =>
      map["Content-Type" := "application/json", "Authorization" := "Bearer " + apiKey]
    case Anthropic =>
      map["Content-Type" := "application/json", "anthropic-version" := "2023-06-01", "x-api-key" := apiKey]
  }

  /** The credential a server reads back out of a header set. */
  function CredentialOf(p: ProviderType, h: map<string, string>): Option<string> {
    match p
    case OpenAI =>
      if "Authorization" in h && StartsWith(h["Authorization"], "Bearer ")
      then Some(h["Authorization"][7..]) else None
    case Anthropic =>
      if "x-api-key" in h then Some(h["x-api-key"]) else None
  }

  /** The header set carries exactly the API key it was built from. */
  lemma {:induction false} CredentialRoundTrip(p: ProviderType, apiKey: string)
    ensures CredentialOf(p, Headers(p, apiKey)) == Some(apiKey)
  {
    if p == OpenAI {
      var h := Headers(p, apiKey);
      assert h["Authorization"] == "Bearer " + apiKey;
      assert ("Bearer " + apiKey)[7..] == apiKey;
    }
  }

  // ---------------------------------------------------------------------------
  // Model-name normalisation

  /** The canonical ids the normalisation can produce. */
  function KnownModels(p: ProviderType): set<string> {
    match p
    case OpenAI => {"gpt-4o", "gpt-3.5-turbo"}
    case Anthropic => {"claude-2", "claude-1.3", "claude-3-haiku-20240307"}
  }

  /**
   * Best-effort mapping of loose model names to canonical ids, on the
   * lower-cased name; an unrecognised name passes through unchanged.
   */
  function NormalizeModel(p: ProviderType, m: string): (r: string)
    ensures r == m || r in KnownModels(p)
    // OpenAI: the exact names first, then the 3.5 family.
    ensures p == OpenAI && (Lower(m) == "gpt4" || Lower(m) == "gpt-4o") ==> r == "gpt-4o"
    ensures (p == OpenAI && !(Lower(m) == "gpt4" || Lower(m) == "gpt-4o") && Contains(Lower(m), "gpt3.5"))
            ==> r == "gpt-3.5-turbo"
    // Anthropic: Claude 2 before Claude 1.3, before a hyphen-free Claude 3.
    ensures p == Anthropic && Contains(Lower(m), "claude-2") ==> r == "claude-2"
    ensures p == Anthropic && !Contains(Lower(m), "claude-2") && Contains(Lower(m), "1.3") ==> r == "claude-1.3"
    ensures (p == Anthropic && !Contains(Lower(m), "claude-2") && !Contains(Lower(m), "1.3")
             && Contains(Lower(m), "3") && !Contains(m, "-")) ==> r == "claude-3-haiku-20240307"
    // A name no rule matches passes through.
    ensures r != m ==>
              || (p == OpenAI && (Lower(m) == "gpt4" || Lower(m) == "gpt-4o" || Contains(Lower(m), "gpt3.5")))
              || (p == Anthropic && (Contains(Lower(m), "claude-2") || Contains(Lower(m), "1.3")
                                     || (Contains(Lower(m), "3") && !Contains(m, "-"))))
  {
    var lower := Lower(m);
    match p
    case OpenAI =>
      if lower == "gpt4" || lower == "gpt-4o" then "gpt-4o"
      else if Contains(lower, "gpt3.5") then "gpt-3.5-turbo"
      else m
    case Anthropic =>
      if Contains(lower, "claude-2") then "claude-2"
      else if Contains(lower, "1.3") then "claude-1.3"
      else if Contains(lower, "3") && !Contains(m, "-") then "claude-3-haiku-20240307"
      else m
  }

  /** Every canonical id (and so each default model) is left as it is. */
  lemma {:induction false} KnownModelsAreFixedPoints(p: ProviderType, m: string)
    requires m in KnownModels(p)
    ensures NormalizeModel(p, m) == m
  {
    if p == OpenAI {
      OpenAIFixedPoints(m);
    } else {
      AnthropicFixedPoints(m);
    }
  }

  lemma {:induction false} OpenAIFixedPoints(m: string)
    requires m in KnownModels(OpenAI)
    ensures NormalizeModel(OpenAI, m) == m
  {
    if m == "gpt-4o" {
      LowerOfLowercase(m);
    } else {
      LowerOfLowercase(m);
      NoGpt35InTurbo(m);
    }
  }

  lemma {:induction false} AnthropicFixedPoints(m: string)
    requires m in KnownModels(Anthropic)
    ensures NormalizeModel(Anthropic, m) == m
  {
    if m == "claude-2" {
      Claude2FixedPoint(m);
    } else if m == "claude-1.3" {
      Claude13FixedPoint(m);
    } else {
      HaikuFixedPoint(m);
    }
  }

  lemma {:induction false} Claude2FixedPoint(m: string)
    requires m == "claude-2"
    ensures NormalizeModel(Anthropic, m) == m
  {
    LowerOfLowercase(m);
    ContainsPrefix(m, "claude-2");
  }

  lemma {:induction false} Claude13FixedPoint(m: string)
    requires m == "claude-1.3"
    ensures NormalizeModel(Anthropic, m) == m
  {
    LowerOfLowercase(m);
    NotContainsMissingChar(m, "claude-2", '2');
    ThirteenInClaude13(m);
  }

  lemma {:induction false} HaikuFixedPoint(m: string)
    requires m == "claude-3-haiku-20240307"
    ensures NormalizeModel(Anthropic, m) == m
  {
    HaikuLower(m);
    NoClaude2InHaiku(m);
    NoThirteenInHaiku(m);
    HyphenInHaiku(m);
  }

  lemma {:induction false} NoThirteenInHaiku(m: string)
    requires m == "claude-3-haiku-20240307"
    ensures !Contains(m, "1.3")
  {
    NotContainsMissingChar(m, "1.3", '.');
  }

  lemma {:induction false} HyphenInHaiku(m: string)
    requires m == "claude-3-haiku-20240307"
    ensures Contains(m, "-")
  {
    ContainsChar(m, '-');
    assert m[6] == '-';
  }

  lemma {:induction false} NoGpt35InTurbo(m: string)
    requires m == "gpt-3.5-turbo"
    ensures !Contains(m, "gpt3.5")
  {
    assert m[..6][3] != "gpt3.5"[3];
    NotContainsFirstCharOnlyAtStart(m, "gpt3.5");
  }

  lemma {:induction false} ThirteenInClaude13(m: string)
    requires m == "claude-1.3"
    ensures Contains(m, "1.3")
  {
    ContainsPrefix("1.3", "1.3");
    ContainsAfterPrefix("claude-", "1.3", "1.3");
    assert "claude-" + "1.3" == m;
  }

  lemma {:induction false} HaikuLower(m: string)
    requires m == "claude-3-haiku-20240307"
    ensures Lower(m) == m
  {
    LowerOfLowercase(m);
  }

  lemma {:induction false} NoClaude2InHaiku(m: string)
    requires m == "claude-3-haiku-20240307"
    ensures !Contains(m, "claude-2")
  {
    assert m[..8][7] != "claude-2"[7];
    NotContainsFirstCharOnlyAtStart(m, "claude-2");
  }

  lemma {:induction false} DefaultModelIsFixedPoint(p: ProviderType)
    ensures DefaultModel(p) in KnownModels(p)
    ensures NormalizeModel(p, DefaultModel(p)) == DefaultModel(p)
  {
    KnownModelsAreFixedPoints(p, DefaultModel(p));
  }

  /** Normalising twice is normalising once. */
  lemma {:induction false} NormalizeIdempotent(p: ProviderType, m: string)
    ensures NormalizeModel(p, NormalizeModel(p, m)) == NormalizeModel(p, m)
  {
    var r := NormalizeModel(p, m);
    if r != m {
      KnownModelsAreFixedPoints(p, r);
    }
  }

  /**
   * The rules look at the name only through its lower-cased form: two names
   * that differ only in case are either both passed through or both mapped
   * to the same canonical id.
   */
  lemma {:induction false} NormalizeIgnoresCase(p: ProviderType, a: string, b: string)
    requires Lower(a) == Lower(b)
    ensures NormalizeModel(p, a) == NormalizeModel(p, b)
            || (NormalizeModel(p, a) == a && NormalizeModel(p, b) == b)
  {
    HyphenIgnoresCase(a);
    HyphenIgnoresCase(b);
  }

  /** A name naming both Claude 2 and 1.3 is Claude 2: that rule comes first. */
  lemma {:induction false} Claude2BeforeClaude13()
    ensures NormalizeModel(Anthropic, "claude-2-1.3") == "claude-2"
  {
    var m := "claude-2-1.3";
    LowerOfLowercase(m);
    ContainsPrefix(m, "claude-2");
  }

  /** A hyphen-free name with a 3 is Claude 3 Haiku, whatever its case. */
  lemma {:induction false} HyphenFreeClaude3IsHaiku()
    ensures NormalizeModel(Anthropic, "Claude3") == "claude-3-haiku-20240307"
  {
    var m := "Claude3";
    var lower := Lower(m);
    assert lower == "claude3";
    NotContainsMissingChar(lower, "claude-2", '-');
    NotContainsMissingChar(lower, "1.3", '.');
    ContainsChar(lower, '3');
    assert lower[6] == '3';
    ContainsChar(m, '-');
  }

  /** A Claude 3 name with a hyphen is not rewritten. */
  lemma {:induction false} HyphenatedClaude3PassesThrough()
    ensures NormalizeModel(Anthropic, "claude-3-opus") == "claude-3-opus"
  {
    var m := "claude-3-opus";
    LowerOfLowercase(m);
    assert m[..8][7] != "claude-2"[7];
    NotContainsFirstCharOnlyAtStart(m, "claude-2");
    NotContainsMissingChar(m, "1.3", '.');
    ContainsChar(m, '-');
    assert m[6] == '-';
  }

  /** The short name `gpt4` is GPT-4o. */
  lemma {:induction false} Gpt4IsGpt4o()
    ensures NormalizeModel(OpenAI, "gpt4") == "gpt-4o"
  {
    LowerOfLowercase("gpt4");
  }

  /** Swift `requestBody`: a missing model is the default, then normalised. */
  function ResolveModelSwift(p: ProviderType, model: Option<string>): (r: string)
    ensures model.None? ==> r == DefaultModel(p)
    ensures r in KnownModels(p) || (model.Some? && r == model.value)
  {
    DefaultModelIsFixedPoint(p);
    NormalizeModel(p, if model.Some? then model.value else DefaultModel(p))
  }

  /** Windows `GetRequestBody`: a null or whitespace model is the default, then normalised. */
  function ResolveModelCs(p: ProviderType, model: Option<string>): (r: string)
    ensures model.None? || IsBlank(model.value) ==> r == DefaultModel(p)
    ensures r in KnownModels(p) || (model.Some? && r == model.value)
  {
    DefaultModelIsFixedPoint(p);
    NormalizeModel(p, if model.None? || IsBlank(model.value) then DefaultModel(p) else model.value)
  }

  /**
   * Model resolution on both platforms: no model gives the default; a
   * non-blank name is resolved identically; a blank but non-empty name is the
   * default on Windows and is sent as it is from macOS.
   */
  lemma {:induction false} ResolveModelPlatforms(p: ProviderType, m: string)
    ensures ResolveModelSwift(p, None) == DefaultModel(p) == ResolveModelCs(p, None)
    ensures !IsBlank(m) ==> ResolveModelSwift(p, Some(m)) == ResolveModelCs(p, Some(m))
    ensures IsBlank(m) ==> ResolveModelCs(p, Some(m)) == DefaultModel(p)
    ensures IsBlank(m) ==> ResolveModelSwift(p, Some(m)) == m
  {
    DefaultModelIsFixedPoint(p);
    if IsBlank(m) {
      BlankPassesThrough(p, m);
    }
  }

  /** A blank name matches no rule. */
  lemma {:induction false} BlankPassesThrough(p: ProviderType, m: string)
    requires IsBlank(m)
    ensures NormalizeModel(p, m) == m
  {
    var lower := Lower(m);
    assert IsBlank(lower);
    NoLetterInBlank(lower, "gpt4");
    NoLetterInBlank(lower, "gpt-4o");
    NoNeedleInBlank(lower, "gpt3.5");
    NoNeedleInBlank(lower, "claude-2");
    NoNeedleInBlank(lower, "1.3");
    NoNeedleInBlank(lower, "3");
  }

  lemma {:induction false} NoLetterInBlank(s: string, w: string)
    requires IsBlank(s) && |w| > 0 && !IsWhiteSpace(w[0])
    ensures s != w
  {
    if |s| > 0 {
      assert s[0] != w[0];
    }
  }

  lemma {:induction false} NoNeedleInBlank(s: string, w: string)
    requires IsBlank(s) && |w| > 0 && !IsWhiteSpace(w[0])
    ensures !Contains(s, w)
  {
    assert w[0] !in s;
    NotContainsMissingChar(s, w, w[0]);
  }

  // ---------------------------------------------------------------------------
  // Request body

  /** The envelope both vendors receive: one user message, 4000 tokens, temperature 0.7. */
  function BodyFor(model: string, prompt: string, userText: string): Json {
    JObj([
      Member("model", JStr(model)),
      Member("messages", JArr([JObj([Member("role", JStr("user")),
                                     Member("content", JStr(prompt + " " + userText))])])),
      Member("max_tokens", JNum("4000")),
      Member("temperature", JNum("0.7"))
    ])
  }

  /** Swift `requestBody(prompt:userText:model:)`. */
  function RequestBodySwift(p: ProviderType, prompt: string, userText: string, model: Option<string>): (r: Json)
    ensures Get(r, "model") == Some(JStr(ResolveModelSwift(p, model)))
  {
    EnvelopeOfBodyFor(ResolveModelSwift(p, model), prompt, userText);
    BodyFor(ResolveModelSwift(p, model), prompt, userText)
  }

  /** Windows `GetRequestBody(prompt, userText, model)`, before serialisation. */
  function RequestBodyCs(p: ProviderType, prompt: string, userText: string, model: Option<string>): (r: Json)
    ensures Get(r, "model") == Some(JStr(ResolveModelCs(p, model)))
  {
    EnvelopeOfBodyFor(ResolveModelCs(p, model), prompt, userText);
    BodyFor(ResolveModelCs(p, model), prompt, userText)
  }

  /** What a server reads from an envelope: the model, the single message, the token budget. */
  predicate IsEnvelope(body: Json, model: string, role: string, content: string, maxTokens: string) {
    && Get(body, "model") == Some(JStr(model))
    && Get(body, "max_tokens") == Some(JNum(maxTokens))
    && Get(body, "temperature") == Some(JNum("0.7"))
    && Get(body, "messages").Some?
    && Get(body, "messages").value.JArr?
    && |Get(body, "messages").value.items| == 1
    && Get(Get(body, "messages").value.items[0], "role") == Some(JStr(role))
    && Get(Get(body, "messages").value.items[0], "content") == Some(JStr(content))
  }

  /**
   * For both providers the body holds exactly one message, from the user,
   * whose content is the prompt, a space and the user's text; the token
   * budget is 4000 and the model is the resolved one.
   */
  lemma {:induction false} RequestBodyShape(p: ProviderType, prompt: string, userText: string, model: Option<string>)
    ensures IsEnvelope(RequestBodySwift(p, prompt, userText, model),
                       ResolveModelSwift(p, model), "user", prompt + " " + userText, "4000")
    ensures IsEnvelope(RequestBodyCs(p, prompt, userText, model),
                       ResolveModelCs(p, model), "user", prompt + " " + userText, "4000")
  {
    EnvelopeOfBodyFor(ResolveModelSwift(p, model), prompt, userText);
    EnvelopeOfBodyFor(ResolveModelCs(p, model), prompt, userText);
  }

  lemma {:induction false} EnvelopeOfBodyFor(model: string, prompt: string, userText: string)
    ensures IsEnvelope(BodyFor(model, prompt, userText), model, "user", prompt + " " + userText, "4000")
  {
    var b := BodyFor(model, prompt, userText);
    var ms := b.members;
    LookupUnique(ms, 0);
    LookupUnique(ms, 1);
    LookupUnique(ms, 2);
    LookupUnique(ms, 3);
    var msg := ms[1].value.items[0];
    LookupUnique(msg.members, 0);
    LookupUnique(msg.members, 1);
  }

  // ---------------------------------------------------------------------------
  // Response extraction, macOS

  /** An `NSError` as the model sees it: its code and its localized description. */
  datatype NSError = NSError(code: int, message: string)

  /** The code `JSONSerialization` reports for text that is not JSON. */
  const JsonParseErrorCode: int := 3840

  /** Foundation's description of that error for a top-level scalar, which `jsonObject(with:options: [])` refuses. */
  const NotContainerMessage: string := "The data couldn\U{2019}t be read because it isn\U{2019}t in the correct format."

  /** The success shape and its legacy fallback, on the top-level object if there is one. */
  function SwiftSuccessText(p: ProviderType, json: Option<Json>): Option<string> {
    match p
    case OpenAI =>
      var first := FirstOfObjectArray(if json.Some? then Get(json.value, "choices") else None);
      if first.None? then None
      else
        var message := AsObject(Get(first.value, "message"));
        var content := if message.Some? then AsString(Get(message.value, "content")) else None;
        if content.Some? then content
        else AsString(Get(first.value, "text"))
    case Anthropic =>
      var first := FirstOfObjectArray(if json.Some? then Get(json.value, "content") else None);
      var text := if first.Some? then AsString(Get(first.value, "text")) else None;
      if text.Some? then text
      else if json.Some? then AsString(Get(json.value, "completion"))
      else None
  }

  /** The message of an `error` object: `message`, else `msg`, else `Error type: <type>`, else "API Error". */
  function SwiftErrorText(err: Json): string {
    var message := AsString(Get(err, "message"));
    var msg := AsString(Get(err, "msg"));
    var errType := AsString(Get(err, "type"));
    if message.Some? then message.value
    else if msg.Some? then msg.value
    else if errType.Some? then "Error type: " + errType.value
    else "API Error"
  }

  /**
   * Swift `extractResponse(from:)`. Without `.fragmentsAllowed` the parser
   * accepts only an object or an array at the top level, so a body that is a
   * bare string, number, boolean or null fails like text that is not JSON.
   */
  function ExtractResponseSwift(p: ProviderType, body: Body): (r: Result<string, NSError>)
    ensures r.Failure? ==> r.error.code == JsonParseErrorCode || r.error.code == 400
    ensures r.Success? ==> body.parsed.Parsed? && (body.parsed.value.JObj? || body.parsed.value.JArr?)
  {
    match body.parsed
    case Malformed(reason) => Failure(NSError(JsonParseErrorCode, reason))
    case Parsed(j) =>
      if !(j.JObj? || j.JArr?) then Failure(NSError(JsonParseErrorCode, NotContainerMessage))
      else
      var json := if j.JObj? then Some(j) else None;
      var success := SwiftSuccessText(p, json);
      if success.Some? then Success(success.value)
      else
        var err := AsObject(if json.Some? then Get(json.value, "error") else None);
        if err.Some? then Failure(NSError(400, "API Error: " + SwiftErrorText(err.value)))
        else if Contains(body.raw, "error") then Failure(NSError(400, "API Error: " + body.raw))
        else Success("Raw API response: " + body.raw)
  }

  /** The current success payload of each vendor, carrying `text`. */
  function SuccessPayload(p: ProviderType, text: string): Json {
    match p
    case OpenAI => Single("choices", JArr([Single("message", Single("content", JStr(text)))]))
    case Anthropic => Single("content", JArr([Single("text", JStr(text))]))
  }

  /** The legacy payload of each vendor, carrying `text`. */
  function LegacyPayload(p: ProviderType, text: string): Json {
    match p
    case OpenAI => Single("choices", JArr([Single("text", JStr(text))]))
    case Anthropic => Single("completion", JStr(text))
  }

  /** A body holding `j`, whatever its raw text. */
  function BodyOf(j: Json): Body {
    Body(Render(j), Parsed(j))
  }

  /** macOS: the success payload and the legacy payload both yield the text they carry. */
  lemma {:induction false} SwiftExtractRoundTrip(p: ProviderType, text: string)
    ensures ExtractResponseSwift(p, BodyOf(SuccessPayload(p, text))) == Success(text)
    ensures ExtractResponseSwift(p, BodyOf(LegacyPayload(p, text))) == Success(text)
  {
    var inner := Single("text", JStr(text));
    assert Get(inner, "text") == Some(JStr(text));
    var msg := Single("content", JStr(text));
    assert Get(Single("message", msg), "message") == Some(msg);
    assert Get(msg, "content") == Some(JStr(text));
    assert Get(inner, "message") == None;
  }

  /** An object in which neither vendor's success shape nor its fallback is present. */
  predicate NoSuccessShape(p: ProviderType, j: Json) {
    SwiftSuccessText(p, Some(j)).None?
  }

  /**
   * macOS: when no success shape matches and the body has an `error` object,
   * the result is a failure with code 400 whose message is "API Error: "
   * followed by `message`, else `msg`, else "Error type: <type>", else "API Error".
   */
  lemma {:induction false} SwiftErrorObjectPrecedence(p: ProviderType, raw: string, j: Json, err: Json)
    requires j.JObj? && NoSuccessShape(p, j) && Get(j, "error") == Some(err) && err.JObj?
    ensures ExtractResponseSwift(p, Body(raw, Parsed(j))).Failure?
    ensures ExtractResponseSwift(p, Body(raw, Parsed(j))).error.code == 400
    ensures AsString(Get(err, "message")).Some? ==>
              ExtractResponseSwift(p, Body(raw, Parsed(j))).error.message
                == "API Error: " + AsString(Get(err, "message")).value
    ensures AsString(Get(err, "message")).None? && AsString(Get(err, "msg")).Some? ==>
              ExtractResponseSwift(p, Body(raw, Parsed(j))).error.message
                == "API Error: " + AsString(Get(err, "msg")).value
    ensures AsString(Get(err, "message")).None? && AsString(Get(err, "msg")).None?
            && AsString(Get(err, "type")).Some? ==>
              ExtractResponseSwift(p, Body(raw, Parsed(j))).error.message
                == "API Error: Error type: " + AsString(Get(err, "type")).value
    ensures AsString(Get(err, "message")).None? && AsString(Get(err, "msg")).None?
            && AsString(Get(err, "type")).None? ==>
              ExtractResponseSwift(p, Body(raw, Parsed(j))).error.message == "API Error: API Error"
  {
  }

  /**
   * macOS never gives up on parseable JSON: a parsed body fails only when it
   * carries an `error` object or its text mentions "error"; otherwise, if no
   * shape matches, the raw text comes back as a success.
   */
  lemma {:induction false} SwiftDegradesGracefully(p: ProviderType, b: Body)
    requires b.parsed.Parsed? && (b.parsed.value.JObj? || b.parsed.value.JArr?)
    ensures var r := ExtractResponseSwift(p, b);
            r.Failure? ==> r.error.code == 400
                           && ((b.parsed.value.JObj? && AsObject(Get(b.parsed.value, "error")).Some?)
                               || Contains(b.raw, "error"))
    ensures var j := b.parsed.value;
            (!j.JObj? || (NoSuccessShape(p, j) && AsObject(Get(j, "error")).None?)) ==>
              ExtractResponseSwift(p, b)
                == if Contains(b.raw, "error") then Failure(NSError(400, "API Error: " + b.raw))
                   else Success("Raw API response: " + b.raw)
  {
    var j := b.parsed.value;
    if !j.JObj? {
      assert SwiftSuccessText(p, None).None?;
    }
  }

  /**
   * macOS: the parser's error (code 3840) comes back exactly when the body is
   * not JSON or is a top-level scalar; every other failure has code 400.
   */
  lemma {:induction false} SwiftParseFailures(p: ProviderType, b: Body)
    ensures var r := ExtractResponseSwift(p, b);
            (r.Failure? && r.error.code == JsonParseErrorCode)
              <==> (b.parsed.Malformed? || !(b.parsed.value.JObj? || b.parsed.value.JArr?))
    ensures var r := ExtractResponseSwift(p, b);
            r.Failure? && r.error.code != JsonParseErrorCode ==> r.error.code == 400
    ensures b.parsed.Parsed? && !(b.parsed.value.JObj? || b.parsed.value.JArr?) ==>
              ExtractResponseSwift(p, b) == Failure(NSError(JsonParseErrorCode, NotContainerMessage))
  {
    if b.parsed.Parsed? && (b.parsed.value.JObj? || b.parsed.value.JArr?) {
      SwiftDegradesGracefully(p, b);
    }
  }

  // ---------------------------------------------------------------------------
  // Response extraction, Windows

  /** The prefix of every exception `ExtractResponse` throws. */
  const ExtractErrorPrefix: string := "Error extracting response: "

  /**
   * The opening of the message Json.NET's `JObject.Parse` throws for a
   * document that is not an object. The token type, path, line and position
   * that the message goes on with are not modelled.
   */
  const NotAnObjectMessage: string :=
    "Error reading JObject from JsonReader. Current JsonReader item is not an object."

  /**
   * The success shape and its fallback on the top-level object: the text,
   * nothing when no shape matched, or the cast exception's message when the
   * first array element is not an object.
   */
  function CsSuccessText(p: ProviderType, json: Json): Result<Option<string>, string> {
    match p
    case OpenAI =>
      var choices := Get(json, "choices");
      if choices.Some? && choices.value.JArr? && |choices.value.items| > 0 then
        var first := choices.value.items[0];
        if !first.JObj? then Failure(CastMessage(first))
        else
          var message := Get(first, "message");
          if message.Some? && message.value.JObj? && Get(message.value, "content").Some?
          then Success(Some(TokenText(Get(message.value, "content").value)))
          else if Get(first, "text").Some? then Success(Some(TokenText(Get(first, "text").value)))
          else Success(None)
      else Success(None)
    case Anthropic =>
      var content := Get(json, "content");
      var fromContent: Result<Option<string>, string> :=
        if content.Some? && content.value.JArr? && |content.value.items| > 0 then
          var first := content.value.items[0];
          if !first.JObj? then Failure(CastMessage(first))
          else if Get(first, "text").Some? then Success(Some(TokenText(Get(first, "text").value)))
          else Success(None)
        else Success(None);
      if fromContent.Failure? || fromContent.value.Some? then fromContent
      else if Get(json, "completion").Some? then Success(Some(TokenText(Get(json, "completion").value)))
      else Success(None)
  }

  /** The message of an `error` object: `message`, else `msg`, else `Error type: <type>`, else "API Error". */
  function CsErrorText(err: Json): string {
    if Get(err, "message").Some? then TokenText(Get(err, "message").value)
    else if Get(err, "msg").Some? then TokenText(Get(err, "msg").value)
    else if Get(err, "type").Some? then "Error type: " + TokenText(Get(err, "type").value)
    else "API Error"
  }

  /** Windows `ExtractResponse`: the text, or the message of the exception it throws. */
  function ExtractResponseCs(p: ProviderType, body: Body): (r: Result<string, string>)
    ensures r.Failure? ==> StartsWith(r.error, ExtractErrorPrefix)
  {
    match body.parsed
    case Malformed(reason) => Failure(ExtractErrorPrefix + reason)
    case Parsed(j) =>
      if !j.JObj? then Failure(ExtractErrorPrefix + NotAnObjectMessage)
      else
        match CsSuccessText(p, j)
        case Failure(castMessage) => Failure(ExtractErrorPrefix + castMessage)
        case Success(Some(text)) => Success(text)
        case Success(None) =>
          var err := Get(j, "error");
          if err.Some? && err.value.JObj? then Failure(ExtractErrorPrefix + CsErrorText(err.value))
          else Failure(ExtractErrorPrefix + "Failed to parse API response")
  }

  /** Windows: the success payload and the legacy payload both yield the text they carry. */
  lemma {:induction false} CsExtractRoundTrip(p: ProviderType, text: string)
    ensures ExtractResponseCs(p, BodyOf(SuccessPayload(p, text))) == Success(text)
    ensures ExtractResponseCs(p, BodyOf(LegacyPayload(p, text))) == Success(text)
  {
    var inner := Single("text", JStr(text));
    assert Get(inner, "text") == Some(JStr(text));
    var msg := Single("content", JStr(text));
    assert Get(Single("message", msg), "message") == Some(msg);
    assert Get(msg, "content") == Some(JStr(text));
    assert Get(inner, "message") == None;
  }

  /**
   * Windows: an `error` object (with no success shape before it) is thrown
   * with `message` > `msg` > "Error type: <type>" > "API Error"; a body with
   * neither is "Failed to parse API response"; both carry the common prefix.
   */
  lemma {:induction false} CsErrorPrecedence(p: ProviderType, raw: string, j: Json)
    requires j.JObj? && CsSuccessText(p, j) == Success(None)
    ensures var r := ExtractResponseCs(p, Body(raw, Parsed(j)));
            var err := Get(j, "error");
            r.Failure?
            && (err.Some? && err.value.JObj? ==>
                  r.error == ExtractErrorPrefix +
                    (if Get(err.value, "message").Some? then TokenText(Get(err.value, "message").value)
                     else if Get(err.value, "msg").Some? then TokenText(Get(err.value, "msg").value)
                     else if Get(err.value, "type").Some? then "Error type: " + TokenText(Get(err.value, "type").value)
                     else "API Error"))
            && (!(err.Some? && err.value.JObj?) ==>
                  r.error == ExtractErrorPrefix + "Failed to parse API response")
  {
  }

  /**
   * The two platforms agree on the current success shapes, and differ on an
   * unrecognised body: macOS surfaces the raw text, Windows throws.
   */
  lemma {:induction false} PlatformsDifferOnUnrecognisedBody(p: ProviderType, raw: string)
    requires !Contains(raw, "error")
    ensures ExtractResponseSwift(p, Body(raw, Parsed(JObj([])))) == Success("Raw API response: " + raw)
    ensures ExtractResponseCs(p, Body(raw, Parsed(JObj([]))))
              == Failure(ExtractErrorPrefix + "Failed to parse API response")
  {
    assert CsSuccessText(p, JObj([])) == Success(None);
    CsErrorPrecedence(p, raw, JObj([]));
  }
}
