# Elote, modelled in Dafny

Elote is a clipboard text enhancer with two front ends:

- a macOS menu-bar app, `EloteApp.swift`;
- a Windows tray app, `EloteWindows`.

Each front end takes the text on the clipboard and sends it with an instruction prompt to a large language model, either OpenAI or Anthropic. It then puts the enhanced text back on the clipboard.

This project models the logic both apps share and the state each app keeps:

- **Provider adapter** (`providers.dfy`, module `LLMProviders`):
  - the two vendors, with their endpoints, default models and header sets;
  - the model-name normalisation;
  - the one-message request envelope;
  - the layered response extraction, in its macOS and Windows variants.
- **JSON values** (`json.dfy`): the parsed response bodies the extractors look into. Duplicate keys resolve to the last member, as Json.NET does.
- **Request pipeline** (`pipeline.dfy`): macOS `processWithLLM` and Windows `LLMService.ProcessText`. Each maps the stored configuration, the user's text and the outcome of one HTTP exchange to a request and a classified result. Status codes follow section 15 of RFC 9110, and 429 follows section 4 of RFC 6585.
- **Prompt store** (`prompts.dfy`): prompts with identity-by-id equality, and the look-ups and list rewrites both apps perform.
- **Settings** (`settings.dfy`, module `SettingsStore`): the Windows `SettingsService` as a class, covering:
  - the record;
  - the default settings;
  - the load fallback;
  - the single-field setters;
  - shortcut texts built from modifier flags.
- **macOS app state** (`mac_app.dfy`): the `AppDelegate` as a class. It covers the prompt store and its persisted selection, clipboard polling, dispatch of the process action and its completion.
- **Windows app state** (`windows_app.dfy`): `ClipboardMonitorService` (monitoring flag, debounce re-arm, de-duplication) and the `App` tray actions.
- **Windows views** (`windows_views.dfy`): `PromptDialog`, `HotkeyDialog` and the `SettingsWindow` event handlers, including the selection and text events WPF raises when a handler changes the prompt combo box or the prompt box in code.

The model treats the outside world as inputs:

- The HTTP exchange is an `Exchange` value: a transport failure with its `NSURLError` code, or a status with an optional body.
- A parsed body is a `Json` value, or `Malformed` when the parser rejects it.
- Dialog answers, the pasteboard and clipboard, network availability and freshly generated ids are parameters.

## Model

The contracts of the state-changing methods use helper predicates, which have no rows of their own:

- In `MacApp.AppDelegate`, `ConfigKept`, `PromptStoreKept`, `ModeKept` and `ProcessingKept` each say that one group of fields is unchanged: the configuration, the prompt store, the auto mode, and the processing state.
- `MacApp.AppDelegate.SelectionValid` says there is a prompt and the selection designates one.
- `WindowsApp.TrayApp.AutoModeInSync` says the monitor runs exactly when auto mode is on and the monitor has its window.
- `WindowsViews.SettingsWindow.PromptBoxInSync` says the prompt box shows the stored last-used prompt.

| member | source | states |
|---|---|---|
| Text.TrimSpec | EloteWindows/Views/PromptDialog.xaml.cs:44-45 | `string.Trim()` yields a contiguous piece of the input. What it cuts off at either end is whitespace. The result has no whitespace at either end, and it is empty exactly when the input is blank. |
| Text.Trim | EloteWindows/Views/PromptDialog.xaml.cs:44-45 | The trimmed text is never longer than the input and has no whitespace at either end. `TrimSpec` adds that it is a contiguous piece of the input, cut only at whitespace. |
| Text.Lower | EloteWindows/Models/LLMProvider.cs:114 | Lower-casing keeps the length and leaves no upper-case ASCII letter. Each upper-case letter becomes its lower-case partner, and every other character is kept. |
| Text.LowerIdempotent | EloteWindows/Models/LLMProvider.cs:126 | Lower-casing an already lower-cased name changes nothing. |
| Text.HyphenIgnoresCase | EloteApp.swift:112 | A lower-cased name contains "-" exactly when the original does. So the Swift test on the raw name and the C# test on the lower-cased name (LLMProvider.cs:135) agree. |
| Text.NatToString | EloteApp.swift:1058 | A status number renders as a non-empty string of decimal digits, with no leading zero unless the number is 0. |
| Text.NatToStringValue | EloteApp.swift:1058 | Reading the rendered digits back as a decimal number gives the number itself. |
| Json.Lookup | EloteWindows/Models/LLMProvider.cs:190-221 | `obj[key]` finds a value exactly when some member has that key. The value found belongs to a member with that key, and no later member has the key (the last duplicate wins). |
| Json.LookupUnique | EloteWindows/Models/LLMProvider.cs:190-221 | A key that occurs once is found with its own value. |
| Json.AsString | EloteApp.swift:159-167 | `as? String` succeeds exactly on a present string value, and yields that string. |
| Json.AsObject | EloteApp.swift:184 | `as? [String: Any]` succeeds exactly on a present object, and yields that object itself. |
| Json.FirstOfObjectArray | EloteApp.swift:155-156 | `(as? [[String: Any]])?.first` succeeds exactly on a non-empty array every element of which is an object, and then yields the first element. |
| Prompts.Equals | EloteWindows/Models/Prompt.cs:22-29 | `Equals` holds only for a prompt with the same id; any non-prompt argument gives false. |
| Prompts.EqualityIsIdentity | EloteApp.swift:45-47 | Swift `==` and C# `Equals` agree: both hold iff the ids are equal, whatever the names and texts. |
| Prompts.EqualsIsEquivalence | EloteWindows/Models/Prompt.cs:22-29 | `Equals` is reflexive, symmetric and transitive. |
| Prompts.IdHash | EloteWindows/Models/Prompt.cs:31-34 | The hash is a 32-bit signed value. |
| Prompts.HashCode | EloteWindows/Models/Prompt.cs:31-34 | A prompt's hash is a 32-bit signed value taken from its id alone; `EqualPromptsHashAlike` shows that equal prompts hash alike. |
| Prompts.EqualPromptsHashAlike | EloteWindows/Models/Prompt.cs:31-34 | Equal prompts have equal hash codes. |
| Prompts.NewPrompt | EloteWindows/Models/Prompt.cs:11-20 | The `(name, text)` constructor keeps the name and text and gives an id under which the new prompt equals no existing prompt. |
| Prompts.IndexOfId | EloteWindows/Views/SettingsWindow.xaml.cs:271 | `FindIndex` / `firstIndex(where:)` returns the first position holding the id, or nothing exactly when the id is absent. |
| Prompts.FindById | EloteApp.swift:1281 | `first(where:)` finds a prompt exactly when the id is present; the prompt found is the one at the first index holding that id (`IndexOfId`), so among duplicates the earliest wins. |
| Prompts.Selected | EloteApp.swift:451 | A possibly empty selection designates a prompt exactly when it names an id in the list, and the prompt designated is the first one with that id. |
| Prompts.RemoveAllId | EloteWindows/Views/SettingsWindow.xaml.cs:306 | `RemoveAll(p => p.Id == id)` keeps exactly the prompts with other ids. The result's ids are the old ids minus `id`. |
| Prompts.RemoveAllIdDistributes | EloteWindows/Views/SettingsWindow.xaml.cs:306 | Removal distributes over concatenation, so the prompts that stay keep their relative order. |
| Prompts.RemoveAllIdSingleton | EloteWindows/Views/SettingsWindow.xaml.cs:306 | A single prompt is dropped exactly when it has the id, and kept otherwise. |
| Prompts.Rewritten | EloteWindows/Views/SettingsWindow.xaml.cs:274-275 | Renaming in place changes only the name and text at that position. Ids and all other entries stay. |
| Prompts.RemoveAllIsRemoveAt | EloteApp.swift:1364-1366 | On a list with unique ids, Windows "remove every prompt with the id" equals macOS "remove at the first index". An absent id removes nothing. |
| Prompts.RemoveAtKeepsUnique | EloteApp.swift:1364-1366 | Removing one entry keeps ids unique and removes exactly that entry's id. |
| Prompts.AppendedIsFound | EloteWindows/Views/SettingsWindow.xaml.cs:240-255 | A prompt appended under a new id is found last, is the prompt selected by its id, and keeps ids unique. |
| LLMProviders.GetProvider | EloteWindows/Models/LLMProvider.cs:33-41 | `GetProvider(t)` is the static instance whose type is `t` and whose display name is `t`'s. |
| LLMProviders.FirstNamed | EloteWindows/Models/LLMProvider.cs:46-53 | The scan returns a provider whose name matches case-insensitively. When it finds nothing, no provider matches. |
| LLMProviders.GetProviderByName | EloteWindows/Models/LLMProvider.cs:44-56 | The result matches the name case-insensitively, or it is OpenAI and no provider matches. |
| LLMProviders.GetProviderByNameFindsEach | EloteWindows/Models/LLMProvider.cs:44-56 | Looking a provider up by its display name, in any case, returns that provider. |
| LLMProviders.SelectedProvider | EloteApp.swift:247-252 | The stored raw value names the provider. An unknown raw value gives OpenAI. |
| LLMProviders.SelectedProviderRoundTrip | EloteApp.swift:247-252 | Storing a provider's raw value and reading it back gives the same provider. |
| LLMProviders.Headers | EloteWindows/Models/LLMProvider.cs:81-98 | The OpenAI header keys are exactly `Content-Type` and `Authorization`. The Anthropic keys are exactly `Content-Type`, `anthropic-version` (value `2023-06-01`) and `x-api-key`. `Content-Type` is `application/json` for both. |
| LLMProviders.CredentialRoundTrip | EloteApp.swift:77-93 | The header set carries exactly the key it was built from: as a bearer token (section 2.1 of RFC 6750) for OpenAI, and in `x-api-key` for Anthropic. |
| LLMProviders.NormalizeModel | EloteApp.swift:101-116 | Each rule is tested on the lower-cased name, in order, and only when the earlier ones failed. OpenAI: `gpt4` or `gpt-4o` gives `gpt-4o`, then a name containing `gpt3.5` gives `gpt-3.5-turbo`. Anthropic: `claude-2` wins, then `1.3`, then a hyphen-free name containing `3` gives `claude-3-haiku-20240307`. The name changes only when some rule matched, and the result is then a canonical id. |
| LLMProviders.Claude2BeforeClaude13 | EloteApp.swift:109-112 | `claude-2-1.3` matches both Claude rules and normalises to `claude-2`, because that rule comes first. |
| LLMProviders.HyphenFreeClaude3IsHaiku | EloteApp.swift:113-114 | `Claude3` is matched after case folding and normalises to Claude 3 Haiku. |
| LLMProviders.HyphenatedClaude3PassesThrough | EloteApp.swift:113-114 | `claude-3-opus` contains a hyphen and so passes through unchanged. |
| LLMProviders.Gpt4IsGpt4o | EloteApp.swift:102-103 | The short name `gpt4` normalises to `gpt-4o`. |
| LLMProviders.KnownModelsAreFixedPoints | EloteWindows/Models/LLMProvider.cs:112-139 | Every canonical id normalises to itself. |
| LLMProviders.DefaultModelIsFixedPoint | EloteWindows/Models/LLMProvider.cs:70-78 | Each default model is a canonical id and normalises to itself. |
| LLMProviders.NormalizeIdempotent | EloteWindows/Models/LLMProvider.cs:112-139 | Normalising twice is the same as normalising once. |
| LLMProviders.NormalizeIgnoresCase | EloteWindows/Models/LLMProvider.cs:112-139 | Two names that differ only in case map to the same canonical id, or both pass through unchanged. |
| LLMProviders.ResolveModelPlatforms | EloteWindows/Models/LLMProvider.cs:103-109 | An absent model resolves to the default on both platforms, and a non-blank name resolves the same on both. A blank but non-empty name becomes the default on Windows and is sent unchanged from macOS (EloteApp.swift:97). |
| LLMProviders.ResolveModelSwift | EloteApp.swift:96-116 | No model means the provider's default. The result is one of the provider's known model names, or the requested name unchanged. |
| LLMProviders.ResolveModelCs | EloteWindows/Models/LLMProvider.cs:103-139 | A null or whitespace model means the provider's default. The result is one of the provider's known model names, or the requested name unchanged. |
| LLMProviders.BlankPassesThrough | EloteApp.swift:101-116 | A whitespace-only name matches no rule. |
| LLMProviders.RequestBodyShape | EloteApp.swift:118-140 | On both platforms the body holds the resolved model, exactly one message (role `user`, content `prompt + " " + userText`), `max_tokens` 4000 and temperature 0.7. The C# side is LLMProvider.cs:144-175. |
| LLMProviders.RequestBodySwift | EloteApp.swift:95-140 | The body's `model` member is the model resolved on macOS. `RequestBodyShape` states the message, the token budget and the temperature. |
| LLMProviders.RequestBodyCs | EloteWindows/Models/LLMProvider.cs:101-178 | The body's `model` member is the model resolved on Windows. `RequestBodyShape` states the message, the token budget and the temperature. |
| LLMProviders.EnvelopeOfBodyFor | EloteWindows/Models/LLMProvider.cs:144-175 | The envelope built for a model, prompt and text is read back with exactly those values. |
| LLMProviders.SwiftExtractRoundTrip | EloteApp.swift:155-181 | The current success shape and the legacy shape of each vendor both yield the text they carry. |
| LLMProviders.SwiftErrorObjectPrecedence | EloteApp.swift:185-198 | With no success shape and an `error` object, the result is failure 400 with "API Error: " followed by `message`, else `msg`, else "Error type: <type>", else "API Error". |
| LLMProviders.SwiftDegradesGracefully | EloteApp.swift:201-210 | For a body that parses to an object or an array, the result fails (code 400) only when the body has an `error` object or its text mentions "error". Otherwise an unrecognised body succeeds as "Raw API response: <raw>". |
| LLMProviders.SwiftParseFailures | EloteApp.swift:151-217 | The result is failure 3840 exactly when the body is not JSON or is a top-level scalar, which `jsonObject(with:options: [])` refuses. A scalar fails with Foundation's "not in the correct format" description. Every other failure has code 400. |
| LLMProviders.ExtractResponseSwift | EloteApp.swift:144-219 | A failure has code 3840 (the parser refused the body) or 400 (an `error` object, or a body mentioning "error"). A success comes only from a body that parsed to an object or an array. The rows `SwiftExtractRoundTrip`, `SwiftErrorObjectPrecedence`, `SwiftDegradesGracefully` and `SwiftParseFailures` state each branch. |
| LLMProviders.ExtractResponseCs | EloteWindows/Models/LLMProvider.cs:248-251 | Every failure message starts with "Error extracting response: ". |
| LLMProviders.CsExtractRoundTrip | EloteWindows/Models/LLMProvider.cs:187-223 | The current success shape and the legacy shape of each vendor both yield the text they carry. |
| LLMProviders.CsErrorPrecedence | EloteWindows/Models/LLMProvider.cs:226-246 | With no success shape, an `error` object throws `message` > `msg` > "Error type: <type>" > "API Error". Any other body throws "Failed to parse API response". Both come with the common prefix. |
| LLMProviders.PlatformsDifferOnUnrecognisedBody | EloteWindows/Models/LLMProvider.cs:246 | On an object with no recognised shape, macOS succeeds with the raw text (EloteApp.swift:208) and Windows fails. |
| Pipeline.PromptTextSwift | EloteApp.swift:449-451 | The prompt text is the text of the first prompt with the selected id, or the last-used prompt when the selection designates none. |
| Pipeline.FormattedPromptRoundTrip | EloteApp.swift:449-458 | The formatted prompt ends with the fixed instruction, and removing it gives back the chosen prompt text. |
| Pipeline.MissingKeyShortCircuits | EloteApp.swift:962-970 | An empty key fails with code 400 and the missing-key message, builds no request, and ignores the exchange. |
| Pipeline.ProcessWithLLM | EloteApp.swift:955-1117 | A request is built iff the key is non-empty. A success needs a reply with a 2xx status and a body. With a key, a status outside 200..299 always fails with that status as the code. The rows below state each branch. |
| Pipeline.BuildRequestSwift | EloteApp.swift:975-981 | The request goes to the provider's endpoint and its headers carry the key. Its body is the one-message envelope of the prompt and the text, for the default model when the custom model is empty and the normalised custom model otherwise. |
| Pipeline.RequestCarriesConfiguration | EloteApp.swift:977-981 | With a key, the request goes to the provider's endpoint, carries the key in its headers, and its body holds the prompt, the text and the custom model (or the default when it is empty). |
| Pipeline.TransportFailureClassified | EloteApp.swift:1026-1050 | A transport failure keeps its code. The four common codes get their fixed messages, and the host one names the provider. Any other code keeps the system description. |
| Pipeline.HttpErrorClassified | EloteApp.swift:1057-1099 | A status outside 200..299 fails with that status as the code. The message starts with "API Error: " plus `error.message` when the body has one, and with the status class otherwise. The body is appended iff it mentions "error". |
| Pipeline.HttpErrorMessageShape | EloteApp.swift:1076-1093 | The message of a failing status with a body starts with its head (`"API Error: " + error.message`, or the status message). The body is appended after "Detailed error:" exactly when it mentions "error". |
| Pipeline.StatusClasses | EloteApp.swift:1058-1074 | 401, 403, 404, 429 and 500/502/503/504 each get their own message. Any other status gives "API server error (Status n)". |
| Pipeline.StatusMessage | EloteApp.swift:1058-1074 | 401, 403, 404 and 429 each get a message no other status gets. 500, 502, 503 and 504 share one, which no other status gets. |
| Pipeline.SuccessDelegatesToExtractor | EloteApp.swift:1103-1117 | A success status hands the body to the provider's extractor. A missing body is error 102. |
| Pipeline.SwiftEndToEnd | EloteApp.swift:955-1117 | A vendor reply in its success shape yields exactly the text it carries. |
| Pipeline.ResolvePromptText | EloteWindows/Services/LLMService.cs:50-61 | The prompt is the text of the first stored prompt with the selected id (what `List.Find` returns) when one exists, else `LastUsedPrompt`. |
| Pipeline.BuildRequestCs | EloteWindows/Services/LLMService.cs:41-47 | No request is built exactly when the key is null or whitespace. |
| Pipeline.ProcessText | EloteWindows/Services/LLMService.cs:26-106 | No request is sent iff the key is blank. A success comes only after a reply with a 2xx status. With a key, a transport exception gives exactly "Error: " + its message. `ProcessTextResultShape`, `ProcessTextClassified` and `ProcessTextEmptyReply` state the result of every other case. |
| Pipeline.ProcessTextResultShape | EloteWindows/Services/LLMService.cs:26-106 | The one result is well formed: success iff it has text, and iff it has no error. A blank key fails with "API key is not set" and sends no request; every other call sends exactly one. |
| Pipeline.ProcessTextClassified | EloteWindows/Services/LLMService.cs:83-102 | A failing status gives "API Error (<code>): <body>". A success status gives the extracted text, or exactly "Error: " + the extractor's message (which starts "Error extracting response: ") when extraction throws. |
| Pipeline.ProcessTextEmptyReply | EloteWindows/Services/LLMService.cs:83-102 | A reply with no body reads as "": with a 2xx status the empty document makes extraction throw, giving "Error: Error extracting response: " + Json.NET's empty-document message; any other status gives "API Error (<code>): ". |
| Pipeline.RequestFromSettings | EloteWindows/Services/LLMService.cs:36-77 | The request uses the selected provider's endpoint, the key in its headers, and the resolved prompt and model in its body. |
| Pipeline.PlatformsAgreeOnSuccess | EloteWindows/Services/LLMService.cs:83-89 | On a well-formed reply both platforms return the same text (macOS: EloteApp.swift:1116-1117). |
| SettingsStore.GetShortcutText | EloteWindows/Services/SettingsService.cs:330-346 | The loop of flag tests builds exactly `ShortcutText`: the set modifiers' prefixes in the order Ctrl+, Alt+, Shift+, Win+, then the key name. |
| SettingsStore.ShortcutText | EloteWindows/Services/SettingsService.cs:330-346 | A shortcut text ends with the key name; `ShortcutTextRoundTrip` shows the text determines the key and the flags. |
| SettingsStore.ParseShortcut | EloteWindows/Services/SettingsService.cs:330-346 | The reading of a shortcut text, the inverse used by `ShortcutTextRoundTrip`: its key name is a non-empty suffix of the text. |
| SettingsStore.PrefixesSpelledOut | EloteWindows/Services/SettingsService.cs:334-343 | Each prefix appears iff its flag is set, in the fixed order. |
| SettingsStore.ShortcutTextRoundTrip | EloteWindows/Services/SettingsService.cs:330-346 | For a key name without '+', reading a shortcut text back gives the key and exactly the modifier flags it was built from. |
| SettingsStore.ParseSpelledOut | EloteWindows/Services/SettingsService.cs:334-343 | Reading back any combination of the four prefixes followed by a key name recovers the flags and the key. |
| SettingsStore.ShortcutTextExamples | EloteWindows/Services/SettingsService.cs:330-346 | With no modifiers the text is the bare key name; with Ctrl+Alt it is "Ctrl+Alt+" and the key. |
| SettingsStore.DefaultSettingsFacts | EloteWindows/Services/SettingsService.cs:56-86 | The defaults are: no key, OpenAI, no custom model, auto mode off, notifications and sounds on, and no selection. There are three prompts with distinct ids named "Default", "Fix Grammar" and "Make Professional". |
| SettingsStore.CreateDefaultSettings | EloteWindows/Services/SettingsService.cs:56-86 | The defaults hold three prompts with distinct ids. The first prompt's text is the last-used prompt, and the stored selection designates no prompt. `DefaultSettingsFacts` states the other fields. |
| SettingsStore.DefaultHotkeyTexts | EloteWindows/Services/SettingsService.cs:67-76 | The default hotkeys read "Ctrl+Alt+E" and "Ctrl+Alt+A". |
| SettingsStore.CtrlAltText | EloteWindows/App.xaml.cs:72-83 | A Ctrl+Alt shortcut on a one-letter key reads "Ctrl+Alt+" and the letter. |
| SettingsStore.SettingsService.Load | EloteWindows/Services/SettingsService.cs:32-54 | A stored record is used as it is. An unreadable file gives the defaults and is left alone. A missing file gives the defaults, which are saved. |
| SettingsStore.SettingsService.SetApiKey | EloteWindows/Services/SettingsService.cs:134-141 | Only `apiKey` changes, the record is saved, and the getter returns the new value. |
| SettingsStore.SettingsService.SetSelectedProvider | EloteWindows/Services/SettingsService.cs:151-158 | Only `selectedProvider` changes, the record is saved, and the getter returns the new value. |
| SettingsStore.SettingsService.SetCustomModel | EloteWindows/Services/SettingsService.cs:168-175 | Only `customModel` changes, the record is saved, and the getter returns the new value. |
| SettingsStore.SettingsService.SetLastUsedPrompt | EloteWindows/Services/SettingsService.cs:185-192 | Only `lastUsedPrompt` changes, the record is saved, and the getter returns the new value. |
| SettingsStore.SettingsService.SetShowNotifications | EloteWindows/Services/SettingsService.cs:202-209 | Only `showNotifications` changes, the record is saved, and the getter returns the new value. |
| SettingsStore.SettingsService.SetPlayNotificationSounds | EloteWindows/Services/SettingsService.cs:219-226 | Only `playNotificationSounds` changes, the record is saved, and the getter returns the new value. |
| SettingsStore.SettingsService.SetAutoModeEnabled | EloteWindows/Services/SettingsService.cs:236-243 | Only `autoModeEnabled` changes, the record is saved, and the getter returns the new value. |
| SettingsStore.SettingsService.SetProcessTextHotkey | EloteWindows/Services/SettingsService.cs:253-260 | Only `processTextHotkey` changes, the record is saved, and the getter returns the new value. |
| SettingsStore.SettingsService.SetToggleAutoModeHotkey | EloteWindows/Services/SettingsService.cs:270-277 | Only `toggleAutoModeHotkey` changes, the record is saved, and the getter returns the new value. |
| SettingsStore.SettingsService.SetPrompts | EloteWindows/Services/SettingsService.cs:287-294 | Only `prompts` changes, the record is saved, and the getter returns the new value. |
| SettingsStore.SettingsService.SetSelectedPromptId | EloteWindows/Services/SettingsService.cs:304-311 | Only `selectedPromptId` changes, the record is saved, and the getter returns the new value. |
| SettingsStore.SettingsService.SetStartWithWindows | EloteWindows/Services/SettingsService.cs:321-328 | Only `startWithWindows` changes, the record is saved, and the getter returns the new value. |
| MacApp.Pasteboard.Replace | EloteApp.swift:914-915 | `clearContents` plus `setString` bump the change count by one and leave the new string on the pasteboard. |
| MacApp.AppDelegate.constructor | EloteApp.swift:224-245 | The stored defaults are as given. There are no prompts, nothing is captured or in flight, and polling is off. |
| MacApp.AppDelegate.LoadPrompts | EloteApp.swift:1178-1195 | A decoded non-empty list keeps a selection that designates one of its prompts; a stale or empty selection becomes the first prompt's id. An undecodable list leaves no prompts, and missing data changes nothing. The configuration, the mode and the processing state are unchanged. |
| MacApp.AppDelegate.Launch | EloteApp.swift:405-447 | After launch there is at least one prompt and the selection is valid. With no stored list, it is a "Default" prompt made from the last-used prompt. With a stored list, a valid stored selection is kept and otherwise the first prompt is selected. The change count is remembered, and polling runs iff auto mode is on. The configuration and the processing state are otherwise unchanged. |
| MacApp.AppDelegate.StartClipboardMonitoring | EloteApp.swift:806-814 | Polling is on afterwards; nothing else changes. |
| MacApp.AppDelegate.StopClipboardMonitoring | EloteApp.swift:817-821 | Polling is off afterwards; nothing else changes. |
| MacApp.AppDelegate.ToggleAutoMode | EloteApp.swift:791-804 | The flag is negated, and polling runs exactly when it is on. The configuration, the prompt store and the processing state are unchanged. |
| MacApp.AppDelegate.CreatePrompt | EloteApp.swift:1224-1277 | A saved form with a non-empty name appends a prompt under a new id. That prompt becomes the selection, its text becomes the last-used prompt, and the list is persisted. Anything else changes nothing. A valid selection and unique ids are preserved. The configuration, the mode and the processing state are unchanged. |
| MacApp.AppDelegate.AppendAndSelect | EloteApp.swift:1270-1274 | The prompt is appended, selected and made the last-used prompt, and the list is saved. The selection designates it, and unique ids stay unique. |
| MacApp.AppDelegate.EditSelectedPrompt | EloteApp.swift:1280-1343 | With no selected prompt: "No Prompt Selected". Otherwise a saved form with a non-empty name rewrites that prompt's name and text in place and updates the last-used prompt. The selection and the set of ids never change. The configuration, the mode and the processing state are unchanged. |
| MacApp.AppDelegate.RewriteAt | EloteApp.swift:1331-1339 | Only the name and text at the position change. The text becomes the last-used prompt and the list is saved; the selection and the set of ids are kept. |
| MacApp.AppDelegate.DeleteSelectedPrompt | EloteApp.swift:1346-1381 | With no selected prompt: "No Prompt Selected". With one prompt or fewer: "Cannot Delete". Once confirmed, the prompt is removed at its first index, and the first remaining prompt becomes the selection and the last-used prompt. The list never becomes empty, the selection stays valid, and with unique ids the deleted id is gone. The configuration, the mode and the processing state are unchanged. |
| MacApp.AppDelegate.RemoveAndSelectFirst | EloteApp.swift:1367-1377 | The prompt at the position is removed, and the first remaining prompt becomes the selection and the last-used prompt; the list is saved. With unique ids, the removed id is gone and ids stay unique. |
| MacApp.AppDelegate.CheckClipboard | EloteApp.swift:823-848 | It acts only when the change count moved, and then records the new count. Only non-empty text overwrites the captured text. "Text Captured" is posted iff auto mode is on and nothing is in flight. The configuration, the mode and the prompt store are unchanged. |
| MacApp.AppDelegate.ProcessClipboardText | EloteApp.swift:851-880 | The checks run in order: network, key, text. Captured text is preferred to the pasteboard. A dispatch marks processing in flight, and a refusal changes nothing. No guard refuses a second dispatch while one is in flight. The configuration, the mode and the prompt store are unchanged. |
| MacApp.AppDelegate.CompleteProcessing | EloteApp.swift:900-944 | Processing ends. On success the result replaces the pasteboard, its change count is remembered and the captured text is cleared. On failure only the success flag drops, and the error is shown. The configuration, the mode and the prompt store are unchanged. |
| MacApp.AppDelegate.ProcessClipboardRound | EloteApp.swift:851-949 | A dispatched round completes with `processWithLLM`'s result for the formatted prompt and stored configuration. After a success the pasteboard holds the result and the next poll captures nothing. The configuration, the mode and the prompt store are unchanged. |
| MacApp.FirstIsFound | EloteApp.swift:1186-1188 | The first prompt of a non-empty list is designated by its id. |
| WindowsApp.WindowsClipboard.SetText | EloteWindows/Services/ClipboardService.cs:65-107 | Empty text is refused with `false` and leaves the clipboard as it was. Any other text is stored and reported with `true`. |
| WindowsApp.ClipboardMonitorService.constructor | EloteWindows/Services/ClipboardMonitorService.cs:36-41 | The service starts not monitoring, with no window source, nothing processed and no timer armed. |
| WindowsApp.ClipboardMonitorService.SourceInitialized | EloteWindows/Services/ClipboardMonitorService.cs:59-68 | The window source exists afterwards; nothing else changes. |
| WindowsApp.ClipboardMonitorService.StartMonitoring | EloteWindows/Services/ClipboardMonitorService.cs:78-94 | A no-op while monitoring. Otherwise monitoring starts iff the window source exists. |
| WindowsApp.ClipboardMonitorService.StopMonitoring | EloteWindows/Services/ClipboardMonitorService.cs:96-112 | Monitoring is off afterwards, and the window source and last processed text are unchanged. |
| WindowsApp.ClipboardMonitorService.WndProc | EloteWindows/Services/ClipboardMonitorService.cs:114-124 | A message is handled iff it is a clipboard update while monitoring. A handled message re-arms the timer to 500 ms; any other leaves the timer alone. |
| WindowsApp.ClipboardMonitorService.ProcessClipboardContent | EloteWindows/Services/ClipboardMonitorService.cs:127-173 | Nothing happens after monitoring stopped, for blank text, or for text equal to the last processed text. Accepted text (the input, not the result) becomes the last processed text. The clipboard gets the result only on a success with a non-empty result. After a failure or an empty result it keeps the input. |
| WindowsApp.ClipboardMonitorService.ProcessAccepted | EloteWindows/Services/ClipboardMonitorService.cs:155-170 | Accepted text is sent once. The toasts are the start notice and then the result's toast. The clipboard gets the result only on a success with a non-empty result, and is otherwise unchanged. |
| WindowsApp.TrayApp.constructor | EloteWindows/App.xaml.cs:78-82 | The auto-mode item reads "Toggle Auto Mode (Ctrl+Alt+A)" without a check mark. |
| WindowsApp.TrayApp.ProcessClipboardText | EloteWindows/App.xaml.cs:149-181 | The network is checked first, then blank text; neither calls the LLM or writes the clipboard. Otherwise the clipboard gets the result only on a success with a non-empty result, and a failure shows "Error: " and the error. |
| WindowsApp.TrayApp.ToggleAutoMode | EloteWindows/App.xaml.cs:183-201 | The stored flag is negated. The monitor starts when the flag was off and stops when it was on, and its pending debounce is kept. The header is refreshed, and the monitor stays in step with the flag. |
| WindowsApp.TrayApp.UpdateAutoModeMenuItem | EloteWindows/App.xaml.cs:203-211 | The header is the auto-mode header for the stored flag. |
| WindowsApp.MenuShortcutText | EloteWindows/App.xaml.cs:130-134 | The menu suffix is " (" + shortcut + ")". The empty-shortcut branch is unreachable because key names are never empty. |
| WindowsApp.AutoModeHeaderMarksState | EloteWindows/App.xaml.cs:207-209 | The header is "Toggle Auto Mode (Ctrl+Alt+A)" and ends in " ✓" iff auto mode is on. |
| WindowsViews.ValidatePromptInput | EloteWindows/Views/PromptDialog.xaml.cs:24-45 | Input is refused iff the name or the text is blank, with the name checked first. Accepted values are trimmed, non-empty and unpadded. |
| WindowsViews.TrimIsTrimmedPiece | EloteWindows/Views/PromptDialog.xaml.cs:44-45 | A non-blank input trims to a non-empty, unpadded piece of itself. |
| WindowsViews.RevalidationIsIdentity | EloteWindows/Views/PromptDialog.xaml.cs:24-45 | Saving accepted values again accepts them unchanged. |
| WindowsViews.TrimOfTrimmed | EloteWindows/Views/PromptDialog.xaml.cs:44-45 | A non-empty string with no whitespace at either end is its own trim. |
| WindowsViews.PromptDialog.constructor | EloteWindows/Views/PromptDialog.xaml.cs:11-22 | The boxes show the given name and text, and nothing is accepted yet. |
| WindowsViews.PromptDialog.Save | EloteWindows/Views/PromptDialog.xaml.cs:24-50 | Refused input shows its warning and leaves the dialog open. Accepted input is stored trimmed and the dialog closes with true. |
| WindowsViews.PromptDialog.Cancel | EloteWindows/Views/PromptDialog.xaml.cs:52-57 | The dialog result is false and nothing else changes. |
| WindowsViews.PromptDialog.Accepted | EloteWindows/Views/PromptDialog.xaml.cs:48 | A name and text are handed back iff the dialog closed with Save. |
| WindowsViews.HotkeyDialog.constructor | EloteWindows/Views/HotkeyDialog.xaml.cs:16-34 | A current hotkey seeds the key and modifiers and marks the key as set. Without one, the key is not set. |
| WindowsViews.HotkeyDialog.PreviewKeyDown | EloteWindows/Views/HotkeyDialog.xaml.cs:36-64 | A bare modifier key changes nothing and is not handled. Any other key is recorded with the held modifiers, and the display shows that pair and reads back as it. |
| WindowsViews.HotkeyDialog.Save | EloteWindows/Views/HotkeyDialog.xaml.cs:73-92 | Refused with a warning while no key is set. Otherwise the hotkey is the recorded pair and the dialog closes with true. |
| WindowsViews.HotkeyDialog.Cancel | EloteWindows/Views/HotkeyDialog.xaml.cs:94-99 | The dialog result is false. The hotkey and the captured action text are unchanged. |
| WindowsViews.ProviderAt | EloteWindows/Views/SettingsWindow.xaml.cs:110-111 | Position 0 is OpenAI and any other position is Anthropic. |
| WindowsViews.SelectionIndex | EloteWindows/Views/SettingsWindow.xaml.cs:69-80 | A combo position exists iff the stored selection designates a listed prompt, and it holds that prompt. |
| WindowsViews.SettingsWindow.constructor | EloteWindows/Views/SettingsWindow.xaml.cs:15-54 | Every modelled control shows its stored value, the prompt box shows the stored last-used prompt, and the stored selection is selected. Nothing is written back, and initialising ends. |
| WindowsViews.SettingsWindow.FindItem | EloteWindows/Views/SettingsWindow.xaml.cs:72-79 | The selection loop stops at the first position holding the id, or finds none exactly when the id is absent. |
| WindowsViews.SettingsWindow.LoadPrompts | EloteWindows/Views/SettingsWindow.xaml.cs:56-85 | Once the window is up, clearing a selected combo box raises the selection handler, which clears the stored selection. The list then shows the stored prompts, and the stored selection is selected when it is listed; selecting it fills the prompt box with its text. Edit and Delete are enabled iff something is selected. Only the selection and the last-used prompt can be written, and nothing while initialising. |
| WindowsViews.SettingsWindow.ClearItems | EloteWindows/Views/SettingsWindow.xaml.cs:58 | `Items.Clear()` empties the list. When it drops a selection after initialising, the stored selection becomes null; nothing else is written. |
| WindowsViews.SettingsWindow.FillItems | EloteWindows/Views/SettingsWindow.xaml.cs:60-84 | The stored prompts are listed, and the stored selection is selected iff it designates one of them. The stored selection is not changed, and the buttons follow the selection. |
| WindowsViews.SettingsWindow.UpdateShortcutTexts | EloteWindows/Views/SettingsWindow.xaml.cs:93-102 | Both shortcut boxes show the texts of their stored hotkeys. |
| WindowsViews.SettingsWindow.ProviderSelectionChanged | EloteWindows/Views/SettingsWindow.xaml.cs:106-115 | Nothing is stored while initialising. Otherwise the provider at the position is stored and the hint names its default model. |
| WindowsViews.SettingsWindow.ApiKeyChanged | EloteWindows/Views/SettingsWindow.xaml.cs:117-122 | Nothing is stored while initialising; otherwise only the key is stored. |
| WindowsViews.SettingsWindow.CustomModelChanged | EloteWindows/Views/SettingsWindow.xaml.cs:124-129 | Nothing is stored while initialising; otherwise only the custom model is stored. |
| WindowsViews.SettingsWindow.PromptTextChanged | EloteWindows/Views/SettingsWindow.xaml.cs:131-136 | Nothing is stored while initialising; otherwise only the last-used prompt is stored. |
| WindowsViews.SettingsWindow.PromptsSelectionChanged | EloteWindows/Views/SettingsWindow.xaml.cs:138-157 | A selected prompt's id is stored and its text fills the prompt box. A changed box raises the text handler, so the text becomes the last-used prompt. No selection stores null. Edit and Delete follow the selection. Nothing is stored while initialising, and a box showing the last-used prompt keeps doing so. |
| WindowsViews.SettingsWindow.ShowNotificationsChanged | EloteWindows/Views/SettingsWindow.xaml.cs:159-168 | The flag is stored, and the sounds box is enabled iff notifications are on. Nothing happens while initialising. |
| WindowsViews.SettingsWindow.PlaySoundsChanged | EloteWindows/Views/SettingsWindow.xaml.cs:170-175 | Nothing is stored while initialising; otherwise only the sounds flag is stored. |
| WindowsViews.SettingsWindow.StartWithWindowsChanged | EloteWindows/Views/SettingsWindow.xaml.cs:195-200 | Nothing is stored while initialising; otherwise only the autostart flag is stored. |
| WindowsViews.SettingsWindow.AutoModeCheckChanged | EloteWindows/Views/SettingsWindow.xaml.cs:177-193 | As written: the stored flag ends up the opposite of the box, and ticking the box leaves the monitor stopped (see Findings). |
| WindowsViews.SettingsWindow.AutoModeCheckChangedIntended | EloteWindows/Views/SettingsWindow.xaml.cs:177-193 | Corrected: the stored flag equals the box, the monitor runs iff it is on (given a window source), and monitor and flag stay in step. |
| WindowsViews.SettingsWindow.ProcessTextShortcutChosen | EloteWindows/Views/SettingsWindow.xaml.cs:202-214 | A hotkey the dialog accepted is stored and shown; a cancelled dialog changes nothing. |
| WindowsViews.SettingsWindow.ToggleAutoModeShortcutChosen | EloteWindows/Views/SettingsWindow.xaml.cs:216-228 | A hotkey the dialog accepted is stored and shown; a cancelled dialog changes nothing. |
| WindowsViews.SettingsWindow.NewPromptClicked | EloteWindows/Views/SettingsWindow.xaml.cs:230-257 | An accepted prompt is appended under a new id, and existing entries keep their order and contents. The list is reloaded with the new prompt, now last, selected. Once the window is up it is the stored selection, its text fills the box and becomes the last-used prompt, and Edit and Delete are enabled. A cancelled dialog changes nothing. |
| WindowsViews.SettingsWindow.EditPromptClicked | EloteWindows/Views/SettingsWindow.xaml.cs:259-292 | Only the name and text of the stored prompt with the selected id change; its id and position stay. It is re-selected at the same position. Once the window is up it is stored as the selection again, and its new text fills the box and becomes the last-used prompt. With no selection, a cancelled dialog or a vanished id, nothing changes. |
| WindowsViews.SettingsWindow.ReloadSelecting | EloteWindows/Views/SettingsWindow.xaml.cs:280-289 | After the reload the prompt with the id is selected at its first position. Once the window is up it is the stored selection, its text fills the box, and Edit and Delete are enabled. A box showing the last-used prompt keeps doing so. |
| WindowsViews.SettingsWindow.DeletePromptClicked | EloteWindows/Views/SettingsWindow.xaml.cs:294-318 | Once confirmed, every prompt with the id is removed and the rest keep their order. The reload's clearing of the combo box clears the stored selection, and nothing is selected. The prompt box and the last-used prompt are unchanged. |
| WindowsViews.SameIdsSameIndex | EloteWindows/Views/SettingsWindow.xaml.cs:282-289 | Lists with the same ids position by position give the same first index for every id, so re-selection after an edit finds the same position. |

## Left out

- HTTP transport is left out: `URLSession`, `HttpClient`, the 60 s timeout and the request headers as sent on the wire. One exchange is an input value.
- The JSON parser and serialiser are left out. A body is its raw text plus the parsed `Json` value, or `Malformed` with the parser's message. String escapes in rendered JSON are not modelled.
- Json.TokenText follows `JToken.ToString()` exactly only for strings, null and booleans. A number, object or array is given as its compact JSON text, where Json.NET formats numbers in the current culture and indents objects and arrays. Json.NET's conversion of date-like strings to dates while parsing, and their culture-formatted text, are not modelled.
- LLMProviders.NotAnObjectMessage is only the opening of the message `JObject.Parse` throws for a document that is not an object. The token type, path, line and position after it are not modelled.
- LLMProviders.ExtractResponseSwift: a body that is JSON but not UTF-8 (UTF-16 or UTF-32) reaches the code-500 "Failed to parse API response" branch in the source. The model's bodies are text that always decodes, so that branch is not modelled.
- The temperature 0.7 is carried as the constant number literal `"0.7"`; floating point is not modelled.
- Timers, the dispatcher and threads are left out: the 0.5 s polling timer and the debounce timer firing, `Dispatcher.Invoke`, `Task.Run`, `lock`, and STA clipboard access. A timer firing is a method call, and the LLM callback runs synchronously within the call that started it.
- UI rendering is left out: SVG icons, status-item appearance, toasts and notifications as displayed (they are returned as values on Windows), NSAlert layout, menus and the SwiftUI settings view. Swift `setupMenus` and `updateStatusItemAppearance` are not modelled.
- Swift `selectPrompt` (EloteApp.swift:1206-1221) is not modelled. It is a menu callback reached only through the menus, which are left out.
- OS integration is left out: the registry autostart entry, settings file I/O, notification authorisation and the Win32 message-only window setup. The file is a `SettingsFile` value, and window setup is the `SourceInitialized` event.
- The wrappers HotkeyService and NetworkService are left out. Network availability and hotkey events are inputs, and hotkey re-registration after a change is not modelled.
- Of ClipboardService, only `SetText`'s refusal of empty text is modelled. The STA thread hop and a system clipboard that throws are not, so non-empty text is always stored. Clipboard contents are an input.
- The commented-out network monitor is not live code. `isNetworkAvailable` keeps its initial value `true`.
- WPF raises `SelectionChanged` and `TextChanged` only when the selection or the text actually changes; the cascades are modelled on that assumption. Other WPF events raised by programmatic changes (the provider combo, the check boxes) are not modelled.
- Swift `processWithLLM`'s "Invalid API endpoint URL" and body-serialisation failure branches are not modelled. The endpoints are constant and valid, and the body holds only strings and numbers.
- Swift responses that are not HTTP responses, and 1xx/3xx statuses, are treated as plain statuses.
- The "Text Captured" notification's shortcut description is not modelled, only whether the notification is posted.
- Null strings, the parameterless `Prompt()` constructor and aliasing of the list `GetPrompts` returns are not modelled. Prompt lists are values, and `NewPrompt` takes the fresh id as a parameter.
- Case folding and whitespace: `Lower` folds ASCII letters only, and `IsWhiteSpace` covers the Latin-1 whitespace characters only.
- Prompts.IdHash: `Guid.GetHashCode` is modelled as a 32-bit fold of the id. Only the property that matters (equal ids give equal hashes) is proved, not .NET's mixing function.
- MacApp.AppDelegate.Launch requires a freshly constructed delegate with no prompts loaded and polling not yet started, as at application start.
- SettingsStore.SettingsService.Load: a settings file whose text deserialises to `null` (an empty file, or the text `null`) leaves `_settings` null, so every later getter throws. The model has no such state: a stored file always holds a record.
- WindowsApp.TrayApp.constructor does not start the monitor even when the stored flag is on, as in `OnStartup`. So the monitor and the flag are in step after start-up only when auto mode is stored off.

## Findings

| source | as written | input that shows it | evidently intended | confidence | as-written member | corrected member |
|---|---|---|---|---|---|---|
| EloteWindows/Views/SettingsWindow.xaml.cs:177-193 | The handler stores the box's state as `AutoModeEnabled` and then calls `App.ToggleAutoMode`, which reads the flag back and stores its negation. | Auto mode off, monitor stopped, the user ticks the box: the flag ends up false, the monitor stays stopped, and the toast says "Auto Mode disabled". | The stored flag equals the box, and the monitor runs exactly when it is on. | not executed | WindowsViews.SettingsWindow.AutoModeCheckChanged | WindowsViews.SettingsWindow.AutoModeCheckChangedIntended |
