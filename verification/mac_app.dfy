/**
 * The macOS menu-bar app (`AppDelegate`): the prompt store with its
 * persisted selection, clipboard polling, and the process-clipboard action
 * with its completion. Dialog answers, the pasteboard and the outcome of the
 * HTTP exchange are inputs.
 */
module MacApp {
  import opened Wrappers
  import opened Text
  import opened Prompts
  import opened LLMProviders
  import opened Pipeline

  /** `NSPasteboard.general`: its change counter and its current string, if any. */
  class Pasteboard {
    var changeCount: int
    var text: Option<string>

    constructor (changeCount: int, text: Option<string>)
      ensures this.changeCount == changeCount && this.text == text
    {
      this.changeCount := changeCount;
      this.text := text;
    }

    /** `clearContents()` then `setString(_:forType:)`: one ownership change, new contents. */
    method Replace(s: string)
      modifies this
      ensures changeCount == old(changeCount) + 1 && text == Some(s)
    {
      changeCount := changeCount + 1;
      text := Some(s);
    }
  }

  /** The `promptsData` user default: empty, undecodable, or an encoded prompt list. */
  datatype PromptsData = NoData | Undecodable | Encoded(prompts: seq<Prompt>)

  /** The user's answer to the name-and-text prompt dialog. */
  datatype PromptForm = Cancelled | Saved(name: string, text: string)

  /** What the process-clipboard action did before waiting for the LLM. */
  datatype Dispatch =
    | Refused(alertTitle: string)
    | Sent(text: string)

  const DefaultLastUsedPrompt: string := "Improve the following text while maintaining its original meaning."

  class AppDelegate {
    var apiKey: string
    var selectedProviderRaw: string
    var customModel: string
    var promptsData: PromptsData
    var prompts: seq<Prompt>
    var selectedPromptId: Option<Uuid>
    var lastUsedPrompt: string
    var isAutoModeEnabled: bool
    var isNetworkAvailable: bool
    /** Whether the 0.5 s clipboard polling timer is scheduled. */
    var monitoring: bool
    var capturedText: string
    var lastChangeCount: int
    var isAutoProcessing: bool
    var lastOperationSucceeded: bool

    /** The stored defaults as the app starts, before launch has run. */
    constructor (apiKey: string, selectedProviderRaw: string, customModel: string, promptsData: PromptsData,
                 selectedPromptId: Option<Uuid>, lastUsedPrompt: string, isAutoModeEnabled: bool)
      ensures this.apiKey == apiKey && this.selectedProviderRaw == selectedProviderRaw
      ensures this.customModel == customModel && this.promptsData == promptsData
      ensures this.selectedPromptId == selectedPromptId && this.lastUsedPrompt == lastUsedPrompt
      ensures this.isAutoModeEnabled == isAutoModeEnabled
      ensures prompts == [] && capturedText == "" && lastChangeCount == 0
      ensures !monitoring && !isAutoProcessing && !lastOperationSucceeded && isNetworkAvailable
    {
      this.apiKey := apiKey;
      this.selectedProviderRaw := selectedProviderRaw;
      this.customModel := customModel;
      this.promptsData := promptsData;
      this.selectedPromptId := selectedPromptId;
      this.lastUsedPrompt := lastUsedPrompt;
      this.isAutoModeEnabled := isAutoModeEnabled;
      prompts := [];
      capturedText := "";
      lastChangeCount := 0;
      monitoring := false;
      isAutoProcessing := false;
      lastOperationSucceeded := false;
      isNetworkAvailable := true;
    }

    /** There is at least one prompt and the selection designates one of them. */
    predicate SelectionValid()
      reads this
    {
      |prompts| > 0 && Selected(prompts, selectedPromptId).Some?
    }

    /** The stored configuration and the network flag are as they were. */
    twostate predicate ConfigKept()
      reads this
    {
      && apiKey == old(apiKey) && selectedProviderRaw == old(selectedProviderRaw)
      && customModel == old(customModel) && isNetworkAvailable == old(isNetworkAvailable)
    }

    /** The prompt store, its selection, its persisted form and the last-used prompt are as they were. */
    twostate predicate PromptStoreKept()
      reads this
    {
      && prompts == old(prompts) && selectedPromptId == old(selectedPromptId)
      && promptsData == old(promptsData) && lastUsedPrompt == old(lastUsedPrompt)
    }

    /** Auto mode and clipboard polling are as they were. */
    twostate predicate ModeKept()
      reads this
    {
      isAutoModeEnabled == old(isAutoModeEnabled) && monitoring == old(monitoring)
    }

    /** The captured text, the remembered change count and the processing flags are as they were. */
    twostate predicate ProcessingKept()
      reads this
    {
      && capturedText == old(capturedText) && lastChangeCount == old(lastChangeCount)
      && isAutoProcessing == old(isAutoProcessing) && lastOperationSucceeded == old(lastOperationSucceeded)
    }

    /** `selectedProvider`. */
    function Provider(): ProviderType
      reads this
    {
      SelectedProvider(selectedProviderRaw)
    }

    /**
     * `loadPrompts()`: decode the stored list; when it is non-empty and the
     * selection is empty or stale, select its first prompt. An undecodable
     * list leaves no prompts.
     */
    method LoadPrompts()
      modifies this
      ensures promptsData.Encoded? ==> prompts == promptsData.prompts
      ensures promptsData.Undecodable? ==> prompts == []
      ensures promptsData.NoData? ==> prompts == old(prompts)
      ensures promptsData.Encoded? && |prompts| > 0 ==> SelectionValid()
      ensures promptsData.Encoded? && Selected(prompts, old(selectedPromptId)).Some? ==>
                selectedPromptId == old(selectedPromptId)
      ensures promptsData.Encoded? && |prompts| > 0 && Selected(prompts, old(selectedPromptId)).None? ==>
                selectedPromptId == Some(prompts[0].id)
      ensures !(promptsData.Encoded? && |prompts| > 0) ==> selectedPromptId == old(selectedPromptId)
      ensures promptsData.NoData? ==> PromptStoreKept()
      ensures promptsData == old(promptsData) && lastUsedPrompt == old(lastUsedPrompt)
      ensures ConfigKept() && ModeKept() && ProcessingKept()
    {
      match promptsData
      case NoData =>
      case Undecodable =>
        prompts := [];
      case Encoded(ps) =>
        prompts := ps;
        if |prompts| > 0 && (selectedPromptId.None? || selectedPromptId.value !in IdsOf(prompts)) {
          selectedPromptId := Some(prompts[0].id);
        }
    }

    /**
     * `applicationDidFinishLaunching`: load the prompts, create a selected
     * "Default" prompt from the last-used prompt when there are none,
     * remember the pasteboard's change count and start polling in auto mode.
     */
    method Launch(pb: Pasteboard, freshId: Uuid)
      requires prompts == [] && !monitoring
      modifies this
      ensures SelectionValid()
      ensures old(promptsData).Encoded? && |old(promptsData).prompts| > 0 ==>
                && prompts == old(promptsData).prompts && promptsData == old(promptsData)
                && selectedPromptId == if Selected(prompts, old(selectedPromptId)).Some? then old(selectedPromptId)
                                       else Some(prompts[0].id)
      ensures !(old(promptsData).Encoded? && |old(promptsData).prompts| > 0) ==>
                && prompts == [Prompt(freshId, "Default", old(lastUsedPrompt))]
                && selectedPromptId == Some(freshId)
                && promptsData == Encoded(prompts)
      ensures lastChangeCount == pb.changeCount
      ensures monitoring == isAutoModeEnabled
      ensures isAutoModeEnabled == old(isAutoModeEnabled) && lastUsedPrompt == old(lastUsedPrompt)
      ensures ConfigKept() && capturedText == old(capturedText)
      ensures isAutoProcessing == old(isAutoProcessing) && lastOperationSucceeded == old(lastOperationSucceeded)
    {
      LoadPrompts();
      if |prompts| == 0 {
        var defaultPrompt := Prompt(freshId, "Default", lastUsedPrompt);
        prompts := prompts + [defaultPrompt];
        selectedPromptId := Some(defaultPrompt.id);
        assert prompts[0] == defaultPrompt;
        FirstIsFound(prompts);
        promptsData := Encoded(prompts);
      }
      lastChangeCount := pb.changeCount;
      if isAutoModeEnabled {
        StartClipboardMonitoring();
      }
    }

    method StartClipboardMonitoring()
      modifies this
      ensures monitoring
      ensures isAutoModeEnabled == old(isAutoModeEnabled)
      ensures ConfigKept() && PromptStoreKept() && ProcessingKept()
    {
      StopClipboardMonitoring();
      monitoring := true;
    }

    method StopClipboardMonitoring()
      modifies this
      ensures !monitoring
      ensures isAutoModeEnabled == old(isAutoModeEnabled)
      ensures ConfigKept() && PromptStoreKept() && ProcessingKept()
    {
      monitoring := false;
    }

    /** `toggleAutoMode()`: flip the flag; polling runs exactly when it is on. */
    method ToggleAutoMode()
      modifies this
      ensures isAutoModeEnabled == !old(isAutoModeEnabled)
      ensures monitoring == isAutoModeEnabled
      ensures ConfigKept() && PromptStoreKept() && ProcessingKept()
    {
      isAutoModeEnabled := !isAutoModeEnabled;
      if isAutoModeEnabled {
        StartClipboardMonitoring();
      } else {
        StopClipboardMonitoring();
      }
    }

    /**
     * `createPrompt()`: a saved form with a non-empty name appends a new
     * prompt under `freshId`, selects it and makes its text the last-used
     * prompt; anything else changes nothing.
     */
    method CreatePrompt(form: PromptForm, freshId: Uuid)
      requires freshId !in IdsOf(prompts)
      modifies this
      ensures form.Saved? && form.name != "" ==>
                && prompts == old(prompts) + [Prompt(freshId, form.name, form.text)]
                && selectedPromptId == Some(freshId)
                && lastUsedPrompt == form.text
                && promptsData == Encoded(prompts)
      ensures !(form.Saved? && form.name != "") ==>
                prompts == old(prompts) && selectedPromptId == old(selectedPromptId)
                && lastUsedPrompt == old(lastUsedPrompt) && promptsData == old(promptsData)
      ensures old(SelectionValid()) ==> SelectionValid()
      ensures old(UniqueIds(prompts)) ==> UniqueIds(prompts)
      ensures form.Saved? && form.name != "" ==> Selected(prompts, selectedPromptId) == Some(Prompt(freshId, form.name, form.text))
      ensures ConfigKept() && ModeKept() && ProcessingKept()
    {
      if form.Saved? && form.name != "" {
        var newPrompt := NewPrompt(prompts, freshId, form.name, form.text);
        AppendAndSelect(newPrompt);
      }
    }

    /** Append a prompt under a new id, select it, make its text the last-used prompt and save the list. */
    method AppendAndSelect(newPrompt: Prompt)
      requires newPrompt.id !in IdsOf(prompts)
      modifies this
      ensures prompts == old(prompts) + [newPrompt]
      ensures selectedPromptId == Some(newPrompt.id) && lastUsedPrompt == newPrompt.text
      ensures promptsData == Encoded(prompts)
      ensures Selected(prompts, selectedPromptId) == Some(newPrompt) && SelectionValid()
      ensures old(UniqueIds(prompts)) ==> UniqueIds(prompts)
      ensures ConfigKept() && ModeKept() && ProcessingKept()
    {
      AppendedIsFound(prompts, newPrompt);
      var extended := prompts + [newPrompt];
      prompts := extended;
      selectedPromptId := Some(newPrompt.id);
      lastUsedPrompt := newPrompt.text;
      promptsData := Encoded(extended);
    }

    /**
     * `editSelectedPrompt()`: with no selected prompt, the "No Prompt
     * Selected" alert; otherwise a saved form with a non-empty name rewrites
     * the name and text of the selected prompt in place (id and position
     * stay) and makes the text the last-used prompt. The edit updates the
     * last-used prompt only when the selection is the edited prompt's id,
     * which always holds: the prompt edited is the one the selection
     * designates.
     */
    method EditSelectedPrompt(form: PromptForm) returns (alertTitle: Option<string>)
      modifies this
      ensures Selected(old(prompts), old(selectedPromptId)).None? ==>
                alertTitle == Some("No Prompt Selected") && PromptStoreKept()
      ensures Selected(old(prompts), old(selectedPromptId)).Some? && form.Saved? && form.name != "" ==>
                var i := IndexOfId(old(prompts), old(selectedPromptId).value).value;
                && alertTitle.None?
                && prompts == Rewritten(old(prompts), i, form.name, form.text)
                && lastUsedPrompt == form.text
                && promptsData == Encoded(prompts)
      ensures Selected(old(prompts), old(selectedPromptId)).Some? && !(form.Saved? && form.name != "") ==>
                alertTitle.None? && PromptStoreKept()
      ensures selectedPromptId == old(selectedPromptId)
      ensures old(SelectionValid()) ==> SelectionValid()
      ensures IdsOf(prompts) == IdsOf(old(prompts))
      ensures ConfigKept() && ModeKept() && ProcessingKept()
    {
      var prompt := Selected(prompts, selectedPromptId);
      if prompt.None? {
        return Some("No Prompt Selected");
      }
      alertTitle := None;
      if form.Saved? && form.name != "" {
        var index := IndexOfId(prompts, prompt.value.id);
        if index.Some? {
          RewriteAt(index.value, form.name, form.text);
        }
      }
    }

    /** Rewrite the name and text of the prompt at `index`, make the text the last-used prompt and save the list. */
    method RewriteAt(index: nat, name: string, text: string)
      requires index < |prompts|
      modifies this
      ensures prompts == Rewritten(old(prompts), index, name, text)
      ensures lastUsedPrompt == text && promptsData == Encoded(prompts)
      ensures selectedPromptId == old(selectedPromptId) && IdsOf(prompts) == IdsOf(old(prompts))
      ensures old(SelectionValid()) ==> SelectionValid()
      ensures ConfigKept() && ModeKept() && ProcessingKept()
    {
      var rewritten := Rewritten(prompts, index, name, text);
      prompts := rewritten;
      lastUsedPrompt := text;
      promptsData := Encoded(rewritten);
    }

    /**
     * `deleteSelectedPrompt()`: with no selected prompt, the "No Prompt
     * Selected" alert; with one prompt or fewer, the "Cannot Delete" alert;
     * otherwise, once confirmed, the selected prompt is removed at its first
     * index and the first remaining prompt becomes the selection and the
     * last-used prompt. That happens only when the selection is the deleted
     * prompt's id, which always holds for the same reason as in
     * `EditSelectedPrompt`.
     */
    method DeleteSelectedPrompt(confirmed: bool) returns (alertTitle: Option<string>)
      modifies this
      ensures Selected(old(prompts), old(selectedPromptId)).None? ==>
                alertTitle == Some("No Prompt Selected") && PromptStoreKept()
      ensures Selected(old(prompts), old(selectedPromptId)).Some? && |old(prompts)| <= 1 ==>
                alertTitle == Some("Cannot Delete") && PromptStoreKept()
      ensures Selected(old(prompts), old(selectedPromptId)).Some? && |old(prompts)| > 1 && confirmed ==>
                var i := IndexOfId(old(prompts), old(selectedPromptId).value).value;
                && alertTitle.None?
                && prompts == old(prompts)[..i] + old(prompts)[i + 1..]
                && selectedPromptId == Some(prompts[0].id)
                && lastUsedPrompt == prompts[0].text
                && promptsData == Encoded(prompts)
      ensures Selected(old(prompts), old(selectedPromptId)).Some? && |old(prompts)| > 1 && !confirmed ==>
                alertTitle.None? && PromptStoreKept()
      ensures |old(prompts)| > 0 ==> |prompts| > 0
      ensures old(SelectionValid()) ==> SelectionValid()
      ensures old(UniqueIds(prompts)) ==> UniqueIds(prompts)
      ensures old(UniqueIds(prompts)) && old(SelectionValid()) && confirmed && |old(prompts)| > 1 ==>
                old(selectedPromptId).value !in IdsOf(prompts)
      ensures ConfigKept() && ModeKept() && ProcessingKept()
    {
      var prompt := Selected(prompts, selectedPromptId);
      if prompt.None? {
        return Some("No Prompt Selected");
      }
      if |prompts| <= 1 {
        return Some("Cannot Delete");
      }
      alertTitle := None;
      if confirmed {
        var index := IndexOfId(prompts, prompt.value.id);
        if index.Some? {
          RemoveAndSelectFirst(index.value);
        }
      }
    }

    /** Remove the prompt at `index`, select the first remaining one and save the list. */
    method RemoveAndSelectFirst(index: nat)
      requires |prompts| > 1 && index < |prompts|
      modifies this
      ensures prompts == old(prompts)[..index] + old(prompts)[index + 1..]
      ensures selectedPromptId == Some(prompts[0].id) && lastUsedPrompt == prompts[0].text
      ensures promptsData == Encoded(prompts) && SelectionValid()
      ensures old(UniqueIds(prompts)) ==> UniqueIds(prompts) && old(prompts)[index].id !in IdsOf(prompts)
      ensures ConfigKept() && ModeKept() && ProcessingKept()
    {
      var remaining := prompts[..index] + prompts[index + 1..];
      RemovalKeepsSelectable(prompts, index);
      prompts := remaining;
      selectedPromptId := Some(remaining[0].id);
      lastUsedPrompt := remaining[0].text;
      promptsData := Encoded(remaining);
    }

    /**
     * `checkClipboard()`: acts only when the pasteboard's change count has
     * moved; it then records the new count and captures the pasteboard's
     * text if it is non-empty. Returns whether the "Text Captured"
     * notification is posted (auto mode on, nothing in flight).
     */
    method CheckClipboard(pb: Pasteboard) returns (notified: bool)
      modifies this
      ensures pb.changeCount == old(lastChangeCount) ==>
                lastChangeCount == old(lastChangeCount) && capturedText == old(capturedText) && !notified
      ensures pb.changeCount != old(lastChangeCount) ==> lastChangeCount == pb.changeCount
      ensures pb.changeCount != old(lastChangeCount) && pb.text.Some? && pb.text.value != "" ==>
                capturedText == pb.text.value && (notified <==> isAutoModeEnabled && !isAutoProcessing)
      ensures !(pb.text.Some? && pb.text.value != "") ==> capturedText == old(capturedText) && !notified
      ensures capturedText == old(capturedText) || capturedText != ""
      ensures isAutoProcessing == old(isAutoProcessing) && lastOperationSucceeded == old(lastOperationSucceeded)
      ensures ConfigKept() && ModeKept() && PromptStoreKept()
    {
      notified := false;
      if pb.changeCount != lastChangeCount {
        lastChangeCount := pb.changeCount;
        if pb.text.Some? && pb.text.value != "" {
          capturedText := pb.text.value;
          notified := isAutoModeEnabled && !isAutoProcessing;
        }
      }
    }

    /**
     * The synchronous part of `processClipboardText()`: refuse when the
     * network is down, then when the key is empty, then when there is no
     * text; the captured text is preferred to the pasteboard's, which is
     * captured when used. A sent request marks processing as in flight.
     * Nothing here refuses a second request while one is in flight.
     */
    method ProcessClipboardText(pb: Pasteboard) returns (d: Dispatch)
      modifies this
      ensures !isNetworkAvailable ==> d == Refused("Network Unavailable")
      ensures isNetworkAvailable && apiKey == "" ==> d == Refused("API Key Missing")
      ensures isNetworkAvailable && apiKey != "" && old(capturedText) != "" ==> d == Sent(old(capturedText))
      ensures isNetworkAvailable && apiKey != "" && old(capturedText) == "" && pb.text.Some? && pb.text.value != "" ==>
                d == Sent(pb.text.value) && capturedText == pb.text.value
      ensures isNetworkAvailable && apiKey != "" && old(capturedText) == "" && !(pb.text.Some? && pb.text.value != "") ==>
                d == Refused("No Text Available")
      ensures d.Sent? ==> isAutoProcessing && d.text != "" && capturedText == d.text
      ensures d.Refused? ==> isAutoProcessing == old(isAutoProcessing) && capturedText == old(capturedText)
      ensures lastChangeCount == old(lastChangeCount) && lastOperationSucceeded == old(lastOperationSucceeded)
      ensures ConfigKept() && ModeKept() && PromptStoreKept()
    {
      if !isNetworkAvailable {
        return Refused("Network Unavailable");
      }
      if apiKey == "" {
        return Refused("API Key Missing");
      }
      var textToProcess: string;
      if capturedText != "" {
        textToProcess := capturedText;
      } else if pb.text.Some? && pb.text.value != "" {
        textToProcess := pb.text.value;
        capturedText := pb.text.value;
      } else {
        return Refused("No Text Available");
      }
      isAutoProcessing := true;
      d := Sent(textToProcess);
    }

    /**
     * The completion handler of `processClipboardText()`: processing ends;
     * on success the result replaces the pasteboard, its new change count is
     * remembered (so polling does not capture the app's own write) and the
     * captured text is cleared; on failure only the success flag drops, and
     * the error's description is returned for the alert.
     */
    method CompleteProcessing(result: Result<string, NSError>, pb: Pasteboard) returns (alertMessage: Option<string>)
      modifies this, pb
      ensures !isAutoProcessing
      ensures result.Success? ==>
                && lastOperationSucceeded && pb.text == Some(result.value)
                && pb.changeCount == old(pb.changeCount) + 1
                && lastChangeCount == pb.changeCount && capturedText == "" && alertMessage.None?
      ensures result.Failure? ==>
                && !lastOperationSucceeded && alertMessage == Some(result.error.message)
                && capturedText == old(capturedText) && lastChangeCount == old(lastChangeCount)
                && pb.text == old(pb.text) && pb.changeCount == old(pb.changeCount)
      ensures ConfigKept() && ModeKept() && PromptStoreKept()
    {
      isAutoProcessing := false;
      match result
      case Success(processedText) =>
        lastOperationSucceeded := true;
        pb.Replace(processedText);
        lastChangeCount := pb.changeCount;
        capturedText := "";
        alertMessage := None;
      case Failure(error) =>
        lastOperationSucceeded := false;
        alertMessage := Some(error.message);
    }

    /**
     * The whole action with the exchange given: dispatch, `processWithLLM`
     * with the formatted prompt and the stored configuration, completion.
     * A successful round leaves the pasteboard holding the result and a
     * following poll capturing nothing.
     */
    method ProcessClipboardRound(pb: Pasteboard, exchange: Exchange) returns (d: Dispatch, result: Option<Result<string, NSError>>)
      modifies this, pb
      ensures d.Refused? ==> result.None? && pb.text == old(pb.text) && pb.changeCount == old(pb.changeCount)
      ensures d.Sent? ==>
                result == Some(ProcessWithLLM(Provider(), apiKey, customModel,
                                              FormattedPrompt(prompts, selectedPromptId, lastUsedPrompt),
                                              d.text, exchange).1)
      ensures d.Sent? ==> !isAutoProcessing
      ensures d.Sent? && result.value.Success? ==>
                pb.text == Some(result.value.value) && lastChangeCount == pb.changeCount && capturedText == ""
      ensures d.Sent? && result.value.Failure? ==> !lastOperationSucceeded && capturedText == d.text
      ensures d.Refused? ==> ProcessingKept()
      ensures ConfigKept() && ModeKept() && PromptStoreKept()
    {
      d := ProcessClipboardText(pb);
      if d.Refused? {
        return d, None;
      }
      var r := ProcessWithLLM(Provider(), apiKey, customModel,
                              FormattedPrompt(prompts, selectedPromptId, lastUsedPrompt), d.text, exchange).1;
      var _ := CompleteProcessing(r, pb);
      result := Some(r);
    }
  }

  /**
   * Removing one entry from a list of two or more leaves a first prompt to
   * select; with unique ids, it keeps them unique and drops exactly that id.
   */
  lemma {:induction false} RemovalKeepsSelectable(ps: seq<Prompt>, i: nat)
    requires |ps| > 1 && i < |ps|
    ensures var r := ps[..i] + ps[i + 1..];
            && |r| == |ps| - 1 && Selected(r, Some(r[0].id)).Some?
            && (UniqueIds(ps) ==> UniqueIds(r) && ps[i].id !in IdsOf(r))
  {
    var r := ps[..i] + ps[i + 1..];
    FirstIsFound(r);
    if UniqueIds(ps) {
      RemoveAtKeepsUnique(ps, i);
    }
  }

  /** The first prompt of a non-empty list is found by its id. */
  lemma {:induction false} FirstIsFound(ps: seq<Prompt>)
    requires |ps| > 0
    ensures Selected(ps, Some(ps[0].id)).Some?
  {
    assert ps[0].id in IdsOf(ps);
  }
}
