/**
 * The Windows settings window and its two dialogs. Each event handler is a
 * method called with the control's new value; the window's prompt list, its
 * selection and its button states are fields, the settings it edits live in
 * the shared `SettingsService`.
 */
module WindowsViews {
  import opened Wrappers
  import opened Text
  import opened Prompts
  import opened LLMProviders
  import opened SettingsStore
  import opened WindowsApp

  // ---------------------------------------------------------------------------
  // Prompt dialog

  const MissingNameMessage: string := "Please enter a name for the prompt."
  const MissingTextMessage: string := "Please enter text for the prompt."

  /** `r` is `s` with whitespace cut from both ends, and is neither empty nor padded. */
  predicate IsTrimmedPiece(r: string, s: string) {
    && r != []
    && !IsWhiteSpace(r[0]) && !IsWhiteSpace(r[|r| - 1])
    && exists i, j :: 0 <= i <= j <= |s| && r == s[i..j] && IsBlank(s[..i]) && IsBlank(s[j..])
  }

  /**
   * The checks of the prompt dialog's Save button: a blank name is refused
   * first, then a blank text; accepted input is trimmed.
   */
  function ValidatePromptInput(name: string, text: string): (r: Result<(string, string), string>)
    ensures r.Failure? <==> IsBlank(name) || IsBlank(text)
    ensures IsBlank(name) ==> r == Failure(MissingNameMessage)
    ensures !IsBlank(name) && IsBlank(text) ==> r == Failure(MissingTextMessage)
    ensures r.Success? ==> IsTrimmedPiece(r.value.0, name) && IsTrimmedPiece(r.value.1, text)
  {
    if IsBlank(name) then Failure(MissingNameMessage)
    else if IsBlank(text) then Failure(MissingTextMessage)
    else
      TrimIsTrimmedPiece(name);
      TrimIsTrimmedPiece(text);
      Result.Success((Trim(name), Trim(text)))
  }

  /** A string that is not blank trims to a trimmed piece of itself. */
  lemma {:induction false} TrimIsTrimmedPiece(s: string)
    requires !IsBlank(s)
    ensures IsTrimmedPiece(Trim(s), s)
  {
    TrimSpec(s);
  }

  /** Saving what a dialog accepted, unchanged, is accepted again as it is. */
  lemma {:induction false} RevalidationIsIdentity(name: string, text: string)
    requires ValidatePromptInput(name, text).Success?
    ensures var (n, t) := ValidatePromptInput(name, text).value;
            ValidatePromptInput(n, t) == Result.Success((n, t))
  {
    var (n, t) := ValidatePromptInput(name, text).value;
    TrimOfTrimmed(n);
    TrimOfTrimmed(t);
  }

  /** A non-empty string with no whitespace at either end is blank-free and its own trim. */
  lemma {:induction false} TrimOfTrimmed(s: string)
    requires s != [] && !IsWhiteSpace(s[0]) && !IsWhiteSpace(s[|s| - 1])
    ensures !IsBlank(s) && Trim(s) == s
  {
    assert TrimStart(s) == s;
  }

  /** `PromptDialog`: a name box and a text box, with Save and Cancel. */
  class PromptDialog {
    var title: string
    var nameBox: string
    var textBox: string
    var promptName: Option<string>
    var promptText: Option<string>
    var dialogResult: Option<bool>
    /** The warning last shown, if any. */
    var warning: Option<string>

    /** A dialog closed with Save carries a name and a text. */
    predicate Valid()
      reads this
    {
      dialogResult == Some(true) ==> promptName.Some? && promptText.Some?
    }

    constructor (title: string, promptName: string, promptText: string)
      ensures Valid()
      ensures this.title == title && nameBox == promptName && textBox == promptText
      ensures this.promptName.None? && this.promptText.None? && dialogResult.None? && warning.None?
    {
      this.title := title;
      nameBox := promptName;
      textBox := promptText;
      this.promptName := None;
      this.promptText := None;
      dialogResult := None;
      warning := None;
    }

    /**
     * `SaveButton_Click`: refused input shows its warning and keeps the
     * dialog open; accepted input is stored trimmed and closes it with `true`.
     */
    method Save()
      requires Valid()
      modifies this
      ensures Valid()
      ensures title == old(title) && nameBox == old(nameBox) && textBox == old(textBox)
      ensures var v := ValidatePromptInput(nameBox, textBox);
              && (v.Failure? ==> warning == Some(v.error) && dialogResult == old(dialogResult)
                                 && promptName == old(promptName) && promptText == old(promptText))
              && (v.Success? ==> dialogResult == Some(true) && warning == old(warning)
                                 && promptName == Some(v.value.0) && promptText == Some(v.value.1))
    {
      var v := ValidatePromptInput(nameBox, textBox);
      if v.Failure? {
        warning := Some(v.error);
      } else {
        promptName := Some(v.value.0);
        promptText := Some(v.value.1);
        dialogResult := Some(true);
      }
    }

    /** `CancelButton_Click`. */
    method Cancel()
      modifies this
      ensures dialogResult == Some(false)
      ensures title == old(title) && nameBox == old(nameBox) && textBox == old(textBox)
      ensures promptName == old(promptName) && promptText == old(promptText) && warning == old(warning)
    {
      dialogResult := Some(false);
    }

    /** What the dialog hands back: the trimmed pair when it was closed with Save. */
    function Accepted(): (r: Option<(string, string)>)
      requires Valid()
      reads this
      ensures r.Some? <==> dialogResult == Some(true)
    {
      if dialogResult == Some(true) then Some((promptName.value, promptText.value)) else None
    }
  }

  // ---------------------------------------------------------------------------
  // Hotkey dialog

  /** Keys that only modify: pressed alone they do not make a shortcut. */
  const BareModifierKeys: set<string> :=
    {"LeftCtrl", "RightCtrl", "LeftAlt", "RightAlt", "LeftShift", "RightShift", "LWin", "RWin", "System"}

  const NoShortcutMessage: string := "Please press a key combination for the shortcut."

  /** `HotkeyDialog`: records one key with the modifiers held, shows it, and hands it back. */
  class HotkeyDialog {
    var actionText: string
    var key: Key
    var modifiers: ModifierKeys
    var keySet: bool
    var display: string
    var hotkey: Option<HotkeySettings>
    var dialogResult: Option<bool>
    var warning: Option<string>

    /** A recorded key is what the display shows; a dialog closed with Save carries a hotkey. */
    predicate Valid()
      reads this
    {
      && (keySet ==> display == ShortcutText(key, modifiers))
      && (dialogResult == Some(true) ==> hotkey.Some?)
    }

    constructor (actionName: string, currentHotkey: Option<HotkeySettings>)
      ensures Valid()
      ensures actionText == "Set shortcut for " + actionName
      ensures keySet <==> currentHotkey.Some?
      ensures currentHotkey.Some? ==> key == currentHotkey.value.key && modifiers == currentHotkey.value.modifiers
      ensures hotkey.None? && dialogResult.None? && warning.None?
    {
      actionText := "Set shortcut for " + actionName;
      hotkey := None;
      dialogResult := None;
      warning := None;
      if currentHotkey.Some? {
        key := currentHotkey.value.key;
        modifiers := currentHotkey.value.modifiers;
        keySet := true;
        var shown := GetShortcutText(currentHotkey.value.key, currentHotkey.value.modifiers);
        display := shown;
      } else {
        key := Key("None");
        modifiers := NoModifiers;
        keySet := false;
        display := "";
      }
    }

    /**
     * `HotkeyDialog_PreviewKeyDown`: a bare modifier key is ignored; any
     * other key is recorded with the modifiers held, the display shows it
     * (and reads back as that pair), and the event is handled.
     */
    method PreviewKeyDown(pressed: Key, heldModifiers: ModifierKeys) returns (handled: bool)
      requires Valid()
      modifies this
      ensures Valid()
      ensures handled <==> pressed.name !in BareModifierKeys
      ensures handled ==> key == pressed && modifiers == heldModifiers && keySet
      ensures handled && '+' !in pressed.name ==> ParseShortcut(display) == (pressed, heldModifiers)
      ensures !handled ==> key == old(key) && modifiers == old(modifiers) && keySet == old(keySet)
                           && display == old(display)
      ensures actionText == old(actionText) && hotkey == old(hotkey)
      ensures dialogResult == old(dialogResult) && warning == old(warning)
    {
      if pressed.name in BareModifierKeys {
        return false;
      }
      var shown := GetShortcutText(pressed, heldModifiers);
      if '+' !in pressed.name {
        ShortcutTextRoundTrip(pressed, heldModifiers);
      }
      key := pressed;
      modifiers := heldModifiers;
      keySet := true;
      display := shown;
      handled := true;
    }

    /** `SaveButton_Click`: refused with a warning until a key is recorded; then the hotkey is handed back. */
    method Save()
      requires Valid()
      modifies this
      ensures Valid()
      ensures !keySet ==> warning == Some(NoShortcutMessage) && hotkey == old(hotkey)
                          && dialogResult == old(dialogResult)
      ensures keySet ==> hotkey == Some(HotkeySettings(key, modifiers)) && dialogResult == Some(true)
                         && warning == old(warning)
      ensures key == old(key) && modifiers == old(modifiers) && keySet == old(keySet)
      ensures display == old(display) && actionText == old(actionText)
    {
      if !keySet {
        warning := Some(NoShortcutMessage);
        return;
      }
      hotkey := Some(HotkeySettings(key, modifiers));
      dialogResult := Some(true);
    }

    /** `CancelButton_Click`. */
    method Cancel()
      requires Valid()
      modifies this
      ensures Valid() && dialogResult == Some(false)
      ensures key == old(key) && modifiers == old(modifiers) && keySet == old(keySet)
      ensures display == old(display) && hotkey == old(hotkey) && warning == old(warning)
      ensures actionText == old(actionText)
    {
      dialogResult := Some(false);
    }
  }

  // ---------------------------------------------------------------------------
  // Settings window

  /** The hint under the custom-model box. */
  function ModelHintText(t: ProviderType): string {
    "Leave empty to use the default model (" + DefaultModel(t) + ")"
  }

  /** The provider a position of the provider combo box stands for. */
  function ProviderAt(index: int): (t: ProviderType)
    ensures t == OpenAI <==> index == 0
  {
    if index == 0 then OpenAI else Anthropic
  }

  /** The combo-box position of a stored prompt selection, if it designates a listed prompt. */
  function SelectionIndex(items: seq<Prompt>, selection: Option<Uuid>): (r: Option<nat>)
    ensures r.Some? <==> Selected(items, selection).Some?
    ensures r.Some? ==> r.value < |items| && Selected(items, selection) == Some(items[r.value])
  {
    if selection.None? then None else IndexOfId(items, selection.value)
  }

  class SettingsWindow {
    const store: SettingsService
    var isInitializing: bool
    var providerIndex: int
    var modelHint: string
    var promptTextBox: string
    /** The prompts combo box: its items and selected position. */
    var items: seq<Prompt>
    var selectedIndex: Option<nat>
    var editEnabled: bool
    var deleteEnabled: bool
    var playSoundsEnabled: bool
    var processTextShortcut: string
    var toggleAutoModeShortcut: string

    /** The selected position is one of the items. */
    predicate Valid()
      reads this
    {
      selectedIndex.Some? ==> selectedIndex.value < |items|
    }

    /** The controls outside the prompt list and the prompt box are as they were. */
    twostate predicate ControlsKept()
      reads this
    {
      && isInitializing == old(isInitializing) && providerIndex == old(providerIndex)
      && modelHint == old(modelHint)
      && playSoundsEnabled == old(playSoundsEnabled)
      && processTextShortcut == old(processTextShortcut)
      && toggleAutoModeShortcut == old(toggleAutoModeShortcut)
    }

    /** The prompt list, its selection and its buttons are as they were. */
    twostate predicate PromptListKept()
      reads this
    {
      && items == old(items) && selectedIndex == old(selectedIndex)
      && editEnabled == old(editEnabled) && deleteEnabled == old(deleteEnabled)
    }

    /** The prompt box shows the stored last-used prompt. */
    predicate PromptBoxInSync()
      reads this, store
    {
      promptTextBox == store.GetLastUsedPrompt()
    }

    /** Of the stored settings, at most the prompt selection and the last-used prompt have changed. */
    twostate predicate OnlySelectionStored()
      reads this, store
    {
      store.settings == old(store.settings).(selectedPromptId := store.settings.selectedPromptId,
                                             lastUsedPrompt := store.settings.lastUsedPrompt)
    }

    /**
     * The stored prompt follows the prompt box: a box whose text changed has
     * had the new text stored, and an unchanged box left it alone.
     */
    twostate predicate PromptBoxStored()
      reads this, store
    {
      && (promptTextBox != old(promptTextBox) ==> store.GetLastUsedPrompt() == promptTextBox)
      && (promptTextBox == old(promptTextBox) ==> store.GetLastUsedPrompt() == old(store.GetLastUsedPrompt()))
    }

    /**
     * The constructor with `LoadSettings()`: every control shows the stored
     * value, the stored prompt selection is selected, and nothing is written
     * back while the window initialises.
     */
    constructor (store: SettingsService)
      modifies store
      ensures this.store == store && Valid() && !isInitializing && PromptBoxInSync()
      ensures store.settings == old(store.settings) && store.file == old(store.file)
      ensures providerIndex == (if store.GetSelectedProvider() == OpenAI then 0 else 1)
      ensures ProviderAt(providerIndex) == store.GetSelectedProvider()
      ensures modelHint == ModelHintText(store.GetSelectedProvider())
      ensures promptTextBox == store.GetLastUsedPrompt()
      ensures items == store.GetPrompts()
      ensures selectedIndex == SelectionIndex(items, store.GetSelectedPromptId())
      ensures editEnabled == selectedIndex.Some? && deleteEnabled == selectedIndex.Some?
      ensures playSoundsEnabled == store.GetShowNotifications()
      ensures processTextShortcut == ShortcutText(store.GetProcessTextHotkey().key, store.GetProcessTextHotkey().modifiers)
      ensures toggleAutoModeShortcut == ShortcutText(store.GetToggleAutoModeHotkey().key, store.GetToggleAutoModeHotkey().modifiers)
    {
      this.store := store;
      isInitializing := true;
      providerIndex := if store.GetSelectedProvider() == OpenAI then 0 else 1;
      modelHint := ModelHintText(store.GetSelectedProvider());
      promptTextBox := store.GetLastUsedPrompt();
      items := [];
      selectedIndex := None;
      editEnabled := false;
      deleteEnabled := false;
      playSoundsEnabled := store.GetShowNotifications();
      processTextShortcut := "";
      toggleAutoModeShortcut := "";
      new;
      LoadPrompts();
      UpdateShortcutTexts();
      isInitializing := false;
    }

    /** The first position in the combo box holding a prompt with `id`, by a scan that stops at the first hit. */
    method FindItem(id: Uuid) returns (index: Option<nat>)
      ensures index == IndexOfId(items, id)
    {
      var i := 0;
      while i < |items|
        invariant 0 <= i <= |items|
        invariant forall k :: 0 <= k < i ==> items[k].id != id
      {
        if items[i].id == id {
          assert IndexOfId(items, id) == Some(i) by {
            assert items[i].id in IdsOf(items);
          }
          return Some(i);
        }
        i := i + 1;
      }
      assert id !in IdsOf(items);
      return None;
    }

    /**
     * `LoadPrompts()`: `Items.Clear()` drops a selection the combo box held,
     * which raises `PromptsComboBox_SelectionChanged` and so clears the stored
     * selection once the window is up; the box then lists the stored prompts,
     * selects the stored selection when it designates one of them (raising
     * the handler again), and enables Edit and Delete exactly when something
     * is selected.
     */
    method LoadPrompts()
      modifies this, store
      ensures Valid()
      ensures items == store.GetPrompts() && store.GetPrompts() == old(store.GetPrompts())
      ensures store.GetSelectedPromptId() ==
                if !old(isInitializing) && old(selectedIndex).Some? then None else old(store.GetSelectedPromptId())
      ensures selectedIndex == SelectionIndex(items, store.GetSelectedPromptId())
      ensures editEnabled == selectedIndex.Some? && deleteEnabled == selectedIndex.Some?
      ensures promptTextBox ==
                if !old(isInitializing) && selectedIndex.Some? then items[selectedIndex.value].text else old(promptTextBox)
      ensures old(isInitializing) ==> store.settings == old(store.settings) && store.file == old(store.file)
      ensures OnlySelectionStored() && PromptBoxStored()
      ensures old(store.Saved()) ==> store.Saved()
      ensures ControlsKept()
    {
      ClearItems();
      FillItems();
    }

    /**
     * `PromptsComboBox.Items.Clear()`: the list empties, and a selection it
     * held is dropped with `PromptsComboBox_SelectionChanged` raised.
     */
    method ClearItems()
      modifies this, store
      ensures items == [] && selectedIndex.None?
      ensures store.GetPrompts() == old(store.GetPrompts())
      ensures store.GetSelectedPromptId() ==
                if !old(isInitializing) && old(selectedIndex).Some? then None else old(store.GetSelectedPromptId())
      ensures old(isInitializing) || old(selectedIndex).None? ==>
                store.settings == old(store.settings) && store.file == old(store.file)
      ensures promptTextBox == old(promptTextBox) && store.GetLastUsedPrompt() == old(store.GetLastUsedPrompt())
      ensures OnlySelectionStored()
      ensures old(store.Saved()) ==> store.Saved()
      ensures ControlsKept()
    {
      var hadSelection := selectedIndex.Some?;
      items := [];
      selectedIndex := None;
      if hadSelection {
        PromptsSelectionChanged(None);
      }
    }

    /**
     * The rest of `LoadPrompts()` on an emptied combo box: the stored prompts
     * become its items, the stored selection is selected when it designates
     * one of them, and the buttons follow.
     */
    method FillItems()
      requires selectedIndex.None?
      modifies this, store
      ensures Valid()
      ensures items == store.GetPrompts() && store.GetPrompts() == old(store.GetPrompts())
      ensures store.GetSelectedPromptId() == old(store.GetSelectedPromptId())
      ensures selectedIndex == SelectionIndex(items, store.GetSelectedPromptId())
      ensures editEnabled == selectedIndex.Some? && deleteEnabled == selectedIndex.Some?
      ensures promptTextBox ==
                if !old(isInitializing) && selectedIndex.Some? then items[selectedIndex.value].text else old(promptTextBox)
      ensures old(isInitializing) || selectedIndex.None? ==>
                store.settings == old(store.settings) && store.file == old(store.file)
      ensures OnlySelectionStored() && PromptBoxStored()
      ensures old(store.Saved()) ==> store.Saved()
      ensures ControlsKept()
    {
      items := store.GetPrompts();
      var selectedPromptId := store.GetSelectedPromptId();
      var found := None;
      if selectedPromptId.Some? {
        found := FindItem(selectedPromptId.value);
      }
      assert found == SelectionIndex(items, selectedPromptId);
      if found.Some? {
        PromptsSelectionChanged(found);
      }
      editEnabled := selectedIndex.Some?;
      deleteEnabled := selectedIndex.Some?;
    }

    /** `UpdateShortcutTexts()`: both shortcut boxes show their stored hotkeys. */
    method UpdateShortcutTexts()
      modifies this
      ensures processTextShortcut == ShortcutText(store.GetProcessTextHotkey().key, store.GetProcessTextHotkey().modifiers)
      ensures toggleAutoModeShortcut == ShortcutText(store.GetToggleAutoModeHotkey().key, store.GetToggleAutoModeHotkey().modifiers)
      ensures isInitializing == old(isInitializing) && providerIndex == old(providerIndex)
      ensures modelHint == old(modelHint) && promptTextBox == old(promptTextBox)
      ensures playSoundsEnabled == old(playSoundsEnabled)
      ensures PromptListKept()
    {
      var processTextHotkey := store.GetProcessTextHotkey();
      processTextShortcut := GetShortcutText(processTextHotkey.key, processTextHotkey.modifiers);
      var toggleAutoModeHotkey := store.GetToggleAutoModeHotkey();
      toggleAutoModeShortcut := GetShortcutText(toggleAutoModeHotkey.key, toggleAutoModeHotkey.modifiers);
    }

    /** `ProviderComboBox_SelectionChanged`: position 0 stores OpenAI, any other Anthropic, and the hint follows. */
    method ProviderSelectionChanged(index: int)
      modifies this, store
      ensures providerIndex == index
      ensures old(isInitializing) ==> store.settings == old(store.settings) && modelHint == old(modelHint)
      ensures !old(isInitializing) ==>
                store.settings == old(store.settings).(selectedProvider := ProviderAt(index)) && store.Saved()
                && modelHint == ModelHintText(ProviderAt(index))
      ensures isInitializing == old(isInitializing) && promptTextBox == old(promptTextBox)
      ensures playSoundsEnabled == old(playSoundsEnabled) && PromptListKept()
      ensures processTextShortcut == old(processTextShortcut) && toggleAutoModeShortcut == old(toggleAutoModeShortcut)
    {
      providerIndex := index;
      if isInitializing {
        return;
      }
      var providerType := if index == 0 then OpenAI else Anthropic;
      store.SetSelectedProvider(providerType);
      modelHint := ModelHintText(store.GetSelectedProvider());
    }

    /** `ApiKeyPasswordBox_PasswordChanged`. */
    method ApiKeyChanged(password: string)
      modifies store
      ensures old(isInitializing) ==> store.settings == old(store.settings)
      ensures !old(isInitializing) ==> store.settings == old(store.settings).(apiKey := password) && store.Saved()
    {
      if isInitializing {
        return;
      }
      store.SetApiKey(password);
    }

    /** `CustomModelTextBox_TextChanged`. */
    method CustomModelChanged(text: string)
      modifies store
      ensures old(isInitializing) ==> store.settings == old(store.settings)
      ensures !old(isInitializing) ==> store.settings == old(store.settings).(customModel := text) && store.Saved()
    {
      if isInitializing {
        return;
      }
      store.SetCustomModel(text);
    }

    /** `PromptTextBox_TextChanged`: the box's text becomes the last used prompt. */
    method PromptTextChanged(text: string)
      modifies this, store
      ensures promptTextBox == text
      ensures old(isInitializing) ==> store.settings == old(store.settings)
      ensures !old(isInitializing) ==> store.settings == old(store.settings).(lastUsedPrompt := text) && store.Saved()
      ensures isInitializing == old(isInitializing) && providerIndex == old(providerIndex)
      ensures modelHint == old(modelHint) && playSoundsEnabled == old(playSoundsEnabled) && PromptListKept()
      ensures processTextShortcut == old(processTextShortcut) && toggleAutoModeShortcut == old(toggleAutoModeShortcut)
    {
      promptTextBox := text;
      if isInitializing {
        return;
      }
      store.SetLastUsedPrompt(text);
    }

    /**
     * `PromptsComboBox_SelectionChanged`: a selected prompt becomes the
     * stored selection and fills the prompt box, which raises
     * `PromptTextBox_TextChanged` when the text differs and so stores it as
     * the last-used prompt; no selection clears the stored one; Edit and
     * Delete follow the selection.
     */
    method PromptsSelectionChanged(index: Option<nat>)
      requires Valid()
      requires index.Some? ==> index.value < |items|
      modifies this, store
      ensures Valid() && items == old(items) && selectedIndex == index
      ensures old(isInitializing) ==> store.settings == old(store.settings) && store.file == old(store.file)
                                      && editEnabled == old(editEnabled) && deleteEnabled == old(deleteEnabled)
                                      && promptTextBox == old(promptTextBox)
      ensures !old(isInitializing) ==>
                && editEnabled == index.Some? && deleteEnabled == index.Some? && store.Saved()
                && store.GetSelectedPromptId() == (if index.Some? then Some(items[index.value].id) else None)
                && promptTextBox == (if index.Some? then items[index.value].text else old(promptTextBox))
                && (index.Some? ==> Selected(items, store.GetSelectedPromptId()).Some?)
      ensures OnlySelectionStored() && PromptBoxStored()
      ensures old(store.Saved()) ==> store.Saved()
      ensures old(PromptBoxInSync()) ==> PromptBoxInSync()
      ensures ControlsKept()
    {
      selectedIndex := index;
      if isInitializing {
        return;
      }
      if index.Some? {
        var selectedPrompt := items[index.value];
        store.SetSelectedPromptId(Some(selectedPrompt.id));
        if selectedPrompt.text != promptTextBox {
          PromptTextChanged(selectedPrompt.text);
        }
        assert selectedPrompt.id in IdsOf(items);
      } else {
        store.SetSelectedPromptId(None);
      }
      editEnabled := index.Some?;
      deleteEnabled := index.Some?;
    }

    /** `ShowNotificationsCheckBox_CheckChanged`: the sounds box is usable only with notifications on. */
    method ShowNotificationsChanged(checked: bool)
      modifies this, store
      ensures old(isInitializing) ==> store.settings == old(store.settings) && playSoundsEnabled == old(playSoundsEnabled)
      ensures !old(isInitializing) ==>
                store.settings == old(store.settings).(showNotifications := checked) && store.Saved()
                && playSoundsEnabled == checked
      ensures isInitializing == old(isInitializing) && providerIndex == old(providerIndex)
      ensures modelHint == old(modelHint) && promptTextBox == old(promptTextBox) && PromptListKept()
      ensures processTextShortcut == old(processTextShortcut) && toggleAutoModeShortcut == old(toggleAutoModeShortcut)
    {
      if isInitializing {
        return;
      }
      store.SetShowNotifications(checked);
      playSoundsEnabled := checked;
    }

    /** `PlaySoundsCheckBox_CheckChanged`. */
    method PlaySoundsChanged(checked: bool)
      modifies store
      ensures old(isInitializing) ==> store.settings == old(store.settings)
      ensures !old(isInitializing) ==>
                store.settings == old(store.settings).(playNotificationSounds := checked) && store.Saved()
    {
      if isInitializing {
        return;
      }
      store.SetPlayNotificationSounds(checked);
    }

    /** `StartWithWindowsCheckBox_CheckChanged` (the registry entry it maintains is outside the model). */
    method StartWithWindowsChanged(checked: bool)
      modifies store
      ensures old(isInitializing) ==> store.settings == old(store.settings)
      ensures !old(isInitializing) ==>
                store.settings == old(store.settings).(startWithWindows := checked) && store.Saved()
    {
      if isInitializing {
        return;
      }
      store.SetStartWithWindows(checked);
    }

    /**
     * `AutoModeCheckBox_CheckChanged` as written: it stores the box's state
     * and then calls `App.ToggleAutoMode`, which reads that state back and
     * stores its negation. The flag, and the monitor with it, end up opposite
     * to the box.
     */
    method AutoModeCheckChanged(checked: bool, app: TrayApp) returns (toast: Option<Toast>)
      requires app.store == store && app.monitor.Valid()
      modifies store, app, app.monitor
      ensures app.monitor.Valid()
      ensures old(isInitializing) ==> store.settings == old(store.settings) && toast.None?
      ensures !old(isInitializing) ==>
                && store.GetAutoModeEnabled() == !checked && store.Saved()
                && store.settings == old(store.settings).(autoModeEnabled := !checked)
                && (checked ==> !app.monitor.isMonitoring && toast == Some(Toast("Auto Mode disabled", Info)))
                && (!checked ==> toast == Some(Toast("Auto Mode enabled", Info)))
                && (old(app.AutoModeInSync()) ==> app.AutoModeInSync())
    {
      if isInitializing {
        return None;
      }
      var enabled := checked;
      store.SetAutoModeEnabled(enabled);
      var shown := app.ToggleAutoMode();
      toast := Some(shown);
    }

    /**
     * The evidently intended `AutoModeCheckBox_CheckChanged`: auto mode ends
     * up as the box shows it, with the monitor running exactly when it is on,
     * by toggling only when the stored flag differs from the box.
     */
    method AutoModeCheckChangedIntended(checked: bool, app: TrayApp) returns (toast: Option<Toast>)
      requires app.store == store && app.monitor.Valid() && app.AutoModeInSync()
      modifies store, app, app.monitor
      ensures app.monitor.Valid() && app.AutoModeInSync()
      ensures old(isInitializing) ==> store.settings == old(store.settings) && toast.None?
      ensures !old(isInitializing) ==>
                && store.GetAutoModeEnabled() == checked
                && store.settings == old(store.settings).(autoModeEnabled := checked)
                && (checked ==> app.monitor.isMonitoring == app.monitor.hasWindowSource)
                && (!checked ==> !app.monitor.isMonitoring)
                && (old(store.GetAutoModeEnabled()) != checked ==>
                      store.Saved() && toast == Some(Toast(if checked then "Auto Mode enabled" else "Auto Mode disabled", Info)))
    {
      if isInitializing {
        return None;
      }
      toast := None;
      if store.GetAutoModeEnabled() != checked {
        var shown := app.ToggleAutoMode();
        toast := Some(shown);
      }
    }

    /**
     * `SetProcessTextShortcut_Click` with its dialog callback: a hotkey
     * handed back by the dialog is stored and shown (re-registering it with
     * the system is outside the model).
     */
    method ProcessTextShortcutChosen(dialog: HotkeyDialog)
      requires dialog.Valid()
      modifies this, store
      ensures dialog.dialogResult != Some(true) ==> store.settings == old(store.settings)
                                                    && processTextShortcut == old(processTextShortcut)
      ensures dialog.dialogResult == Some(true) ==>
                store.settings == old(store.settings).(processTextHotkey := dialog.hotkey.value) && store.Saved()
                && processTextShortcut == ShortcutText(dialog.hotkey.value.key, dialog.hotkey.value.modifiers)
      ensures isInitializing == old(isInitializing) && providerIndex == old(providerIndex)
      ensures modelHint == old(modelHint) && promptTextBox == old(promptTextBox)
      ensures playSoundsEnabled == old(playSoundsEnabled) && PromptListKept()
    {
      if dialog.dialogResult == Some(true) {
        store.SetProcessTextHotkey(dialog.hotkey.value);
        UpdateShortcutTexts();
      }
    }

    /** `SetToggleAutoModeShortcut_Click` with its dialog callback. */
    method ToggleAutoModeShortcutChosen(dialog: HotkeyDialog)
      requires dialog.Valid()
      modifies this, store
      ensures dialog.dialogResult != Some(true) ==> store.settings == old(store.settings)
                                                    && toggleAutoModeShortcut == old(toggleAutoModeShortcut)
      ensures dialog.dialogResult == Some(true) ==>
                store.settings == old(store.settings).(toggleAutoModeHotkey := dialog.hotkey.value) && store.Saved()
                && toggleAutoModeShortcut == ShortcutText(dialog.hotkey.value.key, dialog.hotkey.value.modifiers)
      ensures isInitializing == old(isInitializing) && providerIndex == old(providerIndex)
      ensures modelHint == old(modelHint) && promptTextBox == old(promptTextBox)
      ensures playSoundsEnabled == old(playSoundsEnabled) && PromptListKept()
    {
      if dialog.dialogResult == Some(true) {
        store.SetToggleAutoModeHotkey(dialog.hotkey.value);
        UpdateShortcutTexts();
      }
    }

    /**
     * `NewPromptButton_Click`: a prompt accepted by the dialog is appended
     * under a new id (`freshId`) and the list reloaded; selecting the new
     * prompt, now last, raises `PromptsComboBox_SelectionChanged`, so it
     * becomes the stored selection and fills the prompt box.
     */
    method NewPromptClicked(dialog: PromptDialog, freshId: Uuid)
      requires Valid() && dialog.Valid()
      requires freshId !in IdsOf(store.GetPrompts())
      modifies this, store
      ensures Valid() && ControlsKept()
      ensures old(PromptBoxInSync()) ==> PromptBoxInSync()
      ensures dialog.Accepted().None? ==>
                store.settings == old(store.settings) && store.file == old(store.file)
                && PromptListKept() && promptTextBox == old(promptTextBox)
      ensures dialog.Accepted().Some? ==>
                var (name, text) := dialog.Accepted().value;
                && store.settings == old(store.settings).(prompts := old(store.GetPrompts()) + [Prompt(freshId, name, text)],
                                                          selectedPromptId := store.settings.selectedPromptId,
                                                          lastUsedPrompt := store.settings.lastUsedPrompt)
                && store.Saved()
                && items == store.GetPrompts()
                && selectedIndex == Some(|items| - 1) && items[|items| - 1].id == freshId
                && (!old(isInitializing) ==>
                      && store.GetSelectedPromptId() == Some(freshId)
                      && promptTextBox == text && editEnabled && deleteEnabled
                      && (old(PromptBoxInSync()) ==> store.GetLastUsedPrompt() == text))
    {
      if dialog.dialogResult != Some(true) {
        return;
      }
      var prompt := NewPrompt(store.GetPrompts(), freshId, dialog.promptName.value, dialog.promptText.value);
      var prompts := store.GetPrompts();
      AppendedIsFound(prompts, prompt);
      prompts := prompts + [prompt];
      store.SetPrompts(prompts);
      ReloadSelecting(prompt.id);
    }

    /**
     * `LoadPrompts()` followed by selecting the stored prompt with id `id`,
     * which raises `PromptsComboBox_SelectionChanged` unless the reload
     * already selected it.
     */
    method ReloadSelecting(id: Uuid)
      requires id in IdsOf(store.GetPrompts())
      modifies this, store
      ensures Valid() && ControlsKept()
      ensures items == store.GetPrompts() && store.GetPrompts() == old(store.GetPrompts())
      ensures selectedIndex == IndexOfId(items, id) && selectedIndex.Some?
      ensures old(isInitializing) ==>
                store.settings == old(store.settings) && store.file == old(store.file) && promptTextBox == old(promptTextBox)
      ensures !old(isInitializing) ==>
                && store.GetSelectedPromptId() == Some(id)
                && promptTextBox == items[selectedIndex.value].text && editEnabled && deleteEnabled
      ensures OnlySelectionStored() && (old(PromptBoxInSync()) ==> PromptBoxInSync())
      ensures old(store.Saved()) ==> store.Saved()
    {
      LoadPrompts();
      var found := FindItem(id);
      if found != selectedIndex {
        PromptsSelectionChanged(found);
      }
    }

    /**
     * `EditPromptButton_Click`: with a prompt selected and the dialog
     * accepted, the stored prompt with that id gets the new name and text in
     * place and the list is reloaded, which clears the selection; re-selecting
     * the prompt raises `PromptsComboBox_SelectionChanged`, so it is stored as
     * the selection again and its new text fills the prompt box. With no
     * selection, a cancelled dialog or the id no longer stored, nothing
     * changes.
     */
    method EditPromptClicked(dialog: PromptDialog)
      requires Valid() && dialog.Valid()
      modifies this, store
      ensures Valid() && ControlsKept()
      ensures old(PromptBoxInSync()) ==> PromptBoxInSync()
      ensures old(selectedIndex).None? || dialog.Accepted().None? ==>
                store.settings == old(store.settings) && store.file == old(store.file)
                && PromptListKept() && promptTextBox == old(promptTextBox)
      ensures old(selectedIndex).Some? && dialog.Accepted().Some? ==>
                var selected := old(items)[old(selectedIndex).value];
                var (name, text) := dialog.Accepted().value;
                match IndexOfId(old(store.GetPrompts()), selected.id)
                case None =>
                  store.settings == old(store.settings) && store.file == old(store.file)
                  && PromptListKept() && promptTextBox == old(promptTextBox)
                case Some(i) =>
                  && store.settings == old(store.settings).(prompts := Rewritten(old(store.GetPrompts()), i, name, text),
                                                            selectedPromptId := store.settings.selectedPromptId,
                                                            lastUsedPrompt := store.settings.lastUsedPrompt)
                  && store.Saved()
                  && items == store.GetPrompts()
                  && selectedIndex == Some(i) && items[i] == Prompt(selected.id, name, text)
                  && (!old(isInitializing) ==>
                        && store.GetSelectedPromptId() == Some(selected.id)
                        && promptTextBox == text && editEnabled && deleteEnabled
                        && (old(PromptBoxInSync()) ==> store.GetLastUsedPrompt() == text))
    {
      if selectedIndex.None? {
        return;
      }
      var selectedPrompt := items[selectedIndex.value];
      if dialog.dialogResult != Some(true) {
        return;
      }
      var prompts := store.GetPrompts();
      var index := IndexOfId(prompts, selectedPrompt.id);
      if index.Some? {
        prompts := Rewritten(prompts, index.value, dialog.promptName.value, dialog.promptText.value);
        store.SetPrompts(prompts);
        SameIdsSameIndex(old(store.GetPrompts()), prompts, selectedPrompt.id);
        ReloadSelecting(selectedPrompt.id);
      }
    }

    /**
     * `DeletePromptButton_Click`: once confirmed, every stored prompt with
     * the selected prompt's id is removed, the stored selection is cleared
     * when it was that id, and the list is reloaded; the reload's
     * `Items.Clear()` drops the combo box's selection, which clears the
     * stored selection in any case and leaves nothing selected.
     */
    method DeletePromptClicked(confirmed: bool)
      requires Valid()
      modifies this, store
      ensures Valid() && ControlsKept() && promptTextBox == old(promptTextBox)
      ensures old(selectedIndex).None? || !confirmed ==>
                store.settings == old(store.settings) && store.file == old(store.file) && PromptListKept()
      ensures old(selectedIndex).Some? && confirmed ==>
                var deleted := old(items)[old(selectedIndex).value].id;
                var kept := if old(store.GetSelectedPromptId()) == Some(deleted) then None
                            else old(store.GetSelectedPromptId());
                && store.settings == old(store.settings).(prompts := RemoveAllId(old(store.GetPrompts()), deleted),
                                                          selectedPromptId := store.settings.selectedPromptId)
                && store.Saved()
                && deleted !in IdsOf(items)
                && items == store.GetPrompts()
                && selectedIndex == SelectionIndex(items, store.GetSelectedPromptId())
                && editEnabled == selectedIndex.Some? && deleteEnabled == selectedIndex.Some?
                && (!old(isInitializing) ==> store.GetSelectedPromptId().None? && selectedIndex.None?)
                && (old(isInitializing) ==> store.GetSelectedPromptId() == kept)
    {
      if selectedIndex.None? {
        return;
      }
      var selectedPrompt := items[selectedIndex.value];
      if !confirmed {
        return;
      }
      var prompts := store.GetPrompts();
      prompts := RemoveAllId(prompts, selectedPrompt.id);
      store.SetPrompts(prompts);
      if store.GetSelectedPromptId() == Some(selectedPrompt.id) {
        store.SetSelectedPromptId(None);
      }
      LoadPrompts();
    }
  }

  /** Lists with the same ids position by position give the same first index for every id. */
  lemma {:induction false} SameIdsSameIndex(a: seq<Prompt>, b: seq<Prompt>, id: Uuid)
    requires |a| == |b| && forall j :: 0 <= j < |a| ==> a[j].id == b[j].id
    ensures IndexOfId(a, id) == IndexOfId(b, id)
    decreases |a|
  {
    if |a| > 0 {
      SameIdsSameIndex(a[1..], b[1..], id);
    }
  }
}
