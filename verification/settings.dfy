/**
 * The Windows settings service: the persisted `Settings` record, its default
 * value, the load fallback, the single-field setters and getters, and the
 * shortcut-text formatting shared by the tray menu and the hotkey dialog.
 */
module SettingsStore {
  import opened Wrappers
  import opened Text
  import opened Prompts
  import opened LLMProviders

  /** A WPF `Key`, known by its enum name (`Key.ToString()`), never empty. */
  type KeyName = s: string | |s| > 0 witness "A"

  datatype Key = Key(name: KeyName)

  /** WPF `ModifierKeys` flags: Alt = 1, Control = 2, Shift = 4, Windows = 8. */
  type ModifierKeys = bv4

  const NoModifiers: ModifierKeys := 0
  const Alt: ModifierKeys := 1
  const Control: ModifierKeys := 2
  const Shift: ModifierKeys := 4
  const Windows: ModifierKeys := 8

  datatype HotkeySettings = HotkeySettings(key: Key, modifiers: ModifierKeys)

  /** The `Settings` record as it is stored in `settings.json`. */
  datatype Settings = Settings(
    apiKey: string,
    selectedProvider: ProviderType,
    customModel: string,
    lastUsedPrompt: string,
    showNotifications: bool,
    playNotificationSounds: bool,
    autoModeEnabled: bool,
    processTextHotkey: HotkeySettings,
    toggleAutoModeHotkey: HotkeySettings,
    prompts: seq<Prompt>,
    selectedPromptId: Option<Uuid>,
    startWithWindows: bool)

  // ---------------------------------------------------------------------------
  // Shortcut text

  /** The modifiers in display order, each with its prefix. */
  const PrefixOrder: seq<(ModifierKeys, string)> :=
    [(Control, "Ctrl+"), (Alt, "Alt+"), (Shift, "Shift+"), (Windows, "Win+")]

  /** The prefixes of the flags set in `modifiers`, from position `i` of the display order on. */
  function PrefixesFrom(modifiers: ModifierKeys, i: nat): string
    requires i <= |PrefixOrder|
    decreases |PrefixOrder| - i
  {
    if i == |PrefixOrder| then ""
    else
      (if modifiers & PrefixOrder[i].0 == PrefixOrder[i].0 then PrefixOrder[i].1 else "")
      + PrefixesFrom(modifiers, i + 1)
  }

  /** The display form of a shortcut: the set modifiers' prefixes in display order, then the key. */
  function ShortcutText(key: Key, modifiers: ModifierKeys): (r: string)
    ensures EndsWith(r, key.name)
  {
    PrefixesFrom(modifiers, 0) + key.name
  }

  /** `SettingsService.GetShortcutText(key, modifiers)`. */
  method GetShortcutText(key: Key, modifiers: ModifierKeys) returns (result: string)
    ensures result == ShortcutText(key, modifiers)
  {
    PrefixesSpelledOut(modifiers);
    ghost var c := if modifiers & Control == Control then "Ctrl+" else "";
    ghost var a := if modifiers & Alt == Alt then "Alt+" else "";
    ghost var sh := if modifiers & Shift == Shift then "Shift+" else "";
    ghost var w := if modifiers & Windows == Windows then "Win+" else "";
    result := "";
    if modifiers & Control == Control {
      result := result + "Ctrl+";
    }
    assert result == c;
    if modifiers & Alt == Alt {
      result := result + "Alt+";
    }
    assert result == c + a;
    if modifiers & Shift == Shift {
      result := result + "Shift+";
    }
    assert result == c + a + sh;
    if modifiers & Windows == Windows {
      result := result + "Win+";
    }
    assert result == c + a + sh + w;
    result := result + key.name;
  }

  /** The display order written out flag by flag. */
  lemma {:induction false} PrefixesSpelledOut(m: ModifierKeys)
    ensures PrefixesFrom(m, 0)
            == (if m & Control == Control then "Ctrl+" else "") + (if m & Alt == Alt then "Alt+" else "")
               + (if m & Shift == Shift then "Shift+" else "") + (if m & Windows == Windows then "Win+" else "")
  {
    assert PrefixesFrom(m, 4) == "";
  }

  /** Reads a shortcut text back: the known prefixes in display order, then the key name. */
  function ParseShortcut(s: string): (r: (Key, ModifierKeys))
    requires |s| > 0
    ensures EndsWith(s, r.0.name)
  {
    var (rest1, c) := StripPrefix(s, "Ctrl+");
    var (rest2, a) := StripPrefix(rest1, "Alt+");
    var (rest3, sh) := StripPrefix(rest2, "Shift+");
    var (rest4, w) := StripPrefix(rest3, "Win+");
    StripPrefixLeavesSuffix(s, "Ctrl+");
    StripPrefixLeavesSuffix(rest1, "Alt+");
    StripPrefixLeavesSuffix(rest2, "Shift+");
    StripPrefixLeavesSuffix(rest3, "Win+");
    EndsWithTransitive(s, rest1, rest2);
    EndsWithTransitive(s, rest2, rest3);
    EndsWithTransitive(s, rest3, rest4);
    assert EndsWith(s, s);
    var mods := (if c then Control else 0) | (if a then Alt else 0)
                | (if sh then Shift else 0) | (if w then Windows else 0);
    (if |rest4| > 0 then Key(rest4) else Key(s), mods)
  }

  function StripPrefix(s: string, prefix: string): (string, bool) {
    if StartsWith(s, prefix) then (s[|prefix|..], true) else (s, false)
  }

  lemma {:induction false} StripPrefixLeavesSuffix(s: string, prefix: string)
    ensures EndsWith(s, StripPrefix(s, prefix).0)
  {
  }

  /**
   * A shortcut text determines its shortcut: reading it back gives the key
   * and exactly the modifier flags it was built from. Key names contain no
   * '+', so a prefix is present iff its flag is set.
   */
  lemma {:induction false} ShortcutTextRoundTrip(key: Key, modifiers: ModifierKeys)
    requires '+' !in key.name
    ensures ParseShortcut(ShortcutText(key, modifiers)) == (key, modifiers)
  {
    PrefixesSpelledOut(modifiers);
    ParseSpelledOut(key.name, modifiers & Control == Control, modifiers & Alt == Alt,
                    modifiers & Shift == Shift, modifiers & Windows == Windows);
    FlagsRecompose(modifiers);
  }

  /** Reading back a text built from the four optional prefixes and a key name without '+'. */
  lemma {:induction false} ParseSpelledOut(name: KeyName, c: bool, a: bool, sh: bool, w: bool)
    requires '+' !in name
    ensures ParseShortcut((if c then "Ctrl+" else "") + (if a then "Alt+" else "")
                          + (if sh then "Shift+" else "") + (if w then "Win+" else "") + name)
            == (Key(name), (if c then Control else 0) | (if a then Alt else 0)
                           | (if sh then Shift else 0) | (if w then Windows else 0))
  {
    var t3 := (if w then "Win+" else "") + name;
    var t2 := (if sh then "Shift+" else "") + t3;
    var t1 := (if a then "Alt+" else "") + t2;
    var t0 := (if c then "Ctrl+" else "") + t1;
    assert (if c then "Ctrl+" else "") + (if a then "Alt+" else "")
           + (if sh then "Shift+" else "") + (if w then "Win+" else "") + name == t0;
    NoPlusPrefix(name, "Win+");
    NoPlusPrefix(name, "Shift+");
    NoPlusPrefix(name, "Alt+");
    NoPlusPrefix(name, "Ctrl+");
    OtherPrefixFirst(if w then "Win+" else "", name, "Shift+");
    OtherPrefixFirst(if w then "Win+" else "", name, "Alt+");
    OtherPrefixFirst(if w then "Win+" else "", name, "Ctrl+");
    OtherPrefixFirst(if sh then "Shift+" else "", t3, "Alt+");
    OtherPrefixFirst(if sh then "Shift+" else "", t3, "Ctrl+");
    OtherPrefixFirst(if a then "Alt+" else "", t2, "Ctrl+");
    StripPresent(t0, t1, c, "Ctrl+");
    StripPresent(t1, t2, a, "Alt+");
    StripPresent(t2, t3, sh, "Shift+");
    StripPresent(t3, name, w, "Win+");
  }

  /** Stripping the prefix that may have been put in front of `rest`. */
  lemma {:induction false} StripPresent(t: string, rest: string, present: bool, prefix: string)
    requires |prefix| > 0
    requires t == (if present then prefix else "") + rest
    requires !StartsWith(rest, prefix)
    ensures StripPrefix(t, prefix) == (rest, present)
  {
    if present {
      assert StartsWith(t, prefix);
      assert t[|prefix|..] == rest;
    } else {
      assert t == rest;
    }
  }

  /** Putting in front of `rest` nothing, or a piece that starts differently, does not create `prefix`. */
  lemma {:induction false} OtherPrefixFirst(front: string, rest: string, prefix: string)
    requires |prefix| > 0 && !StartsWith(rest, prefix)
    requires front == [] || front[0] != prefix[0]
    ensures !StartsWith(front + rest, prefix)
  {
    if front == [] {
      assert front + rest == rest;
    } else if |prefix| <= |front + rest| {
      assert (front + rest)[..|prefix|][0] == front[0];
    }
  }

  /** A string without '+' starts with no prefix ending in '+'. */
  lemma {:induction false} NoPlusPrefix(name: string, prefix: string)
    requires '+' !in name && |prefix| > 0 && prefix[|prefix| - 1] == '+'
    ensures !StartsWith(name, prefix)
  {
    if |prefix| <= |name| {
      assert name[..|prefix|][|prefix| - 1] == name[|prefix| - 1];
    }
  }

  lemma {:induction false} FlagsRecompose(m: ModifierKeys)
    ensures (if m & Control == Control then Control else 0) | (if m & Alt == Alt then Alt else 0)
            | (if m & Shift == Shift then Shift else 0) | (if m & Windows == Windows then Windows else 0) == m
  {
  }

  /** With no modifiers the text is the bare key name; with Ctrl+Alt it is "Ctrl+Alt+" and the key. */
  lemma {:induction false} ShortcutTextExamples(key: Key)
    ensures ShortcutText(key, NoModifiers) == key.name
    ensures ShortcutText(key, Control | Alt) == "Ctrl+" + "Alt+" + key.name
  {
    PrefixesSpelledOut(NoModifiers);
    PrefixesSpelledOut(Control | Alt);
  }

  // ---------------------------------------------------------------------------
  // Defaults

  const DefaultPromptText: string := "Improve this text to make it clear, concise, and professional."
  const FixGrammarText: string := "Fix any grammar and spelling errors in this text. Maintain the original tone and style."
  const MakeProfessionalText: string := "Make this text more professional and formal."

  /**
   * `CreateDefaultSettings()`. The three prompts receive new ids, supplied
   * here as `id1`, `id2`, `id3`.
   */
  function CreateDefaultSettings(id1: Uuid, id2: Uuid, id3: Uuid): (r: Settings)
    requires id1 != id2 && id1 != id3 && id2 != id3
    ensures |r.prompts| == 3 && UniqueIds(r.prompts)
    ensures r.prompts[0].text == r.lastUsedPrompt
    ensures Selected(r.prompts, r.selectedPromptId).None?
  {
    Settings(
      apiKey := "",
      selectedProvider := OpenAI,
      customModel := "",
      lastUsedPrompt := DefaultPromptText,
      showNotifications := true,
      playNotificationSounds := true,
      autoModeEnabled := false,
      processTextHotkey := HotkeySettings(Key("E"), Control | Alt),
      toggleAutoModeHotkey := HotkeySettings(Key("A"), Control | Alt),
      prompts := [
        Prompt(id1, "Default", DefaultPromptText),
        Prompt(id2, "Fix Grammar", FixGrammarText),
        Prompt(id3, "Make Professional", MakeProfessionalText)
      ],
      selectedPromptId := None,
      startWithWindows := true)
  }

  /**
   * The default record: no key, OpenAI, no custom model, auto mode off,
   * notifications and sounds on, no selection, three prompts with distinct
   * ids named "Default", "Fix Grammar" and "Make Professional", whose first
   * text is the last-used prompt.
   */
  lemma {:induction false} DefaultSettingsFacts(id1: Uuid, id2: Uuid, id3: Uuid)
    requires id1 != id2 && id1 != id3 && id2 != id3
    ensures var s := CreateDefaultSettings(id1, id2, id3);
            && s.apiKey == "" && s.selectedProvider == OpenAI && s.customModel == ""
            && !s.autoModeEnabled && s.showNotifications && s.playNotificationSounds
            && s.selectedPromptId.None?
            && |s.prompts| == 3 && UniqueIds(s.prompts)
            && s.prompts[0].name == "Default" && s.prompts[1].name == "Fix Grammar"
            && s.prompts[2].name == "Make Professional"
            && s.prompts[0].text == s.lastUsedPrompt
            && Selected(s.prompts, s.selectedPromptId).None?
  {
  }

  /** The default hotkeys read "Ctrl+Alt+E" (process text) and "Ctrl+Alt+A" (toggle auto mode). */
  lemma {:induction false} DefaultHotkeyTexts(id1: Uuid, id2: Uuid, id3: Uuid)
    requires id1 != id2 && id1 != id3 && id2 != id3
    ensures var s := CreateDefaultSettings(id1, id2, id3);
            && ShortcutText(s.processTextHotkey.key, s.processTextHotkey.modifiers) == "Ctrl+Alt+E"
            && ShortcutText(s.toggleAutoModeHotkey.key, s.toggleAutoModeHotkey.modifiers) == "Ctrl+Alt+A"
  {
    var s := CreateDefaultSettings(id1, id2, id3);
    assert s.processTextHotkey == HotkeySettings(Key("E"), Control | Alt);
    assert s.toggleAutoModeHotkey == HotkeySettings(Key("A"), Control | Alt);
    CtrlAltText("E");
    CtrlAltText("A");
  }

  /** The text of a Ctrl+Alt shortcut on a one-letter key. */
  lemma {:induction false} CtrlAltText(name: string)
    requires |name| == 1
    ensures ShortcutText(Key(name), Control | Alt) == "Ctrl+Alt+" + name
  {
    ShortcutTextExamples(Key(name));
    CtrlAltMerge();
  }

  lemma {:induction false} CtrlAltMerge()
    ensures "Ctrl+" + "Alt+" == "Ctrl+Alt+"
  {
    assert ("Ctrl+" + "Alt+")[4] == '+';
  }

  // ---------------------------------------------------------------------------
  // The service

  /** What `settings.json` holds: nothing, text the deserialiser rejects, or a record. */
  datatype SettingsFile = NoFile | Unreadable | Stored(settings: Settings)

  /** The static `SettingsService`: the in-memory record and the settings file. */
  class SettingsService {
    var settings: Settings
    var file: SettingsFile

    /**
     * `Initialize()` / `LoadSettings()`: a stored record is used as it is;
     * an unreadable file gives the defaults without overwriting it; a missing
     * file gives the defaults, which are saved.
     */
    constructor Load(stored: SettingsFile, id1: Uuid, id2: Uuid, id3: Uuid)
      requires id1 != id2 && id1 != id3 && id2 != id3
      ensures stored.Stored? ==> settings == stored.settings && file == stored
      ensures stored.Unreadable? ==> settings == CreateDefaultSettings(id1, id2, id3) && file == Unreadable
      ensures stored.NoFile? ==> settings == CreateDefaultSettings(id1, id2, id3)
                                 && file == Stored(settings)
    {
      match stored
      case Stored(s) =>
        settings := s;
        file := stored;
      case Unreadable =>
        var defaults := CreateDefaultSettings(id1, id2, id3);
        settings := defaults;
        file := Unreadable;
      case NoFile =>
        var defaults := CreateDefaultSettings(id1, id2, id3);
        settings := defaults;
        file := Stored(defaults);
    }

    /** The file holds exactly the in-memory record. */
    predicate Saved()
      reads this
    {
      file == Stored(settings)
    }

    function GetApiKey(): string reads this { settings.apiKey }
    function GetSelectedProvider(): ProviderType reads this { settings.selectedProvider }
    function GetCustomModel(): string reads this { settings.customModel }
    function GetLastUsedPrompt(): string reads this { settings.lastUsedPrompt }
    function GetShowNotifications(): bool reads this { settings.showNotifications }
    function GetPlayNotificationSounds(): bool reads this { settings.playNotificationSounds }
    function GetAutoModeEnabled(): bool reads this { settings.autoModeEnabled }
    function GetProcessTextHotkey(): HotkeySettings reads this { settings.processTextHotkey }
    function GetToggleAutoModeHotkey(): HotkeySettings reads this { settings.toggleAutoModeHotkey }
    function GetPrompts(): seq<Prompt> reads this { settings.prompts }
    function GetSelectedPromptId(): Option<Uuid> reads this { settings.selectedPromptId }
    function GetStartWithWindows(): bool reads this { settings.startWithWindows }

    method SetApiKey(value: string)
      modifies this
      ensures settings == old(settings).(apiKey := value) && Saved()
      ensures GetApiKey() == value
    {
      settings := settings.(apiKey := value);
      file := Stored(settings);
    }

    method SetSelectedProvider(value: ProviderType)
      modifies this
      ensures settings == old(settings).(selectedProvider := value) && Saved()
      ensures GetSelectedProvider() == value
    {
      settings := settings.(selectedProvider := value);
      file := Stored(settings);
    }

    method SetCustomModel(value: string)
      modifies this
      ensures settings == old(settings).(customModel := value) && Saved()
      ensures GetCustomModel() == value
    {
      settings := settings.(customModel := value);
      file := Stored(settings);
    }

    method SetLastUsedPrompt(value: string)
      modifies this
      ensures settings == old(settings).(lastUsedPrompt := value) && Saved()
      ensures GetLastUsedPrompt() == value
    {
      settings := settings.(lastUsedPrompt := value);
      file := Stored(settings);
    }

    method SetShowNotifications(value: bool)
      modifies this
      ensures settings == old(settings).(showNotifications := value) && Saved()
      ensures GetShowNotifications() == value
    {
      settings := settings.(showNotifications := value);
      file := Stored(settings);
    }

    method SetPlayNotificationSounds(value: bool)
      modifies this
      ensures settings == old(settings).(playNotificationSounds := value) && Saved()
      ensures GetPlayNotificationSounds() == value
    {
      settings := settings.(playNotificationSounds := value);
      file := Stored(settings);
    }

    method SetAutoModeEnabled(value: bool)
      modifies this
      ensures settings == old(settings).(autoModeEnabled := value) && Saved()
      ensures GetAutoModeEnabled() == value
    {
      settings := settings.(autoModeEnabled := value);
      file := Stored(settings);
    }

    method SetProcessTextHotkey(value: HotkeySettings)
      modifies this
      ensures settings == old(settings).(processTextHotkey := value) && Saved()
      ensures GetProcessTextHotkey() == value
    {
      settings := settings.(processTextHotkey := value);
      file := Stored(settings);
    }

    method SetToggleAutoModeHotkey(value: HotkeySettings)
      modifies this
      ensures settings == old(settings).(toggleAutoModeHotkey := value) && Saved()
      ensures GetToggleAutoModeHotkey() == value
    {
      settings := settings.(toggleAutoModeHotkey := value);
      file := Stored(settings);
    }

    method SetPrompts(value: seq<Prompt>)
      modifies this
      ensures settings == old(settings).(prompts := value) && Saved()
      ensures GetPrompts() == value
    {
      settings := settings.(prompts := value);
      file := Stored(settings);
    }

    method SetSelectedPromptId(value: Option<Uuid>)
      modifies this
      ensures settings == old(settings).(selectedPromptId := value) && Saved()
      ensures GetSelectedPromptId() == value
    {
      settings := settings.(selectedPromptId := value);
      file := Stored(settings);
    }

    method SetStartWithWindows(value: bool)
      modifies this
      ensures settings == old(settings).(startWithWindows := value) && Saved()
      ensures GetStartWithWindows() == value
    {
      settings := settings.(startWithWindows := value);
      file := Stored(settings);
    }
  }
}
