/**
 * The Windows tray app: the clipboard monitor with its debounce timer and
 * de-duplication, and the `App` actions (process clipboard, toggle auto
 * mode, the auto-mode menu header). The clipboard, network availability and
 * the outcome of each HTTP exchange are inputs; the LLM callback is run
 * synchronously.
 */
module WindowsApp {
  import opened Wrappers
  import opened Text
  import opened SettingsStore
  import opened Pipeline

  datatype ToastType = Info | Success | Warning | Error

  /** One toast notification: its message and its kind. */
  datatype Toast = Toast(message: string, kind: ToastType)

  /** The system clipboard as `ClipboardService` sees it; no text reads as "". */
  class WindowsClipboard {
    var text: string

    constructor (text: string)
      ensures this.text == text
    {
      this.text := text;
    }

    /** `ClipboardService.SetText`: empty text is refused and leaves the clipboard as it was. */
    method SetText(s: string) returns (ok: bool)
      modifies this
      ensures ok <==> s != ""
      ensures ok ==> text == s
      ensures !ok ==> text == old(text)
    {
      if s == "" {
        return false;
      }
      text := s;
      ok := true;
    }
  }

  /** The Win32 message announcing a clipboard change. */
  const WM_CLIPBOARDUPDATE: int := 0x031D

  /** The debounce delay, in milliseconds. */
  const DebounceMs: int := 500

  const ProcessedMessage: string := "Text processed and copied to clipboard!"
  const NetworkUnavailableMessage: string := "Network Unavailable. Please check your internet connection."

  /** The toasts and clipboard write that report one `LLMProcessResult`. */
  function ResultToasts(r: LLMProcessResult): seq<Toast> {
    if r.isSuccess then [Toast(ProcessedMessage, ToastType.Success)]
    else [Toast("Error: " + (if r.error.Some? then r.error.value else ""), Error)]
  }

  class ClipboardMonitorService {
    /** Whether the hidden window's `HwndSource` exists (set once the window is initialised). */
    var hasWindowSource: bool
    var isMonitoring: bool
    var lastProcessedText: string
    /** The pending due time of the one-shot debounce timer, if armed. */
    var timerDue: Option<int>

    /** Monitoring implies a window to listen with. */
    predicate Valid()
      reads this
    {
      isMonitoring ==> hasWindowSource
    }

    constructor ()
      ensures Valid() && !isMonitoring && !hasWindowSource
      ensures lastProcessedText == "" && timerDue.None?
    {
      hasWindowSource := false;
      isMonitoring := false;
      lastProcessedText := "";
      timerDue := None;
    }

    /** The hidden window's `SourceInitialized`: the message hook is in place. */
    method SourceInitialized()
      requires Valid()
      modifies this
      ensures Valid() && hasWindowSource
      ensures isMonitoring == old(isMonitoring) && lastProcessedText == old(lastProcessedText)
      ensures timerDue == old(timerDue)
    {
      hasWindowSource := true;
    }

    /** `StartMonitoring()`: a no-op while monitoring; otherwise monitoring starts iff there is a window source. */
    method StartMonitoring()
      requires Valid()
      modifies this
      ensures Valid()
      ensures old(isMonitoring) ==> isMonitoring
      ensures !old(isMonitoring) ==> isMonitoring == hasWindowSource
      ensures hasWindowSource == old(hasWindowSource) && lastProcessedText == old(lastProcessedText)
      ensures timerDue == old(timerDue)
    {
      if isMonitoring {
        return;
      }
      if hasWindowSource {
        isMonitoring := true;
      }
    }

    /** `StopMonitoring()`: a no-op while not monitoring; otherwise monitoring stops. */
    method StopMonitoring()
      requires Valid()
      modifies this
      ensures Valid() && !isMonitoring
      ensures hasWindowSource == old(hasWindowSource) && lastProcessedText == old(lastProcessedText)
      ensures timerDue == old(timerDue)
    {
      if !isMonitoring {
        return;
      }
      if hasWindowSource {
        isMonitoring := false;
      }
    }

    /**
     * `WndProc`: a clipboard update while monitoring re-arms the single
     * debounce timer to 500 ms (so the latest update wins) and is handled;
     * any other message, or one while not monitoring, is left alone.
     */
    method WndProc(msg: int) returns (handled: bool)
      modifies this
      ensures handled <==> msg == WM_CLIPBOARDUPDATE && isMonitoring
      ensures handled ==> timerDue == Some(DebounceMs)
      ensures !handled ==> timerDue == old(timerDue)
      ensures isMonitoring == old(isMonitoring) && hasWindowSource == old(hasWindowSource)
      ensures lastProcessedText == old(lastProcessedText)
    {
      handled := false;
      if msg == WM_CLIPBOARDUPDATE && isMonitoring {
        timerDue := Some(DebounceMs);
        handled := true;
      }
    }

    /**
     * The debounce timer fires: `ProcessClipboardContent`. Nothing happens
     * once monitoring has stopped, nor for blank text or text equal to the
     * last text processed. Accepted text becomes the last processed text
     * before the LLM call; a success is written back to the clipboard, a
     * failure only reported.
     */
    method ProcessClipboardContent(store: SettingsService, clipboard: WindowsClipboard, exchange: Exchange)
      returns (toasts: seq<Toast>, request: Option<Request>)
      modifies this, clipboard
      ensures timerDue.None?
      ensures isMonitoring == old(isMonitoring) && hasWindowSource == old(hasWindowSource)
      ensures var input := old(clipboard.text);
              var accepted := old(isMonitoring) && !IsBlank(input) && input != old(lastProcessedText);
              && (!accepted ==> toasts == [] && request.None? && clipboard.text == input
                                && lastProcessedText == old(lastProcessedText))
              && (accepted ==>
                    var (req, r) := ProcessText(store.settings, input, exchange);
                    && lastProcessedText == input
                    && request == req
                    && toasts == [Toast("Auto-processing text...", Info)] + ResultToasts(r)
                    && (r.isSuccess && r.processedText.value != "" ==> clipboard.text == r.processedText.value)
                    && (!r.isSuccess || r.processedText.value == "" ==> clipboard.text == input))
    {
      timerDue := None;
      toasts := [];
      request := None;
      if !isMonitoring {
        return;
      }
      var clipboardText := clipboard.text;
      if !IsBlank(clipboardText) && clipboardText != lastProcessedText {
        lastProcessedText := clipboardText;
        toasts, request := ProcessAccepted(store, clipboard, clipboardText, exchange);
      }
    }

    /** The body of `ProcessClipboardContent` once the text is accepted: the LLM call and the write-back. */
    method ProcessAccepted(store: SettingsService, clipboard: WindowsClipboard, input: string, exchange: Exchange)
      returns (toasts: seq<Toast>, request: Option<Request>)
      modifies clipboard
      ensures var (req, r) := ProcessText(store.settings, input, exchange);
              && request == req
              && toasts == [Toast("Auto-processing text...", Info)] + ResultToasts(r)
              && (r.isSuccess && r.processedText.value != "" ==> clipboard.text == r.processedText.value)
              && (!r.isSuccess || r.processedText.value == "" ==> clipboard.text == old(clipboard.text))
    {
      toasts := [Toast("Auto-processing text...", Info)];
      var (req, result) := ProcessText(store.settings, input, exchange);
      request := req;
      if result.isSuccess {
        ProcessTextResultShape(store.settings, input, exchange);
        var _ := clipboard.SetText(result.processedText.value);
      }
      toasts := toasts + ResultToasts(result);
    }
  }

  /** `App`: the tray application with its settings, monitor and clipboard. */
  class TrayApp {
    const store: SettingsService
    const monitor: ClipboardMonitorService
    const clipboard: WindowsClipboard
    /** The header of the auto-mode item of the tray menu. */
    var autoModeMenuHeader: string

    /**
     * `OnStartup` with `CreateNotifyIcon()`: the auto-mode item shows the
     * shortcut and no check mark, and the monitor is not started, whatever
     * the stored flag says.
     */
    constructor (store: SettingsService, monitor: ClipboardMonitorService, clipboard: WindowsClipboard)
      ensures this.store == store && this.monitor == monitor && this.clipboard == clipboard
      ensures autoModeMenuHeader == "Toggle Auto Mode (Ctrl+Alt+A)"
    {
      this.store := store;
      this.monitor := monitor;
      this.clipboard := clipboard;
      var shortcut := MenuShortcutText(Key("A"), Control | Alt);
      MenuShortcutOfA(shortcut);
      autoModeMenuHeader := "Toggle Auto Mode" + shortcut;
    }

    /**
     * `ProcessClipboardText()`: with the network down, an error toast and
     * nothing else; with blank clipboard text, a warning and no LLM call;
     * otherwise the text is processed and a success replaces the clipboard.
     */
    method ProcessClipboardText(networkAvailable: bool, exchange: Exchange)
      returns (toasts: seq<Toast>, request: Option<Request>)
      modifies clipboard
      ensures !networkAvailable ==>
                toasts == [Toast(NetworkUnavailableMessage, Error)]
                && request.None? && clipboard.text == old(clipboard.text)
      ensures networkAvailable && IsBlank(old(clipboard.text)) ==>
                toasts == [Toast("No text found in clipboard.", Warning)]
                && request.None? && clipboard.text == old(clipboard.text)
      ensures networkAvailable && !IsBlank(old(clipboard.text)) ==>
                var (req, r) := ProcessText(store.settings, old(clipboard.text), exchange);
                && request == req
                && toasts == [Toast("Processing text...", Info)] + ResultToasts(r)
                && (r.isSuccess && r.processedText.value != "" ==> clipboard.text == r.processedText.value)
                && (!r.isSuccess || r.processedText.value == "" ==> clipboard.text == old(clipboard.text))
    {
      if !networkAvailable {
        return [Toast(NetworkUnavailableMessage, Error)], None;
      }
      var clipboardText := clipboard.text;
      if IsBlank(clipboardText) {
        return [Toast("No text found in clipboard.", Warning)], None;
      }
      toasts := [Toast("Processing text...", Info)];
      var (req, result) := ProcessText(store.settings, clipboardText, exchange);
      request := req;
      if result.isSuccess {
        ProcessTextResultShape(store.settings, clipboardText, exchange);
        var _ := clipboard.SetText(result.processedText.value);
      }
      toasts := toasts + ResultToasts(result);
    }

    /** The monitor runs exactly when auto mode is on and the monitor has its window. */
    predicate AutoModeInSync()
      reads this, store, monitor
    {
      monitor.isMonitoring == (store.GetAutoModeEnabled() && monitor.hasWindowSource)
    }

    /**
     * `ToggleAutoMode()`: store the negation of the flag; start the monitor
     * when it was off, stop it when it was on; refresh the menu header.
     */
    method ToggleAutoMode() returns (toast: Toast)
      requires monitor.Valid()
      modifies store, monitor, this
      ensures store.settings == old(store.settings).(autoModeEnabled := !old(store.settings.autoModeEnabled))
      ensures store.Saved()
      ensures monitor.Valid()
      ensures !old(store.GetAutoModeEnabled()) ==>
                monitor.isMonitoring == (old(monitor.isMonitoring) || monitor.hasWindowSource)
                && toast == Toast("Auto Mode enabled", Info)
      ensures old(store.GetAutoModeEnabled()) ==> !monitor.isMonitoring && toast == Toast("Auto Mode disabled", Info)
      ensures monitor.hasWindowSource == old(monitor.hasWindowSource)
      ensures monitor.lastProcessedText == old(monitor.lastProcessedText) && monitor.timerDue == old(monitor.timerDue)
      ensures autoModeMenuHeader == AutoModeHeader(store.GetAutoModeEnabled())
      ensures old(AutoModeInSync()) ==> AutoModeInSync()
    {
      var autoModeEnabled := store.GetAutoModeEnabled();
      store.SetAutoModeEnabled(!autoModeEnabled);
      if !autoModeEnabled {
        monitor.StartMonitoring();
        toast := Toast("Auto Mode enabled", Info);
      } else {
        monitor.StopMonitoring();
        toast := Toast("Auto Mode disabled", Info);
      }
      UpdateAutoModeMenuItem();
    }

    /** `UpdateAutoModeMenuItem()`. */
    method UpdateAutoModeMenuItem()
      modifies this
      ensures autoModeMenuHeader == AutoModeHeader(store.GetAutoModeEnabled())
    {
      var shortcut := MenuShortcutText(Key("A"), Control | Alt);
      autoModeMenuHeader := "Toggle Auto Mode" + shortcut + (if store.GetAutoModeEnabled() then " ✓" else "");
    }
  }

  /** `App.GetShortcutText`: the shortcut in parentheses after a space, or "" for an empty one. */
  function MenuShortcutText(key: Key, modifiers: ModifierKeys): (r: string)
    ensures r == " (" + ShortcutText(key, modifiers) + ")"
  {
    var shortcut := ShortcutText(key, modifiers);
    if |shortcut| == 0 then "" else " (" + shortcut + ")"
  }

  /** The auto-mode item's header for a given flag. */
  function AutoModeHeader(enabled: bool): string {
    "Toggle Auto Mode" + MenuShortcutText(Key("A"), Control | Alt) + (if enabled then " ✓" else "")
  }

  /** The header shows the Ctrl+Alt+A shortcut and ends in " ✓" exactly when auto mode is on. */
  lemma {:induction false} AutoModeHeaderMarksState(enabled: bool)
    ensures AutoModeHeader(enabled) == "Toggle Auto Mode" + " (Ctrl+Alt+A)" + (if enabled then " ✓" else "")
    ensures EndsWith(AutoModeHeader(enabled), " ✓") <==> enabled
  {
    var shortcut := MenuShortcutText(Key("A"), Control | Alt);
    MenuShortcutOfA(shortcut);
    var base := "Toggle Auto Mode" + shortcut;
    if enabled {
      SuffixEndsWith(base, " ✓");
    } else {
      NotEndsWithLastChar(base, " ✓");
    }
  }

  lemma {:induction false} MenuShortcutOfA(shortcut: string)
    requires shortcut == MenuShortcutText(Key("A"), Control | Alt)
    ensures shortcut == " (Ctrl+Alt+A)"
  {
    CtrlAltText("A");
  }

  lemma {:induction false} SuffixEndsWith(a: string, b: string)
    ensures EndsWith(a + b, b)
  {
    assert (a + b)[|a + b| - |b|..] == b;
  }

  lemma {:induction false} NotEndsWithLastChar(s: string, suffix: string)
    requires |s| > 0 && |suffix| > 0 && s[|s| - 1] != suffix[|suffix| - 1]
    ensures !EndsWith(s, suffix)
  {
    if |suffix| <= |s| {
      assert s[|s| - |suffix|..][|suffix| - 1] == s[|s| - 1];
    }
  }
}
