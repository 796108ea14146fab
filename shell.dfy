/**
 * The host window (`MainWindow`): the tray-icon state driven by favicon messages and by
 * navigation outcomes, the dispatch of bridge messages, the toasts it shows, the scripts it
 * asks the browser control to run, and the window's visibility.
 */
module Shell {
  import opened Maybe
  import opened Strings
  import opened Bridge
  import opened IconCache
  import opened Toasts

  const ChatUrl: string := "https://mail.google.com/chat/"

  /** The three icons the tray can show (`iconNormal`, `iconBadge`, `iconOffline`). */
  datatype TrayIcon = IconNormal | IconBadge | IconOffline

  /** `Visibility`; `Collapsed` never arises, since only `Show` and `Hide` set it. */
  datatype Visibility = Visible | Hidden

  datatype WindowState = Normal | Minimized | Maximized

  datatype Placement = Placement(visibility: Visibility, windowState: WindowState)

  // ---------------------------------------------------------------------------------------
  // Tray icon

  /** The icon a favicon `state` selects; `None` for a state the switch does not list. */
  function FaviconIcon(state: string): (icon: Option<TrayIcon>)
    ensures icon.None? <==> state != "badge" && state != "normal" && state != "offline"
    ensures icon == Some(IconBadge) <==> state == "badge"
    ensures icon == Some(IconNormal) <==> state == "normal"
    ensures icon == Some(IconOffline) <==> state == "offline"
  {
    if state == "badge" then Some(IconBadge)
    else if state == "normal" then Some(IconNormal)
    else if state == "offline" then Some(IconOffline)
    else None
  }

  /** The tray icon after a favicon message: the selected icon, or unchanged. */
  function AfterFavicon(current: TrayIcon, state: string): (icon: TrayIcon)
    ensures state == "badge" ==> icon == IconBadge
    ensures state == "normal" ==> icon == IconNormal
    ensures state == "offline" ==> icon == IconOffline
    ensures state != "badge" && state != "normal" && state != "offline" ==> icon == current
  {
    FaviconIcon(state).GetOr(current)
  }

  /** The tray icon after `CoreWebView2_NavigationCompleted`. */
  function AfterNavigation(current: TrayIcon, isSuccess: bool, source: string): (icon: TrayIcon)
    ensures isSuccess && StartsWith(source, ChatUrl) ==> icon == current
    ensures !(isSuccess && StartsWith(source, ChatUrl)) ==> icon == IconOffline
  {
    if isSuccess && StartsWith(source, ChatUrl) then current
    else if isSuccess && !StartsWith(source, ChatUrl) then IconOffline
    else IconOffline
  }

  /** The tray icon after a run of favicon messages, applied in order. */
  function ReplayFavicons(current: TrayIcon, states: seq<string>): TrayIcon
    decreases |states|
  {
    if states == [] then current else ReplayFavicons(AfterFavicon(current, states[0]), states[1..])
  }

  /** The icon of the last recognised state in `states`, searching from the end. */
  function LastRecognized(states: seq<string>): Option<TrayIcon>
    decreases |states|
  {
    if states == [] then None
    else if FaviconIcon(states[|states| - 1]).Some? then FaviconIcon(states[|states| - 1])
    else LastRecognized(states[..|states| - 1])
  }

  lemma {:induction false} ReplayFaviconsSnoc(current: TrayIcon, states: seq<string>, last: string)
    ensures ReplayFavicons(current, states + [last]) == AfterFavicon(ReplayFavicons(current, states), last)
    decreases |states|
  {
    if states == [] {
      assert [] + [last] == [last];
    } else {
      assert (states + [last])[1..] == states[1..] + [last];
      ReplayFaviconsSnoc(AfterFavicon(current, states[0]), states[1..], last);
    }
  }

  /** Last write wins: the tray shows the last recognised state, or what it showed before. */
  lemma {:induction false} LastFaviconWins(current: TrayIcon, states: seq<string>)
    ensures ReplayFavicons(current, states) == LastRecognized(states).GetOr(current)
    decreases |states|
  {
    if states != [] {
      var init, last := states[..|states| - 1], states[|states| - 1];
      assert states == init + [last];
      ReplayFaviconsSnoc(current, init, last);
      LastFaviconWins(current, init);
    }
  }

  // ---------------------------------------------------------------------------------------
  // Window placement

  /** `ShowAndActivateWindow`'s effect on placement. */
  function Restored(w: Placement): (r: Placement)
    ensures r.visibility == Visible && r.windowState != Minimized
    ensures w.windowState != Minimized ==> r.windowState == w.windowState
    ensures w.windowState == Minimized ==> r.windowState == Normal
  {
    Placement(if w.visibility == Hidden then Visible else w.visibility,
              if w.windowState == Minimized then Normal else w.windowState)
  }

  /** `ToggleWindow`'s effect on placement. */
  function Toggled(w: Placement): (r: Placement)
    ensures w.visibility == Visible ==> r == Placement(Hidden, w.windowState)
    ensures w.visibility != Visible ==> r == Restored(w)
  {
    if w.visibility == Visible then w.(visibility := Hidden)
    else Placement(Visible, if w.windowState == Minimized then Normal else w.windowState)
  }

  /** Toggling twice returns to the same visibility, and never leaves a window minimised. */
  lemma ToggleTwice(w: Placement)
    ensures Toggled(Toggled(w)).visibility == w.visibility
    ensures Toggled(Toggled(w)).windowState == Restored(w).windowState
    ensures Toggled(Toggled(w)).windowState != Minimized
  {
  }

  // ---------------------------------------------------------------------------------------
  // The window

  class MainWindow {
    const cache: IconCache
    const loadScript: string       // the text of main/load/load.js
    var trayIcon: TrayIcon
    var visibility: Visibility
    var windowState: WindowState
    var activations: nat            // `Activate()` requests issued
    var scripts: seq<string>        // `ExecuteScriptAsync` requests issued, in order
    var toasts: seq<Toast>          // toasts shown, in order

    function Where(): Placement
      reads this
    {
      Placement(visibility, windowState)
    }

    ghost predicate Valid()
      reads this, cache
    {
      cache.Valid()
    }

    /** The window as `App.CreateMainWindow` leaves it: tray icon offline, window shown. */
    constructor (cache: IconCache, loadScript: string)
      requires cache.Valid()
      ensures Valid() && this.cache == cache && this.loadScript == loadScript
      ensures trayIcon == IconOffline && Where() == Placement(Visible, Normal) && activations == 0
      ensures scripts == [] && toasts == []
    {
      this.cache := cache;
      this.loadScript := loadScript;
      trayIcon := IconOffline;
      visibility, windowState := Visible, Normal;
      activations := 0;
      scripts, toasts := [], [];
    }

    /** `CoreWebView2_NavigationCompleted`: inject the page script on the chat page. */
    method OnNavigationCompleted(isSuccess: bool, source: string)
      requires Valid()
      modifies this
      ensures Valid()
      ensures trayIcon == AfterNavigation(old(trayIcon), isSuccess, source)
      ensures scripts == old(scripts) + (if isSuccess && StartsWith(source, ChatUrl) then [loadScript] else [])
      ensures toasts == old(toasts) && Where() == old(Where()) && activations == old(activations)
    {
      if isSuccess && StartsWith(source, ChatUrl) {
        scripts := scripts + [loadScript];
      } else if isSuccess && !StartsWith(source, ChatUrl) {
        trayIcon := IconOffline;
      } else {
        trayIcon := IconOffline;
      }
    }

    /** `CoreWebView2_WebMessageReceived`, on an already-decoded message. */
    method OnWebMessageReceived(msg: BridgeMessage, writeSucceeds: bool)
      requires Valid()
      modifies this, cache
      ensures Valid()
      ensures msg.NotificationMessage? ==>
                var r := Resolve(cache.platform, old(cache.State()), msg.iconBase64, msg.iconMimeType, writeSucceeds);
                && cache.State() == r.state
                && toasts == old(toasts) + [ToastContent(msg.title, msg.options.body, msg.options.tag, r.uri)]
                && trayIcon == old(trayIcon)
      ensures msg.FaviconMessage? ==>
                trayIcon == AfterFavicon(old(trayIcon), msg.state) &&
                toasts == old(toasts) && cache.State() == old(cache.State())
      ensures msg.UnknownMessage? || msg.Malformed? ==>
                trayIcon == old(trayIcon) && toasts == old(toasts) && cache.State() == old(cache.State())
      ensures scripts == old(scripts) && Where() == old(Where()) && activations == old(activations)
    {
      match msg
      case NotificationMessage(title, options, iconBase64, iconMimeType) =>
        var iconUri := cache.CreateImageUri(iconBase64, iconMimeType, writeSucceeds);
        ShowNotification(title, options.body, options.tag, iconUri);
      case FaviconMessage(state) =>
        if state == "badge" {
          trayIcon := IconBadge;
        } else if state == "normal" {
          trayIcon := IconNormal;
        } else if state == "offline" {
          trayIcon := IconOffline;
        }
      case UnknownMessage(_) =>
      case Malformed =>
    }

    /** `ShowNotification`: shows the toast built from its arguments. */
    method ShowNotification(title: string, message: string, tag: Option<string>, iconUri: Option<IconUri>)
      modifies this
      ensures toasts == old(toasts) + [ToastContent(title, message, tag, iconUri)]
      ensures trayIcon == old(trayIcon) && scripts == old(scripts)
      ensures Where() == old(Where()) && activations == old(activations)
    {
      toasts := toasts + [ToastContent(title, message, tag, iconUri)];
    }

    /** `ToastNotificationManagerCompat_OnActivated`, on the parsed toast arguments. */
    method OnToastActivated(args: map<string, string>)
      requires Valid()
      modifies this
      ensures Valid()
      ensures scripts == old(scripts) + ActivationScripts(args)
      ensures Where() == Restored(old(Where())) && activations == old(activations) + 1
      ensures trayIcon == old(trayIcon) && toasts == old(toasts)
    {
      if "tag" in args {
        var tag := args["tag"];
        var script := ClickScriptHead + tag + ClickScriptTail;
        scripts := scripts + [script];
      }
      ShowAndActivateWindow();
    }

    /** `ShowAndActivateWindow`. */
    method ShowAndActivateWindow()
      modifies this
      ensures Where() == Restored(old(Where())) && activations == old(activations) + 1
      ensures trayIcon == old(trayIcon) && scripts == old(scripts) && toasts == old(toasts)
    {
      if visibility == Hidden {
        visibility := Visible;
      }
      if windowState == Minimized {
        windowState := Normal;
      }
      activations := activations + 1;
    }

    /** `ToggleWindow`, the tray menu's "Toggle". */
    method ToggleWindow()
      modifies this
      ensures Where() == Toggled(old(Where()))
      ensures activations == old(activations)
      ensures trayIcon == old(trayIcon) && scripts == old(scripts) && toasts == old(toasts)
    {
      if visibility == Visible {
        visibility := Hidden;
      } else {
        visibility := Visible;
        if windowState == Minimized {
          windowState := Normal;
        }
      }
    }

    /** `OnClosing`: the close is always cancelled and the window hidden instead. */
    method OnClosing() returns (cancel: bool)
      modifies this
      ensures cancel
      ensures Where() == Placement(Hidden, old(windowState))
      ensures activations == old(activations)
      ensures trayIcon == old(trayIcon) && scripts == old(scripts) && toasts == old(toasts)
    {
      cancel := true;
      visibility := Hidden;
    }
  }
}
