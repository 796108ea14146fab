/**
 * The page and the host together: what a notification or favicon change in the page turns
 * into on the host, and how a toast activation finds its way back to the page.
 */
module Scenarios {
  import opened Maybe
  import opened Strings
  import opened Bridge
  import opened IconCache
  import opened Toasts
  import opened Shell
  import opened PageScript

  /** The toast the host shows for a message, given the cache state it meets. */
  function HostToast(p: Platform, st: CacheState, m: BridgeMessage, writeSucceeds: bool): Toast
    requires m.NotificationMessage?
  {
    ToastContent(m.title, m.options.body, m.options.tag,
                 Resolve(p, st, m.iconBase64, m.iconMimeType, writeSucceeds).uri)
  }

  /**
   * A notification without tag and without icon becomes a toast with exactly its title and
   * body as text, no arguments and no logo, and the icon cache is left alone.
   */
  lemma UntaggedIconlessNotification(p: Platform, st: CacheState, title: string, body: string,
                                     silent: Option<bool>, fetched: Option<IconData>, w: bool)
    ensures var options := NotificationOptions(body, None, None, silent);
            var m := NotificationPost(title, options, IconFor(options, fetched));
            && HostToast(p, st, m, w) == Toast([title, body], true, map[], None)
            && Resolve(p, st, m.iconBase64, m.iconMimeType, w).state == st
  {
  }

  /** The end-to-end example: "Alice" / "Hi" with tag "t1" and no icon. */
  lemma AliceScenario(p: Platform, st: CacheState, w: bool)
    ensures var options := NotificationOptions("Hi", Some("t1"), None, None);
            var m := NotificationPost("Alice", options, IconFor(options, None));
            HostToast(p, st, m, w) == Toast(["Alice", "Hi"], true, map["tag" := "t1"], None)
  {
  }

  /**
   * The page maps a notification under its tag exactly when the host's toast carries that
   * tag back; activating that toast issues one script, and it hands the page that very tag
   * when the tag is made of plain characters.
   */
  lemma ActivationReachesTaggedNotification(p: Platform, st: CacheState, title: string,
                                            options: NotificationOptions, fetched: Option<IconData>, w: bool)
    ensures var m := NotificationPost(title, options, IconFor(options, fetched));
            var scripts := ActivationScripts(HostToast(p, st, m, w).arguments);
            && (|scripts| == 1 <==> Truthy(options.tag))
            && (Truthy(options.tag) && PlainTag(options.tag.value) ==> DeliveredTag(scripts[0]) == options.tag)
  {
    var m := NotificationPost(title, options, IconFor(options, fetched));
    var args := HostToast(p, st, m, w).arguments;
    if Truthy(options.tag) {
      assert args["tag"] == options.tag.value;
      if PlainTag(options.tag.value) {
        ClickScriptDeliversTag(options.tag.value);
      }
    }
  }

  /** The host's spelling of each state the page can report. */
  function TrayFor(s: FaviconState): TrayIcon {
    match s
    case Badge => IconBadge
    case Normal => IconNormal
    case Offline => IconOffline
  }

  /** Every favicon message the page posts is one the host recognises and acts on. */
  lemma FaviconPostIsRecognized(current: TrayIcon, url: string)
    ensures AfterFavicon(current, FaviconPost(url).state) == TrayFor(EvaluateFaviconState(url))
  {
  }

  /** A badge report followed by a normal one leaves the tray at normal. */
  lemma BadgeThenNormal(current: TrayIcon)
    ensures ReplayFavicons(current, ["badge", "normal"]) == IconNormal
  {
    LastFaviconWins(current, ["badge", "normal"]);
  }
}
