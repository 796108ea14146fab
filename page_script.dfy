/**
 * The script injected into the chat page (main/load/load.js): the favicon classifier, the
 * stand-in `Notification` constructor with its tag-keyed map of live notifications, the
 * `notificationClick` / `notificationClose` listeners, and the favicon poller.
 */
module PageScript {
  import opened Maybe
  import opened Strings
  import opened Bridge

  datatype FaviconState = Badge | Normal | Offline

  /** The string the page posts for each state. */
  function StateName(s: FaviconState): string {
    match s
    case Badge => "badge"
    case Normal => "normal"
    case Offline => "offline"
  }

  /** `url.split('/').pop()`: the longest suffix of `url` free of '/'. */
  function LastSegment(url: string): (seg: string)
    ensures '/' !in seg
    ensures |seg| <= |url| && url[|url| - |seg|..] == seg
    ensures |seg| == |url| || url[|url| - |seg| - 1] == '/'
    decreases |url|
  {
    if |url| == 0 || url[|url| - 1] == '/' then ""
    else LastSegment(url[..|url| - 1]) + [url[|url| - 1]]
  }

  /**
   * `evaluateFaviconState`: on the lower-cased file name, a badge needs "chat", "new" and
   * "notif"; "chat" alone is normal; without "chat" it is offline.
   */
  function EvaluateFaviconState(faviconUrl: string): (s: FaviconState)
    ensures var name := ToLower(LastSegment(faviconUrl));
            && (s == Badge <==> Contains(name, "chat") && Contains(name, "new") && Contains(name, "notif"))
            && (s == Normal <==> Contains(name, "chat") && !(Contains(name, "new") && Contains(name, "notif")))
            && (s == Offline <==> !Contains(name, "chat"))
  {
    var fileName := ToLower(LastSegment(faviconUrl));
    if Contains(fileName, "chat") && Contains(fileName, "new") && Contains(fileName, "notif") then Badge
    else if Contains(fileName, "chat") then Normal
    else Offline
  }

  lemma {:induction false} LastSegmentAfterSlash(dir: string, name: string)
    requires '/' !in name
    ensures LastSegment(dir + "/" + name) == name
    decreases |name|
  {
    if name == [] {
      assert dir + "/" + name == dir + "/";
    } else {
      var init := name[..|name| - 1];
      assert (dir + "/" + name)[..|dir + "/" + name| - 1] == dir + "/" + init;
      LastSegmentAfterSlash(dir, init);
      assert init + [name[|name| - 1]] == name;
    }
  }

  lemma {:induction false} LastSegmentOfPlainName(name: string)
    requires '/' !in name
    ensures LastSegment(name) == name
    decreases |name|
  {
    if name != [] {
      var init := name[..|name| - 1];
      LastSegmentOfPlainName(init);
      assert init + [name[|name| - 1]] == name;
    }
  }

  /** Only the file name after the last '/' is looked at. */
  lemma OnlyFileNameMatters(dir: string, name: string)
    requires '/' !in name
    ensures EvaluateFaviconState(dir + "/" + name) == EvaluateFaviconState(name)
  {
    LastSegmentAfterSlash(dir, name);
    LastSegmentOfPlainName(name);
  }

  lemma {:induction false} LastSegmentToLower(url: string)
    ensures LastSegment(ToLower(url)) == ToLower(LastSegment(url))
    decreases |url|
  {
    if |url| > 0 {
      var init, c := url[..|url| - 1], url[|url| - 1];
      assert url == init + [c];
      ToLowerConcat(init, [c]);
      assert ToLower([c]) == [LowerChar(c)];
      var lowered := ToLower(url);
      assert lowered == ToLower(init) + [LowerChar(c)];
      assert lowered[..|lowered| - 1] == ToLower(init);
      if c != '/' {
        LastSegmentToLower(init);
        ToLowerConcat(LastSegment(init), [c]);
      }
    }
  }

  /** The classification ignores the case of ASCII letters. */
  lemma CaseInsensitive(url: string)
    ensures EvaluateFaviconState(ToLower(url)) == EvaluateFaviconState(url)
  {
    LastSegmentToLower(url);
    ToLowerIdempotent(LastSegment(url));
  }

  /** The pair `getBase64Image` resolves to. */
  datatype IconData = IconData(base64: string, mimeType: string)

  /** The icon data put in the message: the fetch result, if there was an icon to fetch. */
  function IconFor(options: NotificationOptions, fetched: Option<IconData>): (d: Option<IconData>)
    ensures d.Some? <==> Truthy(options.icon) && fetched.Some?
    ensures d.Some? ==> d == fetched
  {
    if Truthy(options.icon) then fetched else None
  }

  /** The message the stand-in constructor posts: title, all options, and the icon pair. */
  function NotificationPost(title: string, options: NotificationOptions, iconData: Option<IconData>): (m: BridgeMessage)
    ensures m.NotificationMessage? && m.title == title && m.options == options
    ensures m.iconBase64.None? <==> iconData.None?
    ensures m.iconMimeType.None? <==> iconData.None?
    ensures iconData.Some? ==> m.iconBase64 == Some(iconData.value.base64) && m.iconMimeType == Some(iconData.value.mimeType)
  {
    NotificationMessage(title, options,
                        if iconData.Some? then Some(iconData.value.base64) else None,
                        if iconData.Some? then Some(iconData.value.mimeType) else None)
  }

  /** The message the favicon monitor posts for a favicon URL. */
  function FaviconPost(url: string): (m: BridgeMessage)
    ensures m == FaviconMessage(StateName(EvaluateFaviconState(url)))
    ensures m.state in {"badge", "normal", "offline"}
  {
    FaviconMessage(StateName(EvaluateFaviconState(url)))
  }

  datatype EventKind = Click | Close

  /** An event dispatched on the stand-in notification created `target`-th. */
  datatype Delivery = Delivery(target: nat, kind: EventKind)

  /** The page after load.js ran: its notification map, its poller and what it sent. */
  class Page {
    var created: nat                        // stand-in notifications constructed so far
    var notifications: map<string, nat>     // `notifications`: tag -> notification
    var delivered: seq<Delivery>            // events dispatched on notifications
    var posted: seq<BridgeMessage>          // `postMessage` calls, in order
    var lastFaviconUrl: Option<string>
    ghost var faviconUrls: seq<string>      // the favicon URLs a message was posted for

    ghost predicate Valid()
      reads this
    {
      // the map holds constructed notifications, each under at most one tag
      && (forall t :: t in notifications ==> notifications[t] < created)
      && (forall t, u :: t in notifications && u in notifications && t != u ==> notifications[t] != notifications[u])
      // a notification receives at most one event, and once it has, it is no longer mapped
      && (forall i, j :: 0 <= i < j < |delivered| ==> delivered[i].target != delivered[j].target)
      && (forall i :: 0 <= i < |delivered| ==> delivered[i].target < created)
      && (forall i, t :: 0 <= i < |delivered| && t in notifications ==> notifications[t] != delivered[i].target)
      // the same favicon URL is never posted twice in a row
      && (|faviconUrls| > 0 ==> lastFaviconUrl == Some(faviconUrls[|faviconUrls| - 1]))
      && (forall i :: 0 < i < |faviconUrls| ==> faviconUrls[i - 1] != faviconUrls[i])
    }

    /** Running load.js: an empty map, and `monitorFavicon`'s initial report. */
    constructor (initialFaviconUrl: Option<string>)
      ensures Valid()
      ensures created == 0 && notifications == map[] && delivered == []
      ensures lastFaviconUrl == initialFaviconUrl
      ensures posted == (if Truthy(initialFaviconUrl) then [FaviconPost(initialFaviconUrl.value)] else [])
      ensures faviconUrls == (if Truthy(initialFaviconUrl) then [initialFaviconUrl.value] else [])
    {
      created, notifications, delivered := 0, map[], [];
      lastFaviconUrl := initialFaviconUrl;
      if initialFaviconUrl.Some? && initialFaviconUrl.value != "" {
        posted := [FaviconPost(initialFaviconUrl.value)];
        faviconUrls := [initialFaviconUrl.value];
      } else {
        posted := [];
        faviconUrls := [];
      }
    }

    /**
     * `new Notification(title, options)`. Without an options object, reading `options.tag`
     * throws and nothing happens; otherwise a fresh notification is made (and mapped under a
     * truthy tag, replacing any earlier one) and its message is posted; `fetched` is what
     * the icon fetch yields (`None`: it failed).
     */
    method NewNotification(title: string, options: Option<NotificationOptions>, fetched: Option<IconData>)
      returns (n: Option<nat>)
      requires Valid()
      modifies this
      ensures Valid()
      ensures options.None? ==>
                n.None? && created == old(created) && notifications == old(notifications) && posted == old(posted)
      ensures options.Some? ==>
                && n == Some(old(created)) && created == old(created) + 1
                && notifications == (if Truthy(options.value.tag) then old(notifications)[options.value.tag.value := old(created)]
                                     else old(notifications))
                && posted == old(posted) + [NotificationPost(title, options.value, IconFor(options.value, fetched))]
      ensures delivered == old(delivered) && lastFaviconUrl == old(lastFaviconUrl) && faviconUrls == old(faviconUrls)
    {
      if options.None? {
        return None;
      }
      var opts := options.value;
      n := Some(created);
      if opts.tag.Some? && opts.tag.value != "" {
        notifications := notifications[opts.tag.value := created];
      }
      created := created + 1;
      var iconData: Option<IconData> := None;
      if opts.icon.Some? && opts.icon.value != "" {
        iconData := fetched;
      }
      posted := posted + [NotificationPost(title, opts, iconData)];
    }

    /**
     * The `notificationClick` (`Click`) and `notificationClose` (`Close`) listeners: a mapped
     * tag gets its event dispatched once and is then removed; any other tag is ignored.
     */
    method OnNotificationEvent(kind: EventKind, tag: string)
      requires Valid()
      modifies this
      ensures Valid()
      ensures tag in old(notifications) ==>
                delivered == old(delivered) + [Delivery(old(notifications)[tag], kind)] &&
                notifications == old(notifications) - {tag}
      ensures tag !in old(notifications) ==> delivered == old(delivered) && notifications == old(notifications)
      ensures tag !in notifications
      ensures created == old(created) && posted == old(posted) && lastFaviconUrl == old(lastFaviconUrl)
      ensures faviconUrls == old(faviconUrls)
    {
      if tag in notifications {
        var notification := notifications[tag];
        delivered := delivered + [Delivery(notification, kind)];
        notifications := notifications - {tag};
      }
    }

    /** One tick of the favicon poller, given what `getFaviconUrl` returns now. */
    method PollFavicon(current: Option<string>)
      requires Valid()
      modifies this
      ensures Valid()
      ensures Truthy(current) && current != old(lastFaviconUrl) ==>
                && lastFaviconUrl == current && posted == old(posted) + [FaviconPost(current.value)]
                && faviconUrls == old(faviconUrls) + [current.value]
      ensures !(Truthy(current) && current != old(lastFaviconUrl)) ==>
                lastFaviconUrl == old(lastFaviconUrl) && posted == old(posted) && faviconUrls == old(faviconUrls)
      ensures created == old(created) && notifications == old(notifications) && delivered == old(delivered)
    {
      if current.Some? && current.value != "" && current != lastFaviconUrl {
        lastFaviconUrl := current;
        posted := posted + [FaviconPost(current.value)];
        faviconUrls := faviconUrls + [current.value];
      }
    }
  }

  /** Replaying a click or close for the same tag delivers nothing the second time. */
  method ReplayDeliversOnce(page: Page, kind: EventKind, tag: string)
    requires page.Valid()
    modifies page
    ensures page.Valid()
    ensures |page.delivered| <= |old(page.delivered)| + 1
    ensures tag !in page.notifications
  {
    page.OnNotificationEvent(kind, tag);
    ghost var once := page.delivered;
    page.OnNotificationEvent(kind, tag);
    assert page.delivered == once;
  }
}
