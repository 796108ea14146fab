# google-chat-desktop: navigation policy and page/host bridge, modelled in Dafny

google-chat-desktop is a Windows tray application that hosts the Google Chat web app in a
WebView2 browser control. This project models the three parts of it that carry its logic:

- **Navigation policy** (`ExternalLinks`): every new-window request goes through four ordered
  checks: the scheme is http or https; the host contains an allowed domain as a substring;
  `mail.google.com` is only kept for `https://mail.google.com/chat...`; the attachment-download
  endpoint of `chat.google.com` is sent out. The first failing check sets `Handled = true` and
  launches the raw URL once through the shell. If all four pass, `Handled = false`.
- **Host side** (`IconCache`, `Toasts`, `Shell`):
  - the content-addressed icon cache behind `CreateImageUri`;
  - the tray-icon state driven by favicon messages and by navigation outcomes;
  - the toast built by `ShowNotification`;
  - the script sent back to the page when a toast is activated;
  - the window's visibility and minimised state.
- **Injected page script** (`PageScript`, modelling `main/load/load.js`):
  - the favicon classifier;
  - the stand-in `Notification` constructor with its tag-keyed map of live notifications;
  - the `notificationClick` / `notificationClose` listeners with at-most-once delivery;
  - the favicon poller that reports only changes.

`Bridge` holds the messages page and host exchange, already decoded. `Scenarios` connects
the two sides: what a page notification becomes on the host, and how an activation gets back
to the page.

Things the model makes precise:

- The domain check is by substring, so `xmail.google.com.example` stays inside the browser
  (`ExternalLinks.EmbeddedDomainIsInternal`).
- The icon cache is keyed by the base64 text alone. A payload already in memory is answered
  with its stored URI, whatever MIME type comes with it now (the hit case of
  `IconCache.Resolve`).
- The target file name is `<lower-case hex SHA-256>.<ext>`. The hex text is proved equal to
  plain per-byte hex, which is injective. So equal paths mean equal digests and equal
  extensions (`IconCache.TargetPathInjective`), and no path is ever written twice
  (`IconCache.Inv`).
- The activation script puts the tag between single quotes without escaping it. A tag of
  plain characters reaches the page unchanged (`Toasts.ClickScriptDeliversTag`). A tag with a
  quote does not reach it (`Toasts.QuotedTagIsNotDelivered`).

Notes on what the code does:

- The code launches an external URL with a single `Process.Start` (ExternalLinks.cs:20). A
  failed launch is not retried and no error dialog is shown.
- A URI that does not parse makes `new Uri` throw, uncaught (ExternalLinks.cs:14). It is not
  routed externally.
- The favicon state is an arbitrary string on the host. Unlisted values are ignored.

The environment enters as parameters:

- `Platform` carries base64 decoding (partial: `None` when it throws), SHA-256 (any function
  to 32-byte digests) and the application directory.
- Whether `File.WriteAllBytes` succeeds is a `writeSucceeds` flag.
- Whether the icon fetch succeeded is an `Option`.
- What `getFaviconUrl` returns on each poll is an argument of the poll step.
- The text of `load.js` is a string the window is constructed with.
- The launched URLs, issued scripts, shown toasts and posted messages are logs (sequences)
  on the objects.

## Model

| member | source | states |
|---|---|---|
| `ExternalLinks.Decide` | google-chat-desktop/main/features/ExternalLinks.cs:16-49 | the four-check cascade over an already-parsed URI, returning which check failed first or `Internal` |
| `ExternalLinks.DecideIsFirstFailure` | google-chat-desktop/main/features/ExternalLinks.cs:16-49 | `Decide` answers `External(c)` exactly when check `c` fails and every check ordered before `c` passes: first match wins |
| `ExternalLinks.InternalIffAllPass` | google-chat-desktop/main/features/ExternalLinks.cs:48-49 | a request stays internal if and only if all four checks pass |
| `ExternalLinks.NonWebSchemeIsExternal` | google-chat-desktop/main/features/ExternalLinks.cs:17-22 | a scheme other than http/https is external by the first check, whatever the host |
| `ExternalLinks.UntrustedHostIsExternal` | google-chat-desktop/main/features/ExternalLinks.cs:25-30 | a web URI whose host contains none of the four allowed domains is external by the domain check |
| `ExternalLinks.ExactDomainAllowed` | google-chat-desktop/main/features/ExternalLinks.cs:10 | each allowed domain passes the substring test as a host |
| `ExternalLinks.MailOutsideChatIsExternal` | google-chat-desktop/main/features/ExternalLinks.cs:33-38 | host `mail.google.com` without the `https://mail.google.com/chat` prefix is external by the mail check |
| `ExternalLinks.AttachmentIsExternal` | google-chat-desktop/main/features/ExternalLinks.cs:41-46 | host `chat.google.com` with the attachment URL inside the absolute URI is external by the attachment check |
| `ExternalLinks.MailChatOverHttpIsExternal` | google-chat-desktop/main/features/ExternalLinks.cs:33-38 | `http://mail.google.com/chat/x` goes out: the prefix test demands https |
| `ExternalLinks.MailChatPageIsInternal` | google-chat-desktop/main/features/ExternalLinks.cs:32-49 | `https://mail.google.com/chat/foo` stays inside the browser |
| `ExternalLinks.EmbeddedDomainIsInternal` | google-chat-desktop/main/features/ExternalLinks.cs:24-49 | `https://xmail.google.com.example/` passes every check and stays inside, because the domain test is by substring |
| `Strings.ContainsIffOccurs` | google-chat-desktop/main/features/ExternalLinks.cs:25 | the `Contains` used by the checks holds exactly when the needle occurs at some index |
| `ExternalLinks.Launcher.Start` | google-chat-desktop/main/features/ExternalLinks.cs:20 | one shell launch appends exactly the target to the launch log |
| `ExternalLinks.NewWindowRequest.constructor` | google-chat-desktop/main/features/ExternalLinks.cs:12-14 | the request carries the raw URI and its parse |
| `ExternalLinks.HandleNewWindowRequested` | google-chat-desktop/main/features/ExternalLinks.cs:12-50 | `Handled` is true exactly when `Decide` says external, and then exactly one launch of the raw URI is logged, none otherwise |
| `IconCache.LowerHex` | google-chat-desktop/MainWindow.xaml.cs:250 | per-byte hex has two characters per byte, all lower-case hex digits |
| `IconCache.HashString` | google-chat-desktop/MainWindow.xaml.cs:250 | the digest text is plain per-byte lower-case hex of the digest |
| `IconCache.DigestTextIsLowerHex` | google-chat-desktop/MainWindow.xaml.cs:250 | `BitConverter.ToString`, dashes removed and lower-cased, equals plain per-byte lower-case hex, for every byte string (by induction over the bytes) |
| `IconCache.LowerHexInjective` | google-chat-desktop/MainWindow.xaml.cs:250 | distinct byte strings have distinct hex texts |
| `IconCache.WordPrefix` | google-chat-desktop/MainWindow.xaml.cs:253 | the greedy `\w+`: a prefix of word characters that cannot be extended |
| `IconCache.MimeExtensionLeftmost` | google-chat-desktop/MainWindow.xaml.cs:253 | the extension is the greedy word run after the leftmost `image/` that is followed by a word character |
| `IconCache.MimeExtension` | google-chat-desktop/MainWindow.xaml.cs:253 | the `ext` group is a run of word characters, empty exactly when `image/` followed by a word character occurs nowhere in the MIME type |
| `IconCache.PngExtension` | google-chat-desktop/MainWindow.xaml.cs:253 | `image/png` gives `png` |
| `IconCache.Combine` | google-chat-desktop/MainWindow.xaml.cs:257 | `Path.Combine`: an empty second part gives the first; a rooted second part or an empty first one gives the second; otherwise the second follows the first with one separator between them |
| `IconCache.CacheDirectory` | google-chat-desktop/MainWindow.xaml.cs:256 | the cache directory is the application directory, then a separator unless it already ends with one, then `temp\iconCache` |
| `IconCache.TargetPath` | google-chat-desktop/MainWindow.xaml.cs:249-257 | the target path is the cache directory, a separator, the 64 hex digits of the SHA-256 digest of the decoded bytes, a dot and the extension |
| `IconCache.CombineFileName` | google-chat-desktop/MainWindow.xaml.cs:257 | a file name led by hex digits is relative, so `Path.Combine` puts it under a directory with one separator in between |
| `IconCache.TargetPathInjective` | google-chat-desktop/MainWindow.xaml.cs:249-257 | two payloads with the same target path have the same digest and the same extension |
| `IconCache.Resolve` | google-chat-desktop/MainWindow.xaml.cs:228-278 | null and nothing changed for a null/empty argument, a decode failure or a failed write; a memorised key is answered from memory alone; otherwise the URI of `<cacheDir>\<hex>.<ext>`, written only if absent, and the key's entry set to it with every other entry untouched |
| `IconCache.ResolvePreservesInv` | google-chat-desktop/MainWindow.xaml.cs:257-270 | every call keeps the invariant: no path written twice, written paths exist, memorised URIs name existing files addressed by their payload's digest |
| `IconCache.SameContentSameFile` | google-chat-desktop/MainWindow.xaml.cs:238-270 | if the first payload is not yet in memory (and the second is either the same text or also not in memory), two payloads that decode to the same bytes and come with the same MIME type get the same URI, and the second call writes nothing: at most one write in all |
| `IconCache.MemorisedDigestsDistinct` | google-chat-desktop/MainWindow.xaml.cs:238-268 | under the cache invariant, two memorised payloads whose digests differ hold different URIs |
| `IconCache.DistinctDigestsDistinctFiles` | google-chat-desktop/MainWindow.xaml.cs:238-270 | from any state that keeps the invariant, two payloads with different digests resolved one after the other never get the same URI, whether they are answered from memory or not and whatever their MIME types |
| `IconCache.IconCache.constructor` | google-chat-desktop/MainWindow.xaml.cs:23 | an empty in-memory map over a cache directory that may already hold files |
| `IconCache.IconCache.CreateImageUri` | google-chat-desktop/MainWindow.xaml.cs:228-278 | the returned URI and the new map, file set and write log are exactly those of `Resolve` on the old state, and the invariant is kept |
| `Toasts.ToastContent` | google-chat-desktop/MainWindow.xaml.cs:203-218 | exactly the lines [title, message] with silent audio; a `tag` argument, holding the tag, if and only if the tag is non-empty, and no other argument; the logo override present exactly when an icon URI is given |
| `Toasts.ClickScript` | google-chat-desktop/MainWindow.xaml.cs:288 | the `notificationClick` CustomEvent template with the tag inserted verbatim after its fixed head |
| `Toasts.ActivationScripts` | google-chat-desktop/MainWindow.xaml.cs:285-290 | one script, the click script of the `tag` argument, exactly when the arguments contain `tag`; none otherwise |
| `Toasts.ClickScriptDeliversTag` | google-chat-desktop/MainWindow.xaml.cs:288 | for a tag free of quotes, backslashes and line breaks, the page reads back exactly that tag from the script |
| `Toasts.QuotedTagIsNotDelivered` | google-chat-desktop/MainWindow.xaml.cs:288 | the unescaped insertion breaks for the tag `a'b`: no tag is delivered |
| `Shell.FaviconIcon` | google-chat-desktop/MainWindow.xaml.cs:175-186 | `badge`, `normal`, `offline` select the badge, normal and offline icon; any other state selects nothing |
| `Shell.AfterNavigation` | google-chat-desktop/MainWindow.xaml.cs:101-119 | a successful navigation to a source starting with the chat URL keeps the tray icon; any other success, and any failure, sets it offline |
| `Shell.AfterFavicon` | google-chat-desktop/MainWindow.xaml.cs:175-186 | `badge`, `normal`, `offline` set the badge, normal and offline icon; any other state leaves the tray icon as it was |
| `Shell.LastFaviconWins` | google-chat-desktop/MainWindow.xaml.cs:169-188 | after any run of favicon messages the tray shows the icon of the last recognised state, or the earlier icon if none was recognised |
| `Shell.Restored` | google-chat-desktop/MainWindow.xaml.cs:365-379 | after showing and activating, the window is visible and not minimised; a minimised window becomes normal, a normal or maximised one keeps its state |
| `Shell.Toggled` | google-chat-desktop/MainWindow.xaml.cs:406-420 | toggling a visible window hides it and keeps its state; otherwise the window is shown and a minimised one becomes normal |
| `Shell.ToggleTwice` | google-chat-desktop/MainWindow.xaml.cs:406-420 | toggling twice returns to the original visibility, with the window state `Restored` gives, which is never minimised |
| `Shell.MainWindow.constructor` | google-chat-desktop/App.xaml.cs:55-60 | the window created, given its tray icon (offline) and shown: nothing issued, nothing shown yet |
| `Shell.MainWindow.OnNavigationCompleted` | google-chat-desktop/MainWindow.xaml.cs:101-119 | the load script is issued exactly after a successful navigation to the chat URL, where the tray icon is kept; otherwise the tray icon becomes offline |
| `Shell.MainWindow.OnWebMessageReceived` | google-chat-desktop/MainWindow.xaml.cs:136-200 | a notification resolves its icon through the cache and shows the toast built from its title, body, tag and the resolved URI; a favicon message updates only the tray icon; an unknown or malformed message changes nothing |
| `Shell.MainWindow.ShowNotification` | google-chat-desktop/MainWindow.xaml.cs:203-226 | appends exactly the toast `ToastContent` builds, and changes nothing else |
| `Shell.MainWindow.OnToastActivated` | google-chat-desktop/MainWindow.xaml.cs:280-294 | issues exactly the activation scripts of the arguments, then shows and activates the window in every case |
| `Shell.MainWindow.ShowAndActivateWindow` | google-chat-desktop/MainWindow.xaml.cs:365-379 | placement becomes `Restored` of the old one and one activation is requested |
| `Shell.MainWindow.ToggleWindow` | google-chat-desktop/MainWindow.xaml.cs:406-420 | placement becomes `Toggled` of the old one; nothing else changes |
| `Shell.MainWindow.OnClosing` | google-chat-desktop/MainWindow.xaml.cs:429-433 | the close is always cancelled and the window hidden, its state kept |
| `PageScript.LastSegment` | google-chat-desktop/main/load/load.js:101 | `split('/').pop()`: the longest suffix free of `/` |
| `PageScript.OnlyFileNameMatters` | google-chat-desktop/main/load/load.js:100-109 | the classification of `dir/name` is that of `name` alone |
| `PageScript.CaseInsensitive` | google-chat-desktop/main/load/load.js:101 | lower-casing the URL first does not change the classification |
| `PageScript.EvaluateFaviconState` | google-chat-desktop/main/load/load.js:100-109 | on the lower-cased last path segment: `badge` exactly when it contains `chat`, `new` and `notif`; `normal` exactly when it contains `chat` but not both of the others; `offline` exactly when it lacks `chat` |
| `PageScript.IconFor` | google-chat-desktop/main/load/load.js:45-52 | icon data is present exactly when the options name an icon and its fetch succeeded |
| `PageScript.NotificationPost` | google-chat-desktop/main/load/load.js:54-62 | the posted message is a notification carrying the title and all original options, with `iconBase64`/`iconMimeType` null exactly when there is no icon data |
| `PageScript.FaviconPost` | google-chat-desktop/main/load/load.js:129-134 | the favicon message carries the name of the state the classifier gives the URL, which is one of `badge`, `normal`, `offline` |
| `PageScript.Page.constructor` | google-chat-desktop/main/load/load.js:113-123 | an empty notification map, and an initial favicon message only when a favicon URL exists |
| `PageScript.Page.NewNotification` | google-chat-desktop/main/load/load.js:36-69 | a fresh notification, mapped under a truthy tag (overwriting an earlier entry) and not mapped otherwise, and its message posted; with no options object it throws and nothing changes |
| `PageScript.Page.OnNotificationEvent` | google-chat-desktop/main/load/load.js:75-91 | a mapped tag gets its click or close dispatched once on its notification and is removed; an absent tag is a no-op; other tags are untouched; no notification ever gets two events |
| `PageScript.Page.PollFavicon` | google-chat-desktop/main/load/load.js:125-136 | posts and records the URL only when it is non-empty and differs from the last one; the log of reported URLs grows by exactly that URL, so the same URL is never reported twice in a row |
| `PageScript.ReplayDeliversOnce` | google-chat-desktop/main/load/load.js:75-82 | two identical events for one tag deliver at most one event in all |
| `Scenarios.UntaggedIconlessNotification` | google-chat-desktop/MainWindow.xaml.cs:153-166 | a page notification without tag or icon becomes a toast with exactly its title and body, no arguments and no logo, and leaves the cache alone |
| `Scenarios.AliceScenario` | google-chat-desktop/MainWindow.xaml.cs:153-166 | `Alice` / `Hi` with tag `t1` and no icon yields the toast with those lines, argument `tag=t1`, no image |
| `Scenarios.ActivationReachesTaggedNotification` | google-chat-desktop/MainWindow.xaml.cs:285-290 | activating the host's toast for a page notification issues a script exactly when the page mapped it under a tag, and that script hands the page back the same tag when it is plain |
| `Scenarios.FaviconPostIsRecognized` | google-chat-desktop/MainWindow.xaml.cs:175-186 | every favicon state the page posts is recognised by the host and selects the matching icon |
| `Scenarios.BadgeThenNormal` | google-chat-desktop/MainWindow.xaml.cs:175-186 | `badge` followed by `normal` leaves the tray at normal |

## Left out

- JSON: the double decode of the web message and the JSON serialisation of page messages (System.Text.Json, `JSON.stringify`) are library code. Messages are a decoded datatype. `Malformed` stands for every payload that the `try` block rejects with an exception, caught at MainWindow.xaml.cs:196. That can be a decode that throws. It can also be a notification without an `options` object: it decodes, and the exception comes from reading `Options.IconBase64` at MainWindow.xaml.cs:158.
- URI parsing: `new Uri(e.Uri)` and its canonicalisation (lower-case scheme and host, percent-encoding) are a library call. The model receives the parsed scheme, host and absolute URI. An unparsable URI makes the source throw, and that path is not modelled.
- Missing `body`: a page may construct a notification whose options lack `body`, or whose title is not a string. The spread at load.js:58 passes this on, and the host hands `null` to the toast library's `AddText` (MainWindow.xaml.cs:207). What the library does with it is library code. In the model, title and body are always strings.
- Shell launch: `Process.Start` is a log entry. Its failure, which would propagate out of the handler, is not modelled.
- Library functions: SHA-256 and `Convert.FromBase64String` are parameters; hash collisions are therefore stated in terms of digests. `new Uri(tempFilePath)` is a `FileUri` wrapper around the path.
- File system: it is a set of existing paths plus a write log. They are not byte contents, directory creation (MainWindow.xaml.cs:68-73) or `DeleteTempFolder` at exit.
- IconCache.Resolve: paths are compared as exact strings. `File.Exists` at MainWindow.xaml.cs:260 runs on a Windows file system that ignores letter case, and the extension keeps the MIME type's case.
  - Equal bytes sent as `image/png` and then as `image/PNG`: the source writes once and reuses `<hex>.png`, while the model writes a second path. If that second write would fail, the model returns null where the source returns the URI.
  - A failed `WriteAllBytes` is taken to leave no file. In the source it may leave a truncated file, which `File.Exists` then finds and later calls reuse.
  - The invariant and the content-addressing lemmas hold for the model's exact-string file system only.
- Character classes: `\w`, `String.ToLower` and JavaScript `toLowerCase` are modelled on ASCII only. The digest text is ASCII either way. Culture-sensitive `StartsWith` is treated as ordinal, which agrees on the ASCII URIs involved.
- Asynchrony and threads: `Dispatcher.Invoke`, `ExecuteScriptAsync`, reading `load.js` from disk, `fetch`/`FileReader` in `getBase64Image`, and the `setInterval` timer are left out. Each poll is one `PollFavicon` step. A notification's message is posted within its constructor step, so the unordered completion of overlapping fetches is not modelled.
- Toast library: toast XML, the notifier, and the encoding of toast arguments as a string (`ToastArguments.Parse`) are left out. Arguments are a map.
- UI wiring: `NotifyIcon` and its menu, icon resources, `PermissionRequested`, WebView2 settings, the locked singleton `Instance`, `ExitApplication`/`DisposeNotifyIcon`, the reload/relaunch/about menu handlers, window-settings persistence (floating point, screen enumeration), the single-instance mutex and `AboutPanel` are platform glue.
- Window: `Activate()` is a request counter; focus itself is not modelled. `Visibility.Collapsed` is not modelled, since after startup only `Show` and `Hide` set visibility.
- Page internals: the passthrough of `Notification.permission`/`requestPermission` (load.js:71-72) is left out. The page's own listeners on a stand-in notification are also left out; dispatched events are recorded as `Delivery` entries.
- DeliveredTag: it decodes only literals made of plain characters. For a tag with a backslash or line break it answers `None` rather than modelling JavaScript escape sequences.
