/**
 * The messages the injected page script posts to the host over the browser control's
 * message channel, already decoded from their JSON text. `Malformed` stands for every
 * payload the host's two-level JSON decode rejects (it throws and the handler logs it).
 */
module Bridge {
  import opened Maybe

  /** The `options` object a page passes to `new Notification(title, options)`. */
  datatype NotificationOptions = NotificationOptions(
    body: string,
    tag: Option<string>,
    icon: Option<string>,
    silent: Option<bool>)

  datatype BridgeMessage =
    | NotificationMessage(
        title: string,
        options: NotificationOptions,
        iconBase64: Option<string>,
        iconMimeType: Option<string>)
    | FaviconMessage(state: string)
    | UnknownMessage(kind: string)
    | Malformed
}
