/**
 * The navigation policy applied to every new-window request of the embedded browser:
 * an ordered cascade of four checks over the parsed URI; the first failing check hands
 * the URL to the operating system's default handler, otherwise the browser handles it.
 */
module ExternalLinks {
  import opened Strings

  const AllowedDomains: seq<string> :=
    ["accounts.google.com", "accounts.youtube.com", "chat.google.com", "mail.google.com"]
  const MailChatPrefix: string := "https://mail.google.com/chat"
  const AttachmentUrl: string := "https://chat.google.com/u/0/api/get_attachment_url"

  /** What `new Uri(e.Uri)` yields: the canonical scheme, host and absolute URI. */
  datatype ParsedUri = ParsedUri(scheme: string, host: string, absoluteUri: string)

  /** The four checks, in the order they are applied. */
  datatype Check = SchemeCheck | DomainCheck | MailCheck | AttachmentCheck

  function Rank(c: Check): nat {
    match c
    case SchemeCheck => 0
    case DomainCheck => 1
    case MailCheck => 2
    case AttachmentCheck => 3
  }

  /** `Internal`: `Handled = false`; `External(c)`: launched externally because `c` failed. */
  datatype Disposition = Internal | External(failed: Check)

  predicate IsWebScheme(u: ParsedUri) {
    u.scheme == "http" || u.scheme == "https"
  }

  /** `Array.Exists(allowedDomains, domain => host.Contains(domain))`: a substring test. */
  predicate HostAllowed(host: string) {
    exists i :: 0 <= i < |AllowedDomains| && Contains(host, AllowedDomains[i])
  }

  predicate IsMailOutsideChat(u: ParsedUri) {
    u.host == "mail.google.com" && !StartsWith(u.absoluteUri, MailChatPrefix)
  }

  predicate IsAttachmentDownload(u: ParsedUri) {
    u.host == "chat.google.com" && Contains(u.absoluteUri, AttachmentUrl)
  }

  /** Whether `u` passes check `c`, each check taken on its own. */
  predicate Passes(u: ParsedUri, c: Check) {
    match c
    case SchemeCheck => IsWebScheme(u)
    case DomainCheck => HostAllowed(u.host)
    case MailCheck => !IsMailOutsideChat(u)
    case AttachmentCheck => !IsAttachmentDownload(u)
  }

  /** The decision `HandleNewWindowRequested` takes, as the cascade the source writes. */
  function Decide(u: ParsedUri): Disposition {
    if !IsWebScheme(u) then External(SchemeCheck)
    else if !HostAllowed(u.host) then External(DomainCheck)
    else if IsMailOutsideChat(u) then External(MailCheck)
    else if IsAttachmentDownload(u) then External(AttachmentCheck)
    else Internal
  }

  /** The cascade reports exactly the first check, in `Rank` order, that fails. */
  lemma DecideIsFirstFailure(u: ParsedUri, c: Check)
    ensures Decide(u) == External(c) <==>
              !Passes(u, c) && forall b :: Rank(b) < Rank(c) ==> Passes(u, b)
  {
    if Decide(u) == External(c) {
      forall b | Rank(b) < Rank(c)
        ensures Passes(u, b)
      {
        match b
        case SchemeCheck =>
        case DomainCheck =>
        case MailCheck =>
        case AttachmentCheck =>
      }
    } else if !Passes(u, c) {
      match c
      case SchemeCheck =>
      case DomainCheck =>
        assert Rank(SchemeCheck) < Rank(c);
      case MailCheck =>
        assert Rank(SchemeCheck) < Rank(c) && Rank(DomainCheck) < Rank(c);
      case AttachmentCheck =>
        assert Rank(SchemeCheck) < Rank(c) && Rank(DomainCheck) < Rank(c) && Rank(MailCheck) < Rank(c);
    }
  }

  /** A request stays inside the browser if and only if all four checks pass. */
  lemma InternalIffAllPass(u: ParsedUri)
    ensures Decide(u) == Internal <==> forall c :: Passes(u, c)
  {
    if Decide(u) == Internal {
      forall c ensures Passes(u, c) {
        match c
        case SchemeCheck =>
        case DomainCheck =>
        case MailCheck =>
        case AttachmentCheck =>
      }
    } else {
      assert !Passes(u, Decide(u).failed);
    }
  }

  /** A scheme other than http and https is launched externally, before any other check. */
  lemma NonWebSchemeIsExternal(u: ParsedUri)
    requires u.scheme != "http" && u.scheme != "https"
    ensures Decide(u) == External(SchemeCheck)
  {
  }

  /** A web URI whose host contains none of the allowed domains is launched externally. */
  lemma UntrustedHostIsExternal(u: ParsedUri)
    requires IsWebScheme(u)
    requires forall i :: 0 <= i < |AllowedDomains| ==> !Contains(u.host, AllowedDomains[i])
    ensures Decide(u) == External(DomainCheck)
  {
  }

  lemma ExactDomainAllowed(host: string)
    requires host in AllowedDomains
    ensures HostAllowed(host)
  {
    var i :| 0 <= i < |AllowedDomains| && AllowedDomains[i] == host;
    OccursAtContains(host, host, 0);
  }

  /** On `mail.google.com`, anything that does not start with the chat prefix goes out. */
  lemma MailOutsideChatIsExternal(u: ParsedUri)
    requires IsWebScheme(u) && u.host == "mail.google.com"
    requires !StartsWith(u.absoluteUri, MailChatPrefix)
    ensures Decide(u) == External(MailCheck)
  {
    ExactDomainAllowed(u.host);
  }

  /** On `chat.google.com`, the attachment-download endpoint goes out. */
  lemma AttachmentIsExternal(u: ParsedUri)
    requires IsWebScheme(u) && u.host == "chat.google.com"
    requires Contains(u.absoluteUri, AttachmentUrl)
    ensures Decide(u) == External(AttachmentCheck)
  {
    ExactDomainAllowed(u.host);
  }

  /** Plain http to the chat page on `mail.google.com` is launched externally. */
  lemma MailChatOverHttpIsExternal()
    ensures Decide(ParsedUri("http", "mail.google.com", "http://mail.google.com/chat/x"))
            == External(MailCheck)
  {
    var u := ParsedUri("http", "mail.google.com", "http://mail.google.com/chat/x");
    assert u.absoluteUri[4] != MailChatPrefix[4];
    MailOutsideChatIsExternal(u);
  }

  /** The chat page itself stays inside the browser. */
  lemma MailChatPageIsInternal()
    ensures Decide(ParsedUri("https", "mail.google.com", "https://mail.google.com/chat/foo"))
            == Internal
  {
    var u := ParsedUri("https", "mail.google.com", "https://mail.google.com/chat/foo");
    ExactDomainAllowed(u.host);
    assert u.absoluteUri[..|MailChatPrefix|] == MailChatPrefix;
  }

  /**
   * The domain check is by substring: a host that merely embeds an allowed domain passes
   * it, and since it is not exactly `mail.google.com` or `chat.google.com` no later check
   * applies, so the request stays inside the browser.
   */
  lemma EmbeddedDomainIsInternal()
    ensures Decide(ParsedUri("https", "xmail.google.com.example", "https://xmail.google.com.example/"))
            == Internal
  {
    var host := "xmail.google.com.example";
    assert host == "x" + AllowedDomains[3] + ".example";
    assert host[1..16] == AllowedDomains[3];
    assert OccursAt(host, AllowedDomains[3], 1);
    OccursAtContains(host, AllowedDomains[3], 1);
  }

  /** The operating system's shell: every `Process.Start` issued, in order. */
  class Launcher {
    var started: seq<string>

    constructor ()
      ensures started == []
    {
      started := [];
    }

    /** `Process.Start(new ProcessStartInfo(target) { UseShellExecute = true })`. */
    method Start(target: string)
      modifies this
      ensures started == old(started) + [target]
    {
      started := started + [target];
    }
  }

  /** `CoreWebView2NewWindowRequestedEventArgs`: the raw URI, its parse, and `Handled`. */
  class NewWindowRequest {
    const uri: string
    const parsed: ParsedUri
    var handled: bool

    constructor (uri: string, parsed: ParsedUri)
      ensures this.uri == uri && this.parsed == parsed && !handled
    {
      this.uri := uri;
      this.parsed := parsed;
      handled := false;
    }
  }

  /**
   * `HandleNewWindowRequested`: `Handled` is set to whether the request goes out, and
   * exactly one launch of the raw URI happens when it does, none otherwise.
   */
  method HandleNewWindowRequested(e: NewWindowRequest, shell: Launcher)
    modifies e, shell
    ensures e.handled <==> Decide(e.parsed).External?
    ensures shell.started == old(shell.started) + (if Decide(e.parsed).External? then [e.uri] else [])
  {
    var uri := e.parsed;
    if uri.scheme != "http" && uri.scheme != "https" {
      e.handled := true;
      shell.Start(e.uri);
      return;
    }
    if !(exists i :: 0 <= i < |AllowedDomains| && Contains(uri.host, AllowedDomains[i])) {
      e.handled := true;
      shell.Start(e.uri);
      return;
    }
    if uri.host == "mail.google.com" && !StartsWith(uri.absoluteUri, MailChatPrefix) {
      e.handled := true;
      shell.Start(e.uri);
      return;
    }
    if uri.host == "chat.google.com" && Contains(uri.absoluteUri, AttachmentUrl) {
      e.handled := true;
      shell.Start(e.uri);
      return;
    }
    e.handled := false;
  }
}
