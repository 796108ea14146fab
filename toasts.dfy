/**
 * The notification presenter: the content of the toast `ShowNotification` builds, and the
 * script `ToastNotificationManagerCompat_OnActivated` sends back into the page when a toast
 * carrying a `tag` argument is activated.
 */
module Toasts {
  import opened Maybe
  import opened Strings
  import opened IconCache

  /** The abstract toast: its text lines, the silent-audio flag, its arguments, its logo. */
  datatype Toast = Toast(lines: seq<string>, silentAudio: bool, arguments: map<string, string>, logo: Option<IconUri>)

  /** `ShowNotification(title, message, tag, iconUri)`'s builder chain. */
  function ToastContent(title: string, message: string, tag: Option<string>, iconUri: Option<IconUri>): (t: Toast)
    ensures t.lines == [title, message] && t.silentAudio
    ensures "tag" in t.arguments <==> !IsNullOrEmpty(tag)
    ensures forall k :: k in t.arguments ==> k == "tag" && t.arguments[k] == tag.value
    ensures t.logo == iconUri
  {
    Toast([title, message], true, if IsNullOrEmpty(tag) then map[] else map["tag" := tag.value], iconUri)
  }

  const ClickScriptHead: string := "window.dispatchEvent(new CustomEvent('notificationClick', { detail: { tag: '"
  const ClickScriptTail: string := "' } }));"

  /** The interpolated script, with the tag inserted verbatim between the quotes. */
  function ClickScript(tag: string): (s: string)
    ensures StartsWith(s, ClickScriptHead)
    ensures s[|ClickScriptHead|..] == tag + ClickScriptTail
  {
    ClickScriptHead + tag + ClickScriptTail
  }

  /** The scripts one activation issues: one click script when the arguments carry a tag. */
  function ActivationScripts(args: map<string, string>): (scripts: seq<string>)
    ensures |scripts| <= 1
    ensures |scripts| == 1 <==> "tag" in args
    ensures |scripts| == 1 ==> scripts[0] == ClickScript(args["tag"])
  {
    if "tag" in args then [ClickScript(args["tag"])] else []
  }

  /** A character that stands for itself inside a single-quoted JavaScript literal. */
  predicate PlainLiteralChar(c: char) {
    c != '\'' && c != '\\' && c != '\n' && c != '\r'
  }

  /** A tag the click script's literal carries unchanged. */
  predicate PlainTag(tag: string) {
    forall i :: 0 <= i < |tag| ==> PlainLiteralChar(tag[i])
  }

  /** The characters up to (not including) the first single quote. */
  function LiteralBody(s: string): (b: string)
    ensures StartsWith(s, b)
    ensures '\'' !in b
    decreases |s|
  {
    if |s| == 0 || s[0] == '\'' then "" else [s[0]] + LiteralBody(s[1..])
  }

  /**
   * The tag the page's `notificationClick` listener receives when it evaluates `script`, for
   * scripts of the click-script shape whose literal holds only plain characters; `None`
   * for anything else (a syntax error, or an escape sequence this model does not decode).
   */
  function DeliveredTag(script: string): Option<string> {
    if !StartsWith(script, ClickScriptHead) then None
    else
      var rest := script[|ClickScriptHead|..];
      var body := LiteralBody(rest);
      if PlainTag(body) && rest[|body|..] == ClickScriptTail
      then Some(body)
      else None
  }

  lemma {:induction false} LiteralBodyStops(t: string, r: string)
    requires '\'' !in t
    requires |r| > 0 && r[0] == '\''
    ensures LiteralBody(t + r) == t
    decreases |t|
  {
    if t == [] {
      assert t + r == r;
    } else {
      assert (t + r)[1..] == t[1..] + r;
      LiteralBodyStops(t[1..], r);
    }
  }

  /** A tag of plain characters reaches the page unchanged. */
  lemma ClickScriptDeliversTag(tag: string)
    requires PlainTag(tag)
    ensures DeliveredTag(ClickScript(tag)) == Some(tag)
  {
    var rest := ClickScript(tag)[|ClickScriptHead|..];
    assert rest == tag + ClickScriptTail;
    LiteralBodyStops(tag, ClickScriptTail);
    assert rest[|tag|..] == ClickScriptTail;
  }

  /** Because the tag is not escaped, a tag with a single quote breaks the script. */
  lemma QuotedTagIsNotDelivered()
    ensures DeliveredTag(ClickScript("a'b")) == None
  {
    var rest := ClickScript("a'b")[|ClickScriptHead|..];
    assert rest == "a" + ("'b" + ClickScriptTail);
    LiteralBodyStops("a", "'b" + ClickScriptTail);
    assert rest[1..] == "'b" + ClickScriptTail;
    assert rest[1..][1] != ClickScriptTail[1];
  }
}
