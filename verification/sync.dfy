/**
 * What both sync views share: the endpoint pattern they accept, the inbound
 * relay event and its self-echo filter, the upload body, and the side
 * effects the views perform, recorded in order.
 */
module Sync {
  import opened Wrappers
  import opened Typedef
  import opened Constants
  import opened Utils
  import opened Request

  /** The characters `.` does not match in a JavaScript regular expression. */
  predicate IsLineTerminator(c: char)
  {
    c == '\n' || c == '\r' || c == '\U{2028}' || c == '\U{2029}'
  }

  predicate NoLineTerminator(s: string)
  {
    forall i :: 0 <= i < |s| ==> !IsLineTerminator(s[i])
  }

  /** `/^https?:\/\/.*$/` (case-sensitive, no multiline flag). */
  predicate HttpUrl(s: string)
  {
    (HasPrefix(s, "http://") && NoLineTerminator(s[7..])) ||
    (HasPrefix(s, "https://") && NoLineTerminator(s[8..]))
  }

  /** Accepted: either scheme followed by any single-line text, the empty host included. */
  lemma HttpUrlAccepts(rest: string)
    requires NoLineTerminator(rest)
    ensures HttpUrl("http://" + rest) && HttpUrl("https://" + rest)
  {
    assert ("http://" + rest)[..7] == "http://" && ("http://" + rest)[7..] == rest;
    assert ("https://" + rest)[..8] == "https://" && ("https://" + rest)[8..] == rest;
  }

  /** The default endpoint passes the pattern. */
  lemma DefaultUrlAccepted()
    ensures HttpUrl(DefaultUrl)
  {
    var rest := "clip.ovo.re/api/v1";
    assert DefaultUrl == "https://" + rest;
    HttpUrlAccepts(rest);
  }

  /** Rejected: an upper-case scheme, another scheme, a line break after the scheme. */
  lemma HttpUrlRejects()
    ensures !HttpUrl("HTTPS://clip.example")
    ensures !HttpUrl("ftp://clip.example")
    ensures !HttpUrl("https://clip\n.example")
  {
    assert "HTTPS://clip.example"[..7][0] == 'H' && "HTTPS://clip.example"[..8][0] == 'H';
    assert "ftp://clip.example"[..7][0] == 'f' && "ftp://clip.example"[..8][0] == 'f';
    assert "https://clip\n.example"[..7][4] == 's';
    assert "https://clip\n.example"[8..][4] == '\n';
  }

  /** An inbound `clipboard:sync` event; its type tag is whatever the sender put there. */
  datatype SyncEvent = SyncEvent(tag: string, content: string, sourceId: string)

  /** The event handler's filter: events this connection sent itself are dropped, others become remote payloads. */
  function Inbound(ev: SyncEvent, socketId: Option<string>): (data: Option<ClipboardData>)
    ensures data.None? <==> socketId == Some(ev.sourceId)
    ensures data.Some? ==> data.value.source == Remote && data.value.plaintext.None?
    ensures data.Some? ==> data.value.tag == ev.tag && data.value.content == ev.content
  {
    if socketId == Some(ev.sourceId) then None
    else Some(ClipboardData(ev.tag, ev.content, None, Remote))
  }

  /** `JSON.stringify({type, content, key, clientId})`: an undefined client id is left out. */
  function SyncBody(tag: string, content: string, key: string, clientId: Option<string>): (body: map<string, string>)
    ensures body.Keys == {"type", "content", "key"} + (if clientId.Some? then {"clientId"} else {})
    ensures body["type"] == tag && body["content"] == content && body["key"] == key
    ensures clientId.Some? ==> body["clientId"] == clientId.value
  {
    var fields := map["type" := tag, "content" := content, "key" := key];
    match clientId
    case Some(id) => fields["clientId" := id]
    case None => fields
  }

  /** A side effect a view performs, in the order it performs them. */
  datatype Effect =
    | Notify(notice: Notice)
    | ClipboardWrite(call: WriteCall)      // writeToClipboard on an incoming or local payload
    | CopyText(text: string)               // clipboard.writeText of the API key
    | PersistBaseUrl(url: string)
    | PersistApiKey(key: string)
    | PersistPassword(password: string)
    | FetchConfig                          // revalidation of the configuration endpoint
    | FetchApiKey(endpoint: Option<string>)
    | Post(endpoint: Option<string>, body: map<string, string>)
    | HttpRequest(request: Pending)        // a request issued through the request hook
    | SocketConnect
    | SocketDisconnect
    | EmitAuth(key: string)

  predicate IsUpload(e: Effect)
  {
    e.Post? || (e.HttpRequest? && EndsWith(e.request.url, "/sync"))
  }

  /** How many times `notice` was shown in `log`. */
  function TimesShown(log: seq<Effect>, notice: Notice): nat
  {
    if log == [] then 0
    else TimesShown(log[..|log| - 1], notice) + (if log[|log| - 1] == Notify(notice) then 1 else 0)
  }

  lemma {:induction false} TimesShownAppend(a: seq<Effect>, b: seq<Effect>, notice: Notice)
    ensures TimesShown(a + b, notice) == TimesShown(a, notice) + TimesShown(b, notice)
    decreases |b|
  {
    if b == [] {
      assert a + b == a;
    } else {
      var b' := b[..|b| - 1];
      assert (a + b)[..|a + b| - 1] == a + b';
      TimesShownAppend(a, b', notice);
    }
  }
}
