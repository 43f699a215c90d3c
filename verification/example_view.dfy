/**
 * The earlier sync coordinator (`ExampleView`), the one the application
 * renders. It keeps the same kind of refs as the production view but its
 * rules differ: every payload is deduplicated and written back to the
 * clipboard, a local payload is meant to be uploaded through the request
 * hook after a successful write (as written, building that upload throws),
 * and the password length is checked when the password field loses focus.
 */
module ExampleView {
  import opened Wrappers
  import opened Typedef
  import opened Constants
  import opened Utils
  import opened Sync
  import Request

  /** What the coordinator calls but does not define. */
  datatype Env = Env(cipher: Cipher, textContent: string -> string)

  datatype ApiKeyResponse = ApiKeyResponse(key: string)
  datatype SyncResponse = SyncResponse(success: bool, message: Option<string>)

  /** The options the upload request hook is created with; `API_CONSTANTS.VERSION` does not exist, so the header is the text "undefined". */
  const SyncDefaults: Request.RequestOptions :=
    Request.RequestOptions(map["method" := Request.Text("POST")], map["X-Cloudboard-Version" := "undefined"],
                           Some(true), None, None)

  /** The per-call options of an upload: only the JSON body. */
  function SyncOptions(tag: string, content: string, key: string, clientId: Option<string>): Request.RequestOptions
  {
    Request.RequestOptions(map["body" := Request.JsonText(SyncBody(tag, content, key, clientId))], map[], None, None, None)
  }

  /** The upload request after merging: a POST of the JSON body whose version header is "undefined". */
  lemma UploadRequestShape(base: string, tag: string, content: string, key: string, clientId: Option<string>)
    ensures var p := Request.Merge(base + "/sync", SyncDefaults, SyncOptions(tag, content, key, clientId));
      && p.url == base + "/sync"
      && p.init["method"] == Request.Text("POST")
      && p.init["body"] == Request.JsonText(SyncBody(tag, content, key, clientId))
      && p.headers["Content-Type"] == "application/json"
      && p.headers["X-Cloudboard-Version"] == "undefined"
      && p.showError && !p.showSuccess
  {
  }

  /** `String.prototype.length`: UTF-16 code units, two for a character outside the Basic Multilingual Plane. */
  function Utf16Length(s: string): (n: nat)
    ensures |s| <= n <= 2 * |s|
  {
    if s == [] then 0 else (if s[0] as int > 0xFFFF then 2 else 1) + Utf16Length(s[1..])
  }

  lemma {:induction false} Utf16LengthOfAstral(s: string)
    requires forall i :: 0 <= i < |s| ==> s[i] as int > 0xFFFF
    ensures Utf16Length(s) == 2 * |s|
  {
    if s != [] {
      Utf16LengthOfAstral(s[1..]);
    }
  }

  predicate PasswordLengthOk(password: string)
  {
    PasswordMinLength <= Utf16Length(password) <= PasswordMaxLength
  }

  /** Seventeen emoji are seventeen characters but thirty-four code units: too long. */
  lemma EmojiPasswordTooLong()
    ensures var p := seq(17, _ => '\U{1F600}');
            |p| == 17 && !PasswordLengthOk(p)
  {
    var p := seq(17, _ => '\U{1F600}');
    Utf16LengthOfAstral(p);
  }

  /** The coordinator's refs and state, its two request hooks, and the effects performed so far. */
  datatype State = State(
    storageLoading: bool,
    apiBaseUrl: string,
    apiKey: string,
    enableE2E: bool,
    password: string,
    lastContent: string,          // dedup cursor
    isProgramWrite: bool,         // echo guard: the next watcher fire is our own write
    socketId: Option<string>,
    log: seq<Effect>,
    keyRequest: Request.RequestState<ApiKeyResponse>,
    syncRequest: Request.RequestState<SyncResponse>)

  /** Persisted settings arrive and the refs take them over. */
  function StorageLoadedSpec(s: State, baseUrl: string, apiKey: string, enableE2E: bool, password: string): (s': State)
    ensures !s'.storageLoading && s'.apiBaseUrl == baseUrl && s'.apiKey == apiKey
    ensures s'.enableE2E == enableE2E && s'.password == password && s'.log == s.log
    ensures s'.lastContent == s.lastContent && s'.isProgramWrite == s.isProgramWrite
    ensures s'.(storageLoading := s.storageLoading, apiBaseUrl := s.apiBaseUrl, apiKey := s.apiKey,
                enableE2E := s.enableE2E, password := s.password) == s
  {
    s.(storageLoading := false, apiBaseUrl := baseUrl, apiKey := apiKey, enableE2E := enableE2E, password := password)
  }

  /** `changeApiBaseUrl`: the raw input is stored exactly when it matches the http(s) pattern. */
  function ChangeApiBaseUrlSpec(s: State, url: string): (s': State)
    ensures HttpUrl(url) ==> s'.apiBaseUrl == url && s'.log == s.log + [PersistBaseUrl(url)]
    ensures !HttpUrl(url) ==> s'.apiBaseUrl == s.apiBaseUrl && s'.log == s.log + [Notify(InvalidApiEndpoint)]
    ensures s'.(apiBaseUrl := s.apiBaseUrl, log := s.log) == s
  {
    if HttpUrl(url) then s.(apiBaseUrl := url, log := s.log + [PersistBaseUrl(url)])
    else s.(log := s.log + [Notify(InvalidApiEndpoint)])
  }

  /**
   * `checkPassword`, run when the password field loses focus: accepted and
   * stored exactly when its length is within the bounds, else a notice only.
   */
  function CheckPasswordSpec(s: State, password: string): (r: (State, bool))
    ensures r.1 <==> PasswordLengthOk(password)
    ensures r.1 ==> r.0 == s.(password := password, log := s.log + [PersistPassword(password)])
    ensures !r.1 ==> r.0 == s.(log := s.log + [Notify(PasswordInvalid)])
  {
    if !PasswordLengthOk(password) then (s.(log := s.log + [Notify(PasswordInvalid)]), false)
    else (s.(password := password, log := s.log + [PersistPassword(password)]), true)
  }

  /**
   * An edit of the password field: the field's change handler stores and
   * persists every edit, whatever its length.
   */
  function PasswordEditedSpec(s: State, password: string): (s': State)
    ensures s'.password == password && s'.log == s.log + [PersistPassword(password)]
    ensures s'.(password := s.password, log := s.log) == s
  {
    s.(password := password, log := s.log + [PersistPassword(password)])
  }

  /** The length check does not guard the stored password: a short edit stays stored after the check rejects it. */
  lemma ShortPasswordStaysStored(s: State)
    ensures var edited := PasswordEditedSpec(s, "abc");
            var (checked, ok) := CheckPasswordSpec(edited, "abc");
            !ok && checked.password == "abc"
  {
    assert Utf16Length("abc") == 3;
  }

  /**
   * `getApiKey`: nothing while a key request is loading; with an empty key,
   * the key is requested and, if the request yields nothing, no copy
   * follows; then the key the callback captured is copied, which is the empty
   * text when it was just provisioned.
   */
  function GetApiKeySpec(s: State, outcome: Request.FetchOutcome<ApiKeyResponse>): (s': State)
    ensures s.keyRequest.loading ==> s' == s
    ensures !s.keyRequest.loading && s.apiKey != "" ==>
              s' == s.(log := s.log + [CopyText(s.apiKey), Notify(ApiKeyCopied)])
    ensures !s.keyRequest.loading && s.apiKey == "" ==>
              !s'.keyRequest.loading && |s'.log| > |s.log| && s'.log[|s.log|].HttpRequest? &&
              s'.log[|s.log|].request.url == s.apiBaseUrl + "/key-gen" &&
              (outcome.Received? ==> s'.apiKey == outcome.value.key && |s'.log| == |s.log| + 4 &&
                                     s'.log[|s.log| + 1] == PersistApiKey(outcome.value.key) &&
                                     s'.log[|s.log| + 2] == CopyText("") &&
                                     s'.log[|s.log| + 3] == Notify(ApiKeyCopied)) &&
              (!outcome.Received? ==> s'.apiKey == s.apiKey && |s'.log| == |s.log| + 1)
    ensures s'.lastContent == s.lastContent && s'.syncRequest == s.syncRequest
    ensures s'.(keyRequest := s.keyRequest, apiKey := s.apiKey, log := s.log) == s
  {
    if s.keyRequest.loading then s
    else if s.apiKey != "" then s.(log := s.log + [CopyText(s.apiKey), Notify(ApiKeyCopied)])
    else
      var p := Request.Merge(s.apiBaseUrl + "/key-gen", Request.NoOptions, Request.NoOptions);
      var (rs, result) := Request.Settled(Request.Started(s.keyRequest), p, outcome);
      var requested := s.(keyRequest := rs, log := s.log + [HttpRequest(p)]);
      match result
      case None => requested
      case Some(response) =>
        requested.(apiKey := response.key,
                   log := requested.log + [PersistApiKey(response.key), CopyText(s.apiKey), Notify(ApiKeyCopied)])
  }

  /**
   * The text a payload is handled with: decrypted only when it is remote and
   * encryption is on; None when the decryption throws.
   */
  function Processed(env: Env, s: State, data: ClipboardData): Option<string>
  {
    if data.source == Remote && s.enableE2E then DecryptContent(env.cipher, data.content, s.password) else Some(data.content)
  }

  /** The text a local payload is uploaded with: encrypted exactly when encryption is on. */
  function UploadContent(env: Env, s: State, processed: string): string
  {
    if s.enableE2E then EncryptContent(env.cipher, processed, s.password) else processed
  }

  /** The upload request for a local payload. */
  function UploadRequest(s: State, tag: string, content: string): Request.Pending
  {
    Request.Merge(s.apiBaseUrl + "/sync", SyncDefaults, SyncOptions(tag, content, s.apiKey, s.socketId))
  }

  /**
   * `handleClipboardData`: a decryption that throws ends the handling; any
   * payload equal to the last content is dropped; otherwise it is recorded,
   * flagged as our own write and written back; a failed write (the platform
   * refused it, or the tag has no writer and the call throws) stops there; a
   * written local payload is then uploaded.
   */
  function HandleClipboardDataSpec(env: Env, s: State, data: ClipboardData, writeOk: bool): (s': State)
    ensures Processed(env, s, data).None? || Processed(env, s, data) == Some(s.lastContent) ==> s' == s
    ensures Processed(env, s, data).Some? && Processed(env, s, data) != Some(s.lastContent) ==>
              Processed(env, s, data) == Some(s'.lastContent) && s'.isProgramWrite &&
              |s'.log| > |s.log| &&
              s'.log[|s.log|] == ClipboardWrite(WriteToClipboard(data.tag, s'.lastContent, data.plaintext, env.textContent))
    ensures var isNew := Processed(env, s, data).Some? && Processed(env, s, data) != Some(s.lastContent);
            var uploaded := isNew && writeOk && data.tag in KindTags + {"files"} && data.source == Local;
            && s'.syncRequest == (if uploaded then Request.Started(s.syncRequest) else s.syncRequest)
            && |s'.log| == |s.log| + (if !isNew then 0 else if uploaded then 2 else 1)
    ensures s'.keyRequest == s.keyRequest && s'.apiKey == s.apiKey && s'.password == s.password
    ensures s'.(lastContent := s.lastContent, isProgramWrite := s.isProgramWrite,
                syncRequest := s.syncRequest, log := s.log) == s
  {
    match Processed(env, s, data)
    case None => s
    case Some(processed) =>
      if processed == s.lastContent then s
      else
        var call := WriteToClipboard(data.tag, processed, data.plaintext, env.textContent);
        var written := s.(lastContent := processed, isProgramWrite := true, log := s.log + [ClipboardWrite(call)]);
        if !writeOk || call.NotAFunction? || data.source != Local then written
        else
          var p := UploadRequest(s, data.tag, UploadContent(env, s, processed));
          written.(syncRequest := Request.Started(s.syncRequest), log := written.log + [HttpRequest(p)])
  }

  /** Both sources are deduplicated: handling the same payload again changes nothing. */
  lemma HandlingIsIdempotent(env: Env, s: State, data: ClipboardData, writeOk: bool, again: bool)
    ensures var s' := HandleClipboardDataSpec(env, s, data, writeOk);
            HandleClipboardDataSpec(env, s', data, again) == s'
  {
  }

  /** A local copy of what was last handled is neither written nor uploaded. */
  lemma LocalDuplicateDropped(env: Env, s: State, data: ClipboardData, writeOk: bool)
    requires data.source == Local && data.content == s.lastContent
    ensures HandleClipboardDataSpec(env, s, data, writeOk) == s
  {
  }

  /** A failed write ends the handling: nothing is uploaded. */
  lemma FailedWriteUploadsNothing(env: Env, s: State, data: ClipboardData)
    ensures var s' := HandleClipboardDataSpec(env, s, data, false);
            s'.syncRequest == s.syncRequest && forall i :: |s.log| <= i < |s'.log| ==> !s'.log[i].HttpRequest?
  {
  }

  /** A written local payload is uploaded once, encrypted exactly when encryption is on, with the key and client id. */
  lemma LocalUploadedAfterWrite(env: Env, s: State, data: ClipboardData)
    requires data.source == Local && data.content != s.lastContent && data.tag in KindTags
    ensures var s' := HandleClipboardDataSpec(env, s, data, true);
            var content := if s.enableE2E then EncryptContent(env.cipher, data.content, s.password) else data.content;
            && s'.log == s.log + [ClipboardWrite(WriteToClipboard(data.tag, data.content, data.plaintext, env.textContent)),
                                  HttpRequest(UploadRequest(s, data.tag, content))]
            && s'.syncRequest.loading
            && UploadRequest(s, data.tag, content).init["body"] ==
                 Request.JsonText(SyncBody(data.tag, content, s.apiKey, s.socketId))
  {
    var content := if s.enableE2E then EncryptContent(env.cipher, data.content, s.password) else data.content;
    UploadRequestShape(s.apiBaseUrl, data.tag, content, s.apiKey, s.socketId);
  }

  /**
   * `handleClipboardData` as the source evaluates it. The socket hook this
   * view imports (`hooks/useWebsocket.ts`) returns no `socketRef`, so
   * building the upload's body reads `current` of `undefined` and throws
   * before the request is made. The result pairs the new state with whether
   * the handling rejects: when the decryption throws, or when a new local
   * payload is written and its upload is reached.
   */
  function HandleClipboardDataAsWritten(env: Env, s: State, data: ClipboardData, writeOk: bool): (r: (State, bool))
    ensures r.1 <==> Processed(env, s, data).None? ||
                     (Processed(env, s, data) != Some(s.lastContent) && writeOk &&
                      data.tag in KindTags + {"files"} && data.source == Local)
    ensures r.0.syncRequest == s.syncRequest && forall i :: |s.log| <= i < |r.0.log| ==> !r.0.log[i].HttpRequest?
  {
    match Processed(env, s, data)
    case None => (s, true)
    case Some(processed) =>
      if processed == s.lastContent then (s, false)
      else
        var call := WriteToClipboard(data.tag, processed, data.plaintext, env.textContent);
        (s.(lastContent := processed, isProgramWrite := true, log := s.log + [ClipboardWrite(call)]),
         writeOk && !call.NotAFunction? && data.source == Local)
  }

  /** As written, handling leaves what the intended handling leaves after a failed write: the payload is written, nothing is posted. */
  lemma AsWrittenIsIntendedWithoutUpload(env: Env, s: State, data: ClipboardData, writeOk: bool)
    ensures HandleClipboardDataAsWritten(env, s, data, writeOk).0 == HandleClipboardDataSpec(env, s, data, false)
  {
  }

  /**
   * The discrepancy on a new local text payload whose write succeeds: the
   * intended handling posts it and starts the upload request, while as
   * written the handling rejects after the write and nothing is posted.
   */
  lemma UploadThrowsAsWritten(env: Env, s: State, content: string)
    requires content != s.lastContent
    ensures var data := ClipboardData("text", content, None, Local);
            var (w, rejected) := HandleClipboardDataAsWritten(env, s, data, true);
            var intended := HandleClipboardDataSpec(env, s, data, true);
            && rejected && w.syncRequest == s.syncRequest && w.lastContent == content
            && intended.syncRequest == Request.Started(s.syncRequest)
            && intended.log == w.log + [HttpRequest(UploadRequest(s, "text", UploadContent(env, s, content)))]
  {
  }

  /** A remote payload is written but never uploaded. */
  lemma RemoteNeverUploaded(env: Env, s: State, data: ClipboardData, writeOk: bool)
    requires data.source == Remote
    ensures HandleClipboardDataSpec(env, s, data, writeOk).syncRequest == s.syncRequest
  {
  }

  /** The upload request settles in the hook. */
  function UploadSettledSpec(s: State, p: Request.Pending, outcome: Request.FetchOutcome<SyncResponse>): (s': State)
    ensures !s'.syncRequest.loading && s'.log == s.log && s'.lastContent == s.lastContent
    ensures outcome.Received? ==> s'.syncRequest.data == Some(outcome.value) && s'.syncRequest.error == s.syncRequest.error
    ensures !outcome.Received? ==> s'.syncRequest.data == s.syncRequest.data && s'.syncRequest.error.Some?
    ensures s'.(syncRequest := s.syncRequest) == s
  {
    s.(syncRequest := Request.Settled(s.syncRequest, p, outcome).0)
  }

  /** The debounced watcher: a raised echo flag is lowered without reading; otherwise a read payload is handled. */
  function WatcherFireSpec(env: Env, s: State, probe: ClipboardProbe, writeOk: bool): (s': State)
    ensures s.isProgramWrite ==> s' == s.(isProgramWrite := false)
    ensures !s.isProgramWrite && ReadClipboardData(probe).None? ==> s' == s
    ensures !s.isProgramWrite && ReadClipboardData(probe).Some? ==>
              s' == HandleClipboardDataSpec(env, s, ReadClipboardData(probe).value, writeOk)
  {
    if s.isProgramWrite then s.(isProgramWrite := false)
    else match ReadClipboardData(probe)
      case None => s
      case Some(data) => HandleClipboardDataSpec(env, s, data, writeOk)
  }

  /**
   * Writing a local payload back raises the echo flag, so the watcher fire
   * that write causes is consumed without reading or uploading again.
   */
  lemma WriteBackConsumedByEcho(env: Env, s: State, data: ClipboardData, writeOk: bool, probe: ClipboardProbe, next: bool)
    requires Processed(env, s, data).Some? && Processed(env, s, data) != Some(s.lastContent)
    ensures var s' := HandleClipboardDataSpec(env, s, data, writeOk);
            WatcherFireSpec(env, s', probe, next) == s'.(isProgramWrite := false)
  {
  }

  /** An inbound relay event: our own echo is dropped, another client's payload is handled as remote. */
  function InboundSpec(env: Env, s: State, ev: SyncEvent, writeOk: bool): (s': State)
    ensures s.socketId == Some(ev.sourceId) ==> s' == s
    ensures s.socketId != Some(ev.sourceId) ==>
              s' == HandleClipboardDataSpec(env, s, ClipboardData(ev.tag, ev.content, None, Remote), writeOk)
    ensures s'.syncRequest == s.syncRequest
  {
    match Inbound(ev, s.socketId)
    case None => s
    case Some(data) => HandleClipboardDataSpec(env, s, data, writeOk)
  }

  /** The coordinator: refs and state as fields, its two request hooks as objects it owns. */
  class ExampleSync {
    var storageLoading: bool
    var apiBaseUrl: string
    var apiKey: string
    var enableE2E: bool
    var password: string
    var lastContent: string
    var isProgramWrite: bool
    var socketId: Option<string>
    var log: seq<Effect>
    const keyRequest: Request.Requester<ApiKeyResponse>
    const syncRequest: Request.Requester<SyncResponse>

    /** The two hooks are distinct objects created with their own defaults. */
    ghost predicate Valid()
    {
      && keyRequest as object != syncRequest as object
      && keyRequest.defaults == Request.NoOptions
      && syncRequest.defaults == SyncDefaults
    }

    function Snapshot(): State
      reads this, keyRequest, syncRequest
    {
      State(storageLoading, apiBaseUrl, apiKey, enableE2E, password, lastContent, isProgramWrite, socketId, log,
            keyRequest.Snapshot(), syncRequest.Snapshot())
    }

    constructor ()
      ensures Valid()
      ensures Snapshot() == State(true, DefaultUrl, "", false, "", "", false, None, [],
                                  Request.RequestState(None, false, None, []), Request.RequestState(None, false, None, []))
    {
      storageLoading, apiBaseUrl, apiKey, enableE2E, password := true, DefaultUrl, "", false, "";
      lastContent, isProgramWrite, socketId, log := "", false, None, [];
      keyRequest := new Request.Requester(Request.NoOptions);
      syncRequest := new Request.Requester(SyncDefaults);
    }

    method OnStorageLoaded(baseUrl: string, key: string, e2e: bool, pass: string)
      requires Valid()
      modifies this
      ensures Valid()
      ensures Snapshot() == StorageLoadedSpec(old(Snapshot()), baseUrl, key, e2e, pass)
    {
      storageLoading := false;
      apiBaseUrl, apiKey := baseUrl, key;
      enableE2E, password := e2e, pass;
    }

    method ChangeApiBaseUrl(url: string)
      requires Valid()
      modifies this
      ensures Valid()
      ensures Snapshot() == ChangeApiBaseUrlSpec(old(Snapshot()), url)
    {
      if !HttpUrl(url) {
        log := log + [Notify(InvalidApiEndpoint)];
        return;
      }
      apiBaseUrl := url;
      log := log + [PersistBaseUrl(url)];
    }

    method CheckPassword(pass: string) returns (ok: bool)
      requires Valid()
      modifies this
      ensures Valid()
      ensures (Snapshot(), ok) == CheckPasswordSpec(old(Snapshot()), pass)
    {
      if Utf16Length(pass) < PasswordMinLength || Utf16Length(pass) > PasswordMaxLength {
        log := log + [Notify(PasswordInvalid)];
        return false;
      }
      password := pass;
      log := log + [PersistPassword(pass)];
      return true;
    }

    method OnPasswordInput(pass: string)
      requires Valid()
      modifies this
      ensures Valid()
      ensures Snapshot() == PasswordEditedSpec(old(Snapshot()), pass)
    {
      password := pass;
      log := log + [PersistPassword(pass)];
    }

    method GetApiKey(outcome: Request.FetchOutcome<ApiKeyResponse>)
      requires Valid()
      modifies this, keyRequest
      ensures Valid()
      ensures Snapshot() == GetApiKeySpec(old(Snapshot()), outcome)
    {
      if keyRequest.loading {
        return;
      }
      var captured := apiKey;
      if apiKey == "" {
        var p, result := keyRequest.Run(apiBaseUrl + "/key-gen", Request.NoOptions, outcome);
        log := log + [HttpRequest(p)];
        if result.None? {
          return;
        }
        apiKey := result.value.key;
        log := log + [PersistApiKey(result.value.key)];
      }
      log := log + [CopyText(captured), Notify(ApiKeyCopied)];
    }

    method HandleClipboardData(env: Env, data: ClipboardData, writeOk: bool)
      requires Valid()
      modifies this, syncRequest
      ensures Valid()
      ensures Snapshot() == HandleClipboardDataSpec(env, old(Snapshot()), data, writeOk)
    {
      var processed := data.content;
      if data.source == Remote && enableE2E {
        var decrypted := DecryptContent(env.cipher, data.content, password);
        if decrypted.None? {
          return;
        }
        processed := decrypted.value;
      }
      if processed == lastContent {
        return;
      }
      lastContent := processed;
      isProgramWrite := true;
      var call := WriteToClipboard(data.tag, processed, data.plaintext, env.textContent);
      log := log + [ClipboardWrite(call)];
      if !writeOk || call.NotAFunction? {
        return;
      }
      if data.source == Local {
        var uploadContent := if enableE2E then EncryptContent(env.cipher, processed, password) else processed;
        var p := syncRequest.Begin(apiBaseUrl + "/sync", SyncOptions(data.tag, uploadContent, apiKey, socketId));
        log := log + [HttpRequest(p)];
      }
    }

    method OnUploadSettled(p: Request.Pending, outcome: Request.FetchOutcome<SyncResponse>)
      requires Valid()
      modifies syncRequest
      ensures Valid()
      ensures Snapshot() == UploadSettledSpec(old(Snapshot()), p, outcome)
    {
      var _ := syncRequest.Complete(p, outcome);
    }

    method OnWatcherFire(env: Env, probe: ClipboardProbe, writeOk: bool)
      requires Valid()
      modifies this, syncRequest
      ensures Valid()
      ensures Snapshot() == WatcherFireSpec(env, old(Snapshot()), probe, writeOk)
    {
      if isProgramWrite {
        isProgramWrite := false;
        return;
      }
      var data := ReadClipboardData(probe);
      if data.Some? {
        HandleClipboardData(env, data.value, writeOk);
      }
    }

    method OnSocketConnected(id: string)
      requires Valid()
      modifies this
      ensures Valid()
      ensures Snapshot() == old(Snapshot()).(socketId := Some(id), log := old(log) + [EmitAuth(old(apiKey))])
    {
      socketId := Some(id);
      log := log + [EmitAuth(apiKey)];
    }

    method OnSocketDisconnected()
      requires Valid()
      modifies this
      ensures Valid()
      ensures Snapshot() == old(Snapshot()).(socketId := None)
    {
      socketId := None;
    }

    method OnInbound(env: Env, ev: SyncEvent, writeOk: bool)
      requires Valid()
      modifies this, syncRequest
      ensures Valid()
      ensures Snapshot() == InboundSpec(env, old(Snapshot()), ev, writeOk)
    {
      if socketId == Some(ev.sourceId) {
        return;
      }
      HandleClipboardData(env, ClipboardData(ev.tag, ev.content, None, Remote), writeOk);
    }
  }
}
