/**
 * The production sync coordinator (`MainView`). Its refs and the state it
 * reads from hooks are the fields of `MainSync`; every callback and effect is
 * a method, proved equal to a pure transition on `State`, and the
 * properties of the coordinator are lemmas about those transitions.
 */
module MainView {
  import opened Wrappers
  import opened Typedef
  import opened Constants
  import opened Utils
  import opened Sync

  /** What the coordinator calls but does not define. */
  datatype Env = Env(
    cipher: Cipher,
    parseUrl: string -> Option<string>,  // `new URL(s).toString()`; None when the constructor throws
    origin: string -> string,            // `new URL(s).origin`
    contentSize: string -> nat,          // `calculateContentSize`
    textContent: string -> string)       // text content of a parsed HTML document

  /** The server configuration: accepted type tags and the size limit (0 stands for no limit). */
  datatype ApiConfig = ApiConfig(clipboardType: seq<string>, clipboardSize: nat)

  datatype Endpoints = Endpoints(keyGen: string, config: string, sync: string, wsUrl: string)

  /** `apiEndpoint`: all four endpoints derive from the base URL; an empty base gives none. */
  function ApiEndpoint(base: string, origin: string -> string): (e: Option<Endpoints>)
    ensures e.None? <==> base == ""
    ensures e.Some? ==> e.value.keyGen == base + "/key-gen" && e.value.config == base + "/config"
    ensures e.Some? ==> e.value.sync == base + "/sync" && e.value.wsUrl == origin(base)
  {
    if base == "" then None
    else Some(Endpoints(base + "/key-gen", base + "/config", base + "/sync", origin(base)))
  }

  /** Two different bases never share a configuration endpoint, so a base change always re-arms the error latch. */
  lemma ConfigEndpointInjective(a: string, b: string, origin: string -> string)
    requires a != b && a != "" && b != ""
    ensures ApiEndpoint(a, origin).value.config != ApiEndpoint(b, origin).value.config
  {
    var ca, cb := a + "/config", b + "/config";
    if |a| != |b| {
      assert |ca| != |cb|;
    } else {
      var i :| 0 <= i < |a| && a[i] != b[i];
      assert ca[i] == a[i] && cb[i] == b[i];
    }
  }

  function KeyGenUrl(env: Env, base: string): Option<string>
  {
    match ApiEndpoint(base, env.origin)
    case Some(e) => Some(e.keyGen)
    case None => None
  }

  function SyncUrl(env: Env, base: string): Option<string>
  {
    match ApiEndpoint(base, env.origin)
    case Some(e) => Some(e.sync)
    case None => None
  }

  /** The coordinator's refs and hook state, and the effects performed so far. */
  datatype State = State(
    storageLoading: bool,         // persisted settings not loaded yet
    apiBaseUrl: string,
    apiKey: string,
    enableEncryption: bool,
    password: string,
    lastContent: string,          // dedup cursor
    isProgramWrite: bool,         // echo guard: the next watcher fire is our own write
    hasError: bool,               // error-notification latch of the configuration endpoint
    needNotify: bool,
    connectionState: SocketState,
    apiConfig: Option<ApiConfig>,
    socketId: Option<string>,
    apiKeyLoading: bool,
    uploading: bool,
    log: seq<Effect>)

  // ---------------------------------------------------------------------
  // Settings and the base URL
  // ---------------------------------------------------------------------

  /** Persisted settings arrive: the refs take them over; a different base re-arms the latch. */
  function StorageLoadedSpec(s: State, baseUrl: string, apiKey: string, enableEncryption: bool, password: string): (s': State)
    ensures !s'.storageLoading && s'.apiBaseUrl == baseUrl && s'.apiKey == apiKey
    ensures s'.enableEncryption == enableEncryption && s'.password == password
    ensures s'.hasError == (s.hasError && baseUrl == s.apiBaseUrl)
    ensures s'.log == s.log
    ensures s'.(storageLoading := s.storageLoading, apiBaseUrl := s.apiBaseUrl, apiKey := s.apiKey,
                enableEncryption := s.enableEncryption, password := s.password, hasError := s.hasError) == s
  {
    s.(storageLoading := false, apiBaseUrl := baseUrl, apiKey := apiKey,
       enableEncryption := enableEncryption, password := password,
       hasError := s.hasError && baseUrl == s.apiBaseUrl)
  }

  /**
   * `changeApiBaseUrl`: the normalised URL must parse and match the http(s)
   * pattern; an unchanged URL does nothing; a new one is stored, persisted and
   * its configuration fetched with a success notification requested.
   */
  function ChangeApiBaseUrlSpec(env: Env, s: State, url: string): (s': State)
    ensures env.parseUrl(url).None? || !HttpUrl(env.parseUrl(url).value) ==>
              s' == s.(log := s.log + [Notify(InvalidApiEndpoint)])
    ensures env.parseUrl(url) == Some(s.apiBaseUrl) && HttpUrl(s.apiBaseUrl) ==> s' == s
    ensures s'.apiBaseUrl == s.apiBaseUrl || (Some(s'.apiBaseUrl) == env.parseUrl(url) && HttpUrl(s'.apiBaseUrl))
    ensures s'.apiBaseUrl != s.apiBaseUrl ==>
              s'.needNotify && !s'.hasError && s'.log == s.log + [PersistBaseUrl(s'.apiBaseUrl), FetchConfig]
    ensures s'.apiKey == s.apiKey && s'.lastContent == s.lastContent && s'.isProgramWrite == s.isProgramWrite
    ensures s'.(apiBaseUrl := s.apiBaseUrl, hasError := s.hasError, needNotify := s.needNotify, log := s.log) == s
  {
    match env.parseUrl(url)
    case None => s.(log := s.log + [Notify(InvalidApiEndpoint)])
    case Some(normalised) =>
      if !HttpUrl(normalised) then s.(log := s.log + [Notify(InvalidApiEndpoint)])
      else if normalised == s.apiBaseUrl then s
      else s.(apiBaseUrl := normalised, hasError := false, needNotify := true,
              log := s.log + [PersistBaseUrl(normalised), FetchConfig])
  }

  // ---------------------------------------------------------------------
  // The API key
  // ---------------------------------------------------------------------

  /**
   * `getApiKey({copy})`: nothing while settings or a key request are loading;
   * a key request when the key is empty; with `copy`, the key the ref holds
   * NOW is copied, before any request has answered. The callback's
   * dependencies leave the settings flag out, so it tests `loadingSeen`, the
   * flag of the render that last recreated it, not the current
   * `storageLoading`; the key-request flag is among its dependencies and is
   * current.
   */
  function GetApiKeySpec(env: Env, s: State, copy: bool, loadingSeen: bool): (s': State)
    ensures loadingSeen || s.apiKeyLoading ==> s' == s
    ensures |s'.log| >= |s.log| && s'.log[..|s.log|] == s.log
    ensures !loadingSeen && !s.apiKeyLoading ==>
              s'.apiKeyLoading == (s.apiKey == "") &&
              s'.log == s.log + (if s.apiKey == "" then [FetchApiKey(KeyGenUrl(env, s.apiBaseUrl))] else [])
                              + (if copy then [CopyText(s.apiKey), Notify(ApiKeyCopied)] else [])
    ensures s'.(apiKeyLoading := s.apiKeyLoading, log := s.log) == s
  {
    if loadingSeen || s.apiKeyLoading then s
    else
      var requested := if s.apiKey == "" then s.(apiKeyLoading := true, log := s.log + [FetchApiKey(KeyGenUrl(env, s.apiBaseUrl))])
                       else s;
      if copy then requested.(log := requested.log + [CopyText(s.apiKey), Notify(ApiKeyCopied)])
      else requested
  }

  /** The first copy of a key not provisioned yet copies the empty string. */
  lemma FirstCopyIsEmpty(env: Env, s: State)
    requires !s.apiKeyLoading && s.apiKey == ""
    ensures CopyText("") in GetApiKeySpec(env, s, true, false).log[|s.log|..]
    ensures GetApiKeySpec(env, s, true, false).apiKeyLoading
  {
    var s' := GetApiKeySpec(env, s, true, false);
    assert s'.log[|s.log|..] == [FetchApiKey(KeyGenUrl(env, s.apiBaseUrl)), CopyText(""), Notify(ApiKeyCopied)];
  }

  /**
   * `getApiKey` as evidently intended: it tests the current settings flag, so
   * once settings are loaded an empty key is always requested.
   */
  function GetApiKeyIntended(env: Env, s: State, copy: bool): (s': State)
    ensures !s.storageLoading && !s.apiKeyLoading && s.apiKey == "" ==>
              s'.apiKeyLoading && |s'.log| > |s.log| && s'.log[|s.log|] == FetchApiKey(KeyGenUrl(env, s.apiBaseUrl))
    ensures s.storageLoading || s.apiKeyLoading ==> s' == s
  {
    GetApiKeySpec(env, s, copy, s.storageLoading)
  }

  /**
   * The key request settles: a truthy key is stored and persisted; the request
   * is no longer loading. The key ref is set before the setting, so the render
   * the setting causes sees a changed key, and the socket effect, which depends
   * on it, authenticates again with the new key while connected.
   */
  function ApiKeyFetchedSpec(s: State, key: Option<string>): (s': State)
    ensures !s'.apiKeyLoading
    ensures Truthy(key) ==>
              s'.apiKey == key.value &&
              s'.log == s.log + [PersistApiKey(key.value)]
                              + (if s.socketId.Some? && key.value != s.apiKey then [EmitAuth(key.value)] else [])
    ensures !Truthy(key) ==> s'.apiKey == s.apiKey && s'.log == s.log
    ensures s'.(apiKeyLoading := s.apiKeyLoading, apiKey := s.apiKey, log := s.log) == s
  {
    if Truthy(key) then
      var auth := if s.socketId.Some? && key.value != s.apiKey then [EmitAuth(key.value)] else [];
      s.(apiKeyLoading := false, apiKey := key.value, log := s.log + [PersistApiKey(key.value)] + auth)
    else s.(apiKeyLoading := false)
  }

  /** Once a provisioned key arrives while connected, the socket's latest authentication carries it. */
  lemma ProvisionedKeyAuthenticated(s: State, key: string)
    requires s.socketId.Some? && s.apiKey == "" && key != ""
    ensures var s' := ApiKeyFetchedSpec(s, Some(key));
            s'.apiKey == key && s'.log[|s'.log| - 1] == EmitAuth(key)
  {
  }

  // ---------------------------------------------------------------------
  // The configuration effect and the connection state
  // ---------------------------------------------------------------------

  /**
   * What the configuration request reports to its effect. A success also
   * carries the settings flag the `getApiKey` that the effect calls captured.
   */
  datatype ConfigOutcome = Loading | Failed | Loaded(config: ApiConfig, loadingSeen: bool)

  /**
   * The configuration effect: loading shows Connecting; an error shows Error,
   * disconnects and notifies only when the latch is open; a success shows
   * Connected, connects, re-arms the latch, caches the configuration,
   * provisions a key without copying it and notifies when asked to.
   */
  function OnConfigOutcomeSpec(env: Env, s: State, outcome: ConfigOutcome): (s': State)
    ensures outcome.Loading? ==> s' == s.(connectionState := Connecting)
    ensures outcome.Failed? ==>
              s' == s.(hasError := true, connectionState := Error,
                       log := s.log + (if s.hasError then [] else [Notify(GetConfigFailed)]) + [SocketDisconnect])
    ensures outcome.Loaded? ==>
              s'.connectionState == Connected && !s'.hasError && s'.apiConfig == Some(outcome.config) &&
              s'.apiKey == s.apiKey && s'.needNotify == s.needNotify
    ensures outcome.Loaded? ==>
              s'.(connectionState := s.connectionState, hasError := s.hasError, apiConfig := s.apiConfig,
                  apiKeyLoading := s.apiKeyLoading, log := s.log) == s
    ensures outcome.Loaded? ==>
              var provisioning := !outcome.loadingSeen && !s.apiKeyLoading && s.apiKey == "";
              && s'.apiKeyLoading == (s.apiKeyLoading || provisioning)
              && s'.log == s.log + [SocketConnect]
                                 + (if provisioning then [FetchApiKey(KeyGenUrl(env, s.apiBaseUrl))] else [])
                                 + (if s.needNotify then [Notify(GetConfigSuccess)] else [])
  {
    match outcome
    case Loading => s.(connectionState := Connecting)
    case Failed =>
      var notices := if s.hasError then [] else [Notify(GetConfigFailed)];
      s.(hasError := true, connectionState := Error, log := s.log + notices + [SocketDisconnect])
    case Loaded(config, loadingSeen) => ConfigLoadedSpec(env, s, config, loadingSeen)
  }

  /** A configuration success, the Loaded branch of the configuration effect. */
  function ConfigLoadedSpec(env: Env, s: State, config: ApiConfig, loadingSeen: bool): State
  {
    SuccessNoticeSpec(GetApiKeySpec(env, ConnectedSpec(s, config), false, loadingSeen))
  }

  /** Connected shown, socket connected, latch re-armed, configuration cached. */
  function ConnectedSpec(s: State, config: ApiConfig): State
  {
    s.(connectionState := Connected, log := s.log + [SocketConnect], hasError := false, apiConfig := Some(config))
  }

  /** The success notice, when one was asked for. */
  function SuccessNoticeSpec(s: State): State
  {
    if s.needNotify then s.(log := s.log + [Notify(GetConfigSuccess)]) else s
  }

  /** A run of configuration outcomes, oldest first. */
  function ConfigRun(env: Env, s: State, outcomes: seq<ConfigOutcome>): State
    decreases |outcomes|
  {
    if outcomes == [] then s
    else OnConfigOutcomeSpec(env, ConfigRun(env, s, outcomes[..|outcomes| - 1]), outcomes[|outcomes| - 1])
  }

  /** One outcome that is not a success: the latch closes on a failure, which is notified only through an open latch. */
  lemma LatchStep(env: Env, s: State, outcome: ConfigOutcome)
    requires !outcome.Loaded?
    ensures OnConfigOutcomeSpec(env, s, outcome).hasError == (s.hasError || outcome.Failed?)
    ensures TimesShown(OnConfigOutcomeSpec(env, s, outcome).log, GetConfigFailed) ==
            TimesShown(s.log, GetConfigFailed) + (if !s.hasError && outcome.Failed? then 1 else 0)
  {
    if outcome.Failed? {
      var notices: seq<Effect> := if s.hasError then [] else [Notify(GetConfigFailed)];
      assert OnConfigOutcomeSpec(env, s, outcome).log == s.log + notices + [SocketDisconnect];
      TimesShownAppend(s.log + notices, [SocketDisconnect], GetConfigFailed);
      TimesShownAppend(s.log, notices, GetConfigFailed);
      assert TimesShown([SocketDisconnect], GetConfigFailed) == 0 by {
        assert [SocketDisconnect][..0] == [];
      }
      assert TimesShown(notices, GetConfigFailed) == (if s.hasError then 0 else 1) by {
        if !s.hasError {
          assert notices[..0] == [];
        }
      }
    }
  }

  /**
   * The error latch: over a run with no success, the failure notice is shown
   * once if the latch was open and some outcome failed, and never otherwise;
   * the latch ends closed exactly when it was closed or something failed.
   */
  lemma {:induction false} ConfigFailureNotifiedOnce(env: Env, s: State, outcomes: seq<ConfigOutcome>)
    requires forall i :: 0 <= i < |outcomes| ==> !outcomes[i].Loaded?
    ensures ConfigRun(env, s, outcomes).hasError == (s.hasError || Failed in outcomes)
    ensures TimesShown(ConfigRun(env, s, outcomes).log, GetConfigFailed) ==
            TimesShown(s.log, GetConfigFailed) + (if !s.hasError && Failed in outcomes then 1 else 0)
    decreases |outcomes|
  {
    if outcomes != [] {
      var init := outcomes[..|outcomes| - 1];
      var last := outcomes[|outcomes| - 1];
      assert outcomes == init + [last];
      assert (Failed in outcomes) == (Failed in init || last == Failed);
      ConfigFailureNotifiedOnce(env, s, init);
      LatchStep(env, ConfigRun(env, s, init), last);
    }
  }

  /**
   * A stale settings flag blocks provisioning for good: when every success in
   * a run of configuration outcomes calls a `getApiKey` that captured the flag
   * while settings were loading, a missing key is never requested and stays
   * missing.
   */
  lemma {:induction false} StaleLoadingNeverProvisions(env: Env, s: State, outcomes: seq<ConfigOutcome>)
    requires s.apiKey == "" && !s.apiKeyLoading
    requires forall i :: 0 <= i < |outcomes| && outcomes[i].Loaded? ==> outcomes[i].loadingSeen
    ensures var r := ConfigRun(env, s, outcomes);
            && r.apiKey == "" && !r.apiKeyLoading && |s.log| <= |r.log|
            && forall i :: |s.log| <= i < |r.log| ==> !r.log[i].FetchApiKey?
    decreases |outcomes|
  {
    if outcomes != [] {
      var init := outcomes[..|outcomes| - 1];
      var last := outcomes[|outcomes| - 1];
      StaleLoadingNeverProvisions(env, s, init);
      var mid := ConfigRun(env, s, init);
      StaleStep(env, mid, last);
      var r := ConfigRun(env, s, outcomes);
      assert r == OnConfigOutcomeSpec(env, mid, last);
      forall i | |s.log| <= i < |r.log|
        ensures !r.log[i].FetchApiKey?
      {
        if i < |mid.log| {
          assert r.log[i] == mid.log[i];
        }
      }
    }
  }

  /** One outcome under a stale flag: the log only grows, and by no key request. */
  lemma StaleStep(env: Env, s: State, outcome: ConfigOutcome)
    requires s.apiKey == "" && !s.apiKeyLoading
    requires outcome.Loaded? ==> outcome.loadingSeen
    ensures var r := OnConfigOutcomeSpec(env, s, outcome);
            && r.apiKey == "" && !r.apiKeyLoading && |s.log| <= |r.log| && r.log[..|s.log|] == s.log
            && forall i :: |s.log| <= i < |r.log| ==> !r.log[i].FetchApiKey?
  {
    var r := OnConfigOutcomeSpec(env, s, outcome);
    var extra: seq<Effect> := match outcome
      case Loading => []
      case Failed => (if s.hasError then [] else [Notify(GetConfigFailed)]) + [SocketDisconnect]
      case Loaded(_, _) => [SocketConnect] + (if s.needNotify then [Notify(GetConfigSuccess)] else []);
    assert r.log == s.log + extra;
    assert forall j :: 0 <= j < |extra| ==> !extra[j].FetchApiKey?;
    assert forall i :: |s.log| <= i < |r.log| ==> r.log[i] == extra[i - |s.log|];
  }


  /** After a success the latch is open again: the next failure is notified. */
  lemma SuccessRearmsLatch(env: Env, s: State, config: ApiConfig, loadingSeen: bool)
    ensures var ok := OnConfigOutcomeSpec(env, s, Loaded(config, loadingSeen));
            TimesShown(OnConfigOutcomeSpec(env, ok, Failed).log, GetConfigFailed) ==
            TimesShown(ok.log, GetConfigFailed) + 1
  {
    var ok := OnConfigOutcomeSpec(env, s, Loaded(config, loadingSeen));
    var extra := [Notify(GetConfigFailed), SocketDisconnect];
    assert OnConfigOutcomeSpec(env, ok, Failed).log == ok.log + extra;
    TimesShownAppend(ok.log, extra, GetConfigFailed);
    assert extra[..1] == [Notify(GetConfigFailed)];
    assert extra[..1][..0] == [];
  }

  /** A new base URL re-arms the latch too: a failure of its configuration endpoint is notified. */
  lemma NewBaseRearmsLatch(env: Env, s: State, url: string)
    requires ChangeApiBaseUrlSpec(env, s, url).apiBaseUrl != s.apiBaseUrl
    ensures var changed := ChangeApiBaseUrlSpec(env, s, url);
            TimesShown(OnConfigOutcomeSpec(env, changed, Failed).log, GetConfigFailed) ==
            TimesShown(changed.log, GetConfigFailed) + 1
  {
    var changed := ChangeApiBaseUrlSpec(env, s, url);
    var extra := [Notify(GetConfigFailed), SocketDisconnect];
    assert OnConfigOutcomeSpec(env, changed, Failed).log == changed.log + extra;
    TimesShownAppend(changed.log, extra, GetConfigFailed);
    assert extra[..1] == [Notify(GetConfigFailed)];
    assert extra[..1][..0] == [];
  }

  /** The socket-flag effect's outcome: its tests run in order and the last one that fires wins. */
  function FlagsState(isConnecting: bool, isConnected: bool, error: bool): (state: SocketState)
    ensures state == Error <==> error
    ensures state == Connected <==> !error && isConnected
    ensures state == Connecting <==> !error && !isConnected && isConnecting
    ensures state == Disconnected <==> !error && !isConnected && !isConnecting
  {
    if error then Error
    else if isConnected then Connected
    else if isConnecting then Connecting
    else Disconnected
  }

  // ---------------------------------------------------------------------
  // Clipboard payloads
  // ---------------------------------------------------------------------

  /**
   * Every gate `uploadClipboard` applies before posting. `inFlight` is the
   * request-in-flight flag as the calling closure captured it, which need not
   * be the current `uploading`.
   */
  predicate UploadAllowed(env: Env, s: State, tag: string, content: string, inFlight: bool)
  {
    && s.socketId.Some? && s.socketId.value != ""
    && !inFlight
    && s.apiConfig.Some? && tag in s.apiConfig.value.clipboardType
    && (s.apiConfig.value.clipboardSize == 0 || env.contentSize(content) <= s.apiConfig.value.clipboardSize)
  }

  /** `uploadClipboard`: posts the payload with the key and this client's id when every gate passes, else nothing. */
  function UploadSpec(env: Env, s: State, tag: string, content: string, inFlight: bool): (s': State)
    ensures !UploadAllowed(env, s, tag, content, inFlight) ==> s' == s
    ensures UploadAllowed(env, s, tag, content, inFlight) ==>
              s' == s.(uploading := true,
                       log := s.log + [Post(SyncUrl(env, s.apiBaseUrl), SyncBody(tag, content, s.apiKey, s.socketId))])
    ensures s'.lastContent == s.lastContent && s'.isProgramWrite == s.isProgramWrite
  {
    if UploadAllowed(env, s, tag, content, inFlight) then
      s.(uploading := true, log := s.log + [Post(SyncUrl(env, s.apiBaseUrl), SyncBody(tag, content, s.apiKey, s.socketId))])
    else s
  }

  /** The size gate is inclusive, and a zero limit means no limit. */
  lemma UploadSizeBoundary(env: Env, s: State, tag: string, content: string)
    requires s.socketId == Some("client-1")
    requires s.apiConfig.Some? && tag in s.apiConfig.value.clipboardType
    ensures s.apiConfig.value.clipboardSize == 1000 && env.contentSize(content) == 1000 ==>
              UploadSpec(env, s, tag, content, false).uploading
    ensures s.apiConfig.value.clipboardSize == 1000 && env.contentSize(content) == 1001 ==>
              UploadSpec(env, s, tag, content, false) == s
    ensures s.apiConfig.value.clipboardSize == 0 ==> UploadSpec(env, s, tag, content, false).uploading
  {
  }

  /** The posted body names this client, so the relay's echo of it is recognised as ours. */
  lemma UploadNamesThisClient(env: Env, s: State, tag: string, content: string, inFlight: bool)
    requires UploadAllowed(env, s, tag, content, inFlight)
    ensures var post := UploadSpec(env, s, tag, content, inFlight).log[|s.log|];
            post.Post? && post.body["clientId"] == s.socketId.value && post.body["key"] == s.apiKey &&
            post.body["type"] == tag && post.body["content"] == content
  {
  }

  /** The upload settles: code 200 notifies success, any other code its code and message, an error failure. */
  datatype UploadOutcome = Response(code: int, msg: string) | Failure

  function UploadDoneSpec(s: State, outcome: UploadOutcome): (s': State)
    ensures !s'.uploading && |s'.log| == |s.log| + 1 && s'.log[..|s.log|] == s.log
    ensures s'.log[|s.log|] == Notify(UploadSucceeded) <==> outcome.Response? && outcome.code == 200
    ensures outcome.Failure? ==> s'.log[|s.log|] == Notify(UploadFailed)
    ensures s'.(uploading := s.uploading, log := s.log) == s
  {
    match outcome
    case Response(code, msg) =>
      s.(uploading := false, log := s.log + [Notify(if code == 200 then UploadSucceeded else UploadRejected(code, msg))])
    case Failure => s.(uploading := false, log := s.log + [Notify(UploadFailed)])
  }

  /** The text a remote payload is written with: decrypted exactly when encryption is on; None when the decryption throws. */
  function Incoming(env: Env, s: State, data: ClipboardData): Option<string>
  {
    if s.enableEncryption then DecryptContent(env.cipher, data.content, s.password) else Some(data.content)
  }

  /** The text a local payload is uploaded with: encrypted exactly when encryption is on. */
  function Outgoing(env: Env, s: State, data: ClipboardData): string
  {
    if s.enableEncryption then EncryptContent(env.cipher, data.content, s.password) else data.content
  }

  /**
   * `handleClipboardData`: a remote payload is decrypted (a decryption that
   * throws ends the handling), dropped when it equals the last content, else
   * recorded, flagged as our own write and written; a local payload is never
   * compared with the last content and goes to the upload, gated by the
   * in-flight flag the calling closure captured.
   */
  function HandleClipboardDataSpec(env: Env, s: State, data: ClipboardData, inFlight: bool): (s': State)
    ensures data.source == Remote ==>
              (s' == s <==> Incoming(env, s, data).None? || Incoming(env, s, data) == Some(s.lastContent))
    ensures data.source == Remote && s' != s ==>
              Incoming(env, s, data) == Some(s'.lastContent) && s'.isProgramWrite &&
              s'.log == s.log + [ClipboardWrite(WriteToClipboard(data.tag, s'.lastContent, data.plaintext, env.textContent))]
    ensures data.source == Remote ==> s'.(lastContent := s.lastContent, isProgramWrite := s.isProgramWrite, log := s.log) == s
    ensures data.source == Local ==> s' == UploadSpec(env, s, data.tag, Outgoing(env, s, data), inFlight)
  {
    if data.source == Remote then
      match Incoming(env, s, data)
      case None => s
      case Some(processed) =>
        if processed == s.lastContent then s
        else s.(lastContent := processed, isProgramWrite := true,
                log := s.log + [ClipboardWrite(WriteToClipboard(data.tag, processed, data.plaintext, env.textContent))])
    else UploadSpec(env, s, data.tag, Outgoing(env, s, data), inFlight)
  }

  /** The same remote payload twice is written once. */
  lemma RemoteDeliveryIdempotent(env: Env, s: State, data: ClipboardData, inFlight: bool, again: bool)
    requires data.source == Remote
    ensures var s' := HandleClipboardDataSpec(env, s, data, inFlight);
            HandleClipboardDataSpec(env, s', data, again) == s'
  {
  }

  /** A remote payload never causes an upload and never touches the upload state. */
  lemma RemoteIsNeverUploaded(env: Env, s: State, data: ClipboardData, inFlight: bool)
    requires data.source == Remote
    ensures var s' := HandleClipboardDataSpec(env, s, data, inFlight);
            s'.uploading == s.uploading && forall i :: |s.log| <= i < |s'.log| ==> !IsUpload(s'.log[i])
  {
  }

  /** A peer's ciphertext under the same password is written as its plaintext. */
  lemma RemoteCiphertextWrittenDecrypted(env: Env, s: State, data: ClipboardData, plain: string, inFlight: bool)
    requires data.source == Remote && s.enableEncryption && data.tag in KindTags
    requires data.content == EncryptContent(env.cipher, plain, s.password)
    requires env.cipher.decryptUtf8(env.cipher.encrypt(plain, s.password), s.password) == Some(plain)
    requires plain != "" && plain != s.lastContent
    ensures var s' := HandleClipboardDataSpec(env, s, data, inFlight);
            s'.lastContent == plain &&
            Written(s'.log[|s'.log| - 1].call) == Some(plain)
  {
    DecryptAfterEncrypt(env.cipher, plain, s.password);
    EveryKindIsWritten(data.tag, plain, data.plaintext, env.textContent);
  }

  /** A remote payload whose decryption throws changes nothing: not the last content, not the echo flag, nothing written. */
  lemma UndecryptableRemoteIgnored(env: Env, s: State, data: ClipboardData, inFlight: bool)
    requires data.source == Remote && s.enableEncryption
    requires env.cipher.decryptUtf8(data.content, s.password).None?
    ensures HandleClipboardDataSpec(env, s, data, inFlight) == s
  {
  }

  /**
   * A remote payload with a tag the writer table lacks writes nothing, yet the
   * echo flag is raised, so the next watcher fire is swallowed, whatever the
   * clipboard then holds.
   */
  lemma UnwritableRemoteSwallowsNextFire(env: Env, s: State, data: ClipboardData, inFlight: bool, probe: ClipboardProbe)
    requires data.source == Remote && data.tag !in KindTags
    requires Incoming(env, s, data).Some? && Incoming(env, s, data) != Some(s.lastContent)
    ensures var s' := HandleClipboardDataSpec(env, s, data, inFlight);
            && Written(s'.log[|s'.log| - 1].call).None?
            && WatcherFireSpec(env, s', probe) == s'.(isProgramWrite := false)
  {
    EveryKindIsWritten(data.tag, Incoming(env, s, data).value, data.plaintext, env.textContent);
  }

  /** A local payload is not deduplicated: the last content neither blocks it nor is updated by it. */
  lemma LocalNeverDeduplicated(env: Env, s: State, data: ClipboardData, cursor: string, inFlight: bool)
    requires data.source == Local
    ensures HandleClipboardDataSpec(env, s.(lastContent := cursor), data, inFlight) ==
            HandleClipboardDataSpec(env, s, data, inFlight).(lastContent := cursor)
    ensures HandleClipboardDataSpec(env, s, data, inFlight).lastContent == s.lastContent
  {
    var t := s.(lastContent := cursor);
    assert Outgoing(env, t, data) == Outgoing(env, s, data);
    assert UploadAllowed(env, t, data.tag, Outgoing(env, s, data), inFlight) ==
           UploadAllowed(env, s, data.tag, Outgoing(env, s, data), inFlight);
  }

  /**
   * The debounced watcher: when the echo flag is up it is lowered and the
   * clipboard is not read; otherwise a read with nothing is ignored and a
   * payload is handled. The watcher is registered once, by an effect with no
   * dependencies, so it calls the `handleClipboardData` of the first render,
   * whose `uploadClipboard` captured the in-flight flag of that render: false.
   */
  function WatcherFireSpec(env: Env, s: State, probe: ClipboardProbe): (s': State)
    ensures s.isProgramWrite ==> s' == s.(isProgramWrite := false)
    ensures !s.isProgramWrite && ReadClipboardData(probe).None? ==> s' == s
    ensures !s.isProgramWrite && ReadClipboardData(probe).Some? ==>
              s' == UploadSpec(env, s, ReadClipboardData(probe).value.tag,
                               Outgoing(env, s, ReadClipboardData(probe).value), false)
  {
    if s.isProgramWrite then s.(isProgramWrite := false)
    else match ReadClipboardData(probe)
      case None => s
      case Some(data) => HandleClipboardDataSpec(env, s, data, false)
  }

  /**
   * The in-flight gate never stops a watcher upload: with a request still in
   * flight, a local change that passes the other gates is posted again.
   */
  lemma WatcherIgnoresUploadInFlight(env: Env, s: State, probe: ClipboardProbe)
    requires s.uploading && !s.isProgramWrite && ReadClipboardData(probe).Some?
    requires var data := ReadClipboardData(probe).value;
             UploadAllowed(env, s, data.tag, Outgoing(env, s, data), false)
    ensures var s' := WatcherFireSpec(env, s, probe);
            |s'.log| == |s.log| + 1 && s'.log[|s.log|].Post?
    ensures var data := ReadClipboardData(probe).value;
            UploadSpec(env, s, data.tag, Outgoing(env, s, data), s.uploading) == s
  {
  }

  /**
   * Our own write is not uploaded back: after a remote payload is written,
   * the next watcher fire only lowers the echo flag, whatever the clipboard
   * then holds. Since the flag is raised before the write whether or not the
   * write succeeds, a failed write swallows the next genuine local change.
   */
  lemma EchoConsumesNextFire(env: Env, s: State, data: ClipboardData, inFlight: bool, probe: ClipboardProbe)
    requires data.source == Remote && Incoming(env, s, data).Some? && Incoming(env, s, data) != Some(s.lastContent)
    ensures var written := HandleClipboardDataSpec(env, s, data, inFlight);
            WatcherFireSpec(env, written, probe) == written.(isProgramWrite := false)
  {
  }

  /** The read ignores the configured size limit: an over-limit payload is read and only the upload gate drops it. */
  lemma ReadIgnoresSizeLimit(env: Env, s: State, probe: ClipboardProbe)
    requires !s.isProgramWrite && s.apiConfig.Some? && s.apiConfig.value.clipboardSize > 0
    requires ReadClipboardData(probe).Some?
    requires env.contentSize(Outgoing(env, s, ReadClipboardData(probe).value)) > s.apiConfig.value.clipboardSize
    ensures WatcherFireSpec(env, s, probe) == s
  {
  }

  /**
   * An inbound relay event: our own echo is dropped, another client's payload
   * is handled as remote (a remote payload never reaches the upload, so the
   * in-flight flag its closure captured plays no part).
   */
  function InboundSpec(env: Env, s: State, ev: SyncEvent): (s': State)
    ensures s.socketId == Some(ev.sourceId) ==> s' == s
    ensures s.socketId != Some(ev.sourceId) ==>
              s' == HandleClipboardDataSpec(env, s, ClipboardData(ev.tag, ev.content, None, Remote), false)
  {
    match Inbound(ev, s.socketId)
    case None => s
    case Some(data) => HandleClipboardDataSpec(env, s, data, false)
  }

  /** The coordinator: refs and hook state as fields, callbacks and effects as methods. */
  class MainSync {
    var storageLoading: bool
    var apiBaseUrl: string
    var apiKey: string
    var enableEncryption: bool
    var password: string
    var lastContent: string
    var isProgramWrite: bool
    var hasError: bool
    var needNotify: bool
    var connectionState: SocketState
    var apiConfig: Option<ApiConfig>
    var socketId: Option<string>
    var apiKeyLoading: bool
    var uploading: bool
    var log: seq<Effect>

    function Snapshot(): State
      reads this
    {
      State(storageLoading, apiBaseUrl, apiKey, enableEncryption, password, lastContent, isProgramWrite,
            hasError, needNotify, connectionState, apiConfig, socketId, apiKeyLoading, uploading, log)
    }

    constructor ()
      ensures Snapshot() == State(true, DefaultUrl, "", false, "", "", false, false, false, Disconnected,
                                  None, None, false, false, [])
    {
      storageLoading, apiBaseUrl, apiKey, enableEncryption, password := true, DefaultUrl, "", false, "";
      lastContent, isProgramWrite, hasError, needNotify := "", false, false, false;
      connectionState, apiConfig, socketId := Disconnected, None, None;
      apiKeyLoading, uploading, log := false, false, [];
    }

    /** The status shown for the connection state. */
    function SocketStatus(): (status: Status)
      reads this
      ensures SocketConfig(Code(connectionState)) == Some(status)
    {
      SocketConfig(Code(connectionState)).value
    }

    method OnStorageLoaded(baseUrl: string, key: string, encryption: bool, pass: string)
      modifies this
      ensures Snapshot() == StorageLoadedSpec(old(Snapshot()), baseUrl, key, encryption, pass)
    {
      // the latch reset effect runs when the configuration endpoint changes
      var latch := hasError;
      if apiBaseUrl != baseUrl {
        latch := false;
      }
      storageLoading, apiBaseUrl, hasError := false, baseUrl, latch;
      apiKey := key;
      enableEncryption, password := encryption, pass;
    }

    method ChangeApiBaseUrl(env: Env, url: string)
      modifies this
      ensures Snapshot() == ChangeApiBaseUrlSpec(env, old(Snapshot()), url)
    {
      var parsed := env.parseUrl(url);
      if parsed.None? || !HttpUrl(parsed.value) {
        log := log + [Notify(InvalidApiEndpoint)];
        return;
      }
      var normalised := parsed.value;
      if apiBaseUrl == normalised {
        return;
      }
      apiBaseUrl, hasError := normalised, false;
      needNotify := true;
      log := log + [PersistBaseUrl(normalised), FetchConfig];
    }

    /** `getApiKey`, as the callback that captured the settings flag `loadingSeen` runs it. */
    method GetApiKey(env: Env, copy: bool, loadingSeen: bool)
      modifies this
      ensures Snapshot() == GetApiKeySpec(env, old(Snapshot()), copy, loadingSeen)
    {
      if loadingSeen || apiKeyLoading {
        return;
      }
      var current := apiKey;
      if apiKey == "" {
        apiKeyLoading := true;
        log := log + [FetchApiKey(KeyGenUrl(env, apiBaseUrl))];
      }
      if copy {
        log := log + [CopyText(current), Notify(ApiKeyCopied)];
      }
    }

    method OnApiKeyFetched(key: Option<string>)
      modifies this
      ensures Snapshot() == ApiKeyFetchedSpec(old(Snapshot()), key)
    {
      if key.Some? && key.value != "" {
        var changed := key.value != apiKey;
        apiKey := key.value;
        log := log + [PersistApiKey(key.value)];
        if socketId.Some? && changed {
          log := log + [EmitAuth(key.value)];
        }
      }
      apiKeyLoading := false;
    }

    method OnConfigOutcome(env: Env, outcome: ConfigOutcome)
      modifies this
      ensures Snapshot() == OnConfigOutcomeSpec(env, old(Snapshot()), outcome)
    {
      match outcome {
        case Loading =>
          connectionState := Connecting;
        case Failed =>
          OnConfigFailed(env);
        case Loaded(config, loadingSeen) =>
          OnConfigLoaded(env, config, loadingSeen);
      }
    }

    method OnConfigFailed(env: Env)
      modifies this
      ensures Snapshot() == OnConfigOutcomeSpec(env, old(Snapshot()), Failed)
    {
      var notices := [];
      if !hasError {
        notices := [Notify(GetConfigFailed)];
      }
      hasError, connectionState := true, Error;
      log := log + notices + [SocketDisconnect];
    }

    method OnConfigLoaded(env: Env, config: ApiConfig, loadingSeen: bool)
      modifies this
      ensures Snapshot() == ConfigLoadedSpec(env, old(Snapshot()), config, loadingSeen)
    {
      Connect(config);
      GetApiKey(env, false, loadingSeen);
      NoticeSuccess();
    }

    method Connect(config: ApiConfig)
      modifies this
      ensures Snapshot() == ConnectedSpec(old(Snapshot()), config)
    {
      connectionState, hasError, apiConfig := Connected, false, Some(config);
      log := log + [SocketConnect];
    }

    method NoticeSuccess()
      modifies this
      ensures Snapshot() == SuccessNoticeSpec(old(Snapshot()))
    {
      if needNotify {
        log := log + [Notify(GetConfigSuccess)];
      }
    }

    /** The socket-flag effect, its four tests in source order. */
    method OnSocketFlags(isConnecting: bool, isConnected: bool, error: bool)
      modifies this
      ensures Snapshot() == old(Snapshot()).(connectionState := FlagsState(isConnecting, isConnected, error))
    {
      var state := connectionState;
      if isConnecting {
        state := Connecting;
      }
      if isConnected {
        state := Connected;
      }
      if error {
        state := Error;
      }
      if !isConnecting && !isConnected && !error {
        state := Disconnected;
      }
      connectionState := state;
    }

    /** The socket connected with `id`: it authenticates with the current key. */
    method OnSocketConnected(id: string)
      modifies this
      ensures Snapshot() == old(Snapshot()).(socketId := Some(id), log := old(log) + [EmitAuth(old(apiKey))])
    {
      socketId := Some(id);
      log := log + [EmitAuth(apiKey)];
    }

    method OnSocketDisconnected()
      modifies this
      ensures Snapshot() == old(Snapshot()).(socketId := None)
    {
      socketId := None;
    }

    /** `uploadClipboard`, as the closure that captured the in-flight flag `inFlight` runs it. */
    method Upload(env: Env, tag: string, content: string, inFlight: bool)
      modifies this
      ensures Snapshot() == UploadSpec(env, old(Snapshot()), tag, content, inFlight)
    {
      if socketId.None? || socketId.value == "" {
        return;
      }
      if inFlight {
        return;
      }
      if apiConfig.None? || tag !in apiConfig.value.clipboardType {
        return;
      }
      var maxSize := apiConfig.value.clipboardSize;
      var size := env.contentSize(content);
      if maxSize != 0 && size > maxSize {
        return;
      }
      uploading := true;
      log := log + [Post(SyncUrl(env, apiBaseUrl), SyncBody(tag, content, apiKey, socketId))];
    }

    method OnUploadDone(outcome: UploadOutcome)
      modifies this
      ensures Snapshot() == UploadDoneSpec(old(Snapshot()), outcome)
    {
      match outcome {
        case Response(code, msg) =>
          if code == 200 {
            log := log + [Notify(UploadSucceeded)];
          } else {
            log := log + [Notify(UploadRejected(code, msg))];
          }
        case Failure =>
          log := log + [Notify(UploadFailed)];
      }
      uploading := false;
    }

    method HandleClipboardData(env: Env, data: ClipboardData, inFlight: bool)
      modifies this
      ensures Snapshot() == HandleClipboardDataSpec(env, old(Snapshot()), data, inFlight)
    {
      var processed := data.content;
      if data.source == Remote {
        if enableEncryption {
          var decrypted := DecryptContent(env.cipher, data.content, password);
          if decrypted.None? {
            return;
          }
          processed := decrypted.value;
        }
        if processed == lastContent {
          return;
        }
        lastContent := processed;
        isProgramWrite := true;
        log := log + [ClipboardWrite(WriteToClipboard(data.tag, processed, data.plaintext, env.textContent))];
      }
      if data.source == Local {
        var content := if enableEncryption then EncryptContent(env.cipher, processed, password) else processed;
        Upload(env, data.tag, content, inFlight);
      }
    }

    method OnWatcherFire(env: Env, probe: ClipboardProbe)
      modifies this
      ensures Snapshot() == WatcherFireSpec(env, old(Snapshot()), probe)
    {
      if isProgramWrite {
        isProgramWrite := false;
        return;
      }
      var data := ReadClipboardData(probe);
      if data.None? {
        return;
      }
      HandleClipboardData(env, data.value, false);
    }

    method OnInbound(env: Env, ev: SyncEvent)
      modifies this
      ensures Snapshot() == InboundSpec(env, old(Snapshot()), ev)
    {
      if socketId == Some(ev.sourceId) {
        return;
      }
      HandleClipboardData(env, ClipboardData(ev.tag, ev.content, None, Remote), false);
    }

    /** `checkPassword`: its length check is commented out, so every password is accepted and stored. */
    method CheckPassword(pass: string) returns (ok: bool)
      modifies this
      ensures ok
      ensures Snapshot() == old(Snapshot()).(password := pass, log := old(log) + [PersistPassword(pass)])
    {
      password := pass;
      log := log + [PersistPassword(pass)];
      ok := true;
    }
  }
}
