/**
 * The generic request hook: merges its default options with per-call
 * options, runs one fetch and keeps `data`, `loading` and `error` up to date.
 * The fetch itself is abstracted as an outcome value.
 */
module Request {
  import opened Wrappers
  import opened Constants
  import Utils

  /** A non-header option value: plain text (`method`, ...) or a JSON-serialised flat object (`body`). */
  datatype InitValue = Text(text: string) | JsonText(fields: map<string, string>)

  /**
   * Request options: the fetch options other than headers, the headers, and the
   * three hook-only keys. None stands for an absent key.
   */
  datatype RequestOptions = RequestOptions(
    init: map<string, InitValue>,
    headers: map<string, string>,
    showError: Option<bool>,
    showSuccess: Option<bool>,
    successMessage: Option<string>)

  const NoOptions: RequestOptions := RequestOptions(map[], map[], None, None, None)

  /** The headers every request starts from. */
  const BuiltinHeaders: map<string, string> :=
    map["Content-Type" := "application/json", "X-Cloudboard-Version" := "0.1.0"]

  const DefaultSuccessMessage: string := "操作成功"

  /**
   * One request after merging: what is handed to fetch (`url`, `init`,
   * `headers`) and the resolved hook-only flags, which fetch never sees.
   */
  datatype Pending = Pending(
    url: string,
    init: map<string, InitValue>,
    headers: map<string, string>,
    showError: bool,
    showSuccess: bool,
    successMessage: string)

  /** The first present value, else the fallback (`{...defaults, ...options}` followed by a destructuring default). */
  function Pick<T>(call: Option<T>, defaults: Option<T>, fallback: T): T
  {
    match call
    case Some(v) => v
    case None => match defaults case Some(v) => v case None => fallback
  }

  /** Option and header merging of `run`. */
  function Merge(url: string, defaults: RequestOptions, options: RequestOptions): (p: Pending)
    ensures p.url == url
    ensures p.headers.Keys == BuiltinHeaders.Keys + defaults.headers.Keys + options.headers.Keys
    ensures forall h :: h in options.headers ==> p.headers[h] == options.headers[h]
    ensures forall h :: h in defaults.headers && h !in options.headers ==> p.headers[h] == defaults.headers[h]
    ensures forall h :: h in BuiltinHeaders && h !in defaults.headers && h !in options.headers ==>
              p.headers[h] == BuiltinHeaders[h]
    ensures p.init.Keys == defaults.init.Keys + options.init.Keys
    ensures forall k :: k in options.init ==> p.init[k] == options.init[k]
    ensures forall k :: k in defaults.init && k !in options.init ==> p.init[k] == defaults.init[k]
    ensures options.showError.None? && defaults.showError.None? ==> p.showError
    ensures options.showSuccess.None? && defaults.showSuccess.None? ==> !p.showSuccess
    ensures options.showError.Some? ==> p.showError == options.showError.value
    ensures options.showSuccess.Some? ==> p.showSuccess == options.showSuccess.value
    ensures options.showError.None? && defaults.showError.Some? ==> p.showError == defaults.showError.value
    ensures options.showSuccess.None? && defaults.showSuccess.Some? ==> p.showSuccess == defaults.showSuccess.value
    ensures options.successMessage.Some? ==> p.successMessage == options.successMessage.value
    ensures options.successMessage.None? && defaults.successMessage.Some? ==>
              p.successMessage == defaults.successMessage.value
    ensures options.successMessage.None? && defaults.successMessage.None? ==> p.successMessage == DefaultSuccessMessage
  {
    Pending(
      url,
      defaults.init + options.init,
      BuiltinHeaders + defaults.headers + options.headers,
      Pick(options.showError, defaults.showError, true),
      Pick(options.showSuccess, defaults.showSuccess, false),
      Pick(options.successMessage, defaults.successMessage, DefaultSuccessMessage))
  }

  /** How a fetch ended: parsed body of an ok response, a non-ok status, or a thrown error. */
  datatype FetchOutcome<T> = Received(value: T) | HttpError(status: nat) | Rejected(message: string)

  /** The hook's state, plus the notifications it has shown. */
  datatype RequestState<T> = RequestState(
    data: Option<T>,
    loading: bool,
    error: Option<string>,
    notices: seq<Notice>)

  /** The message of the error a non-ok response throws. */
  function HttpErrorMessage(status: nat): string
  {
    "HTTP error! status: " + Utils.NatToString(status)
  }

  /** State when the request is issued: loading, error cleared. */
  function Started<T>(rs: RequestState<T>): (rs': RequestState<T>)
    ensures rs'.loading && rs'.error.None?
    ensures rs'.data == rs.data && rs'.notices == rs.notices
  {
    rs.(loading := true, error := None)
  }

  /** State and result once the fetch settles (the `try`, `catch` and `finally` of `run`). */
  function Settled<T>(rs: RequestState<T>, p: Pending, outcome: FetchOutcome<T>): (r: (RequestState<T>, Option<T>))
    ensures !r.0.loading
    ensures r.1.Some? <==> outcome.Received?
    ensures outcome.Received? ==> r.1 == Some(outcome.value) && r.0.data == r.1 && r.0.error == rs.error
    ensures !outcome.Received? ==> r.0.error.Some? && r.0.data == rs.data
    ensures |r.0.notices| == |rs.notices| + (if outcome.Received? then (if p.showSuccess then 1 else 0)
                                              else (if p.showError then 1 else 0))
    ensures r.0.notices[..|rs.notices|] == rs.notices
  {
    match outcome
    case Received(v) =>
      var notices := rs.notices + (if p.showSuccess then [RequestSucceeded(p.successMessage)] else []);
      (rs.(data := Some(v), loading := false, notices := notices), Some(v))
    case HttpError(status) =>
      var message := HttpErrorMessage(status);
      var notices := rs.notices + (if p.showError then [RequestFailed(message)] else []);
      (rs.(error := Some(message), loading := false, notices := notices), None)
    case Rejected(message) =>
      var notices := rs.notices + (if p.showError then [RequestFailed(message)] else []);
      (rs.(error := Some(message), loading := false, notices := notices), None)
  }

  /** A whole `run` on its own: success leaves no error and the parsed data; failure leaves an error and returns null. */
  lemma RunSettles<T>(rs: RequestState<T>, p: Pending, outcome: FetchOutcome<T>)
    ensures var (rs', result) := Settled(Started(rs), p, outcome);
      && !rs'.loading
      && (outcome.Received? ==> rs'.error.None? && rs'.data == result == Some(outcome.value))
      && (outcome.HttpError? ==> result.None? && rs'.error == Some(HttpErrorMessage(outcome.status)))
      && (outcome.Rejected? ==> result.None? && rs'.error == Some(outcome.message))
      && (!outcome.Received? ==> (p.showError <==> |rs'.notices| == |rs.notices| + 1))
  {
  }

  /** One `useRequest` hook instance. */
  class Requester<T(==)> {
    const defaults: RequestOptions
    var data: Option<T>
    var loading: bool
    var error: Option<string>
    var notices: seq<Notice>

    function Snapshot(): RequestState<T>
      reads this
    {
      RequestState(data, loading, error, notices)
    }

    constructor (defaults: RequestOptions)
      ensures this.defaults == defaults
      ensures Snapshot() == RequestState(None, false, None, [])
    {
      this.defaults := defaults;
      data := None;
      loading := false;
      error := None;
      notices := [];
    }

    /** Issue a request: merge the options, set `loading`, clear `error`. */
    method Begin(url: string, options: RequestOptions) returns (p: Pending)
      modifies this
      ensures p == Merge(url, defaults, options)
      ensures Snapshot() == Started(old(Snapshot()))
    {
      p := Merge(url, defaults, options);
      loading := true;
      error := None;
    }

    /** Settle the request `p` with the fetch outcome. */
    method Complete(p: Pending, outcome: FetchOutcome<T>) returns (result: Option<T>)
      modifies this
      ensures (Snapshot(), result) == Settled(old(Snapshot()), p, outcome)
    {
      ghost var before := Snapshot();
      match outcome {
        case Received(v) =>
          data := Some(v);
          if p.showSuccess {
            notices := notices + [RequestSucceeded(p.successMessage)];
          }
          result := Some(v);
        case HttpError(status) =>
          var message := HttpErrorMessage(status);
          error := Some(message);
          if p.showError {
            notices := notices + [RequestFailed(message)];
          }
          result := None;
        case Rejected(message) =>
          error := Some(message);
          if p.showError {
            notices := notices + [RequestFailed(message)];
          }
          result := None;
      }
      loading := false;
      assert Snapshot() == Settled(before, p, outcome).0;
    }

    /** `run(url, options)` with no other request settling in between. */
    method Run(url: string, options: RequestOptions, outcome: FetchOutcome<T>) returns (p: Pending, result: Option<T>)
      modifies this
      ensures p == Merge(url, defaults, options)
      ensures (Snapshot(), result) == Settled(Started(old(Snapshot())), p, outcome)
    {
      p := Begin(url, options);
      result := Complete(p, outcome);
    }
  }
}
