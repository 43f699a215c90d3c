/** Constant tables: password bounds, connection states and their display, notification texts. */
module Constants {
  import opened Wrappers

  /** The endpoint used until another one is stored. */
  const DefaultUrl: string := "https://clip.ovo.re/api/v1"

  const PasswordMinLength: nat := 6
  const PasswordMaxLength: nat := 32

  /** The connection states shown next to the endpoint input. */
  datatype SocketState = Connecting | Connected | Error | Disconnected

  /** The numeric code of a state (`SOCKET_STATE`). */
  function Code(state: SocketState): (code: nat)
    ensures code < 4
    ensures StateOfCode(code) == Some(state)
  {
    match state
    case Connecting => 0
    case Connected => 1
    case Error => 2
    case Disconnected => 3
  }

  /** The state a code stands for, if any. */
  function StateOfCode(code: int): (state: Option<SocketState>)
    ensures state.Some? <==> 0 <= code < 4
  {
    if code == 0 then Some(Connecting)
    else if code == 1 then Some(Connected)
    else if code == 2 then Some(Error)
    else if code == 3 then Some(Disconnected)
    else None
  }

  /** Text and colour of a connection-state indicator. */
  datatype Status = Status(text: string, color: string)

  /** `SOCKET_CONFIG`: the display table, keyed by state code. */
  function SocketConfig(code: int): (status: Option<Status>)
    ensures status.Some? <==> StateOfCode(code).Some?
  {
    if code == 0 then Some(Status("Connecting", "yellow"))
    else if code == 1 then Some(Status("Connected", "green"))
    else if code == 2 then Some(Status("Connection Error", "red"))
    else if code == 3 then Some(Status("Disconnected", "dimmed"))
    else None
  }

  /** The table is defined at every state's code, with the colours the indicator uses. */
  lemma SocketConfigTotal(state: SocketState)
    ensures SocketConfig(Code(state)).Some?
    ensures state == Connecting ==> SocketConfig(Code(state)).value.color == "yellow"
    ensures state == Connected ==> SocketConfig(Code(state)).value.color == "green"
    ensures state == Error ==> SocketConfig(Code(state)).value.color == "red"
    ensures state == Disconnected ==> SocketConfig(Code(state)).value.color == "dimmed"
  {
  }

  /** User-visible notifications (`NOTIFICATION` and the ad-hoc messages of the views and of the request hook). */
  datatype Notice =
    | InvalidApiEndpoint
    | GetConfigFailed
    | GetConfigSuccess
    | ApiKeyCopied
    | UploadSucceeded
    | UploadRejected(code: int, msg: string)
    | UploadFailed
    | PasswordInvalid
    | RequestFailed(message: string)
    | RequestSucceeded(message: string)
}
