/** The values the Grid web-audio bridge package exchanges with the editor, with
    its socket client and with the preference page. JSON encoding is not
    modelled: every message is a datatype value. */
module Messages {

  datatype Option<+T> = None | Some(value: T) {
    /** The `x ?? default` of JavaScript: the value when present, else the default. */
    function GetOr(default: T): T {
      match this
      case Some(v) => v
      case None => default
    }
  }

  /** Identifies one accepted socket connection. */
  type ConnId = nat

  /** Identifies one preference message port handed to the package. */
  type PortId = nat

  /** A JSON value in its serialized form; the package never looks inside one. */
  type Json = string

  datatype MessageKind = Info | Fail

  /** A request passed to the editor through `sendMessageToEditor`. */
  datatype EditorMsg =
    | AddAction(actionId: int, short: string)
    | RemoveAction(actionId: int)
    | ShowMessage(text: string, kind: MessageKind)
    | Subscribe(targetPackageId: string, filter: string, target: string)
    | Unsubscribe(targetPackageId: string)
    | PersistData(watchForActiveWindow: bool)
    | ExecuteLua(script: string, targetDx: int, targetDy: int)

  /** The frame `{event: "set", id, value}` written to a client. A field that is
      `None` was `undefined`, which the serializer leaves out. */
  datatype Frame = Set(id: Option<Json>, value: Option<Json>)

  /** What the package does to a socket: write a frame to it, or close it. */
  datatype SocketOp = Send(conn: ConnId, frame: Frame) | Close(conn: ConnId)

  /** What the package does to a preference port: post a `clientStatus`
      message on it, or close it. */
  datatype PortOp =
    | ClientStatus(port: PortId, clientConnected: bool, watchForActiveWindow: bool)
    | ClosePort(port: PortId)

  /** The argument of the host's `sendMessage` hook: an array (a value update,
      whose first two items become the frame's id and value) or an object
      (an event object; `kind` is its `type` field, absent as `None`, and `status`
      the truthiness of its `status` field). */
  datatype Args =
    | Values(items: seq<Json>)
    | Object(kind: Option<string>, status: bool)

  /** A frame received from the socket client, already parsed: its `type`
      field (`None` when absent) and the text its `value` field renders to
      inside a template literal. */
  datatype Inbound = Inbound(kind: Option<string>, valueText: string)

  /** A message the preference page posts on its port. */
  datatype PrefInbound = SetSetting(watchForActiveWindow: bool) | OtherPrefMessage

  const ActiveWinPackage := "package-active-win"
  const ActiveWindowTitle := "Firefox"
  const SubscribeTarget := "application"
  const ActionShortName := "xwsps"
  const PreferencesSender := "preferences"
  const ActiveWindowStatus := "active-window-status"
  const AudioPeakBands := "audio-peak-bands"
  const NotConnectedText := "Websocket is not connected! Check if Websocket client connected to server!"
  const NoActiveWinText := "Couldn't connect to Active Window package! Make sure it is enabled!"
  const CallbackPrefix := "pkg_waa_cb("
  const CallbackSuffix := ")"

  /** The subscribe request sent to the active-window package. */
  const SubscribeRequest := Subscribe(ActiveWinPackage, ActiveWindowTitle, SubscribeTarget)

  /** The failure notice shown when the active-window package does not answer. */
  const NoResponseNotice := ShowMessage(NoActiveWinText, Fail)

  /** The notice shown when a value update finds no socket client. */
  const NotConnectedNotice := ShowMessage(NotConnectedText, Fail)

  /** The Lua call that hands an inbound band value to the editor's script. */
  function CallbackScript(valueText: string): string {
    CallbackPrefix + valueText + CallbackSuffix
  }

  /** Reads back the argument of a Lua callback script; `None` when the text
      is not a call of the callback. */
  function CallbackArgument(script: string): Option<string> {
    var p, q := |CallbackPrefix|, |CallbackSuffix|;
    if |script| >= p + q && script[..p] == CallbackPrefix && script[|script| - q..] == CallbackSuffix
    then Some(script[p..|script| - q])
    else None
  }

  /** `items[i]` of a JavaScript array: `None` (undefined) past its end. */
  function ItemAt(items: seq<Json>, i: nat): Option<Json> {
    if i < |items| then Some(items[i]) else None
  }
}
