/** The relay and gating state machine of the bridge package, on values: the
    package's module-level state as one record, and one function per event
    handler giving the state after the handler has run. Outboxes only grow:
    every message the package sends is appended to the outbox of its
    destination (the editor, the socket clients, the preference ports). */
module Relay {
  import opened Messages

  datatype State = State(
    client: Option<ConnId>,          // the current socket client
    watch: bool,                     // the persisted watch-for-active-window toggle
    windowActive: bool,              // the last reported active-window status
    pendingProbe: bool,              // the stored liveness-timer handle names a timer still armed
    strayProbes: nat,                // armed liveness timers that no stored handle names any more
    deferredActivations: nat,        // load-time activations scheduled and not yet run
    actionId: int,                   // the registered-action counter
    prefPort: Option<PortId>,        // the preference page's message port
    editor: seq<EditorMsg>,          // everything sent to the editor
    socket: seq<SocketOp>,           // everything done to socket clients
    prefs: seq<PortOp>)              // everything done to preference ports

  /** The module-level state before any hook has run. */
  const Initial := State(None, false, false, false, 0, 0, 0, None, [], [], [])

  /** A liveness timer is armed, so its expiry can be delivered. */
  predicate ProbeArmed(s: State) {
    s.pendingProbe || s.strayProbes > 0
  }

  /** The gate: a value update is dropped while watching a window that was
      last reported inactive. */
  predicate Gated(s: State) {
    s.watch && !s.windowActive
  }

  /** `notifyStatusChange`: posts the connection and watch status on the
      preference port, if one is attached. */
  function NotifyStatusChange(s: State): State {
    match s.prefPort
    case None => s
    case Some(p) => s.(prefs := s.prefs + [ClientStatus(p, s.client.Some?, s.watch)])
  }

  /** `clearTimeout` on the stored handle: cancels the timer it names, if that
      one is still armed; the handle itself is left as it was. */
  function ClearProbeTimer(s: State): State {
    s.(pendingProbe := false)
  }

  /** `tryActivateActiveWindow`: arms a fresh liveness timer, storing its
      handle over the previous one, and asks the active-window package for
      status reports. A timer the overwritten handle named stays armed. */
  function TryActivateActiveWindow(s: State): State {
    s.(pendingProbe := true,
       strayProbes := if s.pendingProbe then s.strayProbes + 1 else s.strayProbes,
       editor := s.editor + [SubscribeRequest])
  }

  /** The editor requests `RemoveAction(from - 1), …, RemoveAction(to)`, highest
      id first; none when `from <= to`. */
  function RemoveActions(from: int, to: int): (msgs: seq<EditorMsg>)
    decreases from - to
    ensures |msgs| == if from <= to then 0 else from - to
    ensures forall i :: 0 <= i < |msgs| ==> msgs[i] == RemoveAction(from - 1 - i)
  {
    if from <= to then [] else [RemoveAction(from - 1)] + RemoveActions(from - 1, to)
  }

  /** `loadPackage`: restores the watch toggle (false when nothing was
      persisted), registers the one action under the current counter value and
      advances the counter, and, when watching, schedules a deferred activation. */
  function LoadPackage(s: State, persisted: Option<bool>): State {
    var watch := persisted.GetOr(false);
    s.(watch := watch,
       editor := s.editor + [AddAction(s.actionId, ActionShortName)],
       actionId := s.actionId + 1,
       deferredActivations := if watch then s.deferredActivations + 1 else s.deferredActivations)
  }

  /** The pre-decrement loop of `unloadPackage`: removes the actions below the
      counter, highest first, and leaves the counter one below `min(counter, 0)`. */
  function RemoveRegisteredActions(s: State): State {
    var n := s.actionId;
    s.(editor := s.editor + RemoveActions(n, 0),
       actionId := if n >= 0 then -1 else n - 1)
  }

  /** Unload asks the current client and the preference port to close; the
      variables keep naming them until their close handlers run. */
  function CloseEndpoints(s: State): State {
    var s1 := match s.client
              case Some(c) => s.(socket := s.socket + [Close(c)])
              case None => s;
    match s1.prefPort
    case Some(p) => s1.(prefs := s1.prefs + [ClosePort(p)])
    case None => s1
  }

  /** `unloadPackage`: removes the registered actions, closes the client and
      the port, and, when watching, cancels the liveness timer and ends the
      subscription. */
  function UnloadPackage(s: State): State {
    var s1 := CloseEndpoints(RemoveRegisteredActions(s));
    if s1.watch
    then ClearProbeTimer(s1).(editor := s1.editor + [Unsubscribe(ActiveWinPackage)])
    else s1
  }

  /** `addMessagePort`: a port from the preference page replaces (and closes)
      the previous one and receives the current status; ports from other
      senders are ignored. */
  function AddMessagePort(s: State, port: PortId, senderId: string): State {
    if senderId != PreferencesSender then s
    else
      var s1 := match s.prefPort
                case Some(q) => s.(prefs := s.prefs + [ClosePort(q)])
                case None => s;
      NotifyStatusChange(s1.(prefPort := Some(port)))
  }

  /** The close handler of a preference port: whichever port closed, the
      package forgets the attached one. */
  function PortClosed(s: State, port: PortId): State {
    s.(prefPort := None)
  }

  /** The message handler of a preference port. A `set-setting` that changes
      the toggle starts watching (subscribe and arm a probe) or stops it
      (cancel the probe and unsubscribe); every `set-setting` then persists
      the toggle. */
  function PreferenceMessage(s: State, msg: PrefInbound): State {
    match msg
    case OtherPrefMessage => s
    case SetSetting(b) =>
      var s1 :=
        if s.watch == b then s
        else if b then TryActivateActiveWindow(s.(watch := true))
        else ClearProbeTimer(s.(watch := false)).(editor := s.editor + [Unsubscribe(ActiveWinPackage)]);
      s1.(editor := s1.editor + [PersistData(s1.watch)])
  }

  /** `sendMessage`: a value update is dropped silently by the gate, refused
      with a notice when no client is connected, and otherwise written to the
      client as a `set` frame; an `active-window-status` event cancels the
      probe and records the reported status; any other event is ignored. */
  function SendMessage(s: State, args: Args): State {
    match args
    case Values(items) =>
      if Gated(s) then s
      else (
        match s.client
        case None => s.(editor := s.editor + [NotConnectedNotice])
        case Some(c) => s.(socket := s.socket + [Send(c, Set(ItemAt(items, 0), ItemAt(items, 1)))]))
    case Object(kind, status) =>
      if kind == Some(ActiveWindowStatus)
      then ClearProbeTimer(s).(windowActive := status)
      else s
  }

  /** `activeWindowRequestNoResponse`, run when a liveness timer expires: the
      stored handle is forgotten, a failure notice is shown, watching is
      switched off (not persisted) and the status is posted. When a stray
      timer fires while the stored handle still names a live one, the source
      forgets that handle, leaving the live timer as the stray one; the model
      instead counts the live timer as the one that fired. Both leave the same
      number of timers armed and the same handle state. */
  function ActiveWindowRequestNoResponse(s: State): State
    requires ProbeArmed(s)
  {
    var s1 := if s.pendingProbe then s.(pendingProbe := false) else s.(strayProbes := s.strayProbes - 1);
    NotifyStatusChange(s1.(editor := s1.editor + [NoResponseNotice], watch := false))
  }

  /** The load-time deferred activation running: it activates unconditionally. */
  function DeferredActivation(s: State): State
    requires s.deferredActivations > 0
  {
    TryActivateActiveWindow(s.(deferredActivations := s.deferredActivations - 1))
  }

  /** The server's connection handler: the new socket becomes the client. */
  function OnConnection(s: State, conn: ConnId): State {
    NotifyStatusChange(s.(client := Some(conn)))
  }

  /** The close handler of a socket: whichever socket closed, the package is
      left without a client. */
  function OnClose(s: State, conn: ConnId): State {
    NotifyStatusChange(s.(client := None))
  }

  /** `handleWebsocketMessage`: only `audio-peak-bands` frames reach the
      editor, as a Lua callback at grid offset (0, 0). */
  function HandleWebsocketMessage(s: State, msg: Inbound): State {
    if msg.kind == Some(AudioPeakBands)
    then s.(editor := s.editor + [ExecuteLua(CallbackScript(msg.valueText), 0, 0)])
    else s
  }

  /** Everything that can happen to the package. */
  datatype Event =
    | Load(persisted: Option<bool>)
    | Unload
    | AttachPort(port: PortId, senderId: string)
    | PortClose(port: PortId)
    | PortMessage(msg: PrefInbound)
    | HostSend(args: Args)
    | ProbeTimeout
    | DeferredActivationDue
    | Connect(conn: ConnId)
    | SocketClose(conn: ConnId)
    | SocketMessage(inbound: Inbound)

  /** Timer expiries can only be delivered for armed timers. */
  predicate Enabled(s: State, e: Event) {
    match e
    case ProbeTimeout => ProbeArmed(s)
    case DeferredActivationDue => s.deferredActivations > 0
    case _ => true
  }

  function Step(s: State, e: Event): State
    requires Enabled(s, e)
  {
    match e
    case Load(persisted) => LoadPackage(s, persisted)
    case Unload => UnloadPackage(s)
    case AttachPort(port, senderId) => AddMessagePort(s, port, senderId)
    case PortClose(port) => PortClosed(s, port)
    case PortMessage(msg) => PreferenceMessage(s, msg)
    case HostSend(args) => SendMessage(s, args)
    case ProbeTimeout => ActiveWindowRequestNoResponse(s)
    case DeferredActivationDue => DeferredActivation(s)
    case Connect(conn) => OnConnection(s, conn)
    case SocketClose(conn) => OnClose(s, conn)
    case SocketMessage(inbound) => HandleWebsocketMessage(s, inbound)
  }

  /** The state after a sequence of events, or `None` when one of them could
      not have been delivered. */
  function Run(s: State, es: seq<Event>): Option<State>
    decreases |es|
  {
    if es == [] then Some(s)
    else if Enabled(s, es[0]) then Run(Step(s, es[0]), es[1..])
    else None
  }
}
