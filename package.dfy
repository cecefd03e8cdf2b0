/** The bridge package as the host sees it: one object whose fields are the
    package's module-level variables and whose methods are its hooks and event
    handlers. Each method is proved to take the object from its old snapshot
    to the state the matching function of `Relay` gives. */
module Package {
  import opened Messages
  import Relay

  class GridPackage {
    var clientWs: Option<ConnId>
    var watchForActiveWindow: bool
    var isWindowActive: bool
    var pendingProbe: bool
    var strayProbes: nat
    var deferredActivations: nat
    var actionId: int
    var preferenceMessagePort: Option<PortId>
    var editorOutbox: seq<EditorMsg>
    var socketOutbox: seq<SocketOp>
    var portOutbox: seq<PortOp>

    /** The object's state as a value. */
    ghost function Snapshot(): Relay.State
      reads this
    {
      Relay.State(clientWs, watchForActiveWindow, isWindowActive, pendingProbe, strayProbes,
                  deferredActivations, actionId, preferenceMessagePort,
                  editorOutbox, socketOutbox, portOutbox)
    }

    /** The module's initial values. */
    constructor ()
      ensures Snapshot() == Relay.Initial
    {
      clientWs, preferenceMessagePort := None, None;
      watchForActiveWindow, isWindowActive := false, false;
      pendingProbe, strayProbes, deferredActivations := false, 0, 0;
      actionId := 0;
      editorOutbox, socketOutbox, portOutbox := [], [], [];
    }

    method NotifyStatusChange()
      modifies this
      ensures Snapshot() == Relay.NotifyStatusChange(old(Snapshot()))
    {
      if preferenceMessagePort.Some? {
        portOutbox := portOutbox + [ClientStatus(preferenceMessagePort.value, clientWs.Some?, watchForActiveWindow)];
      }
    }

    /** `clearTimeout(activeWindowSubscribeTimeoutId)`. */
    method ClearProbeTimer()
      modifies this
      ensures Snapshot() == Relay.ClearProbeTimer(old(Snapshot()))
    {
      pendingProbe := false;
    }

    method TryActivateActiveWindow()
      modifies this
      ensures Snapshot() == Relay.TryActivateActiveWindow(old(Snapshot()))
    {
      if pendingProbe {
        strayProbes := strayProbes + 1;
      }
      pendingProbe := true;
      editorOutbox := editorOutbox + [SubscribeRequest];
    }

    method LoadPackage(persisted: Option<bool>)
      modifies this
      ensures Snapshot() == Relay.LoadPackage(old(Snapshot()), persisted)
    {
      watchForActiveWindow := persisted.GetOr(false);
      editorOutbox := editorOutbox + [AddAction(actionId, ActionShortName)];
      actionId := actionId + 1;
      if watchForActiveWindow {
        deferredActivations := deferredActivations + 1;
      }
    }

    method UnloadPackage()
      modifies this
      ensures Snapshot() == Relay.UnloadPackage(old(Snapshot()))
    {
      RemoveRegisteredActions();
      CloseEndpoints();
      if watchForActiveWindow {
        ClearProbeTimer();
        editorOutbox := editorOutbox + [Unsubscribe(ActiveWinPackage)];
      }
    }

    /** The `while (--actionId >= 0)` loop of unload. */
    method RemoveRegisteredActions()
      modifies this
      ensures Snapshot() == Relay.RemoveRegisteredActions(old(Snapshot()))
    {
      ghost var n := actionId;
      actionId := actionId - 1;
      while actionId >= 0
        modifies this`actionId, this`editorOutbox
        invariant actionId < n
        invariant n >= 0 ==> actionId >= -1
        invariant n < 0 ==> actionId == n - 1
        invariant editorOutbox == old(editorOutbox) + Relay.RemoveActions(n, actionId + 1)
        decreases actionId
      {
        RemoveActionsStep(n, actionId);
        editorOutbox := editorOutbox + [RemoveAction(actionId)];
        actionId := actionId - 1;
      }
    }

    method CloseEndpoints()
      modifies this
      ensures Snapshot() == Relay.CloseEndpoints(old(Snapshot()))
    {
      if clientWs.Some? {
        socketOutbox := socketOutbox + [Close(clientWs.value)];
      }
      if preferenceMessagePort.Some? {
        portOutbox := portOutbox + [ClosePort(preferenceMessagePort.value)];
      }
    }

    method AddMessagePort(port: PortId, senderId: string)
      modifies this
      ensures Snapshot() == Relay.AddMessagePort(old(Snapshot()), port, senderId)
    {
      if senderId == PreferencesSender {
        if preferenceMessagePort.Some? {
          portOutbox := portOutbox + [ClosePort(preferenceMessagePort.value)];
        }
        preferenceMessagePort := Some(port);
        NotifyStatusChange();
      }
    }

    method PortClosed(port: PortId)
      modifies this
      ensures Snapshot() == Relay.PortClosed(old(Snapshot()), port)
    {
      preferenceMessagePort := None;
    }

    method PreferenceMessage(msg: PrefInbound)
      modifies this
      ensures Snapshot() == Relay.PreferenceMessage(old(Snapshot()), msg)
    {
      if msg.SetSetting? {
        if watchForActiveWindow != msg.watchForActiveWindow {
          watchForActiveWindow := msg.watchForActiveWindow;
          if watchForActiveWindow {
            TryActivateActiveWindow();
          } else {
            ClearProbeTimer();
            editorOutbox := editorOutbox + [Unsubscribe(ActiveWinPackage)];
          }
        }
        editorOutbox := editorOutbox + [PersistData(watchForActiveWindow)];
      }
    }

    method SendMessage(args: Args)
      modifies this
      ensures Snapshot() == Relay.SendMessage(old(Snapshot()), args)
    {
      if args.Values? {
        if watchForActiveWindow && !isWindowActive {
          return;
        }
        if clientWs.None? {
          editorOutbox := editorOutbox + [NotConnectedNotice];
          return;
        }
        socketOutbox := socketOutbox + [Send(clientWs.value, Set(ItemAt(args.items, 0), ItemAt(args.items, 1)))];
      } else {
        if args.kind == Some(ActiveWindowStatus) {
          ClearProbeTimer();
          isWindowActive := args.status;
        }
      }
    }

    /** Runs when a liveness timer expires. */
    method ActiveWindowRequestNoResponse()
      requires Relay.ProbeArmed(Snapshot())
      modifies this
      ensures Snapshot() == Relay.ActiveWindowRequestNoResponse(old(Snapshot()))
    {
      if pendingProbe {
        pendingProbe := false;
      } else {
        strayProbes := strayProbes - 1;
      }
      editorOutbox := editorOutbox + [NoResponseNotice];
      watchForActiveWindow := false;
      NotifyStatusChange();
    }

    /** Runs when the activation deferred at load time is due. */
    method DeferredActivation()
      requires deferredActivations > 0
      modifies this
      ensures Snapshot() == Relay.DeferredActivation(old(Snapshot()))
    {
      deferredActivations := deferredActivations - 1;
      TryActivateActiveWindow();
    }

    method OnConnection(conn: ConnId)
      modifies this
      ensures Snapshot() == Relay.OnConnection(old(Snapshot()), conn)
    {
      clientWs := Some(conn);
      NotifyStatusChange();
    }

    method OnClose(conn: ConnId)
      modifies this
      ensures Snapshot() == Relay.OnClose(old(Snapshot()), conn)
    {
      clientWs := None;
      NotifyStatusChange();
    }

    method HandleWebsocketMessage(msg: Inbound)
      modifies this
      ensures Snapshot() == Relay.HandleWebsocketMessage(old(Snapshot()), msg)
    {
      if msg.kind == Some(AudioPeakBands) {
        editorOutbox := editorOutbox + [ExecuteLua(CallbackScript(msg.valueText), 0, 0)];
      }
    }
  }

  /** One more turn of the unload loop: removing action `id` extends the
      removals emitted so far by exactly that request. */
  lemma RemoveActionsStep(n: int, id: int)
    requires 0 <= id < n
    ensures Relay.RemoveActions(n, id + 1) + [RemoveAction(id)] == Relay.RemoveActions(n, id)
  {
  }
}
