/** What the bridge package's handlers guarantee, one event at a time and over
    sequences of events. */
module RelayProperties {
  import opened Messages
  import opened Relay

  // ---------------------------------------------------------------------------
  // Outbound relay and the gate

  /** While watching a window last reported inactive, a value update is dropped
      without any message and without any change of state. */
  lemma GateDropsValueUpdate(s: State, items: seq<Json>)
    requires s.watch && !s.windowActive
    ensures SendMessage(s, Values(items)) == s
  {
  }

  /** With the gate open and a client connected, a value update writes exactly
      one `set` frame, carrying the array's first two items, to that client,
      and changes nothing else. With fewer than two items, `ItemAt` gives
      `None` for the missing ones, which the frame leaves out. */
  lemma ValueUpdateRelayed(s: State, items: seq<Json>, c: ConnId)
    requires !(s.watch && !s.windowActive) && s.client == Some(c)
    ensures SendMessage(s, Values(items)) == s.(socket := s.socket + [Send(c, Set(ItemAt(items, 0), ItemAt(items, 1)))])
  {
  }

  /** With the gate open and no client, a value update shows exactly one
      failure notice and writes no frame. */
  lemma ValueUpdateRefused(s: State, items: seq<Json>)
    requires !(s.watch && !s.windowActive) && s.client.None?
    ensures SendMessage(s, Values(items)) == s.(editor := s.editor + [NotConnectedNotice])
  {
  }

  /** When not watching, every value update reaches the connected client as
      its `set` frame, whatever the last reported window status, and nothing
      else changes. */
  lemma UnwatchedAlwaysRelays(s: State, items: seq<Json>)
    requires !s.watch && s.client.Some?
    ensures SendMessage(s, Values(items))
         == s.(socket := s.socket + [Send(s.client.value, Set(ItemAt(items, 0), ItemAt(items, 1)))])
  {
    ValueUpdateRelayed(s, items, s.client.value);
  }

  /** The gate reads only the last recorded window status: switching watching
      on over an active report arms a probe, and while that probe is still
      unanswered a value update goes through to the client. */
  lemma StaleStatusPassesGate(s: State, items: seq<Json>)
    requires !s.watch && s.windowActive && s.client.Some?
    ensures var r := Run(s, [PortMessage(SetSetting(true)), HostSend(Values(items))]);
      && r.Some? && r.value.watch && r.value.pendingProbe
      && r.value.socket == s.socket + [Send(s.client.value, Set(ItemAt(items, 0), ItemAt(items, 1)))]
  {
    var e1, e2 := PortMessage(SetSetting(true)), HostSend(Values(items));
    var s1 := Step(s, e1);
    assert s1.watch && s1.windowActive && s1.pendingProbe && s1.client == s.client && s1.socket == s.socket;
    var s2 := Step(s1, e2);
    assert s2 == s1.(socket := s.socket + [Send(s.client.value, Set(ItemAt(items, 0), ItemAt(items, 1)))]);
    RunCons(s1, e2, []);
    RunCons(s, e1, [e2]);
  }

  /** An `active-window-status` event cancels the probe and records the status;
      the toggle, the connection and every outbox are left as they were. */
  lemma StatusReportRecorded(s: State, status: bool)
    ensures SendMessage(s, Object(Some(ActiveWindowStatus), status)) == s.(pendingProbe := false, windowActive := status)
  {
  }

  /** Any other event object is ignored. */
  lemma OtherEventIgnored(s: State, kind: Option<string>, status: bool)
    requires kind != Some(ActiveWindowStatus)
    ensures SendMessage(s, Object(kind, status)) == s
  {
  }

  // ---------------------------------------------------------------------------
  // Watching the active window

  /** A liveness timer expiring: no probe handle is left, watching is off, one
      failure notice is the only editor message (no persist, no unsubscribe),
      and the status is posted once exactly when a preference port is
      attached. Connection, window status and counters are untouched. */
  lemma ProbeTimeoutEffect(s: State)
    requires ProbeArmed(s)
    ensures var t := ActiveWindowRequestNoResponse(s);
      && !t.pendingProbe && !t.watch
      && t.editor == s.editor + [NoResponseNotice]
      && (s.prefPort.Some? ==> t.prefs == s.prefs + [ClientStatus(s.prefPort.value, s.client.Some?, false)])
      && (s.prefPort.None? ==> t.prefs == s.prefs)
      && t.strayProbes == (if s.pendingProbe then s.strayProbes else s.strayProbes - 1)
      && t == s.(pendingProbe := false, watch := false, strayProbes := t.strayProbes,
                 editor := t.editor, prefs := t.prefs)
  {
  }

  /** A `set-setting` message: switching on subscribes and arms a probe,
      switching off cancels the probe and unsubscribes, repeating the current
      value does neither; each ends by persisting the resulting toggle. */
  lemma SetSettingCases(s: State, b: bool)
    ensures var t := PreferenceMessage(s, SetSetting(b));
      && t.watch == b
      && (!s.watch && b ==>
            t == s.(watch := true, pendingProbe := true,
                    strayProbes := if s.pendingProbe then s.strayProbes + 1 else s.strayProbes,
                    editor := s.editor + [SubscribeRequest, PersistData(true)]))
      && (s.watch && !b ==>
            t == s.(watch := false, pendingProbe := false,
                    editor := s.editor + [Unsubscribe(ActiveWinPackage), PersistData(false)]))
      && (s.watch == b ==> t == s.(editor := s.editor + [PersistData(b)]))
  {
  }

  /** A status report cancels the only armed probe of a coherent state: the
      timeout path cannot follow it. */
  lemma StatusReportDisarms(s: State, status: bool)
    requires Coherent(s)
    ensures !ProbeArmed(SendMessage(s, Object(Some(ActiveWindowStatus), status)))
  {
  }

  /** Switching on watching and hearing nothing: the probe expires, watching is
      forced off, exactly one failure notice is shown, and no other probe is
      left to expire. */
  lemma EnableWithoutAnswer(s: State)
    requires Coherent(s) && !s.watch
    ensures var r := Run(s, [PortMessage(SetSetting(true)), ProbeTimeout]);
      && r.Some? && !r.value.watch && !ProbeArmed(r.value)
      && multiset(r.value.editor)[NoResponseNotice] == multiset(s.editor)[NoResponseNotice] + 1
  {
    var s1 := PreferenceMessage(s, SetSetting(true));
    assert s1.pendingProbe && s1.strayProbes == 0;
    var s2 := ActiveWindowRequestNoResponse(s1);
    assert Run(s2, []) == Some(s2);
    assert Run(s1, [ProbeTimeout]) == Some(s2);
    assert s2.editor == s1.editor + [NoResponseNotice];
  }

  // ---------------------------------------------------------------------------
  // Lifecycle

  /** The removals issued for counter value `n` name each id in `to .. n-1`
      exactly once and no other id. */
  lemma {:induction false} RemovalsExactlyOnce(n: int, to: int, x: int)
    ensures multiset(RemoveActions(n, to))[RemoveAction(x)] == if to <= x < n then 1 else 0
    decreases n - to
  {
    if n > to {
      RemovalsExactlyOnce(n - 1, to, x);
      assert RemoveActions(n, to) == [RemoveAction(n - 1)] + RemoveActions(n - 1, to);
    }
  }

  /** `unloadPackage`: for a counter `n`, removes actions `n-1` down to `0` and
      leaves the counter at -1 (at `n-1` when `n` was already negative); asks
      the client and the preference port to close; when watching, cancels the
      probe and unsubscribes. The deferred activation is not cancelled. */
  lemma UnloadEffect(s: State)
    ensures UnloadPackage(s) ==
      s.(actionId := if s.actionId >= 0 then -1 else s.actionId - 1,
         editor := s.editor + RemoveActions(s.actionId, 0) + (if s.watch then [Unsubscribe(ActiveWinPackage)] else []),
         pendingProbe := s.pendingProbe && !s.watch,
         socket := s.socket + (if s.client.Some? then [Close(s.client.value)] else []),
         prefs := s.prefs + (if s.prefPort.Some? then [ClosePort(s.prefPort.value)] else []))
  {
  }

  // ---------------------------------------------------------------------------
  // Connections and the preference port

  /** A new connection becomes the client, whatever was connected before; the
      status is posted, connected, exactly when a preference port is attached. */
  lemma ConnectionEffect(s: State, c: ConnId)
    ensures var t := OnConnection(s, c);
      && t.client == Some(c)
      && t.prefs == s.prefs + (if s.prefPort.Some? then [ClientStatus(s.prefPort.value, true, s.watch)] else [])
      && t == s.(client := Some(c), prefs := t.prefs)
  {
  }

  /** Any socket closing leaves no client, even a socket that was already
      replaced; the status is posted, disconnected, exactly when a preference
      port is attached. */
  lemma CloseEffect(s: State, c: ConnId)
    ensures var t := OnClose(s, c);
      && t.client.None?
      && t.prefs == s.prefs + (if s.prefPort.Some? then [ClientStatus(s.prefPort.value, false, s.watch)] else [])
      && t == s.(client := None, prefs := t.prefs)
  {
  }

  /** The status posts a run of connects and closes makes on port `p`, one per
      event, each telling whether that event left a client. */
  function StatusPosts(p: PortId, watch: bool, es: seq<Event>): (posts: seq<PortOp>)
    ensures |posts| == |es|
  {
    if es == [] then []
    else [ClientStatus(p, es[0].Connect?, watch)] + StatusPosts(p, watch, es[1..])
  }

  /** The i-th status post reports whether the i-th event left a client. */
  lemma {:induction false} StatusPostsContent(p: PortId, watch: bool, es: seq<Event>, i: nat)
    requires i < |es|
    ensures StatusPosts(p, watch, es)[i] == ClientStatus(p, es[i].Connect?, watch)
    decreases i
  {
    if i > 0 {
      StatusPostsContent(p, watch, es[1..], i - 1);
    }
  }

  predicate ConnectionEvents(es: seq<Event>) {
    forall i :: 0 <= i < |es| ==> es[i].Connect? || es[i].SocketClose?
  }

  /** Over any run of connects and closes with a preference port attached,
      exactly one status post is made per event, in order, and afterwards a
      client is connected exactly when the last event was a connect. */
  lemma {:induction false} StatusPostsPerTransition(s: State, es: seq<Event>)
    requires s.prefPort.Some? && ConnectionEvents(es)
    ensures var r := Run(s, es);
      && r.Some?
      && r.value.prefs == s.prefs + StatusPosts(s.prefPort.value, s.watch, es)
      && r.value.client.Some? == (if es == [] then s.client.Some? else es[|es| - 1].Connect?)
    decreases |es|
  {
    if es != [] {
      var t := Step(s, es[0]);
      assert t.prefPort == s.prefPort && t.watch == s.watch;
      assert t.prefs == s.prefs + [ClientStatus(s.prefPort.value, es[0].Connect?, s.watch)];
      assert ConnectionEvents(es[1..]);
      StatusPostsPerTransition(t, es[1..]);
      assert es[1..] != [] ==> es[1..][|es[1..]| - 1] == es[|es| - 1];
    }
  }

  /** Attaching a preference port closes the previous one and posts the status
      on the new one; a port from another sender changes nothing. */
  lemma AttachPortEffect(s: State, p: PortId, sender: string)
    ensures var t := AddMessagePort(s, p, sender);
      && (sender != PreferencesSender ==> t == s)
      && (sender == PreferencesSender ==>
            t == s.(prefPort := Some(p),
                    prefs := s.prefs + (if s.prefPort.Some? then [ClosePort(s.prefPort.value)] else [])
                                     + [ClientStatus(p, s.client.Some?, s.watch)]))
  {
  }

  // ---------------------------------------------------------------------------
  // Inbound frames

  /** Only an `audio-peak-bands` frame reaches the editor, as one Lua callback
      at offset (0, 0); `audio-peak` and every other frame are ignored. */
  lemma InboundDispatch(s: State, m: Inbound)
    ensures m.kind == Some(AudioPeakBands) ==>
      HandleWebsocketMessage(s, m) == s.(editor := s.editor + [ExecuteLua(CallbackScript(m.valueText), 0, 0)])
    ensures m.kind != Some(AudioPeakBands) ==> HandleWebsocketMessage(s, m) == s
  {
  }

  /** The callback's argument is the band value's text, unchanged. */
  lemma CallbackRoundTrip(v: string)
    ensures CallbackArgument(CallbackScript(v)) == Some(v)
  {
    var script := CallbackScript(v);
    assert script[..|CallbackPrefix|] == CallbackPrefix;
    assert script[|script| - |CallbackSuffix|..] == CallbackSuffix;
    assert script[|CallbackPrefix|..|script| - |CallbackSuffix|] == v;
  }

  // ---------------------------------------------------------------------------
  // Timer accounting over every run, and coherent states

  /** The liveness timers armed in `s`: the one the stored handle names, if
      any, and the stray ones. Each expires at most once; only the stray ones
      can no longer be cancelled. */
  function ArmedProbes(s: State): nat {
    (if s.pendingProbe then 1 else 0) + s.strayProbes
  }

  /** Between `s` and `t`, the failure notices shown plus the timers still
      armed in `t` never outnumber the subscribes sent plus the timers armed
      in `s`: every notice is paid for by a timer that some subscribe armed. */
  predicate ExpiriesCovered(s: State, t: State) {
    var notices := multiset(t.editor)[NoResponseNotice] as int - multiset(s.editor)[NoResponseNotice] as int;
    var subscribes := multiset(t.editor)[SubscribeRequest] as int - multiset(s.editor)[SubscribeRequest] as int;
    notices + ArmedProbes(t) <= subscribes + ArmedProbes(s)
  }

  /** Every enabled event, loads and timer expiries included, keeps the
      failure notices covered by subscribes. */
  lemma ExpiriesStep(s: State, e: Event)
    requires Enabled(s, e)
    ensures ExpiriesCovered(s, Step(s, e))
  {
    match e
    case Load(persisted) => ExpiriesLoad(s, persisted);
    case Unload => ExpiriesUnload(s);
    case PortMessage(msg) => ExpiriesPreference(s, msg);
    case HostSend(args) => ExpiriesSend(s, args);
    case ProbeTimeout => ExpiriesTimeout(s);
    case DeferredActivationDue => ExpiriesDeferred(s);
    case SocketMessage(m) => ExpiriesInbound(s, m);
    case _ =>
  }

  lemma ExpiriesLoad(s: State, persisted: Option<bool>)
    ensures ExpiriesCovered(s, LoadPackage(s, persisted))
  {
  }

  lemma ExpiriesUnload(s: State)
    ensures ExpiriesCovered(s, UnloadPackage(s))
  {
    assert UnloadPackage(s).editor == s.editor + RemoveActions(s.actionId, 0)
      + (if s.watch then [Unsubscribe(ActiveWinPackage)] else []);
    RemovalsAreNotNotices(s.actionId);
  }

  lemma ExpiriesPreference(s: State, msg: PrefInbound)
    ensures ExpiriesCovered(s, PreferenceMessage(s, msg))
  {
  }

  lemma ExpiriesSend(s: State, args: Args)
    ensures ExpiriesCovered(s, SendMessage(s, args))
  {
  }

  lemma ExpiriesTimeout(s: State)
    requires ProbeArmed(s)
    ensures ExpiriesCovered(s, ActiveWindowRequestNoResponse(s))
  {
  }

  lemma ExpiriesDeferred(s: State)
    requires s.deferredActivations > 0
    ensures ExpiriesCovered(s, DeferredActivation(s))
  {
  }

  lemma ExpiriesInbound(s: State, m: Inbound)
    ensures ExpiriesCovered(s, HandleWebsocketMessage(s, m))
  {
  }

  /** The removals of an unload are neither subscribes nor failure notices. */
  lemma RemovalsAreNotNotices(n: int)
    ensures multiset(RemoveActions(n, 0))[NoResponseNotice] == 0
    ensures multiset(RemoveActions(n, 0))[SubscribeRequest] == 0
  {
    var r := RemoveActions(n, 0);
    assert NoResponseNotice !in r && SubscribeRequest !in r;
  }

  /** Over every run, from any state, failure notices plus the timers left
      armed never outnumber subscribes plus the timers armed at the start. */
  lemma {:induction false} ExpiriesBounded(s: State, es: seq<Event>)
    ensures Run(s, es).Some? ==> ExpiriesCovered(s, Run(s, es).value)
    decreases |es|
  {
    if es != [] && Enabled(s, es[0]) {
      ExpiriesStep(s, es[0]);
      ExpiriesBounded(Step(s, es[0]), es[1..]);
    }
  }

  /** From the module's initial state, the package never shows more
      "no active window" notices than it has sent subscribes, and the excess
      of subscribes covers every timer still armed. */
  lemma NoticesNeverExceedSubscribes(es: seq<Event>)
    ensures var r := Run(Initial, es);
      r.Some? ==> multiset(r.value.editor)[NoResponseNotice] + ArmedProbes(r.value)
                  <= multiset(r.value.editor)[SubscribeRequest]
  {
    ExpiriesBounded(Initial, es);
  }

  /** A state in which one subscribe is answered by at most one expiry: no
      probe has lost its handle, no deferred activation is outstanding, and a
      probe is armed only while watching. */
  predicate Coherent(s: State) {
    s.strayProbes == 0 && s.deferredActivations == 0 && (s.pendingProbe ==> s.watch)
  }

  /** A load that does not restore watching, from a coherent state with no
      probe pending and no deferred activation outstanding, gives a coherent
      state: it schedules no activation and leaves no probe armed. */
  lemma LoadStartsSession(s: State, persisted: Option<bool>)
    requires Coherent(s) && !s.pendingProbe && persisted != Some(true)
    ensures Coherent(LoadPackage(s, persisted))
  {
  }

  /** Every event except a load keeps a state coherent and accounts for its
      failure notices. */
  lemma SessionStep(s: State, e: Event)
    requires Coherent(s) && Enabled(s, e) && !e.Load?
    ensures Coherent(Step(s, e)) && ExpiriesCovered(s, Step(s, e))
  {
    ExpiriesStep(s, e);
    match e
    case Unload =>
    case PortMessage(msg) =>
    case HostSend(args) =>
    case ProbeTimeout =>
    case _ =>
  }

  /** From a coherent state, every state a load-free run reaches is coherent,
      and each subscribe is followed by at most one failure notice. */
  lemma {:induction false} SessionRun(s: State, es: seq<Event>)
    requires Coherent(s)
    requires forall i :: 0 <= i < |es| ==> !es[i].Load?
    ensures Run(s, es).Some? ==> Coherent(Run(s, es).value) && ExpiriesCovered(s, Run(s, es).value)
    decreases |es|
  {
    if es != [] && Enabled(s, es[0]) {
      var t := Step(s, es[0]);
      SessionStep(s, es[0]);
      SessionRun(t, es[1..]);
    }
  }

  /** Outboxes only grow. */
  lemma StepAppends(s: State, e: Event)
    requires Enabled(s, e)
    ensures var t := Step(s, e);
      s.editor <= t.editor && s.socket <= t.socket && s.prefs <= t.prefs
  {
    match e
    case Unload =>
    case PortMessage(msg) =>
    case HostSend(args) =>
    case ProbeTimeout =>
    case _ =>
  }

  lemma {:induction false} RunAppends(s: State, es: seq<Event>)
    ensures var r := Run(s, es);
      r.Some? ==> s.editor <= r.value.editor && s.socket <= r.value.socket && s.prefs <= r.value.prefs
    decreases |es|
  {
    if es != [] && Enabled(s, es[0]) {
      StepAppends(s, es[0]);
      RunAppends(Step(s, es[0]), es[1..]);
    }
  }

  // ---------------------------------------------------------------------------
  // Consequences of the handlers as written

  /** The activation deferred at load time runs even when the user has already
      switched watching off and on again: the probe armed by the switch loses
      its handle, so a later status report cannot cancel it, and its expiry
      still switches watching off with a failure notice. */
  lemma DeferredActivationStrandsProbe()
    ensures var r := Run(Initial, [Load(Some(true)), PortMessage(SetSetting(false)),
                                   PortMessage(SetSetting(true)), DeferredActivationDue,
                                   HostSend(Object(Some(ActiveWindowStatus), true))]);
      && r.Some? && r.value.watch && r.value.windowActive
      && ProbeArmed(r.value) && !r.value.pendingProbe && r.value.strayProbes == 1
      && !ActiveWindowRequestNoResponse(r.value).watch
  {
    var e1, e2, e3 := Load(Some(true)), PortMessage(SetSetting(false)), PortMessage(SetSetting(true));
    var e4, e5 := DeferredActivationDue, HostSend(Object(Some(ActiveWindowStatus), true));
    var s1 := Step(Initial, e1);
    assert s1.watch && !s1.pendingProbe && s1.deferredActivations == 1;
    var s2 := Step(s1, e2);
    assert !s2.watch && !s2.pendingProbe && s2.deferredActivations == 1;
    var s3 := Step(s2, e3);
    assert s3.watch && s3.pendingProbe && s3.strayProbes == 0 && s3.deferredActivations == 1;
    var s4 := Step(s3, e4);
    assert s4.watch && s4.pendingProbe && s4.strayProbes == 1;
    var s5 := Step(s4, e5);
    assert s5.watch && s5.windowActive && !s5.pendingProbe && s5.strayProbes == 1;
    RunCons(s4, e5, []);
    RunCons(s3, e4, [e5]);
    RunCons(s2, e3, [e4, e5]);
    RunCons(s1, e2, [e3, e4, e5]);
    RunCons(Initial, e1, [e2, e3, e4, e5]);
  }

  /** Delivering one enabled event and then the rest. */
  lemma RunCons(s: State, e: Event, es: seq<Event>)
    requires Enabled(s, e)
    ensures Run(s, [e] + es) == Run(Step(s, e), es)
  {
    assert ([e] + es)[1..] == es;
  }

  /** Unloading does not cancel the deferred activation: once the package is
      unloaded it still subscribes and arms a probe. */
  lemma DeferredActivationOutlivesUnload()
    ensures var r := Run(Initial, [Load(Some(true)), Unload, DeferredActivationDue]);
      && r.Some? && r.value.pendingProbe
      && r.value.editor[|r.value.editor| - 1] == SubscribeRequest
  {
    var s1 := LoadPackage(Initial, Some(true));
    var s2 := UnloadPackage(s1);
    assert s2.deferredActivations == 1;
    var s3 := DeferredActivation(s2);
    assert Run(s3, []) == Some(s3);
    assert Run(s2, [DeferredActivationDue]) == Some(s3);
  }

  /** A probe that has lost its handle survives unload: after load with
      watching, switching off and on and the deferred activation, unloading
      cancels only the probe the handle names, and the stray one's expiry
      still shows the failure notice. */
  lemma StrayProbeOutlivesUnload()
    ensures var r := Run(Initial, [Load(Some(true)), PortMessage(SetSetting(false)),
                                   PortMessage(SetSetting(true)), DeferredActivationDue, Unload]);
      && r.Some? && ProbeArmed(r.value) && !r.value.pendingProbe && r.value.strayProbes == 1
      && var u := ActiveWindowRequestNoResponse(r.value);
         u.editor == r.value.editor + [NoResponseNotice] && !ProbeArmed(u)
  {
    var e1, e2, e3 := Load(Some(true)), PortMessage(SetSetting(false)), PortMessage(SetSetting(true));
    var e4, e5 := DeferredActivationDue, Unload;
    var s1 := Step(Initial, e1);
    assert s1.watch && !s1.pendingProbe && s1.deferredActivations == 1;
    var s2 := Step(s1, e2);
    assert !s2.watch && !s2.pendingProbe && s2.deferredActivations == 1;
    var s3 := Step(s2, e3);
    assert s3.watch && s3.pendingProbe && s3.strayProbes == 0 && s3.deferredActivations == 1;
    var s4 := Step(s3, e4);
    assert s4.watch && s4.pendingProbe && s4.strayProbes == 1;
    var s5 := Step(s4, e5);
    assert !s5.pendingProbe && s5.strayProbes == 1;
    RunCons(s4, e5, []);
    RunCons(s3, e4, [e5]);
    RunCons(s2, e3, [e4, e5]);
    RunCons(s1, e2, [e3, e4, e5]);
    RunCons(Initial, e1, [e2, e3, e4, e5]);
  }

  /** An activation deferred by one load runs after the package has been
      unloaded and loaded again without watching: it arms a probe while
      watching is off, switching watching on then strands that probe, and a
      status report no longer disarms every timer. */
  lemma DeferredActivationLeaksIntoReload()
    ensures var r := Run(Initial, [Load(Some(true)), Unload, Load(None), DeferredActivationDue,
                                   PortMessage(SetSetting(true)),
                                   HostSend(Object(Some(ActiveWindowStatus), true))]);
      && r.Some? && r.value.watch && r.value.windowActive
      && ProbeArmed(r.value) && !r.value.pendingProbe && r.value.strayProbes == 1
  {
    var e1, e2, e3 := Load(Some(true)), Unload, Load(None);
    var e4, e5, e6 := DeferredActivationDue, PortMessage(SetSetting(true)),
                      HostSend(Object(Some(ActiveWindowStatus), true));
    var s1 := Step(Initial, e1);
    assert s1.watch && !s1.pendingProbe && s1.strayProbes == 0 && s1.deferredActivations == 1;
    var s2 := Step(s1, e2);
    assert !s2.pendingProbe && s2.strayProbes == 0 && s2.deferredActivations == 1;
    var s3 := Step(s2, e3);
    assert !s3.watch && !s3.pendingProbe && s3.strayProbes == 0 && s3.deferredActivations == 1;
    var s4 := Step(s3, e4);
    assert !s4.watch && s4.pendingProbe && s4.strayProbes == 0;
    var s5 := Step(s4, e5);
    assert s5.watch && s5.pendingProbe && s5.strayProbes == 1;
    var s6 := Step(s5, e6);
    assert s6.watch && s6.windowActive && !s6.pendingProbe && s6.strayProbes == 1;
    RunCons(s5, e6, []);
    RunCons(s4, e5, [e6]);
    RunCons(s3, e4, [e5, e6]);
    RunCons(s2, e3, [e4, e5, e6]);
    RunCons(s1, e2, [e3, e4, e5, e6]);
    RunCons(Initial, e1, [e2, e3, e4, e5, e6]);
  }

  /** Unloading leaves the counter at -1, so a second load in the same module
      instance registers action -1, which the next unload never removes. */
  lemma ReloadStrandsAction()
    ensures var r := Run(Initial, [Load(None), Unload, Load(None), Unload]);
      && r.Some?
      && AddAction(-1, ActionShortName) in r.value.editor
      && RemoveAction(-1) !in r.value.editor
  {
    var s1 := LoadPackage(Initial, None);
    var s2 := UnloadPackage(s1);
    assert s2.actionId == -1 && s2.editor == [AddAction(0, ActionShortName), RemoveAction(0)];
    var s3 := LoadPackage(s2, None);
    var s4 := UnloadPackage(s3);
    assert s4.editor == s3.editor;
    assert s4.editor == [AddAction(0, ActionShortName), RemoveAction(0), AddAction(-1, ActionShortName)];
    assert Run(s4, []) == Some(s4);
    assert Run(s3, [Unload]) == Some(s4);
    assert Run(s2, [Load(None), Unload]) == Some(s4);
  }

  /** A socket that was already replaced still clears the client when it
      closes, although the newer socket is open. */
  lemma StaleCloseDropsClient(s: State, oldConn: ConnId, newConn: ConnId)
    requires oldConn != newConn
    ensures var r := Run(s, [Connect(oldConn), Connect(newConn), SocketClose(oldConn)]);
      r.Some? && r.value.client.None?
  {
    var s1 := OnConnection(s, oldConn);
    var s2 := OnConnection(s1, newConn);
    var s3 := OnClose(s2, oldConn);
    assert Run(s3, []) == Some(s3);
    assert Run(s2, [SocketClose(oldConn)]) == Some(s3);
  }

  /** Replacing the preference port closes the old one, and that port's close
      then detaches the new one. */
  lemma ReplacedPortDetachesNew(s: State, p: PortId, q: PortId)
    requires s.prefPort == Some(p) && p != q
    ensures var r := Run(s, [AttachPort(q, PreferencesSender), PortClose(p)]);
      && r.Some? && r.value.prefPort.None?
      && ClosePort(p) in r.value.prefs
  {
    var s1 := AddMessagePort(s, q, PreferencesSender);
    var s2 := PortClosed(s1, p);
    assert s1.prefs == s.prefs + [ClosePort(p), ClientStatus(q, s.client.Some?, s.watch)];
    assert Run(s2, []) == Some(s2);
    assert Run(s1, [PortClose(p)]) == Some(s2);
  }
}
