# Grid web-audio bridge package: the relay and gating state machine

The package bridges an external audio-analysis client and the Grid editor. It
listens on a local WebSocket. It forwards `audio-peak-bands` frames from the
client to the editor as Lua callbacks, and it writes the editor's value
updates to the client as `set` frames. One user toggle, "watch for active
window", gates those updates. While it is on, the package subscribes to the
active-window package and relays nothing while the watched window is
reported inactive. A liveness timer switches the toggle back off when no
status report arrives.

The model has four modules:

- `Messages` (messages.dfy) holds the values exchanged. These are editor
  requests, socket frames, preference-port posts, the host's `sendMessage`
  argument and parsed inbound frames. It also holds the constants the
  package uses and the Lua callback script.
- `Relay` (relay.dfy) is the state machine on values. `State` has one field
  per piece of state the handlers of `index.js` read or write, plus three
  append-only outboxes: the editor, the socket clients and the preference
  ports. The timer handle `activeWindowSubscribeTimeoutId` becomes two fields,
  `pendingProbe` and `strayProbes`, and `deferredActivations` stands for the
  untracked load-time `setTimeout`, which no variable holds. The server
  `wss` and the host `controller` have no field, and `activeWindowTitle`,
  never reassigned, is the constant `ActiveWindowTitle`. It has one function
  per handler, with the same name as the handler.
  `Step` and `Run` apply events and sequences of events.
- `Package` (package.dfy) is the package as an object. The class
  `GridPackage` has the same fields, and its methods are the hooks and
  handlers, written imperatively. `UnloadPackage` keeps the source's
  pre-decrement `while` loop. Each method ensures that the object's
  `Snapshot()` is the `Relay` function of the same name applied to the old
  snapshot.
- `RelayProperties` (properties.dfy) holds the properties. Some are about
  one event, some are about runs of events, and some are concrete runs showing
  consequences of the code as written.

The liveness timer is modelled as follows. `pendingProbe` says that the
stored timer handle names a timer that is still armed. `strayProbes` counts
armed timers that no stored handle names any more. Such a timer arises when
`tryActivateActiveWindow` overwrites the handle of a live probe, and
`clearTimeout` can no longer reach it. Timer expiries are explicit events:
`ActiveWindowRequestNoResponse` for a liveness timer and `DeferredActivation`
for the activation that `loadPackage` schedules. An expiry can only be
delivered while such a timer is armed (`Relay.Enabled`).

The model follows the code as written; in particular:

- No welcome frame is sent on connect.
- The gate looks only at `watchForActiveWindow && !isWindowActive`. While a
  probe is outstanding, a stale `isWindowActive == true` lets updates through.
- A gated update is dropped with a log line only, not with a user-visible
  warning.
- Inbound frames are not guarded against parse failure.
- The timeout does not persist the reset toggle.

## Model

| member | source | states |
|---|---|---|
| `Package.GridPackage.constructor` | index.js:8-16 | the module's initial values: no client, no port, watch and window status off, counter 0, no timer |
| `Package.GridPackage.NotifyStatusChange` | index.js:220-226 | a `clientStatus` post with the current connection and toggle goes to the attached preference port, and only when one is attached |
| `Package.GridPackage.ClearProbeTimer` | index.js:115 | `clearTimeout` disarms the probe the stored handle names; nothing else changes |
| `Package.GridPackage.TryActivateActiveWindow` | index.js:170-185 | arms a probe, storing its handle over the old one (a live probe it replaces becomes stray), and sends one subscribe for "Firefox"/"application" |
| `Package.GridPackage.LoadPackage` | index.js:18-75 | restores the toggle (false when absent), registers action `actionId` and advances the counter, and schedules one deferred activation iff watching |
| `Package.GridPackage.UnloadPackage` | index.js:77-97 | the `--actionId` loop appends `RemoveAction(n-1) … RemoveAction(0)` and leaves the counter at -1 (n-1 if n < 0); it closes the client and the port; iff watching, it cancels the probe and unsubscribes |
| `Package.GridPackage.RemoveRegisteredActions` | index.js:78-83 | the `while (--actionId >= 0)` loop, kept as a loop, ends with the removals `Relay.RemoveActions(n, 0)` appended and the counter at -1 (n-1 if n < 0) |
| `Package.GridPackage.CloseEndpoints` | index.js:84-86 | unload asks the current client and the preference port, when present, to close; both variables are left set |
| `Package.GridPackage.AddMessagePort` | index.js:99-136 | a "preferences" port replaces and closes the previous one and receives the status; other senders change nothing |
| `Package.GridPackage.PortClosed` | index.js:103-105 | any port's close detaches the current port |
| `Package.GridPackage.PreferenceMessage` | index.js:106-132 | `set-setting` toggles on (subscribe, arm probe) or off (cancel, unsubscribe) only on a change, then always persists the toggle |
| `Package.GridPackage.SendMessage` | index.js:138-168 | value updates are gated, refused with a notice without a client, or sent as one `set` frame; an `active-window-status` event cancels the probe and records the status |
| `Package.GridPackage.ActiveWindowRequestNoResponse` | index.js:187-197 | an expiring probe forgets the handle, shows the failure notice, switches watching off and posts the status |
| `Package.GridPackage.DeferredActivation` | index.js:72-74 | the load-time activation runs `tryActivateActiveWindow` unconditionally |
| `Package.GridPackage.OnConnection` | index.js:60-64 | a new socket becomes the client and the status is posted |
| `Package.GridPackage.OnClose` | index.js:66-69 | any socket's close clears the client and the status is posted |
| `Package.GridPackage.HandleWebsocketMessage` | index.js:199-218 | only `audio-peak-bands` frames append a Lua callback |
| `Package.RemoveActionsStep` | index.js:78-83 | one more turn of the unload loop appends exactly `RemoveAction(id)` to the removals made so far |
| `Relay.RemoveActions` | index.js:78-83 | the removals for counter `n` number `max(n - to, 0)`, and the i-th names id `n - 1 - i`: strictly descending |
| `RelayProperties.RemovalsExactlyOnce` | index.js:78-83 | each id in `0 .. n-1` is removed exactly once and no other id is removed |
| `RelayProperties.UnloadEffect` | index.js:77-97 | unload's whole new state: removals, counter left at -1, close requests, and the probe cancelled plus unsubscribe iff watching; everything else, including the client and port variables, the window status, stray probes and the deferred activation, is unchanged |
| `RelayProperties.GateDropsValueUpdate` | index.js:141-144 | while watching an inactive window, a value update changes no state and appends to no outbox |
| `RelayProperties.ValueUpdateRelayed` | index.js:155-161 | gate open and a client connected: exactly one frame `Set(args[0], args[1])` to that client and nothing else |
| `RelayProperties.ValueUpdateRefused` | index.js:145-154 | gate open and no client: exactly one "not connected" failure notice and no frame |
| `RelayProperties.UnwatchedAlwaysRelays` | index.js:141-161 | with watching off, a value update appends `Set(args[0], args[1])` for the connected client whatever the window status, and changes nothing else |
| `RelayProperties.StaleStatusPassesGate` | index.js:141-144 | switching watching on over an "active" report keeps that report, so while the new probe is unanswered a value update is sent to the client |
| `RelayProperties.StatusReportRecorded` | index.js:163-166 | a status event clears the probe and sets the window status; the toggle, the connection and the outboxes are unchanged |
| `RelayProperties.OtherEventIgnored` | index.js:162-167 | a non-array argument of any other type changes nothing |
| `RelayProperties.ProbeTimeoutEffect` | index.js:187-197 | after an expiry no handle is pending and watching is off; exactly one failure notice is the only editor message (no persist, no unsubscribe); one status post iff a port is attached |
| `RelayProperties.SetSettingCases` | index.js:110-130 | the whole new state per case: false→true subscribes and arms the probe (a live one becomes stray); true→false cancels and unsubscribes; an unchanged value only persists; each persists the final toggle, and the window status, connection, port, counter and other outboxes are unchanged |
| `RelayProperties.StatusReportDisarms` | index.js:163-166 | in a coherent state a status report leaves no probe armed, so no timeout notice can follow it |
| `RelayProperties.EnableWithoutAnswer` | index.js:110-113 | from a coherent, unwatched state (no stray probe, no pending deferred activation, no probe while unwatched), enabling with no answer: the expiry forces watching off with exactly one notice and leaves no probe armed |
| `RelayProperties.ConnectionEffect` | index.js:60-64 | a connection replaces any previous client; one connected-status post iff a port is attached |
| `RelayProperties.CloseEffect` | index.js:66-69 | any close, even of a replaced socket, clears the client; one disconnected-status post iff a port is attached |
| `RelayProperties.StatusPosts` | index.js:220-226 | one status post per connection event |
| `RelayProperties.StatusPostsContent` | index.js:60-69 | the i-th post reports connected exactly when the i-th event was a connect |
| `RelayProperties.StatusPostsPerTransition` | index.js:60-69 | over any run of connects and closes with a port attached: exactly one post per event, in order, each reflecting the post-event connection; a client remains iff the last event was a connect |
| `RelayProperties.AttachPortEffect` | index.js:99-136 | a preferences port closes its predecessor, becomes the port and gets one status post, and nothing else changes; other senders change nothing |
| `RelayProperties.InboundDispatch` | index.js:210-217 | only `audio-peak-bands` appends `ExecuteLua("pkg_waa_cb(" + value + ")", 0, 0)`; `audio-peak` and all other types append nothing |
| `RelayProperties.CallbackRoundTrip` | index.js:213 | the callback's argument reads back as the frame's value text, unchanged |
| `RelayProperties.LoadStartsSession` | index.js:26 | a load that does not restore watching, from a coherent state with no probe pending and no deferred activation outstanding, gives a coherent state |
| `RelayProperties.ExpiriesStep` | index.js:170-197 | every enabled event, loads and both timer expiries included: failure notices plus armed timers (pending and stray) never outnumber subscribes plus the timers armed before |
| `RelayProperties.ExpiriesBounded` | index.js:170-197 | the same bound over every run from every state |
| `RelayProperties.NoticesNeverExceedSubscribes` | index.js:170-197 | from the initial state, "no active window" notices plus still-armed timers never outnumber the subscribes sent |
| `RelayProperties.SessionStep` | index.js:99-218 | every non-load event keeps a state coherent (no stray probe, no deferred activation, a probe only while watching) and keeps failure notices covered by subscribes |
| `RelayProperties.SessionRun` | index.js:99-218 | from a coherent state, over every load-free run, coherence holds, so each subscribe is answered by at most one failure notice |
| `RelayProperties.StepAppends` | index.js:77-226 | every event only appends to the three outboxes |
| `RelayProperties.RunAppends` | index.js:77-226 | every run only appends to the three outboxes |
| `RelayProperties.DeferredActivationStrandsProbe` | index.js:72-74 | load with watching, toggle off and on, then the deferred activation: a probe loses its handle, outlives the status report, and its expiry still switches watching off |
| `RelayProperties.StrayProbeOutlivesUnload` | index.js:72-97 | a probe stranded by the deferred activation is not cancelled by unload, and its expiry still shows the failure notice |
| `RelayProperties.DeferredActivationLeaksIntoReload` | index.js:72-74 | load with watching, unload, load without watching, then the first load's deferred activation: switching watching on strands its probe, which a status report does not disarm |
| `RelayProperties.DeferredActivationOutlivesUnload` | index.js:72-74 | the deferred activation still subscribes and arms a probe after unload |
| `RelayProperties.ReloadStrandsAction` | index.js:32 | after load, unload, load, unload, action -1 has been registered and never removed |
| `RelayProperties.StaleCloseDropsClient` | index.js:66-69 | connect a, connect b, close a: no client, although b is open |
| `RelayProperties.ReplacedPortDetachesNew` | index.js:101-105 | replacing the port closes the old one, and the old port's close detaches the new one |

## Left out

- JSON parsing and serialization. Inbound frames arrive already parsed as `Inbound`. Outbound frames are `Frame` values. Any exception in `handleWebsocketMessage` is not modelled. That includes a frame that fails to parse, and a frame that parses to `null` and throws at `data.type`; the model reads such a frame as an `Inbound` with no kind and ignores it.
- The WebSocket library and the server on port 1111. Binding, `wss.close()` and the wiring of socket event handlers are not modelled. The server accepting a connection is the `OnConnection` event, and a socket closing is the `OnClose` event.
- Reading the action icon from disk. The registered action keeps only its id and short name; the colour, icon, Lua default and other display fields are left out.
- Timer durations (50 ms). A timer is an armed flag or counter, and its expiry is an explicit event.
- Logging, `port.start()` and the registration of port handlers.
- `controller` is assumed set. Handlers that run before the first load are modelled as if it were set; the source throws when they call `sendMessageToEditor`.
- Non-boolean values. A status event's `status` is modelled by its truthiness, which is all the gate reads. The `set-setting` and persisted toggle values are modelled as booleans only. A `sendMessage` argument of `null` or `undefined`, on which `args.type` throws, is not modelled.
- `grid-websocket-server.js` is a standalone demo relay that only logs and echoes. It is not part of this model.
