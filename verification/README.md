# BLE proximity companion: connection, telemetry and proximity model

A Dafny model of the logic inside a React Native app that keeps a link to one
Bluetooth LE peripheral, polls it once a second for liveness and signal
strength (RSSI), turns the RSSI into a distance estimate, and exchanges short
base64-framed messages with it.

Five modules. `BleContext`, `Home` and `Settings` each model one source
file. `Options` is a shared helper type. `BleSessions` holds the lemmas about
sequences of `BleContext` callbacks.

- `Options`: the `T | null` values of the app as `Option<T>`.
- `BleContext` (app/Contexts/BleContext.tsx): the provider's state
  (`connectedDevice`, `isConnected`, `rssi`, `isMonitoring`, the interval ref,
  the live intervals, the stored `LAST_CONNECTED_DEVICE_ID`) as one immutable
  record. Each callback is a pure transition. It takes the outcome of the call
  it awaits as a parameter and returns the next record plus the effects it
  emits: alerts and link cancellations. Timers are explicit. `intervals` maps
  each live setInterval handle to the device it polls and to the
  `isMonitoring` value its `startRssiLoop` closure captured. `intervalRef` is
  what the ref holds.
- `BleSessions`: sequences of those callbacks and interval firings, with the
  invariants kept across them.
- `Home` (app/routes/Home.tsx): distance category, clamped progress, the
  five-bucket progress label, and the vibration trigger, all over exact reals.
- `Settings` (app/routes/Settings.tsx): the scan callback as a fold over scan
  events, the connect handler, the characteristic listener as a fold over
  notifications, and the guarded test-message send. Base64 encode and decode
  are passed in as functions.

Behaviour of the code that the model keeps, even where one might expect
otherwise:

- There is no "connecting" state and nothing rejects a second connect. Two
  successful connects in a row still leave one live interval, because
  `startRssiLoop` clears the previous one first.
- A failed connect clears the device but leaves a running interval running.
  So "a timer exists iff connected" does not hold. What does hold is that,
  while a device is connected, every live interval polls that device. The
  orphaned interval keeps polling the earlier device. It can set a reading
  while nothing is connected. A later disconnect has no device to cancel, so
  the link to the earlier device is never cancelled
  (`BleSessions.OrphanIntervalSamples`).
- `disconnectDevice` clears the interval but leaves the ref pointing at it.
  The stale handle is harmless, because clearing it again does nothing.
- `resumeRssi` restarts the loop through a closure that captured
  `isMonitoring == false`. After a pause and a resume, ticks still check
  liveness but never sample RSSI (`BleSessions.ResumeAfterPauseNeverSamples`).
- The listener keeps only the latest message. It is not a log. The code has no
  decode-failure path.
- Clearing the rendered list leaves the scan callback's own array untouched.
  The next new device brings every earlier entry back
  (`Settings.ClearedListRefills`).
- The progress label and the distance category use different bounds. For
  example, they disagree at -51 dBm.

## Model

| member | source | states |
|---|---|---|
| BleContext.Init | app/Contexts/BleContext.tsx:36-40 | the provider starts disconnected, monitoring, with no interval and no reading, and satisfies every invariant |
| BleContext.StartRssiLoop | app/Contexts/BleContext.tsx:42-46 | the interval the ref named is cleared before a fresh one is scheduled, so the new interval is the only live one; nothing but the timer fields changes |
| BleContext.Tick | app/Contexts/BleContext.tsx:46-71 | a cleared interval never fires; a lost device clears the timer, device, flag, reading and stored id and emits exactly one disconnect alert; a live tick changes only the reading, and only when the captured flag is set and the read gave a value; an exception changes nothing |
| BleContext.Connect | app/Contexts/BleContext.tsx:77-102 | success sets device, flag and stored id to `id`, returns the device and starts a reading interval iff monitoring; failure returns null, clears device and flag, alerts once, and leaves stored id, reading and any interval as they were; invariants are kept |
| BleContext.Disconnect | app/Contexts/BleContext.tsx:104-117 | in every valid state the interval is cleared and the device, flag, reading and stored id are gone; the link is cancelled only if a device was connected; monitoring mode, the (now stale) ref and the next handle are untouched |
| BleContext.Reconnect | app/Contexts/BleContext.tsx:119-123 | is exactly `connectToDevice` on the stored id, or on FC:B4:67:51:4A:7A when none is stored: same state and effects, so a failure alerts once and a success while monitoring starts a sampling interval for that id |
| BleContext.Pause | app/Contexts/BleContext.tsx:125-132 | no interval remains and the ref is null, monitoring is off and the reading is null; connection and stored id are untouched |
| BleContext.Resume | app/Contexts/BleContext.tsx:134-139 | monitoring is on; with a device connected the only live interval polls it and carries the monitoring value from before the call; without one the intervals are unchanged |
| BleContext.VerifyPoweredOn | app/Contexts/BleContext.tsx:141-154 | ready exactly when the adapter is powered on; otherwise one Bluetooth-off alert |
| BleContext.Unmount | app/Contexts/BleContext.tsx:156-161 | unmounting leaves no interval running and changes nothing else |
| BleSessions.Apply | app/Contexts/BleContext.tsx:42-139 | every callback and tick keeps `isConnected` equal to "a device is present", keeps live intervals within the ref and running only while monitoring, keeps every live interval polling the connected device while one is connected, keeps a connected device equal to the stored id, and keeps a live interval for it while monitoring |
| BleSessions.RunPreservesValid | app/Contexts/BleContext.tsx:42-139 | those invariants hold after any sequence of callbacks and ticks |
| BleSessions.AtMostOneTimer | app/Contexts/BleContext.tsx:44-46 | at most one interval is ever live, and it is the one the ref names |
| BleSessions.SilentWithoutIntervals | app/Contexts/BleContext.tsx:46-72 | with no live interval, any sequence of ticks changes nothing and emits nothing |
| BleSessions.PausedTicksAreInert | app/Contexts/BleContext.tsx:125-132 | after a pause no tick runs at all, including the liveness check |
| BleSessions.DropIsHandledOnce | app/Contexts/BleContext.tsx:50-60 | a detected drop disconnects, removes the stored id and alerts once; later ticks can neither repeat it nor emit anything |
| BleSessions.ConnectedDropIsDetected | app/Contexts/BleContext.tsx:42-88 | in every reachable state, a connected device is the stored one and, while monitoring, has a live interval, so a lost-device tick disconnects it and alerts once |
| BleSessions.DisconnectIdempotent | app/Contexts/BleContext.tsx:104-117 | disconnecting twice gives the same state as once, and the second call emits nothing |
| BleSessions.MutedTicks | app/Contexts/BleContext.tsx:63-68 | ticks of intervals that captured monitoring off never produce a reading |
| BleSessions.ResumeAfterPauseNeverSamples | app/Contexts/BleContext.tsx:134-139 | after a pause and then a resume, monitoring is on but no sequence of ticks ever produces a reading |
| BleSessions.ConnectTwiceKeepsOneTimer | app/Contexts/BleContext.tsx:80-88 | two successful connects leave one live interval, for the second device, and store the second id |
| BleSessions.RestartRestoresLink | app/Contexts/BleContext.tsx:156-161 | on mount the stored id, or the default, is reconnected with a sampling interval |
| BleSessions.OrphanIntervalSamples | app/Contexts/BleContext.tsx:89-117 | after connecting to A and then failing to connect to B, the interval for A keeps running; it sets a reading while nothing is connected, and disconnecting cancels no link |
| BleSessions.FailedConnectKeepsInterval | app/Contexts/BleContext.tsx:89-98 | a failed connect while an interval runs leaves it running with no device connected |
| Home.DistanceFromRssi | app/routes/Home.tsx:32-38 | the category's rank equals the number of the bounds -50, -70, -80, -90 that the reading falls below (inclusive lower bounds) |
| Home.DistanceMonotone | app/routes/Home.tsx:33-37 | a stronger reading never gives a farther category |
| Home.DistanceBoundaries | app/routes/Home.tsx:32-38 | -50 is very close, -51 close, -70 close, -71 medium, -80 medium, -81 far, -90 far, -91 very far |
| Home.Progress | app/routes/Home.tsx:41-48 | the progress lies in [0, 1]; it is 0 at -100 and below, 1 at -40 and above, and (rssi + 100) / 60 in between |
| Home.ProgressMonotone | app/routes/Home.tsx:41-48 | progress never decreases as the reading rises |
| Home.ProgressLabel | app/routes/Home.tsx:116-124 | the label's rank equals the number of the bounds 0.8, 0.6, 0.4, 0.2 that the progress falls below |
| Home.ProgressLabelMonotone | app/routes/Home.tsx:116-124 | a higher progress never gives a farther label |
| Home.LabelRssiBounds | app/routes/Home.tsx:116-124 | for integer readings the label's bounds are -52, -64, -76 and -88 dBm |
| Home.LabelMonotoneInRssi | app/routes/Home.tsx:116-124 | a stronger reading never gives a farther label |
| Home.LabelDisagreesWithDistance | app/routes/Home.tsx:107-124 | at -51 dBm the category says close while the label says very close |
| Home.VibrationThreshold | app/routes/Home.tsx:50-57 | vibration is due exactly when a reading is present and at most -82 dBm, which is where progress is at most 0.3 |
| Home.VibratesOnRender | app/routes/Home.tsx:50-58 | the effect vibrates exactly when the reading changed and the new reading is present and at most -82 dBm |
| Settings.StartScan | app/routes/Settings.tsx:28-30 | a scan starts with an empty rendered list and an empty array |
| Settings.OnScanEvent | app/routes/Settings.tsx:35-47 | an error alerts with its message and changes nothing; a device is appended at the end iff it has a non-empty name and its id is not yet listed, and the rendered list then shows everything found; otherwise nothing changes |
| Settings.ClearList | app/routes/Settings.tsx:58-61 | the rendered list empties and the callback's array is kept |
| Settings.ScanAllExtends | app/routes/Settings.tsx:36-46 | over any events, the list found so far stays a prefix: nothing is removed or reordered |
| Settings.ScanAllValid | app/routes/Settings.tsx:40-45 | over any events, ids stay unique, names stay non-empty, and the rendered list is empty or the full list |
| Settings.ScanAllListsNamed | app/routes/Settings.tsx:40-45 | every device reported with a non-empty name ends up listed |
| Settings.ScanAllOnlyReported | app/routes/Settings.tsx:40-45 | every listed entry was already there or was reported with exactly that id and name |
| Settings.FreshScanContents | app/routes/Settings.tsx:28-47 | a fresh scan lists exactly the ids of the named devices reported, each once |
| Settings.ClearedListRefills | app/routes/Settings.tsx:40-45 | after the list is cleared, the next new device brings back every earlier entry too |
| Settings.OnNotification | app/routes/Settings.tsx:72-84 | a notification with a non-empty value replaces the message with its decoding; errors and empty values change nothing |
| Settings.LatestMessageWins | app/routes/Settings.tsx:68-86 | after any notifications, the message is the decoding of the last non-empty value, or what it was before if there was none |
| Settings.SendTestMessage | app/routes/Settings.tsx:88-99 | nothing is written without a connected device; otherwise the encoded test message goes to the fixed service and characteristic of that device |
| Settings.EchoedTestMessageIsReceived | app/routes/Settings.tsx:77-99 | if decoding inverts encoding, the written test payload echoed back as a notification is shown as the test message |
| Settings.HandleConnect | app/routes/Settings.tsx:56-66 | the BLE half is exactly `connectToDevice(id)`: it keeps the provider invariants, returns device `id` on success, and alerts once on failure; a successful connect empties the rendered list, keeps the scan invariants and starts listening to `id`; a failed one leaves the screen unchanged |

## Left out

- BleManager, AsyncStorage and the radio stack are foreign asynchronous I/O. Their results are parameters: `LinkOutcome`, `Liveness`, `RssiRead` and `AdapterState`. A failure of `AsyncStorage.setItem` during connect lands in the same catch block as a link failure, so `LinkFailed` covers it. A failing `removeItem` is not modelled.
- `AsyncStorage.getItem` in `reconnectLastDevice` (app/Contexts/BleContext.tsx:120) and `manager.state()` in `verifyStatusBlePoweredOn` (app/Contexts/BleContext.tsx:142) sit outside any try block. If either rejects, the callback rejects with no connect attempt and no alert. The model does not express this. `Reconnect` always ends in `Linked` or `LinkFailed`, and `VerifyPoweredOn` always receives an adapter state.
- Async interleaving and races between callbacks, the 1000 ms interval period, the 5 s scan timeout with `stopDeviceScan` and the `isLoading` flag are left out. Ticks and scan events are discrete sequential steps.
- IEEE-754 rounding in `getProgressFromRSSI` is left out; progress is an exact real. RSSI is an integer dBm value.
- The base64 codec of the `buffer` package is a library call. It appears only as the `encode` and `decode` parameters. The code has no decode-failure path, so the model has none either.
- The lifetime of the characteristic subscription belongs to the BLE library. `Screen.monitored` records which devices were subscribed, but the model does not say when the library ends a subscription.
- Rendering, styles, navigation (app/navigators/AppNavigator.tsx and app/navigators/SettingsNavigator.tsx), the refresh indicator, console logging and the alert and vibration texts and durations are left out. Alerts and vibration appear only as emitted effects or booleans.
- `scanDevices` builds a new BleManager on each call. A second scan started while the first one's callback is still firing is not modelled.
- Settings.FreshScanContents: does not state that a repeated id keeps the name from its first report, only that the kept name was reported with that id.
- BleContext.Tick: the teardown on a lost device is stated for states that satisfy the invariants. Without them, the ref may not name the firing interval, and the model simply clears whatever the ref names.
