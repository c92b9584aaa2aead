# Extra Connectors: battery dashboard and message bridge

This project models the core of the Touch Portal "Extra Connectors" plugin in Dafny.
The plugin has two parts.

- **The battery monitor** (`src/battery-monitor.js`). It keeps a snapshot of battery
  readings for two earbuds, a headset and a mouse. It merges each partial update into
  that snapshot. It loads four icons once and caches them. It draws a 415 × 415
  picture with four round gauges. Each gauge has a thin outer and inner ring, the
  cached icon, a thick arc for the charge percentage starting at twelve o'clock, and a
  coloured glyph for the device status.
- **The entry point** (`src/index.js`). It binds an inbound socket and forwards each
  message to a Touch Portal state. A message is a frame of a topic and a payload, and
  a topic table says which state it goes to and how the payload is transformed. The
  entry point also handles the keyboard-lock action, and keeps one scheduled task that
  pushes the current time every minute.

The model is arranged by module:

- `JsValues` holds the JavaScript values a JSON field can have, and which are falsy.
- `BatteryStates` holds the two status tables and the status lookup.
- `Readings` holds the snapshot and `Object.assign`.
- `Assets` is the icon cache and its loader. Asset files are a `Store` from name to
  decoded image; a name absent from the store is a file that cannot be read (or, see
  "Left out", one that reads but does not decode).
- `Gauges` holds the geometry. Drawing is a list of commands per gauge, in absolute
  canvas coordinates: `Ring`, `Icon`, `Arc` and `Glyph`.
- `BatteryMonitor` pairs the pure function `Redraw` with the class `Monitor`, whose
  `CreateImage` updates `currentData` and `DEVICE_IMAGES` in place.
- `Router` is the pure part of the entry point.
  - The topic table and its transforms.
  - One frame of the inbound loop (`HandleFrame`), reading the topic table by its own keys; the
    lookup as written, which also finds inherited `Object.prototype` names, is `LookupAsWritten`.
  - A run of frames (`Serve`).
  - The action table (`ActionEvents`, by own keys; as written, `ActionEventsAsWritten`).
- `Plugin` is the class `Bridge`. Its fields are the module-level `outSocket` and
  `cronTask`, the scheduler's tasks, and the monitor. Every effect is appended to a
  ghost trace of events, in order: replies on the socket, log lines, state updates and
  outbound requests.
  - `Init` and `OnConnected` model `init` and the "connected" listener.
  - `Tick` is the scheduler's minute.
  - `OnAction` is the "Action" listener.
  - `Receive` is the inbound `for await` loop with the own-key table lookup, proved equal to `Serve`.

JSON parsing is a parameter of the model, `Parser`. It maps a payload to its three
top-level slots, or to `None` when `JSON.parse` throws. A slot holding something other
than an object reads as a reading whose fields are all `undefined`, as optional chaining
does. A top-level value that is not an object carries no slot.

In three places the model follows the code rather than what a reader might expect:
- "ACK" is sent before anything else is done with a frame, including frames whose
  transform later fails.
- A transform that throws, such as a `JSON.parse` error or an asset file that cannot be
  read, is not answered per frame. It ends the inbound loop, and its error is logged
  once as "IN SOCKET ERROR:". No later frame is taken (`Serve`, `ServeStopped`).
- A failed asset load leaves the slots loaded before it set. The next render reloads
  all four (`LoadFrom`).

## Model

| member | source | states |
|---|---|---|
| BatteryStates.DeviceStateOf | src/battery-monitor.js:180 | a status has an entry exactly when it is a number equal to one of the table's integer keys, and then it is that key's entry; otherwise there is none |
| BatteryStates.BudsStatesResolve | src/battery-monitor.js:39-65 | earbud codes 0 to 4 give a dot in red, yellow, orange, green and green; any other number gives nothing |
| BatteryStates.SteelSeriesStatesResolve | src/battery-monitor.js:68-94 | headset and mouse codes 0 to 4 give "?" red, dot green, square green, dot yellow and dot red; any other number gives nothing |
| BatteryStates.NonNumberHasNoState | src/battery-monitor.js:180 | a status of any type other than number (absent, null, string, boolean, object) has no state in any table |
| BatteryStates.OutOfRangeHasNoState | src/battery-monitor.js:180 | -1, 5 and 1.5 have no state in either table |
| Readings.Merge | src/battery-monitor.js:132 | each slot present in the update replaces the old slot whole; a slot absent from it keeps the old value |
| Readings.MergeNeverForgets | src/battery-monitor.js:132 | a slot once present stays present: no update removes one |
| Readings.MergeDisjointCommutes | src/battery-monitor.js:132 | two updates that carry different slots can be applied in either order |
| Readings.MergeAssociative | src/battery-monitor.js:132 | two merges in a row equal one merge of the combined update |
| Readings.MergeIdempotent | src/battery-monitor.js:132 | applying the same update twice changes nothing the second time |
| Readings.BudsReplacedWhole | src/battery-monitor.js:132 | a buds update replaces the fields of both earbuds, including those it omits, and leaves headset and mouse alone |
| Assets.Fetch | src/battery-monitor.js:153-166 | loading an asset succeeds exactly when the store holds it, with that image; otherwise the error names the asset (a read failure rejects at line 155) |
| Assets.LoadFrom | src/battery-monitor.js:119-124 | assets are requested in the fixed order from slot k onward, and loading stops at the first one that fails; the error names that asset; it fails exactly when a later asset is missing; exactly the slots loaded before the failure change |
| Assets.LoadIcons | src/battery-monitor.js:119-124 | with every slot set nothing is requested; otherwise all four are loaded again from the first |
| Assets.LoadIconsFillsAll | src/battery-monitor.js:119-124 | a load without error leaves every slot set, after requesting exactly the four names when any slot was empty |
| Assets.LoadIconsOnce | src/battery-monitor.js:119-124 | after one successful load, later loads request nothing whatever the files then hold |
| Assets.LoadIconsFailure | src/battery-monitor.js:119-124 | a failed load happened with a slot empty; it requested a prefix of the four names ending with the missing one, and the error names that one |
| Gauges.PercentNumber | src/battery-monitor.js:223 | `percent \|\| 0` as a number: every falsy value is 0 and a number is itself |
| Gauges.Clamp | src/battery-monitor.js:223 | `Math.min(100, Math.max(0, x))` lies in [0, 100], is x inside that range and the nearer bound outside it |
| Gauges.SweepOf | src/battery-monitor.js:223-226 | the arc covers a fraction of a turn in [0, 1]: 0 for a falsy percentage, clamped percent / 100 for a number, NaN exactly for an object or a non-empty string |
| Gauges.SweepClampsOutOfRange | src/battery-monitor.js:223 | -10 and undefined draw as 0 %, 150 draws as 100 % |
| Gauges.GaugeLayout | src/battery-monitor.js:197-235 | a gauge is the ring of radius 99 and the ring of radius 74 around its centre, then the 25-wide arc of radius 86.5 from twelve o'clock, which exactly fills the band between them; the icon is at inset 50 and size 100 exactly when one is cached; the status glyph is at inset 65 in its colour exactly when the status is known; there is nothing else, and they are painted in the order rings, icon, arc, glyph, so the glyph lies over the icon |
| Gauges.GaugeCommands | src/battery-monitor.js:197-235 | one gauge's drawing commands; what they are is stated by `GaugeLayout` and where they lie by `GaugeFitsBox` |
| Gauges.GaugeFitsBox | src/battery-monitor.js:197-235 | every ring, arc and icon, and each glyph's anchor, lies in its own 200 × 200 box |
| Gauges.Render | src/battery-monitor.js:172-187 | the picture is W × H = 415 × 415 with four gauges, in cell order, each drawn from its cell's reading, status and icon; every ring, arc and icon, and each glyph's anchor, lies inside the canvas with a margin of one padding |
| Gauges.CellPercent | src/battery-monitor.js:183-186 | the percentage each gauge is given: its slot's level field, undefined when the slot is absent; stated through `Render`, `CellDependsOnItsSlot` and `LeftBudExample` |
| Gauges.CellState | src/battery-monitor.js:183-186 | the status each gauge is given: its slot's status looked up in the buds or the SteelSeries table as `DeviceStateOf` states; stated through `Render`, `CellDependsOnItsSlot` and `LeftBudExample` |
| Gauges.CellIcon | src/battery-monitor.js:183-186 | the cached icon each gauge is given; stated through `Render`, `CellDependsOnItsSlot` and `RedrawDrawsEveryIcon` |
| Gauges.CellOrigins | src/battery-monitor.js:183-186 | left earbud, right earbud, headset and mouse have their boxes at (5, 5), (210, 5), (5, 210) and (210, 210) |
| Gauges.CellBoxesDisjoint | src/battery-monitor.js:198-199 | the boxes of two different cells are apart along some axis |
| Gauges.CellDependsOnItsSlot | src/battery-monitor.js:183-186 | a gauge depends only on its own slot of the snapshot and its own icon |
| Gauges.MergeRedrawsOnlyUpdatedGauges | src/battery-monitor.js:132-137 | after a merge, the gauges of slots the update does not carry are drawn as before |
| Gauges.LeftBudExample | src/battery-monitor.js:183-184 | a buds update with left 80 % in case draws an 80 % arc and a green dot on the left gauge; the right gauge, whose fields the update drops, has an empty arc and no glyph |
| BatteryMonitor.Redraw | src/battery-monitor.js:118-137 | the icons and the requested names are those of the loading step, and the render fails exactly when loading does, with loading's error; a failed load keeps the snapshot unmerged, happened with a slot empty, and reports an asset error; a success merges the update, leaves every icon set and draws the merged snapshot; with a full cache nothing is loaded and it cannot fail, and with every asset readable it cannot fail either |
| BatteryMonitor.RedrawLoadsOnce | src/battery-monitor.js:119-124 | after one successful render, later renders load nothing and cannot fail |
| BatteryMonitor.RedrawDrawsEveryIcon | src/battery-monitor.js:217-220 | a successful render draws an icon in each of the four gauges |
| BatteryMonitor.Monitor.constructor | src/battery-monitor.js:104-112 | the process starts with an empty snapshot and no icon loaded |
| BatteryMonitor.Monitor.CreateImage | src/battery-monitor.js:118-137 | updates `currentData` and `DEVICE_IMAGES` in place; returns the picture and leaves the state exactly as `Redraw` does |
| Router.LockLabelOf | src/index.js:31 | "Locked" exactly for the payload "true", "Unlocked" for anything else |
| Router.Lookup | src/index.js:28-37 | the table has an entry exactly for the two topics; each entry has its state id and transform |
| Router.LookupAsWritten | src/index.js:61 | as written, an `Object.prototype` name also finds an entry, with no id and no transform; any other topic finds what `Lookup` finds |
| Router.TextOf | src/index.js:67 | a transform that needs no snapshot: the lock label, or the payload itself for an entry without a transform |
| Router.Apply | src/index.js:31-35 | the lock transform keeps the state; the battery transform fails with a parse error and keeps the state when the payload does not parse; otherwise it is exactly `Redraw`'s state, succeeding with its picture and failing with its error |
| Router.HandleFrame | src/index.js:49-73 | one iteration of the receive loop with the own-key topic lookup; stated through `HandleFrameFacts` |
| Router.FrameWith | src/index.js:49-73 | one iteration of the receive loop for a given lookup result; stated for the corrected table through `HandleFrameFacts`, and for the table as written through `AsWrittenAgreesOffInherited` and `InheritedTopicUpdatesState` |
| Router.HandleFrameFacts | src/index.js:49-73 | one frame: "ACK" first, its only reply, then the "Message:" log line with topic and payload; no frame logs an error itself, and a failed frame has no effect beyond those two; an unknown topic warns and changes nothing; a known topic leaves the state its transform leaves, and on success pushes exactly one update, the transformed value to the table's id, while a transform error becomes the frame's failure and pushes nothing; a failure can only come from the battery topic; a payload that does not parse leaves the state alone |
| Router.AsWrittenAgreesOffInherited | src/index.js:61-72 | for every topic that is not an inherited `Object.prototype` name, the frame handler as written does exactly what `HandleFrame` does |
| Router.Serve | src/index.js:47-74 | the loop never takes more frames than arrive |
| Router.ServeFacts | src/index.js:47-74 | without an error every frame is taken; an error ends the loop (its `.catch` at line 94) after at least one frame, and its log line is the last effect and the only error log of the run; exactly one "ACK" per frame taken |
| Router.ServeSnoc | src/index.js:49-73 | a loop that has not stopped takes one more frame by handling it from the state it reached |
| Router.ServeStopped | src/index.js:94 | once the loop has stopped, later frames change nothing |
| Router.ServeTakesPrefix | src/index.js:49-73 | the loop's run equals its run over just the frames it took |
| Router.ServeUpdatesKnownStates | src/index.js:28-37 | every state the loop updates is one of the table's two ids |
| Router.ServeUnknownTopicsInert | src/index.js:62-65 | frames whose topics are all unknown change no state, push nothing and never stop the loop |
| Router.LockFrameEndToEnd | src/index.js:49-73 | a lock frame "true" gives ACK, the log line and "Locked" pushed to the lock state |
| Router.BatteryFrameEndToEnd | src/index.js:33-35 | with icons cached, a battery frame merges the update and pushes the render of the merged snapshot to the image state |
| Router.FindValue | src/index.js:16 | the value of the first `data` entry with the id, or none exactly when no entry has it |
| Router.KeyboardLockEvents | src/index.js:14-24 | the lock action's effects; stated through `ActionEvents` |
| Router.ActionEvents | src/index.js:101-108 | an unknown action only warns; the lock action's handler (lines 13-25) logs the value and sends it once exactly when the outbound socket exists |
| Router.ActionEventsAsWritten | src/index.js:103-105 | as written, an `Object.prototype` name finds an inherited function, so nothing is logged or sent |
| Router.InheritedTopicUpdatesState | src/index.js:61-72 | as written, a frame on "toString" is not reported unknown and pushes its payload to an undefined state id |
| Router.InheritedTopicIsUnknown | src/index.js:61-65 | reading the table by its own keys, each inherited name warns as unknown and pushes nothing |
| Router.InheritedActionIsSilent | src/index.js:103-107 | as written the action "toString" is silent; read by own keys it warns "Unknown Action" |
| Plugin.AtMostOneActive | src/index.js:82-92 | with only the current task running, at most one task runs, and one exactly when there is a current task |
| Plugin.StopCurrent | src/index.js:82-83 | stopping the current task changes that task alone |
| Plugin.ReplaceKeepsOneActive | src/index.js:82-92 | stopping the current task and scheduling a new one leaves exactly the new one running |
| Plugin.TickPushesOnce | src/index.js:86-91 | each minute the time is pushed once, or not at all before the first schedule |
| Plugin.ServeStep | src/index.js:49-73 | the run over one more frame extends the run so far |
| Plugin.ServeExit | src/index.js:94 | a run that has stopped on a prefix is the run over all the frames |
| Plugin.Bridge.constructor | src/index.js:7-11 | the bridge starts with no outbound socket, no task, nothing done and an empty monitor |
| Plugin.Bridge.Init | src/index.js:39-99 | a bind failure (line 42) is logged as "INIT ERROR" by the listener's `.catch` at line 112 and changes nothing else; otherwise the outbound socket is set, the old task is stopped, a new one runs alone and pushes the time at once, then "Initialization Complete" is logged |
| Plugin.Bridge.OnConnected | src/index.js:110-113 | logs "CONNECTED", then does what `Init` does |
| Plugin.Bridge.Tick | src/index.js:86-91 | appends one time update per running task, so at most one |
| Plugin.Bridge.OnAction | src/index.js:101-108 | appends exactly the effects `ActionEvents` gives for the current socket state |
| Plugin.Bridge.RunTransform | src/index.js:67-69 | returns the transform's value and leaves the monitor as `Apply` says |
| Plugin.Bridge.Handle | src/index.js:50-72 | appends exactly one frame's effects, leaving the monitor and the error as `HandleFrame` gives |
| Plugin.Bridge.Step | src/index.js:49-73 | one turn of the loop extends the ghost run by the frame, with the exit's error line on failure |
| Plugin.Bridge.Receive | src/index.js:47-74 | the loop's effects, the monitor's final state and the number of frames taken are exactly those of `Serve` |

## Left out

- Canvas rasterisation, PNG encoding and base64. A pushed image is the `Picture`'s command lists, not its encoded bytes.
- Trigonometry and floating point. Arc angles are fractions of a turn from twelve o'clock, and reals stand for JavaScript numbers.
- `Infinity`, which `JSON.parse` gives for a literal such as `1e999`, cannot be a real. The model does not draw it.
- Assets.Fetch: a file that reads but does not decode is modelled as a load error, like a missing file. The code's promise (src/battery-monitor.js:157-163) waits for `onload` only, with no `onerror` and no reject. So unless setting `src` throws, such a file leaves the promise pending: the receive loop then waits forever at src/index.js:69, takes no later frame and logs nothing. The model has no pending outcome.
- Gauges.PercentNumber, Gauges.SweepOf: a non-empty string and every object are taken as NaN, though JavaScript converts some strings and arrays to a number: a numeric string such as "50", a whitespace-only string and the empty array (the last two become 0), and a one-element array.
- The verbose flag, the debug file `test.png` and its console logging are not modelled.
- The sockets are taken as given: their transport, binding and connect addresses. The inbound socket is the sequence of frames that arrive, and bind success is a parameter.
- The outbound socket handler and its "Reply:" and "OUT SOCKET ERROR:" log lines are not modelled.
- Concurrency is not modelled. The handlers run one at a time, with no interleaving of an action or a tick inside a frame's `await`.
- Router.HandleFrame, Router.Serve, Plugin.Bridge.Handle, Plugin.Bridge.Step, Plugin.Bridge.Receive: the topic table is read by its own keys, the corrected behaviour of the first finding below. As written, a frame on an inherited name such as "toString" pushes its payload to an undefined state id (`LookupAsWritten`, `InheritedTopicUpdatesState`); `AsWrittenAgreesOffInherited` shows the two agree on every other topic. So `ServeUpdatesKnownStates` and `ServeUnknownTopicsInert` describe the corrected loop.
- Plugin.Bridge.OnAction: the action table is read by its own keys, the corrected behaviour of the second finding below; as written, an inherited name is silent (`ActionEventsAsWritten`).
- Router.Frame: every message has a topic and a payload part. A message with only one part makes `msgBuf.toString()` throw after its "ACK", which ends the loop through its `.catch`; that is not modelled, so `HandleFrameFacts`' "a failure can only come from the battery topic" holds only for two-part messages.
- The Touch Portal client connection and plugin registration are not modelled.
- `JSON.parse` is not modelled; it is the parameter `Parser`. A `__proto__` key inside a payload is not modelled.
- The scheduler's clock and time formatting are left out. `now` is a parameter, and the scheduler's own timing is not modelled.
- What an inherited `Object.prototype` function does when the action listener calls it is left out. Some of them throw, and the resulting unhandled rejection is not modelled.
- The model records `undefined` as the missing value that is sent. The socket library's handling of `undefined` in a message is not modelled.

## Findings

| source | as written | input that shows it | evidently intended | confidence | as-written member | corrected member |
|---|---|---|---|---|---|---|
| src/index.js:61-72 | `STATE_FOR_TOPIC[topic]` also finds names inherited from `Object.prototype`. Such a topic is not reported unknown; it pushes the raw payload to an undefined state id | a frame with topic "toString" | only the table's own two topics are known; any other topic warns "Unknown Topic" | high; not executed | Router.InheritedTopicUpdatesState | Router.InheritedTopicIsUnknown |
| src/index.js:103-107 | `ACTION_HANDLERS[actionId]` also finds inherited functions and calls them, so the action is neither handled nor reported | an action with id "toString" | only the lock action is handled; any other id warns "Unknown Action" | high; not executed | Router.ActionEventsAsWritten | Router.ActionEvents |
