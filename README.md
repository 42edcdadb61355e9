# Thread end-device application: a Dafny model

This project models the application layer of the Thread end-device example of the
NXP networking stack (`end_device_app.c`). The application keeps the (mode, state)
record of its Thread instance, in one of two modes. Configuration mode runs before
the device has joined, application mode runs once it is connected. The application
reacts to:

- network lifecycle events, with the join-retry rule;
- joiner (commissioning) events;
- the keyboard, with a different key table per mode and a low-power wake-up timer;
- the CoAP resources `/led`, `/temp`, `/sink`, `/accel` and `/equipo4`;
- accelerometer interrupts and two timers.

The application also posts temperature and accelerometer reports and LED commands
to a destination. Until the node is connected that destination is the unspecified
address `::` that the static holds from start-up. On connection it becomes the
realm-local group (:362-366). A data sink can change it.

The model has four modules:

- `AppTypes`: the values the application handles. These are the device mode and
  state, LED driver operations, IPv6 addresses, CoAP sessions and messages,
  queued actions, timer slots, calls to the stack, and events.
- `LedCommand`: the `/led` command language. It covers classification by the
  leading token, the `uint8_t` decimal scan, and the field loop of the `rgb`
  command, in a corrected form and in the form the source writes. It also covers
  the commands that the `APP_SendLed*` functions build, with the round trip
  between building and parsing.
- `AppPolicy`: the handlers' decisions as pure functions, with lemmas about them.
- `EndDevice`: the application as a class `App`.
  - The per-instance mode and state tables are arrays.
  - The application globals are fields: the app-initiated-join flag, the retry
    flag, the CoAP destination, the TX-LED flag, the latched accelerometer event
    and the message queue.
  - Each handler is a method whose `ensures` gives the whole new state.
  - That state is stated against ghost specification functions:
    `NwkEventVars`, `KeyVars`, the `AppPolicy` functions and the `LedCommand`
    functions.

Calls to collaborators are appended to ghost logs. The collaborators are the LED
driver, `COAP_Send`, the timers, the shell, the Thread stack, the sensors and
power management. What a collaborator returns is a method parameter:

- whether a CoAP session could be opened;
- the send status;
- the sensor's string;
- the random colour of `APP_SendLedRgbOn`.

The build switches are constants of the class:

- `gLedRgbEnabled_d` is `rgbEnabled`;
- `gKBD_KeysCount_c > 1` is `multiKey`;
- `gLpmIncluded_d` is `lowPower`.

The board's accelerometer event codes, `ACCEL_BUFF_SIZE`, the node's own
addresses, its mesh-local EID and the default group address are constructor
parameters.

The temperature resource is `/temp`. In application mode PB1 posts an accelerometer report, pulses the RGB LED magenta
and starts the LED-off and probe timers; it does not create a data sink (that
call is commented out at :570).

## Model

All source paths are under `middleware/wireless/nwk_ip_1.2.1/examples/end_device/src/`; the column gives the full path.

| member | source | states |
|---|---|---|
| LedCommand.LedCommandOf | middleware/wireless/nwk_ip_1.2.1/examples/end_device/src/end_device_app.c:1074-1137 | The selected command's token is a prefix of the payload. No token tried earlier (on, off, toggle, flash, rgb, color wheel) is a prefix. |
| LedCommand.Atoi8 | middleware/wireless/nwk_ip_1.2.1/examples/end_device/src/end_device_app.c:1099-1117 | The decimal read after a marker is a `uint8_t`. It is 0 when no digit follows the marker. |
| LedCommand.Dec3 | middleware/wireless/nwk_ip_1.2.1/examples/end_device/src/end_device_app.c:945-947 | Printing a value below 1000 with three places and leading zeros gives exactly three digits. |
| LedCommand.Dec3Value | middleware/wireless/nwk_ip_1.2.1/examples/end_device/src/end_device_app.c:945-947 | Those three digits denote the printed value. |
| LedCommand.ScanDec3 | middleware/wireless/nwk_ip_1.2.1/examples/end_device/src/end_device_app.c:945-947 | The decimal scan reads three printed digits followed by a non-digit as the printed value. |
| LedCommand.Atoi8Dec3 | middleware/wireless/nwk_ip_1.2.1/examples/end_device/src/end_device_app.c:945-947 | A printed byte is read back unchanged by the `uint8_t` scan. |
| LedCommand.RgbPass | middleware/wireless/nwk_ip_1.2.1/examples/end_device/src/end_device_app.c:1098-1122 | One pass of the field loop moves within the counted bytes. It consumes at least one byte, so the loop ends. |
| LedCommand.ParseRgb | middleware/wireless/nwk_ip_1.2.1/examples/end_device/src/end_device_app.c:1092-1123 | The field loop computes the colour defined by `ParseRgbSpec`: the fields in the counted bytes after the `rgb` token, with the count wrapping as a `uint8_t`. |
| LedCommand.RgbWindow | middleware/wireless/nwk_ip_1.2.1/examples/end_device/src/end_device_app.c:1096 | The counted bytes after the token: never more than `dataLen - 3` taken modulo 256, and always inside the payload. |
| LedCommand.PayloadCountFits | middleware/wireless/nwk_ip_1.2.1/examples/end_device/src/end_device_app.c:1038-1045 | For a `/led` payload passed with its length truncated to a `uint8_t`, the wrapped count is exactly `(dataLen - 3) mod 256` and needs no cut. |
| LedCommand.RgbLoopBody | middleware/wireless/nwk_ip_1.2.1/examples/end_device/src/end_device_app.c:1098-1122 | The loop body (three marker tests, then one step) performs exactly one `RgbPass`. |
| LedCommand.SkipPlain | middleware/wireless/nwk_ip_1.2.1/examples/end_device/src/end_device_app.c:1096-1123 | Bytes that are not markers leave the colour unchanged, one byte per pass. |
| LedCommand.MarkerField | middleware/wireless/nwk_ip_1.2.1/examples/end_device/src/end_device_app.c:1098-1122 | One pass over a marker followed by a non-marker sets that marker's component to the decimal after it and moves on two bytes. |
| LedCommand.TwoPlainBytes | middleware/wireless/nwk_ip_1.2.1/examples/end_device/src/end_device_app.c:1096-1123 | Two bytes that are not markers are skipped in two passes and leave the colour unchanged. |
| LedCommand.SpaceThenMarker | middleware/wireless/nwk_ip_1.2.1/examples/end_device/src/end_device_app.c:1096-1123 | A space followed by a marker and a non-marker sets that marker's component and moves on three bytes. |
| LedCommand.SpacedField | middleware/wireless/nwk_ip_1.2.1/examples/end_device/src/end_device_app.c:1096-1123 | A space, a marker and three bytes that are not markers set that marker's component and move on five bytes. |
| LedCommand.ThreeFields | middleware/wireless/nwk_ip_1.2.1/examples/end_device/src/end_device_app.c:1096-1123 | The r, g and b fields at offsets 3, 8 and 13 set the whole colour, whether or not bytes follow them. |
| LedCommand.ConsumeKeeps | middleware/wireless/nwk_ip_1.2.1/examples/end_device/src/end_device_app.c:1100-1117 | A marker test leaves unchanged the component of a marker that does not occur in the window. |
| LedCommand.LoopKeeps | middleware/wireless/nwk_ip_1.2.1/examples/end_device/src/end_device_app.c:1098-1123 | The whole loop leaves that component as it was. |
| LedCommand.MissingFieldStaysZero | middleware/wireless/nwk_ip_1.2.1/examples/end_device/src/end_device_app.c:1092-1123 | For every payload, a component whose marker does not occur in the counted bytes is 0. |
| LedCommand.RgbCommand | middleware/wireless/nwk_ip_1.2.1/examples/end_device/src/end_device_app.c:933-949 | The built `rgb` command has the 19 bytes that `sizeof` counts, including the terminating NUL. |
| LedCommand.RgbCommandLayout | middleware/wireless/nwk_ip_1.2.1/examples/end_device/src/end_device_app.c:933-947 | The built command is the token, three spaced fields at offsets 5, 10 and 15, then NUL. |
| LedCommand.LaidOutFieldsAt | middleware/wireless/nwk_ip_1.2.1/examples/end_device/src/end_device_app.c:945-947 | Each printed field of a laid-out command is read back as its component. |
| LedCommand.RgbCommandRoundTrip | middleware/wireless/nwk_ip_1.2.1/examples/end_device/src/end_device_app.c:928-950 | A command built with colour c is classified as `rgb` and parses back to exactly c (build, then parse, is the identity). |
| LedCommand.RgbFieldsWithoutTerminator | middleware/wireless/nwk_ip_1.2.1/examples/end_device/src/end_device_app.c:1092-1123 | Counting only up to the last field gives the same colour. A bare `rgb` gives no colour. |
| LedCommand.FixedCommandsClassify | middleware/wireless/nwk_ip_1.2.1/examples/end_device/src/end_device_app.c:976-1001 | The `flash` and `color wheel` commands the node sends are classified as the commands they are named after. |
| LedCommand.ConsumeAsWritten | middleware/wireless/nwk_ip_1.2.1/examples/end_device/src/end_device_app.c:1100-1117 | A marker test as written moves the cursor by at most one byte. It neither checks nor protects the counter. |
| LedCommand.ConsumeAgrees | middleware/wireless/nwk_ip_1.2.1/examples/end_device/src/end_device_app.c:1100-1117 | When the last counted byte is not a marker, a marker test as written equals the guarded one and leaves a byte to count. |
| LedCommand.PassAsWritten | middleware/wireless/nwk_ip_1.2.1/examples/end_device/src/end_device_app.c:1098-1122 | One pass as written either reads past the payload or moves the cursor forward. |
| LedCommand.PassAgrees | middleware/wireless/nwk_ip_1.2.1/examples/end_device/src/end_device_app.c:1098-1122 | Under the same condition, one pass as written succeeds and lands on the corrected pass's cursor, and the last byte stays a non-marker. |
| LedCommand.AsWrittenAgreesOnWindow | middleware/wireless/nwk_ip_1.2.1/examples/end_device/src/end_device_app.c:1096-1123 | While the last counted byte is not a marker, the loop as written never wraps its counter and computes the corrected colour. |
| LedCommand.AsWrittenAgreesWhenLastByteIsPlain | middleware/wireless/nwk_ip_1.2.1/examples/end_device/src/end_device_app.c:1092-1123 | An `rgb` payload whose wrapped count fits and whose last counted byte is not r, g or b parses identically as written and corrected. |
| LedCommand.WrappedCountParses | middleware/wireless/nwk_ip_1.2.1/examples/end_device/src/end_device_app.c:1038-1123 | A 257-byte payload `rgb r1` plus spaces arrives with length 1. Its count wraps to 254, and both loops set red to 1. |
| LedCommand.LaidOutAgrees | middleware/wireless/nwk_ip_1.2.1/examples/end_device/src/end_device_app.c:933-950 | A command laid out as the builder prints it ends in NUL, so the loop as written and the corrected loop agree on its 19 bytes. |
| LedCommand.BuiltRgbCommandIsSafe | middleware/wireless/nwk_ip_1.2.1/examples/end_device/src/end_device_app.c:928-950 | The commands the node builds itself end in NUL, so the loop as written parses them safely to their colour. |
| LedCommand.AsWrittenReadsPastTrailingMarker | middleware/wireless/nwk_ip_1.2.1/examples/end_device/src/end_device_app.c:1094-1123 | On the 5-byte payload `rgb r` the loop as written reads past the payload. The corrected loop stops with no colour. |
| LedCommand.LedTargetState | middleware/wireless/nwk_ip_1.2.1/examples/end_device/src/end_device_app.c:1074-1143 | A command names a target state exactly when some token matches. |
| LedCommand.LedCommandOps | middleware/wireless/nwk_ip_1.2.1/examples/end_device/src/end_device_app.c:1090-1143 | An unknown command makes no LED call. Otherwise it makes one render of the target state in application mode, preceded by an RGB update exactly for `rgb` with the RGB LED. |
| LedCommand.RgbWithoutRgbLed | middleware/wireless/nwk_ip_1.2.1/examples/end_device/src/end_device_app.c:1125-1133 | Without the RGB LED an `rgb` command turns the LED on iff some component is non-zero, and off iff the colour is black. |
| AppPolicy.NwkEventTransitions | middleware/wireless/nwk_ip_1.2.1/examples/end_device/src/end_device_app.c:344-401 | Lifecycle events fix the whole (mode, state) regardless of history. A factory reset fixes only the state. Other events change nothing and render nothing. Every render shows the resulting state, and there is at most one render per event. |
| AppPolicy.ConnectedRendersOldMode | middleware/wireless/nwk_ip_1.2.1/examples/end_device/src/end_device_app.c:362-366 | `Connected` renders the connected state in the previous (configuration) mode, then switches to application mode. |
| AppPolicy.NwkRunKeeps | middleware/wireless/nwk_ip_1.2.1/examples/end_device/src/end_device_app.c:344-401 | Any run of events that neither settle nor reset leaves the device as it was. |
| AppPolicy.NwkRunEndsAfterDisconnect | middleware/wireless/nwk_ip_1.2.1/examples/end_device/src/end_device_app.c:381-388 | After a disconnect and such a run, the device is failed in configuration mode. |
| AppPolicy.CommissioningState | middleware/wireless/nwk_ip_1.2.1/examples/end_device/src/end_device_app.c:414-445 | DTLS start leads to joining. A DTLS or joiner error leads to factory default. Every other joiner event leaves the state alone. |
| AppPolicy.JoinStep | middleware/wireless/nwk_ip_1.2.1/examples/end_device/src/end_device_app.c:673-698 | A rejoin is requested only while the join is still marked app-initiated. |
| AppPolicy.JoinStepRule | middleware/wireless/nwk_ip_1.2.1/examples/end_device/src/end_device_app.c:673-698 | A join confirmation rejoins, and keeps the join app-initiated, iff the join was app-initiated, it failed, and retry is on. |
| AppPolicy.RetryRejoinsEveryFailure | middleware/wireless/nwk_ip_1.2.1/examples/end_device/src/end_device_app.c:673-698 | With retry on, an app-initiated join asks again after every one of any number of failures. |
| AppPolicy.NoRetryUnlessAppInitiated | middleware/wireless/nwk_ip_1.2.1/examples/end_device/src/end_device_app.c:673-698 | A join the application did not start is never re-requested, whatever confirmations arrive. |
| AppPolicy.AppKeyEffectOf | middleware/wireless/nwk_ip_1.2.1/examples/end_device/src/end_device_app.c:556-622 | In application mode a key asks for a factory reset iff it is a very long press of an existing key. |
| AppPolicy.AppKeyEffects | middleware/wireless/nwk_ip_1.2.1/examples/end_device/src/end_device_app.c:556-622 | Only existing keys have an effect. Distinct keys post distinct actions. With one key, the only posted action is the remote data-sink release. |
| AppPolicy.LedCommandDevice | middleware/wireless/nwk_ip_1.2.1/examples/end_device/src/end_device_app.c:1064-1143 | Processing any LED command leaves the device in application mode. An unknown command keeps the state. |
| AppPolicy.LedCbDevice | middleware/wireless/nwk_ip_1.2.1/examples/end_device/src/end_device_app.c:1034-1054 | `/led` changes the device only for a new POST with a payload, and then always to application mode. |
| AppPolicy.DuplicateLedRequest | middleware/wireless/nwk_ip_1.2.1/examples/end_device/src/end_device_app.c:1034-1054 | A duplicate request leaves the device as the first copy left it, and is re-acknowledged iff confirmable. A failed session is never acknowledged. |
| AppPolicy.BuiltRgbCommandSetsColour | middleware/wireless/nwk_ip_1.2.1/examples/end_device/src/end_device_app.c:928-967 | Applying a built `rgb` command drives the RGB LED to exactly its colour. Without the RGB LED it turns the LED on, or off for black. |
| AppPolicy.SinkCommandOf | middleware/wireless/nwk_ip_1.2.1/examples/end_device/src/end_device_app.c:1239-1253 | A payload is a create iff it starts with `create`, and a release iff it starts with `release`. |
| AppPolicy.SinkDestination | middleware/wireless/nwk_ip_1.2.1/examples/end_device/src/end_device_app.c:1230-1260 | `/sink` sets the destination to the old one, the sender, or the default group. Without a new request carrying a payload it stays unchanged. |
| AppPolicy.SinkReleaseProperties | middleware/wireless/nwk_ip_1.2.1/examples/end_device/src/end_device_app.c:1230-1260 | Create selects the sender. Release selects the default group, is idempotent, and undoes a create. |
| AppPolicy.OutboundPost | middleware/wireless/nwk_ip_1.2.1/examples/end_device/src/end_device_app.c:768-788 | A report is a POST to the current destination, on the given path, carrying the reading. |
| AppPolicy.OutboundPostClass | middleware/wireless/nwk_ip_1.2.1/examples/end_device/src/end_device_app.c:768-788 | A report to another node is confirmable iff the destination is unicast. It carries the retrying generic callback iff confirmable. |
| AppPolicy.LedSendDelivery | middleware/wireless/nwk_ip_1.2.1/examples/end_device/src/end_device_app.c:883-919 | A command for the node itself is applied only. A unicast command is posted only, confirmable. A multicast command is both applied and posted, non-confirmable. |
| AppPolicy.AxisRequested | middleware/wireless/nwk_ip_1.2.1/examples/end_device/src/end_device_app.c:1356-1371 | `xyz` or `all` select every axis, ahead of the single-letter tests. `x`, `y` and `z` select one axis. Anything else, or no payload, selects none. |
| AppPolicy.AxisOfEvent | middleware/wireless/nwk_ip_1.2.1/examples/end_device/src/end_device_app.c:1433-1449 | An interrupt names at most one axis. |
| AppPolicy.AccelEventColour | middleware/wireless/nwk_ip_1.2.1/examples/end_device/src/end_device_app.c:1429-1454 | An interrupt posts a report iff it lights a colour. The X, Y and Z codes light full red, green and blue respectively, both ways. |
| AppPolicy.EchoLen | middleware/wireless/nwk_ip_1.2.1/examples/end_device/src/end_device_app.c:1188-1194 | The echoed text and its NUL fit the buffer. A payload that already fits is echoed whole. |
| AppPolicy.EchoNulIndexAsWritten | middleware/wireless/nwk_ip_1.2.1/examples/end_device/src/end_device_app.c:1385-1390 | The `/accel` clamp as written puts the NUL at min(length, buffer size). |
| AppPolicy.AccelEchoOverrun | middleware/wireless/nwk_ip_1.2.1/examples/end_device/src/end_device_app.c:1385-1390 | For every payload of at least `ACCEL_BUFF_SIZE` bytes the as-written NUL lands one past the buffer. The corrected clamp keeps it inside. |
| AppPolicy.PointerBytes | middleware/wireless/nwk_ip_1.2.1/examples/end_device/src/end_device_app.c:741-742 | The bytes compared at :741 are the four little-endian bytes of a pointer, the top one at offset 3. |
| AppPolicy.RetryAsWrittenMissesTemp | middleware/wireless/nwk_ip_1.2.1/examples/end_device/src/end_device_app.c:739-746 | As written, with the `/temp` path string anywhere in the part's memory, a failed `/temp` report never matches, so it is never retried. |
| AppPolicy.RetryOnlyTemp | middleware/wireless/nwk_ip_1.2.1/examples/end_device/src/end_device_app.c:739-746 | Corrected, the failed `/temp` report matches, and the `/accel` and `/led` posts do not. |
| EndDevice.NwkEventVars | middleware/wireless/nwk_ip_1.2.1/examples/end_device/src/end_device_app.c:337-406 | A network event appends its renders and stack calls, steps the join flag on join confirmations, and restores the default destination on connection. It stops the probe timer on failure and leaves the TX LED off after start and connect. It touches nothing else. |
| EndDevice.KeyDevice | middleware/wireless/nwk_ip_1.2.1/examples/end_device/src/end_device_app.c:499-622 | A key never changes the mode. In configuration mode it changes the device iff it starts a join. In application mode only PB1 changes it, to the RGB state. |
| EndDevice.KeyVars | middleware/wireless/nwk_ip_1.2.1/examples/end_device/src/end_device_app.c:631-648 | A key makes a factory-reset call iff it is a very long press. It joins only in configuration mode from an idle state, and queues nothing in configuration mode. In application mode it queues its action. With low power it keeps the wake-up timer at 5 s. |
| EndDevice.AppKeyVars | middleware/wireless/nwk_ip_1.2.1/examples/end_device/src/end_device_app.c:566-621 | The application key table queues the key's action, calls for a factory reset only on a very long press, and never disturbs the wake-up timer. |
| EndDevice.WakeUpVars | middleware/wireless/nwk_ip_1.2.1/examples/end_device/src/end_device_app.c:451-467 | The wake-up timer is armed for 5000 ms. The other timers stay as they were. |
| EndDevice.App.constructor | middleware/wireless/nwk_ip_1.2.1/examples/end_device/src/end_device_app.c:202-280 | Startup gives instance 0 in configuration mode and factory default, with retry on and no event latched. When the instance starts, five resources are registered, plus an app-initiated join with autostart when not yet connected. The mesh-local EID is one of the node's own addresses. |
| EndDevice.App.SetMode | middleware/wireless/nwk_ip_1.2.1/examples/end_device/src/end_device_app.c:1071 | Only the own instance's mode changes. |
| EndDevice.App.UpdateStateLeds | middleware/wireless/nwk_ip_1.2.1/examples/end_device/src/end_device_app.c:657-664 | The own instance's state is stored and rendered with the current mode. Nothing else changes. |
| EndDevice.App.JoinEventsHandler | middleware/wireless/nwk_ip_1.2.1/examples/end_device/src/end_device_app.c:673-698 | The join flag and the join calls follow `JoinStep`. |
| EndDevice.App.StackToAppHandler | middleware/wireless/nwk_ip_1.2.1/examples/end_device/src/end_device_app.c:337-406 | The device becomes `NwkEventDevice`, the variables become `NwkEventVars`, and other instances are untouched. |
| EndDevice.App.OnSleepEvent | middleware/wireless/nwk_ip_1.2.1/examples/end_device/src/end_device_app.c:390-398 | Sleep events reach power management only in a low-power build. |
| EndDevice.App.OnConnecting | middleware/wireless/nwk_ip_1.2.1/examples/end_device/src/end_device_app.c:350-355 | Configuration mode, joining state rendered, TX LED off. |
| EndDevice.App.OnConnected | middleware/wireless/nwk_ip_1.2.1/examples/end_device/src/end_device_app.c:362-379 | Connected is rendered in the old mode. Then: default destination, application mode, accelerometer enabled, TX LED left off. |
| EndDevice.App.OnNwkFailed | middleware/wireless/nwk_ip_1.2.1/examples/end_device/src/end_device_app.c:381-388 | Configuration mode, failure rendered, probe timer stopped. |
| EndDevice.App.CommissioningHandler | middleware/wireless/nwk_ip_1.2.1/examples/end_device/src/end_device_app.c:414-445 | Only the states of `CommissioningState` are stored and rendered. |
| EndDevice.App.HandleKeyboard | middleware/wireless/nwk_ip_1.2.1/examples/end_device/src/end_device_app.c:631-648 | The device becomes `KeyDevice` and the variables `KeyVars`, dispatched on the current mode. |
| EndDevice.App.ConfigModeHandleKeyboard | middleware/wireless/nwk_ip_1.2.1/examples/end_device/src/end_device_app.c:499-547 | The configuration-mode key table meets `KeyDevice`/`KeyVars`. |
| EndDevice.App.AppModeHandleKeyboard | middleware/wireless/nwk_ip_1.2.1/examples/end_device/src/end_device_app.c:556-622 | Optional wake-up restart, then the application key table, meets `KeyDevice`/`KeyVars`. |
| EndDevice.App.AppKeyTable | middleware/wireless/nwk_ip_1.2.1/examples/end_device/src/end_device_app.c:566-621 | The key switch meets `AppKeyVars`. |
| EndDevice.App.ProbePulseKey | middleware/wireless/nwk_ip_1.2.1/examples/end_device/src/end_device_app.c:568-577 | PB1 queues an all-axes report, pulses magenta, shows the RGB state, and arms the 70 ms LED-off and 1000 ms probe timers. |
| EndDevice.App.SedWakeUpFromKeyBoard | middleware/wireless/nwk_ip_1.2.1/examples/end_device/src/end_device_app.c:451-467 | The variables become `WakeUpVars`. |
| EndDevice.App.SwWakeUpCb | middleware/wireless/nwk_ip_1.2.1/examples/end_device/src/end_device_app.c:707-714 | The wake-up timer is stopped and disarmed, and sleep is allowed. |
| EndDevice.App.ProcessLedCmd | middleware/wireless/nwk_ip_1.2.1/examples/end_device/src/end_device_app.c:1064-1145 | The device becomes `LedCommandDevice`, the LED calls are `LedCommandOps`, and nothing else changes. |
| EndDevice.App.ProcessRgbCmd | middleware/wireless/nwk_ip_1.2.1/examples/end_device/src/end_device_app.c:1090-1135 | With the RGB LED, the colour parsed from the counted bytes (the count wrapping as a `uint8_t`) is driven and the RGB state shown. Without it, on iff some component is non-zero. |
| EndDevice.App.CoapLedCb | middleware/wireless/nwk_ip_1.2.1/examples/end_device/src/end_device_app.c:1034-1054 | A new POST with a payload is processed, with its length truncated to `uint8_t`. A confirmable request that did not fail gets an empty 2.04 ACK. |
| EndDevice.App.CoapTempCb | middleware/wireless/nwk_ip_1.2.1/examples/end_device/src/end_device_app.c:1159-1217 | A GET reads the sensor. A confirmable GET's ACK carries the reading. A new POST echoes at most 9 bytes with the sender. Any other confirmable request gets an empty ACK. |
| EndDevice.App.CoapSinkCb | middleware/wireless/nwk_ip_1.2.1/examples/end_device/src/end_device_app.c:1230-1260 | The destination becomes `SinkDestination`. A confirmable request is acknowledged. |
| EndDevice.App.CoapAccelCb | middleware/wireless/nwk_ip_1.2.1/examples/end_device/src/end_device_app.c:1340-1407 | A GET reads the axis `AxisRequested` names, and a confirmable GET's ACK carries the reading. A new POST echoes, clamped by `EchoLen`. |
| EndDevice.App.CoapEquipo4Cb | middleware/wireless/nwk_ip_1.2.1/examples/end_device/src/end_device_app.c:1459-1491 | Nothing in the state changes and nothing is sent, not even an ACK. |
| EndDevice.App.CoapGenericCallback | middleware/wireless/nwk_ip_1.2.1/examples/end_device/src/end_device_app.c:730-748 | A failed session on `/temp` queues the temperature report again, and nothing else does. |
| EndDevice.App.PostReading | middleware/wireless/nwk_ip_1.2.1/examples/end_device/src/end_device_app.c:768-793 | Unless the destination is the node itself, and when a session opens, the reading is sent as `OutboundPost`. It is printed in every case. |
| EndDevice.App.ReportTemperature | middleware/wireless/nwk_ip_1.2.1/examples/end_device/src/end_device_app.c:757-795 | The sensor is read, and the reading is posted on `/temp` and printed. |
| EndDevice.App.ReportAcceleration | middleware/wireless/nwk_ip_1.2.1/examples/end_device/src/end_device_app.c:1295-1328 | The requested axis is read, and the reading is posted on `/accel` and printed. |
| EndDevice.App.SendDataSinkCommand | middleware/wireless/nwk_ip_1.2.1/examples/end_device/src/end_device_app.c:807-826 | It succeeds iff a session opened and the send succeeded. The command goes non-confirmable to the default group. |
| EndDevice.App.SendDataSinkCreate | middleware/wireless/nwk_ip_1.2.1/examples/end_device/src/end_device_app.c:836-849 | After a successful send, reports go to the node's own mesh-local EID, an address of the node itself, so they are only printed. Otherwise the destination is unchanged. |
| EndDevice.App.SendDataSinkRelease | middleware/wireless/nwk_ip_1.2.1/examples/end_device/src/end_device_app.c:858-872 | After a successful send, the default destination is restored locally too. |
| EndDevice.App.LocalDataSinkRelease | middleware/wireless/nwk_ip_1.2.1/examples/end_device/src/end_device_app.c:1011-1020 | The destination becomes the default group. |
| EndDevice.App.SendLedCommand | middleware/wireless/nwk_ip_1.2.1/examples/end_device/src/end_device_app.c:883-919 | The command is applied locally exactly per `LedAppliedLocally` and posted exactly per `LedPosted`. |
| EndDevice.App.SendLedRgbOn | middleware/wireless/nwk_ip_1.2.1/examples/end_device/src/end_device_app.c:928-950 | Applied locally, it drives the RGB LED to the drawn colour, or turns the LED on without one. It posts the built command. |
| EndDevice.App.SendLedRgbOff | middleware/wireless/nwk_ip_1.2.1/examples/end_device/src/end_device_app.c:959-967 | Applied locally, it drives the RGB LED to black, or turns the LED off without one. |
| EndDevice.App.SendLedFlash | middleware/wireless/nwk_ip_1.2.1/examples/end_device/src/end_device_app.c:976-984 | Applied locally, the LED flashes. The `flash` command is posted. |
| EndDevice.App.SendLedColorWheel | middleware/wireless/nwk_ip_1.2.1/examples/end_device/src/end_device_app.c:993-1001 | Applied locally, the colour wheel runs, or the LED flashes without the RGB LED. |
| EndDevice.App.TimerTurnOffLedsCb | middleware/wireless/nwk_ip_1.2.1/examples/end_device/src/end_device_app.c:1281-1284 | All LEDs go off, and the single-shot LED-off timer is no longer armed. |
| EndDevice.App.TimmerEquipo4Cb | middleware/wireless/nwk_ip_1.2.1/examples/end_device/src/end_device_app.c:1493-1531 | The probe text is printed and the probe timer re-armed for 1000 ms. |
| EndDevice.App.AccelCallback | middleware/wireless/nwk_ip_1.2.1/examples/end_device/src/end_device_app.c:1416-1423 | An interrupt is ignored while one is latched. Otherwise it is handled as by `AccCallback` and the latch is cleared. |
| EndDevice.App.AccCallback | middleware/wireless/nwk_ip_1.2.1/examples/end_device/src/end_device_app.c:1429-1454 | A report is queued for the latched axis, that axis's colour pulsed, the latch cleared, and the LED-off timer restarted for 100 ms. |
| EndDevice.App.PulseAxis | middleware/wireless/nwk_ip_1.2.1/examples/end_device/src/end_device_app.c:1433-1451 | A named axis is queued for a report. The axis colour is driven and the RGB state shown. |

## Left out

- Timer allocation (`TMR_AllocateTimer`, :253-258) is taken to succeed. The timers are the three named slots.
- `APP_Handler`, the drain of the message queue, is left out. Posted actions stay in `pending`; each queued function is a method of its own.
- `MEM_BufferFree` is left out, including the free of the string literal at :1528, which is undefined behaviour in C and has no counterpart in the model.
- Accelerometer, I2C and ADC initialisation are left out, as are the shell messages at start-up, event monitoring, the management-diagnostic callback, shell sockets and the UDP echo protocol. They are build-dependent hardware or debug set-up with no effect on the modelled state.
- `APP_NwkScanHandler` is not part of this model.
- `APP_SetMode`, `APP_GetState` and `Led_SetState` are defined in files that are not part of this model. `SetMode` and the `Render` log entry stand for them.
- Calls to collaborators are logged, not simulated: the Thread stack, `COAP_Send`, the LED driver, the timers, the shell, the sensors, `NWKU_GetRandomNoFromInterval` and power management.
- Session availability, the send status, the sensor strings and the random colour are method parameters.
- `THR_NwkJoin` failure is ignored, as in the source.
- `NWKU_SendMsg` failure (a full queue) is not modelled. Every posted action is appended.
- The other Thread instances are given an initial state by the constructor. In the source they are zero-initialised statics.
- `HasPrefix`: a token longer than the payload is treated as no match. The source's `FLib_MemCmp` would read past a short payload.
- `AxisRequested`: a GET on `/accel` with no payload selects no axis. The source passes a NULL pointer to `FLib_MemCmp`.
- Embedded NUL bytes in an echoed payload are kept in the echoed text. The source's `shell_printf` would stop at the first one.
- `CoapEquipo4Cb` models the state only. Its shell output is left out. That output copies the payload into `ACCEL_BUFF_SIZE` bytes without a clamp and prints an uninitialised buffer for an empty payload (:1466-1473).
- `SendLedRgbOn`: the random colour is a parameter with each component in 1..255, as `NWKU_GetRandomNoFromInterval(0x01, 0xFF)` promises.
- `SendLedCommand`: requires the command to be shorter than 256 bytes, matching the `uint8_t` length parameter. All four callers pass at most 19 bytes.
- `ProcessLedCmd` is stated through `LedTargetState` and `LedCommandOps`, one function each for the state and the LED calls, rather than through the token chain branch by branch. The contract is the same.
- `Atoi8`: the decimal scan ends at the end of the payload, which the model reads as no further digit. `NWKU_atoi` reads on into whatever follows the payload. This happens when the digits run to the payload's end with no NUL, as in the 18-byte `rgb r255 g000 b128`. It also happens when a marker is the last byte, as in `rgb r`, where even the corrected loop scans from one byte past the payload. Those bytes are outside the model.
- `ParseRgb`: a wrapped count that would run past the payload is cut at the payload's end; the source would read on. No caller in the model passes such a count. A `/led` payload arrives with its length modulo 256 (`PayloadCountFits`), and the built commands with their own length.
- `ProcessLedCmd` and `ProcessRgbCmd` use the corrected field loop (`LedCommand.ParseRgb`). The loop as written is `LedCommand.ParseRgbAsWritten` (see Findings).
- `CoapGenericCallback` uses the corrected path comparison (`RetryMatches`).
- `CoapAccelCb` uses the corrected clamp (`EchoLen`).

## Findings

| source | as written | input that shows it | evidently intended | confidence | as-written member | corrected member |
|---|---|---|---|---|---|---|
| middleware/wireless/nwk_ip_1.2.1/examples/end_device/src/end_device_app.c:1096-1123 | The `rgb` loop decrements its `uint8_t` counter after each consumed marker without checking it. It then decrements once more at the end of the pass, so a marker in the last counted byte wraps the counter from 0 to 255 and the loop reads past the payload. | `/led` POST with payload `rgb r` (5 bytes) | Stop when the counted bytes run out: every marker test and the trailing step are guarded by the counter. The count after the token still wraps as a `uint8_t`, as the source has it. | not executed | LedCommand.AsWrittenReadsPastTrailingMarker | LedCommand.ParseRgb |
| middleware/wireless/nwk_ip_1.2.1/examples/end_device/src/end_device_app.c:741-742 | The failed session's path is compared with `&gAPP_TEMP_URI_PATH.pUriPath`, the bytes of the pointer field, not with the path string it points to. | A confirmable `/temp` report that gets no ACK, with the `/temp` path string (the value of `pUriPath`) stored below 0x6D000000 | Compare with `gAPP_TEMP_URI_PATH.pUriPath`, so that a failed temperature report is retried | not executed | AppPolicy.RetryAsWrittenMissesTemp | AppPolicy.RetryOnlyTemp |
| middleware/wireless/nwk_ip_1.2.1/examples/end_device/src/end_device_app.c:1387-1388 | The `/accel` echo clamps the length to `ACCEL_BUFF_SIZE`, not `ACCEL_BUFF_SIZE - 1`, then writes the NUL at `shellStr[dataLen]`. | A POST on `/accel` whose payload has `ACCEL_BUFF_SIZE` bytes or more | Clamp as the `/temp` handler does (:1191), so that the text and its NUL fit the buffer | not executed | AppPolicy.AccelEchoOverrun | AppPolicy.EchoLen |
