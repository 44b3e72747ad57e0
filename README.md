# NextGen dashboard: frame protocol and logger, modelled in Dafny

This project models two parts of the NextGen dashboard repository.

1. **The frame protocol.** The dashboard back end (`AppInterface`) and the HMI
   test harness (`ZmqPublisher`, `ZmqSubscriber`) exchange 12-byte CAN-like
   messages. Each message is a 4-byte identifier, copied in host order
   (little-endian here), followed by an 8-byte payload with big-endian fields.
   - A receive loop drops messages under 12 bytes and queues the frame of
     every other message.
   - A 5 ms timer takes one frame per tick and decodes it.
   - The identifier selects the signal: RPM, one of ten telltales, the popup
     code, one of five gauges, engine hours, one of eight safety buttons, fuel
     rate, DEF rate or engine load.
   - A decoded value is stored, and a change notification raised, only when it
     differs from the stored value.
   - The harness publishes those frames. Its engine-hours reading never goes
     backwards except through an explicit reset, is capped at 99999.9 h and is
     persisted.
   - The harness subscriber tracks the ISO and creep buttons the dashboard
     publishes.
2. **The logger** (`cLogger` and `LogMessageContext`, in the two copies of
   `clogger.cpp`, which differ only in comments).
   - `init` validates the log-file base name and enables message types from
     four stored settings.
   - The second copy, `src/clogger.cpp`, has the same code at other lines:
     - `init` is at 83-147;
     - the handler is at 170-349;
     - `LogMessageContext` is at 527-625.
     The table below cites the `NextGenApp` copy.
   - The message handler works in this order:
     - it filters by enabled type;
     - it drops one known noise message;
     - it folds consecutive duplicates into a "(previous message repeats N
       times)" line;
     - it opens `<app dir>/<name>.log` lazily;
     - it writes the line to the file and, optionally, to the console;
     - it queues the line and hands the queue to the application once it holds
       10 lines.

Modules, one per file:

| file | module | contents |
|---|---|---|
| `fixed_width.dfy` | `FixedWidth` | the fixed-width integer types `byte`, `uint16`, `uint32`, `int32` |
| `wire.dfy` | `Wire` | the identifier prefix and payload fields; `Message`/`Split`, proved inverse |
| `can_ids.dfy` | `CanIds` | identifiers, thresholds, caps, the telltale/gauge/button enumerations |
| `frame_queue.dfy` | `FrameQueue` | the receive step, the timer step, and FIFO over any interleaving |
| `dispatcher.dfy` | `Dispatcher` | `processFrame` as a function on a snapshot of the dashboard state |
| `app_interface.dfy` | `Dashboard` | class `AppInterface`, each method proved against `Dispatcher` |
| `publisher.dfy` | `TestPublisher` | the harness publisher (class `ZmqPublisher`) and what the dashboard decodes from each message |
| `subscriber.dfy` | `TestSubscriber` | the harness subscriber (class `ZmqSubscriber`) |
| `log_naming.dfy` | `LogNaming` | file-name validation, enabled types, level tag, module name, decimal rendering |
| `logger.dfy` | `Logger` | the handler and configuration as functions on `LogState`; class `CLogger` proved against them |
| `log_context.dfy` | `LogContext` | class `LogMessageContext` |

Where the comments and the code disagree, the model follows the code:

- **Gauge bands.** The comment above `mapPercent` (appinterface.cpp:41-49)
  gives bands such as 26–38 % and 76–88 %. The thresholds in `constants.h`
  (12, 25, 37, 50, 62, 75, 87) make 38 % level 4 and 88 % level 8.
  `Dispatcher.MapPercent` follows the thresholds.
- **Gauge levels.** The header (appinterface.h:149) calls gauge values levels
  1–5. They are 1–8.
- **Popup code.** The popup code is decoded unsigned, so a published -1 arrives
  as 65535 (`TestPublisher.PopupRoundTrip`).
- **Units.** The dashboard keeps engine, trip and last-trip hours as `float`
  hours. They are modelled as the integer tenths carried on the wire.

## Model

| member | source | states |
|---|---|---|
| Wire.IdOfIdBytes | NextGenApp/src/appinterface.cpp:181-182 | reading back the four identifier bytes a sender copies out gives the identifier |
| Wire.IdBytesIdOf | NextGenApp/src/appinterface.cpp:181-182 | any four bytes are the encoding of the identifier read from them |
| Wire.Bit0At7 | NextGenApp/src/appinterface.cpp:277 | `buf[7] & 1` is 0 or 1, and 1 exactly when byte 7 is odd |
| Wire.PayloadU16 | HMITestApp/zmqpublisher.cpp:38-41 | the zeroed payload with `(v>>8)&0xFF`, `v&0xFF` in bytes 6-7 decodes as `v` modulo 2^16, also for negative `v` |
| Wire.PayloadU32 | HMITestApp/zmqpublisher.cpp:118-126 | the 32-bit big-endian field in bytes 4-7 decodes back to the published raw value |
| Wire.PayloadByte7 | NextGenApp/src/appinterface.cpp:453-454 | a payload zero except byte 7 decodes as that byte in every field |
| Wire.Message | NextGenApp/src/appinterface.cpp:456-458 | 12 bytes: the identifier bytes, then the payload |
| Wire.Split | NextGenApp/src/appinterface.cpp:176-185 | fails exactly for messages under 12 bytes; otherwise it is the inverse of `Message` on the first 12 bytes |
| Wire.SplitMessage | NextGenApp/src/appinterface.cpp:176-185 | a built message, with any trailing bytes, splits into its own identifier and payload |
| FrameQueue.Accept | NextGenApp/src/appinterface.cpp:176-190 | a short message leaves the queue unchanged; otherwise one frame is appended and the queue before it is untouched |
| FrameQueue.Take | NextGenApp/src/appinterface.cpp:210-223 | an empty queue yields nothing; otherwise the oldest frame and the rest |
| FrameQueue.ReplayIsFifo | NextGenApp/src/appinterface.cpp:170-223 | for any interleaving of receives and ticks, dispatched frames followed by queued frames are the initial queue plus every accepted message, in order; at most one frame per tick |
| FrameQueue.TicksOnEmptyQueue | NextGenApp/src/appinterface.cpp:214-216 | ticks on an empty queue dispatch nothing |
| FrameQueue.DrainAfterBurst | NextGenApp/src/appinterface.cpp:170-223 | a burst of messages followed by as many ticks dispatches exactly the accepted frames, in order |
| FrameQueue.DrainQueue | NextGenApp/src/appinterface.cpp:210-223 | n ticks empty a queue of at most n frames and dispatch it in order |
| FrameQueue.ReplaySplit | NextGenApp/src/appinterface.cpp:170-223 | replaying two event runs in turn dispatches the frames of the first, then of the second |
| CanIds.TelltaleIndex | NextGenApp/include/appinterface.h:323-335 | each telltale has an enumerator value below `TelltaleCount`, and that value maps back to it |
| CanIds.TelltaleAtIndex | NextGenApp/include/appinterface.h:323-335 | every value below `TelltaleCount` names the telltale whose value it is |
| CanIds.GaugeIndex | NextGenApp/include/appinterface.h:359-366 | each gauge has an enumerator value below `GaugeCount`, and that value maps back to it |
| CanIds.GaugeAtIndex | NextGenApp/include/appinterface.h:359-366 | every value below `GaugeCount` names the gauge whose value it is |
| CanIds.ButtonIndex | NextGenApp/include/appinterface.h:345-349 | ISO 0, DEF 1, creep 2, all inside the eight button identifiers |
| CanIds.ThresholdsIncreasing | NextGenApp/include/constants.h:65-71 | the seven gauge thresholds are strictly increasing, between 0 and 100 |
| CanIds.CategoriesDisjoint | NextGenApp/include/constants.h:10-58 | no identifier belongs to two frame categories |
| Dispatcher.MapPercent | NextGenApp/src/appinterface.cpp:54-64 | the level is 1..8, and `percent` lies in that level's band: above the previous threshold and at most the level's own |
| Dispatcher.MapPercentMonotone | NextGenApp/src/appinterface.cpp:54-64 | a larger percentage never gives a lower level |
| Dispatcher.MapPercentBoundaries | NextGenApp/src/appinterface.cpp:54-64 | the level at both sides of each threshold, and below 0 and above 100 |
| Dispatcher.TripHours | NextGenApp/src/appinterface.cpp:353-354 | trip hours are engine minus last-trip hours, or 0 when that is negative |
| Dispatcher.AccumulateFuel | NextGenApp/src/appinterface.cpp:399-400 | a non-negative rate never decreases fuel usage |
| Dispatcher.Defaults | NextGenApp/include/appinterface.h:575-677 | the member initialisers form a valid state: ten telltales at 1, five gauges at level 1, zero readings |
| Dispatcher.Dispatch | NextGenApp/src/appinterface.cpp:243-433 | dispatch keeps the state valid: vector sizes, 0/1 telltales, levels 1..8, trip hours derived |
| Dispatcher.Deliver | NextGenApp/src/appinterface.cpp:170-223 | a message under 12 bytes changes nothing; every delivery keeps the state valid |
| Dispatcher.DeliverMessage | NextGenApp/src/appinterface.cpp:176-191 | a 12-byte message is dispatched with its own identifier and payload |
| Dispatcher.ShortPayloadIgnored | NextGenApp/src/appinterface.cpp:245-246 | a payload under 8 bytes changes nothing and notifies nothing |
| Dispatcher.UnknownIdIgnored | NextGenApp/src/appinterface.cpp:243-433 | an identifier outside every category changes nothing |
| Dispatcher.SignalsIffChanged | NextGenApp/src/appinterface.cpp:243-433 | a notification is raised if and only if the state changes |
| Dispatcher.DispatchIdempotent | NextGenApp/src/appinterface.cpp:243-433 | the same frame a second time changes and notifies nothing |
| Dispatcher.DispatchRpm | NextGenApp/src/appinterface.cpp:257-266 | RPM becomes the 16-bit field of bytes 6-7; it notifies only when that differs |
| Dispatcher.DispatchTelltale | NextGenApp/src/appinterface.cpp:269-283 | only the addressed telltale changes, to bit 0 of byte 7; it notifies only when that differs |
| Dispatcher.DispatchPopup | NextGenApp/src/appinterface.cpp:285-297 | the popup becomes the unsigned 16-bit field; on change both popup signals are raised |
| Dispatcher.DispatchGauge | NextGenApp/src/appinterface.cpp:300-336 | only the addressed gauge changes, to the level of byte 7; it notifies only when that differs |
| Dispatcher.DispatchEngineHours | NextGenApp/src/appinterface.cpp:338-359 | engine hours become the 32-bit field; on change trip hours are recomputed, never negative, and both signals are raised |
| Dispatcher.DispatchButton | NextGenApp/src/appinterface.cpp:362-391 | button 0 sets ISO, button 2 sets creep, each notifying on change; buttons 1 and 3-7 change nothing |
| Dispatcher.DispatchFuelRate | NextGenApp/src/appinterface.cpp:393-406 | on a new rate, the rate is stored, the actual rate becomes rate/20, usage grows by rate/20 over one minute, both signals are raised and nothing else changes; the same rate changes nothing |
| Dispatcher.DispatchDefRate | NextGenApp/src/appinterface.cpp:408-420 | on a new rate, DEF usage becomes rate times trip hours and both signals are raised; the same rate changes nothing |
| Dispatcher.DispatchEngineLoad | NextGenApp/src/appinterface.cpp:423-431 | engine load becomes the 16-bit field; it notifies only when that differs |
| Dashboard.ButtonId | NextGenApp/src/appinterface.cpp:451 | for indices 0..7 the identifier is `CAN_ID_BTN_BASE + index`, a button identifier |
| Dashboard.ButtonMessage | NextGenApp/src/appinterface.cpp:449-466 | a button message is 12 bytes |
| Dashboard.ClampFuelUsage | NextGenApp/src/appinterface.cpp:475-485 | usage is clamped to [0, 99999], unchanged inside that range |
| Dashboard.AppInterface.constructor | NextGenApp/src/appinterface.cpp:83-111 | the initialisers, then reset date "11/05/1998" and last-trip hours 0; the state is valid and the queue empty |
| Dashboard.AppInterface.Receive | NextGenApp/src/appinterface.cpp:176-190 | the queue becomes `Accept(old queue, msg)`; nothing else changes |
| Dashboard.AppInterface.ProcessQueue | NextGenApp/src/appinterface.cpp:210-223 | takes the oldest frame and leaves exactly the state and notifications `Dispatch` gives; an empty queue changes nothing |
| Dashboard.AppInterface.ProcessFrame | NextGenApp/src/appinterface.cpp:243-433 | the new state and the notifications are `Dispatch(old state, id, payload)`; validity is kept |
| Dashboard.AppInterface.UpdateRpm | NextGenApp/src/appinterface.cpp:261-264 | in-place update equal to `OnRpm` |
| Dashboard.AppInterface.UpdateTelltale | NextGenApp/src/appinterface.cpp:279-282 | in-place update equal to `OnTelltale` |
| Dashboard.AppInterface.UpdatePopup | NextGenApp/src/appinterface.cpp:288-295 | in-place update equal to `OnPopup` |
| Dashboard.AppInterface.UpdateGauge | NextGenApp/src/appinterface.cpp:331-334 | in-place update equal to `OnGauge` |
| Dashboard.AppInterface.UpdateEngineHours | NextGenApp/src/appinterface.cpp:348-357 | in-place update equal to `OnEngineHours` |
| Dashboard.AppInterface.UpdateButton | NextGenApp/src/appinterface.cpp:369-388 | in-place update equal to `OnButton` |
| Dashboard.AppInterface.UpdateFuelRate | NextGenApp/src/appinterface.cpp:397-403 | in-place update equal to `OnFuelRate` |
| Dashboard.AppInterface.UpdateDefRate | NextGenApp/src/appinterface.cpp:412-418 | in-place update equal to `OnDefRate` |
| Dashboard.AppInterface.UpdateEngineLoad | NextGenApp/src/appinterface.cpp:426-429 | in-place update equal to `OnEngineLoad` |
| Dashboard.AppInterface.PublishButtonStatus | NextGenApp/src/appinterface.cpp:449-466 | exactly one message, `ButtonMessage(index, pressed)`, is sent; the state is unchanged |
| Dashboard.AppInterface.SetFuelRate | NextGenApp/src/appinterface.cpp:468-473 | stores the rate and always notifies, even when unchanged |
| Dashboard.AppInterface.SetFuelUsage | NextGenApp/src/appinterface.cpp:475-485 | stores the clamped usage, always within [0, 99999], and notifies |
| Dashboard.AppInterface.SetCreepActive | NextGenApp/src/appinterface.cpp:499-506 | stores the flag and notifies only when it changes |
| Dashboard.AppInterface.SetDefRate | NextGenApp/src/appinterface.cpp:524-531 | stores the rate and notifies only when it changes |
| Dashboard.AppInterface.SetTripHours | NextGenApp/src/appinterface.cpp:533-540 | ignores its argument: trip hours stay the derived value, and it notifies |
| Dashboard.AppInterface.SetLastTripHours | NextGenApp/src/appinterface.cpp:543-554 | stores the reading, recomputes trip hours (never negative), and raises both signals |
| Dashboard.AppInterface.SetDefUsage | NextGenApp/src/appinterface.cpp:556-562 | stores the value and notifies |
| Dashboard.AppInterface.SetAvgEngineLoad | NextGenApp/src/appinterface.cpp:564-568 | stores the value and notifies |
| Dashboard.AppInterface.SetLastResetDate | NextGenApp/src/appinterface.cpp:570-577 | stores the date and notifies only when it changes |
| Dashboard.ButtonMessageRoundTrip | NextGenApp/src/appinterface.cpp:449-466 | a published button message, decoded by the dashboard's dispatcher, sets ISO (0) or creep (2) to the pressed state; other indices change nothing |
| TestPublisher.ClampPercent | HMITestApp/zmqpublisher.cpp:76-77 | the percentage is clamped to [0, 100], unchanged inside it |
| TestPublisher.OffsetId | HMITestApp/zmqpublisher.cpp:56 | a non-negative index that does not overflow gives `base + index` |
| TestPublisher.RawTenths | HMITestApp/zmqpublisher.cpp:116 | the truncated tenths of a capped reading: at most 999999, the floor of `hours * 10` |
| TestPublisher.RawTenthsMonotone | HMITestApp/zmqpublisher.cpp:116 | more hours never give fewer tenths |
| TestPublisher.AcceptHours | HMITestApp/zmqpublisher.cpp:100-108 | a reading below the current one is rejected, and only such a reading; any other is capped at 99999.9 |
| TestPublisher.PublishedTenthsMonotone | HMITestApp/zmqpublisher.cpp:96-142 | for any sequence of requests, the published readings never decrease, never drop below the starting reading and never exceed the cap |
| TestPublisher.ZmqPublisher.constructor | HMITestApp/zmqpublisher.cpp:22-32 | restores the stored reading, clamped to [0, 99999.9]; nothing sent |
| TestPublisher.ZmqPublisher.LoadEngineHours | HMITestApp/zmqpublisher.cpp:240-252 | the reading is the persisted value clamped to [0, 99999.9] |
| TestPublisher.ZmqPublisher.CurrentEngineHours | HMITestApp/zmqpublisher.h:43 | the current reading is within [0, 99999.9] |
| TestPublisher.ZmqPublisher.PublishRpm | HMITestApp/zmqpublisher.cpp:34-52 | sends exactly `RpmMessage(rpm)` |
| TestPublisher.ZmqPublisher.PublishTelltale | HMITestApp/zmqpublisher.cpp:54-70 | sends exactly `TelltaleMessage(index, state)` |
| TestPublisher.ZmqPublisher.PublishGauge | HMITestApp/zmqpublisher.cpp:73-95 | sends exactly the gauge message with the clamped percentage |
| TestPublisher.ZmqPublisher.PublishEngineHours | HMITestApp/zmqpublisher.cpp:96-142 | a lower reading changes and sends nothing; otherwise the capped reading is stored, persisted and sent as truncated tenths |
| TestPublisher.ZmqPublisher.MessagePopup | HMITestApp/zmqpublisher.cpp:145-163 | sends exactly `PopupMessage(value)` |
| TestPublisher.CastToUInt16 | HMITestApp/zmqpublisher.cpp:171 | `static_cast<uint16_t>` of a float in (-1, 65536): 0 for a negative value, otherwise the whole part, the largest integer not above the value |
| TestPublisher.ZmqPublisher.PublishFuelRate | HMITestApp/zmqpublisher.cpp:165-188 | sends exactly `FuelRateMessage(value)`, with the fraction truncated |
| TestPublisher.ZmqPublisher.PublishDefRate | HMITestApp/zmqpublisher.cpp:190-212 | sends exactly `DefRateMessage(value)`, with the fraction truncated |
| TestPublisher.ZmqPublisher.PublishAvgEngineLoad | HMITestApp/zmqpublisher.cpp:214-236 | sends exactly the engine-load message with the clamped percentage |
| TestPublisher.ZmqPublisher.ResetEngineHours | HMITestApp/zmqpublisher.cpp:264-298 | zeroes and persists the reading and sends a zero reading |
| TestPublisher.RpmRoundTrip | HMITestApp/zmqpublisher.cpp:34-52 | the dashboard reads the published RPM modulo 2^16; nothing else changes |
| TestPublisher.TelltaleRoundTrip | HMITestApp/zmqpublisher.cpp:54-70 | a valid index sets exactly that telltale on the dashboard |
| TestPublisher.GaugeRoundTrip | HMITestApp/zmqpublisher.cpp:73-95 | a valid index sets exactly that gauge, to the level of the clamped percentage |
| TestPublisher.EngineHoursRoundTrip | HMITestApp/zmqpublisher.cpp:114-132 | the dashboard's engine hours become the published tenths, and trip hours follow |
| TestPublisher.ResetRoundTrip | HMITestApp/zmqpublisher.cpp:264-298 | after a reset the dashboard reads zero engine hours and, given a non-negative last-trip reading, zero trip hours |
| TestPublisher.PopupRoundTrip | HMITestApp/zmqpublisher.cpp:145-163 | the popup arrives modulo 2^16, so -1 arrives as 65535 |
| TestPublisher.FuelRateRoundTrip | HMITestApp/zmqpublisher.cpp:165-188 | the dashboard's fuel rate becomes the published rate truncated toward zero |
| TestPublisher.DefRateRoundTrip | HMITestApp/zmqpublisher.cpp:190-212 | the dashboard's DEF rate becomes the published rate truncated toward zero |
| TestPublisher.EngineLoadRoundTrip | HMITestApp/zmqpublisher.cpp:214-236 | the dashboard's engine load becomes the clamped percentage |
| TestSubscriber.HandleFrame | HMITestApp/zmqsubscriber.cpp:77-108 | a short payload is ignored; every other frame is announced first; non-button frames leave both states alone |
| TestSubscriber.HandleButton | HMITestApp/zmqsubscriber.cpp:87-107 | button 0 sets ISO, notifies on change and always reports the press; button 2 sets creep, notifying on change; other buttons only announce |
| TestSubscriber.AgreesWithDashboard | HMITestApp/zmqsubscriber.cpp:87-107 | the harness and the dashboard, agreeing on ISO and creep before a frame, agree after it |
| TestSubscriber.DeliverToHarness | HMITestApp/zmqsubscriber.cpp:42-56 | a message under 12 bytes is dropped |
| TestSubscriber.DashboardButtonReachesHarness | NextGenApp/src/appinterface.cpp:449-466 | a button the dashboard publishes reaches the harness as that press: ISO for 0, creep for 2, nothing else otherwise |
| TestSubscriber.ZmqSubscriber.constructor | HMITestApp/zmqsubscriber.cpp:7-20 | both states start inactive, with an empty queue |
| TestSubscriber.ZmqSubscriber.Receive | HMITestApp/zmqsubscriber.cpp:42-56 | the queue becomes `Accept(old queue, msg)`; the states are unchanged |
| TestSubscriber.ZmqSubscriber.ProcessQueue | HMITestApp/zmqsubscriber.cpp:60-73 | the oldest frame is handled as `HandleFrame` says; an empty queue changes nothing |
| TestSubscriber.ZmqSubscriber.ProcessFrame | HMITestApp/zmqsubscriber.cpp:77-108 | the new states and the signals are those of `HandleFrame` |
| LogNaming.FindDotDot | NextGenApp/src/clogger.cpp:136 | finds ".." exactly when it occurs from the given position on |
| LogNaming.AllSafe | NextGenApp/src/clogger.cpp:143-144 | holds exactly when every character from the position on is in `[a-zA-Z0-9._-]` |
| LogNaming.SafePrefixEnd | NextGenApp/src/clogger.cpp:143 | the `+` repetition: every character before the returned end is in the class, and the one at the end is not |
| LogNaming.MatchesSafePattern | NextGenApp/src/clogger.cpp:143-144 | `^[a-zA-Z0-9._-]+$` matches exactly a non-empty run of the class, alone or followed by one final newline, as PCRE2's default `$` allows |
| LogNaming.CheckFileName | NextGenApp/src/clogger.cpp:130-146 | empty names fail first, then names with "..", "/" or "\\"; a name passes exactly when it has no ".." and is a non-empty run of `[a-zA-Z0-9._-]`, optionally followed by one final newline |
| LogNaming.TrailingNewlineAccepted | NextGenApp/src/clogger.cpp:143-146 | "log\n" passes the check as written and fails the whole-string check |
| LogNaming.NewlineSuffixAccepted | NextGenApp/src/clogger.cpp:143-146 | every name the whole-string check accepts is still accepted by the check as written with a newline appended |
| LogNaming.CheckFileNameStrict | NextGenApp/src/clogger.cpp:141-146 | the whole-string check: passes exactly a non-empty run of `[a-zA-Z0-9._-]` without "..", so no accepted name holds a newline or a separator |
| LogNaming.StrictAgreesWithoutNewline | NextGenApp/src/clogger.cpp:130-146 | the two checks give the same verdict on every name not ending in a newline, and the check as written accepts every name the whole-string check accepts |
| LogNaming.ListInsert | NextGenApp/src/clogger.cpp:171-188 | an insert adds exactly one element, whatever the index |
| LogNaming.InitialLogTypesRequested | NextGenApp/src/clogger.cpp:171-188 | the list holds exactly the requested types, with multiplicity |
| LogNaming.InitialLogTypesMembers | NextGenApp/src/clogger.cpp:171-188 | debug iff its setting is 0; warning iff 1; info iff 4; critical iff 2 or all three of debug, warning and critical absent; never fatal; no duplicates |
| LogNaming.RequestedMembers | NextGenApp/src/clogger.cpp:171-188 | any list holding exactly the requested types has that membership |
| LogNaming.DefaultLogTypes | NextGenApp/src/clogger.cpp:171-176 | with nothing stored, only critical messages are enabled |
| LogNaming.AllLogTypes | NextGenApp/src/clogger.cpp:171-188 | with every setting stored the list is debug, warning, critical, info |
| LogNaming.LevelTag | NextGenApp/src/clogger.cpp:332-337 | a three-letter tag, "UNK" exactly when the type is outside 0..4 |
| LogNaming.LevelTagInjective | NextGenApp/src/clogger.cpp:101 | distinct known types have distinct tags |
| LogNaming.FindQml | NextGenApp/src/clogger.cpp:291 | finds ".qml", in any case, exactly when it occurs from the position on |
| LogNaming.ModuleName | NextGenApp/src/clogger.cpp:289-294 | "QML" exactly when the file name contains ".qml" in any case, otherwise "App" |
| LogNaming.ModuleNameExamples | NextGenApp/src/clogger.cpp:289-294 | `main.qml` and `Dashboard.QML` are QML; `appinterface.cpp` is App |
| LogNaming.NatToString | NextGenApp/src/clogger.cpp:357-358 | the decimal digits of a count, with no leading zero |
| LogNaming.NatToStringValue | NextGenApp/src/clogger.cpp:357-358 | the rendered digits read back as the number |
| LogNaming.IntToString | NextGenApp/src/clogger.cpp:367-369 | a line number renders with a minus sign exactly when negative |
| Logger.Fresh | NextGenApp/src/clogger.cpp:672-681 | the constructor's state satisfies the buffer invariant |
| Logger.FlattenAppend | NextGenApp/src/clogger.cpp:414-417 | handing over one more batch appends its lines |
| Logger.FormatLine | NextGenApp/src/clogger.cpp:364-365 | "<time> [<level> <module> <thread>] <text>": starts with the timestamp, ends with the text, 6 separator characters |
| Logger.ThreadLabel | NextGenApp/src/clogger.cpp:339-340 | the thread label is never empty ("NoThread" stands in) |
| Logger.Emit | NextGenApp/src/clogger.cpp:394-417 | the lines go to the file and, when echoing, to the console; batches plus buffer gain exactly these lines; the buffer stays below 10; a new batch holds at least 10 lines; nothing else changes |
| Logger.HandleMessage | NextGenApp/src/clogger.cpp:253-432 | a message of a disabled type changes nothing; the enabled types and levels are never changed |
| Logger.Opened | NextGenApp/src/clogger.cpp:371-393 | the file is open afterwards iff it was open or opening succeeds; an open file is left alone; only path and open flag change |
| Logger.SuppressedIgnored | NextGenApp/src/clogger.cpp:274-279 | the suppressed text changes nothing, whatever its type |
| Logger.DuplicateOnlyCounts | NextGenApp/src/clogger.cpp:352-355 | a repeat of the previous message only increments the counter |
| Logger.NewMessageLines | NextGenApp/src/clogger.cpp:352-410 | a new message is remembered and resets the counter; it writes its line, preceded by the repeat line iff the previous message repeated, and with echo on the console receives the same lines; a failed open writes nothing |
| Logger.RepeatLineCount | NextGenApp/src/clogger.cpp:357-358 | the repeat line ends with the repeat text, whose digits read back as the count |
| Logger.HandleMessageConservation | NextGenApp/src/clogger.cpp:394-417 | the file only grows, and every line written reaches the batches or the buffer, in order |
| Logger.HandleMessageValid | NextGenApp/src/clogger.cpp:411-417 | the buffer stays below 10 lines and every batch holds 10 or 11 lines |
| Logger.RepeatedRun | NextGenApp/src/clogger.cpp:352-355 | k repeats of the previous message write nothing and add k to the counter |
| Logger.HandleAllValid | NextGenApp/src/clogger.cpp:411-417 | the buffer invariant holds along any sequence of messages |
| Logger.EmptyFirstMessage | NextGenApp/src/clogger.cpp:352-355 | since the remembered message starts empty, an empty first message is counted, never written |
| Logger.Initialized | NextGenApp/src/clogger.cpp:127-191 | succeeds exactly when `CheckFileName` accepts the base name, so also for a safe name with one final newline; a rejected name changes nothing; the types follow the settings, with only critical when nothing is stored; a successful `init` installs the handler |
| Logger.WithLoggerLevel | NextGenApp/src/clogger.cpp:443-453 | appends the type; sets the module's level, and every level for the empty module; names the logger after the module; nothing else changes |
| Logger.SetLoggerLevelEnables | NextGenApp/src/clogger.cpp:443-453 | after `setLoggerLevel(t, m)` a new message of type `t` is written |
| Logger.ClearedDropsAll | NextGenApp/src/clogger.cpp:620-623 | after clearing the types every message is dropped |
| Logger.WithLogFilePath | NextGenApp/src/clogger.cpp:643-662 | the call with its warning raised after the mutex is released: an empty path is ignored; otherwise the file is renamed and is open iff opening succeeds; nothing else changes |
| Logger.SetLogFilePathAsWritten | NextGenApp/src/clogger.cpp:651-658 | the call never returns exactly when the path is non-empty, the open fails and `init` has installed the handler; otherwise it returns the state `WithLogFilePath` gives |
| Logger.FailedOpenDeadlocks | NextGenApp/src/clogger.cpp:651-658 | after `init("log")` succeeds and installs the handler (:189), whose first lock of `logMutex` is at :268, `setLogFilePath` of a path that cannot be opened never returns |
| Logger.FailedPathStillLogs | NextGenApp/src/clogger.cpp:643-662 | with the corrected call, a failed open leaves the file closed, and the next message that passes the filters reopens the default file and is written when that open succeeds |
| Logger.CLogger.constructor | NextGenApp/src/clogger.cpp:672-681 | the private data starts as `Fresh()`: buffer size 1000, nothing enabled, nothing open |
| Logger.CLogger.Init | NextGenApp/src/clogger.cpp:127-191 | the result and the new state are those of `Initialized` |
| Logger.CLogger.MessageHandler | NextGenApp/src/clogger.cpp:253-432 | the new state is `HandleMessage(old state, ...)` |
| Logger.CLogger.FormatMessage | NextGenApp/src/clogger.cpp:343-370 | the repeat line (empty when nothing repeated) and the message line, with location for warnings and worse |
| Logger.CLogger.OpenLogFile | NextGenApp/src/clogger.cpp:371-393 | the new state is `Opened(old state, env)` |
| Logger.CLogger.WriteLines | NextGenApp/src/clogger.cpp:394-417 | the new state is `Emit(old state, lines)` |
| Logger.CLogger.SetLoggerLevel | NextGenApp/src/clogger.cpp:443-453 | the new state is `WithLoggerLevel(old state, ...)` |
| Logger.CLogger.PreviousMessageBufferSize | NextGenApp/src/clogger.cpp:460-463 | returns the configured buffer size |
| Logger.CLogger.SetPreviousMessageBufferSize | NextGenApp/src/clogger.cpp:630-633 | sets only the buffer size |
| Logger.CLogger.LogFilePath | NextGenApp/src/clogger.cpp:470-473 | returns the log file's path |
| Logger.CLogger.SetLogFilePath | NextGenApp/src/clogger.cpp:643-662 | the new state is `WithLogFilePath(old state, ...)` |
| Logger.CLogger.SetEchoToStandardOut | NextGenApp/src/clogger.cpp:556-559 | sets only the echo flag |
| Logger.CLogger.SetEnableTimeStamp | NextGenApp/src/clogger.cpp:566-569 | sets only the timestamp flag |
| Logger.CLogger.ClearLogTypes | NextGenApp/src/clogger.cpp:620-623 | empties only the enabled types |
| LogContext.LogMessageContext.Empty | NextGenApp/src/clogger.cpp:706-710 | a new context is blank: empty strings, line 0 |
| LogContext.LogMessageContext.constructor | NextGenApp/src/clogger.cpp:724-733 | stores the five values; the getters return them |
| LogContext.LogMessageContext.Copy | NextGenApp/src/clogger.cpp:741-749 | the copy has the other context's fields |
| LogContext.LogMessageContext.Assign | NextGenApp/src/clogger.cpp:756-763 | every field becomes the other context's, also for self-assignment |
| LogContext.LogMessageContext.Init | NextGenApp/src/clogger.cpp:878-885 | resets every field to blank |
| LogContext.LogMessageContext.SetThreadName | NextGenApp/src/clogger.cpp:828-831 | the getter returns the new value; the other fields are unchanged |
| LogContext.LogMessageContext.SetModuleName | NextGenApp/src/clogger.cpp:838-841 | the getter returns the new value; the other fields are unchanged |
| LogContext.LogMessageContext.SetFileName | NextGenApp/src/clogger.cpp:848-851 | the getter returns the new value; the other fields are unchanged |
| LogContext.LogMessageContext.SetFunctionName | NextGenApp/src/clogger.cpp:858-861 | the getter returns the new value; the other fields are unchanged |
| LogContext.LogMessageContext.SetLineNumber | NextGenApp/src/clogger.cpp:868-871 | the getter returns the new value; the other fields are unchanged |

## Left out

- **ZeroMQ and threads.** Sockets, contexts, the receive threads, the queue
  mutex, the 5 ms and 1 s timers and the `currentTime` clock service are not
  modelled.
  - A received message is an input.
  - A sent message is appended to a `sent` sequence.
  - A thread interleaving is a sequence of `FrameQueue.Event`s.
- **Qt signals** are returned as lists of notifications. Debug and warning
  output is not modelled.
- **The logger's own warnings.** Once `init` has installed the handler, the
  logger's own `qWarning` calls (the rejected names in `init` at
  clogger.cpp:131-144, the empty path in `setLogFilePath` at :647) go through
  that handler, and with warnings enabled they write WAR lines to the log.
  The model does not emit these lines.
- Logger.WithLogFilePath: states the call as it would behave with its
  failure warning raised after the mutex is released. As written, a failed
  open after `init` hangs the call (`Logger.SetLogFilePathAsWritten`, under
  "## Findings").
- Logger.CLogger.SetLogFilePath: is proved against `WithLogFilePath`, so it
  always returns; the hang of the code as written is stated only by
  `Logger.SetLogFilePathAsWritten`, since a method cannot model a call that
  never returns.
- **Floating point.** `float` is modelled as `real`.
  - `qFuzzyCompare` is modelled as equality.
  - Rounding of `raw / 10.0f`, `hours * 10.0f` and `99999.9f` is not modelled.
  - `percentToLiters` is unused by the decoder and is not part of this model.
- Dispatcher.DispatchEngineHours: engine hours are the integer tenths carried
  on the wire, not `float` hours; trip and last-trip hours are in the same
  unit, so the `raw / 10.0f` conversion is not modelled.
- **The harness's settings store** is a `persisted` field. The constructor
  takes the stored value (0 when absent) as a parameter.
- **Float-to-integer casts.**
  - TestPublisher.ZmqPublisher.PublishFuelRate requires a rate in
    (-1, 65536). The cast truncates toward zero, and a truncated value outside
    [0, 65535] makes it undefined, so no behaviour is left out; a rate in
    (-1, 0) is sent as 0 (`TestPublisher.CastToUInt16`).
  - TestPublisher.ZmqPublisher.PublishDefRate requires the same, for the same
    reason.
  - `FuelRateMessage` and `DefRateMessage` carry the same requirement.
- **Signed shifts.** The `int` shifts in the RPM and popup publishers are
  modelled as Euclidean division and remainder, so negative values arrive
  modulo 2^16.
- **Logger inputs.** Several inputs are parameters of each handler call (an
  `Environment`):
  - the clock;
  - the current thread's name;
  - the application directory;
  - whether opening the log file succeeds.
  - `QSettings` values are a `LogSettings` parameter of `init`.
  - `QDir::separator()` is "/".
  - `QString::arg` substitution is modelled as concatenation.
- **Logger build variants.** The logger's platform branches are not modelled:
  - `PLAT_LINUX_IMX6` (its other suppressed text and directory);
  - Android;
  - `DISPLAY_TIME_FOR_PROFILING`;
  - `SUPPORT_QT6`.
- **Logger parts not modelled:**
  - log-file rollover at 2 MiB;
  - `checkForLogFile`;
  - `previousMessages()` (file parsing);
  - `getDbVersion` / `setDbVersion` / probe versions;
  - the singleton `instance()`;
  - the fallback when the private data is missing;
  - `qInstallMessageHandler`, beyond the `handlerInstalled` flag;
  - the destructor.
- **Per-thread repeat counter.** `repeatedMessageCount` is per thread in the
  source. It is one field here, because a single thread is modelled. Its
  `int` overflow is not modelled.
- **List insertion.** `QList::insert` is modelled with Qt 5's clamping of the
  index. Case folding for ".qml" is ASCII only.
- **Batch threshold.** The batch threshold is the constant 10 that the
  constructor and `init` set.
- **Buffer size.** `maxPreviousMessages` is stored but, as in the source,
  never bounds the buffer.
- **Per-module levels.** The module-wise level lookup is commented out in the
  source, so `logLevels` is stored but never consulted.
- **Harness entry point.** `HMITestApp/main.cpp` and the QML front end are not
  part of this model.

## Findings

| source | as written | input that shows it | evidently intended | confidence | as-written member | corrected member |
|---|---|---|---|---|---|---|
| NextGenApp/src/clogger.cpp:143-146 (also src/clogger.cpp:98-102) | `QRegularExpression("^[a-zA-Z0-9._-]+$")` with PCRE2's default options, where `$` also matches just before a final newline | `init("log\n")` passes every check and returns true, so the base name holds a newline | the whole name is a non-empty run of `[a-zA-Z0-9._-]` (`\z`, or the dollar-end-only option) | high that the match succeeds (PCRE2 semantics); not executed | LogNaming.CheckFileName, with LogNaming.TrailingNewlineAccepted | LogNaming.CheckFileNameStrict, with LogNaming.StrictAgreesWithoutNewline |
| NextGenApp/src/clogger.cpp:651-658 (also src/clogger.cpp:492-499) | the failed-open `qWarning` is raised while the `QMutexLocker` still holds `logMutex`; the installed handler locks the same non-recursive mutex at :268 on the same thread | `init("log")`, then `setLogFilePath("/no/such/dir/x.log")`: the open fails and the call never returns, nor does any later log call | release the mutex before warning, so the call returns with the file closed and later messages are still logged | high (`QMutex` is non-recursive by default and Qt calls the handler synchronously); not executed | Logger.SetLogFilePathAsWritten, with Logger.FailedOpenDeadlocks | Logger.WithLogFilePath, with Logger.FailedPathStillLogs |

`Logger.Initialized` and `Logger.CLogger.Init` use the check as written, so
that the modelled `init` returns what the code returns. The two checks differ
only on names ending in a newline.
