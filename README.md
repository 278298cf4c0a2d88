# Instrument panel control layer in Dafny

This project models the control layer of the flight-simulator instrument
panel (`instrument-panel/instrument-panel.cpp`). The layer covers:

- `updateCommon`: the three bridge reads (electrics, APU status and external
  controls) and the final process call become the `electrics`,
  `externalControls` and `connected` flags.
- `doUpdate` and `doRender`: the update pass and the render pass over the
  instrument list.
- `doKeypress` and `switchMonitor`: the P/V mode toggles, the monitor key,
  the shadow and tweak toggles, Esc, and forwarding of keys to the
  variable-inspection subsystem while a mode is on.
- The event loop of `main`, with its synthetic startup update.
- The instrument-list drain of `cleanup`.

The program's globals live in class `Panel.InstrumentPanel`:

- `globals` holds the `globals` struct fields the core uses.
- `finish` is the global `finish` flag.
- `instruments` is the instrument list.
- `log` records every observable effect in order: instrument updates and
  renders, clears, flips, view clears, forwarded keys, window moves and
  deletions.

Each C++ function becomes a method with loops and field updates. The methods
are proved equal to pure functions in modules `CommonState`, `Monitors`,
`Interaction` and `Scheduler`. The lemmas about those functions state what
the program promises:

- the connection and electrics rules;
- mode exclusion;
- view-clear and forwarding conditions;
- monitor cycling;
- one update per timer tick;
- rendering only when the queue is empty;
- ordering within an iteration;
- termination on `finish`.

Effects of the outside world are inputs:

- A bridge read is a `Read<T>` value, `Failed` or `Got(value)`.
- A key event carries the monitor origins that the adapters report at that
  moment.
- A run of the loop is a finite trace of steps. Each step is the event taken
  from the queue plus whether the queue is empty after handling it.

## Model

| member | source | states |
|---|---|---|
| CommonState.ConnectedIffAllSucceed | instrument-panel/instrument-panel.cpp:197-242 | `connected` is true exactly when all three reads and the process call succeed; any single failure makes it false |
| CommonState.ElectricsRule | instrument-panel/instrument-panel.cpp:202-222 | APU status 1 forces electrics on. Otherwise electrics is off on a failed primary read and is `value != 1` on a successful one. A failed APU read behaves like an APU that is not running |
| CommonState.ExternalControlsRule | instrument-panel/instrument-panel.cpp:224-234 | external controls is true on a failed read and `value == 1` on a successful one. Two inputs with the same controls read give the same flag, whatever the other reads |
| CommonState.ApuOverrideScenarios | instrument-panel/instrument-panel.cpp:202-222 | a primary read of 1 ("off") with the APU running still gives electrics on; with the APU read failed it gives electrics off |
| CommonState.ConnectionScenarios | instrument-panel/instrument-panel.cpp:224-241 | a failed controls read gives external control and no connection; all reads and the process call succeeding gives a connection |
| Monitors.LastMatch | instrument-panel/instrument-panel.cpp:297-308 | the scan result is 0 or an index whose origin equals the window's, and no later monitor has the window's origin |
| Monitors.LastMatchIs | instrument-panel/instrument-panel.cpp:297-308 | when monitor `k` has the window's origin and no later monitor does, the scan finds `k` |
| Monitors.SingleMonitorIsNoOp | instrument-panel/instrument-panel.cpp:288-292 | with at most one monitor the window origin does not change, after one press or two |
| Monitors.UnknownOriginGoesToSecond | instrument-panel/instrument-panel.cpp:297-314 | when no monitor has the window's origin, the window goes to monitor 1 |
| Monitors.LastMatchWins | instrument-panel/instrument-panel.cpp:297-317 | when several monitors share the window's origin, the window goes to the one after the last of them, wrapping round |
| Monitors.NextOfKnown | instrument-panel/instrument-panel.cpp:310-317 | with distinct origins, from monitor `k` the window goes to monitor `(k + 1) mod N` |
| Monitors.CycleVisits | instrument-panel/instrument-panel.cpp:285-320 | with distinct origins, `n` presses from monitor `k` reach monitor `(k + n) mod N` |
| Monitors.FullCycleReturns | instrument-panel/instrument-panel.cpp:285-320 | with distinct origins, `N` presses bring the window back to the monitor it started on |
| Monitors.TwoMonitorScenario | instrument-panel/instrument-panel.cpp:285-320 | with two monitors side by side, one press moves the window to the second and the next press moves it back |
| Interaction.MonitorSwitch | instrument-panel/instrument-panel.cpp:285-320 | with at most one monitor nothing changes and nothing is moved. Otherwise the window origin becomes the next monitor's and the window is moved there once. No other global changes |
| Interaction.Toggle | instrument-panel/instrument-panel.cpp:327-370 | after P or V the modes are exclusive, and other keys leave the modes alone. A view clear is issued exactly when P turns arranging off or V turns simulating off. Only view clears and window moves are emitted, at most one of them, and `finish` is set exactly by Esc |
| Interaction.KeyStep | instrument-panel/instrument-panel.cpp:325-375 | a key press keeps the modes exclusive and has the view-clear condition above. The key is forwarded exactly when a mode is on after the switch, and then once, as the last effect. Only view clears, window moves and forwarded keys are emitted, at most two in all, and `finish` is set exactly by Esc |
| Interaction.ModeToggles | instrument-panel/instrument-panel.cpp:329-349 | P flips arranging and clears simulating only when it turns arranging on; V is the mirror image |
| Interaction.EnterArrangingWhileSimulating | instrument-panel/instrument-panel.cpp:329-338 | P pressed while simulating turns arranging on and simulating off, with no view clear |
| Interaction.KeyFrames | instrument-panel/instrument-panel.cpp:351-370 | S flips only shadows, T only tweak, Esc only sets `finish`, M changes only the window origin, and any other key changes nothing |
| Interaction.IdleKeysNotForwarded | instrument-panel/instrument-panel.cpp:372-374 | with both modes off, a key other than P and V is not forwarded and causes no effect except a possible window move |
| Scheduler.UpdatePass | instrument-panel/instrument-panel.cpp:253-255 | one update per instrument, in list order, each seeing the current `simulating` |
| Scheduler.RenderPass | instrument-panel/instrument-panel.cpp:267-269 | one render per instrument, in list order |
| Scheduler.UpdateKinds | instrument-panel/instrument-panel.cpp:247-256 | an update emits one common refresh, first, then only instrument updates, `n + 1` effects in all |
| Scheduler.RenderKinds | instrument-panel/instrument-panel.cpp:261-280 | a render pass followed by the flip contains no update and no refresh, and ends with the flip |
| Scheduler.DispatchEffects | instrument-panel/instrument-panel.cpp:412-426 | dispatching an event only appends to the log. A redraw is pending afterwards exactly when one was before or the event is a timer tick. A refresh appears only for a timer tick, as its first effect. Only refreshes, updates, view clears, window moves and forwarded keys appear |
| Scheduler.DispatchRefreshes | instrument-panel/instrument-panel.cpp:412-426 | a timer event adds exactly one common refresh to the log; any other event adds none |
| Scheduler.IterateRefreshes | instrument-panel/instrument-panel.cpp:408-437 | one loop iteration adds one refresh for a timer event and none otherwise, and takes exactly one event |
| Scheduler.TimersDriveUpdates | instrument-panel/instrument-panel.cpp:408-437 | over any trace, the loop takes every event unless `finish` stops it, and the refreshes in the log equal the timer events taken |
| Scheduler.FinishIsFinal | instrument-panel/instrument-panel.cpp:423-429 | once an event has set `finish`, later events change nothing: no event is taken and no effect is produced |
| Scheduler.FinishStops | instrument-panel/instrument-panel.cpp:428-429 | a run that has finished after its first `i` events ends in the state it reached then, whatever the rest of the trace |
| Scheduler.IterateLog | instrument-panel/instrument-panel.cpp:428-436 | an iteration's log is the dispatch's log plus the render pass and the flip exactly when it renders. It keeps the dispatch's `finish`, and a render clears the redraw flag |
| Scheduler.RenderOnlyWhenSettled | instrument-panel/instrument-panel.cpp:428-436 | an iteration flips exactly when it did not finish, a redraw was pending or the event was a timer tick, and the queue is empty. The flip is then the last effect and no redraw remains pending. A finished iteration renders nothing |
| Scheduler.UpdatesBeforeRenders | instrument-panel/instrument-panel.cpp:247-280 | within one iteration the common refresh precedes every instrument update, and every update precedes every render |
| Scheduler.DispatchKeepsExclusive | instrument-panel/instrument-panel.cpp:412-426 | dispatching any event keeps arranging and simulating exclusive |
| Scheduler.RunKeepsExclusive | instrument-panel/instrument-panel.cpp:408-437 | arranging and simulating stay exclusive over any run of the loop |
| Scheduler.StartupSimulates | instrument-panel/instrument-panel.cpp:398-404 | the startup update logs one refresh and then one update per instrument, all with `simulating` on. Afterwards simulating is off, the modes are exclusive, a redraw is pending and `finish` is untouched |
| Scheduler.RunEndsExclusive | instrument-panel/instrument-panel.cpp:398-437 | from any state, startup followed by any run of the loop ends with the modes exclusive |
| Panel.DestroyedEach | instrument-panel/instrument-panel.cpp:161-164 | one deletion per list element, in list order |
| Panel.InstrumentPanel.constructor | instrument-panel/instrument-panel.cpp:63-68 | a fresh process has zeroed globals, `finish` false, an empty list and an empty log |
| Panel.InstrumentPanel.AddInstruments | instrument-panel/instrument-panel.cpp:380-386 | the three panel instruments are appended to the list in order |
| Panel.InstrumentPanel.UpdateCommon | instrument-panel/instrument-panel.cpp:197-242 | the reads with their fallbacks produce exactly the flags of `CommonState.Common`. The result is the connected flag, and no other global changes |
| Panel.InstrumentPanel.DoUpdate | instrument-panel/instrument-panel.cpp:247-256 | `connected`, `electrics` and `externalControls` are refreshed, and then every instrument is updated in list order (`Scheduler.AfterUpdate`) |
| Panel.InstrumentPanel.DoRender | instrument-panel/instrument-panel.cpp:261-280 | clear, then every instrument in list order, then the variable view while a mode is on, then the error text when there is one (`Scheduler.RenderEffects`) |
| Panel.InstrumentPanel.SwitchMonitor | instrument-panel/instrument-panel.cpp:285-320 | the array scan and the wrap-around move the window exactly as `Interaction.MonitorSwitch` says |
| Panel.InstrumentPanel.ToggleKey | instrument-panel/instrument-panel.cpp:327-370 | the switch on the key code changes globals, `finish` and the log exactly as `Interaction.Toggle` says |
| Panel.InstrumentPanel.DoKeypress | instrument-panel/instrument-panel.cpp:325-375 | a key press, with forwarding, does exactly what `Interaction.KeyStep` says |
| Panel.InstrumentPanel.DispatchEvent | instrument-panel/instrument-panel.cpp:412-426 | the switch on the event type does exactly what `Scheduler.Dispatch` says: a timer tick updates and asks for a redraw, a key press goes to `DoKeypress`, closing the display sets `finish`, and anything else is ignored |
| Panel.InstrumentPanel.HandleStep | instrument-panel/instrument-panel.cpp:412-436 | one pass of the loop after an event is taken does exactly what `Scheduler.Iterate` says: dispatch, then stop if `finish` is set, otherwise render and flip when a redraw is pending and the queue is empty |
| Panel.InstrumentPanel.Cleanup | instrument-panel/instrument-panel.cpp:158-164 | the list ends empty, and every element that was in it is deleted once, front first |
| Panel.InstrumentPanel.EventLoop | instrument-panel/instrument-panel.cpp:408-437 | the loop over a trace ends in the state `Scheduler.RunTrace` gives: same globals, `finish`, redraw flag, log and number of events taken |
| Panel.InstrumentPanel.Run | instrument-panel/instrument-panel.cpp:391-444 | `main` after `init` does three things. It builds the list and runs the startup update with `simulating` forced on (`Scheduler.Startup`). It then runs the loop (`Scheduler.RunTrace`) and finally deletes the three instruments |

## Left out

- Allegro initialisation, `fatalError` and the destruction of the timer, queue, font and display: these are calls into the windowing library that do not touch the modelled state.
- `addCommon` and the `simVars` subsystem: registering variables, the bridge protocol, `view`, `viewClear` and the subsystem's own key handling are outside this model. Its calls appear only as logged effects, and its reads appear as `Read<T>` inputs.
- Instrument internals: `update()` and `render()` of the airspeed indicator, attitude indicator and altimeter are logged effects. The model takes them to leave the globals it tracks unchanged.
- Drawing details such as colours, font and text position are not modelled. Only the order of the drawing calls is kept.
- Event timing: the 30 Hz timer, blocking in `al_wait_for_event` and queue emptiness are not modelled. A finite trace of events stands in for them, each paired with an empty-queue answer. The loop's `while (true)` is modelled over that finite trace.
- Panel.InstrumentPanel.SwitchMonitor: requires at most 16 monitors. The program stores origins in two arrays of 16 and does not guard the adapter count, so more monitors would write past the arrays.
- Panel.InstrumentPanel.constructor: `globals.h` is not part of this model. The globals are taken to start zeroed, as C++ zero-initialises a global struct.
- Panel.InstrumentPanel.Run: the startup update sets `simulating` to false afterwards, as the code does. It does not restore whatever value `simulating` had before.
- Settings persistence when `simVars` is deleted is not modelled, and neither are `displayWidth`/`displayHeight`.
