# Traffic-light controller, modelled in Dafny

A model of the controller software of a four-mode traffic light on an Altera
Nios board, with the properties its design promises proved about it. The
model covers two variants:

- the final controller, `software/Assignment1/hello_world.c`;
- the earlier lab controller, `software/lab1/hello_world.c`.

The final controller runs a six-phase cycle for two approaches, north-south
(NS) and east-west (EW):

| phase | NS | EW |
|---|---|---|
| 0 | red | red |
| 1 | green | red |
| 2 | yellow | red |
| 3 | red | red |
| 4 | red | green |
| 5 | red | yellow |

It runs in one of four modes:

- **Mode 1** shows the cycle only.
- **Mode 2** adds pedestrian requests. A request lights a wait lamp, lights an indicator while its approach is green or yellow, and is dropped at that approach's yellow.
- **Mode 3** adds reconfiguration. Switch 17 holds the cycle in a safe phase while a new timeout table is typed on the serial line.
- **Mode 4** adds the vehicle/camera tracker. Vehicle-button presses open and close a camera session, a one-shot camera alarm fires a snapshot, and a 1 ms dwell alarm counts how long the vehicle stays.

The mode switches are honoured only in the safe red-red phases 0 and 3.

## Layout

| file | module | contents |
|---|---|---|
| `wrappers.dfy` | `Wrappers` | the `Option` type |
| `cycle.dfy` | `Cycle` | reference colour table, safe phases, mode selector, reconfiguration hold, phase advance, pedestrian gating |
| `lamps.dfy` | `Lamps` | bit layout of the green and red LED registers; the patterns each phase writes; the `Panel` value (both registers and both request flags) and the renders |
| `camera.dfy` | `Camera` | the vehicle/camera tracker as a value, with one function per event |
| `timeout_line.dfy` | `TimeoutLine` | the reconfiguration line: strtok on `,`, atoi, the six-value check, the token loop, and the inverse (writing a line from values) with a round-trip proof |
| `assignment1.dfy` | `Assignment1` | `class Controller`: the final controller's globals as fields, one method per handler and per pass of `main`'s loop |
| `lab1.dfy` | `Lab1` | `class Controller`: the lab controller, with its two phase counters |

### Modelling conventions

- **Registers.** Hardware registers are `bv32` values.
  - The switch and key registers are parameters of the handlers that read them.
  - The two LED registers are fields.
  - Keys are active low.
- **Handlers.** Each interrupt handler is one atomic method, and so is one pass of `main`'s loop.
- **Methods against functions.** Each method that changes state is proved against a pure function of the old state: a `Cycle`, `Lamps`, `Camera` or `TimeoutLine` function, or the `PanelView`/`CameraView` of the fields. The properties are then lemmas about those functions.
- **The phase counter.** `phase` is the source's `CurrentState`, which is rendered and then advanced. Between ticks it names the phase the next tick will show, so every gate is stated on it exactly as the source states it.

### Behaviour of the code worth knowing

- **Reconfiguration stops the cycle.** Switch 17 may be seen in a safe phase of Mode 3 or 4. The tick alarm is then stopped (`software/Assignment1/hello_world.c:465-472`). Only `main` arms it again (`:117-120`), once a line has been accepted and the switch is off.
  - While a line may be received, the controller therefore sits in a safe phase of Mode 3 or 4 with the alarm stopped. `Assignment1.Controller.Receiving` states this, and it is part of `Valid`.
  - So the timeout table changes only in a safe phase of Mode 3 or 4 (`Assignment1.Controller.FeedChar`).
  - `Tick` requires the tick alarm to be armed, and each camera handler requires its own alarm to be armed, because an alarm calls its handler only then.
- **Overflow.** A 41st character on the reconfiguration line empties the buffer. The `break` at `:95` then leaves `main`'s loop for good, and `FeedChar` records this in `mainLoopRunning`.
  - The tick alarm stays stopped, so the cycle stays in its safe phase from then on.
  - After the overflow, `FeedChar` ensures the receive flag is set and `Receiving` holds. From then on `FeedChar` changes nothing, and `Tick` cannot run.
- **Vehicle press in phase 1 or 4.** An entering press takes a snapshot and stops the dwell alarm only. The session stays open (`camera_has_started` is untouched).
- **Green renders reset the vehicle parity.** Rendering phase 1 or 4 in Modes 2-4 sets `even_button` to 0 (`:301`, `:328`). The next press is then read as "entering", so it never closes an open session (`Camera.PressAfterGreenKeepsSession`).
  - Example: a vehicle enters at phase 0, the NS green is rendered, and the vehicle presses again at phase 3. The session is still open.
  - So the exit described by `Camera.DwellReported` closes the session only when no green render falls between the two presses.
- **A mode change does not end a session.** `ResetAllStates` (`:163-178`) touches the lamps and the requests only. The session, its alarms and the parity are left as they were (`Assignment1.Controller.UpdateMode` does not modify them). A session can outlive Mode 4 until the camera alarm fires.
- **Dwell count.** The dwell count is not reset when a session opens. The reported dwell time is the count the session opened with, plus the dwell ticks in between (`Camera.DwellReported`). That count is 0 after every exit and after any dwell tick outside a session.
- **Lab variant mode gate.** The lab variant gates mode changes on `mode1State`, whichever mode is running. Outside Mode 1 that counter is parked at 0, so switches are honoured in every phase of the pedestrian cycle (`Lab1.GateOpenOutsideMode1`). The lab variant's key interrupt does not look at the mode either.
- **Lab variant Mode 4.** In the lab variant, a tick in Mode 4 returns the previous `currentTimeOut`. That value is 0 if no phase has been shown yet.

## Model

| member | source | states |
|---|---|---|
| `Cycle.SelectMode` | software/Assignment1/hello_world.c:185-211 | no request exactly when switches 0-3 are all off; otherwise the chosen mode's switch is on and every lower-numbered mode switch is off (lowest bit wins) |
| `Cycle.UpdatedMode` | software/Assignment1/hello_world.c:180-214 | outside a safe phase the mode is unchanged; a changed mode is the selector's choice; in a safe phase with a request the mode becomes the requested one |
| `Cycle.SafePhasesAreAllRed` | software/Assignment1/hello_world.c:216-223 | the safe-phase test holds exactly in the phases where both approaches are red |
| `Cycle.NeverBothApproachesProceed` | software/Assignment1/hello_world.c:238-266 | in every phase at least one approach is red |
| `Cycle.NextPhase` | software/Assignment1/hello_world.c:274-283 | the next phase is in [0,6); it equals the current one exactly when held; otherwise it is one more, or 0 after 5 |
| `Cycle.HoldIsStable` | software/Assignment1/hello_world.c:274-283 | once the switches have selected a mode and held the cycle, reading the same switches again keeps the mode and the hold, and the phase stays put |
| `Cycle.RequestAcceptedWhileRed` | software/Assignment1/hello_world.c:355-372 | a pedestrian request is accepted exactly when its approach is red |
| `Cycle.NsAfterRender` | software/Assignment1/hello_world.c:303-313 | a render never raises the NS request, and drops a pending one exactly when NS turns yellow |
| `Cycle.EwAfterRender` | software/Assignment1/hello_world.c:330-338 | a render never raises the EW request, and drops a pending one exactly when EW turns yellow |
| `Lamps.GreenPattern` | software/Assignment1/hello_world.c:284-340 | reference definition of the green-register value written in each phase, with the indicator bits for pending requests |
| `Lamps.GreenPatternShows` | software/Assignment1/hello_world.c:284-340 | each pattern written decodes to the reference colours of its phase, one lamp per approach, at least one approach red; an indicator is lit exactly when its request is pending and its approach is green or yellow; nothing above bit 7 is set |
| `Lamps.SafePatternHasNoConflict` | software/Assignment1/hello_world.c:238-266 | a safe pattern never lets both approaches proceed |
| `Lamps.RenderPanelShows` | software/Assignment1/hello_world.c:238-340 | in every mode, the rendered green register shows the reference colours and never a conflict; Mode 1 lights no indicator, the other modes light one exactly for a pending request of an approach that is green or yellow |
| `Lamps.RenderPanelServes` | software/Assignment1/hello_world.c:284-340 | a render never raises a request and drops one exactly at its approach's yellow outside Mode 1; Mode 1 leaves the red register alone, the other modes apply the wait-lamp rule |
| `Lamps.RedAfterRenderServes` | software/Assignment1/hello_world.c:292-320 | entering NS green switches the NS wait lamp off, entering EW green the EW one; every other wait-lamp bit and every other bit is kept |
| `Lamps.ClearIndicatorsKeepsOthers` | software/Assignment1/hello_world.c:170-172 | both indicator bits end off and every other green-register bit is kept |
| `Lamps.ClearIndicatorsKeepsLamps` | software/Assignment1/hello_world.c:170-172 | clearing the indicators leaves the decoded lamps of both approaches unchanged |
| `Lamps.ClearWaitLampsKeepsOthers` | software/Assignment1/hello_world.c:165-168 | both wait lamps end off and every other red-register bit is kept |
| `Lamps.ResetPanelClears` | software/Assignment1/hello_world.c:163-178 | a reset forgets both requests, darkens indicators and wait lamps, and keeps the traffic lamps |
| `Camera.VehiclePress` | software/Assignment1/hello_world.c:391-428 | reference definition of one vehicle-button press at the current phase: the parity toggle, the session opening in phases 0 and 3, the snapshot in phases 1 and 4, the exit, and the ignored press in phases 2 and 5 |
| `Camera.EventsKeepConsistent` | software/Assignment1/hello_world.c:391-454 | a press, the camera timeout and a dwell tick each keep the camera alarm armed exactly while a session is open |
| `Camera.PressParity` | software/Assignment1/hello_world.c:391-428 | outside phases 2 and 5 a press flips the parity; in phases 2 and 5 it changes nothing but forcing the parity to "entering" |
| `Camera.SessionOpens` | software/Assignment1/hello_world.c:394-403 | a session opens exactly on an entering press in a safe phase with none open, and that arms both alarms without touching the count |
| `Camera.SessionCloses` | software/Assignment1/hello_world.c:404-423 | a session closes exactly on an exiting press in phase 0, 1, 3 or 4, which stops both alarms, reports the count and zeroes it |
| `Camera.PressSnapshot` | software/Assignment1/hello_world.c:412-416 | a press takes a snapshot exactly when it is an entering press in phase 1 or 4; that stops the dwell alarm and leaves the session as it was |
| `Camera.WatchdogClosesSession` | software/Assignment1/hello_world.c:438-445 | the camera timeout closes the session, resets the parity, disarms the camera alarm and takes exactly one snapshot, leaving reports and count alone (this unfolds the definition of `CameraTimeout`) |
| `Camera.DwellCounts` | software/Assignment1/hello_world.c:447-454 | while a session is open, k dwell ticks add exactly k to the count and change nothing else |
| `Camera.DwellStopsWithoutSession` | software/Assignment1/hello_world.c:430-436 | without a session a dwell tick stops the dwell alarm and zeroes the count (this unfolds the definition of `DwellTick`) |
| `Camera.DwellReported` | software/Assignment1/hello_world.c:391-454 | enter in a safe phase, k dwell ticks, exit in phase 0, 1, 3 or 4 with no green render between the presses: the session is closed, the report is the entry count plus k, and the count is zeroed |
| `Camera.PressAfterGreenKeepsSession` | software/Assignment1/hello_world.c:301-328 | after a green render has reset the parity, the next press leaves an open session open, in every phase |
| `TimeoutLine.TokensFrom` | software/Assignment1/hello_world.c:487-503 | reference definition of the fields strtok returns on `,` from a position on: runs of commas are skipped and empty fields never appear |
| `TimeoutLine.Strtok` | software/Assignment1/hello_world.c:487-503 | a field is found exactly when fields remain; it is the next field of the line, and the rest of the fields start after it |
| `TimeoutLine.TokensAreWellFormed` | software/Assignment1/hello_world.c:487-503 | every field strtok returns is non-empty and holds no comma |
| `TimeoutLine.CString` | software/Assignment1/hello_world.c:481-487 | the string a buffer holds is a prefix of it, has no NUL, and stops at the buffer's first NUL |
| `TimeoutLine.Parse` | software/Assignment1/hello_world.c:481-522 | an accepted line yields six values, each in [1, 9998] |
| `TimeoutLine.ParseMeaning` | software/Assignment1/hello_world.c:481-522 | a line is accepted exactly when it has six fields whose atoi values are in [1, 9998], and then the values are those, in order (this unfolds the definition of `Parse`) |
| `TimeoutLine.TooManyFields` | software/Assignment1/hello_world.c:491-494 | a line with a seventh field is rejected |
| `TimeoutLine.InvalidField` | software/Assignment1/hello_world.c:495-499 | a line with a field out of range is rejected |
| `TimeoutLine.AllFieldsRead` | software/Assignment1/hello_world.c:505-519 | when every field was read and is in range, the line is accepted exactly when there are six, with those values |
| `TimeoutLine.ScanTimeouts` | software/Assignment1/hello_world.c:483-521 | the token loop succeeds exactly when the line is accepted, and then returns its six values in order |
| `TimeoutLine.Atoi` | software/Assignment1/hello_world.c:495 | reference definition of atoi: leading spaces, an optional sign, then the longest run of digits |
| `TimeoutLine.AtoiOfDecimal` | software/Assignment1/hello_world.c:495 | atoi reads a decimal numeral back as its value |
| `TimeoutLine.TokensOfJoin` | software/Assignment1/hello_world.c:487-503 | splitting well-formed fields joined with commas gives back those fields |
| `TimeoutLine.ParseFormat` | software/Assignment1/hello_world.c:481-522 | round trip: a line written from values is accepted exactly when there are six values all in [1, 9998], and then yields those values |
| `TimeoutLine.AcceptsSixValues` | software/Assignment1/hello_world.c:507-514 | `100,200,300,400,500,600` is accepted as those six values in order |
| `TimeoutLine.RejectsThreeValues` | software/Assignment1/hello_world.c:516-518 | `100,200,300` is rejected |
| `TimeoutLine.RejectsValueOverBound` | software/Assignment1/hello_world.c:496-499 | `10000,1,1,1,1,1` is rejected |
| `Assignment1.StoreTimeouts` | software/Assignment1/hello_world.c:509-514 | the table becomes the six values, entry for entry |
| `Assignment1.Controller.constructor` | software/Assignment1/hello_world.c:44-83 | power-on: Mode 1, phase 0, the default table, timeout 6000, the tick alarm armed, no session, empty buffer |
| `Assignment1.Controller.ResetAllStates` | software/Assignment1/hello_world.c:163-178 | the panel becomes the reset of the old panel: wait lamps and indicators off, both requests dropped |
| `Assignment1.Controller.UpdateMode` | software/Assignment1/hello_world.c:180-214 | the mode becomes the safe-gated selection; the panel is reset exactly when the mode actually changes |
| `Assignment1.Controller.TimeoutDataHandler` | software/Assignment1/hello_world.c:461-479 | in a safe phase of Mode 3 or 4 the reconfiguration flag follows switch 17 and the tick alarm is stopped while it is on; otherwise nothing changes |
| `Assignment1.Controller.SimpleTlc` | software/Assignment1/hello_world.c:238-266 | the panel becomes the Mode 1 render of the phase, and the next timeout is the phase's table entry |
| `Assignment1.Controller.PedestrianTlc` | software/Assignment1/hello_world.c:284-340 | the panel becomes the pedestrian render of the phase; the next timeout is the phase's table entry; the vehicle parity is reset on entering either green |
| `Assignment1.Controller.ConfigurableTlc` | software/Assignment1/hello_world.c:381-384 | Mode 3 renders exactly as Mode 2 |
| `Assignment1.Controller.CameraTlc` | software/Assignment1/hello_world.c:386-389 | Mode 4 renders exactly as Mode 2 |
| `Assignment1.Controller.Render` | software/Assignment1/hello_world.c:138-155 | the panel becomes the render the mode asks for; the next timeout is the phase's table entry |
| `Assignment1.Controller.NextState` | software/Assignment1/hello_world.c:274-283 | the phase advances unless held by switch 17 in a safe phase of Mode 3 or 4; it is held whenever a line may be received |
| `Assignment1.Controller.Tick` | software/Assignment1/hello_world.c:132-158 | runs only while the tick alarm is armed; returns the new, positive timeout, the entry for the rendered phase; the mode is the safe-gated selection; the phase advances unless held; the panel is the render of the (reset if the mode changed) old panel; the reconfiguration flags follow switch 17 in a safe phase of Mode 3 or 4 |
| `Assignment1.Controller.KeyIsr` | software/Assignment1/hello_world.c:344-379 | Mode 1 changes nothing; the EW key wins over the NS key, which wins over the vehicle key; a request is taken only while its approach is red and lights its wait lamp; the vehicle key acts only in Mode 4, as a vehicle press |
| `Assignment1.Controller.VehicleLeft` | software/Assignment1/hello_world.c:404-411 | the tracker becomes the "vehicle left" state of the old one |
| `Assignment1.Controller.HandleVehicleButton` | software/Assignment1/hello_world.c:391-428 | the tracker becomes the vehicle press of the old one at the current phase |
| `Assignment1.Controller.CameraTimerIsr` | software/Assignment1/hello_world.c:438-445 | runs only while the camera alarm is armed; the tracker becomes the camera timeout of the old one |
| `Assignment1.Controller.IntersectionTimerIsr` | software/Assignment1/hello_world.c:447-454 | runs only while the dwell alarm is armed; the tracker becomes one dwell tick of the old one |
| `Assignment1.Controller.HandleIntersectionTimer` | software/Assignment1/hello_world.c:430-436 | without a session the dwell alarm stops and the count is zeroed; with one, nothing changes |
| `Assignment1.Controller.ParseNewTimeout` | software/Assignment1/hello_world.c:481-522 | returns whether the buffered line is accepted; the table becomes its six values if so, and is unchanged otherwise |
| `Assignment1.Controller.ClearBuffer` | software/Assignment1/hello_world.c:109-111 | index 0 and every buffer character NUL |
| `Assignment1.Controller.FeedChar` | software/Assignment1/hello_world.c:85-128 | ignored unless receiving; a character is appended while fewer than 40 are held; a 41st empties the buffer and leaves the loop; a terminator parses the line (table all-or-nothing) and empties the buffer; after an accepted line, the tick alarm is re-armed once switch 17 is off; the table changes only in a safe phase of Mode 3 or 4; after an overflow the tick alarm stays stopped with the cycle in a safe phase of Mode 3 or 4 |
| `Lab1.GateOpenOutsideMode1` | software/lab1/hello_world.c:89-131 | with the counters parked, outside Mode 1 the safe-phase test passes and any selected mode is taken |
| `Lab1.Controller.constructor` | software/lab1/hello_world.c:26-43 | power-on: Mode 1, both counters 0, no requests, timeout 0, LEDs dark |
| `Lab1.Controller.ResetAllStates` | software/lab1/hello_world.c:84-87 | both counters become 0 |
| `Lab1.Controller.UpdateMode` | software/lab1/hello_world.c:89-121 | the mode becomes the selection gated on `mode1State`; outside Mode 1 any selection is taken; a change zeroes both counters, otherwise they are kept |
| `Lab1.Controller.SimpleTlc` | software/lab1/hello_world.c:146-177 | the panel becomes the Mode 1 render of `mode1State`; the timeout is its table entry; the counter steps with wrap-around |
| `Lab1.Controller.PedestrianTlc` | software/lab1/hello_world.c:185-240 | the panel becomes the pedestrian render of `mode2State`; the timeout is its table entry; the counter steps with wrap-around |
| `Lab1.Controller.ConfigurableTlc` | software/lab1/hello_world.c:268-271 | Mode 3 behaves exactly as Mode 2 |
| `Lab1.Controller.Tick` | software/lab1/hello_world.c:45-65 | the mode is the gated selection; in Mode 1 only `mode1State` steps, in Modes 2 and 3 only `mode2State`, with the matching render and timeout; Mode 4 changes neither counter, the panel nor the timeout; counters stay parked; returns the timeout |
| `Lab1.Controller.KeyIsr` | software/lab1/hello_world.c:244-266 | in every mode, the EW key wins over the NS key; a request is taken only while `mode2State` has its approach red and lights its wait lamp |

## Left out

- Display output: `lcd_set_mode` in both variants is left out, because it only writes text to the LCD.
- Serial output: every `printf`/`fprintf` on the serial line is left out. `fopen` is left out too. `takeSnapshot` is modelled as a snapshot counter.
- Serial input: `fgetc` becomes the character parameter of `Assignment1.Controller.FeedChar`.
- Register access: reads of the switch and key registers become parameters. Edge-capture clearing, `init_buttons_pio` and `alt_irq_register` are hardware set-up and are left out.
- Alarm service: `alt_alarm_start`/`alt_alarm_stop` become booleans saying whether each alarm is armed, and the alarm periods are not modelled. The service's own use of a handler's return value is not modelled: it re-arms the alarm with that value, and a 0 stops it.
- Preemption: every handler and every pass of `main`'s loop is atomic. `Assignment1.Controller.Tick` samples the switches once per tick, where the source reads them up to three times in one tick.
- The lab variant's `timeout_data_handler` and the empty `while(1)` of its `main`: both are left out. The handler is an unbounded echo loop on the serial line with no logic.
- Terminator constant: the multi-character constant `'\n\r'` is dropped, and only carriage return and line feed end a line.
- `TimeoutLine.Atoi`: does not model the C `int` range. atoi of a field whose value does not fit in an `int` is undefined in C. `TimeoutLine.Atoi` reads the field as an unbounded integer, so the six-value check rejects it.
- strtok's side effect: strtok writes NULs into the buffer, and the model does not include those writes. The buffer is emptied right after the parse in every case.
- Full 40-character line: `Assignment1.Controller.ParseNewTimeout` parses the C string within the first `len` characters of the buffer. When a line fills all 40 characters, the C buffer has no NUL and strtok reads past the array. The model instead stops at the buffer's end.
- `memset` on the `volatile` buffer is modelled as setting every character to NUL.
- Power-on LEDs: the LED registers are taken to be 0 at power-on.
- `Assignment1.Controller.ParseNewTimeout`: the local `TempValues` array is a sequence, and the token loop lives in `TimeoutLine.ScanTimeouts`. The six globals `t0..t5` are one array `t` in the final controller. In the lab variant they are the constant `DEFAULT_TIMEOUTS`, since it never changes them.
