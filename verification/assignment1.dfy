/**
 * The final controller: four modes, pedestrian requests, the Mode-4
 * vehicle/camera tracker and live reconfiguration of the timeout table over
 * the serial line. Hardware registers become fields (the two LED registers)
 * and parameters (the switch and key registers); each interrupt handler and
 * each pass of the main loop is one atomic method.
 *
 * `phase` is the source's CurrentState. A tick renders `phase` and then
 * advances it, so between ticks `phase` names the phase the next tick will
 * render, one ahead of the lamps on show.
 */
module Assignment1 {
  import opened Wrappers
  import opened Cycle
  import opened Lamps
  import opened Camera
  import opened TimeoutLine

  /** The key register is active low: bit 0 EW pedestrian, bit 1 NS pedestrian, bit 2 vehicle. */
  const EW_KEY: bv32 := 0x1
  const NS_KEY: bv32 := 0x2
  const VEHICLE_KEY: bv32 := 0x4

  /** Copies six accepted timeout values into the table, one entry at a time. */
  method StoreTimeouts(table: array<int>, values: seq<int>)
    requires table.Length == |values| == NUMBER_OF_TIMEOUT_VALUES
    modifies table
    ensures table[..] == values
  {
    table[0] := values[0];
    table[1] := values[1];
    table[2] := values[2];
    table[3] := values[3];
    table[4] := values[4];
    table[5] := values[5];
  }

  class Controller {
    var mode: Mode
    var phase: int
    var nsPed: bool
    var ewPed: bool
    /** The timeout table t0..t5, in milliseconds. */
    const t: array<int>
    var currentTimeOut: int
    var greenLeds: bv32
    var redLeds: bv32

    var evenButton: bool
    var cameraStarted: bool
    var timeInIntersection: nat
    var cameraTimerRunning: bool
    var dwellTimerRunning: bool
    var snapshots: nat
    var dwellReports: seq<nat>

    /** Switch 17 was seen on in a safe phase of Mode 3 or 4. */
    var receiveNewData: bool
    /** The periodic tick alarm is armed. */
    var timerRunning: bool
    /** The line being received, and the index of the next free character. */
    const buf: array<char>
    var bufIndex: int
    /** The last line was accepted; the next character resumes the tick. */
    var validNewTimeout: bool
    /** main's receive loop has not been left. */
    var mainLoopRunning: bool

    ghost predicate Valid()
      reads this, t, buf
    {
      && t.Length == NUMBER_OF_TIMEOUT_VALUES
      && buf.Length == NEW_TIMEOUT_LENGTH
      && 0 <= phase < PHASES
      && (forall i | 0 <= i < t.Length :: t[i] > 0)
      && currentTimeOut > 0
      && 0 <= bufIndex <= buf.Length
      && (forall i | bufIndex <= i < buf.Length :: buf[i] == '\0')
      && cameraTimerRunning == cameraStarted
      && (receiveNewData ==> Receiving())
    }

    /**
     * While a line may be received the cycle is stopped in a safe phase of
     * Mode 3 or 4: the tick alarm was stopped when switch 17 was seen, and
     * it is armed again only when the line has been taken and the switch is
     * off.
     */
    ghost predicate Receiving()
      reads this
    {
      !timerRunning && IsSafe(phase) && (mode == Mode3 || mode == Mode4)
    }

    /** The tracker state held in this controller's fields. */
    ghost function CameraView(): Tracker
      reads this
    {
      Tracker(evenButton, cameraStarted, timeInIntersection, cameraTimerRunning,
              dwellTimerRunning, snapshots, dwellReports)
    }

    /** The received line: the characters before the index. */
    ghost function Line(): seq<char>
      reads this, buf
      requires 0 <= bufIndex <= buf.Length
    {
      buf[..bufIndex]
    }

    /** Power-on: Mode 1, phase 0, the default table, the tick alarm armed, the LEDs dark. */
    constructor ()
      ensures Valid()
      ensures fresh(t) && fresh(buf)
      ensures mode == Mode1 && phase == 0 && !nsPed && !ewPed
      ensures t[..] == DEFAULT_TIMEOUTS && currentTimeOut == 6000
      ensures greenLeds == 0 && redLeds == 0
      ensures CameraView() == Tracker(false, false, 0, false, false, 0, [])
      ensures !receiveNewData && timerRunning && Line() == [] && !validNewTimeout && mainLoopRunning
    {
      mode := Mode1;
      phase := 0;
      nsPed, ewPed := false, false;
      t := new int[NUMBER_OF_TIMEOUT_VALUES] [500, 6000, 2000, 500, 6000, 2000];
      currentTimeOut := 6000;
      greenLeds, redLeds := 0, 0;
      evenButton, cameraStarted, timeInIntersection := false, false, 0;
      cameraTimerRunning, dwellTimerRunning := false, false;
      snapshots, dwellReports := 0, [];
      receiveNewData := false;
      timerRunning := true;
      buf := new char[NEW_TIMEOUT_LENGTH](_ => '\0');
      bufIndex := 0;
      validNewTimeout := false;
      mainLoopRunning := true;
    }

    // ---- the periodic tick ----

    /** The LED registers and request flags as one value. */
    ghost function PanelView(): Panel
      reads this
    {
      Panel(greenLeds, redLeds, nsPed, ewPed)
    }

    /** Clears the pedestrian wait lamps, the pedestrian indicators and both request flags. */
    method ResetAllStates()
      requires Valid()
      modifies this`redLeds, this`greenLeds, this`nsPed, this`ewPed
      ensures Valid()
      ensures PanelView() == ResetPanel(old(PanelView()))
    {
      redLeds := redLeds & !WAIT_LAMPS;
      greenLeds := greenLeds & !PED_INDICATORS;
      ewPed := false;
      nsPed := false;
    }

    /** Honours the mode switches in a safe phase; an actual change resets the panel. */
    method UpdateMode(switches: bv32)
      requires Valid() && !receiveNewData
      modifies this`mode, this`redLeds, this`greenLeds, this`nsPed, this`ewPed
      ensures Valid()
      ensures mode == UpdatedMode(old(mode), IsSafe(phase), switches)
      ensures PanelView() == if mode != old(mode) then ResetPanel(old(PanelView())) else old(PanelView())
    {
      var selected := UpdatedMode(mode, IsSafe(phase), switches);
      if selected != mode {
        ResetAllStates();
      }
      mode := selected;
    }

    /** In a safe phase of Mode 3 or 4, follows switch 17 and stops the tick alarm while it is on. */
    method TimeoutDataHandler(switches: bv32)
      requires Valid()
      modifies this`receiveNewData, this`timerRunning
      ensures Valid()
      ensures (mode == Mode3 || mode == Mode4) && IsSafe(phase) ==>
                receiveNewData == (switches & RECONFIGURE_SWITCH != 0) &&
                timerRunning == (old(timerRunning) && !receiveNewData)
      ensures !((mode == Mode3 || mode == Mode4) && IsSafe(phase)) ==>
                receiveNewData == old(receiveNewData) && timerRunning == old(timerRunning)
    {
      if mode == Mode3 || mode == Mode4 {
        if IsSafe(phase) {
          if switches & RECONFIGURE_SWITCH != 0 {
            receiveNewData := true;
            if timerRunning {
              timerRunning := false;
            }
          } else {
            receiveNewData := false;
          }
        }
      }
    }

    /** Mode 1: shows the phase's lamps and takes its timeout. */
    method SimpleTlc()
      requires Valid()
      modifies this`greenLeds, this`currentTimeOut
      ensures Valid()
      ensures PanelView() == SimpleRender(phase, old(PanelView()))
      ensures currentTimeOut == t[phase]
    {
      greenLeds := GreenPattern(phase, false, false);
      currentTimeOut := t[phase];
    }

    /**
     * Modes 2-4: as Mode 1 with pedestrian indicators. Entering a green
     * switches that approach's wait lamp off and forgets the vehicle parity;
     * the yellow serves and clears that approach's request.
     */
    method PedestrianTlc()
      requires Valid()
      modifies this`greenLeds, this`redLeds, this`currentTimeOut, this`evenButton, this`nsPed, this`ewPed
      ensures Valid()
      ensures PanelView() == PedestrianRender(phase, old(PanelView()))
      ensures currentTimeOut == t[phase]
      ensures evenButton == (old(evenButton) && phase != 1 && phase != 4)
    {
      var pattern := GreenPattern(phase, nsPed, ewPed);
      if phase == 1 {
        redLeds := ClearWait(redLeds, NS_WAIT);
        evenButton := false;
      } else if phase == 2 {
        nsPed := false;
      } else if phase == 4 {
        redLeds := ClearWait(redLeds, EW_WAIT);
        evenButton := false;
      } else if phase == 5 {
        ewPed := false;
      }
      greenLeds := pattern;
      currentTimeOut := t[phase];
    }

    /** Mode 3 renders as Mode 2; its extra behaviour lives in the handlers. */
    method ConfigurableTlc()
      requires Valid()
      modifies this`greenLeds, this`redLeds, this`currentTimeOut, this`evenButton, this`nsPed, this`ewPed
      ensures Valid()
      ensures PanelView() == PedestrianRender(phase, old(PanelView()))
      ensures currentTimeOut == t[phase]
      ensures evenButton == (old(evenButton) && phase != 1 && phase != 4)
    {
      PedestrianTlc();
    }

    /** Mode 4 renders as Mode 2; its extra behaviour lives in the handlers. */
    method CameraTlc()
      requires Valid()
      modifies this`greenLeds, this`redLeds, this`currentTimeOut, this`evenButton, this`nsPed, this`ewPed
      ensures Valid()
      ensures PanelView() == PedestrianRender(phase, old(PanelView()))
      ensures currentTimeOut == t[phase]
      ensures evenButton == (old(evenButton) && phase != 1 && phase != 4)
    {
      PedestrianTlc();
    }

    /** Renders the current phase the way the mode asks. */
    method Render()
      requires Valid()
      modifies this`greenLeds, this`redLeds, this`currentTimeOut, this`evenButton, this`nsPed, this`ewPed
      ensures Valid()
      ensures PanelView() == RenderPanel(mode, phase, old(PanelView()))
      ensures currentTimeOut == t[phase]
      ensures evenButton == (old(evenButton) && (mode == Mode1 || (phase != 1 && phase != 4)))
    {
      if mode == Mode1 {
        SimpleTlc();
      } else if mode == Mode2 {
        PedestrianTlc();
      } else if mode == Mode3 {
        ConfigurableTlc();
      } else {
        CameraTlc();
      }
    }

    /** Advances the phase unless Mode 3 or 4 holds it for reconfiguration. */
    method NextState(switches: bv32)
      requires Valid()
      requires receiveNewData ==> Reconfiguring(mode, phase, switches)
      modifies this`phase
      ensures Valid()
      ensures phase == NextPhase(old(phase), Reconfiguring(mode, old(phase), switches))
    {
      if IsSafe(phase) && switches & RECONFIGURE_SWITCH != 0 && (mode == Mode3 || mode == Mode4) {
      } else {
        phase := (phase + 1) % PHASES;
      }
    }

    /**
     * The tick alarm's handler: select the mode, look at switch 17, render
     * the phase, advance it. Returns the next alarm period, always positive.
     * A change of mode first resets the panel.
     */
    method Tick(switches: bv32) returns (next: int)
      requires Valid() && timerRunning
      modifies this`mode, this`phase, this`nsPed, this`ewPed, this`greenLeds, this`redLeds,
               this`currentTimeOut, this`evenButton, this`receiveNewData, this`timerRunning
      ensures Valid()
      ensures next == currentTimeOut == t[old(phase)] && next > 0
      ensures mode == UpdatedMode(old(mode), IsSafe(old(phase)), switches)
      ensures phase == NextPhase(old(phase), Reconfiguring(mode, old(phase), switches))
      ensures PanelView() == RenderPanel(mode, old(phase), if mode != old(mode) then ResetPanel(old(PanelView()))
                                                           else old(PanelView()))
      ensures evenButton == (old(evenButton) && (mode == Mode1 || (old(phase) != 1 && old(phase) != 4)))
      ensures (mode == Mode3 || mode == Mode4) && IsSafe(old(phase)) ==>
                receiveNewData == (switches & RECONFIGURE_SWITCH != 0) &&
                timerRunning == (old(timerRunning) && !receiveNewData)
      ensures !((mode == Mode3 || mode == Mode4) && IsSafe(old(phase))) ==>
                receiveNewData == old(receiveNewData) && timerRunning == old(timerRunning)
    {
      UpdateMode(switches);
      TimeoutDataHandler(switches);
      Render();
      NextState(switches);
      next := currentTimeOut;
    }

    // ---- the key interrupt ----

    /**
     * The key interrupt. Ignored in Mode 1. Otherwise the EW key wins over
     * the NS key, which wins over the vehicle key; a pedestrian request is
     * taken only while its approach is red and lights its wait lamp; the
     * vehicle key counts only in Mode 4.
     */
    method KeyIsr(keys: bv32)
      requires Valid()
      modifies this`ewPed, this`nsPed, this`redLeds, this`evenButton, this`cameraStarted,
               this`timeInIntersection, this`cameraTimerRunning, this`dwellTimerRunning,
               this`snapshots, this`dwellReports
      ensures Valid()
      ensures mode == Mode1 ==>
                ewPed == old(ewPed) && nsPed == old(nsPed) && redLeds == old(redLeds) &&
                CameraView() == old(CameraView())
      ensures mode != Mode1 && keys & EW_KEY == 0 ==>
                && ewPed == (old(ewPed) || EwRequestAccepted(phase))
                && redLeds == (if EwRequestAccepted(phase) then old(redLeds) | EW_WAIT else old(redLeds))
                && nsPed == old(nsPed) && CameraView() == old(CameraView())
      ensures mode != Mode1 && keys & EW_KEY != 0 && keys & NS_KEY == 0 ==>
                && nsPed == (old(nsPed) || NsRequestAccepted(phase))
                && redLeds == (if NsRequestAccepted(phase) then old(redLeds) | NS_WAIT else old(redLeds))
                && ewPed == old(ewPed) && CameraView() == old(CameraView())
      ensures mode != Mode1 && keys & EW_KEY != 0 && keys & NS_KEY != 0 ==>
                && ewPed == old(ewPed) && nsPed == old(nsPed) && redLeds == old(redLeds)
                && CameraView() == if mode == Mode4 && keys & VEHICLE_KEY == 0
                                   then VehiclePress(old(CameraView()), phase)
                                   else old(CameraView())
    {
      if mode == Mode1 {
        return;
      }
      if keys & EW_KEY == 0 {
        if !(phase == 4 || phase == 5) {
          ewPed := true;
          redLeds := redLeds | EW_WAIT;
        }
      } else if keys & NS_KEY == 0 {
        if !(phase == 1 || phase == 2) {
          nsPed := true;
          redLeds := redLeds | NS_WAIT;
        }
      } else if keys & VEHICLE_KEY == 0 && mode == Mode4 {
        EventsKeepConsistent(CameraView(), phase);
        HandleVehicleButton();
      }
    }

    // ---- the vehicle/camera tracker ----

    /** A vehicle left the intersection: both alarms stop and its dwell time is reported. */
    method VehicleLeft()
      modifies this`cameraStarted, this`timeInIntersection, this`cameraTimerRunning,
               this`dwellTimerRunning, this`dwellReports
      ensures CameraView() == Leave(old(CameraView()))
    {
      cameraTimerRunning := false;
      dwellTimerRunning := false;
      dwellReports := dwellReports + [timeInIntersection];
      timeInIntersection := 0;
      cameraStarted := false;
    }

    method HandleVehicleButton()
      modifies this`evenButton, this`cameraStarted, this`timeInIntersection, this`cameraTimerRunning,
               this`dwellTimerRunning, this`snapshots, this`dwellReports
      ensures CameraView() == VehiclePress(old(CameraView()), phase)
    {
      evenButton := !evenButton;
      if phase == 0 || phase == 3 {
        if evenButton {
          if !cameraStarted {
            cameraTimerRunning := true;
            cameraStarted := true;
            dwellTimerRunning := true;
          }
        } else if cameraStarted {
          VehicleLeft();
        }
      } else if phase == 1 || phase == 4 {
        if evenButton {
          snapshots := snapshots + 1;
          dwellTimerRunning := false;
        } else if cameraStarted {
          VehicleLeft();
        }
      } else {
        evenButton := false;
      }
    }

    /** The one-shot camera alarm fired: close the session and take a snapshot. */
    method CameraTimerIsr()
      requires Valid() && cameraTimerRunning
      modifies this`cameraStarted, this`evenButton, this`snapshots, this`cameraTimerRunning
      ensures Valid()
      ensures CameraView() == CameraTimeout(old(CameraView()))
    {
      EventsKeepConsistent(CameraView(), phase);
      cameraStarted := false;
      evenButton := false;
      snapshots := snapshots + 1;
      cameraTimerRunning := false;
    }

    /** One 1 ms period of the dwell alarm. */
    method IntersectionTimerIsr()
      requires Valid() && dwellTimerRunning
      modifies this`timeInIntersection, this`dwellTimerRunning
      ensures Valid()
      ensures CameraView() == DwellTick(old(CameraView()))
    {
      EventsKeepConsistent(CameraView(), phase);
      timeInIntersection := timeInIntersection + 1;
      HandleIntersectionTimer();
    }

    /** Without a session the dwell alarm stops itself and the count goes back to zero. */
    method HandleIntersectionTimer()
      modifies this`timeInIntersection, this`dwellTimerRunning
      ensures !cameraStarted ==> !dwellTimerRunning && timeInIntersection == 0
      ensures cameraStarted ==>
                dwellTimerRunning == old(dwellTimerRunning) && timeInIntersection == old(timeInIntersection)
    {
      if !cameraStarted {
        dwellTimerRunning := false;
        timeInIntersection := 0;
      }
    }

    // ---- the reconfiguration line ----

    /**
     * Splits the C string held in the first `len` characters of the buffer
     * on commas and, when it holds exactly six valid values, replaces the
     * whole timeout table with them; otherwise the table is left as it was.
     */
    method ParseNewTimeout(len: int) returns (ok: bool)
      requires Valid() && 0 <= len <= buf.Length
      modifies t
      ensures Valid()
      ensures ok == Parse(CString(buf[..len])).Some?
      ensures t[..] == if ok then Parse(CString(buf[..len])).value else old(t[..])
    {
      var values;
      ok, values := ScanTimeouts(CString(buf[..len]));
      if ok {
        StoreTimeouts(t, values);
      }
    }

    /** Empties the line buffer. */
    method ClearBuffer()
      modifies this`bufIndex, buf
      ensures bufIndex == 0
      ensures forall i | 0 <= i < buf.Length :: buf[i] == '\0'
    {
      bufIndex := 0;
      forall i | 0 <= i < buf.Length {
        buf[i] := '\0';
      }
    }

    /**
     * One pass of main's loop after a character arrived. Characters count
     * only while switch 17 was seen on. Until a line is accepted they are
     * collected up to a carriage return or line feed, which parses the line
     * and empties the buffer; a 41st character empties the buffer and leaves
     * the loop for good. After an accepted line the next character re-arms
     * the tick alarm if switch 17 is now off, and otherwise waits for a new
     * line.
     */
    method FeedChar(c: char, switches: bv32)
      requires Valid()
      modifies this`bufIndex, this`validNewTimeout, this`mainLoopRunning, this`receiveNewData,
               this`timerRunning, buf, t
      ensures Valid()
      ensures !old(mainLoopRunning) || !old(receiveNewData) ==>
                && bufIndex == old(bufIndex) && buf[..] == old(buf[..]) && t[..] == old(t[..])
                && validNewTimeout == old(validNewTimeout) && mainLoopRunning == old(mainLoopRunning)
                && receiveNewData == old(receiveNewData) && timerRunning == old(timerRunning)
      ensures old(mainLoopRunning) && old(receiveNewData) && !old(validNewTimeout) && !IsTerminator(c) ==>
                && t[..] == old(t[..]) && !validNewTimeout && receiveNewData && timerRunning == old(timerRunning)
                && if old(bufIndex) < NEW_TIMEOUT_LENGTH
                   then bufIndex == old(bufIndex) + 1 && Line() == old(Line()) + [c] && mainLoopRunning
                   else Line() == [] && !mainLoopRunning && !timerRunning
      ensures old(mainLoopRunning) && old(receiveNewData) && !old(validNewTimeout) && IsTerminator(c) ==>
                && validNewTimeout == Parse(CString(old(Line()))).Some?
                && t[..] == (if validNewTimeout then Parse(CString(old(Line()))).value else old(t[..]))
                && Line() == [] && mainLoopRunning && receiveNewData && timerRunning == old(timerRunning)
      ensures old(mainLoopRunning) && old(receiveNewData) && old(validNewTimeout) ==>
                && bufIndex == old(bufIndex) && buf[..] == old(buf[..]) && t[..] == old(t[..])
                && mainLoopRunning
                && ((mode == Mode3 || mode == Mode4) && IsSafe(phase) ==>
                      receiveNewData == (switches & RECONFIGURE_SWITCH != 0))
                && (!((mode == Mode3 || mode == Mode4) && IsSafe(phase)) ==> receiveNewData)
                && (!receiveNewData ==> timerRunning && validNewTimeout)
                && (receiveNewData ==> timerRunning == (old(timerRunning) && !((mode == Mode3 || mode == Mode4) && IsSafe(phase)))
                                       && !validNewTimeout)
      ensures t[..] != old(t[..]) ==> IsSafe(phase) && (mode == Mode3 || mode == Mode4)
      ensures old(mainLoopRunning) && !mainLoopRunning ==> receiveNewData && Receiving()
    {
      if !mainLoopRunning || !receiveNewData {
        return;
      }
      if !validNewTimeout {
        if !IsTerminator(c) {
          if bufIndex >= NEW_TIMEOUT_LENGTH {
            ClearBuffer();
            mainLoopRunning := false;
            return;
          }
          buf[bufIndex] := c;
          bufIndex := bufIndex + 1;
        } else {
          validNewTimeout := ParseNewTimeout(bufIndex);
          ClearBuffer();
        }
      } else {
        TimeoutDataHandler(switches);
        if !receiveNewData {
          timerRunning := true;
        } else {
          validNewTimeout := false;
        }
      }
    }
  }
}
