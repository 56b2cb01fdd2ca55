/**
 * The earlier lab controller. Modes 1-3 only (Mode 4 freezes the cycle),
 * no camera and no reconfiguration. Mode 1 and Mode 2 each keep their own
 * phase counter: Mode 1 steps `mode1State`, Modes 2 and 3 step
 * `mode2State`. The safe-phase test always looks at `mode1State`, and so
 * does the mode gate, whichever mode is running.
 */
module Lab1 {
  import opened Cycle
  import opened Lamps
  import opened TimeoutLine

  /** The key register is active low: bit 0 EW pedestrian, bit 1 NS pedestrian. */
  const EW_KEY: bv32 := 0x1
  const NS_KEY: bv32 := 0x2

  /**
   * Which counters can be away from 0 in `mode`: a mode change zeroes both,
   * and each mode steps only its own, so Mode 1 leaves `mode2State` at 0,
   * Modes 2-4 leave `mode1State` at 0, and Mode 4 leaves both there.
   */
  predicate Parked(mode: Mode, mode1State: int, mode2State: int)
  {
    && 0 <= mode1State < PHASES && 0 <= mode2State < PHASES
    && (mode != Mode1 ==> mode1State == 0)
    && (mode == Mode1 || mode == Mode4 ==> mode2State == 0)
  }

  /**
   * The consequence for the mode gate: outside Mode 1 the frozen
   * `mode1State` is 0, so the safe-phase test passes in every phase of the
   * pedestrian cycle and the switches are honoured at once.
   */
  lemma GateOpenOutsideMode1(mode: Mode, mode1State: int, mode2State: int, switches: bv32)
    requires Parked(mode, mode1State, mode2State)
    requires mode != Mode1 && SelectMode(switches).Some?
    ensures IsSafe(mode1State)
    ensures UpdatedMode(mode, IsSafe(mode1State), switches) == SelectMode(switches).value
  {
  }

  class Controller {
    var mode: Mode
    var mode1State: int
    var mode2State: int
    var nsPed: bool
    var ewPed: bool
    var currentTimeOut: int
    var greenLeds: bv32
    var redLeds: bv32

    ghost predicate Valid()
      reads this
    {
      Parked(mode, mode1State, mode2State)
    }

    /** The LED registers and request flags as one value. */
    ghost function PanelView(): Panel
      reads this
    {
      Panel(greenLeds, redLeds, nsPed, ewPed)
    }

    /** Power-on: Mode 1, both counters at 0, no timeout yet, the LEDs dark. */
    constructor ()
      ensures Valid()
      ensures mode == Mode1 && mode1State == 0 && mode2State == 0
      ensures !nsPed && !ewPed && currentTimeOut == 0 && greenLeds == 0 && redLeds == 0
    {
      mode := Mode1;
      mode1State, mode2State := 0, 0;
      nsPed, ewPed := false, false;
      currentTimeOut := 0;
      greenLeds, redLeds := 0, 0;
    }

    /** Zeroes both phase counters; the flags and LEDs are left as they are. */
    method ResetAllStates()
      modifies this`mode1State, this`mode2State
      ensures mode1State == 0 && mode2State == 0
    {
      mode1State := 0;
      mode2State := 0;
    }

    /**
     * Honours the mode switches when the safe-phase test passes; an actual
     * change zeroes both counters. Outside Mode 1 the test always passes.
     */
    method UpdateMode(switches: bv32)
      requires Valid()
      modifies this`mode, this`mode1State, this`mode2State
      ensures Valid()
      ensures mode == UpdatedMode(old(mode), IsSafe(old(mode1State)), switches)
      ensures old(mode) != Mode1 && SelectMode(switches).Some? ==> mode == SelectMode(switches).value
      ensures mode != old(mode) ==> mode1State == 0 && mode2State == 0
      ensures mode == old(mode) ==> mode1State == old(mode1State) && mode2State == old(mode2State)
    {
      var safe := IsSafe(mode1State);
      if mode != Mode1 && SelectMode(switches).Some? {
        GateOpenOutsideMode1(mode, mode1State, mode2State, switches);
      }
      var selected := UpdatedMode(mode, safe, switches);
      if selected != mode {
        ResetAllStates();
      }
      mode := selected;
    }

    /** Mode 1: shows phase `mode1State`, takes its timeout, steps the counter. */
    method SimpleTlc()
      requires 0 <= mode1State < PHASES
      modifies this`greenLeds, this`currentTimeOut, this`mode1State
      ensures PanelView() == SimpleRender(old(mode1State), old(PanelView()))
      ensures currentTimeOut == DEFAULT_TIMEOUTS[old(mode1State)]
      ensures mode1State == NextPhase(old(mode1State), false)
    {
      greenLeds := GreenPattern(mode1State, false, false);
      currentTimeOut := DEFAULT_TIMEOUTS[mode1State];
      mode1State := (mode1State + 1) % PHASES;
    }

    /**
     * Modes 2 and 3: shows phase `mode2State` with the pedestrian
     * indicators, switches the wait lamp of an approach turning green off,
     * drops a request at its yellow, takes the timeout, steps the counter.
     */
    method PedestrianTlc()
      requires 0 <= mode2State < PHASES
      modifies this`greenLeds, this`redLeds, this`nsPed, this`ewPed, this`currentTimeOut, this`mode2State
      ensures PanelView() == PedestrianRender(old(mode2State), old(PanelView()))
      ensures currentTimeOut == DEFAULT_TIMEOUTS[old(mode2State)]
      ensures mode2State == NextPhase(old(mode2State), false)
    {
      var pattern := GreenPattern(mode2State, nsPed, ewPed);
      if mode2State == 1 {
        redLeds := ClearWait(redLeds, NS_WAIT);
      } else if mode2State == 2 {
        nsPed := false;
      } else if mode2State == 4 {
        redLeds := ClearWait(redLeds, EW_WAIT);
      } else if mode2State == 5 {
        ewPed := false;
      }
      greenLeds := pattern;
      currentTimeOut := DEFAULT_TIMEOUTS[mode2State];
      mode2State := (mode2State + 1) % PHASES;
    }

    /** Mode 3 is Mode 2 in this variant. */
    method ConfigurableTlc()
      requires 0 <= mode2State < PHASES
      modifies this`greenLeds, this`redLeds, this`nsPed, this`ewPed, this`currentTimeOut, this`mode2State
      ensures PanelView() == PedestrianRender(old(mode2State), old(PanelView()))
      ensures currentTimeOut == DEFAULT_TIMEOUTS[old(mode2State)]
      ensures mode2State == NextPhase(old(mode2State), false)
    {
      PedestrianTlc();
    }

    /**
     * The tick alarm's handler: select the mode, then step the cycle the
     * mode runs. Mode 4 changes nothing more and returns the previous
     * timeout, which is 0 until some phase has been shown.
     */
    method Tick(switches: bv32) returns (next: int)
      requires Valid()
      modifies this`mode, this`mode1State, this`mode2State, this`greenLeds, this`redLeds,
               this`nsPed, this`ewPed, this`currentTimeOut
      ensures Valid()
      ensures next == currentTimeOut
      ensures mode == UpdatedMode(old(mode), IsSafe(old(mode1State)), switches)
      ensures var s1 := if mode != old(mode) then 0 else old(mode1State);
              var s2 := if mode != old(mode) then 0 else old(mode2State);
              && (mode == Mode1 ==>
                    && mode1State == NextPhase(s1, false) && mode2State == s2
                    && PanelView() == SimpleRender(s1, old(PanelView()))
                    && currentTimeOut == DEFAULT_TIMEOUTS[s1])
              && (mode == Mode2 || mode == Mode3 ==>
                    && mode2State == NextPhase(s2, false) && mode1State == s1
                    && PanelView() == PedestrianRender(s2, old(PanelView()))
                    && currentTimeOut == DEFAULT_TIMEOUTS[s2])
              && (mode == Mode4 ==>
                    && mode1State == s1 && mode2State == s2
                    && PanelView() == old(PanelView()) && currentTimeOut == old(currentTimeOut))
    {
      UpdateMode(switches);
      if mode == Mode1 {
        SimpleTlc();
      } else if mode == Mode2 {
        PedestrianTlc();
      } else if mode == Mode3 {
        ConfigurableTlc();
      }
      next := currentTimeOut;
    }

    /**
     * The key interrupt, in every mode. The EW key wins over the NS key; a
     * request is taken only while the pedestrian cycle's counter has its
     * approach red, and it lights that approach's wait lamp.
     */
    method KeyIsr(keys: bv32)
      modifies this`ewPed, this`nsPed, this`redLeds
      ensures keys & EW_KEY == 0 ==>
                && ewPed == (old(ewPed) || EwRequestAccepted(mode2State))
                && redLeds == (if EwRequestAccepted(mode2State) then old(redLeds) | EW_WAIT else old(redLeds))
                && nsPed == old(nsPed)
      ensures keys & EW_KEY != 0 && keys & NS_KEY == 0 ==>
                && nsPed == (old(nsPed) || NsRequestAccepted(mode2State))
                && redLeds == (if NsRequestAccepted(mode2State) then old(redLeds) | NS_WAIT else old(redLeds))
                && ewPed == old(ewPed)
      ensures keys & EW_KEY != 0 && keys & NS_KEY != 0 ==>
                ewPed == old(ewPed) && nsPed == old(nsPed) && redLeds == old(redLeds)
    {
      if keys & EW_KEY == 0 {
        if !(mode2State == 4 || mode2State == 5) {
          ewPed := true;
          redLeds := redLeds | EW_WAIT;
        }
      } else if keys & NS_KEY == 0 {
        if !(mode2State == 1 || mode2State == 2) {
          nsPed := true;
          redLeds := redLeds | NS_WAIT;
        }
      }
    }
  }
}
