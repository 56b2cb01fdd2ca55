/**
 * The six-phase traffic cycle shared by both controller variants: operating
 * modes, the safe (all-red) phases, the mode selector, the reconfiguration
 * hold, the phase advance and the pedestrian-request gating.
 */
module Cycle {
  import opened Wrappers

  /** Operating mode, selected by switches 0-3. */
  datatype Mode = Mode1 | Mode2 | Mode3 | Mode4

  /** Colour shown to one approach. */
  datatype Colour = Green | Yellow | Red

  const PHASES: int := 6

  /** Switch 17 asks for new timeout values. */
  const RECONFIGURE_SWITCH: bv32 := 0x2_0000

  /** The mode-select switch that belongs to each mode. */
  function ModeBit(m: Mode): bv32
  {
    match m
    case Mode1 => 0x1
    case Mode2 => 0x2
    case Mode3 => 0x4
    case Mode4 => 0x8
  }

  /** Reference table: what the north-south approach shows in each phase. */
  function NsColour(phase: int): Colour
  {
    if phase == 1 then Green else if phase == 2 then Yellow else Red
  }

  /** Reference table: what the east-west approach shows in each phase. */
  function EwColour(phase: int): Colour
  {
    if phase == 4 then Green else if phase == 5 then Yellow else Red
  }

  /** Phases 0 and 3 are the red-red phases in which modes and timeouts may change. */
  predicate IsSafe(phase: int)
  {
    phase == 0 || phase == 3
  }

  lemma SafePhasesAreAllRed(phase: int)
    requires 0 <= phase < PHASES
    ensures IsSafe(phase) <==> NsColour(phase) == Red && EwColour(phase) == Red
  {
  }

  lemma NeverBothApproachesProceed(phase: int)
    ensures NsColour(phase) == Red || EwColour(phase) == Red
  {
  }

  /**
   * The mode the switches ask for: the lowest set bit among switches 0-3
   * wins, so Mode1 takes priority over Mode2, Mode2 over Mode3 and Mode3
   * over Mode4; with none of them set there is no request.
   */
  function SelectMode(switches: bv32): (r: Option<Mode>)
    ensures r.None? <==> switches & 0xF == 0
    ensures r.Some? ==> switches & ModeBit(r.value) != 0
    ensures r.Some? ==> switches & (ModeBit(r.value) - 1) == 0
  {
    if switches & 0x1 != 0 then Some(Mode1)
    else if switches & 0x2 != 0 then Some(Mode2)
    else if switches & 0x4 != 0 then Some(Mode3)
    else if switches & 0x8 != 0 then Some(Mode4)
    else None
  }

  /**
   * The mode after the selector has run: the switches are honoured only
   * when the safe-state test passes.
   */
  function UpdatedMode(mode: Mode, safe: bool, switches: bv32): (m: Mode)
    ensures !safe ==> m == mode
    ensures m != mode ==> SelectMode(switches) == Some(m)
    ensures safe && SelectMode(switches).Some? ==> m == SelectMode(switches).value
  {
    if safe && SelectMode(switches).Some? then SelectMode(switches).value else mode
  }

  /** Mode 3 and Mode 4 stop in a safe phase while switch 17 is on. */
  predicate Reconfiguring(mode: Mode, phase: int, switches: bv32)
  {
    IsSafe(phase) && switches & RECONFIGURE_SWITCH != 0 && (mode == Mode3 || mode == Mode4)
  }

  /** The phase after one tick: held, or one step on, wrapping 5 to 0. */
  function NextPhase(phase: int, hold: bool): (p: int)
    requires 0 <= phase < PHASES
    ensures 0 <= p < PHASES
    ensures p == phase <==> hold
    ensures !hold ==> p == phase + 1 || (phase == PHASES - 1 && p == 0)
  {
    if hold then phase else if phase == PHASES - 1 then 0 else phase + 1
  }

  /**
   * A hold is a fixed point: when the switches that selected `mode` from
   * `before` and held the cycle are read again, the selector keeps the
   * mode and the cycle stays held.
   */
  lemma HoldIsStable(before: Mode, mode: Mode, phase: int, switches: bv32)
    requires 0 <= phase < PHASES
    requires mode == UpdatedMode(before, IsSafe(phase), switches)
    requires Reconfiguring(mode, phase, switches)
    ensures UpdatedMode(mode, IsSafe(phase), switches) == mode
    ensures Reconfiguring(UpdatedMode(mode, IsSafe(phase), switches), phase, switches)
    ensures NextPhase(phase, true) == phase
  {
  }

  /** A north-south request is taken only while that approach is red. */
  predicate NsRequestAccepted(phase: int)
  {
    !(phase == 1 || phase == 2)
  }

  /** An east-west request is taken only while that approach is red. */
  predicate EwRequestAccepted(phase: int)
  {
    !(phase == 4 || phase == 5)
  }

  lemma RequestAcceptedWhileRed(phase: int)
    ensures NsRequestAccepted(phase) <==> NsColour(phase) == Red
    ensures EwRequestAccepted(phase) <==> EwColour(phase) == Red
  {
  }

  /** The north-south request flag after the cycle renders `phase`. */
  function NsAfterRender(phase: int, ns: bool): (r: bool)
    ensures r ==> ns
    ensures ns && !r <==> ns && NsColour(phase) == Yellow
  {
    ns && phase != 2
  }

  /** The east-west request flag after the cycle renders `phase`. */
  function EwAfterRender(phase: int, ew: bool): (r: bool)
    ensures r ==> ew
    ensures ew && !r <==> ew && EwColour(phase) == Yellow
  {
    ew && phase != 5
  }
}
