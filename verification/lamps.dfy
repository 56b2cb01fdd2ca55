/**
 * The green LED register as a pair of traffic lights. Bits 0-2 are the
 * east-west green, yellow and red lamps, bits 3-5 the north-south ones, and
 * bits 6 and 7 the east-west and north-south pedestrian indicators. In the
 * red LED register bits 0 and 1 are the east-west and north-south "wait"
 * lamps.
 */
module Lamps {
  import opened Wrappers
  import opened Cycle

  const EW_PED_INDICATOR: bv32 := 0x40
  const NS_PED_INDICATOR: bv32 := 0x80
  const PED_INDICATORS: bv32 := 0xC0

  const EW_WAIT: bv32 := 0x1
  const NS_WAIT: bv32 := 0x2
  const WAIT_LAMPS: bv32 := 0x3

  /** The colour three lamps show when exactly one of them is lit. */
  function Decode(lamps: bv32): Option<Colour>
  {
    if lamps == 0x1 then Some(Green)
    else if lamps == 0x2 then Some(Yellow)
    else if lamps == 0x4 then Some(Red)
    else None
  }

  function EwLamp(g: bv32): Option<Colour>
  {
    Decode(g & 0x7)
  }

  function NsLamp(g: bv32): Option<Colour>
  {
    Decode((g >> 3) & 0x7)
  }

  predicate Proceeds(lamp: Option<Colour>)
  {
    lamp == Some(Green) || lamp == Some(Yellow)
  }

  /** The register never lets both approaches proceed at once. */
  predicate NoConflict(g: bv32)
  {
    !(Proceeds(EwLamp(g)) && Proceeds(NsLamp(g)))
  }

  /** Exactly one lamp per approach is lit and at least one approach is red. */
  predicate SafePattern(g: bv32)
  {
    EwLamp(g).Some? && NsLamp(g).Some? && (EwLamp(g) == Some(Red) || NsLamp(g) == Some(Red))
  }

  lemma SafePatternHasNoConflict(g: bv32)
    requires SafePattern(g)
    ensures NoConflict(g)
  {
  }

  /**
   * The value written to the green LED register in `phase`, with the
   * pedestrian indicator of a pending request while its approach is green
   * or yellow.
   */
  function GreenPattern(phase: int, nsPed: bool, ewPed: bool): bv32
    requires 0 <= phase < PHASES
  {
    if phase == 0 then 0x24                                   // NS red, EW red
    else if phase == 1 then (if nsPed then 0x8C else 0x0C)    // NS green, EW red
    else if phase == 2 then (if nsPed then 0x94 else 0x14)    // NS yellow, EW red
    else if phase == 3 then 0x24                              // NS red, EW red
    else if phase == 4 then (if ewPed then 0x61 else 0x21)    // NS red, EW green
    else (if ewPed then 0x62 else 0x22)                       // NS red, EW yellow
  }

  /**
   * The register shows the reference colours of `phase`, one lamp per
   * approach and never a conflict; an indicator is lit exactly while its
   * approach has a pending request and is green or yellow; no bit above the
   * eight LEDs is set.
   */
  lemma GreenPatternShows(phase: int, nsPed: bool, ewPed: bool)
    requires 0 <= phase < PHASES
    ensures var g := GreenPattern(phase, nsPed, ewPed);
      && NsLamp(g) == Some(NsColour(phase)) && EwLamp(g) == Some(EwColour(phase))
      && SafePattern(g)
      && (g & NS_PED_INDICATOR != 0 <==> nsPed && (phase == 1 || phase == 2))
      && (g & EW_PED_INDICATOR != 0 <==> ewPed && (phase == 4 || phase == 5))
      && g & 0xFFFF_FF00 == 0
  {
  }

  /** The green register with both pedestrian indicators switched off. */
  function ClearIndicators(g: bv32): bv32
  {
    g & !PED_INDICATORS
  }

  /** Clearing the indicators switches both off and leaves every other bit. */
  lemma ClearIndicatorsKeepsOthers(g: bv32)
    ensures ClearIndicators(g) & PED_INDICATORS == 0
    ensures ClearIndicators(g) | PED_INDICATORS == g | PED_INDICATORS
  {
  }

  /** Clearing the indicators leaves the traffic lamps as they were. */
  lemma ClearIndicatorsKeepsLamps(g: bv32)
    ensures EwLamp(ClearIndicators(g)) == EwLamp(g)
    ensures NsLamp(ClearIndicators(g)) == NsLamp(g)
  {
  }

  /** The red register with both wait lamps switched off. */
  function ClearWaitLamps(red: bv32): bv32
  {
    red & !WAIT_LAMPS
  }

  /** Clearing the wait lamps switches both off and leaves every other bit. */
  lemma ClearWaitLampsKeepsOthers(red: bv32)
    ensures ClearWaitLamps(red) & WAIT_LAMPS == 0
    ensures ClearWaitLamps(red) | WAIT_LAMPS == red | WAIT_LAMPS
  {
  }

  /**
   * The red LED register after the cycle renders `phase`: entering an
   * approach's green switches that approach's wait lamp off.
   */
  function RedAfterRender(phase: int, red: bv32): bv32
  {
    if phase == 1 then ClearWait(red, NS_WAIT)
    else if phase == 4 then ClearWait(red, EW_WAIT)
    else red
  }

  /** Switches one wait lamp off. */
  function ClearWait(red: bv32, lamp: bv32): bv32
  {
    red & !lamp
  }

  /** Rendering touches at most the wait lamp of the approach turning green. */
  lemma RedAfterRenderServes(phase: int, red: bv32)
    ensures phase == 1 ==> RedAfterRender(phase, red) & NS_WAIT == 0
    ensures phase == 4 ==> RedAfterRender(phase, red) & EW_WAIT == 0
    ensures phase != 1 ==> RedAfterRender(phase, red) & NS_WAIT == red & NS_WAIT
    ensures phase != 4 ==> RedAfterRender(phase, red) & EW_WAIT == red & EW_WAIT
    ensures RedAfterRender(phase, red) | WAIT_LAMPS == red | WAIT_LAMPS
  {
  }

  // ---- the panel: both LED registers and the two request flags ----

  /** What a tick reads and rewrites: the two LED registers and the pending pedestrian requests. */
  datatype Panel = Panel(green: bv32, red: bv32, nsPed: bool, ewPed: bool)

  /** A change of mode: wait lamps and indicators off, requests forgotten. */
  function ResetPanel(p: Panel): Panel
  {
    Panel(ClearIndicators(p.green), ClearWaitLamps(p.red), false, false)
  }

  /** Mode 1 shows the phase's lamps and ignores the requests. */
  function SimpleRender(phase: int, p: Panel): Panel
    requires 0 <= phase < PHASES
  {
    p.(green := GreenPattern(phase, false, false))
  }

  /** Modes 2-4 show the phase's lamps with indicators and serve the requests. */
  function PedestrianRender(phase: int, p: Panel): Panel
    requires 0 <= phase < PHASES
  {
    Panel(GreenPattern(phase, p.nsPed, p.ewPed), RedAfterRender(phase, p.red),
          NsAfterRender(phase, p.nsPed), EwAfterRender(phase, p.ewPed))
  }

  function RenderPanel(mode: Mode, phase: int, p: Panel): Panel
    requires 0 <= phase < PHASES
  {
    if mode == Mode1 then SimpleRender(phase, p) else PedestrianRender(phase, p)
  }

  /**
   * Whatever the mode and the pending requests, a render shows the reference
   * colours of `phase`, one lamp per approach and at least one approach red.
   * Mode 1 lights no indicator; the other modes light an indicator exactly
   * while its approach has a pending request and is green or yellow.
   */
  lemma RenderPanelShows(mode: Mode, phase: int, p: Panel)
    requires 0 <= phase < PHASES
    ensures var g := RenderPanel(mode, phase, p).green;
      && NsLamp(g) == Some(NsColour(phase)) && EwLamp(g) == Some(EwColour(phase))
      && SafePattern(g) && NoConflict(g)
      && (g & NS_PED_INDICATOR != 0 <==> mode != Mode1 && p.nsPed && (phase == 1 || phase == 2))
      && (g & EW_PED_INDICATOR != 0 <==> mode != Mode1 && p.ewPed && (phase == 4 || phase == 5))
  {
    if mode == Mode1 {
      GreenPatternShows(phase, false, false);
    } else {
      GreenPatternShows(phase, p.nsPed, p.ewPed);
    }
    SafePatternHasNoConflict(RenderPanel(mode, phase, p).green);
  }

  /**
   * A render never raises a request, and it drops one exactly when that
   * approach turns yellow; Mode 1 leaves the requests and the wait lamps
   * alone.
   */
  lemma RenderPanelServes(mode: Mode, phase: int, p: Panel)
    requires 0 <= phase < PHASES
    ensures var q := RenderPanel(mode, phase, p);
      && (q.nsPed ==> p.nsPed) && (q.ewPed ==> p.ewPed)
      && (p.nsPed && !q.nsPed <==> p.nsPed && mode != Mode1 && NsColour(phase) == Yellow)
      && (p.ewPed && !q.ewPed <==> p.ewPed && mode != Mode1 && EwColour(phase) == Yellow)
      && (mode == Mode1 ==> q.red == p.red)
      && (mode != Mode1 ==> q.red == RedAfterRender(phase, p.red))
  {
  }

  /** A change of mode forgets both requests, darkens the indicators and wait lamps, and keeps the traffic lamps. */
  lemma ResetPanelClears(p: Panel)
    ensures var q := ResetPanel(p);
      && !q.nsPed && !q.ewPed
      && q.green & PED_INDICATORS == 0 && q.red & WAIT_LAMPS == 0
      && EwLamp(q.green) == EwLamp(p.green) && NsLamp(q.green) == NsLamp(p.green)
  {
    ClearIndicatorsKeepsOthers(p.green);
    ClearIndicatorsKeepsLamps(p.green);
    ClearWaitLampsKeepsOthers(p.red);
  }
}
