/**
 * The Mode-4 vehicle/camera tracker as values: the state the vehicle button,
 * the one-shot camera alarm and the periodic 1 ms dwell alarm act on, and
 * one function per event. The controller's handlers are proved to act on
 * its fields exactly as these functions do.
 */
module Camera {
  import opened Cycle

  datatype Tracker = Tracker(
    evenButton: bool,      // parity of vehicle presses; true after an "entering" press
    started: bool,         // a camera session is open
    dwell: nat,            // dwell ticks counted so far
    cameraTimer: bool,     // the one-shot camera alarm is armed
    dwellTimer: bool,      // the periodic dwell alarm is armed
    snapshots: nat,        // snapshots taken so far
    reports: seq<nat>)     // dwell times reported when a vehicle left

  /** The camera alarm is armed exactly while a session is open. */
  predicate Consistent(s: Tracker)
  {
    s.cameraTimer == s.started
  }

  /** A vehicle leaves: both alarms stop, its dwell time is reported and reset. */
  function Leave(s: Tracker): Tracker
  {
    s.(cameraTimer := false, dwellTimer := false, reports := s.reports + [s.dwell],
       dwell := 0, started := false)
  }

  /** The vehicle button was pressed while the cycle is at `phase`. */
  function VehiclePress(s: Tracker, phase: int): Tracker
  {
    var t := s.(evenButton := !s.evenButton);
    if phase == 0 || phase == 3 then
      if t.evenButton then
        if !s.started then t.(cameraTimer := true, started := true, dwellTimer := true) else t
      else if s.started then Leave(t)
      else t
    else if phase == 1 || phase == 4 then
      if t.evenButton then t.(snapshots := s.snapshots + 1, dwellTimer := false)
      else if s.started then Leave(t)
      else t
    else
      t.(evenButton := false)
  }

  /** The one-shot camera alarm expired: the vehicle overstayed. */
  function CameraTimeout(s: Tracker): Tracker
  {
    s.(started := false, evenButton := false, snapshots := s.snapshots + 1, cameraTimer := false)
  }

  /** One period of the dwell alarm. */
  function DwellTick(s: Tracker): Tracker
  {
    var t := s.(dwell := s.dwell + 1);
    if !s.started then t.(dwellTimer := false, dwell := 0) else t
  }

  function DwellTicks(s: Tracker, k: nat): Tracker
    decreases k
  {
    if k == 0 then s else DwellTicks(DwellTick(s), k - 1)
  }

  lemma EventsKeepConsistent(s: Tracker, phase: int)
    requires Consistent(s)
    ensures Consistent(VehiclePress(s, phase))
    ensures Consistent(CameraTimeout(s))
    ensures Consistent(DwellTick(s))
  {
  }

  /**
   * Outside phases 2 and 5 a press flips the parity; in those two phases it
   * is ignored and the parity is forced back to "entering".
   */
  lemma PressParity(s: Tracker, phase: int)
    requires 0 <= phase < PHASES
    ensures phase == 2 || phase == 5 ==> VehiclePress(s, phase) == s.(evenButton := false)
    ensures !(phase == 2 || phase == 5) ==> VehiclePress(s, phase).evenButton == !s.evenButton
  {
  }

  /** A session opens only on an "entering" press in a safe phase, and arms both alarms. */
  lemma SessionOpens(s: Tracker, phase: int)
    ensures var r := VehiclePress(s, phase);
            !s.started && r.started <==> !s.started && !s.evenButton && IsSafe(phase)
    ensures var r := VehiclePress(s, phase);
            !s.started && r.started ==> r.cameraTimer && r.dwellTimer && r.dwell == s.dwell
  {
  }

  /**
   * A press closes a session only as an "exiting" press in phases 0, 1, 3
   * or 4; it then stops both alarms and reports the dwell count.
   */
  lemma SessionCloses(s: Tracker, phase: int)
    ensures var r := VehiclePress(s, phase);
            s.started && !r.started <==> s.started && s.evenButton && phase in {0, 1, 3, 4}
    ensures var r := VehiclePress(s, phase);
            s.started && !r.started ==>
              r.reports == s.reports + [s.dwell] && r.dwell == 0 && !r.cameraTimer && !r.dwellTimer
  {
  }

  /** Only an "entering" press in phase 1 or 4 takes a snapshot; it stops the dwell alarm. */
  lemma PressSnapshot(s: Tracker, phase: int)
    ensures var r := VehiclePress(s, phase);
            r.snapshots != s.snapshots <==> !s.evenButton && (phase == 1 || phase == 4)
    ensures var r := VehiclePress(s, phase);
            r.snapshots != s.snapshots ==> r.snapshots == s.snapshots + 1 && !r.dwellTimer && r.started == s.started
  {
  }

  /**
   * A green render (phase 1 or 4 in Modes 2-4) resets the parity to
   * "entering". The next press after it never closes an open session,
   * whatever the phase: a vehicle that entered in phase 0 and presses again
   * in phase 3, with the NS green rendered in between, is still inside.
   */
  lemma PressAfterGreenKeepsSession(s: Tracker, phase: int)
    requires s.started
    ensures VehiclePress(s.(evenButton := false), phase).started
  {
  }

  /** The camera watchdog force-closes the session and fires exactly one snapshot. */
  lemma WatchdogClosesSession(s: Tracker)
    ensures var r := CameraTimeout(s);
            !r.started && !r.evenButton && !r.cameraTimer && r.snapshots == s.snapshots + 1
    ensures CameraTimeout(s).reports == s.reports && CameraTimeout(s).dwell == s.dwell
  {
  }

  /** While a session is open every dwell tick adds one to the count. */
  lemma {:induction false} DwellCounts(s: Tracker, k: nat)
    requires s.started
    ensures DwellTicks(s, k) == s.(dwell := s.dwell + k)
    decreases k
  {
    if k > 0 {
      DwellCounts(DwellTick(s), k - 1);
    }
  }

  /** Without a session the first dwell tick stops the dwell alarm and zeroes the count. */
  lemma DwellStopsWithoutSession(s: Tracker)
    requires !s.started
    ensures !DwellTick(s).dwellTimer && DwellTick(s).dwell == 0
  {
  }

  /**
   * A vehicle enters in a safe phase, k dwell ticks pass, and it leaves with
   * an "exiting" press: the report is the count it entered with plus k. The
   * count is not reset when a session opens, so it is k exactly when the
   * tracker entered with a zero count.
   */
  lemma {:induction false} DwellReported(s: Tracker, enter: int, k: nat, exit: int)
    requires !s.started && !s.evenButton && IsSafe(enter)
    requires exit in {0, 1, 3, 4}
    ensures var inside := DwellTicks(VehiclePress(s, enter), k);
            var left := VehiclePress(inside, exit);
            !left.started && left.reports == s.reports + [s.dwell + k] && left.dwell == 0
  {
    var entered := VehiclePress(s, enter);
    assert entered.started && entered.evenButton;
    DwellCounts(entered, k);
  }
}
