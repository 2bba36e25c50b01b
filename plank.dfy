/**
 * The plank view: the push-up detector and a plank-hold detector, both meant to run only while
 * the timer runs, a seconds counter driven by an interval while running, and reset/save.
 */
module Plank {
  import opened Options
  import opened Pose
  import opened Session
  import opened Repetition
  import opened Pushup

  /** The hold part of the state: the start timestamp ref, the shown seconds and the active flag. */
  datatype Hold = Hold(start: Option<nat>, plankTime: int, active: bool)

  /** `shoulder && hip`: landmarks 11 and 23 are present. */
  predicate HasTorso(f: Frame)
  {
    At(f, LeftShoulder).Some? && At(f, LeftHip).Some?
  }

  /** The plank posture: the hip is level with or above the shoulder (y grows downwards). */
  predicate Holds(f: Frame)
  {
    HasTorso(f) && At(f, LeftHip).value.y <= At(f, LeftShoulder).value.y
  }

  /**
   * `detectPlank` past its running check, at clock reading `now` (milliseconds): while the
   * posture holds the start is kept (or taken now when there is none) and the shown time is the
   * whole seconds since the start; when it fails the start is cleared and the shown time kept.
   */
  function HoldFrame(h: Hold, f: Frame, now: nat): (r: Hold)
    // a frame missing landmark 11 or 23 changes nothing
    ensures !HasTorso(f) ==> r == h
    // in the posture: active, and a start is set only when there was none
    ensures Holds(f) ==> r.active && r.start.Some?
    ensures Holds(f) ==> r.start == if h.start.None? then Some(now) else h.start
    // the shown time is floor((now - start) / 1000): Euclidean division by a positive divisor floors
    ensures Holds(f) ==> r.plankTime * 1000 <= now - r.start.value < r.plankTime * 1000 + 1000
    // posture broken: start cleared, inactive, the last shown time kept
    ensures HasTorso(f) && !Holds(f) ==> r == Hold(None, h.plankTime, false)
  {
    if !HasTorso(f) then h
    else if At(f, LeftHip).value.y <= At(f, LeftShoulder).value.y then
      var start := if h.start.None? then now else h.start.value;
      Hold(Some(start), (now - start) / 1000, true)
    else
      Hold(None, h.plankTime, false)
  }

  /**
   * While the posture holds and the clock does not go back, the shown time is never negative,
   * never decreases, and the start timestamp stays put.
   */
  lemma HoldTimeGrows(h: Hold, f1: Frame, t1: nat, f2: Frame, t2: nat)
    requires Holds(f1) && Holds(f2)
    requires h.start.Some? ==> h.start.value <= t1
    requires t1 <= t2
    ensures var r1 := HoldFrame(h, f1, t1);
            var r2 := HoldFrame(r1, f2, t2);
            && r2.start == r1.start
            && 0 <= r1.plankTime <= r2.plankTime
  {
    var r1 := HoldFrame(h, f1, t1);
    assert r1.start.value <= t1;
  }

  /**
   * One pass of the plank view's loop on pose frame f at time now: the push-up detector, then
   * the hold detector, each skipped unless `seenRunning`, the isRunning value the loop reads.
   */
  function LoopFrame(t: Tracker, h: Hold, seenRunning: bool, f: Frame, now: nat): (r: (Tracker, Hold))
    ensures !seenRunning ==> r == (t, h)
    ensures seenRunning ==> r == (PushupFrame(t, f), HoldFrame(h, f, now))
  {
    if !seenRunning then (t, h) else (PushupFrame(t, f), HoldFrame(h, f, now))
  }

  /**
   * The loop as the view builds it: once, at mount, from the first render's closures, so the
   * isRunning it reads is that render's value, false, whatever the timer does later.
   */
  function LoopFrameAsWritten(t: Tracker, h: Hold, f: Frame, now: nat): (r: (Tracker, Hold))
    ensures r == (t, h)
  {
    LoopFrame(t, h, false, f, now)
  }

  /**
   * The discrepancy: with the timer running and a frame in both the push-up down zone and the
   * plank posture, the loop as written changes nothing, while the intended loop sets Down, takes
   * the start time and marks the plank active.
   */
  lemma AsWrittenIgnoresRunningTimer()
    ensures var f := PlankAndLoweredFrame();
            var t, h := Tracker(Unknown, 0), Hold(None, 0, false);
            && LoopFrameAsWritten(t, h, f, 5000) == (t, h)
            && LoopFrame(t, h, true, f, 5000) == (Tracker(Down, 0), Hold(Some(5000), 0, true))
  {
    var f := PlankAndLoweredFrame();
    assert HasArms(f) && HasTorso(f) && Holds(f);
    assert PushupZones(f).value.down;
  }

  /**
   * A pose with shoulders at y = 0.5, elbows at y = 0.6 (lowered past the 0.07 threshold) and
   * the hip at y = 0.5 (level with the shoulder).
   */
  function PlankAndLoweredFrame(): (f: Frame)
    ensures |f| == 24
  {
    var p := Some(Point(0.5, 0.5));
    var e := Some(Point(0.5, 0.6));
    seq(24, i => if i == 13 || i == 14 then e else p)
  }

  const PlankKind: string := "plank"
  const PlankNotes: string := "Plank and push-up exercise completed"

  /** The plank view's state: React state and refs become fields. */
  class PlankTimer {
    var count: nat
    var plankTime: int
    var isPlankActive: bool
    var isRunning: bool
    var position: Position
    var plankStart: Option<nat>
    var userEmail: Option<string>

    /** The state `resetAll` leaves behind (the position ref aside). */
    ghost predicate IsReset()
      reads this
    {
      count == 0 && plankTime == 0 && !isRunning && !isPlankActive && plankStart == None
    }

    constructor ()
      ensures IsReset() && position == Unknown && userEmail == None
    {
      count, plankTime, isPlankActive, isRunning := 0, 0, false, false;
      position, plankStart, userEmail := Unknown, None, None;
    }

    /** The profile request answered with an e-mail. */
    method ProfileLoaded(email: string)
      modifies this
      ensures userEmail == Some(email)
      ensures count == old(count) && plankTime == old(plankTime) && isPlankActive == old(isPlankActive)
      ensures isRunning == old(isRunning) && position == old(position) && plankStart == old(plankStart)
    {
      userEmail := Some(email);
    }

    /** `detectPushup` of this view: the push-up rule, only while running. */
    method DetectPushup(f: Frame)
      modifies this
      ensures Tracker(position, count) ==
                if old(isRunning) then PushupFrame(old(Tracker(position, count)), f)
                else old(Tracker(position, count))
      ensures plankTime == old(plankTime) && isPlankActive == old(isPlankActive)
      ensures isRunning == old(isRunning) && plankStart == old(plankStart) && userEmail == old(userEmail)
    {
      if !isRunning {
        return;
      }
      if HasArms(f) {
        var ls, rs := At(f, LeftShoulder).value.y, At(f, RightShoulder).value.y;
        var le, re := At(f, LeftElbow).value.y, At(f, RightElbow).value.y;
        if le > ls + Threshold && re > rs + Threshold {
          if position != Down {
            position := Down;
          }
        }
        if le < ls - Threshold && re < rs - Threshold {
          if position == Down {
            count := count + 1;
            position := Up;
          }
        }
      }
    }

    /** `detectPlank` at clock reading `now`, only while running. */
    method DetectPlank(f: Frame, now: nat)
      modifies this
      ensures Hold(plankStart, plankTime, isPlankActive) ==
                if old(isRunning) then HoldFrame(old(Hold(plankStart, plankTime, isPlankActive)), f, now)
                else old(Hold(plankStart, plankTime, isPlankActive))
      ensures count == old(count) && position == old(position)
      ensures isRunning == old(isRunning) && userEmail == old(userEmail)
    {
      if !isRunning {
        return;
      }
      var shoulder, hip := At(f, LeftShoulder), At(f, LeftHip);
      if shoulder.Some? && hip.Some? {
        if hip.value.y <= shoulder.value.y {
          if plankStart == None {
            plankStart := Some(now);
          }
          plankTime := (now - plankStart.value) / 1000;
          isPlankActive := true;
        } else {
          plankStart := None;
          isPlankActive := false;
        }
      }
    }

    /**
     * One pass of the detection loop, gated by the current isRunning: the intended behaviour
     * (LoopFrameAsWritten is what the view does).
     */
    method RunPoseDetection(poses: seq<Frame>, now: nat)
      modifies this
      ensures (Tracker(position, count), Hold(plankStart, plankTime, isPlankActive)) ==
                if |poses| > 0 then
                  LoopFrame(old(Tracker(position, count)), old(Hold(plankStart, plankTime, isPlankActive)),
                            old(isRunning), poses[0], now)
                else old((Tracker(position, count), Hold(plankStart, plankTime, isPlankActive)))
      ensures isRunning == old(isRunning) && userEmail == old(userEmail)
    {
      if |poses| > 0 {
        DetectPushup(poses[0]);
        DetectPlank(poses[0], now);
      }
    }

    /** `startTimer`. */
    method StartTimer()
      modifies this
      ensures isRunning
      ensures count == old(count) && plankTime == old(plankTime) && isPlankActive == old(isPlankActive)
      ensures position == old(position) && plankStart == old(plankStart) && userEmail == old(userEmail)
    {
      isRunning := true;
    }

    /** `stopTimer`. */
    method StopTimer()
      modifies this
      ensures !isRunning
      ensures count == old(count) && plankTime == old(plankTime) && isPlankActive == old(isPlankActive)
      ensures position == old(position) && plankStart == old(plankStart) && userEmail == old(userEmail)
    {
      isRunning := false;
    }

    /** One firing of the interval, which exists only while running: a second more. */
    method Tick()
      modifies this
      ensures plankTime == if old(isRunning) then old(plankTime) + 1 else old(plankTime)
      ensures count == old(count) && isPlankActive == old(isPlankActive) && isRunning == old(isRunning)
      ensures position == old(position) && plankStart == old(plankStart) && userEmail == old(userEmail)
    {
      if isRunning {
        plankTime := plankTime + 1;
      }
    }

    /** `resetAll`: counters zeroed, timer stopped, hold cleared; the position ref is not touched. */
    method ResetAll()
      modifies this
      ensures IsReset()
      ensures position == old(position) && userEmail == old(userEmail)
    {
      count := 0;
      plankTime := 0;
      isRunning := false;
      isPlankActive := false;
      plankStart := None;
    }

    /**
     * `saveData`: without an e-mail, or when the save fails, nothing changes; an accepted save
     * does what `resetAll` does.
     */
    method SaveData(response: SaveResponse) returns (sent: Option<Summary>)
      modifies this
      ensures !LoggedIn(old(userEmail)) ==> sent == None
      ensures LoggedIn(old(userEmail)) ==>
                sent == Some(Summary(old(userEmail).value, PlankKind, old(count), old(plankTime), PlankNotes))
      ensures !(LoggedIn(old(userEmail)) && response == Accepted) ==> unchanged(this)
      ensures LoggedIn(old(userEmail)) && response == Accepted ==> IsReset()
      ensures position == old(position) && userEmail == old(userEmail)
    {
      if !(userEmail.Some? && userEmail.value != "") {
        return None;
      }
      sent := Some(Summary(userEmail.value, PlankKind, count, plankTime, PlankNotes));
      if response == Accepted {
        ResetAll();
      }
    }
  }
}
