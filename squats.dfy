/**
 * The squat view: the knee-versus-hip repetition detector, which only runs while tracking, a
 * duration counter driven by a one-second interval while active, and reset/save of the counters.
 */
module Squats {
  import opened Options
  import opened Pose
  import opened Session
  import opened Repetition

  /** `leftHip && rightHip && leftKnee && rightKnee`: landmarks 23-26 are present. */
  predicate HasLegs(f: Frame)
  {
    At(f, LeftHip).Some? && At(f, RightHip).Some? && At(f, LeftKnee).Some? && At(f, RightKnee).Some?
  }

  /**
   * The zone tests of one frame, or None when any of landmarks 23-26 is missing. The comparisons
   * are those of the push-up detector inverted: down when both knees are more than the threshold
   * above (smaller y than) their hips, up when both are more than it below.
   */
  function SquatZones(f: Frame): (r: Option<Zones>)
    ensures r.None? <==> !HasLegs(f)
    ensures r.Some? ==> Exclusive(r.value)
    ensures r.Some? ==>
      var lh, rh, lk, rk := At(f, LeftHip).value, At(f, RightHip).value,
                            At(f, LeftKnee).value, At(f, RightKnee).value;
      && (r.value.down <==> lk.y < lh.y - Threshold && rk.y < rh.y - Threshold)
      && (r.value.up <==> lk.y > lh.y + Threshold && rk.y > rh.y + Threshold)
  {
    if !HasLegs(f) then
      None
    else
      var lh, rh, lk, rk := At(f, LeftHip).value, At(f, RightHip).value,
                            At(f, LeftKnee).value, At(f, RightKnee).value;
      Some(Zones(lk.y < lh.y - Threshold && rk.y < rh.y - Threshold,
                 lk.y > lh.y + Threshold && rk.y > rh.y + Threshold))
  }

  /** `detectSquat` on the position ref and the count. */
  function SquatFrame(t: Tracker, f: Frame): (r: Tracker)
    // a frame missing landmark 23, 24, 25 or 26 changes nothing
    ensures SquatZones(f).None? ==> r == t
    // a down-zone frame sets Down and leaves the count alone
    ensures SquatZones(f).Some? && SquatZones(f).value.down ==> r == Tracker(Down, t.count)
    // a repetition is counted, and Up set, only from Down in the up zone
    ensures r.count == t.count + 1 <==>
              t.position == Down && SquatZones(f).Some? && SquatZones(f).value.up
    ensures r.count == t.count + 1 ==> r.position == Up
    // a frame in neither zone, or in the up zone with the token not Down, changes nothing
    ensures SquatZones(f).Some? && !SquatZones(f).value.down && !(t.position == Down && SquatZones(f).value.up) ==> r == t
    // never a decrease, at most one repetition per frame
    ensures r.count == t.count || r.count == t.count + 1
  {
    match SquatZones(f)
    case None => t
    case Some(z) => Step(t, z)
  }

  /** What a frame shows the up/down machine: a frame missing a landmark shows neither zone. */
  function Observation(f: Frame): (z: Zones)
    ensures Exclusive(z)
    ensures SquatZones(f).Some? ==> z == SquatZones(f).value
    ensures SquatZones(f).None? ==> z == Zones(false, false)
  {
    match SquatZones(f)
    case None => Zones(false, false)
    case Some(z) => z
  }

  /** The detection loop while tracking: the tracker after a sequence of frames. */
  function SquatRun(t: Tracker, fs: seq<Frame>): Tracker
    decreases |fs|
  {
    if fs == [] then t else SquatRun(SquatFrame(t, fs[0]), fs[1..])
  }

  /**
   * Over any sequence of frames the count is its start value plus the number of Down-to-Up
   * transitions of the machine fed with what the frames show.
   */
  lemma {:induction false} SquatRunCount(t: Tracker, fs: seq<Frame>)
    ensures SquatRun(t, fs) == Run(t, seq(|fs|, i requires 0 <= i < |fs| => Observation(fs[i])))
    ensures SquatRun(t, fs).count ==
              t.count + Completions(t, seq(|fs|, i requires 0 <= i < |fs| => Observation(fs[i])))
    decreases |fs|
  {
    var zs := seq(|fs|, i requires 0 <= i < |fs| => Observation(fs[i]));
    if fs != [] {
      assert SquatFrame(t, fs[0]) == Step(t, zs[0]);
      SquatRunCount(SquatFrame(t, fs[0]), fs[1..]);
      assert zs[1..] == seq(|fs[1..]|, i requires 0 <= i < |fs[1..]| => Observation(fs[1..][i]));
    }
    RunCount(t, zs);
  }

  const SquatKind: string := "squat"
  const SquatNotes: string := "Squat exercise completed"

  /** The squat view's state: React state and refs become fields. */
  class SquatCounter {
    var count: nat
    var duration: nat
    var isTracking: bool
    var isActive: bool
    var position: Position
    var userEmail: Option<string>

    /** Tracking and the duration timer are switched together. */
    ghost predicate Valid()
      reads this
    {
      isTracking == isActive
    }

    /** The state `resetAll` leaves behind. */
    ghost predicate IsReset()
      reads this
    {
      count == 0 && duration == 0 && !isTracking && !isActive && position == Unknown
    }

    constructor ()
      ensures Valid() && IsReset() && userEmail == None
    {
      count, duration, isTracking, isActive := 0, 0, false, false;
      position, userEmail := Unknown, None;
    }

    /** The profile request answered with an e-mail. */
    method ProfileLoaded(email: string)
      modifies this
      ensures userEmail == Some(email)
      ensures count == old(count) && duration == old(duration) && isTracking == old(isTracking)
      ensures isActive == old(isActive) && position == old(position)
    {
      userEmail := Some(email);
    }

    /** `detectSquat`. */
    method DetectSquat(f: Frame)
      modifies this
      ensures Tracker(position, count) == SquatFrame(old(Tracker(position, count)), f)
      ensures duration == old(duration) && isTracking == old(isTracking) && isActive == old(isActive)
      ensures userEmail == old(userEmail)
    {
      if At(f, LeftHip).Some? && At(f, RightHip).Some? && At(f, LeftKnee).Some? && At(f, RightKnee).Some? {
        var lh, rh := At(f, LeftHip).value.y, At(f, RightHip).value.y;
        var lk, rk := At(f, LeftKnee).value.y, At(f, RightKnee).value.y;
        if lk < lh - Threshold && rk < rh - Threshold {
          if position != Down {
            position := Down;
          }
        }
        if lk > lh + Threshold && rk > rh + Threshold {
          if position == Down {
            count := count + 1;
            position := Up;
          }
        }
      }
    }

    /** One pass of the detection loop: nothing while not tracking, else the first pose if any. */
    method RunPoseDetection(poses: seq<Frame>)
      modifies this
      ensures Tracker(position, count) ==
                if old(isTracking) && |poses| > 0 then SquatFrame(old(Tracker(position, count)), poses[0])
                else old(Tracker(position, count))
      ensures duration == old(duration) && isTracking == old(isTracking) && isActive == old(isActive)
      ensures userEmail == old(userEmail)
    {
      if !isTracking {
        return;
      }
      if |poses| > 0 {
        DetectSquat(poses[0]);
      }
    }

    /** `startTracking`: tracking and the timer start together. */
    method StartTracking()
      modifies this
      ensures Valid() && isTracking && isActive
      ensures count == old(count) && duration == old(duration) && position == old(position)
      ensures userEmail == old(userEmail)
    {
      isTracking := true;
      isActive := true;
    }

    /** `stopTracking`: tracking and the timer stop together. */
    method StopTracking()
      modifies this
      ensures Valid() && !isTracking && !isActive
      ensures count == old(count) && duration == old(duration) && position == old(position)
      ensures userEmail == old(userEmail)
    {
      isTracking := false;
      isActive := false;
    }

    /** One firing of the duration interval, which exists only while active. */
    method Tick()
      modifies this
      ensures duration == if old(isActive) then old(duration) + 1 else old(duration)
      // tracking and the timer are switched together, so the duration grows exactly while tracking
      ensures old(Valid()) ==> duration == if old(isTracking) then old(duration) + 1 else old(duration)
      ensures count == old(count) && isTracking == old(isTracking) && isActive == old(isActive)
      ensures position == old(position) && userEmail == old(userEmail)
    {
      if isActive {
        duration := duration + 1;
      }
    }

    /** `resetAll`: everything back to the initial state; on a reset state it changes nothing. */
    method ResetAll()
      modifies this
      ensures Valid() && IsReset() && userEmail == old(userEmail)
      ensures old(IsReset()) ==> unchanged(this)
    {
      count := 0;
      duration := 0;
      isTracking := false;
      isActive := false;
      position := Unknown;
    }

    /**
     * `saveData`: without an e-mail nothing is sent and nothing changes; otherwise the summary is
     * sent, an accepted save clears count and duration, and a failed one keeps both.
     */
    method SaveData(response: SaveResponse) returns (sent: Option<Summary>)
      modifies this
      ensures !LoggedIn(old(userEmail)) ==> sent == None && unchanged(this)
      ensures LoggedIn(old(userEmail)) ==>
                sent == Some(Summary(old(userEmail).value, SquatKind, old(count), old(duration), SquatNotes))
      ensures LoggedIn(old(userEmail)) && response == Accepted ==> count == 0 && duration == 0
      ensures response != Accepted ==> count == old(count) && duration == old(duration)
      ensures isTracking == old(isTracking) && isActive == old(isActive)
      ensures position == old(position) && userEmail == old(userEmail)
    {
      if !(userEmail.Some? && userEmail.value != "") {
        return None;
      }
      sent := Some(Summary(userEmail.value, SquatKind, count, duration, SquatNotes));
      if response == Accepted {
        count := 0;
        duration := 0;
      }
    }
  }
}
