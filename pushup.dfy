/**
 * The push-up view: the elbow-versus-shoulder repetition detector, a seconds timer driven by a
 * one-second interval, and reset/save of the counters.
 */
module Pushup {
  import opened Options
  import opened Pose
  import opened Session
  import opened Repetition

  /** `leftShoulder && rightShoulder && leftElbow && rightElbow`: landmarks 11-14 are present. */
  predicate HasArms(f: Frame)
  {
    At(f, LeftShoulder).Some? && At(f, RightShoulder).Some? && At(f, LeftElbow).Some? && At(f, RightElbow).Some?
  }

  /**
   * The zone tests of one frame, or None when any of landmarks 11-14 is missing. Down: both
   * elbows more than the threshold below their shoulders; up: both more than it above.
   */
  function PushupZones(f: Frame): (r: Option<Zones>)
    ensures r.None? <==> !HasArms(f)
    ensures r.Some? ==> Exclusive(r.value)
    ensures r.Some? ==>
      var ls, rs, le, re := At(f, LeftShoulder).value, At(f, RightShoulder).value,
                            At(f, LeftElbow).value, At(f, RightElbow).value;
      && (r.value.down <==> le.y > ls.y + Threshold && re.y > rs.y + Threshold)
      && (r.value.up <==> le.y < ls.y - Threshold && re.y < rs.y - Threshold)
  {
    if !HasArms(f) then
      None
    else
      var ls, rs, le, re := At(f, LeftShoulder).value, At(f, RightShoulder).value,
                            At(f, LeftElbow).value, At(f, RightElbow).value;
      Some(Zones(le.y > ls.y + Threshold && re.y > rs.y + Threshold,
                 le.y < ls.y - Threshold && re.y < rs.y - Threshold))
  }

  /** `detectPushup` on the position ref and the count. */
  function PushupFrame(t: Tracker, f: Frame): (r: Tracker)
    // a frame missing landmark 11, 12, 13 or 14 changes nothing
    ensures PushupZones(f).None? ==> r == t
    // a down-zone frame sets Down and leaves the count alone
    ensures PushupZones(f).Some? && PushupZones(f).value.down ==> r == Tracker(Down, t.count)
    // a repetition is counted, and Up set, only from Down in the up zone
    ensures r.count == t.count + 1 <==>
              t.position == Down && PushupZones(f).Some? && PushupZones(f).value.up
    ensures r.count == t.count + 1 ==> r.position == Up
    // a frame in neither zone, or in the up zone with the token not Down, changes nothing
    ensures PushupZones(f).Some? && !PushupZones(f).value.down && !(t.position == Down && PushupZones(f).value.up) ==> r == t
    ensures r.count == t.count || r.count == t.count + 1
  {
    match PushupZones(f)
    case None => t
    case Some(z) => Step(t, z)
  }

  /** What a frame shows the up/down machine: a frame missing a landmark shows neither zone. */
  function Observation(f: Frame): (z: Zones)
    ensures Exclusive(z)
    ensures PushupZones(f).Some? ==> z == PushupZones(f).value
    ensures PushupZones(f).None? ==> z == Zones(false, false)
  {
    match PushupZones(f)
    case None => Zones(false, false)
    case Some(z) => z
  }

  /** The detection loop: the tracker after a sequence of frames. */
  function PushupRun(t: Tracker, fs: seq<Frame>): Tracker
    decreases |fs|
  {
    if fs == [] then t else PushupRun(PushupFrame(t, fs[0]), fs[1..])
  }

  /**
   * Over any sequence of frames the count is its start value plus the number of Down-to-Up
   * transitions of the machine fed with what the frames show.
   */
  lemma {:induction false} PushupRunCount(t: Tracker, fs: seq<Frame>)
    ensures PushupRun(t, fs) == Run(t, seq(|fs|, i requires 0 <= i < |fs| => Observation(fs[i])))
    ensures PushupRun(t, fs).count ==
              t.count + Completions(t, seq(|fs|, i requires 0 <= i < |fs| => Observation(fs[i])))
    decreases |fs|
  {
    var zs := seq(|fs|, i requires 0 <= i < |fs| => Observation(fs[i]));
    if fs != [] {
      assert PushupFrame(t, fs[0]) == Step(t, zs[0]);
      PushupRunCount(PushupFrame(t, fs[0]), fs[1..]);
      assert zs[1..] == seq(|fs[1..]|, i requires 0 <= i < |fs[1..]| => Observation(fs[1..][i]));
    }
    RunCount(t, zs);
  }

  const PushupKind: string := "pushup"
  const PushupNotes: string := "Push-up exercise completed"

  /** The push-up view's state: React state and refs become fields. */
  class PushupCounter {
    var count: nat
    var timer: nat
    var isRunning: bool
    /** Whether intervalRef holds a live one-second interval. */
    var interval: bool
    var position: Position
    var userEmail: Option<string>

    /** The interval is live exactly while the timer runs. */
    ghost predicate Valid()
      reads this
    {
      interval == isRunning
    }

    constructor ()
      ensures Valid()
      ensures count == 0 && timer == 0 && !isRunning && position == Unknown && userEmail == None
    {
      count, timer, isRunning, interval := 0, 0, false, false;
      position, userEmail := Unknown, None;
    }

    /** The profile request answered with an e-mail. */
    method ProfileLoaded(email: string)
      modifies this
      ensures userEmail == Some(email)
      ensures count == old(count) && timer == old(timer) && isRunning == old(isRunning)
      ensures interval == old(interval) && position == old(position)
    {
      userEmail := Some(email);
    }

    /** `detectPushup`, run on every frame whatever the timer does. */
    method DetectPushup(f: Frame)
      modifies this
      ensures Tracker(position, count) == PushupFrame(old(Tracker(position, count)), f)
      ensures timer == old(timer) && isRunning == old(isRunning) && interval == old(interval)
      ensures userEmail == old(userEmail)
    {
      if At(f, LeftShoulder).Some? && At(f, RightShoulder).Some? && At(f, LeftElbow).Some? && At(f, RightElbow).Some? {
        var ls, rs := At(f, LeftShoulder).value.y, At(f, RightShoulder).value.y;
        var le, re := At(f, LeftElbow).value.y, At(f, RightElbow).value.y;
        if le > ls + Threshold && re > rs + Threshold {
          if position != Down {
            position := Down;
          }
        }
        if le < ls - Threshold && re < rs - Threshold {
          if position == Down {
            count := count + 1;
            position := Up;
          }
        }
      }
    }

    /** One pass of the detection loop: the first detected pose, if any, goes to `detectPushup`. */
    method RunPoseDetection(poses: seq<Frame>)
      modifies this
      ensures Tracker(position, count) ==
                if |poses| > 0 then PushupFrame(old(Tracker(position, count)), poses[0])
                else old(Tracker(position, count))
      ensures timer == old(timer) && isRunning == old(isRunning) && interval == old(interval)
      ensures userEmail == old(userEmail)
    {
      if |poses| > 0 {
        DetectPushup(poses[0]);
      }
    }

    /** `startTimer`: the toggle button offers it only while the timer is stopped. */
    method StartTimer()
      requires Valid() && !isRunning
      modifies this
      ensures Valid() && isRunning
      ensures count == old(count) && timer == old(timer) && position == old(position)
      ensures userEmail == old(userEmail)
    {
      isRunning := true;
      interval := true;
    }

    /** `stopTimer`. */
    method StopTimer()
      modifies this
      ensures Valid() && !isRunning
      ensures count == old(count) && timer == old(timer) && position == old(position)
      ensures userEmail == old(userEmail)
    {
      isRunning := false;
      interval := false;
    }

    /** One firing of the interval: a second more while the interval is live. */
    method Tick()
      requires Valid()
      modifies this
      ensures Valid()
      ensures timer == if old(isRunning) then old(timer) + 1 else old(timer)
      ensures count == old(count) && isRunning == old(isRunning) && position == old(position)
      ensures userEmail == old(userEmail)
    {
      if interval {
        timer := timer + 1;
      }
    }

    /** `resetAll`: zeroes count and timer and stops the timer; the position ref is kept. */
    method ResetAll()
      modifies this
      ensures Valid()
      ensures count == 0 && timer == 0 && !isRunning
      ensures position == old(position) && userEmail == old(userEmail)
    {
      count := 0;
      timer := 0;
      isRunning := false;
      interval := false;
    }

    /**
     * `saveData`: without an e-mail nothing is sent and nothing changes; otherwise the summary is
     * sent, and only an accepted save clears the count (the timer is kept).
     */
    method SaveData(response: SaveResponse) returns (sent: Option<Summary>)
      modifies this
      ensures !LoggedIn(old(userEmail)) ==> sent == None
      ensures LoggedIn(old(userEmail)) ==>
                sent == Some(Summary(old(userEmail).value, PushupKind, old(count), old(timer), PushupNotes))
      ensures count == if LoggedIn(old(userEmail)) && response == Accepted then 0 else old(count)
      ensures timer == old(timer) && isRunning == old(isRunning) && interval == old(interval)
      ensures position == old(position) && userEmail == old(userEmail)
    {
      if !(userEmail.Some? && userEmail.value != "") {
        return None;
      }
      sent := Some(Summary(userEmail.value, PushupKind, count, timer, PushupNotes));
      if response == Accepted {
        count := 0;
      }
    }
  }
}
