/**
 * The shoulder-tap view: a tap is a wrist at the opposite shoulder with the elbow bent between
 * 30 and 90 degrees; a tap marks its side active and schedules a one-second timer, and the timer
 * counts the tap if the side is still active when it fires.
 */
module ShoulderTap {
  import opened Options
  import opened Pose

  datatype Side = Left | Right

  /** How close (in normalised units, on each axis) a wrist must be to the opposite shoulder. */
  const TapThreshold: real := 5.0 / 100.0
  /** The elbow angle must lie strictly between these, in degrees. */
  const MinAngle: real := 30.0
  const MaxAngle: real := 90.0

  function Abs(x: real): (r: real)
    ensures r >= 0.0 && (r == x || r == -x)
  {
    if x < 0.0 then -x else x
  }

  /** Landmarks 11-16 (shoulders, elbows, wrists) are all present. */
  predicate HasUpperBody(f: Frame)
  {
    && At(f, LeftShoulder).Some? && At(f, RightShoulder).Some?
    && At(f, LeftElbow).Some? && At(f, RightElbow).Some?
    && At(f, LeftWrist).Some? && At(f, RightWrist).Some?
  }

  /** A wrist touches a shoulder: within the threshold on both axes, elbow angle in (30, 90). */
  predicate Touches(wrist: Point, shoulder: Point, angle: real)
  {
    && Abs(wrist.x - shoulder.x) < TapThreshold
    && Abs(wrist.y - shoulder.y) < TapThreshold
    && MinAngle < angle < MaxAngle
  }

  /**
   * The sides touching in a frame, given each arm's elbow angle: Right when the right wrist is at
   * the left shoulder, Left when the left wrist is at the right shoulder; none when a landmark
   * 11-16 is missing.
   */
  function Touching(f: Frame, rightAngle: real, leftAngle: real): (r: set<Side>)
    ensures !HasUpperBody(f) ==> r == {}
    ensures Right in r <==>
              HasUpperBody(f) && Touches(At(f, RightWrist).value, At(f, LeftShoulder).value, rightAngle)
    ensures Left in r <==>
              HasUpperBody(f) && Touches(At(f, LeftWrist).value, At(f, RightShoulder).value, leftAngle)
  {
    if !HasUpperBody(f) then {}
    else
      (if Touches(At(f, RightWrist).value, At(f, LeftShoulder).value, rightAngle) then {Right} else {})
      + (if Touches(At(f, LeftWrist).value, At(f, RightShoulder).value, leftAngle) then {Left} else {})
  }

  /** The tap count, the active-taps set and the timers scheduled but not yet fired. */
  datatype Taps = Taps(count: nat, active: set<Side>, pending: multiset<Side>)

  /** Each side has at most one timer pending, exactly while it is active. */
  predicate TapsValid(t: Taps)
  {
    forall s: Side :: t.pending[s] <= 1 && (s in t.active <==> t.pending[s] == 1)
  }

  /**
   * Registration of one side in a frame: a touching side that is not active becomes active and
   * gets a timer; an active side gets nothing more.
   */
  function RegisterSide(t: Taps, side: Side, touching: bool): (r: Taps)
    ensures r.count == t.count
    ensures touching && side !in t.active ==>
              r.active == t.active + {side} && r.pending == t.pending + multiset{side}
    ensures !touching || side in t.active ==> r == t
  {
    if touching && side !in t.active then
      Taps(t.count, t.active + {side}, t.pending + multiset{side})
    else t
  }

  /**
   * A frame: every touching side is registered (the view does the right side, then the left,
   * which comes to the same as both at once).
   */
  function RegisterFrame(t: Taps, touching: set<Side>): (r: Taps)
    ensures r.count == t.count
    ensures r.active == t.active + touching
    // an already active side schedules nothing more
    ensures forall s :: s in t.active ==> r.pending[s] == t.pending[s]
    ensures forall s :: s !in t.active ==> r.pending[s] == t.pending[s] + (if s in touching then 1 else 0)
  {
    Taps(t.count, t.active + touching, t.pending + multiset(touching - t.active))
  }

  /** Registering the right side and then the left is registering the frame. */
  lemma RegisterSidesInTurn(t: Taps, touching: set<Side>)
    ensures RegisterSide(RegisterSide(t, Right, Right in touching), Left, Left in touching)
            == RegisterFrame(t, touching)
  {
    var r := RegisterSide(RegisterSide(t, Right, Right in touching), Left, Left in touching);
    var e := RegisterFrame(t, touching);
    forall s: Side ensures s in r.active <==> s in e.active {
      match s { case Left => case Right => }
    }
    forall s: Side ensures r.pending[s] == e.pending[s] {
      match s { case Left => case Right => }
    }
  }

  /**
   * A side's timer fires: if the side is still active the count rises by one and the side is
   * cleared; otherwise only the timer is gone.
   */
  function Fire(t: Taps, side: Side): (r: Taps)
    requires side in t.pending
    ensures r.pending == t.pending - multiset{side}
    ensures side in t.active ==> r.count == t.count + 1 && r.active == t.active - {side}
    ensures side !in t.active ==> r.count == t.count && r.active == t.active
  {
    var p := t.pending - multiset{side};
    if side in t.active then Taps(t.count + 1, t.active - {side}, p) else Taps(t.count, t.active, p)
  }

  /** The sides are independent: registering or firing one leaves the other's membership alone. */
  lemma SidesIndependent(t: Taps, side: Side, other: Side, touching: bool)
    requires side != other
    ensures other in RegisterSide(t, side, touching).active <==> other in t.active
    ensures RegisterSide(t, side, touching).pending[other] == t.pending[other]
    ensures side in t.pending ==> (other in Fire(t, side).active <==> other in t.active)
    ensures side in t.pending ==> Fire(t, side).pending[other] == t.pending[other]
  {
  }

  /** Registration keeps each side's single timer tied to its active mark. */
  lemma RegisterKeepsValid(t: Taps, touching: set<Side>)
    requires TapsValid(t)
    ensures TapsValid(RegisterFrame(t, touching))
  {
    var r := RegisterFrame(t, touching);
    forall s: Side ensures r.pending[s] <= 1 && (s in r.active <==> r.pending[s] == 1) {
      assert s in t.active <==> t.pending[s] == 1;
    }
  }

  /**
   * Under the invariant a timer always finds its side still active, so every firing counts one
   * tap, and the invariant is kept.
   */
  lemma FireCommits(t: Taps, side: Side)
    requires TapsValid(t) && side in t.pending
    ensures side in t.active
    ensures Fire(t, side).count == t.count + 1
    ensures TapsValid(Fire(t, side))
  {
    assert t.pending[side] == 1;
    var r := Fire(t, side);
    forall s: Side ensures r.pending[s] <= 1 && (s in r.active <==> r.pending[s] == 1) {
      assert s in t.active <==> t.pending[s] == 1;
    }
  }

  /** What happens to the view: a frame with the sides it touches, or a side's timer firing. */
  datatype TapEvent = Seen(touching: set<Side>) | Fired(side: Side)

  /** A timer fires only if one was scheduled for that side. */
  predicate Feasible(t: Taps, es: seq<TapEvent>)
    decreases |es|
  {
    es == [] ||
    match es[0]
    case Seen(touching) => Feasible(RegisterFrame(t, touching), es[1..])
    case Fired(side) => side in t.pending && Feasible(Fire(t, side), es[1..])
  }

  /** The state after a feasible sequence of events. */
  function Replay(t: Taps, es: seq<TapEvent>): Taps
    requires Feasible(t, es)
    decreases |es|
  {
    if es == [] then t
    else
      match es[0]
      case Seen(touching) => Replay(RegisterFrame(t, touching), es[1..])
      case Fired(side) => Replay(Fire(t, side), es[1..])
  }

  /** The number of taps registered (sides newly marked active) along a sequence of events. */
  function Registrations(t: Taps, es: seq<TapEvent>): nat
    requires Feasible(t, es)
    decreases |es|
  {
    if es == [] then 0
    else
      match es[0]
      case Seen(touching) =>
        |touching - t.active| + Registrations(RegisterFrame(t, touching), es[1..])
      case Fired(side) => Registrations(Fire(t, side), es[1..])
  }

  /** A frame schedules exactly one timer per newly registered side. */
  lemma RegisterFramePending(t: Taps, touching: set<Side>)
    ensures |RegisterFrame(t, touching).pending| == |t.pending| + |touching - t.active|
  {
    assert |multiset(touching - t.active)| == |touching - t.active|;
  }

  /**
   * The debounce loses and invents nothing: along any feasible run from a valid state, every
   * registered tap is either counted or still waiting for its timer, and the invariant holds.
   */
  lemma {:induction false} EveryTapCountedOnce(t: Taps, es: seq<TapEvent>)
    requires TapsValid(t) && Feasible(t, es)
    ensures TapsValid(Replay(t, es))
    ensures Replay(t, es).count + |Replay(t, es).pending| == t.count + |t.pending| + Registrations(t, es)
    decreases |es|
  {
    if es != [] {
      match es[0]
      case Seen(touching) =>
        RegisterKeepsValid(t, touching);
        RegisterFramePending(t, touching);
        EveryTapCountedOnce(RegisterFrame(t, touching), es[1..]);
      case Fired(side) =>
        FireCommits(t, side);
        assert |Fire(t, side).pending| == |t.pending| - 1;
        EveryTapCountedOnce(Fire(t, side), es[1..]);
    }
  }

  /** The shoulder-tap view's state: the active-taps set and the scheduled timers become fields. */
  class ShoulderTapCounter {
    var count: nat
    var activeTaps: set<Side>
    /** The debounce timers scheduled and not yet fired, one entry per timer. */
    var pending: multiset<Side>

    function State(): Taps
      reads this
    {
      Taps(count, activeTaps, pending)
    }

    constructor ()
      ensures State() == Taps(0, {}, multiset{}) && TapsValid(State())
    {
      count, activeTaps, pending := 0, {}, multiset{};
    }

    /** `detectShoulderTap` on a frame, with the elbow angles computed from it passed in. */
    method DetectShoulderTap(f: Frame, rightAngle: real, leftAngle: real)
      modifies this
      ensures State() == RegisterFrame(old(State()), Touching(f, rightAngle, leftAngle))
    {
      ghost var touching := Touching(f, rightAngle, leftAngle);
      RegisterSidesInTurn(State(), touching);
      if !HasUpperBody(f) {
        return;
      }
      var ls, rs := At(f, LeftShoulder).value, At(f, RightShoulder).value;
      var lw, rw := At(f, LeftWrist).value, At(f, RightWrist).value;
      var rightTouches := Touches(rw, ls, rightAngle);
      var leftTouches := Touches(lw, rs, leftAngle);
      ghost var mid := RegisterSide(State(), Right, rightTouches);
      if rightTouches && Right !in activeTaps {
        activeTaps := activeTaps + {Right};
        pending := pending + multiset{Right};
      }
      assert State() == mid;
      if leftTouches && Left !in activeTaps {
        activeTaps := activeTaps + {Left};
        pending := pending + multiset{Left};
      }
      assert State() == RegisterSide(mid, Left, leftTouches);
    }

    /** The debounce timer of `side` fires. */
    method FireDebounce(side: Side)
      requires side in pending
      modifies this
      ensures State() == Fire(old(State()), side)
    {
      pending := pending - multiset{side};
      if side in activeTaps {
        count := count + 1;
        activeTaps := activeTaps - {side};
      }
    }
  }
}
