/**
 * The up/down repetition machine that the push-up, squat and plank views each carry a copy of:
 * a position token (`null`, "down" or "up") and a repetition count, driven once per frame by
 * two zone tests computed from the landmarks.
 */
module Repetition {

  /** The position ref; Unknown is its initial `null`. */
  datatype Position = Unknown | Down | Up

  /** The two zone tests of one frame: `down` is the lowered posture, `up` the raised one. */
  datatype Zones = Zones(down: bool, up: bool)

  /** The position ref together with the repetition count. */
  datatype Tracker = Tracker(position: Position, count: nat)

  /** The zone tests can never both hold (true of every detector in this model). */
  predicate Exclusive(z: Zones)
  {
    !(z.down && z.up)
  }

  /**
   * One frame: the down test runs first and sets the token to Down; then the up test, read
   * against the updated token, counts a repetition and sets Up when the token is Down.
   */
  function Step(t: Tracker, z: Zones): (r: Tracker)
    // at most one repetition per frame, and never a decrease
    ensures r.count == t.count || r.count == t.count + 1
    // on an exclusive frame the count rises exactly when the token enters Up
    ensures Exclusive(z) ==> (r.count == t.count + 1 <==> t.position != Up && r.position == Up)
    ensures !z.down && !z.up ==> r == t
    ensures z.down && !z.up ==> r == Tracker(Down, t.count)
    ensures !z.down && z.up ==> r == (if t.position == Down then Tracker(Up, t.count + 1) else t)
  {
    var p := if z.down then Down else t.position;
    if z.up && p == Down then Tracker(Up, t.count + 1) else Tracker(p, t.count)
  }

  /** The tracker after a sequence of frames. */
  function Run(t: Tracker, zs: seq<Zones>): Tracker
    decreases |zs|
  {
    if zs == [] then t else Run(Step(t, zs[0]), zs[1..])
  }

  /** The number of frames of a run in which the token went from Down to Up. */
  function Completions(t: Tracker, zs: seq<Zones>): nat
    decreases |zs|
  {
    if zs == [] then 0
    else
      var t' := Step(t, zs[0]);
      (if t.position == Down && t'.position == Up then 1 else 0) + Completions(t', zs[1..])
  }

  /** Over any run of exclusive frames, the count is its start value plus the Down-to-Up transitions. */
  lemma {:induction false} RunCount(t: Tracker, zs: seq<Zones>)
    requires forall i :: 0 <= i < |zs| ==> Exclusive(zs[i])
    ensures Run(t, zs).count == t.count + Completions(t, zs)
    decreases |zs|
  {
    if zs != [] {
      assert Exclusive(zs[0]);
      RunCount(Step(t, zs[0]), zs[1..]);
    }
  }

  /** Running two sequences in turn is running their concatenation. */
  lemma {:induction false} RunAppend(t: Tracker, a: seq<Zones>, b: seq<Zones>)
    ensures Run(t, a + b) == Run(Run(t, a), b)
    decreases |a|
  {
    if a == [] {
      assert a + b == b;
    } else {
      assert (a + b)[0] == a[0];
      assert (a + b)[1..] == a[1..] + b;
      RunAppend(Step(t, a[0]), a[1..], b);
    }
  }

  /** Repeated down-zone frames never count: they leave Down and the count as it was. */
  lemma {:induction false} DownFramesNeverCount(t: Tracker, zs: seq<Zones>)
    requires |zs| > 0
    requires forall i :: 0 <= i < |zs| ==> zs[i] == Zones(true, false)
    ensures Run(t, zs) == Tracker(Down, t.count)
    decreases |zs|
  {
    if |zs| > 1 {
      DownFramesNeverCount(Step(t, zs[0]), zs[1..]);
    }
  }

  /** Up-zone frames that do not follow a Down change nothing. */
  lemma {:induction false} UpFramesWithoutDownNeverCount(t: Tracker, zs: seq<Zones>)
    requires t.position != Down
    requires forall i :: 0 <= i < |zs| ==> zs[i] == Zones(false, true)
    ensures Run(t, zs) == t
    decreases |zs|
  {
    if zs != [] {
      UpFramesWithoutDownNeverCount(Step(t, zs[0]), zs[1..]);
    }
  }

  /** n full cycles: a down-zone frame followed by an up-zone frame, n times. */
  function Cycles(n: nat): (r: seq<Zones>)
    ensures |r| == 2 * n
  {
    if n == 0 then [] else [Zones(true, false), Zones(false, true)] + Cycles(n - 1)
  }

  /** n full down/up cycles count exactly n repetitions and end in Up, whatever the start. */
  lemma {:induction false} CyclesCountExactly(t: Tracker, n: nat)
    requires n > 0
    ensures Run(t, Cycles(n)) == Tracker(Up, t.count + n)
    decreases n
  {
    var one := [Zones(true, false), Zones(false, true)];
    RunAppend(t, one, Cycles(n - 1));
    var t1 := Run(t, one);
    assert t1 == Tracker(Up, t.count + 1) by {
      assert one[1..] == [Zones(false, true)];
      assert one[1..][1..] == [];
    }
    if n > 1 {
      CyclesCountExactly(t1, n - 1);
    }
  }
}
