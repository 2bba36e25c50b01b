/** The optional value used for nullable refs and for landmarks the pose library did not report. */
module Options {
  datatype Option<+T> = None | Some(value: T)
}

/** Pose landmarks as the detectors read them. */
module Pose {
  import opened Options

  /** A normalised landmark position; y grows downwards in the image. */
  datatype Point = Point(x: real, y: real)

  /** One detected pose: entry i is landmark i, or None where the library reported nothing. */
  type Frame = seq<Option<Point>>

  // Landmark indices of the pose model.
  const LeftShoulder: nat := 11
  const RightShoulder: nat := 12
  const LeftElbow: nat := 13
  const RightElbow: nat := 14
  const LeftWrist: nat := 15
  const RightWrist: nat := 16
  const LeftHip: nat := 23
  const RightHip: nat := 24
  const LeftKnee: nat := 25
  const RightKnee: nat := 26

  /** The movement threshold of the repetition detectors, 0.07 of the frame height. */
  const Threshold: real := 7.0 / 100.0

  /** `landmarks[i]`: undefined (None) past the end of the array or where nothing was reported. */
  function At(f: Frame, i: nat): (r: Option<Point>)
    ensures r.Some? <==> i < |f| && f[i].Some?
    ensures r.Some? ==> r == f[i]
  {
    if i < |f| then f[i] else None
  }
}

/** What every exercise view shares about saving a session. */
module Session {
  import opened Options

  /**
   * The outcome of the POST to the exercise log: a 2xx answer whose body parses as JSON, a non-2xx
   * answer, or a thrown error (the fetch failing, or a 2xx body that does not parse as JSON).
   */
  datatype SaveResponse = Accepted | Rejected | Unreachable

  /** The record a save submits. */
  datatype Summary = Summary(email: string, kind: string, count: nat, duration: int, notes: string)

  /** JavaScript truthiness of the stored e-mail: both null and "" mean "not logged in". */
  predicate LoggedIn(email: Option<string>)
  {
    email.Some? && email.value != ""
  }
}
