/** Joint vectors, limits and targets of control/model.py, without wrapping angles. */
module Model {
  import opened Prelude

  /** Six finite joint values; the source refuses every other shape on entry. */
  type Joints = q: seq<real> | |q| == 6 witness [0.0, 0.0, 0.0, 0.0, 0.0, 0.0]

  const ZERO: Joints := [0.0, 0.0, 0.0, 0.0, 0.0, 0.0]

  datatype ControlError =
    | JointLimit
    | ClockStalled
    | InvalidGain
    | StepExceeded
    | MissingFeedback
    | StaleFeedback
    | InputUnavailable
    | InputStale
    | InputInvalid
    | MappingStopped
    | OwnershipEnded
    | WrongState
    | Unauthorized
    | PoseMismatch
    | NotStopped
    | NotAdvancing
    | VelocityExceeded
    | AccelerationExceeded
    | InvalidRoute
    | TransportFailed
    | MotionForbidden
    | TimedOut

  /** How far apart two poses are on the joint where they differ most. */
  function Distance(a: seq<real>, b: seq<real>): real
    requires |a| == |b|
  {
    if a == [] then 0.0 else Max(Abs(a[0] - b[0]), Distance(a[1..], b[1..]))
  }

  /** The largest absolute joint value. */
  function Peak(a: seq<real>): real {
    if a == [] then 0.0 else Max(Abs(a[0]), Peak(a[1..]))
  }

  /** `Distance` is the least bound on every joint difference. */
  lemma {:induction false} DistanceWithin(a: seq<real>, b: seq<real>, bound: real)
    requires |a| == |b|
    ensures Distance(a, b) <= bound <==> bound >= 0.0 && forall j :: 0 <= j < |a| ==> Abs(a[j] - b[j]) <= bound
  {
    if a != [] {
      DistanceWithin(a[1..], b[1..], bound);
      assert forall j :: 0 < j < |a| ==> a[j] == a[1..][j - 1] && b[j] == b[1..][j - 1];
      assert forall j :: 0 <= j < |a| - 1 ==> a[1..][j] == a[j + 1] && b[1..][j] == b[j + 1];
    }
  }

  lemma {:induction false} PeakWithin(a: seq<real>, bound: real)
    ensures Peak(a) <= bound <==> bound >= 0.0 && forall j :: 0 <= j < |a| ==> Abs(a[j]) <= bound
  {
    if a != [] {
      PeakWithin(a[1..], bound);
      assert forall j :: 0 < j < |a| ==> a[j] == a[1..][j - 1];
      assert forall j :: 0 <= j < |a| - 1 ==> a[1..][j] == a[j + 1];
    }
  }

  datatype Limits = Limits(
    lower: Joints,
    upper: Joints,
    ready: Joints,
    readySpeed: real,
    readyAcceleration: real,
    speed: real,
    acceleration: real,
    step: real,
    freshnessNs: int,
    arrival: real,
    stoppedSpeed: real
  ) {
    /** Inclusive bounds on every joint. */
    predicate Admits(q: Joints) {
      forall j :: 0 <= j < 6 ==> lower[j] <= q[j] <= upper[j]
    }

    /** What construction of the limits enforces. */
    predicate Valid() {
      && (forall j :: 0 <= j < 6 ==> lower[j] < upper[j])
      && 0.0 < readySpeed <= speed
      && 0.0 < readyAcceleration <= acceleration
      && 0.0 < step && 0 < freshnessNs && 0.0 < arrival && 0.0 < stoppedSpeed
      && Admits(ready)
    }
  }

  /** One absolute joint intent. */
  datatype Target = Target(q: Joints, sequence: int, createdNs: int, source: string)

  /** One measured packet: joints, controller uptime in seconds and host receipt. */
  datatype Feedback = Feedback(
    q: Joints,
    qd: Joints,
    timestamp: real,
    receivedNs: int,
    clock: string,
    motionAllowed: bool
  )
}
