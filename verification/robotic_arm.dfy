/** The robotic arm model: each frame sets the three joint angles by
    lerping between fixed limits with a sine-driven weight. */
module RoboticArm {
  import opened Trig

  /** A joint's limits and the sine's rate and phase that drive it. */
  datatype Joint = Joint(lo: real, hi: real, rate: real, phase: real)

  const Shoulder := Joint(-Pi / 4.0, Pi / 4.0, 0.5, 0.0)
  const Elbow := Joint(-Pi / 6.0, Pi / 3.0, 0.7, 0.5)
  const Wrist := Joint(-Pi / 8.0, Pi / 8.0, 1.0, 1.0)

  /** The lerp weight `(sin + 1) / 2`: a sine value moved into [0, 1]. */
  function Weight(s: real): (w: real)
    ensures -1.0 <= s <= 1.0 ==> 0.0 <= w <= 1.0
    ensures s == -1.0 <==> w == 0.0
    ensures s == 1.0 <==> w == 1.0
  {
    (s + 1.0) / 2.0
  }

  /** The sine's argument for a joint at time `t`. */
  function Phase(j: Joint, t: real): real {
    t * j.rate + j.phase
  }

  /** The angle of a joint at time `t`. */
  function JointAngle(sin: Sine, j: Joint, t: real): real {
    Lerp(j.lo, j.hi, Weight(sin(Phase(j, t))))
  }

  /** A joint stays within its limits, and reaches each of them: at a sine
      peak it is at its upper limit and at a trough at its lower one. */
  lemma JointRange(sin: Sine, j: Joint, t: real)
    requires j.lo <= j.hi
    ensures j.lo <= JointAngle(sin, j, t) <= j.hi
    ensures sin(Phase(j, t)) == 1.0 ==> JointAngle(sin, j, t) == j.hi
    ensures sin(Phase(j, t)) == -1.0 ==> JointAngle(sin, j, t) == j.lo
  {
    LerpBetween(j.lo, j.hi, Weight(sin(Phase(j, t))));
  }

  datatype ArmPose = ArmPose(shoulder: real, elbow: real, wrist: real)

  /** One frame: every angle is assigned afresh from the elapsed time, so
      the previous pose is ignored. */
  function Frame(previous: ArmPose, sin: Sine, t: real): (p: ArmPose)
    ensures -Pi / 4.0 <= p.shoulder <= Pi / 4.0
    ensures -Pi / 6.0 <= p.elbow <= Pi / 3.0
    ensures -Pi / 8.0 <= p.wrist <= Pi / 8.0
  {
    JointRange(sin, Shoulder, t);
    JointRange(sin, Elbow, t);
    JointRange(sin, Wrist, t);
    ArmPose(JointAngle(sin, Shoulder, t), JointAngle(sin, Elbow, t), JointAngle(sin, Wrist, t))
  }

  /** The pose depends on elapsed time alone: two frames at the same time
      agree whatever came before them. `Frame` never reads `previous`, so
      this lemma only records that each angle is set directly from the
      clock rather than stepped from the last frame. */
  lemma FrameForgetsHistory(a: ArmPose, b: ArmPose, sin: Sine, t: real)
    ensures Frame(a, sin, t) == Frame(b, sin, t)
  {
  }
}
