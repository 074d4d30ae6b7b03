/** The robot's wiring as the control code sees it: the four drive motors, the
    short names they are registered under, and the drive-configuration strings
    that the motor check hands to the teleoperated loop. */
module Robot {

  /** The four motors of the drivetrain. */
  datatype DriveMotor = LeftFront | LeftBack | RightFront | RightBack

  /** True for the two motors on the left side of the base. */
  predicate IsLeft(m: DriveMotor)
  {
    m == LeftFront || m == LeftBack
  }

  /** The registry names of the drive motors. */
  const DriveNames: set<string> := {"LF", "LB", "RF", "RB"}

  /** The short name each drive motor is registered under before the match. */
  function NameOf(m: DriveMotor): (name: string)
    ensures name in DriveNames
  {
    match m
    case LeftFront => "LF"
    case LeftBack => "LB"
    case RightFront => "RF"
    case RightBack => "RB"
  }

  /** Distinct drive motors are registered under distinct names. */
  lemma NameOfInjective(m1: DriveMotor, m2: DriveMotor)
    ensures NameOf(m1) == NameOf(m2) ==> m1 == m2
  {
  }

  /** The five drive configurations, as the strings the source passes around. */
  const FourWheel: string := "fourWheel"
  const RearWheel: string := "rearWheel"
  const FrontWheel: string := "frontWheel"
  const RightFrontLeftBack: string := "RFLB"
  const LeftFrontRightBack: string := "LFRB"

  const Configs: set<string> := {FourWheel, RearWheel, FrontWheel, RightFrontLeftBack, LeftFrontRightBack}
}
