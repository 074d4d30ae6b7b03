/** Tank-drive dispatch: in every cycle of the teleoperated loop the current
    drive configuration decides which drive motors receive a velocity command
    and which controller stick each one follows. */
module DriveDispatch {
  import opened Robot
  import MotorRegistry

  /** The two controller sticks used for driving: Axis3 is the left stick's
      vertical axis, Axis2 the right stick's. */
  datatype Axis = Axis3 | Axis2

  /** "Spin `motor` forward at the velocity read from `axis`." */
  datatype SpinCommand = Spin(motor: DriveMotor, axis: Axis)

  /** The configurations that drive on two motors only. */
  const TwoMotorConfigs: set<string> := {RearWheel, FrontWheel, RightFrontLeftBack, LeftFrontRightBack}

  /** The velocity commands issued in one cycle, in the order they are issued.
      Any string that is not a two-motor configuration, four-wheel included,
      drives all four motors. */
  function DriveCommands(config: string): (cmds: seq<SpinCommand>)
    ensures config in TwoMotorConfigs ==> |cmds| == 2 && cmds[0].axis == Axis3 && cmds[1].axis == Axis2
    ensures config !in TwoMotorConfigs ==>
              |cmds| == 4 && forall m: DriveMotor :: Spin(m, if IsLeft(m) then Axis3 else Axis2) in cmds
    ensures forall i, j :: 0 <= i < j < |cmds| ==> cmds[i].motor != cmds[j].motor
  {
    if config == RearWheel then [Spin(LeftBack, Axis3), Spin(RightBack, Axis2)]
    else if config == FrontWheel then [Spin(LeftFront, Axis3), Spin(RightFront, Axis2)]
    else if config == RightFrontLeftBack then [Spin(RightFront, Axis3), Spin(LeftBack, Axis2)]
    else if config == LeftFrontRightBack then [Spin(LeftFront, Axis3), Spin(RightBack, Axis2)]
    else [Spin(LeftFront, Axis3), Spin(LeftBack, Axis3), Spin(RightFront, Axis2), Spin(RightBack, Axis2)]
  }

  /** The motors that receive a command in one cycle. */
  function Commanded(config: string): set<DriveMotor>
  {
    set c | c in DriveCommands(config) :: c.motor
  }

  /** Each two-motor configuration drives one motor of the named pair or
      axle, and the configuration's name says which. */
  lemma TwoMotorConfigsDriveTheirPair()
    ensures Commanded(RearWheel) == {LeftBack, RightBack}
    ensures Commanded(FrontWheel) == {LeftFront, RightFront}
    ensures Commanded(RightFrontLeftBack) == {RightFront, LeftBack}
    ensures Commanded(LeftFrontRightBack) == {LeftFront, RightBack}
  {
  }

  /** The left stick drives a left-side motor in every configuration except
      RFLB, where it drives the right-front motor and the right stick drives
      the left-back one. */
  lemma OnlyDiagonalRFLBCrossesSides(config: string, i: nat)
    requires i < |DriveCommands(config)|
    ensures DriveCommands(config)[i].axis == Axis3 && !IsLeft(DriveCommands(config)[i].motor)
            <==> config == RightFrontLeftBack && i == 0
  {
  }

  /** True when no motor commanded under `config` is one whose name is in the
      list of disconnected names `d`. */
  predicate AvoidsDisconnected(config: string, d: seq<string>)
  {
    forall i :: 0 <= i < |DriveCommands(config)| ==> NameOf(DriveCommands(config)[i].motor) !in d
  }

  /** The configuration chosen for a set of lost drive motors keeps clear of
      every lost motor exactly when the lost motors all lie on one diagonal:
      all within {LF, RB} or all within {LB, RF}. Any other loss (two on one
      side, or two on one axle) selects a configuration that still drives a
      lost motor. */
  lemma {:induction false} SelectionAvoidsLostMotorsIff(d: seq<string>)
    ensures AvoidsDisconnected(MotorRegistry.ConfigFor(d), d)
            <==> !(("LF" in d || "RB" in d) && ("LB" in d || "RF" in d))
  {
    var config := MotorRegistry.ConfigFor(d);
    var cmds := DriveCommands(config);
    if ("LF" in d || "RB" in d) && ("LB" in d || "RF" in d) {
      assert config == LeftFrontRightBack;
      assert NameOf(cmds[0].motor) == "LF" && NameOf(cmds[1].motor) == "RB";
    } else if config == FourWheel {
      assert forall i :: 0 <= i < |cmds| ==> NameOf(cmds[i].motor) in DriveNames;
    }
  }

  /** A single lost drive motor, with any number of non-drive motors lost as
      well, is always driven around. */
  lemma SingleLossIsDrivenAround(d: seq<string>, lost: DriveMotor)
    requires forall n :: n in DriveNames && n in d ==> n == NameOf(lost)
    ensures AvoidsDisconnected(MotorRegistry.ConfigFor(d), d)
  {
  }

  /** Losing both front motors selects LFRB, which still drives the lost
      left-front motor. */
  lemma BothFrontLostStillDrivesLeftFront()
    ensures MotorRegistry.ConfigFor(["LF", "RF"]) == LeftFrontRightBack
    ensures Spin(LeftFront, Axis3) in DriveCommands(MotorRegistry.ConfigFor(["LF", "RF"]))
  {
  }
}
