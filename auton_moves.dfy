/** The open-loop autonomous moves: a turn in place and a straight drive, each
    turned into four relative motor targets (in motor degrees) through a
    per-unit constant measured on the robot and truncated to an integer. */
module AutonMoves {
  import opened Robot

  /** "Rotate `motor` by `degrees` at `velocity` percent"; only the last
      command of a move waits for the motor to finish. */
  datatype SpinForCommand = SpinFor(motor: DriveMotor, degrees: int, velocity: int, waitForCompletion: bool)

  /** Division of a non-negative measurement by a positive count of units, as
      C++ integer division does it: the fractional part is dropped. */
  function TruncatedRate(total: nat, units: nat): (rate: nat)
    requires units > 0
    ensures rate * units <= total < (rate + 1) * units
  {
    total / units
  }

  /** Motor degrees for a 90-degree turn of the robot, and the per-degree rate
      derived from it. */
  const MotorDegreesFor90DegreeTurn: nat := 362
  const MotorDegreesPerDegreeTurn: nat := TruncatedRate(MotorDegreesFor90DegreeTurn, 90)

  /** Motor degrees for 24 inches of travel (one field tile), and the per-inch
      rate derived from it. */
  const MotorDegreesFor24Inches: nat := 951
  const MotorDegreesPerInch: nat := TruncatedRate(MotorDegreesFor24Inches, 24)

  /** A value that a 32-bit `int` holds and whose negation it holds too. */
  predicate NegatableInt32(x: int)
  {
    -0x7fff_ffff <= x <= 0x7fff_ffff
  }

  /** The four commands of a move: the left motors get `left`, the right motors
      `right`, in the order front-left, back-left, front-right, back-right. */
  function MoveCommands(left: int, right: int, velocity: int): seq<SpinForCommand>
  {
    [SpinFor(LeftFront, left, velocity, false), SpinFor(LeftBack, left, velocity, false),
     SpinFor(RightFront, right, velocity, false), SpinFor(RightBack, right, velocity, true)]
  }

  /** The truncated rates the two moves use: 4 motor degrees per degree of
      turn and 39 per inch. */
  lemma RatesAreTruncated()
    ensures MotorDegreesPerDegreeTurn == 4
    ensures MotorDegreesPerInch == 39
  {
  }

  /** Turn in place: the left motors turn by the turn's motor degrees and the
      right motors by their negation; the amount is negated for "left" and for
      no other direction string. */
  function Turn(degrees: int, direction: string, velocity: int): (cmds: seq<SpinForCommand>)
    requires NegatableInt32(MotorDegreesPerDegreeTurn * degrees)
    ensures |cmds| == 4
    ensures cmds[0].degrees == cmds[1].degrees && cmds[2].degrees == cmds[3].degrees
    ensures cmds[0].degrees + cmds[2].degrees == 0
    ensures cmds[0].degrees == (if direction == "left" then -4 else 4) * degrees
    ensures forall i :: 0 <= i < 4 ==>
              cmds[i].degrees == (if IsLeft(cmds[i].motor) then 1 else -1) * (if direction == "left" then -4 else 4) * degrees
    ensures forall i, j :: 0 <= i < j < 4 ==> cmds[i].motor != cmds[j].motor
    ensures forall i :: 0 <= i < 4 ==> NegatableInt32(cmds[i].degrees) && cmds[i].velocity == velocity
  {
    RatesAreTruncated();
    var motorDegrees := MotorDegreesPerDegreeTurn * degrees;
    var motorDegrees := if direction == "left" then motorDegrees * -1 else motorDegrees;
    MoveCommands(motorDegrees, motorDegrees * -1, velocity)
  }

  /** Straight drive: all four motors turn by the same amount, 39 motor
      degrees per inch, negated for "rev" and for no other direction string. */
  function Drive(inches: int, direction: string, velocity: int): (cmds: seq<SpinForCommand>)
    requires NegatableInt32(MotorDegreesPerInch * inches)
    ensures |cmds| == 4
    ensures forall i :: 0 <= i < 4 ==> cmds[i].degrees == cmds[0].degrees && cmds[i].velocity == velocity
    ensures cmds[0].degrees == (if direction == "rev" then -39 else 39) * inches
    ensures forall i, j :: 0 <= i < j < 4 ==> cmds[i].motor != cmds[j].motor
    ensures NegatableInt32(cmds[0].degrees)
  {
    RatesAreTruncated();
    var motorDegrees := MotorDegreesPerInch * inches;
    var motorDegrees := if direction == "rev" then motorDegrees * -1 else motorDegrees;
    MoveCommands(motorDegrees, motorDegrees, velocity)
  }

  /** A move commands each drive motor once, in a fixed order, and waits only
      for the last one. */
  lemma MovesCommandEachMotorOnce(degrees: int, inches: int, direction: string, velocity: int)
    requires NegatableInt32(MotorDegreesPerDegreeTurn * degrees)
    requires NegatableInt32(MotorDegreesPerInch * inches)
    ensures forall i, j :: 0 <= i < j < 4 ==> Turn(degrees, direction, velocity)[i].motor != Turn(degrees, direction, velocity)[j].motor
    ensures forall i, j :: 0 <= i < j < 4 ==> Drive(inches, direction, velocity)[i].motor != Drive(inches, direction, velocity)[j].motor
    ensures forall i :: 0 <= i < 4 ==> (Turn(degrees, direction, velocity)[i].waitForCompletion <==> i == 3)
    ensures forall i :: 0 <= i < 4 ==> (Drive(inches, direction, velocity)[i].waitForCompletion <==> i == 3)
  {
  }

  /** Turning left is turning right with every target negated. */
  lemma TurnLeftMirrorsRight(degrees: int, velocity: int, i: nat)
    requires NegatableInt32(MotorDegreesPerDegreeTurn * degrees)
    requires i < 4
    ensures Turn(degrees, "left", velocity)[i].degrees == -Turn(degrees, "right", velocity)[i].degrees
    ensures Turn(degrees, "left", velocity)[i].motor == Turn(degrees, "right", velocity)[i].motor
  {
  }

  /** Only "left" changes a turn: every other direction string turns right. */
  lemma TurnDirectionOtherThanLeftIsRight(degrees: int, direction: string, velocity: int)
    requires NegatableInt32(MotorDegreesPerDegreeTurn * degrees)
    requires direction != "left"
    ensures Turn(degrees, direction, velocity) == Turn(degrees, "right", velocity)
  {
  }

  /** Driving forward and then back by the same distance brings every motor
      back to where it started; every direction but "rev" drives forward. */
  lemma DriveThereAndBack(inches: int, direction: string, velocity: int, i: nat)
    requires NegatableInt32(MotorDegreesPerInch * inches)
    requires direction != "rev"
    requires i < 4
    ensures Drive(inches, direction, velocity)[i].degrees + Drive(inches, "rev", velocity)[i].degrees == 0
  {
  }

  /** Because the per-degree rate is truncated, a turn of n degrees asks for
      fewer motor degrees than the measured 362 per 90 would give, and the
      shortfall grows with n: a right-angle turn loses 2 motor degrees. */
  lemma TurnUndershootsMeasurement(degrees: nat)
    requires NegatableInt32(MotorDegreesPerDegreeTurn * degrees)
    ensures Turn(degrees, "right", 100)[0].degrees * 90 <= MotorDegreesFor90DegreeTurn * degrees
    ensures MotorDegreesFor90DegreeTurn * degrees - Turn(degrees, "right", 100)[0].degrees * 90 == 2 * degrees
  {
  }

  /** Likewise for driving: 24 inches asks for 936 motor degrees where 951
      were measured, 15 short per 24 inches. */
  lemma DriveUndershootsMeasurement(inches: nat)
    requires NegatableInt32(MotorDegreesPerInch * inches)
    ensures MotorDegreesFor24Inches * inches - Drive(inches, "fwd", 100)[0].degrees * 24 == 15 * inches
  {
  }
}
