/** Arm control in one cycle of the teleoperated loop. While Up is held, R1 and
    R2 spin the arm freely; otherwise they step it up or down a ladder of
    absolute checkpoints. The arm's position is in degrees, read once per
    cycle. */
module ArmControl {

  /** Every position the arm can be sent to. */
  const Checkpoints: set<int> := {0, 200, 400, 600, 800}

  /** The checkpoints R1 can step up to. */
  const RaiseTargets: set<int> := {200, 400, 600, 800}

  /** The checkpoints R2 can step down to. */
  const LowerTargets: set<int> := {0, 200, 400, 600}

  /** The buttons that drive the arm. */
  datatype ArmButtons = ArmButtons(up: bool, r1: bool, r2: bool)

  /** What the arm motors are told in one cycle. */
  datatype ArmCommand =
    | SpinForward
    | SpinReverse
    | Stop
    | SpinToPosition(target: int)
    | NoCommand

  /** R1: go to the smallest of 200, 400, 600 and 800 that is above the arm;
      once the arm is at 800 or beyond, nothing is commanded. */
  function RaiseCommand(pos: real): (cmd: ArmCommand)
    ensures cmd.SpinToPosition? <==> pos < 800.0
    ensures !cmd.SpinToPosition? ==> cmd == NoCommand
    ensures cmd.SpinToPosition? ==>
              cmd.target in RaiseTargets && pos < cmd.target as real
              && forall c :: c in RaiseTargets && pos < c as real ==> cmd.target <= c
  {
    if pos < 200.0 then SpinToPosition(200)
    else if pos < 400.0 then SpinToPosition(400)
    else if pos < 600.0 then SpinToPosition(600)
    else if pos < 800.0 then SpinToPosition(800)
    else NoCommand
  }

  /** R2: go one level below the highest checkpoint at or under the arm, that
      is, to the checkpoint in (pos - 400, pos - 200]; from 800 or beyond the
      target is 600. Below 200 nothing is commanded. */
  function LowerCommand(pos: real): (cmd: ArmCommand)
    ensures cmd.SpinToPosition? <==> pos >= 200.0
    ensures !cmd.SpinToPosition? ==> cmd == NoCommand
    ensures cmd.SpinToPosition? ==> cmd.target in LowerTargets && (cmd.target as real) < pos
    ensures 200.0 <= pos < 800.0 ==> pos - 400.0 < cmd.target as real <= pos - 200.0
    ensures pos >= 800.0 ==> cmd == SpinToPosition(600)
  {
    if pos >= 800.0 then SpinToPosition(600)
    else if pos >= 600.0 then SpinToPosition(400)
    else if pos >= 400.0 then SpinToPosition(200)
    else if pos >= 200.0 then SpinToPosition(0)
    else NoCommand
  }

  /** The arm command of one cycle. Without Up, R1 steps the arm up the
      ladder and R2 (without R1) steps it down; with Up, they spin it freely.
      R1 takes precedence over R2 in both modes; with neither held the arm is
      stopped. */
  function ArmStep(buttons: ArmButtons, pos: real): (cmd: ArmCommand)
    ensures !buttons.up && buttons.r1 ==> cmd == RaiseCommand(pos)
    ensures !buttons.up && !buttons.r1 && buttons.r2 ==> cmd == LowerCommand(pos)
    ensures cmd.SpinToPosition? ==> cmd.target in Checkpoints
    ensures cmd.SpinToPosition? ==> !buttons.up && (buttons.r1 || buttons.r2)
    ensures cmd == SpinForward <==> buttons.up && buttons.r1
    ensures cmd == SpinReverse <==> buttons.up && !buttons.r1 && buttons.r2
    ensures cmd == Stop <==> !buttons.r1 && !buttons.r2
    ensures cmd == NoCommand <==>
              !buttons.up && ((buttons.r1 && pos >= 800.0) || (!buttons.r1 && buttons.r2 && pos < 200.0))
  {
    if buttons.up then
      if buttons.r1 then SpinForward
      else if buttons.r2 then SpinReverse
      else Stop
    else
      if buttons.r1 then RaiseCommand(pos)
      else if buttons.r2 then LowerCommand(pos)
      else Stop
  }

  /** From a checkpoint below the top, R1 then R2 comes back to where it began. */
  lemma RaiseThenLowerReturns(c: int)
    requires c in {0, 200, 400, 600}
    ensures RaiseCommand(c as real) == SpinToPosition(c + 200)
    ensures LowerCommand((c + 200) as real) == SpinToPosition(c)
  {
  }

  /** From a checkpoint above the bottom, R2 then R1 comes back to where it began. */
  lemma LowerThenRaiseReturns(c: int)
    requires c in {200, 400, 600, 800}
    ensures LowerCommand(c as real) == SpinToPosition(c - 200)
    ensures RaiseCommand((c - 200) as real) == SpinToPosition(c)
  {
  }

  /** Between checkpoints the two directions are not mirror images: R1 goes to
      the nearest of 200, 400, 600 and 800 above the arm, while R2 passes over the nearest checkpoint
      below (from 650 it goes to 400, not 600). */
  lemma LowerSkipsNearestCheckpointBetweenLevels(pos: real)
    requires 200.0 < pos < 800.0
    requires forall c :: c in Checkpoints ==> c as real != pos
    ensures exists c :: c in Checkpoints && LowerCommand(pos).target < c && (c as real) < pos
  {
  }
}
