/** One cycle of the teleoperated loop: the drive commands for the
    configuration in force, the intake and arm commands for the buttons held,
    and the configuration carried into the next cycle. */
module UserControl {
  import opened Robot
  import DriveDispatch
  import ArmControl

  /** What the chain intake is told in one cycle. */
  datatype IntakeCommand = IntakeForward | IntakeReverse | IntakeStop

  /** L1 runs the intake forward, L2 (without L1) in reverse, neither stops it. */
  function IntakeStep(l1: bool, l2: bool): (cmd: IntakeCommand)
    ensures cmd == IntakeForward <==> l1
    ensures cmd == IntakeReverse <==> !l1 && l2
    ensures cmd == IntakeStop <==> !l1 && !l2
  {
    if l1 then IntakeForward
    else if l2 then IntakeReverse
    else IntakeStop
  }

  /** The controller buttons read in one cycle (B only clears the brain's
      screen and is not part of the model). */
  datatype Buttons = Buttons(x: bool, l1: bool, l2: bool, up: bool, r1: bool, r2: bool)

  datatype CycleOutput = CycleOutput(
    drive: seq<DriveDispatch.SpinCommand>,
    intake: IntakeCommand,
    arm: ArmControl.ArmCommand,
    nextConfig: string)

  /** One cycle. `config` is the configuration in force, which the motor
      check chose; `rechecked` is what the motor check would return if it ran
      now. It is only taken when X is held, and then only for the next cycle:
      this cycle has already driven with `config`. */
  function Cycle(config: string, rechecked: string, buttons: Buttons, armPosition: real): (out: CycleOutput)
    requires config in Configs && rechecked in Configs
    ensures out.drive == DriveDispatch.DriveCommands(config)
    ensures out.nextConfig == (if buttons.x then rechecked else config)
    ensures out.nextConfig in Configs
    ensures out.intake == IntakeStep(buttons.l1, buttons.l2)
    ensures out.arm == ArmControl.ArmStep(ArmControl.ArmButtons(buttons.up, buttons.r1, buttons.r2), armPosition)
    ensures out.arm.SpinToPosition? ==> out.arm.target in ArmControl.Checkpoints
  {
    CycleOutput(
      DriveDispatch.DriveCommands(config),
      IntakeStep(buttons.l1, buttons.l2),
      ArmControl.ArmStep(ArmControl.ArmButtons(buttons.up, buttons.r1, buttons.r2), armPosition),
      if buttons.x then rechecked else config)
  }

  /** Of two cycles in a row, the second drives with the configuration the
      motor check returned in the first exactly when X was held in the first;
      otherwise it keeps the configuration it had. */
  lemma SecondCycleDrivesWith(config: string, rechecked1: string, buttons1: Buttons, pos1: real,
                              rechecked2: string, buttons2: Buttons, pos2: real)
    requires config in Configs && rechecked1 in Configs && rechecked2 in Configs
    ensures Cycle(Cycle(config, rechecked1, buttons1, pos1).nextConfig, rechecked2, buttons2, pos2).drive
            == DriveDispatch.DriveCommands(if buttons1.x then rechecked1 else config)
  {
  }
}
