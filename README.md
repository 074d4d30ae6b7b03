# VEX V5 934Z competition firmware: drive reconfiguration, arm ladder and open-loop moves

This project models, in Dafny, the decision logic of the 934Z robot's main
program (`Competitive_Code/2024-2025/934Z_Main/src/main.cpp`) and proves
properties of it:

- **The motor registry** (`MotorRegistry`): the `MotorCollection` class keeps
  two parallel lists, motor handles and their short names. `AddMotor` appends
  to both lists. `IsConnected` reports one installed flag per motor.
  `CheckMotors` collects the names of the disconnected motors and turns them
  into one of five drive configurations (`fourWheel`, `rearWheel`,
  `frontWheel`, `RFLB`, `LFRB`) with four `if` rules, each later match
  overwriting the earlier ones. The hardware is a parameter: `ports` is the
  set of smart ports that answer at the moment of the call.
- **Drive dispatch** (`DriveDispatch`): the velocity commands one cycle of
  the teleoperated loop sends to the drive motors for a given configuration.
  Each command names a motor and the controller stick it follows.
- **The arm ladder** (`ArmControl`): with Up held, R1 and R2 spin the arm
  freely. Otherwise they step it up or down the checkpoints
  {0, 200, 400, 600, 800} degrees.
- **The open-loop moves** (`AutonMoves`): `turn` and `drive` turn a distance
  into four relative motor targets. They use per-unit constants truncated by
  integer division (362/90 = 4, 951/24 = 39).
- **One teleoperated cycle** (`UserControl`): the drive, intake and arm
  commands of one iteration, and the configuration carried to the next one.
  Holding X re-runs the motor check.

Proved, among others:

- `CheckMotors` returns the overwrite chain's result for the disconnected
  names. Stated as a priority list, the chain is:
  - LB or RF lost gives `LFRB`;
  - otherwise LF and RB lost gives `RFLB`;
  - otherwise RB gives `frontWheel`;
  - otherwise LF gives `rearWheel`;
  - otherwise `fourWheel`.
- The configuration depends only on the four drive names. Whether the arm
  motors answer never changes it.
- The selected configuration avoids every lost drive motor exactly when the
  lost motors lie on one diagonal, {LF, RB} or {LB, RF}.
- In `RFLB` mode the left stick drives the right-front motor. This is the
  only configuration that crosses sides.
- The arm is never sent outside the ladder. R1 goes to the nearest of 200,
  400, 600 and 800 above the arm (from below 0 that is 200, not 0). R2 goes
  one level below the highest checkpoint at or under the arm (from 650 it
  goes to 400), and from 800 or beyond it goes to 600.

Consequences of the rule order that are easy to miss:

- Losing only the left-back motor selects `LFRB`, not `frontWheel`. The last
  rule (main.cpp:261) also fires on LB and overwrites the rear-motor rule.
- Losing left-front and right-back together selects `RFLB`. The last rule
  looks only for LB and RF, so it does not overwrite the
  RFLB choice made at main.cpp:258-260.
- From between two checkpoints, R2 skips the nearest checkpoint below the arm
  (main.cpp:431-438).

`MotorRegistry.ConfigExamples` and
`ArmControl.LowerSkipsNearestCheckpointBetweenLevels` pin these cases down.

## Model

| member | source | states |
|---|---|---|
| `Robot.NameOf` | Competitive_Code/2024-2025/934Z_Main/src/main.cpp:291-294 | each drive motor is registered under one of the four drive names LF, LB, RF, RB |
| `Robot.NameOfInjective` | Competitive_Code/2024-2025/934Z_Main/src/main.cpp:291-294 | distinct drive motors carry distinct names |
| `MotorRegistry.DisconnectedNames` | Competitive_Code/2024-2025/934Z_Main/src/main.cpp:245-249 | the names of the uninstalled motors, in registration order, never more than there are motors |
| `MotorRegistry.DisconnectedNamesMembership` | Competitive_Code/2024-2025/934Z_Main/src/main.cpp:245-249 | a name is reported disconnected if and only if some motor registered under it is not installed |
| `MotorRegistry.ConfigFor` | Competitive_Code/2024-2025/934Z_Main/src/main.cpp:244-263 | the overwrite chain always yields one of the five configurations; fourWheel if and only if no drive name is lost; LB or RF lost gives LFRB, else LF and RB gives RFLB, else RB gives frontWheel, else LF gives rearWheel |
| `MotorRegistry.ConfigIgnoresNonDriveNames` | Competitive_Code/2024-2025/934Z_Main/src/main.cpp:250-263 | two disconnected lists that agree on the four drive names select the same configuration |
| `MotorRegistry.ConfigExamples` | Competitive_Code/2024-2025/934Z_Main/src/main.cpp:250-263 | {LF} gives rearWheel, {RB} frontWheel, {LB} and {RF} LFRB, {LF, RB} RFLB, only arm motors lost gives fourWheel |
| `MotorRegistry.RegisteringNonDriveMotorKeepsConfig` | Competitive_Code/2024-2025/934Z_Main/src/main.cpp:225-264 | registering a motor under a non-drive name never changes the selected configuration, whether or not it answers |
| `MotorRegistry.MotorCollection.constructor` | Competitive_Code/2024-2025/934Z_Main/src/main.cpp:220-223 | a new registry has two empty parallel lists |
| `MotorRegistry.MotorCollection.AddMotor` | Competitive_Code/2024-2025/934Z_Main/src/main.cpp:225-228 | exactly one entry is appended to each list; earlier entries are unchanged and the lists stay the same length |
| `MotorRegistry.MotorCollection.IsConnected` | Competitive_Code/2024-2025/934Z_Main/src/main.cpp:229-239 | one flag per registered motor; flag i is true if and only if motor i is installed |
| `MotorRegistry.MotorCollection.CheckMotors` | Competitive_Code/2024-2025/934Z_Main/src/main.cpp:241-265 | the result of the loop and the four overwriting rules is the configuration that ConfigFor assigns to the registry's disconnected names |
| `MotorRegistry.RegisterRobotMotors` | Competitive_Code/2024-2025/934Z_Main/src/main.cpp:289-294 | pre-match registration appends LA, RA, LB, LF, RB, RF with their ports, in that order |
| `MotorRegistry.RobotConfigIgnoresArmPorts` | Competitive_Code/2024-2025/934Z_Main/src/main.cpp:289-294 | on the robot's registry the configuration depends on the four drive ports only, never on the arm motors |
| `DriveDispatch.DriveCommands` | Competitive_Code/2024-2025/934Z_Main/src/main.cpp:352-373 | a two-motor configuration commands two motors, the first on Axis3 and the second on Axis2; any other string, fourWheel included, commands all four motors with the left side on Axis3 and the right side on Axis2; no motor is commanded twice |
| `DriveDispatch.TwoMotorConfigsDriveTheirPair` | Competitive_Code/2024-2025/934Z_Main/src/main.cpp:352-367 | rearWheel drives LB and RB, frontWheel LF and RF, RFLB RF and LB, LFRB LF and RB |
| `DriveDispatch.OnlyDiagonalRFLBCrossesSides` | Competitive_Code/2024-2025/934Z_Main/src/main.cpp:352-373 | the left stick drives a right-side motor if and only if the configuration is RFLB |
| `DriveDispatch.SelectionAvoidsLostMotorsIff` | Competitive_Code/2024-2025/934Z_Main/src/main.cpp:250-373 | the selected configuration commands no lost motor if and only if the lost drive motors all lie within {LF, RB} or all within {LB, RF} |
| `DriveDispatch.SingleLossIsDrivenAround` | Competitive_Code/2024-2025/934Z_Main/src/main.cpp:250-373 | with at most one drive motor lost, no lost motor is commanded |
| `DriveDispatch.BothFrontLostStillDrivesLeftFront` | Competitive_Code/2024-2025/934Z_Main/src/main.cpp:250-373 | losing LF and RF selects LFRB, which still commands the lost LF |
| `ArmControl.RaiseCommand` | Competitive_Code/2024-2025/934Z_Main/src/main.cpp:413-426 | below 800 the target is the smallest of 200, 400, 600, 800 strictly above the position; at 800 or more nothing is commanded |
| `ArmControl.LowerCommand` | Competitive_Code/2024-2025/934Z_Main/src/main.cpp:427-440 | at 200 or more the target is in {0, 200, 400, 600} and strictly below the position, the checkpoint in (pos-400, pos-200] below 800 and 600 from 800 on; below 200 nothing is commanded |
| `ArmControl.ArmStep` | Competitive_Code/2024-2025/934Z_Main/src/main.cpp:401-444 | without Up, R1 gives RaiseCommand and R2 without R1 gives LowerCommand, so R1 wins over R2; every position target lies in {0, 200, 400, 600, 800}; with Up held R1 spins forward and R2 reverse; with neither R1 nor R2 the arm stops; no command exactly when the ladder has no step in that direction |
| `ArmControl.RaiseThenLowerReturns` | Competitive_Code/2024-2025/934Z_Main/src/main.cpp:413-440 | from a checkpoint below 800, one step up and one step down returns to it |
| `ArmControl.LowerThenRaiseReturns` | Competitive_Code/2024-2025/934Z_Main/src/main.cpp:413-440 | from a checkpoint above 0, one step down and one step up returns to it |
| `ArmControl.LowerSkipsNearestCheckpointBetweenLevels` | Competitive_Code/2024-2025/934Z_Main/src/main.cpp:427-440 | from strictly between two checkpoints, R2 passes over a checkpoint that lies below the arm |
| `AutonMoves.TruncatedRate` | Competitive_Code/2024-2025/934Z_Main/src/main.cpp:56-57 | the per-unit rate is the largest integer whose multiple does not exceed the measurement |
| `AutonMoves.RatesAreTruncated` | Competitive_Code/2024-2025/934Z_Main/src/main.cpp:56-85 | the rates are 4 motor degrees per degree of turn and 39 per inch |
| `AutonMoves.Turn` | Competitive_Code/2024-2025/934Z_Main/src/main.cpp:54-70 | each of the four distinct drive motors gets d if it is a left motor and -d if it is a right motor, where d is 4 times the degrees, negated if and only if the direction is "left"; all targets fit a 32-bit int |
| `AutonMoves.Drive` | Competitive_Code/2024-2025/934Z_Main/src/main.cpp:82-98 | four distinct drive motors all get 39 times the inches, negated if and only if the direction is "rev" |
| `AutonMoves.MovesCommandEachMotorOnce` | Competitive_Code/2024-2025/934Z_Main/src/main.cpp:54-98 | each move commands the four drive motors once each and waits only on the last command |
| `AutonMoves.TurnLeftMirrorsRight` | Competitive_Code/2024-2025/934Z_Main/src/main.cpp:62-69 | a left turn sends every motor the negation of what a right turn of the same size sends it |
| `AutonMoves.TurnDirectionOtherThanLeftIsRight` | Competitive_Code/2024-2025/934Z_Main/src/main.cpp:62-65 | every direction string other than "left" gives the same commands as "right" |
| `AutonMoves.DriveThereAndBack` | Competitive_Code/2024-2025/934Z_Main/src/main.cpp:90-97 | driving forward (any direction but "rev") and then "rev" by the same distance sums to zero on every motor |
| `AutonMoves.TurnUndershootsMeasurement` | Competitive_Code/2024-2025/934Z_Main/src/main.cpp:56-60 | after truncation a turn of n degrees asks for 2n/90 fewer motor degrees than the measured 362 per 90 |
| `AutonMoves.DriveUndershootsMeasurement` | Competitive_Code/2024-2025/934Z_Main/src/main.cpp:84-88 | after truncation a drive of n inches asks for 15n/24 fewer motor degrees than the measured 951 per 24 |
| `UserControl.IntakeStep` | Competitive_Code/2024-2025/934Z_Main/src/main.cpp:390-398 | L1 runs the intake forward, L2 without L1 reverses it, and neither stops it |
| `UserControl.Cycle` | Competitive_Code/2024-2025/934Z_Main/src/main.cpp:350-447 | a cycle drives with the configuration it started with; a re-check with X only replaces the configuration for the next cycle, and the carried configuration stays one of the five; the intake and arm commands are those of IntakeStep and ArmStep for the buttons held, so the arm target stays on the ladder |
| `UserControl.SecondCycleDrivesWith` | Competitive_Code/2024-2025/934Z_Main/src/main.cpp:385-387 | the cycle after one with X held drives with the re-checked configuration, otherwise with the unchanged one |

## Left out

- The `drivePID` task and its globals (main.cpp:107-195): floating-point gains and outputs, run as a background task that sleeps.
- The `autonomous` body (main.cpp:320-333): it starts the PID task and sets globals around a sleep.
- The motor and drivetrain set-up calls in `pre_auton` (main.cpp:281-287). These are velocity, torque, timeout, braking and position-reset calls into the vendor library.
- Motor commands are returned as values. The vendor calls that carry them out (`spin`, `spinFor`, `spinToPosition`, `stop`) are not modelled.
- Screen output (main.cpp:230, 235, 379-383): the controller and brain screens, including the list of disconnected names printed by `isConnected`. Button B only clears the brain screen, so it has no place in `UserControl.Buttons`.
- `motorList[i].installed()` is called twice per motor (main.cpp:233-234). Both calls read the same port snapshot `ports`.
- `UserControl.Cycle` treats a cycle as instantaneous. `spinToPosition` is called without a wait argument (main.cpp:415-438), and if the vendor default is to wait, the cycle pauses until the arm arrives or the 5 s timeout set at main.cpp:284 expires. Meanwhile the drive motors keep their last velocities. That timing is not modelled.
- `UserControl.Cycle` reads the arm position once. The source calls `armMotors.position` again for each comparison.
- The `to_string` helper (main.cpp:300-306). It only formats a value.
- `main`, the competition callbacks and the `while (1)` polling loop with its 20 ms wait (main.cpp:346-350, 447, 455-467). The model covers one iteration's decisions, plus the hand-over of the configuration between two iterations.
- The header comment names per-motor position, velocity, torque and temperature reports. They are not implemented in this file, so they are not modelled.
- Trajectory replay, the clamp toggle and the status display are not in this file. They are not part of this model.
- DriveDispatch.DriveCommands: a command records the stick it follows, not the stick's value in percent. The value is read from hardware.
- AutonMoves.Turn, AutonMoves.Drive: both require that the truncated product and its negation fit a 32-bit `int`. Signed overflow is undefined behaviour in C++, so no result can be modelled outside that range.
