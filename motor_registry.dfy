/** The motor registry: a list of motor handles and a parallel list of their
    short names, the connectivity report built from it, and the rule that turns
    the names of the disconnected motors into a drive configuration. */
module MotorRegistry {
  import opened Robot

  /** A motor handle, identified by the smart port it is plugged into. */
  datatype Motor = Motor(port: int)

  /** Whether the brain sees a device on the motor's port; `ports` is the set of
      ports that answer at the moment of the query. */
  predicate Installed(m: Motor, ports: set<int>)
  {
    m.port in ports
  }

  /** The names of the motors that are not installed, in registration order. */
  function DisconnectedNames(motors: seq<Motor>, names: seq<string>, ports: set<int>): (d: seq<string>)
    requires |motors| == |names|
    ensures |d| <= |motors|
    decreases |motors|
  {
    if |motors| == 0 then []
    else
      var n := |motors| - 1;
      DisconnectedNames(motors[..n], names[..n], ports)
      + (if Installed(motors[n], ports) then [] else [names[n]])
  }

  /** A name is reported disconnected exactly when some motor registered under
      it is not installed. */
  lemma {:induction false} DisconnectedNamesMembership(motors: seq<Motor>, names: seq<string>, ports: set<int>, x: string)
    requires |motors| == |names|
    ensures x in DisconnectedNames(motors, names, ports)
            <==> exists i :: 0 <= i < |motors| && names[i] == x && !Installed(motors[i], ports)
    decreases |motors|
  {
    if |motors| > 0 {
      var n := |motors| - 1;
      DisconnectedNamesMembership(motors[..n], names[..n], ports, x);
      if x in DisconnectedNames(motors, names, ports) {
        if x in DisconnectedNames(motors[..n], names[..n], ports) {
          var i :| 0 <= i < n && names[..n][i] == x && !Installed(motors[..n][i], ports);
          assert names[i] == x && !Installed(motors[i], ports);
        } else {
          assert names[n] == x && !Installed(motors[n], ports);
        }
      } else {
        forall i | 0 <= i < |motors| && names[i] == x
          ensures Installed(motors[i], ports)
        {
          if i < n {
            assert names[..n][i] == x;
            assert motors[..n][i] == motors[i];
          }
        }
      }
    }
  }

  /** The drive configuration for a list of disconnected names, written as the
      source writes it: start from four-wheel drive and let each rule that
      matches overwrite the choice of the rules before it. The contract states
      the same choice as a priority list, latest rule first. */
  function ConfigFor(d: seq<string>): (config: string)
    ensures config in Configs
    ensures config == FourWheel <==> "LF" !in d && "LB" !in d && "RF" !in d && "RB" !in d
    ensures ("LB" in d || "RF" in d) ==> config == LeftFrontRightBack
    ensures "LB" !in d && "RF" !in d && "LF" in d && "RB" in d ==> config == RightFrontLeftBack
    ensures "LB" !in d && "RF" !in d && "LF" !in d && "RB" in d ==> config == FrontWheel
    ensures "LB" !in d && "RF" !in d && "LF" in d && "RB" !in d ==> config == RearWheel
  {
    var c0 := FourWheel;
    var c1 := if "LF" in d || "RF" in d then RearWheel else c0;
    var c2 := if "LB" in d || "RB" in d then FrontWheel else c1;
    var c3 := if "LF" in d && "RB" in d then RightFrontLeftBack else c2;
    if "LB" in d || "RF" in d then LeftFrontRightBack else c3
  }

  /** Only the four drive names matter: two lists that agree on which drive
      names they contain select the same configuration, whatever else (an arm
      motor, say) they report. */
  lemma ConfigIgnoresNonDriveNames(d1: seq<string>, d2: seq<string>)
    requires forall n :: n in DriveNames ==> (n in d1 <==> n in d2)
    ensures ConfigFor(d1) == ConfigFor(d2)
  {
  }

  /** Worked cases of the overwrite order: a lost left-back motor alone
      selects LFRB (the last rule beats the rear-motor rule), and losing
      left-front and right-back together selects RFLB, since the last rule
      looks only for LB and RF. */
  lemma ConfigExamples()
    ensures ConfigFor(["LF"]) == RearWheel
    ensures ConfigFor(["RB"]) == FrontWheel
    ensures ConfigFor(["LB"]) == LeftFrontRightBack
    ensures ConfigFor(["RF"]) == LeftFrontRightBack
    ensures ConfigFor(["LF", "RB"]) == RightFrontLeftBack
    ensures ConfigFor(["LA", "RA"]) == FourWheel
  {
  }

  /** Registering one more motor under a name that is not a drive name leaves
      the configuration unchanged, whether or not that motor answers. */
  lemma RegisteringNonDriveMotorKeepsConfig(motors: seq<Motor>, names: seq<string>, ports: set<int>,
                                                               m: Motor, name: string)
    requires |motors| == |names|
    requires name !in DriveNames
    ensures ConfigFor(DisconnectedNames(motors + [m], names + [name], ports))
            == ConfigFor(DisconnectedNames(motors, names, ports))
  {
  }

  /** The registry. `motorList` and `motorNamesList` are parallel lists: entry i
      of the second is the name of motor i of the first. */
  class MotorCollection {
    var motorList: seq<Motor>
    var motorNamesList: seq<string>

    ghost predicate Valid()
      reads this
    {
      |motorList| == |motorNamesList|
    }

    constructor ()
      ensures Valid()
      ensures motorList == [] && motorNamesList == []
    {
      motorList := [];
      motorNamesList := [];
    }

    /** Registers a motor under a name: one entry is appended to each list and
        the entries already there keep their places. */
    method AddMotor(newMotor: Motor, newMotorName: string)
      requires Valid()
      modifies this
      ensures Valid()
      ensures motorList == old(motorList) + [newMotor]
      ensures motorNamesList == old(motorNamesList) + [newMotorName]
    {
      motorList := motorList + [newMotor];
      motorNamesList := motorNamesList + [newMotorName];
    }

    /** One installed flag per registered motor, in registration order. */
    method IsConnected(ports: set<int>) returns (motorConnections: seq<bool>)
      requires Valid()
      ensures |motorConnections| == |motorList|
      ensures forall i :: 0 <= i < |motorList| ==> (motorConnections[i] <==> Installed(motorList[i], ports))
    {
      motorConnections := [];
      var i := 0;
      while i < |motorList|
        invariant 0 <= i <= |motorList|
        invariant |motorConnections| == i
        invariant forall k :: 0 <= k < i ==> (motorConnections[k] <==> Installed(motorList[k], ports))
      {
        motorConnections := motorConnections + [Installed(motorList[i], ports)];
        i := i + 1;
      }
    }

    /** Collects the names of the disconnected motors and runs the four
        overwriting rules over them. */
    method CheckMotors(ports: set<int>) returns (updatedDriveConfig: string)
      requires Valid()
      ensures updatedDriveConfig == ConfigFor(DisconnectedNames(motorList, motorNamesList, ports))
    {
      var motorConnections := IsConnected(ports);
      var disconnectedMotorNames: seq<string> := [];
      updatedDriveConfig := FourWheel;
      var i := 0;
      while i < |motorConnections|
        invariant 0 <= i <= |motorConnections|
        invariant disconnectedMotorNames == DisconnectedNames(motorList[..i], motorNamesList[..i], ports)
      {
        assert motorList[..i + 1][..i] == motorList[..i];
        assert motorNamesList[..i + 1][..i] == motorNamesList[..i];
        if !motorConnections[i] {
          disconnectedMotorNames := disconnectedMotorNames + [motorNamesList[i]];
        }
        i := i + 1;
      }
      assert motorList[..i] == motorList && motorNamesList[..i] == motorNamesList;
      if "LF" in disconnectedMotorNames || "RF" in disconnectedMotorNames {
        updatedDriveConfig := RearWheel;
      }
      if "LB" in disconnectedMotorNames || "RB" in disconnectedMotorNames {
        updatedDriveConfig := FrontWheel;
      }
      if "LF" in disconnectedMotorNames && "RB" in disconnectedMotorNames {
        updatedDriveConfig := RightFrontLeftBack;
      }
      if "LB" in disconnectedMotorNames || "RF" in disconnectedMotorNames {
        updatedDriveConfig := LeftFrontRightBack;
      }
    }
  }

  /** The motors the robot registers before the match, with their ports. */
  const LeftArmMotor := Motor(13)
  const RightArmMotor := Motor(18)
  const LeftBackMotor := Motor(5)
  const LeftFrontMotor := Motor(11)
  const RightBackMotor := Motor(10)
  const RightFrontMotor := Motor(20)

  const RobotMotors: seq<Motor> := [LeftArmMotor, RightArmMotor, LeftBackMotor, LeftFrontMotor, RightBackMotor, RightFrontMotor]
  const RobotNames: seq<string> := ["LA", "RA", "LB", "LF", "RB", "RF"]

  /** The registrations made before the match: the two arm motors, then the
      four drive motors. */
  method RegisterRobotMotors(collection: MotorCollection)
    requires collection.Valid()
    modifies collection
    ensures collection.Valid()
    ensures collection.motorList == old(collection.motorList) + RobotMotors
    ensures collection.motorNamesList == old(collection.motorNamesList) + RobotNames
  {
    collection.AddMotor(LeftArmMotor, "LA");
    collection.AddMotor(RightArmMotor, "RA");
    collection.AddMotor(LeftBackMotor, "LB");
    collection.AddMotor(LeftFrontMotor, "LF");
    collection.AddMotor(RightBackMotor, "RB");
    collection.AddMotor(RightFrontMotor, "RF");
  }

  /** On the robot's own registry the configuration depends on the four drive
      ports alone: whether the arm motors answer never changes it. */
  lemma RobotConfigIgnoresArmPorts(ports1: set<int>, ports2: set<int>)
    requires forall p :: p in {5, 11, 10, 20} ==> (p in ports1 <==> p in ports2)
    ensures ConfigFor(DisconnectedNames(RobotMotors, RobotNames, ports1))
            == ConfigFor(DisconnectedNames(RobotMotors, RobotNames, ports2))
  {
    forall n | n in DriveNames
      ensures n in DisconnectedNames(RobotMotors, RobotNames, ports1)
              <==> n in DisconnectedNames(RobotMotors, RobotNames, ports2)
    {
      DisconnectedNamesMembership(RobotMotors, RobotNames, ports1, n);
      DisconnectedNamesMembership(RobotMotors, RobotNames, ports2, n);
      var i := if n == "LB" then 2 else if n == "LF" then 3 else if n == "RB" then 4 else 5;
      assert RobotNames[i] == n;
      assert forall j :: 0 <= j < |RobotNames| && RobotNames[j] == n ==> j == i;
      assert RobotMotors[i].port in {5, 11, 10, 20};
    }
    ConfigIgnoresNonDriveNames(DisconnectedNames(RobotMotors, RobotNames, ports1),
                               DisconnectedNames(RobotMotors, RobotNames, ports2));
  }
}
