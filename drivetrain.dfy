/**
 * The drivetrain: two differential modules of three ganged motors each, and
 * the differential-drive kinematics that turn a chassis command into the two
 * wheel speeds.  The kinematics library is not part of this model, so its two
 * operations are function values the drivetrain is built with.  Speeds are
 * reals: the library's single-precision Units<float> is not modelled.
 */
module DrivetrainSubsystem {
  import Bringup

  /** The track width and the largest wheel speed, in meters (14.5 in and 1 m). */
  const ROBOT_WHEEL_DISTANCE: real := 0.3683
  const ROBOT_MAX_SPEED: real := 1.0
  /** 4.75 in, in meters. */
  const WHEEL_DIAMETER: real := 0.12065

  datatype ChassisSpeeds = ChassisSpeeds(vx: real, vy: real, omega: real)
  datatype WheelSpeeds = WheelSpeeds(left: real, right: real)

  /** DifferentialDriveKinematics::toWheelSpeeds (on the configured track width) and DifferentialDriveWheelSpeeds::normalize. */
  datatype KinematicsLibrary = KinematicsLibrary(
    toWheelSpeeds: (real, ChassisSpeeds) -> WheelSpeeds,
    normalize: (WheelSpeeds, real) -> WheelSpeeds)

  /** The two motor pins of each of a module's three motors, and its wheel diameter. */
  datatype ModuleConfig = ModuleConfig(
    frontPinCW: nat, frontPinCCW: nat,
    centerPinCW: nat, centerPinCCW: nat,
    backPinCW: nat, backPinCCW: nat,
    wheelDiameter: real)

  const LEFT_CONSTANTS: ModuleConfig := ModuleConfig(18, 17, 13, 14, 19, 20, WHEEL_DIAMETER)
  const RIGHT_CONSTANTS: ModuleConfig := ModuleConfig(12, 11, 21, 22, 16, 15, WHEEL_DIAMETER)

  /** A call the drivetrain receives from the main task. */
  datatype MotionCall = Drive(forward: real, rotation: real) | Stop

  /** The wheel speeds drive(v, w) commands: the normalized kinematics of (v, 0, w). */
  function WheelTargets(lib: KinematicsLibrary, trackWidth: real, speed: real, rotation: real): WheelSpeeds
  {
    lib.normalize(lib.toWheelSpeeds(trackWidth, ChassisSpeeds(speed, 0.0, rotation)), ROBOT_MAX_SPEED)
  }

  /** A motor driver (its library is not part of this model): the last speed set, and whether it was deleted. */
  class Motor {
    const pinCW: nat
    const pinCCW: nat
    var speed: real
    var released: bool

    /** The speed a new motor holds is not specified. */
    constructor (pinCW: nat, pinCCW: nat)
      ensures this.pinCW == pinCW && this.pinCCW == pinCCW && !released
    {
      this.pinCW, this.pinCCW := pinCW, pinCCW;
      released := false;
    }

    method Set(value: real)
      requires !released
      modifies this
      ensures speed == value && !released
    {
      speed := value;
    }

    /** delete: no further command can reach the motor, and it keeps its last speed. */
    method Release()
      modifies this
      ensures released && speed == old(speed)
    {
      released := true;
    }
  }

  class DifferentialModule {
    const motorFront: Motor
    const motorCenter: Motor
    const motorBack: Motor
    /** The pins and wheel diameter the module was built on. */
    const config: ModuleConfig
    const wheelDiameter: real
    ghost const Repr: set<object>

    ghost predicate Valid()
      reads this, Repr
    {
      && Repr == {motorFront, motorCenter, motorBack}
      && motorFront != motorCenter && motorCenter != motorBack && motorFront != motorBack
      && !motorFront.released && !motorCenter.released && !motorBack.released
      && Wired()
    }

    /** Each motor is on the pins the configuration names for its position. */
    predicate Wired()
    {
      && motorFront.pinCW == config.frontPinCW && motorFront.pinCCW == config.frontPinCCW
      && motorCenter.pinCW == config.centerPinCW && motorCenter.pinCCW == config.centerPinCCW
      && motorBack.pinCW == config.backPinCW && motorBack.pinCCW == config.backPinCCW
    }

    /** The three motors hold the same speed s. */
    ghost predicate AllAt(s: real)
      reads this, Repr
      requires Valid()
    {
      motorFront.speed == s && motorCenter.speed == s && motorBack.speed == s
    }

    /** Creates the three motors and stops them. */
    constructor (config: ModuleConfig)
      ensures Valid() && fresh(Repr) && AllAt(0.0)
      ensures this.config == config && wheelDiameter == config.wheelDiameter
    {
      motorFront := new Motor(config.frontPinCW, config.frontPinCCW);
      motorCenter := new Motor(config.centerPinCW, config.centerPinCCW);
      motorBack := new Motor(config.backPinCW, config.backPinCCW);
      this.config := config;
      wheelDiameter := config.wheelDiameter;
      Repr := {motorFront, motorCenter, motorBack};
      new;
      Stop();
    }

    /** Forwards the same speed to every motor of the group. */
    method SetDesiredState(speed: real)
      requires Valid()
      modifies Repr
      ensures Valid() && AllAt(speed)
    {
      motorFront.Set(speed);
      motorCenter.Set(speed);
      motorBack.Set(speed);
    }

    /** Sets every motor to 0, whatever was commanded before. */
    method Stop()
      requires Valid()
      modifies Repr
      ensures Valid() && AllAt(0.0)
    {
      motorFront.Set(0.0);
      motorCenter.Set(0.0);
      motorBack.Set(0.0);
    }

    /** ~DifferentialModule(): stops every motor, then deletes it. */
    method Destroy()
      requires Valid()
      modifies Repr
      ensures motorFront.released && motorCenter.released && motorBack.released
      ensures motorFront.speed == 0.0 && motorCenter.speed == 0.0 && motorBack.speed == 0.0
    {
      Stop();
      motorFront.Release();
      motorCenter.Release();
      motorBack.Release();
    }
  }

  class Drivetrain {
    const kinematics: KinematicsLibrary
    const trackWidth: real
    const left: DifferentialModule
    const right: DifferentialModule
    ghost const Repr: set<object>
    /** The drive and stop calls received so far. */
    ghost var calls: seq<MotionCall>

    ghost predicate Valid()
      reads this, left, right, left.Repr, right.Repr
    {
      && Repr == left.Repr + right.Repr
      && left.Repr !! right.Repr
      && left.Valid() && right.Valid()
    }

    /** The six motor speeds: left front, center, back, then right front, center, back. */
    ghost function Speeds(): seq<real>
      reads this, left, right, left.Repr, right.Repr
      requires Valid()
    {
      [left.motorFront.speed, left.motorCenter.speed, left.motorBack.speed,
       right.motorFront.speed, right.motorCenter.speed, right.motorBack.speed]
    }

    /** Builds the kinematics on ROBOT_WHEEL_DISTANCE and the two modules, then stops; the creation is recorded in log. */
    constructor (lib: KinematicsLibrary, log: Bringup.StepLog)
      modifies log
      ensures log.steps == old(log.steps) + [Bringup.CreateDrivetrain]
      ensures Valid() && fresh(Repr) && calls == [MotionCall.Stop]
      ensures kinematics == lib && trackWidth == ROBOT_WHEEL_DISTANCE
      ensures Speeds() == [0.0, 0.0, 0.0, 0.0, 0.0, 0.0]
      ensures left.config == LEFT_CONSTANTS && right.config == RIGHT_CONSTANTS
    {
      kinematics := lib;
      trackWidth := ROBOT_WHEEL_DISTANCE;
      var l := new DifferentialModule(LEFT_CONSTANTS);
      var r := new DifferentialModule(RIGHT_CONSTANTS);
      left, right := l, r;
      Repr := l.Repr + r.Repr;
      calls := [];
      new;
      Stop();
      log.Record(Bringup.CreateDrivetrain);
    }

    /** Sends each side the speed of the normalized kinematics of (speed, 0, rotation). */
    method Drive(speed: real, rotation: real)
      requires Valid()
      modifies this, Repr
      ensures Valid() && calls == old(calls) + [MotionCall.Drive(speed, rotation)]
      ensures var ws := WheelTargets(kinematics, trackWidth, speed, rotation);
        Speeds() == [ws.left, ws.left, ws.left, ws.right, ws.right, ws.right]
    {
      var ws := WheelTargets(kinematics, trackWidth, speed, rotation);
      left.SetDesiredState(ws.left);
      right.SetDesiredState(ws.right);
      calls := calls + [MotionCall.Drive(speed, rotation)];
    }

    /** drive(0, 0) and then an explicit stop of both sides: all six motors end at 0, whatever the kinematics gives for (0, 0). */
    method Stop()
      requires Valid()
      modifies this, Repr
      ensures Valid() && Speeds() == [0.0, 0.0, 0.0, 0.0, 0.0, 0.0]
      ensures calls == old(calls) + [MotionCall.Stop]
    {
      ghost var before := calls;
      Drive(0.0, 0.0);
      left.Stop();
      right.Stop();
      calls := before + [MotionCall.Stop];
    }

    /** ~Drivetrain(): stops, then deletes both modules, each of which stops its motors before deleting them. */
    method Destroy()
      requires Valid()
      modifies this, Repr
      ensures calls == old(calls) + [MotionCall.Stop]
      ensures forall m :: m in Repr && m is Motor ==> (m as Motor).released && (m as Motor).speed == 0.0
    {
      Stop();
      left.Destroy();
      right.Destroy();
    }
  }
}
