/**
 * The main task: start-up in a fixed order with an early exit when the radio
 * does not come up, then the control loop, which on every tick either drives
 * with the latest command or stops, as the command input is connected or not.
 *
 * The command input's connection state and its forward and rotation values
 * are inputs of each tick; the infinite loop is modelled on a finite sequence
 * of ticks.
 */
module MainTask {
  import opened DrivetrainSubsystem
  import opened LightsSubsystem
  import BatterySubsystem
  import Control
  import opened Bringup

  /** main.cpp's Pattern has the same six values as lights.cpp's LightMode. */
  type Pattern = LightMode

  /** Whether a step brings up a subsystem or an input. */
  predicate Creates(s: Step)
  {
    s.StartNetworkTable? || s.CreateDrivetrain? || s.CreateLights? || s.CreateBattery? || s.CreateDriverstation? || s.CreateXbox?
  }

  /** What main_task does once the radio and the network table are up, before the control loop. */
  function SubsystemSteps(): seq<Step>
  {
    [CreateDrivetrain, CreateLights, CreateBattery, StartPingTimer, SetRingIndicatorPattern(Alt1, Alt2),
     CreateDriverstation, CreateXbox]
  }

  /** The start-up sequence for a radio that did or did not initialise. */
  function StartupSteps(radioInitialized: bool): (steps: seq<Step>)
    ensures !radioInitialized ==> forall i :: 0 <= i < |steps| ==> !Creates(steps[i])
    ensures !radioInitialized ==> |steps| > 0 && steps[|steps| - 1] == DeleteTask
    ensures radioInitialized ==> exists d, s, x ::
      0 <= d < s < x < |steps| && steps[d] == CreateDrivetrain && steps[s] == CreateDriverstation && steps[x] == CreateXbox
  {
    if !radioInitialized then [CreateRadio, DeleteRadio, DeleteTask]
    else
      var steps := [CreateRadio, StartNetworkTable] + SubsystemSteps();
      assert steps[2] == CreateDrivetrain && steps[7] == CreateDriverstation && steps[8] == CreateXbox;
      steps
  }

  /** One tick's reading of the command input. */
  datatype TickInput = TickInput(connected: bool, forward: real, rotation: real)

  /** The arbitration of a tick: drive with the command while connected, otherwise stop. */
  function Arbitrate(input: TickInput): MotionCall
  {
    if input.connected then Drive(input.forward, input.rotation) else Stop
  }

  /** The status pattern a tick selects: Blink while connected, On otherwise. */
  function StatusFor(connected: bool): Pattern
  {
    if connected then Blink else On
  }

  /** The motion calls of a run of ticks, tick by tick. */
  function Calls(inputs: seq<TickInput>): (calls: seq<MotionCall>)
    ensures |calls| == |inputs|
  {
    if inputs == [] then [] else Calls(inputs[..|inputs| - 1]) + [Arbitrate(inputs[|inputs| - 1])]
  }

  /** Each tick makes exactly one motion call, decided by that tick's input alone. */
  lemma {:induction false} CallsAt(inputs: seq<TickInput>, k: nat)
    requires k < |inputs|
    ensures Calls(inputs)[k] == Arbitrate(inputs[k])
  {
    var n := |inputs| - 1;
    if k < n {
      CallsAt(inputs[..n], k);
    }
  }

  /** Two runs whose k-th ticks read the same input make the same k-th motion call, whatever came before. */
  lemma NoMemory(a: seq<TickInput>, b: seq<TickInput>, k: nat)
    requires k < |a| && k < |b| && a[k] == b[k]
    ensures Calls(a)[k] == Calls(b)[k]
  {
    CallsAt(a, k);
    CallsAt(b, k);
  }

  /** A live command followed by a disconnected tick: the second tick stops instead of replaying the command. */
  lemma FailsafePrecedence(forward: real, rotation: real, stale: real)
    ensures Calls([TickInput(true, forward, rotation), TickInput(false, stale, stale)]) == [Drive(forward, rotation), Stop]
  {
    var inputs := [TickInput(true, forward, rotation), TickInput(false, stale, stale)];
    assert inputs[..1] == [TickInput(true, forward, rotation)];
    assert inputs[..1][..0] == [];
    assert Calls(inputs[..1]) == [Drive(forward, rotation)];
  }

  /** The subsystems the main task created and the state of its control loop. */
  class Rover {
    const drivetrain: Drivetrain
    const battery: BatterySubsystem.Battery
    const driverstation: Control.Driverstation
    var statusPattern: Pattern

    ghost predicate Valid()
      reads this, drivetrain, drivetrain.left, drivetrain.right, drivetrain.left.Repr, drivetrain.right.Repr
    {
      drivetrain.Valid()
    }

    constructor (drivetrain: Drivetrain, battery: BatterySubsystem.Battery, driverstation: Control.Driverstation)
      requires drivetrain.Valid()
      ensures Valid()
      ensures this.drivetrain == drivetrain && this.battery == battery && this.driverstation == driverstation
      ensures statusPattern == Off
    {
      this.drivetrain := drivetrain;
      this.battery := battery;
      this.driverstation := driverstation;
      statusPattern := Off;
    }

    /** One iteration of the control loop. */
    method Tick(input: TickInput)
      requires Valid()
      modifies this, drivetrain, drivetrain.Repr
      ensures Valid()
      ensures drivetrain.calls == old(drivetrain.calls) + [Arbitrate(input)]
      ensures statusPattern == StatusFor(input.connected)
      ensures input.connected ==>
        var ws := WheelTargets(drivetrain.kinematics, drivetrain.trackWidth, input.forward, input.rotation);
        drivetrain.Speeds() == [ws.left, ws.left, ws.left, ws.right, ws.right, ws.right]
      ensures !input.connected ==> drivetrain.Speeds() == [0.0, 0.0, 0.0, 0.0, 0.0, 0.0]
    {
      if input.connected {
        drivetrain.Drive(input.forward, input.rotation);
        statusPattern := Blink;
      } else {
        drivetrain.Stop();
        statusPattern := On;
      }
    }

    /** The control loop over a finite run of ticks. */
    method Run(inputs: seq<TickInput>)
      requires Valid()
      modifies this, drivetrain, drivetrain.Repr
      ensures Valid()
      ensures drivetrain.calls == old(drivetrain.calls) + Calls(inputs)
      ensures inputs != [] ==> statusPattern == StatusFor(inputs[|inputs| - 1].connected)
      ensures inputs != [] && !inputs[|inputs| - 1].connected ==> drivetrain.Speeds() == [0.0, 0.0, 0.0, 0.0, 0.0, 0.0]
    {
      var i := 0;
      while i < |inputs|
        invariant 0 <= i <= |inputs|
        invariant Valid()
        invariant drivetrain.calls == old(drivetrain.calls) + Calls(inputs[..i])
        invariant i > 0 ==> statusPattern == StatusFor(inputs[i - 1].connected)
        invariant i > 0 && !inputs[i - 1].connected ==> drivetrain.Speeds() == [0.0, 0.0, 0.0, 0.0, 0.0, 0.0]
      {
        Tick(inputs[i]);
        assert inputs[..i + 1][..i] == inputs[..i];
        i := i + 1;
      }
      assert inputs[..i] == inputs;
    }
  }

  /** new Battery() followed by startPingTimer(). */
  method StartBattery(log: StepLog, pingPin: nat, pingTimerDelayMs: nat) returns (battery: BatterySubsystem.Battery)
    modifies log
    ensures log.steps == old(log.steps) + [CreateBattery, StartPingTimer]
    ensures fresh(battery) && battery.Valid() && battery.pingTimerRunning
  {
    battery := new BatterySubsystem.Battery(pingPin, pingTimerDelayMs, log);
    battery.StartPingTimer();
    log.Record(StartPingTimer);
  }

  /** The subsystems and inputs of main_task, created in order once the radio and the network table are up. */
  method CreateSubsystems(log: StepLog, kinematics: KinematicsLibrary, codec: Control.Codec,
                          timeoutMs: nat, pingPin: nat, pingTimerDelayMs: nat)
    returns (rover: Rover)
    modifies log
    ensures log.steps == old(log.steps) + SubsystemSteps()
    ensures fresh(rover) && rover.Valid() && rover.drivetrain.calls == [Stop]
    ensures rover.drivetrain.Speeds() == [0.0, 0.0, 0.0, 0.0, 0.0, 0.0]
    ensures rover.battery.Valid() && rover.battery.pingTimerRunning
    ensures rover.driverstation.Valid() && rover.driverstation.clients == map[]
  {
    var drivetrain := new Drivetrain(kinematics, log);
    log.Record(CreateLights);
    var battery := StartBattery(log, pingPin, pingTimerDelayMs);
    log.Record(SetRingIndicatorPattern(Alt1, Alt2));
    var driverstation := new Control.Driverstation(timeoutMs, codec, log);
    log.Record(CreateXbox);
    rover := new Rover(drivetrain, battery, driverstation);
  }

  /**
   * main_task up to the control loop, recording its steps in a log that the
   * drivetrain, battery and driver-station constructors append to themselves.
   * When the radio fails the task ends without creating anything else;
   * otherwise the drivetrain exists, stopped, before the driver station and
   * the command input are created.
   */
  method Startup(radioInitialized: bool, kinematics: KinematicsLibrary, codec: Control.Codec,
                 timeoutMs: nat, pingPin: nat, pingTimerDelayMs: nat)
    returns (steps: seq<Step>, rover: Rover?)
    ensures steps == StartupSteps(radioInitialized)
    ensures rover == null <==> !radioInitialized
    ensures rover != null ==>
      && fresh(rover) && rover.Valid() && rover.drivetrain.calls == [Stop]
      && rover.drivetrain.Speeds() == [0.0, 0.0, 0.0, 0.0, 0.0, 0.0]
      && rover.battery.Valid() && rover.battery.pingTimerRunning
      && rover.driverstation.Valid() && rover.driverstation.clients == map[]
  {
    var log := new StepLog();
    log.Record(CreateRadio);
    if !radioInitialized {
      log.Record(DeleteRadio);
      log.Record(DeleteTask);
      return log.steps, null;
    }
    log.Record(StartNetworkTable);
    assert log.steps == [CreateRadio, StartNetworkTable];
    rover := CreateSubsystems(log, kinematics, codec, timeoutMs, pingPin, pingTimerDelayMs);
    steps := log.steps;
  }
}
