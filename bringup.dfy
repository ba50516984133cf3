/**
 * The start-up sequence of the main task, as a record of steps.  The
 * subsystems whose construction is modelled append their own creation step
 * when they are built, so the order of the record is the order of the
 * constructions.
 */
module Bringup {
  import opened LightsSubsystem

  /** What the main task does, in order, before it enters the control loop. */
  datatype Step =
    | CreateRadio
    | DeleteRadio
    | DeleteTask
    | StartNetworkTable
    | CreateDrivetrain
    | CreateLights
    | CreateBattery
    | StartPingTimer
    | SetRingIndicatorPattern(left: LightMode, right: LightMode)
    | CreateDriverstation
    | CreateXbox

  /** The steps taken so far. */
  class StepLog {
    var steps: seq<Step>

    constructor ()
      ensures steps == []
    {
      steps := [];
    }

    method Record(s: Step)
      modifies this
      ensures steps == old(steps) + [s]
    {
      steps := steps + [s];
    }
  }
}
