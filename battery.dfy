/**
 * The battery heartbeat: a repeating timer that pulses the ping pin low for
 * 100 ms.  The pin and the timer are external resources; every call into
 * them is recorded, in order, as an Effect.
 */
module BatterySubsystem {
  import opened Wrappers
  import Bringup

  /** The length of one low pulse on the ping pin. */
  const PING_PULSE_MS: nat := 100

  /** Calls into the GPIO and timer services, in the order they are made. */
  datatype Effect =
    | GpioInit(pin: nat)
    | GpioSetDir(pin: nat, output: bool)
    | GpioPut(pin: nat, high: bool)
    | GpioDeinit(pin: nat)
    | AddRepeatingTimer(periodMs: nat)
    | CancelRepeatingTimer
    | AddAlarm(delayMs: nat)

  /** How an effect changes the number of registered repeating timers. */
  function TimerDelta(e: Effect): int
  {
    match e
    case AddRepeatingTimer(_) => 1
    case CancelRepeatingTimer => -1
    case _ => 0
  }

  /** The number of repeating timers a history of effects leaves registered. */
  function ActiveTimers(effects: seq<Effect>): int
  {
    if effects == [] then 0 else TimerDelta(effects[0]) + ActiveTimers(effects[1..])
  }

  /** Counting timers distributes over the concatenation of two histories. */
  lemma {:induction false} ActiveTimersAppend(a: seq<Effect>, b: seq<Effect>)
    ensures ActiveTimers(a + b) == ActiveTimers(a) + ActiveTimers(b)
  {
    if a == [] {
      assert a + b == b;
    } else {
      assert (a + b)[1..] == a[1..] + b;
      ActiveTimersAppend(a[1..], b);
    }
  }

  /** The level the last GpioPut of a history wrote to pin, if any. */
  function PinLevel(effects: seq<Effect>, pin: nat): Option<bool>
  {
    if effects == [] then None
    else
      var e := effects[|effects| - 1];
      if e.GpioPut? && e.pin == pin then Some(e.high)
      else PinLevel(effects[..|effects| - 1], pin)
  }

  /** An effect that does not write to pin leaves its level as it was. */
  lemma PinLevelAfterOther(effects: seq<Effect>, e: Effect, pin: nat)
    requires !(e.GpioPut? && e.pin == pin)
    ensures PinLevel(effects + [e], pin) == PinLevel(effects, pin)
  {
    assert (effects + [e])[..|effects|] == effects;
  }

  /** A write to pin decides its level. */
  lemma PinLevelAfterPut(effects: seq<Effect>, pin: nat, high: bool)
    ensures PinLevel(effects + [GpioPut(pin, high)], pin) == Some(high)
  {
  }

  class Battery {
    const pingPin: nat
    const pingTimerDelayMs: nat
    var pingTimerRunning: bool
    var pinHigh: bool
    var effects: seq<Effect>

    /** The flag tells whether exactly one repeating timer is registered, and pinHigh is the pin's last written level. */
    ghost predicate Valid()
      reads this
    {
      && ActiveTimers(effects) == (if pingTimerRunning then 1 else 0)
      && PinLevel(effects, pingPin) == Some(pinHigh)
    }

    /** Battery(): configures the ping pin as an output and drives it high; no timer yet.  The creation is recorded in log. */
    constructor (pingPin: nat, pingTimerDelayMs: nat, log: Bringup.StepLog)
      modifies log
      ensures log.steps == old(log.steps) + [Bringup.CreateBattery]
      ensures Valid()
      ensures this.pingPin == pingPin && this.pingTimerDelayMs == pingTimerDelayMs
      ensures !pingTimerRunning && pinHigh
      ensures effects == [GpioInit(pingPin), GpioSetDir(pingPin, true), GpioPut(pingPin, true)]
    {
      this.pingPin := pingPin;
      this.pingTimerDelayMs := pingTimerDelayMs;
      pingTimerRunning := false;
      pinHigh := true;
      effects := [GpioInit(pingPin), GpioSetDir(pingPin, true), GpioPut(pingPin, true)];
      new;
      assert effects[..2] == [GpioInit(pingPin), GpioSetDir(pingPin, true)];
      assert effects[..2][..1] == [GpioInit(pingPin)];
      assert effects[1..][1..] == [GpioPut(pingPin, true)];
      assert effects[1..][1..][1..] == [];
      assert ActiveTimers(effects[1..][1..]) == 0;
      log.Record(Bringup.CreateBattery);
    }

    /** Registers the repeating ping timer unless it is already running. */
    method StartPingTimer()
      requires Valid()
      modifies this
      ensures Valid() && pingTimerRunning && pinHigh == old(pinHigh)
      ensures effects == old(effects) + (if old(pingTimerRunning) then [] else [AddRepeatingTimer(pingTimerDelayMs)])
    {
      if !pingTimerRunning {
        pingTimerRunning := true;
        ActiveTimersAppend(effects, [AddRepeatingTimer(pingTimerDelayMs)]);
        PinLevelAfterOther(effects, AddRepeatingTimer(pingTimerDelayMs), pingPin);
        effects := effects + [AddRepeatingTimer(pingTimerDelayMs)];
      }
    }

    /** Cancels the repeating ping timer if it is running. */
    method StopPingTimer()
      requires Valid()
      modifies this
      ensures Valid() && !pingTimerRunning && pinHigh == old(pinHigh)
      ensures effects == old(effects) + (if old(pingTimerRunning) then [CancelRepeatingTimer] else [])
    {
      if pingTimerRunning {
        pingTimerRunning := false;
        ActiveTimersAppend(effects, [CancelRepeatingTimer]);
        PinLevelAfterOther(effects, CancelRepeatingTimer, pingPin);
        effects := effects + [CancelRepeatingTimer];
      }
    }

    /** ping(): drives the pin low and arms a one-shot alarm that ends the pulse. */
    method Ping()
      requires Valid()
      modifies this
      ensures Valid() && !pinHigh && pingTimerRunning == old(pingTimerRunning)
      ensures effects == old(effects) + [GpioPut(pingPin, false), AddAlarm(PING_PULSE_MS)]
    {
      var e := [GpioPut(pingPin, false), AddAlarm(PING_PULSE_MS)];
      ActiveTimersAppend(effects, e);
      PinLevelAfterPut(effects, pingPin, false);
      PinLevelAfterOther(effects + [e[0]], e[1], pingPin);
      assert effects + e == effects + [e[0]] + [e[1]];
      assert e[1..] == [AddAlarm(PING_PULSE_MS)] && e[1..][1..] == [];
      assert ActiveTimers(e[1..]) == 0;
      effects := effects + e;
      pinHigh := false;
    }

    /** The repeating timer's callback: one ping, and true so that the timer keeps repeating. */
    method RepeatingTimerCallback() returns (keepRepeating: bool)
      requires Valid()
      modifies this
      ensures Valid() && !pinHigh && pingTimerRunning == old(pingTimerRunning)
      ensures effects == old(effects) + [GpioPut(pingPin, false), AddAlarm(PING_PULSE_MS)]
      ensures keepRepeating
    {
      Ping();
      keepRepeating := true;
    }

    /** ping_end: the one-shot alarm's callback drives the pin high again and returns 0, so it is not rescheduled. */
    method PingEnd() returns (reschedule: int)
      requires Valid()
      modifies this
      ensures Valid() && pinHigh && pingTimerRunning == old(pingTimerRunning)
      ensures effects == old(effects) + [GpioPut(pingPin, true)]
      ensures reschedule == 0
    {
      ActiveTimersAppend(effects, [GpioPut(pingPin, true)]);
      PinLevelAfterPut(effects, pingPin, true);
      effects := effects + [GpioPut(pingPin, true)];
      pinHigh := true;
      reschedule := 0;
    }

    /** ~Battery(): stops the timer, so that none is registered when the pin is released. */
    method Destroy()
      requires Valid()
      modifies this
      ensures !pingTimerRunning
      ensures effects == old(effects) + (if old(pingTimerRunning) then [CancelRepeatingTimer] else []) + [GpioDeinit(pingPin)]
      ensures ActiveTimers(effects[..|effects| - 1]) == 0
    {
      StopPingTimer();
      ghost var beforeDeinit := effects;
      effects := effects + [GpioDeinit(pingPin)];
      assert effects[..|effects| - 1] == beforeDeinit;
    }
  }
}
