# pico-rover motion and link supervision, modelled in Dafny

This project models the core of the pico-rover firmware, the onboard controller
of a small six-wheeled rover.

- **Driver-station link** (`driverstation.dfy`, module `Control`). The WebSocket
  driver station keeps a table from client Guid to two alarm ids: a pending
  pong timeout and a ping interval. The table changes on connect, pong and
  disconnect, and when one of the two alarm callbacks fires. The model keeps the
  table as a `map` in the class `Driverstation`. Beside it are an alarm service
  (a counter handing out fresh positive ids and the map of armed alarms, each
  tagged with the callback it runs) and an outbox of the calls made to the
  server. The invariant `AlarmsConsistent` says every nonzero id sits in one
  table slot only. With it, an alarm left behind by an erased or re-pinged
  client fires without effect. `SessionOf` reads each client's heartbeat state
  (awaiting pong, healthy, expired) off its armed alarms. Every event's
  postcondition says how that state moves. Subprotocol negotiation, WebSocket
  opcode dispatch (opcodes of RFC 6455, section 5.2) and the one-byte packet-tag
  dispatch are pure functions.
- **Drivetrain** (`drivetrain.dfy`). There are two differential modules with
  three ganged motors each. A motor is an object holding its last speed and
  whether it was deleted. The kinematics library's `toWheelSpeeds` and
  `normalize` are function values that the drivetrain is built with; they stay
  uninterpreted. The drivetrain keeps a ghost log of the drive and stop calls it
  receives.
- **Main task** (`main.dfy`, with the step log in `bringup.dfy`). `Startup`
  models start-up in a fixed order, with an early exit when the radio fails.
  The drivetrain, battery and driver-station constructors append their own
  creation step to the log, so the recorded order is the order of construction.
  `Rover.Tick` is one iteration of the control loop: drive while the command
  input is connected, stop otherwise. `Rover.Run` runs the loop over a finite
  sequence of ticks.
- **Lights** (`lights.dfy`). The brightness level for each light mode is computed
  from a 32-bit microsecond timestamp in uint32 arithmetic and then converted to
  `uint16_t`. The class `LightModes` holds the two static modes.
- **Battery heartbeat** (`battery.dfy`). A guarded repeating timer pulses the
  ping pin low for 100 ms. Every GPIO and timer call is recorded in order. The
  invariant ties the `pingTimerRunning` flag to the number of timers the record
  leaves registered.

Inputs that come from outside are parameters:

- the current time (`now`, the timestamp of the lights);
- whether the radio initialised;
- each tick's connection state and its forward and rotation values;
- configuration constants that are not in `include/config/options.h`:
  `DRIVERSTATION_TIMEOUT_MS`, `DRIVERSTATION_PROTOCOL`, the battery's ping pin
  and timer period, and the packed `ROBOT_PROPERTIES`.

Behaviour of the timer bookkeeping and the dispatch worth knowing:

- A transport disconnect cancels only the client's pong timeout, not its ping
  interval (`src/control/driverstation.cpp:71`). In the model the leftover alarm
  later fires and matches no client.
- A pong does not cancel the previous ping-interval alarm, and `ping` does not
  cancel an earlier pong timeout. In the model, where every id is fresh, such
  stale alarms are harmless (`Control.Driverstation.Fire`).
- Fragments, and frames whose opcode is neither text nor binary (continuation,
  close, ping, pong), get no reply (`Control.ControlFramesUnanswered`). A text
  frame gets an explicit reply. An empty binary payload gets no reply.
- `OneDeadline` (no client has both a pong timeout and a ping interval armed)
  holds after every event except a connect under a Guid already in the table.
  `ClientConnected` states that exception.

## Model

| member | source | states |
|---|---|---|
| `Control.Find` | src/control/driverstation.cpp:58 | the index std::find returns: the first position holding the name, or the length when the name is absent |
| `Control.NegotiateProtocol` | src/control/driverstation.cpp:56-62 | the driver-station protocol is chosen when the client requests it, and the empty name when it does not |
| `Control.HandleFrame` | src/control/driverstation.cpp:119-155 | an empty payload gets no reply and any other payload exactly one; an unknown tag gets "Unsupported frame received."; a ClockSync decode error gets "Error unpacking: " plus the message; a ClockSync reply is tag 0 then the packed (request clientTime, current time); a RobotProperties reply is tag 1 then the packed properties; every binary reply starts with the request's tag |
| `Control.MessageReceived` | src/control/driverstation.cpp:81-101 | fragments and opcodes other than text and binary get no reply; a text frame gets exactly the not-supported text; a binary frame gets what handleFrame gives |
| `Control.ControlFramesUnanswered` | src/control/driverstation.cpp:98-99 | continuation, close, ping and pong frames (RFC 6455 opcodes 0x0, 0x8, 0x9, 0xA) get no reply |
| `Control.ClockSyncRoundTrip` | src/control/driverstation.cpp:126-142 | a decoder that inverts the response encoder reads back the request's clientTime and the server time from a ClockSync reply |
| `Control.UnknownTagIgnoresBody` | src/control/driverstation.cpp:151-153 | a frame with an unknown tag is never parsed: its reply depends on the tag alone |
| `Control.FindByAlarm` | src/control/driverstation.cpp:23-25 | the linear scan returns a client whose slot of the given purpose holds the id, or none when no client's does |
| `Control.ReplaceEntry` | src/control/driverstation.cpp:112-117 | rewriting one client's entry with a fresh alarm (as ping and pong do) keeps every nonzero id in one slot and in agreement with its armed purpose, and leaves the other clients' alarms armed as before |
| `Control.RemoveEntry` | src/control/driverstation.cpp:68-72 | cancelling a client's pong timeout and erasing it keeps the alarm bookkeeping consistent and leaves the other clients' alarms armed as before |
| `Control.Driverstation.constructor` | src/control/driverstation.cpp:52-55 | the table starts empty, with no alarm armed and nothing sent; its creation is recorded as the next start-up step |
| `Control.Driverstation.Ping` | src/control/driverstation.cpp:112-117 | sends a ping to g; g's entry has the freshly armed pong timeout and keeps its ping-interval id, or 0 for a new entry; g is then awaiting pong; no other entry or other client's state changes |
| `Control.Driverstation.ClientConnected` | src/control/driverstation.cpp:64-66 | connecting pings the client at once with one fresh pong-timeout alarm, leaving it awaiting pong |
| `Control.Driverstation.ClientDisconnected` | src/control/driverstation.cpp:68-72 | cancels only g's pong timeout and erases g; every other entry and the outbox are unchanged |
| `Control.Driverstation.PongReceived` | src/control/driverstation.cpp:74-79 | cancels g's pong timeout; g's entry, inserted if absent, becomes {0, a fresh ping-interval alarm of the timeout length}; g is healthy; other clients are unaffected |
| `Control.Driverstation.MessageReceivedFrom` | src/control/driverstation.cpp:81-101 | the reply the opcode dispatch selects, if any, is sent to the sender and nothing else is sent |
| `Control.Driverstation.TimeoutAlarmCallback` | src/control/driverstation.cpp:18-33 | the client whose pong timeout is the id is asked to disconnect, and no other call is made; an id matching no client sends nothing; returns 0 |
| `Control.Driverstation.PingIntervalCallback` | src/control/driverstation.cpp:35-50 | the client whose ping interval is the id is pinged with one fresh pong-timeout alarm; an id matching no client changes nothing, the alarm counter included; returns 0 |
| `Control.Driverstation.Fire` | src/control/driverstation.cpp:18-50 | a fired alarm is disarmed and not rescheduled; a pong timeout disconnects its client and leaves it expired; a ping interval re-pings its client; a stale id changes nothing else; the one-deadline-per-client property is preserved |
| `DrivetrainSubsystem.DifferentialModule.constructor` | src/subsystems/drivetrain.cpp:14-20 | creates the three motors, each on the pins its position has in the given configuration, records that configuration, and leaves all three at 0, without any prior setDesiredState |
| `DrivetrainSubsystem.DifferentialModule.SetDesiredState` | src/subsystems/drivetrain.cpp:30-35 | the front, center and back motors all hold the commanded speed |
| `DrivetrainSubsystem.DifferentialModule.Stop` | src/subsystems/drivetrain.cpp:37-42 | all three motors are at 0 whatever they held before |
| `DrivetrainSubsystem.DifferentialModule.Destroy` | src/subsystems/drivetrain.cpp:22-28 | every motor is deleted with speed 0; a deleted motor accepts no command, so the stop came first |
| `DrivetrainSubsystem.Drivetrain.constructor` | src/subsystems/drivetrain.cpp:44-49 | builds the kinematics on the wheel distance, the left module on the left pin set and the right module on the right pin set, and leaves all six motors at 0 after one stop call; its creation is recorded as the next start-up step |
| `DrivetrainSubsystem.Drivetrain.Drive` | src/subsystems/drivetrain.cpp:59-66 | the left motors hold the left and the right motors the right wheel speed of normalize(toWheelSpeeds(v, 0, w), ROBOT_MAX_SPEED); the call is logged once |
| `DrivetrainSubsystem.Drivetrain.Stop` | src/subsystems/drivetrain.cpp:68-73 | all six motors end at 0 from any starting state, whatever the kinematics returns for (0, 0); hence a second stop leaves the motors as the first did; the call is logged once, as a stop |
| `DrivetrainSubsystem.Drivetrain.Destroy` | src/subsystems/drivetrain.cpp:51-57 | every motor of both modules is deleted while at speed 0, after one stop call |
| `MainTask.StartupSteps` | src/main.cpp:44-65 | when the radio fails, nothing is created and the task ends; otherwise the drivetrain is created before the driver station and the command input |
| `MainTask.Startup` | src/main.cpp:44-65 | the steps recorded while constructing, the subsystems' own creation steps included, are exactly those steps; on radio failure no rover exists; otherwise the drivetrain has received one stop and is at 0, the battery ping timer runs and the driver-station table is empty when the loop is entered |
| `MainTask.CreateSubsystems` | src/main.cpp:57-65 | constructs the drivetrain, lights, battery, ring pattern, driver station and command input, and the log grows by exactly those seven steps in that order |
| `MainTask.StartBattery` | src/main.cpp:59-60 | the battery records its creation, then the ping timer is started and recorded; it runs afterwards |
| `MainTask.Rover.Tick` | src/main.cpp:72-81 | a connected tick drives with the command and selects Blink; a disconnected tick leaves all six motors at 0 and selects On; the drivetrain receives exactly one call per tick, the arbitrated one |
| `MainTask.Rover.Run` | src/main.cpp:69-81 | the calls the drivetrain receives during the loop are the tick-by-tick arbitration of its inputs; after a disconnected last tick every motor is at 0 |
| `MainTask.Calls` | src/main.cpp:69-81 | a run of ticks makes exactly one motion call per tick |
| `MainTask.CallsAt` | src/main.cpp:72-81 | the k-th motion call is decided by the k-th tick's input alone |
| `MainTask.NoMemory` | src/main.cpp:72-81 | two runs whose k-th inputs agree make the same k-th call, whatever earlier ticks read |
| `MainTask.FailsafePrecedence` | src/main.cpp:72-81 | a live command followed by a disconnected tick gives a stop, not the stale command |
| `LightsSubsystem.RunLevel` | src/subsystems/lights.cpp:39-90 | every level handed to the PWM stage fits uint16_t, so the conversion never truncates |
| `LightsSubsystem.RampFitsHalfRange` | src/subsystems/lights.cpp:55-59 | the pulse ramp never exceeds 62500 and its unsigned subtraction from PULSE_LENGTH never wraps |
| `LightsSubsystem.OffAndOnLevels` | src/subsystems/lights.cpp:43-52 | Off gives level 0 and On gives 0xFFFF |
| `LightsSubsystem.PulseIsTriangle` | src/subsystems/lights.cpp:53-61 | with c = t mod 2000000, Pulse gives c/16 below 1000000 and (2000000-c)/16 from there on, always within 0..62500 |
| `LightsSubsystem.PulseSymmetric` | src/subsystems/lights.cpp:55-59 | the pulse reads the same at c and at 2000000-c |
| `LightsSubsystem.Alt1IsPulse` | src/subsystems/lights.cpp:71-79 | Alt1 gives exactly the Pulse level |
| `LightsSubsystem.Alt2IsInvertedPulse` | src/subsystems/lights.cpp:80-88 | Alt2 gives 62500 minus the Pulse level; the unsigned subtraction never underflows, so Alt2 stays within 0..62500 |
| `LightsSubsystem.BlinkLevels` | src/subsystems/lights.cpp:62-70 | with c = t mod 1000000, Blink gives 0xFFFF below 250000 and 0 otherwise |
| `LightsSubsystem.PulseRestartsAtWrap` | src/subsystems/lights.cpp:55 | when the 32-bit timestamp wraps, the pulse jumps from 60455 to 0 |
| `LightsSubsystem.LightModes.constructor` | src/subsystems/lights.cpp:21-22 | both lights start Off |
| `LightsSubsystem.LightModes.Set` | src/subsystems/lights.cpp:131-142 | setting the left light changes only leftMode, and setting the right light only rightMode |
| `BatterySubsystem.ActiveTimersAppend` | src/subsystems/battery.cpp:18-38 | the number of registered repeating timers of a call record is the sum over its parts |
| `BatterySubsystem.Battery.constructor` | src/subsystems/battery.cpp:5-10 | the ping pin is initialised as an output and driven high, and no timer is registered; its creation is recorded as the next start-up step |
| `BatterySubsystem.Battery.StartPingTimer` | src/subsystems/battery.cpp:18-29 | when not running, sets the flag and registers exactly one repeating timer; when running, changes nothing; exactly one timer is registered afterwards |
| `BatterySubsystem.Battery.StopPingTimer` | src/subsystems/battery.cpp:31-38 | when running, clears the flag and cancels the timer; when not running, changes nothing; no timer is registered afterwards |
| `BatterySubsystem.Battery.RepeatingTimerCallback` | src/subsystems/battery.cpp:23-27 | each expiry pings once and returns true, so the timer keeps repeating |
| `BatterySubsystem.Battery.Ping` | src/subsystems/battery.cpp:47-51 | drives the pin low and arms one 100 ms one-shot alarm |
| `BatterySubsystem.Battery.PingEnd` | src/subsystems/battery.cpp:40-45 | drives the pin high and returns 0, so the alarm does not repeat |
| `BatterySubsystem.Battery.Destroy` | src/subsystems/battery.cpp:12-16 | stops the timer, so that no timer is registered when the pin is deinitialised |

## Left out

- The WebSocket server, the UDP socket and the pico alarm and repeating-timer API are foreign libraries. Their calls are recorded (`Outbound`, `Effect`) or modelled abstractly (`AddAlarmInMs`, `CancelAlarm`). Every alarm request is assumed to succeed with a fresh positive id. Alarm ids are unbounded, so the wrap of the SDK's id counter and its reuse of the id of an alarm that has ended are not modelled. In the program, a fired id stays in a slot: the ping interval of a client that `PingIntervalCallback` re-pinged, and both slots of an expired client. After reuse, two consequences the model cannot show follow. Such a slot can match another client's new alarm in either alarm callback. And `clientDisconnected`'s `cancel_alarm` on a pong timeout that has already fired (src/control/driverstation.cpp:71) can cancel another client's alarm.
- msgpack packing and unpacking are the function values of `Control.Codec`; the wire encoding is not modelled.
- `DifferentialDriveKinematics::toWheelSpeeds` and `normalize` come from `kinematics/differentialdrive.h`, which is not part of this model. They are the uninterpreted functions of `KinematicsLibrary`, so no saturation or curvature property is stated.
- `Units<float>` and all floating point are modelled as `real`. The gamma correction and PWM output of `light_subsystem_set(uint, uint16_t)` (src/subsystems/lights.cpp:31-37) are left out; the model stops at the uint16_t level.
- `animation_task`, `light_subsystem_init` and `light_subsystem_deinit` are left out. They are the FreeRTOS task loop and PWM set-up.
- Concurrency is not modelled: the FreeRTOS tasks, `vTaskDelay`, and races between alarm callbacks, server callbacks and the main loop. Events are sequential method calls.
- `src/control/udpxbox.cpp`: datagram parsing (`Control::Xbox::fromBytes`, `getAxis`) is not part of this model. `isConnected()` is defined outside the files modelled here, so each tick takes the connection state and the command as inputs.
- The `Lights` class of `include/subsystems/lights.h`, with `setRingIndicatorPattern` and the undeclared `setStatusLedPattern`, does not match lights.cpp. The main task records the ring pattern as a start-up step and keeps the status pattern as a field of `Rover`.
- `src/terminal.cpp` is an interactive debug console made of printing.
- Parts of main.cpp are left out: the network-table timing measurement, the unreachable teardown after the infinite loop, `main()`, `rtos_panic` and the stack-overflow hook.
- The Driverstation destructor only destroys the server, a foreign object.
- `Battery::getPingPin` is an accessor; the model reads the `pingPin` field instead.
- `MainTask.Rover.Run` models the infinite control loop on a finite sequence of ticks.
