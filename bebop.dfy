/** The Parrot Bebop drone's control glue (libbebop/bebop.cc): joystick
    dispatch, the piloting commands, and the connect and disconnect waits
    over the device's state updates. Every call into the ARSDK is recorded
    as a `DroneCall` in the order it is made; the device's state updates
    arrive as a sequence. */
module Bebop {
  import opened Wrappers
  import opened JoystickWindows

  /** `eARCONTROLLER_DEVICE_STATE`. */
  datatype DeviceState = Stopped | Starting | Running | Paused | Stopping

  /** The ARSDK calls the glue makes, with their arguments. A flight event
      is a call of the flight-event handler identified by `handler`. */
  datatype DroneCall =
    | DeviceStart
    | DeviceStop
    | PilotingTakeOff
    | PilotingLanding
    | PcmdPitch(percent: int)
    | PcmdRoll(percent: int)
    | PcmdYaw(percent: int)
    | PcmdGaz(percent: int)
    | PcmdFlag(flag: int)
    | StreamingVideoEnable(enable: int)
    | MaxRotationSpeed(degreesPerSecond: real)
    | MaxVerticalSpeed(metresPerSecond: real)
    | MaxTilt(degrees: real)
    | FlightEvent(handler: nat, takingOff: bool)

  /** Why `connect` fails: the first state after STARTING was not RUNNING,
      or the updates ran out while the drone was still starting. */
  datatype ConnectError = CouldNotConnect(state: DeviceState) | StillStarting

  // -----------------------------------------------------------------------
  // Piloting values

  /** `std::min(1, std::max(-1, v))`. */
  function Cap(v: real): (c: real)
    ensures -1.0 <= c <= 1.0
    ensures -1.0 <= v <= 1.0 ==> c == v
    ensures v > 1.0 ==> c == 1.0
    ensures v < -1.0 ==> c == -1.0
  {
    if v > 1.0 then 1.0 else if v < -1.0 then -1.0 else v
  }

  /** `round`: to the nearest integer, halves away from zero. */
  function Round(x: real): (r: int)
    ensures x - 0.5 <= r as real <= x + 0.5
    ensures x >= 0.0 ==> r >= 0
    ensures x >= 0.0 ==> x - 0.5 < r as real
    ensures x < 0.0 ==> r as real < x + 0.5
  {
    if x >= 0.0 then (x + 0.5).Floor else -((-x + 0.5).Floor)
  }

  /** The piloting percentage sent for a value: `round(cap(v) * 100)`. */
  function Percent(v: real): (p: int)
    ensures -100 <= p <= 100
    ensures v >= 1.0 ==> p == 100
    ensures v <= -1.0 ==> p == -100
    ensures -0.5 <= p as real - Cap(v) * 100.0 <= 0.5
    ensures Cap(v) >= 0.0 ==> Cap(v) * 100.0 - 0.5 < p as real
    ensures Cap(v) < 0.0 ==> p as real < Cap(v) * 100.0 + 0.5
  {
    Round(Cap(v) * 100.0)
  }

  /** Caps and rounding treat both directions alike. */
  lemma PercentIsOdd(v: real)
    ensures Percent(-v) == -Percent(v)
  {
    assert Cap(-v) == -Cap(v);
    var x := Cap(v) * 100.0;
    assert Cap(-v) * 100.0 == -x;
    if x < 0.0 {
      assert Round(-x) == (-x + 0.5).Floor;
    }
  }

  /** A larger stick value never gives a smaller percentage. */
  lemma PercentIsMonotone(u: real, v: real)
    requires u <= v
    ensures Percent(u) <= Percent(v)
  {
    var x, y := Cap(u) * 100.0, Cap(v) * 100.0;
    assert x <= y;
    if 0.0 <= x {
      FloorIsMonotone(x + 0.5, y + 0.5);
    } else if y < 0.0 {
      FloorIsMonotone(-y + 0.5, -x + 0.5);
    }
  }

  lemma FloorIsMonotone(a: real, b: real)
    requires a <= b
    ensures a.Floor <= b.Floor
  {
  }

  // -----------------------------------------------------------------------
  // The calls each operation makes

  /** `setPitch`: then the PCMD flag. */
  function PitchCalls(v: real): seq<DroneCall> { [PcmdPitch(Percent(v)), PcmdFlag(1)] }
  /** `setRoll`: then the PCMD flag. */
  function RollCalls(v: real): seq<DroneCall> { [PcmdRoll(Percent(v)), PcmdFlag(1)] }
  /** `setVerticalSpeed`: no flag. */
  function VerticalSpeedCalls(v: real): seq<DroneCall> { [PcmdGaz(Percent(v))] }
  /** `setYawSpeed`: no flag. */
  function YawSpeedCalls(v: real): seq<DroneCall> { [PcmdYaw(Percent(v))] }

  /** `stopMoving`: pitch, roll, yaw speed and vertical speed, in order. */
  function StopMovingCalls(): seq<DroneCall>
  {
    PitchCalls(0.0) + RollCalls(0.0) + YawSpeedCalls(0.0) + VerticalSpeedCalls(0.0)
  }

  /** `takeOff` / `land`: the command, then the handler if one is set. */
  function FlightCalls(command: DroneCall, handler: Option<nat>, takingOff: bool): seq<DroneCall>
  {
    [command] + if handler.Some? then [FlightEvent(handler.value, takingOff)] else []
  }

  /** `onAxisEvent`: the calls for an axis event; no calls means the event
      was not handled. */
  function AxisCalls(axis: Axis, value: real): seq<DroneCall>
  {
    match axis
    case RightStickHorizontal => RollCalls(value)
    case RightStickVertical => PitchCalls(-value)
    case LeftStickVertical => VerticalSpeedCalls(-value)
    case LeftTrigger => YawSpeedCalls(-value)
    case RightTrigger => YawSpeedCalls(value)
    case LeftStickHorizontal => []
  }

  /** `onButtonEvent`: A takes off and B lands, on presses only. */
  function ButtonCalls(button: Button, pressed: bool, handler: Option<nat>): seq<DroneCall>
  {
    if !pressed then []
    else match button
      case A => FlightCalls(PilotingTakeOff, handler, true)
      case B => FlightCalls(PilotingLanding, handler, false)
      case _ => []
  }

  /** `stopMoving` sends zero on all four piloting axes and nothing else. */
  lemma StopMovingIsAllZero()
    ensures StopMovingCalls() == [PcmdPitch(0), PcmdFlag(1), PcmdRoll(0), PcmdFlag(1), PcmdYaw(0), PcmdGaz(0)]
  {
    assert Percent(0.0) == 0;
  }

  /** Each handled axis drives exactly one piloting axis, with the signs
      `onAxisEvent` gives: roll follows the right stick, pitch and vertical
      speed are inverted, and the two triggers yaw in opposite directions. */
  lemma AxisMapping(value: real)
    ensures AxisCalls(RightStickHorizontal, value)[0] == PcmdRoll(Percent(value))
    ensures AxisCalls(RightStickVertical, value)[0] == PcmdPitch(-Percent(value))
    ensures AxisCalls(LeftStickVertical, value) == [PcmdGaz(-Percent(value))]
    ensures AxisCalls(LeftTrigger, value) == [PcmdYaw(-Percent(value))]
    ensures AxisCalls(RightTrigger, value) == [PcmdYaw(Percent(value))]
    ensures AxisCalls(LeftStickHorizontal, value) == []
  {
    PercentIsOdd(value);
  }

  /** Pulling the left trigger yaws exactly as far left as the same pull on
      the right trigger yaws right. */
  lemma TriggersYawOpposite(value: real)
    ensures AxisCalls(LeftTrigger, value)[0].percent == -AxisCalls(RightTrigger, value)[0].percent
  {
    PercentIsOdd(value);
  }

  /** Releases are never handled; of the presses only A and B are, and they
      send take-off and landing, followed by the handler's call with true
      for take-off and false for landing when a handler is set. */
  lemma ButtonMapping(button: Button, pressed: bool, handler: Option<nat>)
    ensures !pressed ==> ButtonCalls(button, pressed, handler) == []
    ensures pressed && button == A ==> ButtonCalls(button, pressed, handler)[0] == PilotingTakeOff
    ensures pressed && button == B ==> ButtonCalls(button, pressed, handler)[0] == PilotingLanding
    ensures pressed && (button == A || button == B) ==>
              var calls := ButtonCalls(button, pressed, handler);
              (handler.Some? <==> |calls| == 2) &&
              (handler.Some? ==> calls[1] == FlightEvent(handler.value, button == A))
    ensures button != A && button != B ==> ButtonCalls(button, pressed, handler) == []
  {
  }

  // -----------------------------------------------------------------------
  // Waiting on state updates

  /** The `do … while (state == waiting)` loop of `connect` and
      `disconnect`: consume updates until one differs from `waiting`. If
      the updates run out first, there is no final state. */
  method WaitPast(updates: seq<DeviceState>, waiting: DeviceState)
    returns (final: Option<DeviceState>, consumed: nat)
    ensures consumed <= |updates|
    ensures forall k :: 0 <= k < consumed - (if final.Some? then 1 else 0) ==> updates[k] == waiting
    ensures final.Some? ==> 1 <= consumed && final.value == updates[consumed - 1] && final.value != waiting
    ensures final.None? ==> consumed == |updates|
  {
    consumed := 0;
    while consumed < |updates|
      invariant consumed <= |updates|
      invariant forall k :: 0 <= k < consumed ==> updates[k] == waiting
    {
      var state := updates[consumed];
      consumed := consumed + 1;
      if state != waiting {
        return Some(state), consumed;
      }
    }
    return None, consumed;
  }

  /** The first update that differs from `waiting`, as a reference for
      what `WaitPast` finds. */
  function FirstOther(updates: seq<DeviceState>, waiting: DeviceState): (r: Option<nat>)
    ensures r.Some? ==> r.value < |updates| && updates[r.value] != waiting &&
                        forall k :: 0 <= k < r.value ==> updates[k] == waiting
    ensures r.None? ==> forall k :: 0 <= k < |updates| ==> updates[k] == waiting
  {
    if |updates| == 0 then None
    else if updates[0] != waiting then Some(0)
    else match FirstOther(updates[1..], waiting)
      case None => None
      case Some(i) => Some(i + 1)
  }

  /** A prefix of `waiting` updates followed by a different one pins down
      the first other update. */
  lemma FirstOtherAt(updates: seq<DeviceState>, waiting: DeviceState, i: nat)
    requires i < |updates| && updates[i] != waiting
    requires forall k :: 0 <= k < i ==> updates[k] == waiting
    ensures FirstOther(updates, waiting) == Some(i)
  {
  }

  /** The outcome of `connect` on a sequence of state updates. */
  function ConnectResult(updates: seq<DeviceState>): Result<(), ConnectError>
  {
    match FirstOther(updates, Starting)
    case None => Err(StillStarting)
    case Some(i) => if updates[i] == Running then Ok(()) else Err(CouldNotConnect(updates[i]))
  }

  /** `connect` succeeds exactly when the updates are some STARTING ones
      followed by RUNNING, and otherwise reports the state that ended the
      wait. */
  lemma ConnectSucceedsIff(updates: seq<DeviceState>)
    ensures ConnectResult(updates).Ok? <==>
              exists i :: 0 <= i < |updates| && updates[i] == Running &&
                          forall k :: 0 <= k < i ==> updates[k] == Starting
    ensures ConnectResult(updates) == Err(StillStarting) <==>
              forall k :: 0 <= k < |updates| ==> updates[k] == Starting
  {
    if exists i :: 0 <= i < |updates| && updates[i] == Running &&
                   forall k :: 0 <= k < i ==> updates[k] == Starting {
      var i :| 0 <= i < |updates| && updates[i] == Running &&
               forall k :: 0 <= k < i ==> updates[k] == Starting;
      FirstOtherAt(updates, Starting, i);
    }
  }

  /** How `disconnect` ends: no device, STOPPED, another state (a printed
      warning, never an error), or the updates ran out while stopping. */
  datatype DisconnectOutcome = NoDevice | Disconnected | Warned(state: DeviceState) | StillStopping

  /** The outcome of `disconnect` on a sequence of state updates. */
  function DisconnectResult(hasDevice: bool, updates: seq<DeviceState>): DisconnectOutcome
  {
    if !hasDevice then NoDevice
    else match FirstOther(updates, Stopping)
      case None => StillStopping
      case Some(i) => if updates[i] == Stopped then Disconnected else Warned(updates[i])
  }

  /** Without a device `disconnect` does nothing; with one, it ends in
      STOPPED exactly when the first update after the STOPPING ones is
      STOPPED. */
  lemma DisconnectIff(hasDevice: bool, updates: seq<DeviceState>)
    ensures !hasDevice ==> DisconnectResult(hasDevice, updates) == NoDevice
    ensures hasDevice ==>
              (DisconnectResult(hasDevice, updates) == Disconnected <==>
                 exists i :: 0 <= i < |updates| && updates[i] == Stopped &&
                             forall k :: 0 <= k < i ==> updates[k] == Stopping)
  {
    if hasDevice && exists i :: 0 <= i < |updates| && updates[i] == Stopped &&
                                forall k :: 0 <= k < i ==> updates[k] == Stopping {
      var i :| 0 <= i < |updates| && updates[i] == Stopped &&
               forall k :: 0 <= k < i ==> updates[k] == Stopping;
      FirstOtherAt(updates, Stopping, i);
    }
  }

  /** The wait loop finds the reference's first other update. */
  lemma WaitPastFindsFirstOther(updates: seq<DeviceState>, waiting: DeviceState,
                                final: Option<DeviceState>, consumed: nat)
    requires consumed <= |updates|
    requires forall k :: 0 <= k < consumed - (if final.Some? then 1 else 0) ==> updates[k] == waiting
    requires final.Some? ==> 1 <= consumed && final.value == updates[consumed - 1] && final.value != waiting
    requires final.None? ==> consumed == |updates|
    ensures final.Some? ==> FirstOther(updates, waiting) == Some(consumed - 1)
    ensures final.None? ==> FirstOther(updates, waiting).None?
  {
    if final.Some? {
      FirstOtherAt(updates, waiting, consumed - 1);
    }
  }

  // -----------------------------------------------------------------------
  // The drone

  /** `Bebop`: whether the controller device exists, the flight-event
      handler (if any), the user's speed limits and every ARSDK call so far. */
  class Drone {
    var hasDevice: bool
    var flightEventHandler: Option<nat>
    var maxYawSpeed: real
    var maxVerticalSpeed: real
    var maxTilt: real
    var calls: seq<DroneCall>

    /** The constructor up to `connect`: the device exists and the user's
        limits are stored. */
    constructor (maxYawSpeed: real, maxVerticalSpeed: real, maxTilt: real)
      ensures hasDevice && flightEventHandler.None? && calls == []
      ensures this.maxYawSpeed == maxYawSpeed && this.maxVerticalSpeed == maxVerticalSpeed && this.maxTilt == maxTilt
    {
      hasDevice := true;
      flightEventHandler := None;
      this.maxYawSpeed := maxYawSpeed;
      this.maxVerticalSpeed := maxVerticalSpeed;
      this.maxTilt := maxTilt;
      calls := [];
    }

    /** `connect`: start the device, wait past STARTING, fail unless the
        drone is RUNNING, then send the three speed limits. */
    method Connect(updates: seq<DeviceState>) returns (r: Result<(), ConnectError>)
      modifies this
      ensures r == ConnectResult(updates)
      ensures calls == old(calls) + [DeviceStart] +
                       (if r.Ok? then [MaxRotationSpeed(maxYawSpeed), MaxVerticalSpeed(maxVerticalSpeed), MaxTilt(maxTilt)] else [])
      ensures hasDevice == old(hasDevice) && flightEventHandler == old(flightEventHandler)
      ensures maxYawSpeed == old(maxYawSpeed) && maxVerticalSpeed == old(maxVerticalSpeed) && maxTilt == old(maxTilt)
    {
      calls := calls + [DeviceStart];
      var final, consumed := WaitPast(updates, Starting);
      WaitPastFindsFirstOther(updates, Starting, final, consumed);
      if final.None? {
        return Err(StillStarting);
      }
      if final.value != Running {
        return Err(CouldNotConnect(final.value));
      }
      calls := calls + [MaxRotationSpeed(maxYawSpeed)];
      calls := calls + [MaxVerticalSpeed(maxVerticalSpeed)];
      calls := calls + [MaxTilt(maxTilt)];
      r := Ok(());
    }

    /** `disconnect`: with a device, stop it and wait past STOPPING; a final
        state other than STOPPED is only a warning. */
    method Disconnect(updates: seq<DeviceState>) returns (outcome: DisconnectOutcome)
      modifies this
      ensures outcome == DisconnectResult(old(hasDevice), updates)
      ensures calls == old(calls) + if old(hasDevice) then [DeviceStop] else []
      ensures hasDevice == old(hasDevice) && flightEventHandler == old(flightEventHandler)
      ensures maxYawSpeed == old(maxYawSpeed) && maxVerticalSpeed == old(maxVerticalSpeed) && maxTilt == old(maxTilt)
    {
      if !hasDevice {
        return NoDevice;
      }
      calls := calls + [DeviceStop];
      var final, consumed := WaitPast(updates, Stopping);
      WaitPastFindsFirstOther(updates, Stopping, final, consumed);
      if final.None? {
        return StillStopping;
      }
      if final.value != Stopped {
        return Warned(final.value);
      }
      return Disconnected;
    }

    /** `takeOff`. */
    method TakeOff()
      modifies this
      ensures calls == old(calls) + FlightCalls(PilotingTakeOff, flightEventHandler, true)
      ensures hasDevice == old(hasDevice) && flightEventHandler == old(flightEventHandler)
      ensures maxYawSpeed == old(maxYawSpeed) && maxVerticalSpeed == old(maxVerticalSpeed) && maxTilt == old(maxTilt)
    {
      calls := calls + [PilotingTakeOff];
      if flightEventHandler.Some? {
        calls := calls + [FlightEvent(flightEventHandler.value, true)];
      }
    }

    /** `land`. */
    method Land()
      modifies this
      ensures calls == old(calls) + FlightCalls(PilotingLanding, flightEventHandler, false)
      ensures hasDevice == old(hasDevice) && flightEventHandler == old(flightEventHandler)
      ensures maxYawSpeed == old(maxYawSpeed) && maxVerticalSpeed == old(maxVerticalSpeed) && maxTilt == old(maxTilt)
    {
      calls := calls + [PilotingLanding];
      if flightEventHandler.Some? {
        calls := calls + [FlightEvent(flightEventHandler.value, false)];
      }
    }

    /** `setFlightEventHandler`. */
    method SetFlightEventHandler(handler: Option<nat>)
      modifies this
      ensures flightEventHandler == handler && calls == old(calls) && hasDevice == old(hasDevice)
      ensures maxYawSpeed == old(maxYawSpeed) && maxVerticalSpeed == old(maxVerticalSpeed) && maxTilt == old(maxTilt)
    {
      flightEventHandler := handler;
    }

    /** The four piloting setters. */
    method SetPitch(pitch: real)
      modifies this
      ensures calls == old(calls) + PitchCalls(pitch)
      ensures hasDevice == old(hasDevice) && flightEventHandler == old(flightEventHandler)
      ensures maxYawSpeed == old(maxYawSpeed) && maxVerticalSpeed == old(maxVerticalSpeed) && maxTilt == old(maxTilt)
    {
      calls := calls + [PcmdPitch(Round(Cap(pitch) * 100.0))];
      calls := calls + [PcmdFlag(1)];
    }

    method SetRoll(right: real)
      modifies this
      ensures calls == old(calls) + RollCalls(right)
      ensures hasDevice == old(hasDevice) && flightEventHandler == old(flightEventHandler)
      ensures maxYawSpeed == old(maxYawSpeed) && maxVerticalSpeed == old(maxVerticalSpeed) && maxTilt == old(maxTilt)
    {
      calls := calls + [PcmdRoll(Round(Cap(right) * 100.0))];
      calls := calls + [PcmdFlag(1)];
    }

    method SetVerticalSpeed(up: real)
      modifies this
      ensures calls == old(calls) + VerticalSpeedCalls(up)
      ensures hasDevice == old(hasDevice) && flightEventHandler == old(flightEventHandler)
      ensures maxYawSpeed == old(maxYawSpeed) && maxVerticalSpeed == old(maxVerticalSpeed) && maxTilt == old(maxTilt)
    {
      calls := calls + [PcmdGaz(Round(Cap(up) * 100.0))];
    }

    method SetYawSpeed(right: real)
      modifies this
      ensures calls == old(calls) + YawSpeedCalls(right)
      ensures hasDevice == old(hasDevice) && flightEventHandler == old(flightEventHandler)
      ensures maxYawSpeed == old(maxYawSpeed) && maxVerticalSpeed == old(maxVerticalSpeed) && maxTilt == old(maxTilt)
    {
      calls := calls + [PcmdYaw(Round(Cap(right) * 100.0))];
    }

    /** `stopMoving`. */
    method StopMoving()
      modifies this
      ensures calls == old(calls) + StopMovingCalls()
      ensures hasDevice == old(hasDevice) && flightEventHandler == old(flightEventHandler)
      ensures maxYawSpeed == old(maxYawSpeed) && maxVerticalSpeed == old(maxVerticalSpeed) && maxTilt == old(maxTilt)
    {
      SetPitch(0.0);
      SetRoll(0.0);
      SetYawSpeed(0.0);
      SetVerticalSpeed(0.0);
    }

    /** `stopStreaming`. */
    method StopStreaming()
      modifies this
      ensures calls == old(calls) + [StreamingVideoEnable(0)]
      ensures hasDevice == old(hasDevice) && flightEventHandler == old(flightEventHandler)
      ensures maxYawSpeed == old(maxYawSpeed) && maxVerticalSpeed == old(maxVerticalSpeed) && maxTilt == old(maxTilt)
    {
      calls := calls + [StreamingVideoEnable(0)];
    }

    /** `onAxisEvent`. */
    method OnAxisEvent(axis: Axis, value: real) returns (handled: bool)
      modifies this
      ensures calls == old(calls) + AxisCalls(axis, value)
      ensures handled <==> AxisCalls(axis, value) != []
      ensures hasDevice == old(hasDevice) && flightEventHandler == old(flightEventHandler)
      ensures maxYawSpeed == old(maxYawSpeed) && maxVerticalSpeed == old(maxVerticalSpeed) && maxTilt == old(maxTilt)
    {
      match axis
      case RightStickHorizontal =>
        SetRoll(value);
        return true;
      case RightStickVertical =>
        SetPitch(-value);
        return true;
      case LeftStickVertical =>
        SetVerticalSpeed(-value);
        return true;
      case LeftTrigger =>
        SetYawSpeed(-value);
        return true;
      case RightTrigger =>
        SetYawSpeed(value);
        return true;
      case LeftStickHorizontal =>
        return false;
    }

    /** `onButtonEvent`. */
    method OnButtonEvent(button: Button, pressed: bool) returns (handled: bool)
      modifies this
      ensures calls == old(calls) + ButtonCalls(button, pressed, flightEventHandler)
      ensures handled <==> pressed && (button == A || button == B)
      ensures hasDevice == old(hasDevice) && flightEventHandler == old(flightEventHandler)
      ensures maxYawSpeed == old(maxYawSpeed) && maxVerticalSpeed == old(maxVerticalSpeed) && maxTilt == old(maxTilt)
    {
      if !pressed {
        return false;
      }
      match button
      case A =>
        TakeOff();
        return true;
      case B =>
        Land();
        return true;
      case _ =>
        return false;
    }

    /** The destructor: land, stop streaming, disconnect, in that order. */
    method Destroy(updates: seq<DeviceState>) returns (outcome: DisconnectOutcome)
      modifies this
      ensures outcome == DisconnectResult(old(hasDevice), updates)
      ensures calls == old(calls) + FlightCalls(PilotingLanding, flightEventHandler, false) +
                       [StreamingVideoEnable(0)] + (if old(hasDevice) then [DeviceStop] else [])
      ensures hasDevice == old(hasDevice) && flightEventHandler == old(flightEventHandler)
      ensures maxYawSpeed == old(maxYawSpeed) && maxVerticalSpeed == old(maxVerticalSpeed) && maxTilt == old(maxTilt)
    {
      Land();
      StopStreaming();
      outcome := Disconnect(updates);
    }
  }
}
