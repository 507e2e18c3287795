/** The XInput joystick reader (hid/joystick_windows.h): a button-mask
    edge detector followed by a priority-ordered axis-change detector over
    cached stick values. The controller is reached only through the
    samples it delivers, one per packet change. */
module JoystickWindows {
  import opened IntTypes
  import opened Wrappers

  /** `Button`: the controller's buttons, named by their XInput masks. */
  datatype Button =
    A | B | X | Y | LB | RB | Back | Start | LeftStick | RightStick | Left | Right | Up | Down

  /** `WORD wButtons`, zero-extended to the `unsigned int` of `read`. */
  type ButtonMask = b: bv32 | b < 0x1_0000

  /** The part of `XINPUT_STATE::Gamepad` that `read` looks at. */
  datatype ControllerSample = ControllerSample(
    buttons: ButtonMask,
    leftTrigger: u8,
    rightTrigger: u8,
    thumbLX: i16,
    thumbLY: i16,
    thumbRX: i16,
    thumbRY: i16)

  /** The axes `read` reports and their event numbers. */
  datatype Axis =
    LeftStickHorizontal | LeftStickVertical | RightStickHorizontal | RightStickVertical |
    LeftTrigger | RightTrigger
  {
    function Number(): (n: bv32)
      ensures n < 6
    {
      match this
      case LeftStickHorizontal => 0
      case LeftStickVertical => 1
      case RightStickHorizontal => 2
      case RightStickVertical => 3
      case LeftTrigger => 4
      case RightTrigger => 5
    }
  }

  /** `Event`: a button mask or an axis number, the value, and which of
      the two it is. A button value is 1 for a press and 0 for a release. */
  datatype Event = Event(number: bv32, value: int, isAxis: bool)

  /** The reader's cached state: the button mask last reported and the last
      reported value of each stick axis. */
  datatype Cache = Cache(pressed: bv32, lThumbX: int, lThumbY: int, rThumbX: int, rThumbY: int)

  /** What one sample does: report an event with the new cache, or leave
      everything as is and wait for the next sample. */
  datatype Outcome = Report(cache: Cache, event: Event) | Wait

  /** The stick values as `read` orients them: left horizontal is the
      negated Y reading, left vertical the X reading, right vertical the
      negated Y reading. */
  function LeftHorizontal(s: ControllerSample): int { -(s.thumbLY as int) }
  function LeftVertical(s: ControllerSample): int { s.thumbLX as int }
  function RightHorizontal(s: ControllerSample): int { s.thumbRX as int }
  function RightVertical(s: ControllerSample): int { -(s.thumbRY as int) }

  /** `~pressed & buttState`: the buttons set in the new mask only. With
      the buttons kept they make up the new mask. */
  function NewBits(pressed: bv32, buttState: bv32): (n: bv32)
    ensures n & pressed == 0
    ensures n | (pressed & buttState) == buttState
  {
    !pressed & buttState
  }

  /** `pressed & ~buttState`: the buttons set in the old mask only. When no
      button was newly set, removing them from the old mask gives the new
      one. */
  function ClearedBits(pressed: bv32, buttState: bv32): (n: bv32)
    ensures n & buttState == 0
    ensures !pressed & buttState == 0 ==> pressed & !n == buttState
  {
    pressed & !buttState
  }

  /** One iteration of the `read` loop on a sample, given the cache and
      the event left over from the previous call. */
  function Step(c: Cache, js: Event, s: ControllerSample): Outcome
  {
    if NewBits(c.pressed, s.buttons) != 0 then
      Report(c.(pressed := s.buttons), Event(NewBits(c.pressed, s.buttons), 1, false))
    else if ClearedBits(c.pressed, s.buttons) != 0 then
      Report(c.(pressed := s.buttons), Event(ClearedBits(c.pressed, s.buttons), 0, false))
    else
      AxisStep(c, js, s)
  }

  /** The part of the loop body reached when the button mask is unchanged:
      the first changed axis in priority order, or the trigger release. */
  function AxisStep(c: Cache, js: Event, s: ControllerSample): Outcome
  {
    if LeftHorizontal(s) != c.lThumbX then
      Report(c.(lThumbX := LeftHorizontal(s)), Event(LeftStickHorizontal.Number(), LeftHorizontal(s), true))
    else if LeftVertical(s) != c.lThumbY then
      Report(c.(lThumbY := LeftVertical(s)), Event(LeftStickVertical.Number(), LeftVertical(s), true))
    else if RightHorizontal(s) != c.rThumbX then
      Report(c.(rThumbX := RightHorizontal(s)), Event(RightStickHorizontal.Number(), RightHorizontal(s), true))
    else if RightVertical(s) != c.rThumbY then
      Report(c.(rThumbY := RightVertical(s)), Event(RightStickVertical.Number(), RightVertical(s), true))
    else if s.leftTrigger >= 1 then
      Report(c, Event(LeftTrigger.Number(), s.leftTrigger, true))
    else if s.rightTrigger >= 1 then
      Report(c, Event(RightTrigger.Number(), s.rightTrigger, true))
    else if js.number == LeftTrigger.Number() then
      Report(c, js.(value := 0))
    else if js.number == RightTrigger.Number() then
      Report(c, js.(value := 0))
    else
      Wait
  }

  /** The reader. The controller handle and packet polling are not modelled;
      the samples `read` would see arrive as a sequence. */
  class Joystick {
    var pressed: bv32
    var lThumbXState1: int
    var lThumbYState1: int
    var rThumbXState1: int
    var rThumbYState1: int

    constructor ()
      ensures State() == Cache(0, 0, 0, 0, 0)
    {
      pressed := 0;
      lThumbXState1 := 0;
      lThumbYState1 := 0;
      rThumbXState1 := 0;
      rThumbYState1 := 0;
    }

    function State(): Cache
      reads this
    {
      Cache(pressed, lThumbXState1, lThumbYState1, rThumbXState1, rThumbYState1)
    }

    /** `read`: consume samples until one of them reports an event. The
        samples before it change nothing; the reporting sample sets the cache
        and the event as `Step` says. If the samples run out first, nothing
        has changed (the device would go on waiting). `read` always returns
        true. */
    method Read(js: Event, samples: seq<ControllerSample>)
      returns (result: bool, event: Event, consumed: nat, reported: bool)
      modifies this
      ensures result
      ensures consumed <= |samples|
      ensures reported ==> 1 <= consumed && Step(old(State()), js, samples[consumed - 1]) == Report(State(), event)
      ensures forall k :: 0 <= k < consumed - (if reported then 1 else 0) ==> Step(old(State()), js, samples[k]) == Wait
      ensures !reported ==> consumed == |samples| && State() == old(State()) && event == js
    {
      event := js;
      consumed := 0;
      reported := false;
      while consumed < |samples|
        invariant consumed <= |samples|
        invariant State() == old(State())
        invariant forall k :: 0 <= k < consumed ==> Step(old(State()), js, samples[k]) == Wait
      {
        var sample := samples[consumed];
        var outcome := ReadStep(js, sample);
        consumed := consumed + 1;
        if outcome.Report? {
          event := outcome.event;
          reported := true;
          break;
        }
      }
      result := true;
    }

    /** The body of the `read` loop on one sample: the fields are updated
        to the cache `Step` gives. */
    method ReadStep(js: Event, sample: ControllerSample) returns (outcome: Outcome)
      modifies this
      ensures outcome == Step(old(State()), js, sample)
      ensures outcome.Report? ==> State() == outcome.cache
      ensures outcome.Wait? ==> State() == old(State())
    {
      var buttState := sample.buttons;
      if NewBits(pressed, buttState) != 0 {
        outcome := Report(State().(pressed := buttState), Event(NewBits(pressed, buttState), 1, false));
        pressed := buttState;
        return;
      }
      if ClearedBits(pressed, buttState) != 0 {
        outcome := Report(State().(pressed := buttState), Event(ClearedBits(pressed, buttState), 0, false));
        pressed := buttState;
        return;
      }
      outcome := ReadAxes(js, sample);
    }

    /** The axis part of the `read` loop body, reached when the button mask
        is unchanged. */
    method ReadAxes(js: Event, sample: ControllerSample) returns (outcome: Outcome)
      modifies this
      ensures outcome == AxisStep(old(State()), js, sample)
      ensures outcome.Report? ==> State() == outcome.cache
      ensures outcome.Wait? ==> State() == old(State())
    {
      var lTrigState := sample.leftTrigger;
      var rTrigState := sample.rightTrigger;
      var lThumbYState2 := sample.thumbLX as int;
      var lThumbXState2 := -(sample.thumbLY as int);
      var rThumbXState2 := sample.thumbRX as int;
      var rThumbYState2 := -(sample.thumbRY as int);
      if lThumbXState2 != lThumbXState1 {
        lThumbXState1 := lThumbXState2;
        outcome := Report(State(), Event(LeftStickHorizontal.Number(), lThumbXState2, true));
      } else if lThumbYState2 != lThumbYState1 {
        lThumbYState1 := lThumbYState2;
        outcome := Report(State(), Event(LeftStickVertical.Number(), lThumbYState2, true));
      } else if rThumbXState2 != rThumbXState1 {
        rThumbXState1 := rThumbXState2;
        outcome := Report(State(), Event(RightStickHorizontal.Number(), rThumbXState2, true));
      } else if rThumbYState2 != rThumbYState1 {
        rThumbYState1 := rThumbYState2;
        outcome := Report(State(), Event(RightStickVertical.Number(), rThumbYState2, true));
      } else if lTrigState >= 1 {
        outcome := Report(State(), Event(LeftTrigger.Number(), lTrigState, true));
      } else if rTrigState >= 1 {
        outcome := Report(State(), Event(RightTrigger.Number(), rTrigState, true));
      } else if js.number == LeftTrigger.Number() && lTrigState < 1 {
        outcome := Report(State(), js.(value := 0));
      } else if js.number == RightTrigger.Number() && rTrigState < 1 {
        outcome := Report(State(), js.(value := 0));
      } else {
        outcome := Wait;
      }
    }
  }

  /** The message of the `std::runtime_error` that `open` throws. */
  const OpenError := "Could not open joystick"

  /** Construction with `open`: the controller state is zeroed and read
      once. `stateAvailable` is whether `XInputGetState` succeeds for
      controller 0; when it does not, construction throws. */
  method Open(stateAvailable: bool) returns (r: Result<Joystick, string>)
    ensures r.Err? <==> !stateAvailable
    ensures r.Err? ==> r.error == OpenError
    ensures r.Ok? ==> fresh(r.value) && r.value.State() == Cache(0, 0, 0, 0, 0)
  {
    if !stateAvailable {
      return Err(OpenError);
    }
    var joystick := new Joystick();
    return Ok(joystick);
  }

  // -----------------------------------------------------------------------
  // Properties of one sample

  /** A sample that sets buttons not yet pressed reports a press of exactly
      the newly set buttons, whatever else changed (presses take priority
      over releases), and the mask becomes the sample's. */
  lemma PressReported(c: Cache, js: Event, s: ControllerSample)
    requires NewBits(c.pressed, s.buttons) != 0
    ensures var o := Step(c, js, s);
            o.Report? && !o.event.isAxis && o.event.value == 1 &&
            o.event.number == NewBits(c.pressed, s.buttons) &&
            o.cache == c.(pressed := s.buttons)
  {
  }

  /** A sample that only clears buttons reports a release of exactly the
      cleared buttons, and the mask becomes the sample's. */
  lemma ReleaseReported(c: Cache, js: Event, s: ControllerSample)
    requires NewBits(c.pressed, s.buttons) == 0 && c.pressed != s.buttons
    ensures var o := Step(c, js, s);
            o.Report? && !o.event.isAxis && o.event.value == 0 &&
            o.event.number == ClearedBits(c.pressed, s.buttons) &&
            o.cache == c.(pressed := s.buttons)
  {
    assert ClearedBits(c.pressed, s.buttons) != 0;
  }

  /** The axis reported when the buttons are unchanged: the first changed
      stick axis in the order left horizontal, left vertical, right
      horizontal, right vertical; then a pressed left trigger, then a pressed
      right trigger. */
  function FirstAxis(c: Cache, s: ControllerSample): (a: Option<Axis>)
  {
    if LeftHorizontal(s) != c.lThumbX then Some(LeftStickHorizontal)
    else if LeftVertical(s) != c.lThumbY then Some(LeftStickVertical)
    else if RightHorizontal(s) != c.rThumbX then Some(RightStickHorizontal)
    else if RightVertical(s) != c.rThumbY then Some(RightStickVertical)
    else if s.leftTrigger >= 1 then Some(LeftTrigger)
    else if s.rightTrigger >= 1 then Some(RightTrigger)
    else None
  }

  /** The value `read` reports for an axis on a sample. */
  function AxisValue(a: Axis, s: ControllerSample): int
  {
    match a
    case LeftStickHorizontal => LeftHorizontal(s)
    case LeftStickVertical => LeftVertical(s)
    case RightStickHorizontal => RightHorizontal(s)
    case RightStickVertical => RightVertical(s)
    case LeftTrigger => s.leftTrigger
    case RightTrigger => s.rightTrigger
  }

  /** The cache after reporting an axis: only that stick's cached value
      takes the new reading; triggers are not cached. */
  function Cached(c: Cache, a: Axis, s: ControllerSample): Cache
  {
    match a
    case LeftStickHorizontal => c.(lThumbX := LeftHorizontal(s))
    case LeftStickVertical => c.(lThumbY := LeftVertical(s))
    case RightStickHorizontal => c.(rThumbX := RightHorizontal(s))
    case RightStickVertical => c.(rThumbY := RightVertical(s))
    case LeftTrigger => c
    case RightTrigger => c
  }

  /** With the buttons unchanged, exactly one axis event is reported for the
      highest-priority axis, carrying its value; the button mask and every
      other cached value are left alone. */
  lemma AxisPriority(c: Cache, js: Event, s: ControllerSample)
    requires c.pressed == s.buttons
    requires FirstAxis(c, s).Some?
    ensures var a := FirstAxis(c, s).value;
            Step(c, js, s) == Report(Cached(c, a, s), Event(a.Number(), AxisValue(a, s), true))
  {
    assert NewBits(c.pressed, s.buttons) == 0;
    assert ClearedBits(c.pressed, s.buttons) == 0;
  }

  /** A pressed trigger is reported on every sample in which nothing of
      higher priority changed, with no cached state: the same sample
      reports it again. */
  lemma TriggerRepeats(c: Cache, js: Event, js': Event, s: ControllerSample)
    requires c.pressed == s.buttons
    requires FirstAxis(c, s) == Some(LeftTrigger) || FirstAxis(c, s) == Some(RightTrigger)
    ensures Step(c, js, s).Report? && Step(c, js, s).cache == c
    ensures Step(c, js', s) == Step(c, js, s)
  {
    AxisPriority(c, js, s);
    AxisPriority(c, js', s);
  }

  /** With nothing changed and both triggers released, a trigger reported by
      the previous call is reported once more with value 0; otherwise the
      sample is skipped. */
  lemma TriggerReleased(c: Cache, js: Event, s: ControllerSample)
    requires c.pressed == s.buttons && FirstAxis(c, s).None?
    ensures js.number == LeftTrigger.Number() || js.number == RightTrigger.Number() ==>
              Step(c, js, s) == Report(c, js.(value := 0))
    ensures js.number != LeftTrigger.Number() && js.number != RightTrigger.Number() ==>
              Step(c, js, s) == Wait
  {
    assert NewBits(c.pressed, s.buttons) == 0;
    assert ClearedBits(c.pressed, s.buttons) == 0;
  }

  /** Applying a reported stick change again finds it cached: repeating the
      sample moves on to a lower-priority axis. */
  lemma StickChangeIsCached(c: Cache, js: Event, s: ControllerSample)
    requires c.pressed == s.buttons
    requires FirstAxis(c, s).Some? && FirstAxis(c, s).value.Number() < 4
    ensures var a := FirstAxis(c, s).value;
            FirstAxis(Cached(c, a, s), s) != Some(a)
  {
  }
}
