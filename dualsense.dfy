/**
 * The controller object of dualsense.py: what it remembers of the input
 * reports, the output state of its components, the battery, connection and
 * device fields, and the update loop: decode an input report
 * (`_update_inputs`), assemble an output report (`_generate_report`), and the
 * connection callbacks around them (`_update`).
 *
 * The controller holds its components' states as values. The component
 * classes' methods are proved against the same functions this module uses:
 * `ApplyInputs` takes the d-pad's and the touch points' steps, `Outgoing` the
 * components' report functions.
 *
 * Callbacks are not run: each operation returns the trace of callbacks it
 * fires, in the order the source fires them.
 */
module Dualsenses {
  import opened Wrappers
  import opened Bytes
  import opened Const
  import opened Buttons
  import opened Components
  import opened Codec
  import opened HidHelpers
  import Dpads
  import Thumbsticks
  import Touchpads

  /** A callback firing anywhere on the controller. */
  datatype Event =
    | ButtonFired(name: ButtonName, event: ButtonEvent)
    | MicFired(event: ButtonEvent)
    | DpadFired(dpadEvent: Dpads.DpadEvent)
    | StickFired(side: Thumbsticks.Side, stickEvent: Thumbsticks.StickEvent)
    | TouchpadFired(touchpadEvent: Touchpads.TouchpadEvent)
    | BatteryPercentChanged(percent: int)
    | BatteryStateChanged(state: BatteryState)
    | ConnectionChanged(connected: bool)
    | Updated

  /** A firing of a component's or a battery callback, as opposed to `on_state` and `on_update`. */
  predicate FromReport(e: Event)
  {
    !e.ConnectionChanged? && !e.Updated?
  }

  function TagButton(name: ButtonName, evs: seq<ButtonEvent>): (r: seq<Event>)
    ensures |r| == |evs|
    ensures Lifecycle(r) == []
  {
    if evs == [] then [] else [ButtonFired(name, evs[0])] + TagButton(name, evs[1..])
  }

  function TagMic(evs: seq<ButtonEvent>): (r: seq<Event>)
    ensures |r| == |evs|
    ensures Lifecycle(r) == []
  {
    if evs == [] then [] else [MicFired(evs[0])] + TagMic(evs[1..])
  }

  function TagDpad(evs: seq<Dpads.DpadEvent>): (r: seq<Event>)
    ensures |r| == |evs|
    ensures Lifecycle(r) == []
  {
    if evs == [] then [] else [DpadFired(evs[0])] + TagDpad(evs[1..])
  }

  function TagStick(side: Thumbsticks.Side, evs: seq<Thumbsticks.StickEvent>): (r: seq<Event>)
    ensures |r| == |evs|
    ensures Lifecycle(r) == []
  {
    if evs == [] then [] else [StickFired(side, evs[0])] + TagStick(side, evs[1..])
  }

  function TagTouchpad(evs: seq<Touchpads.TouchpadEvent>): (r: seq<Event>)
    ensures |r| == |evs|
    ensures Lifecycle(r) == []
  {
    if evs == [] then [] else [TouchpadFired(evs[0])] + TagTouchpad(evs[1..])
  }

  // ------------------------------------------------------------ inputs

  /** A thumbstick's click and position. */
  datatype StickState = StickState(pressed: bool, pos: (int, int))

  /** The symbol buttons and the d-pad (byte 8 of the report). */
  datatype Symbols = Symbols(square: bool, cross: bool, circle: bool, triangle: bool, dpad: Dpads.DpadState)

  /** Share, options, PS, mic, the bumpers and the two trigger values. */
  datatype Tops = Tops(share: bool, options: bool, ps: bool, mic: bool,
                       leftBumper: bool, rightBumper: bool, leftTrigger: byte, rightTrigger: byte)

  /** The touchpad's click and touch points, and the gyroscope. */
  datatype Touch = Touch(click: bool, point1: Touchpads.PointState, point2: Touchpads.PointState, gyro: (int, int, int))

  /** What the input components remember of the reports decoded so far. */
  datatype Inputs = Inputs(symbols: Symbols, tops: Tops, leftStick: StickState, rightStick: StickState, touch: Touch)

  /** The inputs and the two battery fields: everything an input report moves. */
  datatype Sensed = Sensed(inputs: Inputs, percent: int, state: BatteryState)

  /** The input components as `__init__` creates them: all released, sticks centred, no touch, d-pad code 0. */
  const InitialInputs: Inputs :=
    Inputs(Symbols(false, false, false, false, Dpads.DpadState(0, Dpads.DirectionNone)),
           Tops(false, false, false, false, false, false, 0, 0),
           StickState(false, (0, 0)), StickState(false, (0, 0)),
           Touch(false, Touchpads.PointState(-1, false, (-1, -1)), Touchpads.PointState(-1, false, (-1, -1)), (0, 0, 0)))

  function ApplySymbols(s: Symbols, d: InputReport): Symbols
  {
    Symbols(d.square, d.cross, d.circle, d.triangle, Dpads.Step(s.dpad, d.dpad))
  }

  function TopsOf(d: InputReport): Tops
  {
    Tops(d.share, d.options, d.ps, d.mic, d.leftBumper, d.rightBumper, d.leftTrigger, d.rightTrigger)
  }

  function ApplyTouch(t: Touch, d: InputReport): Touch
  {
    Touch(d.touchClick, Touchpads.PointStep(t.point1, d.touch1), Touchpads.PointStep(t.point2, d.touch2), d.gyro)
  }

  /**
   * The inputs after `_update_inputs` decoded `d`: every button, trigger,
   * stick, the touchpad click and the gyroscope take the report's value; the
   * d-pad and the touch points move only on a changed code or slot.
   */
  function ApplyInputs(s: Inputs, d: InputReport): Inputs
  {
    Inputs(ApplySymbols(s.symbols, d), TopsOf(d),
           StickState(d.leftStickPressed, d.leftStick), StickState(d.rightStickPressed, d.rightStick),
           ApplyTouch(s.touch, d))
  }

  /** The stick's firings: its click's, then `on_move` when the position changed. */
  function StickEvents(side: Thumbsticks.Side, was: StickState, pressed: bool, pos: (int, int)): seq<Event>
  {
    TagStick(side, Thumbsticks.StickClicks(Edge(was.pressed, pressed)) + Thumbsticks.MoveEvents(was.pos, Some(pos)))
  }

  /** The touchpad's firings: its click's, then slot 1's, then slot 2's. */
  function TouchpadEvents(t: Touch, d: InputReport): seq<Event>
  {
    TagTouchpad(Touchpads.PadClicks(Edge(t.click, d.touchClick))
                + Touchpads.TagPoint(1, Touchpads.PointEvents(t.point1, d.touch1))
                + Touchpads.TagPoint(2, Touchpads.PointEvents(t.point2, d.touch2)))
  }

  /** The two battery callbacks: each fires only for a changed value, and carries the new one. */
  function BatteryEvents(percent: int, state: BatteryState, d: InputReport): seq<Event>
  {
    (if d.batteryPercent != percent then [BatteryPercentChanged(d.batteryPercent)] else [])
    + (if d.batteryState != state then [BatteryStateChanged(d.batteryState)] else [])
  }

  /** The symbol buttons' and the d-pad's firings, in the order `_update_inputs` updates them. */
  function SymbolEvents(s: Symbols, d: InputReport): seq<Event>
  {
    TagButton(Square, Edge(s.square, d.square)) + TagButton(Cross, Edge(s.cross, d.cross))
    + TagButton(Circle, Edge(s.circle, d.circle)) + TagButton(Triangle, Edge(s.triangle, d.triangle))
    + TagDpad(Dpads.Fired(s.dpad, d.dpad))
  }

  /** The share, options, PS, mic and bumper buttons' firings, in that order. */
  function TopEvents(t: Tops, d: InputReport): seq<Event>
  {
    TagButton(Share, Edge(t.share, d.share)) + TagButton(Options, Edge(t.options, d.options))
    + TagButton(Ps, Edge(t.ps, d.ps)) + TagMic(Edge(t.mic, d.mic))
    + TagButton(LeftBumper, Edge(t.leftBumper, d.leftBumper)) + TagButton(RightBumper, Edge(t.rightBumper, d.rightBumper))
  }

  /** The input components' callbacks, component by component in the order `_update_inputs` updates them. */
  function InputEvents(s: Inputs, d: InputReport): seq<Event>
  {
    SymbolEvents(s.symbols, d) + TopEvents(s.tops, d)
    + StickEvents(Thumbsticks.LeftSide, s.leftStick, d.leftStickPressed, d.leftStick)
    + StickEvents(Thumbsticks.RightSide, s.rightStick, d.rightStickPressed, d.rightStick)
    + TouchpadEvents(s.touch, d)
  }

  /** Everything `_update_inputs` fires: the components' callbacks, then the battery's. */
  function ReadEvents(s: Sensed, d: InputReport): seq<Event>
  {
    InputEvents(s.inputs, d) + BatteryEvents(s.percent, s.state, d)
  }

  /** The state `_update_inputs` leaves after decoding `d`. */
  function Read(s: Sensed, d: InputReport): Sensed
  {
    Sensed(ApplyInputs(s.inputs, d), d.batteryPercent, d.batteryState)
  }

  /** Decoding the same report twice in a row leaves the state the first decoding left. */
  lemma ReplayKeepsState(s: Sensed, d: InputReport)
    ensures Read(Read(s, d), d) == Read(s, d)
  {
    Dpads.StepIdempotent(s.inputs.symbols.dpad, d.dpad);
    Touchpads.PointReplay(s.inputs.touch.point1, d.touch1);
    Touchpads.PointReplay(s.inputs.touch.point2, d.touch2);
  }

  /** The buttons and the d-pad fire nothing on a repeated report. */
  lemma ButtonsReplay(s: Inputs, d: InputReport)
    ensures SymbolEvents(ApplyInputs(s, d).symbols, d) == [] && TopEvents(ApplyInputs(s, d).tops, d) == []
  {
    Dpads.StepIdempotent(s.symbols.dpad, d.dpad);
    assert Dpads.Fired(ApplyInputs(s, d).symbols.dpad, d.dpad) == [];
  }

  /** A stick given the click and position it holds fires nothing. */
  lemma StickReplay(side: Thumbsticks.Side, pressed: bool, pos: (int, int))
    ensures StickEvents(side, StickState(pressed, pos), pressed, pos) == []
  {
    assert |Thumbsticks.StickClicks(Edge(pressed, pressed)) + Thumbsticks.MoveEvents(pos, Some(pos))| == 0;
  }

  /** The touchpad fires nothing on a repeated report. */
  lemma TouchReplay(t: Touch, d: InputReport)
    ensures TouchpadEvents(ApplyTouch(t, d), d) == []
  {
    Touchpads.PointReplay(t.point1, d.touch1);
    Touchpads.PointReplay(t.point2, d.touch2);
    assert |TouchpadEvents(ApplyTouch(t, d), d)| == 0;
  }

  /** Decoding the same report twice in a row: the second time fires nothing. */
  lemma ReplayIsSilent(s: Sensed, d: InputReport)
    ensures ReadEvents(Read(s, d), d) == []
  {
    ButtonsReplay(s.inputs, d);
    StickReplay(Thumbsticks.LeftSide, d.leftStickPressed, d.leftStick);
    StickReplay(Thumbsticks.RightSide, d.rightStickPressed, d.rightStick);
    TouchReplay(s.inputs.touch, d);
  }

  /** The symbol buttons and the d-pad fire only their own callbacks. */
  lemma SymbolEventsFromReport(s: Symbols, d: InputReport)
    ensures Lifecycle(SymbolEvents(s, d)) == []
  {
    var e1, e2 := TagButton(Square, Edge(s.square, d.square)), TagButton(Cross, Edge(s.cross, d.cross));
    var e3, e4 := TagButton(Circle, Edge(s.circle, d.circle)), TagButton(Triangle, Edge(s.triangle, d.triangle));
    LifecycleAppend(e1, e2);
    LifecycleAppend(e1 + e2, e3);
    LifecycleAppend(e1 + e2 + e3, e4);
    LifecycleAppend(e1 + e2 + e3 + e4, TagDpad(Dpads.Fired(s.dpad, d.dpad)));
  }

  /** The share, options, PS, mic and bumper buttons fire only their own callbacks. */
  lemma TopEventsFromReport(t: Tops, d: InputReport)
    ensures Lifecycle(TopEvents(t, d)) == []
  {
    var e1, e2 := TagButton(Share, Edge(t.share, d.share)), TagButton(Options, Edge(t.options, d.options));
    var e3, e4 := TagButton(Ps, Edge(t.ps, d.ps)), TagMic(Edge(t.mic, d.mic));
    var e5 := TagButton(LeftBumper, Edge(t.leftBumper, d.leftBumper));
    LifecycleAppend(e1, e2);
    LifecycleAppend(e1 + e2, e3);
    LifecycleAppend(e1 + e2 + e3, e4);
    LifecycleAppend(e1 + e2 + e3 + e4, e5);
    LifecycleAppend(e1 + e2 + e3 + e4 + e5, TagButton(RightBumper, Edge(t.rightBumper, d.rightBumper)));
  }

  /** The two battery callbacks are not `on_state` or `on_update`. */
  lemma BatteryEventsFromReport(percent: int, state: BatteryState, d: InputReport)
    ensures Lifecycle(BatteryEvents(percent, state, d)) == []
  {
    var e1 := if d.batteryPercent != percent then [BatteryPercentChanged(d.batteryPercent)] else [];
    var e2 := if d.batteryState != state then [BatteryStateChanged(d.batteryState)] else [];
    LifecycleAppend(e1, e2);
  }

  /** An input report fires only component and battery callbacks, never `on_state` or `on_update`. */
  lemma ReadEventsFromReport(s: Sensed, d: InputReport)
    ensures Lifecycle(ReadEvents(s, d)) == []
  {
    var e1, e2 := SymbolEvents(s.inputs.symbols, d), TopEvents(s.inputs.tops, d);
    var e3 := StickEvents(Thumbsticks.LeftSide, s.inputs.leftStick, d.leftStickPressed, d.leftStick);
    var e4 := StickEvents(Thumbsticks.RightSide, s.inputs.rightStick, d.rightStickPressed, d.rightStick);
    SymbolEventsFromReport(s.inputs.symbols, d);
    TopEventsFromReport(s.inputs.tops, d);
    BatteryEventsFromReport(s.percent, s.state, d);
    LifecycleAppend(e1, e2);
    LifecycleAppend(e1 + e2, e3);
    LifecycleAppend(e1 + e2 + e3, e4);
    LifecycleAppend(e1 + e2 + e3 + e4, TouchpadEvents(s.inputs.touch, d));
    LifecycleAppend(InputEvents(s.inputs, d), BatteryEvents(s.percent, s.state, d));
  }

  /**
   * The battery segment of `_update_inputs`: each battery callback fires
   * exactly when its value changes, carrying the new value, which the state
   * then holds.
   */
  lemma BatteryCallbacks(s: Sensed, d: InputReport, p: int, b: BatteryState)
    ensures BatteryPercentChanged(p) in BatteryEvents(s.percent, s.state, d) <==> d.batteryPercent != s.percent && p == d.batteryPercent
    ensures BatteryStateChanged(b) in BatteryEvents(s.percent, s.state, d) <==> d.batteryState != s.state && b == d.batteryState
    ensures Read(s, d).percent == d.batteryPercent && Read(s, d).state == d.batteryState
  {
  }

  /** `battery_charging` after decoding a status byte: exactly when its high nibble is 2. */
  lemma ChargingNibble(status: byte)
    ensures BatteryStateOf(status) == Charging <==> status as int / 16 == 2
  {
    Nibbles(status);
    FindIsDocumented(HighNibble(status));
  }

  // ----------------------------------------------------------- outputs

  /** The output components' states: their payloads and the marks of what changed since the last report. */
  datatype Outputs = Outputs(
    mic: MicLight, leftTrigger: TriggerForce, rightTrigger: TriggerForce,
    light: Touchpads.LightBars, player: PlayerLight,
    leftRumble: Motor, rightRumble: Motor,
    speaker: SpeakerOut, microphone: MicrophoneIn)

  /** The output components as `__init__` creates them: everything off, brightness high, nothing to send. */
  const InitialOutputs: Outputs :=
    Outputs(MicLight(0, false, BrightnessHigh, false),
            TriggerForce([0, 0, 0, 0], false), TriggerForce([0, 0, 0, 0], false),
            Touchpads.LightBars([0, 0, 0], false, false),
            PlayerLight(0, false, BrightnessHigh, false),
            Motor(0, false), Motor(0, false),
            SpeakerOut([0, 0], false, 0, 0, false),
            MicrophoneIn(0, false, 0, 0, false))

  /** Nothing pending: no component has a change to send. */
  predicate Quiet(o: Outputs)
  {
    && !o.mic.ledDirty && !o.mic.brightnessDirty && !o.leftTrigger.dirty && !o.rightTrigger.dirty
    && !o.light.changed && !o.light.fade && !o.player.patternDirty && !o.player.brightnessDirty
    && !o.leftRumble.dirty && !o.rightRumble.dirty
    && !o.speaker.volumeDirty && !o.speaker.muteDirty && !o.microphone.volumeDirty && !o.microphone.muteDirty
  }

  /** The payloads alone: every mark cleared. */
  function Held(o: Outputs): (r: Outputs)
  {
    Outputs(o.mic.(ledDirty := false, brightnessDirty := false),
            o.leftTrigger.(dirty := false), o.rightTrigger.(dirty := false),
            o.light.(changed := false, fade := false),
            o.player.(patternDirty := false, brightnessDirty := false),
            o.leftRumble.(dirty := false), o.rightRumble.(dirty := false),
            o.speaker.(volumeDirty := false, muteDirty := false),
            o.microphone.(volumeDirty := false, muteDirty := false))
  }

  /**
   * The component tuples `_generate_report` collects, in its order. The
   * player LEDs are asked after the mic button has handed them its brightness
   * when it sent one.
   */
  function Outgoing(o: Outputs): (p: Reports)
    ensures NoFlags(p) <==> Quiet(o)
    ensures p.mic.ledFlag != 0 ==> p.mic.brightness == o.mic.brightness && p.player.brightness == o.mic.brightness
    ensures p.mic.ledFlag == 0 ==> p.player.brightness == o.player.brightness
    ensures p.player.ledFlag != 0 <==> o.player.brightnessDirty
    ensures p.mic.led == o.mic.led && p.player.pattern == o.player.pattern && p.touchpad.color == o.light.color
    ensures p.leftTrigger.profile == o.leftTrigger.profile && p.rightTrigger.profile == o.rightTrigger.profile
    ensures p.leftRumble.intensity == o.leftRumble.intensity && p.rightRumble.intensity == o.rightRumble.intensity
  {
    var player := if o.mic.brightnessDirty then o.player.(brightness := o.mic.brightness) else o.player;
    Reports(MicReportOf(o.mic),
            TriggerReportOf(LeftTrigger, o.leftTrigger), TriggerReportOf(RightTrigger, o.rightTrigger),
            Touchpads.LightReport(o.light.changed, o.light.fade, o.light.color),
            PlayerReportOf(player),
            RumbleReportOf(o.leftRumble), RumbleReportOf(o.rightRumble),
            SpeakerReportOf(o.speaker), MicrophoneReportOf(o.microphone))
  }

  /**
   * The output state `_generate_report` leaves: every mark cleared, and the
   * brightness that went out held by both the mic button and the player LEDs
   * (the mic button's when it sent one, otherwise the player LEDs' when they
   * did).
   */
  function Sent(o: Outputs): (r: Outputs)
    ensures Quiet(r)
    ensures Quiet(o) ==> r == o
    ensures o.mic.brightnessDirty ==> r.mic.brightness == o.mic.brightness && r.player.brightness == o.mic.brightness
    ensures !o.mic.brightnessDirty && o.player.brightnessDirty ==>
              r.mic.brightness == o.player.brightness && r.player.brightness == o.player.brightness
    ensures !o.mic.brightnessDirty && !o.player.brightnessDirty ==>
              r.mic.brightness == o.mic.brightness && r.player.brightness == o.player.brightness
    ensures r.(mic := Held(o).mic.(brightness := r.mic.brightness),
               player := Held(o).player.(brightness := r.player.brightness)) == r
    ensures r.(mic := Held(o).mic, player := Held(o).player) == Held(o)
  {
    var h := Held(o);
    if o.mic.brightnessDirty then h.(player := h.player.(brightness := o.mic.brightness))
    else if o.player.brightnessDirty then h.(mic := h.mic.(brightness := o.player.brightness))
    else h
  }

  /**
   * The output state `force_update` leaves: every component marked to send
   * everything it holds; the light bars' fade request is left as it was.
   */
  function Forced(o: Outputs): (r: Outputs)
    ensures Held(r) == Held(o) && r.light.fade == o.light.fade
    ensures r.mic.ledDirty && r.mic.brightnessDirty && r.leftTrigger.dirty && r.rightTrigger.dirty
    ensures r.light.changed && r.player.patternDirty && r.player.brightnessDirty
    ensures r.leftRumble.dirty && r.rightRumble.dirty
    ensures r.speaker.volumeDirty && r.speaker.muteDirty && r.microphone.volumeDirty && r.microphone.muteDirty
  {
    Outputs(o.mic.(ledDirty := true, brightnessDirty := true),
            o.leftTrigger.(dirty := true), o.rightTrigger.(dirty := true),
            o.light.(changed := true),
            o.player.(patternDirty := true, brightnessDirty := true),
            o.leftRumble.(dirty := true), o.rightRumble.(dirty := true),
            o.speaker.(volumeDirty := true, muteDirty := true),
            o.microphone.(volumeDirty := true, muteDirty := true))
  }

  /** No output flag of any component raised: what a report sent with nothing pending carries. */
  predicate NoFlags(p: Reports)
  {
    && p.mic.flag == 0 && p.mic.ledFlag == 0 && p.player.flag == 0 && p.player.ledFlag == 0
    && p.leftTrigger.flag == 0 && p.rightTrigger.flag == 0 && p.touchpad.flag == 0 && p.touchpad.ledFlag == 0
    && p.leftRumble.flag == 0 && p.rightRumble.flag == 0
    && p.speaker.flag == 0 && p.speaker.muteFlag == 0 && p.microphone.flag == 0 && p.microphone.muteFlag == 0
  }

  /** With nothing pending, the flag bytes, the LED-flag byte and the brightness byte are all zero. */
  lemma QuietFrame(p: Reports, bluetooth: bool, crc32: (int, seq<byte>) -> int)
    requires NoFlags(p)
    ensures var f := Frame(p, bluetooth, crc32);
            var o := if bluetooth then 2 else 0;
            |f| > 43 + o && f[1 + o] == 0 && f[2 + o] == 0 && f[39 + o] == 0 && f[43 + o] == 0
  {
    OrAllZeros(Flags1List(p));
    OrAllZeros(Flags2List(p));
    OrAllZeros(LedFlagsList(p));
    if bluetooth {
      var body := [0x31, 0x00, 0x10] + seq(BluetoothReportLength - 3, i => BodyByte(p, i + 1));
      var f := AddChecksum(body, crc32);
      assert f[3] == body[3] && f[4] == body[4] && f[41] == body[41] && f[45] == body[45];
    }
  }

  /**
   * A change goes out once: the report after the one that carried it has all
   * flag bytes, the LED-flag byte and the brightness byte zero.
   */
  lemma SentOnce(o: Outputs, bluetooth: bool, crc32: (int, seq<byte>) -> int)
    ensures var f := Frame(Outgoing(Sent(o)), bluetooth, crc32);
            var k := if bluetooth then 2 else 0;
            |f| > 43 + k && f[1 + k] == 0 && f[2 + k] == 0 && f[39 + k] == 0 && f[43 + k] == 0
  {
    QuietFrame(Outgoing(Sent(o)), bluetooth, crc32);
  }

  /**
   * After `force_update` the next report raises every component's flag and
   * carries every payload the components hold; only the fade request stays
   * as it was.
   */
  lemma ForcedSendsAll(o: Outputs)
    ensures var p := Outgoing(Forced(o));
            && p.mic.flag != 0 && p.mic.ledFlag != 0 && p.player.flag != 0 && p.player.ledFlag != 0
            && p.leftTrigger.flag != 0 && p.rightTrigger.flag != 0 && p.touchpad.flag != 0
            && (p.touchpad.ledFlag != 0 <==> o.light.fade)
            && p.leftRumble.flag != 0 && p.rightRumble.flag != 0
            && p.speaker.flag != 0 && p.speaker.muteFlag != 0 && p.microphone.flag != 0 && p.microphone.muteFlag != 0
            && p.mic.led == o.mic.led && p.mic.brightness == o.mic.brightness && p.player.brightness == o.mic.brightness
            && p.player.pattern == o.player.pattern && p.touchpad.color == o.light.color
            && p.leftTrigger.profile == o.leftTrigger.profile && p.rightTrigger.profile == o.rightTrigger.profile
            && p.leftRumble.intensity == o.leftRumble.intensity && p.rightRumble.intensity == o.rightRumble.intensity
  {
    var r := Forced(o);
    assert r.mic.brightness == Held(r).mic.brightness == Held(o).mic.brightness == o.mic.brightness;
    assert r.light.color == o.light.color && r.mic.led == o.mic.led && r.player.pattern == o.player.pattern;
    assert r.leftTrigger.profile == o.leftTrigger.profile && r.rightTrigger.profile == o.rightTrigger.profile;
    assert r.leftRumble.intensity == o.leftRumble.intensity && r.rightRumble.intensity == o.rightRumble.intensity;
  }

  // ---------------------------------------------------------- the loop

  /** The length `_update` expects of an input report on a transport. */
  function ReportLength(bluetooth: bool): (n: nat)
    ensures n >= MinInputLength(bluetooth)
  {
    if bluetooth then BluetoothReportLength else UsbReportLength
  }

  /** What one read moves: a report of the expected length is decoded, any other is ignored. */
  function Absorb(s: Sensed, input: seq<byte>, bluetooth: bool): Sensed
  {
    if |input| == ReportLength(bluetooth) then Read(s, Decode(input, bluetooth)) else s
  }

  /** The state after a run of reads. */
  function Absorbed(s: Sensed, received: seq<seq<byte>>, bluetooth: bool): Sensed
    decreases |received|
  {
    if received == [] then s
    else Absorb(Absorbed(s, received[..|received| - 1], bluetooth), received[|received| - 1], bluetooth)
  }

  /**
   * The reports of a run from outputs `o`: the first carries `o`, every
   * later one what `_generate_report` left.
   */
  ghost predicate Wrote(written: seq<seq<byte>>, o: Outputs, bluetooth: bool, crc32: (int, seq<byte>) -> int)
  {
    && (|written| > 0 ==> written[0] == Frame(Outgoing(o), bluetooth, crc32))
    && forall j :: 0 < j < |written| ==> written[j] == Frame(Outgoing(Sent(o)), bluetooth, crc32)
  }

  lemma WroteNext(written: seq<seq<byte>>, report: seq<byte>, from: Outputs, o: Outputs, bluetooth: bool, crc32: (int, seq<byte>) -> int)
    requires Wrote(written, o, bluetooth, crc32)
    requires report == Frame(Outgoing(from), bluetooth, crc32) && from == if written == [] then o else Sent(o)
    ensures Wrote(written + [report], o, bluetooth, crc32)
  {
  }

  /** A run of i + 1 reads is the run of the first i, then one more turn. */
  lemma RunNext(s: Sensed, received: seq<seq<byte>>, i: nat, bluetooth: bool, connected: bool)
    requires i < |received|
    ensures Absorbed(s, received[..i + 1], bluetooth) == Absorb(Absorbed(s, received[..i], bluetooth), received[i], bluetooth)
    ensures RunEvents(s, received[..i + 1], bluetooth, connected)
            == RunEvents(s, received[..i], bluetooth, connected)
               + TurnEvents(Absorbed(s, received[..i], bluetooth), received[i], bluetooth, connected || i > 0)
  {
    assert received[..i + 1][..i] == received[..i];
  }

  /**
   * The callbacks one turn of `_update`'s loop fires: the decoded report's,
   * then `on_state(True)` when the controller was not yet connected, then
   * `on_update`.
   */
  function TurnEvents(s: Sensed, input: seq<byte>, bluetooth: bool, connected: bool): seq<Event>
  {
    Received(s, input, bluetooth) + (if connected then [] else [ConnectionChanged(true)]) + [Updated]
  }

  /** The callbacks one read fires: a report's, or none for a read of the wrong length. */
  function Received(s: Sensed, input: seq<byte>, bluetooth: bool): seq<Event>
  {
    if |input| == ReportLength(bluetooth) then ReadEvents(s, Decode(input, bluetooth)) else []
  }

  /** A read never fires `on_state` or `on_update`. */
  lemma ReceivedFromReport(s: Sensed, input: seq<byte>, bluetooth: bool)
    ensures Lifecycle(Received(s, input, bluetooth)) == []
  {
    if |input| == ReportLength(bluetooth) {
      ReadEventsFromReport(s, Decode(input, bluetooth));
    }
  }

  /** The callbacks a run of turns fires. */
  function RunEvents(s: Sensed, received: seq<seq<byte>>, bluetooth: bool, connected: bool): seq<Event>
    decreases |received|
  {
    if received == [] then []
    else
      var n := |received| - 1;
      RunEvents(s, received[..n], bluetooth, connected)
      + TurnEvents(Absorbed(s, received[..n], bluetooth), received[n], bluetooth, connected || n > 0)
  }

  /**
   * The `finally` clause of `_update` with its test the right way round: a
   * connected controller reports the disconnection, once.
   */
  function Finish(connected: bool): (seq<Event>, bool)
  {
    if connected then ([ConnectionChanged(false)], false) else ([], connected)
  }

  /** The `finally` clause as written: it tests `not self._last_state`. */
  function FinishAsWritten(connected: bool): (seq<Event>, bool)
  {
    if !connected then ([ConnectionChanged(false)], false) else ([], connected)
  }

  /** The `on_state` and `on_update` firings of a trace, in order. */
  function Lifecycle(evs: seq<Event>): seq<Event>
  {
    if evs == [] then [] else (if FromReport(evs[0]) then [] else [evs[0]]) + Lifecycle(evs[1..])
  }

  /** `on_update` n times. */
  function Updates(n: nat): (r: seq<Event>)
    ensures |r| == n && forall i :: 0 <= i < n ==> r[i] == Updated
  {
    seq(n, _ => Updated)
  }

  lemma {:induction false} LifecycleAppend(a: seq<Event>, b: seq<Event>)
    ensures Lifecycle(a + b) == Lifecycle(a) + Lifecycle(b)
  {
    if a == [] {
      assert a + b == b;
    } else {
      assert (a + b)[1..] == a[1..] + b;
      LifecycleAppend(a[1..], b);
    }
  }

  /** After callbacks that are not lifecycle ones, a turn's tail fires `on_state(True)` if not yet connected, then `on_update`. */
  lemma TailLifecycle(read: seq<Event>, c: bool)
    requires Lifecycle(read) == []
    ensures Lifecycle(read + (if c then [] else [ConnectionChanged(true)]) + [Updated])
            == (if c then [] else [ConnectionChanged(true)]) + [Updated]
  {
    var tail := (if c then [] else [ConnectionChanged(true)]) + [Updated];
    if c {
      assert Lifecycle(tail) == Lifecycle([Updated]) == [Updated];
    } else {
      assert tail[1..] == [Updated];
      assert Lifecycle(tail) == [ConnectionChanged(true)] + Lifecycle([Updated]) == tail;
    }
    LifecycleAppend(read, tail);
    assert read + tail == read + (if c then [] else [ConnectionChanged(true)]) + [Updated];
  }

  /** One turn fires `on_state(True)` when not yet connected, then `on_update`, in that order. */
  lemma TurnLifecycle(t: Sensed, input: seq<byte>, bluetooth: bool, c: bool)
    ensures Lifecycle(TurnEvents(t, input, bluetooth, c)) == (if c then [] else [ConnectionChanged(true)]) + [Updated]
  {
    ReceivedFromReport(t, input, bluetooth);
    TailLifecycle(Received(t, input, bluetooth), c);
  }

  /** The lifecycle firings of n turns followed by one more. */
  lemma NextTurnLifecycle(before: seq<Event>, turn: seq<Event>, connected: bool, n: nat)
    requires Lifecycle(before) == if n == 0 then [] else (if connected then [] else [ConnectionChanged(true)]) + Updates(n)
    requires Lifecycle(turn) == (if connected || n > 0 then [] else [ConnectionChanged(true)]) + [Updated]
    ensures Lifecycle(before + turn) == (if connected then [] else [ConnectionChanged(true)]) + Updates(n + 1)
  {
    LifecycleAppend(before, turn);
    var pre := if connected then [] else [ConnectionChanged(true)];
    assert Updates(n) + [Updated] == Updates(n + 1);
    if n > 0 {
      assert pre + Updates(n) + [Updated] == pre + Updates(n + 1);
    }
  }

  /**
   * Over n turns, `on_state(True)` fires once, before the first `on_update`,
   * when the controller was not connected, and `on_update` fires once per turn.
   */
  lemma {:induction false} RunLifecycle(s: Sensed, received: seq<seq<byte>>, bluetooth: bool, connected: bool)
    ensures Lifecycle(RunEvents(s, received, bluetooth, connected))
            == if received == [] then [] else (if connected then [] else [ConnectionChanged(true)]) + Updates(|received|)
  {
    if received != [] {
      var n := |received| - 1;
      var t := Absorbed(s, received[..n], bluetooth);
      RunLifecycle(s, received[..n], bluetooth, connected);
      TurnLifecycle(t, received[n], bluetooth, connected || n > 0);
      NextTurnLifecycle(RunEvents(s, received[..n], bluetooth, connected),
                        TurnEvents(t, received[n], bluetooth, connected || n > 0), connected, n);
    }
  }

  /**
   * With the corrected clause: a session of n > 0 turns from a disconnected
   * controller fires `on_state(True)` once, `on_update` n times and then
   * `on_state(False)` once, and leaves the controller disconnected, ready for
   * the next session; a session with no turn fires nothing.
   */
  lemma SessionLifecycle(s: Sensed, received: seq<seq<byte>>, bluetooth: bool)
    ensures var f := Finish(received != []);
            && !f.1
            && Lifecycle(RunEvents(s, received, bluetooth, false) + f.0)
               == if received == [] then [] else [ConnectionChanged(true)] + Updates(|received|) + [ConnectionChanged(false)]
  {
    RunLifecycle(s, received, bluetooth, false);
    FinishLifecycle(RunEvents(s, received, bluetooth, false), |received|);
  }

  lemma FinishLifecycle(before: seq<Event>, n: nat)
    requires Lifecycle(before) == if n == 0 then [] else [ConnectionChanged(true)] + Updates(n)
    ensures Lifecycle(before + Finish(n > 0).0)
            == if n == 0 then [] else [ConnectionChanged(true)] + Updates(n) + [ConnectionChanged(false)]
  {
    LifecycleAppend(before, Finish(n > 0).0);
  }

  /**
   * As written: a session of n > 0 turns fires no `on_state(False)` and
   * leaves `_last_state` true, so the next session fires no `on_state(True)`
   * either; a session with no turn fires a lone `on_state(False)`.
   */
  lemma SessionLifecycleAsWritten(s: Sensed, received: seq<seq<byte>>, bluetooth: bool,
                                  s2: Sensed, received2: seq<seq<byte>>)
    ensures var f := FinishAsWritten(received != []);
            && (received != [] ==>
                  && f.1
                  && Lifecycle(RunEvents(s, received, bluetooth, false) + f.0) == [ConnectionChanged(true)] + Updates(|received|)
                  && Lifecycle(RunEvents(s2, received2, bluetooth, f.1)) == Updates(|received2|))
            && (received == [] ==> Lifecycle(RunEvents(s, received, bluetooth, false) + f.0) == [ConnectionChanged(false)])
  {
    RunLifecycle(s, received, bluetooth, false);
    RunLifecycle(s2, received2, bluetooth, true);
    var f := FinishAsWritten(received != []);
    LifecycleAppend(RunEvents(s, received, bluetooth, false), f.0);
    if received == [] {
      assert Lifecycle(f.0) == [ConnectionChanged(false)] + Lifecycle([]);
    } else {
      assert f.0 == [];
    }
  }

  // ------------------------------------------------------ device fields

  /** The transport and the slices of the feature reports `open` records. */
  datatype DeviceInfo = DeviceInfo(bluetooth: bool, reportLength: nat, mac: Option<seq<byte>>,
                                   hardware: Option<seq<byte>>, firmware: Option<seq<byte>>)

  /** What `open` returns: the transport it chose, nothing when already open, or the TypeError of a failed lookup. */
  datatype OpenResult = Opened(bluetooth: bool) | AlreadyOpen | LookupTypeError

  /** Python's `s[i:j]` for 0 <= i <= j: both ends clamped to the length. */
  function Slice(s: seq<byte>, i: nat, j: nat): (r: seq<byte>)
    requires i <= j
    ensures |r| == (if j <= |s| then j - i else if i <= |s| then |s| - i else 0)
    ensures forall k :: 0 <= k < |r| ==> r[k] == s[i + k]
  {
    if j <= |s| then s[i..j] else if i <= |s| then s[i..] else []
  }

  /** The device `find_devices` returns for a serial number, a given path taking precedence. */
  function Lookup(devices: seq<Device>, serial: string, path: Option<PathArg>): Found
  {
    if path.Some? then Pick(devices, PathKey(PathBytes(path.value))) else Pick(devices, SerialKey(serial))
  }

  /**
   * The transport `open` settles on: Bluetooth when forced; otherwise
   * Bluetooth exactly when the device read a non-empty serial number and the
   * device found for it has interface number -1. A lookup that finds no single
   * device makes the subscript raise a TypeError (`None`).
   */
  function Transport(forceBluetooth: bool, serial: Option<string>, devices: seq<Device>, path: Option<PathArg>): Option<bool>
  {
    if forceBluetooth then Some(true)
    else if serial.None? || serial.value == "" then Some(false)
    else match Lookup(devices, serial.value, path)
      case OneDevice(d) => Some(d.interfaceNumber == -1)
      case _ => None
  }

  /** A version word from four little-endian bytes, or what reading it yields instead. */
  datatype Version = NotRead | Word(value: nat) | IndexError

  /**
   * The body of `hardware_version` and `firmware_version`: nothing before
   * `open`, an IndexError for fewer than four stored bytes, otherwise the
   * bytes or-ed together at shifts 0, 8, 16 and 24, which is their
   * little-endian value.
   */
  method VersionWord(stored: Option<seq<byte>>) returns (r: Version)
    ensures r.NotRead? <==> stored.None?
    ensures r.IndexError? <==> stored.Some? && |stored.value| < 4
    ensures r.Word? ==> r.value == LittleEndian(stored.value[..4])
  {
    if stored.None? {
      return NotRead;
    }
    var b := stored.value;
    if |b| < 4 {
      return IndexError;
    }
    var v: nat := b[0] as nat;
    v := OrBits(v, Shl(b[1] as nat, 8), 32);
    v := OrBits(v, Shl(b[2] as nat, 16), 32);
    v := OrBits(v, Shl(b[3] as nat, 24), 32);
    WordIsLittleEndian(b[0], b[1], b[2], b[3]);
    assert b[..4] == [b[0], b[1], b[2], b[3]];
    r := Word(v);
  }

  lemma Pow2Word()
    ensures Pow2(8) == 0x100 && Pow2(16) == 0x1_0000 && Pow2(24) == 0x100_0000 && Pow2(32) == 0x1_0000_0000
  {
    Pow2Eight();
    assert Pow2(16) == 0x100 * Pow2(8);
    assert Pow2(24) == 0x100 * Pow2(16);
    assert Pow2(32) == 0x100 * Pow2(24);
  }

  lemma MulMonotone(p: nat, x: nat, y: nat)
    requires x <= y
    ensures p * x <= p * y
  {
    assert p * y == p * x + p * (y - x);
  }

  /** Or-ing a byte in at shift k above a value below 2^k adds it at weight 2^k. */
  lemma OrByteAt(w: nat, b: byte, k: nat)
    requires w < Pow2(k) && Pow2(k) * 0x100 <= Pow2(32)
    ensures OrBits(w, Shl(b as nat, k), 32) == w + Pow2(k) * b as nat
  {
    ShlIsMul(b as nat, k);
    MulMonotone(Pow2(k), b as nat + 1, 0x100);
    assert Pow2(k) * (b as nat + 1) == Pow2(k) * b as nat + Pow2(k);
    OrBitsCommutes(w, Shl(b as nat, k), 32);
    OrDisjoint(b as nat, w, k, 32);
  }

  /** Or-ing four bytes in at shifts 0, 8, 16 and 24: no two of them share a bit, so the or is the little-endian sum. */
  lemma WordIsLittleEndian(b0: byte, b1: byte, b2: byte, b3: byte)
    ensures OrBits(OrBits(OrBits(b0 as nat, Shl(b1 as nat, 8), 32), Shl(b2 as nat, 16), 32), Shl(b3 as nat, 24), 32)
            == LittleEndian([b0, b1, b2, b3])
  {
    Pow2Word();
    var w1 := b0 as nat + 0x100 * b1 as nat;
    var w2 := w1 + 0x1_0000 * b2 as nat;
    OrByteAt(b0 as nat, b1, 8);
    assert OrBits(b0 as nat, Shl(b1 as nat, 8), 32) == w1;
    OrByteAt(w1, b2, 16);
    assert OrBits(w1, Shl(b2 as nat, 16), 32) == w2;
    OrByteAt(w2, b3, 24);
    LittleEndianWord(b0, b1, b2, b3);
  }

  lemma LittleEndianWord(b0: byte, b1: byte, b2: byte, b3: byte)
    ensures LittleEndian([b0, b1, b2, b3]) == b0 as nat + 0x100 * b1 as nat + 0x1_0000 * b2 as nat + 0x100_0000 * b3 as nat
  {
    assert [b3][1..] == [];
    assert [b2, b3][1..] == [b3];
    assert [b1, b2, b3][1..] == [b2, b3];
    assert [b0, b1, b2, b3][1..] == [b1, b2, b3];
    assert LittleEndian([b2, b3]) == b2 as nat + 0x100 * b3 as nat;
    assert LittleEndian([b1, b2, b3]) == b1 as nat + 0x100 * b2 as nat + 0x1_0000 * b3 as nat;
  }

  /** `hex(n)[2:]`: lower-case hexadecimal digits, no leading zero. */
  function Hex(n: nat): (s: string)
    ensures 1 <= |s| && '.' !in s
    ensures n < 16 <==> |s| == 1
    ensures n < 0x100 ==> |s| <= 2
    decreases n
  {
    if n < 16 then [HexDigit(n)] else Hex(n / 16) + [HexDigit(n % 16)]
  }

  function HexDigit(d: nat): (c: char)
    requires d < 16
    ensures DigitValue(c) == d && c != '.'
  {
    if d < 10 then ('0' as int + d) as char else ('a' as int + d - 10) as char
  }

  function DigitValue(c: char): nat
  {
    if '0' <= c <= '9' then c as int - '0' as int
    else if 'a' <= c <= 'f' then c as int - 'a' as int + 10
    else 0
  }

  /** The number a string of hexadecimal digits spells. */
  function FromHex(s: string): nat
  {
    if s == [] then 0 else 16 * FromHex(s[..|s| - 1]) + DigitValue(s[|s| - 1])
  }

  /** `hex` loses nothing: its digits spell the number back. */
  lemma {:induction false} HexRoundTrip(n: nat)
    ensures FromHex(Hex(n)) == n
  {
    if n >= 16 {
      HexRoundTrip(n / 16);
      var s := Hex(n);
      assert s[..|s| - 1] == Hex(n / 16);
    }
  }

  /** The string the loop of `mac_address` builds: each byte's digits followed by a dot. */
  function Dotted(bs: seq<byte>): string
  {
    if bs == [] then "" else Dotted(bs[..|bs| - 1]) + Hex(bs[|bs| - 1] as nat) + "."
  }

  /** `mac_address`: the bytes in hexadecimal joined by dots (the last dot cut off; nothing for no bytes). */
  function MacText(bs: seq<byte>): string
  {
    var d := Dotted(bs);
    if d == [] then d else d[..|d| - 1]
  }

  /** The fields of a string between its dots. */
  function Fields(s: string): (r: seq<string>)
    ensures |r| >= 1
  {
    if s == [] then [[]]
    else
      var init := Fields(s[..|s| - 1]);
      var c := s[|s| - 1];
      if c == '.' then init + [[]] else init[..|init| - 1] + [init[|init| - 1] + [c]]
  }

  /** A string without dots is one field. */
  lemma {:induction false} FieldsOfWord(w: string)
    requires '.' !in w
    ensures Fields(w) == [w]
  {
    if w != [] {
      var init := w[..|w| - 1];
      assert '.' !in init by {
        forall k | 0 <= k < |init| ensures init[k] != '.' { assert init[k] == w[k]; }
      }
      FieldsOfWord(init);
      assert init + [w[|w| - 1]] == w;
    }
  }

  /** Appending a dot and a dot-free word appends one field. */
  lemma {:induction false} FieldsAppend(s: string, w: string)
    requires '.' !in w
    ensures Fields(s + "." + w) == Fields(s) + [w]
  {
    if w == [] {
      assert s + "." + w == s + ".";
      assert (s + ".")[..|s + "."| - 1] == s;
    } else {
      var init := w[..|w| - 1];
      var c := w[|w| - 1];
      assert '.' !in init by {
        forall k | 0 <= k < |init| ensures init[k] != '.' { assert init[k] == w[k]; }
      }
      FieldsAppend(s, init);
      var t := s + "." + w;
      assert t[..|t| - 1] == s + "." + init;
      assert t[|t| - 1] == c;
      assert init + [c] == w;
    }
  }

  /** The address text of one more byte: one more dot-separated field. */
  lemma MacTextSnoc(bs: seq<byte>)
    requires bs != []
    ensures |bs| == 1 ==> MacText(bs) == Hex(bs[0] as nat)
    ensures |bs| > 1 ==> MacText(bs) == MacText(bs[..|bs| - 1]) + "." + Hex(bs[|bs| - 1] as nat)
  {
    var init := bs[..|bs| - 1];
    var h := Hex(bs[|bs| - 1] as nat);
    var d := Dotted(bs);
    assert d == Dotted(init) + h + ".";
    assert MacText(bs) == Dotted(init) + h by {
      assert d[..|d| - 1] == Dotted(init) + h;
    }
    if init != [] {
      var di := Dotted(init);
      assert di == Dotted(init[..|init| - 1]) + Hex(init[|init| - 1] as nat) + ".";
      assert di == MacText(init) + "." by {
        assert di[..|di| - 1] == MacText(init);
      }
    }
  }

  /** Fields for all bytes but the last, then the last byte's digits: fields for all bytes. */
  lemma AppendHexField(f0: seq<string>, bs: seq<byte>)
    requires |bs| >= 1 && |f0| == |bs| - 1
    requires forall i :: 0 <= i < |f0| ==> f0[i] == Hex(bs[i] as nat)
    ensures forall i :: 0 <= i < |bs| ==> (f0 + [Hex(bs[|bs| - 1] as nat)])[i] == Hex(bs[i] as nat)
  {
  }

  /** The address text reads back field by field. */
  lemma {:induction false} MacFields(bs: seq<byte>)
    requires bs != []
    ensures |Fields(MacText(bs))| == |bs|
    ensures forall i :: 0 <= i < |bs| ==> Fields(MacText(bs))[i] == Hex(bs[i] as nat)
  {
    var n := |bs| - 1;
    var init := bs[..n];
    var h := Hex(bs[n] as nat);
    MacTextSnoc(bs);
    if n == 0 {
      FieldsOfWord(h);
    } else {
      MacFields(init);
      FieldsAppend(MacText(init), h);
      var f0 := Fields(MacText(init));
      assert forall i :: 0 <= i < |f0| ==> f0[i] == Hex(bs[i] as nat) by {
        forall i | 0 <= i < |f0| ensures f0[i] == Hex(bs[i] as nat) { assert bs[i] == init[i]; }
      }
      AppendHexField(f0, bs);
    }
  }

  /** `mac_address` loses nothing: parsing each field of the text gives back the address bytes. */
  lemma MacRoundTrip(bs: seq<byte>)
    requires bs != []
    ensures var f := Fields(MacText(bs));
            |f| == |bs| && forall i :: 0 <= i < |bs| ==> FromHex(f[i]) == bs[i] as nat
  {
    MacFields(bs);
    forall i | 0 <= i < |bs|
      ensures FromHex(Fields(MacText(bs))[i]) == bs[i] as nat
    {
      HexRoundTrip(bs[i] as nat);
    }
  }

  // ------------------------------------------------------ the controller

  class Dualsense {
    const serialNumber: Option<string>
    const path: Option<PathArg>
    var useBluetooth: bool
    var reportLength: nat
    var inputs: Inputs
    var batteryPercent: int
    var batteryState: BatteryState
    var outputs: Outputs
    var lastState: bool
    var macAddress: Option<seq<byte>>
    var hardwareVersion: Option<seq<byte>>
    var firmwareVersion: Option<seq<byte>>

    /** The report length always matches the transport. */
    predicate Valid()
      reads this
    {
      reportLength == ReportLength(useBluetooth)
    }

    function Senses(): Sensed
      reads this
    {
      Sensed(inputs, batteryPercent, batteryState)
    }

    function Info(): DeviceInfo
      reads this
    {
      DeviceInfo(useBluetooth, reportLength, macAddress, hardwareVersion, firmwareVersion)
    }

    /**
     * A new controller: USB, nothing read, battery 0 and unknown, not
     * connected, nothing pending in the outputs.
     */
    constructor (serialNumber: Option<string>, path: Option<PathArg>)
      ensures Valid() && !useBluetooth && this.serialNumber == serialNumber && this.path == path
      ensures Senses() == Sensed(InitialInputs, 0, Unknown)
      ensures outputs == InitialOutputs && Quiet(outputs) && !lastState
      ensures macAddress.None? && hardwareVersion.None? && firmwareVersion.None?
    {
      this.serialNumber := serialNumber;
      this.path := path;
      useBluetooth := false;
      reportLength := UsbReportLength;
      inputs := InitialInputs;
      outputs := InitialOutputs;
      lastState := false;
      macAddress := None;
      hardwareVersion := None;
      firmwareVersion := None;
      batteryPercent := 0;
      batteryState := Unknown;
    }

    /**
     * `open` once the device is in hand: unless already open, settle the
     * transport, record the pairing report's bytes 1..7 and the firmware
     * report's bytes 24..28 and 28..32, and the report length.
     */
    method Open(isOpen: bool, forceBluetooth: bool, serial: Option<string>, devices: seq<Device>,
                pairing: seq<byte>, firmware: seq<byte>) returns (r: OpenResult)
      requires Valid()
      modifies this
      ensures Valid()
      ensures r == if isOpen then AlreadyOpen
                   else match Transport(forceBluetooth, serial, devices, path)
                     case Some(bt) => Opened(bt)
                     case None => LookupTypeError
      ensures r.Opened? ==> Info() == DeviceInfo(r.bluetooth, ReportLength(r.bluetooth), Some(Slice(pairing, 1, 7)),
                                                    Some(Slice(firmware, 24, 28)), Some(Slice(firmware, 28, 32)))
      ensures !r.Opened? ==> Info() == old(Info())
      ensures Senses() == old(Senses()) && outputs == old(outputs) && lastState == old(lastState)
    {
      if isOpen {
        return AlreadyOpen;
      }
      var useBt := forceBluetooth;
      if !forceBluetooth {
        if serial.Some? && serial.value != "" {
          var found := FindDevices(devices, serial, path);
          assert found == Lookup(devices, serial.value, path);
          if !found.OneDevice? {
            return LookupTypeError;
          }
          if found.device.interfaceNumber == -1 {
            useBt := true;
          }
        }
      }
      macAddress := Some(Slice(pairing, 1, 7));
      hardwareVersion := Some(Slice(firmware, 24, 28));
      firmwareVersion := Some(Slice(firmware, 28, 32));
      useBluetooth := useBt;
      reportLength := if useBluetooth then BluetoothReportLength else UsbReportLength;
      r := Opened(useBt);
    }

    /** `mac_address`: the recorded pairing bytes as text, or nothing before `open`. */
    method MacAddress() returns (r: Option<string>)
      ensures r.None? <==> macAddress.None?
      ensures r.Some? ==> r.value == MacText(macAddress.value)
    {
      if macAddress.None? {
        return None;
      }
      var bs := macAddress.value;
      var text := "";
      var i := 0;
      while i < |bs|
        invariant 0 <= i <= |bs|
        invariant text == Dotted(bs[..i])
      {
        assert bs[..i + 1][..i] == bs[..i];
        text := text + Hex(bs[i] as nat) + ".";
        i := i + 1;
      }
      assert bs[..i] == bs;
      if text != "" {
        text := text[..|text| - 1];
      }
      r := Some(text);
    }

    /** `hardware_version`: the little-endian value of the recorded hardware bytes. */
    method HardwareVersion() returns (r: Version)
      ensures r.NotRead? <==> hardwareVersion.None?
      ensures r.IndexError? <==> hardwareVersion.Some? && |hardwareVersion.value| < 4
      ensures r.Word? ==> r.value == LittleEndian(hardwareVersion.value[..4])
    {
      r := VersionWord(hardwareVersion);
    }

    /** `firmware_version`: the little-endian value of the recorded firmware bytes. */
    method FirmwareVersion() returns (r: Version)
      ensures r.NotRead? <==> firmwareVersion.None?
      ensures r.IndexError? <==> firmwareVersion.Some? && |firmwareVersion.value| < 4
      ensures r.Word? ==> r.value == LittleEndian(firmwareVersion.value[..4])
    {
      r := VersionWord(firmwareVersion);
    }

    /** `battery_charging`. */
    function BatteryCharging(): bool
      reads this
    {
      batteryState == Charging
    }

    /** `force_update`: every output component marks everything it holds to be sent. */
    method ForceUpdate()
      modifies this
      ensures outputs == Forced(old(outputs))
      ensures Senses() == old(Senses()) && Info() == old(Info()) && lastState == old(lastState)
    {
      outputs := outputs.(mic := outputs.mic.(ledDirty := true, brightnessDirty := true));
      outputs := outputs.(leftTrigger := outputs.leftTrigger.(dirty := true));
      outputs := outputs.(rightTrigger := outputs.rightTrigger.(dirty := true));
      outputs := outputs.(light := outputs.light.(changed := true));
      outputs := outputs.(player := outputs.player.(patternDirty := true, brightnessDirty := true));
      outputs := outputs.(leftRumble := outputs.leftRumble.(dirty := true));
      outputs := outputs.(rightRumble := outputs.rightRumble.(dirty := true));
      outputs := outputs.(speaker := outputs.speaker.(volumeDirty := true, muteDirty := true));
      outputs := outputs.(microphone := outputs.microphone.(volumeDirty := true, muteDirty := true));
    }

    /**
     * `_update_inputs`: decode a report of the transport's length, move the
     * inputs, then each battery field that changed, firing its callback.
     */
    method UpdateInputs(input: seq<byte>) returns (fired: seq<Event>)
      requires Valid() && |input| == reportLength
      modifies this
      ensures Senses() == Read(old(Senses()), Decode(input, useBluetooth))
      ensures fired == ReadEvents(old(Senses()), Decode(input, useBluetooth))
      ensures Info() == old(Info()) && outputs == old(outputs) && lastState == old(lastState)
    {
      var d := Decode(input, useBluetooth);
      fired := ApplyReport(d);
    }

    /** The part of `_update_inputs` after the offsets are read: the components, then the battery fields. */
    method ApplyReport(d: InputReport) returns (fired: seq<Event>)
      modifies this
      ensures Senses() == Read(old(Senses()), d)
      ensures fired == ReadEvents(old(Senses()), d)
      ensures Info() == old(Info()) && outputs == old(outputs) && lastState == old(lastState)
    {
      var components := InputEvents(inputs, d);
      inputs := ApplyInputs(inputs, d);
      var battery := UpdateBattery(d);
      fired := components + battery;
    }

    /** The end of `_update_inputs`: each battery field that changed takes the new value and fires its callback. */
    method UpdateBattery(d: InputReport) returns (fired: seq<Event>)
      modifies this
      ensures batteryPercent == d.batteryPercent && batteryState == d.batteryState
      ensures fired == BatteryEvents(old(batteryPercent), old(batteryState), d)
      ensures inputs == old(inputs) && Info() == old(Info()) && outputs == old(outputs) && lastState == old(lastState)
    {
      fired := [];
      if d.batteryPercent != batteryPercent {
        fired := fired + [BatteryPercentChanged(d.batteryPercent)];
        batteryPercent := d.batteryPercent;
      }
      if d.batteryState != batteryState {
        fired := fired + [BatteryStateChanged(d.batteryState)];
        batteryState := d.batteryState;
      }
    }

    /**
     * `_generate_report`: ask each output component for its tuple in the
     * source's order, handing the brightness over between the mic button and
     * the player LEDs, and lay the tuples out in a report.
     */
    method GenerateReport(crc32: (int, seq<byte>) -> int) returns (report: seq<byte>)
      modifies this
      ensures report == Frame(Outgoing(old(outputs)), useBluetooth, crc32)
      ensures outputs == Sent(old(outputs))
      ensures Senses() == old(Senses()) && Info() == old(Info()) && lastState == old(lastState)
    {
      var o := outputs;
      var mic := MicReportOf(o.mic);
      o := o.(mic := o.mic.(ledDirty := false, brightnessDirty := false));
      var micSetBrightness := false;
      if mic.ledFlag != 0 {
        o := o.(player := o.player.(brightness := o.mic.brightness));
        micSetBrightness := true;
      }
      var left := TriggerReportOf(LeftTrigger, o.leftTrigger);
      o := o.(leftTrigger := o.leftTrigger.(dirty := false));
      var right := TriggerReportOf(RightTrigger, o.rightTrigger);
      o := o.(rightTrigger := o.rightTrigger.(dirty := false));
      var light := Touchpads.LightReport(o.light.changed, o.light.fade, o.light.color);
      o := o.(light := o.light.(changed := false, fade := false));
      var player := PlayerReportOf(o.player);
      o := o.(player := o.player.(patternDirty := false, brightnessDirty := false));
      if player.ledFlag != 0 && !micSetBrightness {
        o := o.(mic := o.mic.(brightness := o.player.brightness));
      }
      var leftRumble := RumbleReportOf(o.leftRumble);
      o := o.(leftRumble := o.leftRumble.(dirty := false));
      var rightRumble := RumbleReportOf(o.rightRumble);
      o := o.(rightRumble := o.rightRumble.(dirty := false));
      var speaker := SpeakerReportOf(o.speaker);
      o := o.(speaker := o.speaker.(volumeDirty := false, muteDirty := false));
      var microphone := MicrophoneReportOf(o.microphone);
      o := o.(microphone := o.microphone.(volumeDirty := false, muteDirty := false));
      outputs := o;
      report := Assemble(Reports(mic, left, right, light, player, leftRumble, rightRumble, speaker, microphone),
                         useBluetooth, crc32);
    }

    /**
     * One turn of `_update`'s loop: decode a report of the right length
     * (another is ignored), announce the connection the first time, send an
     * output report, then `on_update`.
     */
    method Step(input: seq<byte>, crc32: (int, seq<byte>) -> int) returns (fired: seq<Event>, report: seq<byte>)
      requires Valid()
      modifies this
      ensures Valid() && Info() == old(Info())
      ensures Senses() == Absorb(old(Senses()), input, useBluetooth)
      ensures lastState && outputs == Sent(old(outputs))
      ensures report == Frame(Outgoing(old(outputs)), useBluetooth, crc32)
      ensures fired == TurnEvents(old(Senses()), input, useBluetooth, old(lastState))
    {
      var read := [];
      if |input| == reportLength {
        read := UpdateInputs(input);
      }
      var connect := [];
      if !lastState {
        connect := [ConnectionChanged(true)];
        lastState := true;
      }
      report := GenerateReport(crc32);
      fired := read + connect + [Updated];
    }

    /**
     * The loop of `_update` over the reads it makes before it stops: a turn
     * per read. The first report carries what was pending; every later one
     * carries nothing new.
     */
    method Turns(received: seq<seq<byte>>, crc32: (int, seq<byte>) -> int) returns (fired: seq<Event>, written: seq<seq<byte>>)
      requires Valid()
      modifies this
      ensures Valid() && Info() == old(Info())
      ensures Senses() == Absorbed(old(Senses()), received, useBluetooth)
      ensures outputs == if received == [] then old(outputs) else Sent(old(outputs))
      ensures lastState == (old(lastState) || received != [])
      ensures |written| == |received|
      ensures received != [] ==> written[0] == Frame(Outgoing(old(outputs)), useBluetooth, crc32)
      ensures forall i :: 0 < i < |written| ==> written[i] == Frame(Outgoing(Sent(old(outputs))), useBluetooth, crc32)
      ensures fired == RunEvents(old(Senses()), received, useBluetooth, old(lastState))
    {
      ghost var s0 := Senses();
      ghost var o0 := outputs;
      ghost var c0 := lastState;
      ghost var bt := useBluetooth;
      fired := [];
      written := [];
      var i := 0;
      while i < |received|
        invariant 0 <= i <= |received|
        invariant Valid() && Info() == old(Info()) && useBluetooth == bt
        invariant Senses() == Absorbed(s0, received[..i], bt)
        invariant outputs == if i == 0 then o0 else Sent(o0)
        invariant lastState == (c0 || i > 0)
        invariant |written| == i && Wrote(written, o0, bt, crc32)
        invariant fired == RunEvents(s0, received[..i], bt, c0)
      {
        ghost var from := outputs;
        RunNext(s0, received, i, bt, c0);
        var turn, report := Step(received[i], crc32);
        WroteNext(written, report, from, o0, bt, crc32);
        fired := fired + turn;
        written := written + [report];
        i := i + 1;
      }
      assert received[..i] == received;
    }

    /** `_update`: the turns, then the `finally` clause (with its test corrected). */
    method Run(received: seq<seq<byte>>, crc32: (int, seq<byte>) -> int) returns (fired: seq<Event>, written: seq<seq<byte>>)
      requires Valid()
      modifies this
      ensures Valid() && Info() == old(Info())
      ensures Senses() == Absorbed(old(Senses()), received, useBluetooth)
      ensures outputs == if received == [] then old(outputs) else Sent(old(outputs))
      ensures |written| == |received|
      ensures received != [] ==> written[0] == Frame(Outgoing(old(outputs)), useBluetooth, crc32)
      ensures forall i :: 0 < i < |written| ==> written[i] == Frame(Outgoing(Sent(old(outputs))), useBluetooth, crc32)
      ensures fired == RunEvents(old(Senses()), received, useBluetooth, old(lastState)) + Finish(old(lastState) || received != []).0
      ensures !lastState
    {
      fired, written := Turns(received, crc32);
      if lastState {
        fired := fired + [ConnectionChanged(false)];
        lastState := false;
      }
    }

    /** `_update` as written: the turns, then the `finally` clause testing `not self._last_state`. */
    method RunAsWritten(received: seq<seq<byte>>, crc32: (int, seq<byte>) -> int) returns (fired: seq<Event>, written: seq<seq<byte>>)
      requires Valid()
      modifies this
      ensures Valid() && Info() == old(Info())
      ensures Senses() == Absorbed(old(Senses()), received, useBluetooth)
      ensures outputs == if received == [] then old(outputs) else Sent(old(outputs))
      ensures |written| == |received|
      ensures received != [] ==> written[0] == Frame(Outgoing(old(outputs)), useBluetooth, crc32)
      ensures forall i :: 0 < i < |written| ==> written[i] == Frame(Outgoing(Sent(old(outputs))), useBluetooth, crc32)
      ensures fired == RunEvents(old(Senses()), received, useBluetooth, old(lastState)) + FinishAsWritten(old(lastState) || received != []).0
      ensures lastState == FinishAsWritten(old(lastState) || received != []).1
    {
      fired, written := Turns(received, crc32);
      if !lastState {
        fired := fired + [ConnectionChanged(false)];
        lastState := false;
      }
    }
  }
}
