/**
 * The touch surface (components/touchpad.py): a clickable Button with two
 * touch slots (`TouchPoint`) and the light bars on its sides, whose colour is
 * sent to the controller through a dirty flag that `get_report` clears.
 */
module Touchpads {
  import opened Wrappers
  import opened Buttons
  import opened Const
  import opened Bytes

  /** One decoded touch slot: `(id, active, x, y)`. */
  datatype TouchReport = TouchReport(id: int, active: bool, x: int, y: int)

  /** A callback firing of a touch slot: `on_touch((id, selected))` or `on_move((x, y))`. */
  datatype TouchEvent = Touched(id: int, selected: bool) | Moved(pos: (int, int))

  /** What a touch slot remembers. */
  datatype PointState = PointState(id: int, selected: bool, pos: (int, int))

  /** The state a slot holds after `update(report)`: the id always, the activity and position as reported. */
  function PointStep(s: PointState, t: TouchReport): (r: PointState)
    ensures r.id == t.id && r.selected == t.active && r.pos == (t.x, t.y)
  {
    PointState(t.id, if t.active != s.selected then t.active else s.selected,
               if (t.x, t.y) != s.pos then (t.x, t.y) else s.pos)
  }

  /** The callbacks `update(report)` fires: `on_touch` iff the activity changed, then `on_move` iff the position changed. */
  function PointEvents(s: PointState, t: TouchReport): (r: seq<TouchEvent>)
    ensures Touched(t.id, t.active) in r <==> t.active != s.selected
    ensures Moved((t.x, t.y)) in r <==> (t.x, t.y) != s.pos
    ensures |r| == (if t.active != s.selected then 1 else 0) + (if (t.x, t.y) != s.pos then 1 else 0)
    // `on_touch` comes first
    ensures t.active != s.selected ==> r[0] == Touched(t.id, t.active)
  {
    (if t.active != s.selected then [Touched(t.id, t.active)] else [])
    + (if (t.x, t.y) != s.pos then [Moved((t.x, t.y))] else [])
  }

  /** What iterating a slot yields: its position while selected, `(-1, -1)` otherwise. */
  function PointValue(s: PointState): (int, int)
  {
    if s.selected then s.pos else (-1, -1)
  }

  /** Repeating a slot's report fires nothing; and after any report the slot iterates to the reported position exactly when it is active. */
  lemma PointReplay(s: PointState, t: TouchReport)
    ensures PointEvents(PointStep(s, t), t) == []
    ensures PointStep(PointStep(s, t), t) == PointStep(s, t)
    ensures PointValue(PointStep(s, t)) == if t.active then (t.x, t.y) else (-1, -1)
  {
  }

  class TouchPoint {
    ghost const slot: nat
    var id: int
    var selected: bool
    var pos: (int, int)

    function State(): PointState
      reads this
    {
      PointState(id, selected, pos)
    }

    /** A new slot has id -1, is not touched and sits at (-1, -1). */
    constructor (ghost slot: nat)
      ensures this.slot == slot
      ensures id == -1 && !selected && pos == (-1, -1)
    {
      this.slot := slot;
      id := -1;
      selected := false;
      pos := (-1, -1);
    }

    /** `__iter__` (and `__bool__` as `selected`): the position while touched, `(-1, -1)` otherwise. */
    function Iter(): (r: (int, int))
      reads this
      ensures selected ==> r == pos
      ensures !selected ==> r == (-1, -1)
    {
      PointValue(State())
    }

    /** `update(touch_point_report)`. */
    method Update(report: TouchReport) returns (fired: seq<TouchEvent>)
      modifies this
      ensures State() == PointStep(old(State()), report)
      ensures fired == PointEvents(old(State()), report)
    {
      fired := [];
      id := report.id;
      if report.active != selected {
        selected := report.active;
        fired := fired + [Touched(report.id, report.active)];
      }
      var p := (report.x, report.y);
      if p != pos {
        pos := p;
        fired := fired + [Moved(p)];
      }
    }
  }

  /** A callback firing of the touchpad: its click's, or one of slot 1's or slot 2's. */
  datatype TouchpadEvent = Click(event: ButtonEvent) | Point(slot: nat, touch: TouchEvent)

  /** The firings of the touchpad's click, as touchpad events. */
  function PadClicks(evs: seq<ButtonEvent>): (r: seq<TouchpadEvent>)
    ensures |r| == |evs|
    ensures forall i :: 0 <= i < |evs| ==> r[i] == Click(evs[i])
  {
    if evs == [] then [] else [Click(evs[0])] + PadClicks(evs[1..])
  }

  function TagPoint(slot: nat, evs: seq<TouchEvent>): (r: seq<TouchpadEvent>)
    ensures |r| == |evs|
    ensures forall i :: 0 <= i < |evs| ==> r[i] == Point(slot, evs[i])
  {
    if evs == [] then [] else [Point(slot, evs[0])] + TagPoint(slot, evs[1..])
  }

  /** A colour of the light bars: red, green and blue bytes. */
  type Rgb = c: seq<byte> | |c| == 3 witness [0, 0, 0]

  /** The tuple `get_report` returns: update flag, colour, LED flag and LED mode. */
  datatype LedReport = LedReport(flag: byte, color: Rgb, ledFlag: byte, mode: byte)

  /** The report of light bars holding `color`, dirty iff `changed`, asked to fade iff `fade`. */
  function LightReport(changed: bool, fade: bool, color: Rgb): (r: LedReport)
    ensures r.flag == TouchpadLed <==> changed
    ensures r.flag == Flags2None <==> !changed
    ensures r.ledFlag == LedTouchpad && r.mode == FadeBlue <==> fade
    ensures r.ledFlag == LedNone && r.mode == TouchpadLedModeNone <==> !fade
    ensures r.color == color
  {
    LedReport(if changed then TouchpadLed else Flags2None, color,
              if fade then LedTouchpad else LedNone,
              if fade then FadeBlue else TouchpadLedModeNone)
  }

  /** The light bars' output state: the colour, whether it changed since the last report, and whether a fade to blue is pending. */
  datatype LightBars = LightBars(color: Rgb, changed: bool, fade: bool)

  /** Whether the `led_color` setter accepts a value: three components, each in 0..255. */
  predicate AcceptedColor(color: seq<int>)
  {
    |color| == 3 && 0 <= color[0] <= 255 && 0 <= color[1] <= 255 && 0 <= color[2] <= 255
  }

  class Touchpad {
    var pressed: bool
    const point1: TouchPoint
    const point2: TouchPoint
    var ledR: byte
    var ledG: byte
    var ledB: byte
    var ledChanged: bool
    var fadeToBlue: bool

    ghost predicate Valid()
      reads this
    {
      point1.slot == 1 && point2.slot == 2
    }

    /** The `led_color` property. */
    function LedColor(): (c: Rgb)
      reads this
    {
      var c: seq<byte> := [ledR, ledG, ledB];
      assert |c| == 3;
      c
    }

    /** The light bars' output state. */
    function Bars(): LightBars
      reads this
    {
      LightBars(LedColor(), ledChanged, fadeToBlue)
    }

    /** A new touchpad is released, has two fresh slots, dark light bars and nothing to send. */
    constructor ()
      ensures Valid() && fresh(point1) && fresh(point2)
      ensures !pressed && LedColor() == [0, 0, 0] && !ledChanged && !fadeToBlue
      ensures point1.State() == PointState(-1, false, (-1, -1))
      ensures point2.State() == PointState(-1, false, (-1, -1))
    {
      pressed := false;
      point1 := new TouchPoint(1);
      point2 := new TouchPoint(2);
      ledR, ledG, ledB := 0, 0, 0;
      ledChanged := false;
      fadeToBlue := false;
    }

    /**
     * The `led_color` setter. An accepted colour is stored and marked dirty
     * even when it equals the current one; anything else changes nothing.
     */
    method SetLedColor(color: seq<int>)
      modifies this
      ensures AcceptedColor(color) ==> ledChanged && LedColor() == [color[0] as byte, color[1] as byte, color[2] as byte]
      ensures AcceptedColor(color) ==> ledR as int == color[0] && ledG as int == color[1] && ledB as int == color[2]
      ensures !AcceptedColor(color) ==> ledChanged == old(ledChanged) && LedColor() == old(LedColor())
      ensures pressed == old(pressed) && fadeToBlue == old(fadeToBlue)
    {
      if |color| == 3 {
        if 0 <= color[0] <= 255 && 0 <= color[1] <= 255 && 0 <= color[2] <= 255 {
          ledChanged := true;
          ledR, ledG, ledB := color[0] as byte, color[1] as byte, color[2] as byte;
        }
      }
    }

    /** `led_off`: dark light bars, marked dirty. */
    method LedOff()
      modifies this
      ensures ledChanged && LedColor() == [0, 0, 0]
      ensures pressed == old(pressed) && fadeToBlue == old(fadeToBlue)
    {
      ledChanged := true;
      ledR, ledG, ledB := 0, 0, 0;
    }

    /** `fade_to_blue`: the next report asks the controller to fade the bars to blue. */
    method FadeToBlue()
      modifies this
      ensures fadeToBlue
      ensures pressed == old(pressed) && ledChanged == old(ledChanged) && LedColor() == old(LedColor())
    {
      fadeToBlue := true;
    }

    /** `force_update`: the colour is sent again without being changed. */
    method ForceUpdate()
      modifies this
      ensures ledChanged
      ensures pressed == old(pressed) && fadeToBlue == old(fadeToBlue) && LedColor() == old(LedColor())
    {
      ledChanged := true;
    }

    /** `get_report`: reports the light bars and clears both requests, so a second call at once reports nothing. */
    method GetReport() returns (r: LedReport)
      modifies this
      ensures r == LightReport(old(ledChanged), old(fadeToBlue), old(LedColor()))
      ensures !ledChanged && !fadeToBlue
      ensures pressed == old(pressed) && LedColor() == old(LedColor())
    {
      var flag := if ledChanged then TouchpadLed else Flags2None;
      var ledFlag := if fadeToBlue then LedTouchpad else LedNone;
      var ledMode := if fadeToBlue then FadeBlue else TouchpadLedModeNone;
      ledChanged := false;
      fadeToBlue := false;
      r := LedReport(flag, LedColor(), ledFlag, ledMode);
    }

    /**
     * `update(state, report1, report2)`: the click as `Button.update`, then
     * each slot whose report is given. The trace holds the click's firings,
     * then slot 1's, then slot 2's.
     */
    method Update(state: bool, report1: Option<TouchReport>, report2: Option<TouchReport>)
      returns (fired: seq<TouchpadEvent>)
      requires Valid()
      modifies this, point1, point2
      ensures Valid()
      ensures pressed == state
      ensures ledChanged == old(ledChanged) && fadeToBlue == old(fadeToBlue) && LedColor() == old(LedColor())
      ensures point1.State() == (if report1.Some? then PointStep(old(point1.State()), report1.value) else old(point1.State()))
      ensures point2.State() == (if report2.Some? then PointStep(old(point2.State()), report2.value) else old(point2.State()))
      ensures fired == PadClicks(Edge(old(pressed), state))
                       + (if report1.Some? then TagPoint(1, PointEvents(old(point1.State()), report1.value)) else [])
                       + (if report2.Some? then TagPoint(2, PointEvents(old(point2.State()), report2.value)) else [])
    {
      var clicks := [];
      if state != pressed {
        pressed := state;
        if state {
          clicks := clicks + [Pressed];
        }
        clicks := clicks + [StateChanged(state)];
      }
      fired := PadClicks(clicks);
      if report1.Some? {
        var e1 := point1.Update(report1.value);
        fired := fired + TagPoint(1, e1);
      }
      if report2.Some? {
        var e2 := point2.Update(report2.value);
        fired := fired + TagPoint(2, e2);
      }
    }
  }
}
