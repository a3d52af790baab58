/**
 * The directional pad (components/dpad.py): `DpadDirection`, an IntFlag whose
 * members NONE, UP, DOWN, LEFT, RIGHT are the bits 1, 2, 4, 8, 16 (`auto()`
 * starts at 1), and `Dpad`, which keeps the raw hat code reported by the
 * controller, the direction derived from it and four Buttons that mirror the
 * direction.
 */
module Dpads {
  import opened Buttons

  /**
   * A `DpadDirection` value: the set of its member flags. `|` on the IntFlag
   * is the union of the sets, and `Value` is the integer the flags add up to.
   */
  datatype Direction = Direction(none: bool, up: bool, down: bool, left: bool, right: bool)

  const DirectionNone := Direction(true, false, false, false, false)
  const DirectionUp := Direction(false, true, false, false, false)
  const DirectionDown := Direction(false, false, true, false, false)
  const DirectionLeft := Direction(false, false, false, true, false)
  const DirectionRight := Direction(false, false, false, false, true)

  /** `a | b` on two directions. */
  function Union(a: Direction, b: Direction): Direction
  {
    Direction(a.none || b.none, a.up || b.up, a.down || b.down, a.left || b.left, a.right || b.right)
  }

  function BitIf(b: bool, bit: int): int { if b then bit else 0 }

  /** The integer of an IntFlag value: NONE, UP, DOWN, LEFT and RIGHT are the bits 1, 2, 4, 8 and 16. */
  function Value(d: Direction): (v: int)
    ensures 0 <= v < 32
  {
    BitIf(d.none, 1) + BitIf(d.up, 2) + BitIf(d.down, 4) + BitIf(d.left, 8) + BitIf(d.right, 16)
  }

  /** Distinct directions have distinct integers, and the members are the five single bits. */
  lemma ValueInjective(a: Direction, b: Direction)
    ensures Value(a) == Value(b) <==> a == b
    ensures Value(DirectionNone) == 1 && Value(DirectionUp) == 2 && Value(DirectionDown) == 4
    ensures Value(DirectionLeft) == 8 && Value(DirectionRight) == 16
  {
  }

  /** `flag in direction`: every member of the flag is in the direction. */
  predicate Has(direction: Direction, flag: Direction)
  {
    Union(direction, flag) == direction
  }

  /** The `up`, `down`, `left` and `right` properties. */
  predicate IsUp(d: Direction) { Has(d, DirectionUp) }
  predicate IsDown(d: Direction) { Has(d, DirectionDown) }
  predicate IsLeft(d: Direction) { Has(d, DirectionLeft) }
  predicate IsRight(d: Direction) { Has(d, DirectionRight) }

  /**
   * `DpadDirection.build_from_value`: NONE, plus UP for codes 7, 0, 1, DOWN for
   * 3, 4, 5, LEFT for 5, 6, 7 and RIGHT for 1, 2, 3.
   */
  function BuildFromValue(value: int): (d: Direction)
    ensures Has(d, DirectionNone)
    ensures IsUp(d) <==> value == 7 || value == 0 || value == 1
    ensures IsDown(d) <==> 3 <= value <= 5
    ensures IsLeft(d) <==> 5 <= value <= 7
    ensures IsRight(d) <==> 1 <= value <= 3
    // the two axes never point both ways at once
    ensures !(IsUp(d) && IsDown(d)) && !(IsLeft(d) && IsRight(d))
    // the code for "released" (8), and every code the table does not know, is NONE alone
    ensures !(0 <= value <= 7) <==> d == DirectionNone
    ensures 1 <= Value(d) < 32
  {
    var up := value in {7, 0, 1};
    var down := value in {3, 4, 5};
    var left := value in {5, 6, 7};
    var right := value in {1, 2, 3};
    var direction := DirectionNone;
    var direction := if up then Union(direction, DirectionUp) else direction;
    var direction := if down then Union(direction, DirectionDown) else direction;
    var direction := if left then Union(direction, DirectionLeft) else direction;
    var direction := if right then Union(direction, DirectionRight) else direction;
    direction
  }

  datatype Arrow = Up | Down | Left | Right

  /** The hat-code table of the controller's documentation: 0 is up, then clockwise in eighths; 8 is released. */
  function Documented(value: int): set<Arrow>
  {
    match value
    case 0 => {Up}
    case 1 => {Up, Right}
    case 2 => {Right}
    case 3 => {Down, Right}
    case 4 => {Down}
    case 5 => {Down, Left}
    case 6 => {Left}
    case 7 => {Up, Left}
    case _ => {}
  }

  function ArrowFlag(a: Arrow): Direction
  {
    match a
    case Up => DirectionUp
    case Down => DirectionDown
    case Left => DirectionLeft
    case Right => DirectionRight
  }

  /** `build_from_value` sets exactly the arrows the documented table names. */
  lemma BuildFromValueIsDocumented(value: int, a: Arrow)
    ensures Has(BuildFromValue(value), ArrowFlag(a)) <==> a in Documented(value)
  {
  }

  /** A callback firing of the d-pad: `on_direction(direction)`, or one of its four buttons' callbacks. */
  datatype DpadEvent = DirectionChanged(direction: Direction) | ArrowEvent(arrow: Arrow, event: ButtonEvent)

  function TagArrow(a: Arrow, evs: seq<ButtonEvent>): (r: seq<DpadEvent>)
    ensures |r| == |evs|
  {
    if evs == [] then [] else [ArrowEvent(a, evs[0])] + TagArrow(a, evs[1..])
  }

  /** What a d-pad remembers; its four buttons always mirror `direction`. */
  datatype DpadState = DpadState(raw: int, direction: Direction)

  /** The state after `update(value)`: a changed code is stored and its direction derived. */
  function Step(s: DpadState, value: int): DpadState
  {
    if value == s.raw then s else DpadState(value, BuildFromValue(value))
  }

  /** The callbacks of the four buttons when the direction goes from `was` to `now`, in the order up, down, left, right. */
  function ArrowEvents(was: Direction, now: Direction): (r: seq<DpadEvent>)
    ensures was == now ==> r == []
  {
    TagArrow(Up, Edge(IsUp(was), IsUp(now)))
    + TagArrow(Down, Edge(IsDown(was), IsDown(now)))
    + TagArrow(Left, Edge(IsLeft(was), IsLeft(now)))
    + TagArrow(Right, Edge(IsRight(was), IsRight(now)))
  }

  lemma ArrowEventsOf(was: Direction, now: Direction, eu: seq<ButtonEvent>, ed: seq<ButtonEvent>,
                      el: seq<ButtonEvent>, er: seq<ButtonEvent>)
    requires eu == Edge(IsUp(was), IsUp(now)) && ed == Edge(IsDown(was), IsDown(now))
    requires el == Edge(IsLeft(was), IsLeft(now)) && er == Edge(IsRight(was), IsRight(now))
    ensures TagArrow(Up, eu) + TagArrow(Down, ed) + TagArrow(Left, el) + TagArrow(Right, er) == ArrowEvents(was, now)
  {
  }

  /**
   * The callbacks `update(value)` fires: none for a repeated code; otherwise
   * `on_direction` once with the derived direction, then the buttons' own.
   */
  function Fired(s: DpadState, value: int): seq<DpadEvent>
  {
    if value == s.raw then []
    else
      var d := BuildFromValue(value);
      [DirectionChanged(d)] + ArrowEvents(s.direction, d)
  }

  /** Reporting the same code again fires nothing and changes nothing. */
  lemma StepIdempotent(s: DpadState, value: int)
    ensures Step(Step(s, value), value) == Step(s, value)
    ensures Fired(Step(s, value), value) == []
  {
  }

  class Dpad {
    var raw: int
    var direction: Direction
    const up: Button
    const down: Button
    const left: Button
    const right: Button

    ghost predicate Valid()
      reads this, up, down, left, right
    {
      up.name == DpadUp && down.name == DpadDown && left.name == DpadLeft && right.name == DpadRight
      && up.pressed == IsUp(direction) && down.pressed == IsDown(direction)
      && left.pressed == IsLeft(direction) && right.pressed == IsRight(direction)
    }

    function State(): DpadState
      reads this
    {
      DpadState(raw, direction)
    }

    /** A new d-pad holds code 0 with direction NONE (not UP, which code 0 means) and four released buttons. */
    constructor ()
      ensures Valid() && fresh(up) && fresh(down) && fresh(left) && fresh(right)
      ensures raw == 0 && direction == DirectionNone
      ensures !up.pressed && !down.pressed && !left.pressed && !right.pressed
    {
      up := new Button(DpadUp);
      down := new Button(DpadDown);
      left := new Button(DpadLeft);
      right := new Button(DpadRight);
      raw := 0;
      direction := DirectionNone;
    }

    /** The four button updates of `update`, mirroring direction `now` after `was`. */
    method SetArrows(ghost was: Direction, now: Direction) returns (fired: seq<DpadEvent>)
      requires up.name == DpadUp && down.name == DpadDown && left.name == DpadLeft && right.name == DpadRight
      requires up.pressed == IsUp(was) && down.pressed == IsDown(was)
      requires left.pressed == IsLeft(was) && right.pressed == IsRight(was)
      modifies up, down, left, right
      ensures up.pressed == IsUp(now) && down.pressed == IsDown(now)
      ensures left.pressed == IsLeft(now) && right.pressed == IsRight(now)
      ensures fired == ArrowEvents(was, now)
    {
      var eu := up.Update(IsUp(now));
      var ed := down.Update(IsDown(now));
      var el := left.Update(IsLeft(now));
      var er := right.Update(IsRight(now));
      assert eu == Edge(IsUp(was), IsUp(now));
      assert ed == Edge(IsDown(was), IsDown(now));
      assert el == Edge(IsLeft(was), IsLeft(now));
      assert er == Edge(IsRight(was), IsRight(now));
      ArrowEventsOf(was, now, eu, ed, el, er);
      fired := TagArrow(Up, eu) + TagArrow(Down, ed) + TagArrow(Left, el) + TagArrow(Right, er);
    }

    /** `update(value)`. */
    method Update(value: int) returns (fired: seq<DpadEvent>)
      requires Valid()
      modifies this, up, down, left, right
      ensures Valid()
      ensures State() == Step(old(State()), value)
      ensures fired == Fired(old(State()), value)
    {
      fired := [];
      if value != raw {
        var was := direction;
        raw := value;
        direction := BuildFromValue(value);
        var arrows := SetArrows(was, direction);
        fired := [DirectionChanged(direction)] + arrows;
      }
    }
  }
}
