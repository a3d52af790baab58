/**
 * An analog stick with a click (components/thumbstick.py). The stick is a
 * Button (its click) that also keeps a position pair; `update` first updates
 * the click exactly as `Button.update` does, then stores a given position and
 * fires `on_move` when it differs from the stored one.
 */
module Thumbsticks {
  import opened Wrappers
  import opened Buttons

  /** Which of the controller's two sticks an object stands for. */
  datatype Side = LeftSide | RightSide

  /** A callback firing of a stick: one of its click's, or `on_move(pos)`. */
  datatype StickEvent = Click(event: ButtonEvent) | Moved(pos: (int, int))

  /** The firings of a stick's click, as stick events. */
  function StickClicks(evs: seq<ButtonEvent>): (r: seq<StickEvent>)
    ensures |r| == |evs|
    ensures forall i :: 0 <= i < |evs| ==> r[i] == Click(evs[i])
  {
    if evs == [] then [] else [Click(evs[0])] + StickClicks(evs[1..])
  }

  /** The position a stick holds after `update(_, pos)`: `pos` when given, else the one it had. */
  function NextPos(was: (int, int), pos: Option<(int, int)>): (r: (int, int))
    ensures pos.None? ==> r == was
    ensures pos.Some? ==> r == pos.value
  {
    if pos.Some? && pos.value != was then pos.value else was
  }

  /** The `on_move` firings of `update(_, pos)`: one, carrying the new position, iff a different position is given. */
  function MoveEvents(was: (int, int), pos: Option<(int, int)>): (r: seq<StickEvent>)
    ensures |r| <= 1
    ensures r != [] <==> pos.Some? && pos.value != was
    ensures r != [] ==> r == [Moved(pos.value)]
  {
    if pos.Some? && pos.value != was then [Moved(pos.value)] else []
  }

  /** Giving a stick the click state and position it already holds fires nothing. */
  lemma StickReplayIsSilent(pressed: bool, was: (int, int), pos: Option<(int, int)>)
    ensures StickClicks(Edge(pressed, pressed)) + MoveEvents(NextPos(was, pos), pos) == []
  {
    assert Edge(pressed, pressed) == [];
    assert MoveEvents(NextPos(was, pos), pos) == [];
  }

  class Thumbstick {
    ghost const side: Side
    var pressed: bool
    var pos: (int, int)

    /** A new stick is released and centred at (0, 0); `x`, `y` and `pos` read `pos.0`, `pos.1` and `pos`. */
    constructor (ghost side: Side)
      ensures this.side == side && !pressed && pos == (0, 0)
    {
      this.side := side;
      pressed := false;
      pos := (0, 0);
    }

    /** `update(pressed, pos)`; `None` stands for an omitted position. */
    method Update(state: bool, newPos: Option<(int, int)>) returns (fired: seq<StickEvent>)
      modifies this
      ensures pressed == state
      ensures pos == NextPos(old(pos), newPos)
      ensures fired == StickClicks(Edge(old(pressed), state)) + MoveEvents(old(pos), newPos)
    {
      var clicks := [];
      if state != pressed {
        pressed := state;
        if state {
          clicks := clicks + [Pressed];
        }
        clicks := clicks + [StateChanged(state)];
      }
      fired := StickClicks(clicks);
      if newPos.Some? && newPos.value != pos {
        pos := newPos.value;
        fired := fired + [Moved(newPos.value)];
      }
    }
  }
}
