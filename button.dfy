/**
 * An edge-triggered push button (components/button.py). `update` stores the
 * new state and fires callbacks only when the state changes: `on_press` on a
 * press, then `on_state` with the new state on every change. The callbacks a
 * call fires are returned as a trace.
 */
module Buttons {

  /** A callback firing of a button: `on_press()` or `on_state(state)`. */
  datatype ButtonEvent = Pressed | StateChanged(state: bool)

  /** Which physical button an object stands for; distinguishes the controller's buttons. */
  datatype ButtonName =
    | Circle | Cross | Square | Triangle
    | Share | Options | Ps
    | LeftBumper | RightBumper
    | DpadUp | DpadDown | DpadLeft | DpadRight

  /** The callbacks `update` fires when the state goes from `was` to `now`. */
  function Edge(was: bool, now: bool): seq<ButtonEvent>
  {
    if now == was then []
    else if now then [Pressed, StateChanged(true)]
    else [StateChanged(false)]
  }

  /** A repeated state fires nothing; `on_press` fires exactly on a release-to-press change. */
  lemma EdgeMeaning(was: bool, now: bool)
    ensures was == now ==> Edge(was, now) == []
    ensures Pressed in Edge(was, now) <==> !was && now
    ensures was != now ==> StateChanged(now) in Edge(was, now)
    ensures forall s :: StateChanged(s) in Edge(was, now) <==> was != now && s == now
  {
  }

  class Button {
    ghost const name: ButtonName
    var pressed: bool

    /** A new button is released. */
    constructor (ghost name: ButtonName)
      ensures this.name == name && !pressed
    {
      this.name := name;
      pressed := false;
    }

    /** `update`: stores the state reported by the controller. */
    method Update(state: bool) returns (fired: seq<ButtonEvent>)
      modifies this
      ensures pressed == state
      ensures fired == Edge(old(pressed), state)
    {
      fired := [];
      if state != pressed {
        pressed := state;
        if state {
          fired := fired + [Pressed];
        }
        fired := fired + [StateChanged(state)];
      }
    }
  }

  /** The trace of a button that starts in state `was` and is updated with each of `states` in turn. */
  function Run(was: bool, states: seq<bool>): seq<ButtonEvent>
    decreases |states|
  {
    if states == [] then [] else Edge(was, states[0]) + Run(states[0], states[1..])
  }

  /** The number of release-to-press changes along `states`, starting from `was`. */
  function Rises(was: bool, states: seq<bool>): nat
    decreases |states|
  {
    if states == [] then 0
    else (if !was && states[0] then 1 else 0) + Rises(states[0], states[1..])
  }

  /** The number of state changes along `states`, starting from `was`. */
  function Changes(was: bool, states: seq<bool>): nat
    decreases |states|
  {
    if states == [] then 0
    else (if was != states[0] then 1 else 0) + Changes(states[0], states[1..])
  }

  function CountPresses(evs: seq<ButtonEvent>): nat
  {
    if evs == [] then 0 else (if evs[0] == Pressed then 1 else 0) + CountPresses(evs[1..])
  }

  function CountStates(evs: seq<ButtonEvent>): nat
  {
    if evs == [] then 0 else (if evs[0].StateChanged? then 1 else 0) + CountStates(evs[1..])
  }

  lemma {:induction false} CountPressesAppend(a: seq<ButtonEvent>, b: seq<ButtonEvent>)
    ensures CountPresses(a + b) == CountPresses(a) + CountPresses(b)
  {
    if a != [] {
      assert (a + b)[1..] == a[1..] + b;
      CountPressesAppend(a[1..], b);
    } else {
      assert a + b == b;
    }
  }

  lemma {:induction false} CountStatesAppend(a: seq<ButtonEvent>, b: seq<ButtonEvent>)
    ensures CountStates(a + b) == CountStates(a) + CountStates(b)
  {
    if a != [] {
      assert (a + b)[1..] == a[1..] + b;
      CountStatesAppend(a[1..], b);
    } else {
      assert a + b == b;
    }
  }

  /**
   * Over any sequence of updates, `on_press` fires exactly once per
   * release-to-press change and `on_state` exactly once per change.
   */
  lemma {:induction false} RunCountsEdges(was: bool, states: seq<bool>)
    ensures CountPresses(Run(was, states)) == Rises(was, states)
    ensures CountStates(Run(was, states)) == Changes(was, states)
    decreases |states|
  {
    if states != [] {
      RunCountsEdges(states[0], states[1..]);
      CountPressesAppend(Edge(was, states[0]), Run(states[0], states[1..]));
      CountStatesAppend(Edge(was, states[0]), Run(states[0], states[1..]));
    }
  }

  /** Holding a button in the state it is already in fires nothing, however often it is reported. */
  lemma {:induction false} RunSteadyIsSilent(was: bool, n: nat)
    ensures Run(was, seq(n, _ => was)) == []
  {
    if n > 0 {
      var states := seq(n, _ => was);
      assert states[1..] == seq(n - 1, _ => was);
      RunSteadyIsSilent(was, n - 1);
    }
  }
}
