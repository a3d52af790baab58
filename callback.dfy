/**
 * The observer registry every event of the driver goes through
 * (lib/callback.py). A `Callback` keeps two ordered lists of registered
 * callables: coroutine functions and everything else. Calling it runs the
 * second list in order; a `TypeError` raised by one callable is caught and
 * the rest still run, any other exception leaves the call.
 *
 * Callables are identified by a `Handler` value; whether `iscoroutinefunction`
 * holds of one is part of that value, and what a callable does when called is
 * the `outcome` parameter of `Call`.
 */
module Callbacks {
  import opened Wrappers

  /** A registered callable: its identity and whether it is a coroutine function. */
  datatype Handler = Handler(id: nat, isCoroutine: bool)

  /** How a call of one callable ends. */
  datatype Outcome = Returned | RaisedTypeError | RaisedOther

  /** One call made by `__call__`: the callable and the argument it got (`None`: called with no argument). */
  datatype Invocation<A> = Invocation(handler: Handler, argument: Option<A>)

  /** The position of the first occurrence of `h`. */
  function IndexOf(s: seq<Handler>, h: Handler): (i: nat)
    requires h in s
    ensures i < |s| && s[i] == h && h !in s[..i]
  {
    if s[0] == h then 0
    else
      var i := 1 + IndexOf(s[1..], h);
      assert s[..i] == [s[0]] + s[1..][..i - 1];
      i
  }

  /** `list.remove(h)` on a list that holds `h`: the first occurrence goes, the rest keep their order. */
  function RemoveFirst(s: seq<Handler>, h: Handler): (r: seq<Handler>)
    requires h in s
    ensures |r| == |s| - 1
    ensures multiset(r) == multiset(s) - multiset{h}
    ensures r == s[..IndexOf(s, h)] + s[IndexOf(s, h) + 1..]
  {
    var i := IndexOf(s, h);
    assert s == s[..i] + [h] + s[i + 1..];
    s[..i] + s[i + 1..]
  }

  /**
   * The calls one `__call__(argument)` makes: every callable of `handlers` in
   * order, until one raises something other than a `TypeError`; the flag
   * says whether such an exception left the call.
   */
  function Dispatch<A>(handlers: seq<Handler>, argument: Option<A>, outcome: (Handler, Option<A>) -> Outcome)
    : (r: (seq<Invocation<A>>, bool))
    ensures |r.0| <= |handlers|
    ensures forall i :: 0 <= i < |r.0| ==> r.0[i] == Invocation(handlers[i], argument)
    ensures !r.1 <==> |r.0| == |handlers| && forall i :: 0 <= i < |handlers| ==> outcome(handlers[i], argument) != RaisedOther
    ensures r.1 ==> |r.0| > 0 && outcome(handlers[|r.0| - 1], argument) == RaisedOther
    ensures forall i :: 0 <= i < |r.0| - 1 ==> outcome(handlers[i], argument) != RaisedOther
    decreases |handlers|
  {
    if handlers == [] then ([], false)
    else
      var first := Invocation(handlers[0], argument);
      if outcome(handlers[0], argument) == RaisedOther then ([first], true)
      else
        var rest := Dispatch(handlers[1..], argument, outcome);
        ([first] + rest.0, rest.1)
  }

  class Callback<A> {
    var sync: seq<Handler>
    var async: seq<Handler>

    /** Each list holds only the callables `register` puts there. */
    ghost predicate Valid()
      reads this
    {
      (forall h :: h in sync ==> !h.isCoroutine) && (forall h :: h in async ==> h.isCoroutine)
    }

    /** A new registry is empty. */
    constructor ()
      ensures Valid() && sync == [] && async == []
    {
      sync := [];
      async := [];
    }

    /** `__len__` (and `__int__`): the number of registrations in both lists. */
    function Len(): (n: nat)
      reads this
      ensures n == 0 <==> sync == [] && async == []
      ensures n == |sync + async|
    {
      |sync| + |async|
    }

    /** `__bool__`: some callable is registered, in either list. */
    predicate IsSet()
      reads this
      ensures IsSet() <==> Len() > 0
    {
      sync != [] || async != []
    }

    /** `register` (and `+=`): appended to the coroutine list or the plain list; duplicates are kept. */
    method Register(h: Handler)
      requires Valid()
      modifies this
      ensures Valid()
      ensures h.isCoroutine ==> async == old(async) + [h] && sync == old(sync)
      ensures !h.isCoroutine ==> sync == old(sync) + [h] && async == old(async)
      ensures Len() == old(Len()) + 1
    {
      if h.isCoroutine {
        async := async + [h];
      } else {
        sync := sync + [h];
      }
    }

    /** `unregister` (and `-=`): the first occurrence in the plain list, else in the coroutine list, else nothing. */
    method Unregister(h: Handler)
      requires Valid()
      modifies this
      ensures Valid()
      ensures h in old(sync) ==> sync == RemoveFirst(old(sync), h) && async == old(async)
      ensures h !in old(sync) && h in old(async) ==> async == RemoveFirst(old(async), h) && sync == old(sync)
      ensures h !in old(sync) && h !in old(async) ==> sync == old(sync) && async == old(async)
      ensures Len() == if h in old(sync) || h in old(async) then old(Len()) - 1 else old(Len())
    {
      if h in sync {
        sync := RemoveFirst(sync, h);
      } else if h in async {
        async := RemoveFirst(async, h);
      }
    }

    /**
     * `__call__(argument)`: the plain callables in registration order, each
     * with the argument unless it is `None`; coroutine functions are never
     * called. Returns the calls made and whether an exception other than a
     * `TypeError` left the call.
     */
    method Call(argument: Option<A>, outcome: (Handler, Option<A>) -> Outcome)
      returns (calls: seq<Invocation<A>>, raised: bool)
      requires Valid()
      ensures (calls, raised) == Dispatch(sync, argument, outcome)
      ensures forall c :: c in calls ==> c.handler in sync && !c.handler.isCoroutine
    {
      calls := [];
      raised := false;
      var i := 0;
      ghost var expected := Dispatch(sync, argument, outcome);
      while i < |sync|
        invariant 0 <= i <= |sync| && !raised
        invariant |calls| == i
        invariant forall k :: 0 <= k < i ==> calls[k] == Invocation(sync[k], argument)
        invariant forall k :: 0 <= k < i ==> outcome(sync[k], argument) != RaisedOther
      {
        var handler := sync[i];
        calls := calls + [Invocation(handler, argument)];
        if outcome(handler, argument) == RaisedOther {
          raised := true;
          assert |expected.0| == i + 1;
          assert calls == expected.0;
          return;
        }
        i := i + 1;
      }
      assert calls == expected.0;
    }
  }
}
