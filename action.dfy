/**
 * The client of one goal on the robot's action bridge (lib/action.py). An
 * `Action` sends goals and cancel requests for its id to two services and
 * listens on two topics; two flags decide what it sends and which messages
 * reach the application's callbacks: `running` (a goal was sent and its
 * result has not come back) and `cancelRequested` (the next result is the
 * answer to a cancellation and is swallowed).
 *
 * The services are not called: an action keeps the list of requests it has
 * made, in order. JSON encoding and decoding are parameters (`dumps`,
 * `loads`); `loads` answers `None` where `json.loads` raises a
 * `JSONDecodeError`. A callback is not called: the handlers return the data
 * they would pass to it.
 *
 * `cancel` as written (`CancelStep`) marks the next result even when no goal
 * runs, which swallows the result of the next goal
 * (`IdleCancelSwallowsNextResult`). The `Action` class has both: `Cancel`
 * runs the corrected step `CancelIntended`, `CancelAsWritten` the code as
 * written.
 */
module Actions {
  import opened Wrappers

  /** A message on the feedback or the result topic. */
  datatype Message = Message(id: int, data: string)

  /** A call of the goal service or of the cancel service. */
  datatype Request = GoalRequest(id: int, data: string) | CancelRequest(id: int)

  /** The two flags of an action. */
  datatype Flags = Flags(running: bool, cancelRequested: bool)

  /** The flags `__init__` sets. */
  const Idle := Flags(false, false)

  // ------------------------------------------------------------ the steps

  /** `send_goal`: the flags after it and the requests it makes. */
  function GoalStep(f: Flags, id: int, data: string): (Flags, seq<Request>)
  {
    if f.running then (f, []) else (f.(running := true), [GoalRequest(id, data)])
  }

  /** `cancel`, as written: the request goes out only while running, but the flag is set either way. */
  function CancelStep(f: Flags, id: int): (Flags, seq<Request>)
  {
    (Flags(false, true), if f.running then [CancelRequest(id)] else [])
  }

  /** `_feedback`: the data passed to the feedback callback, if any. The flags do not move. */
  function FeedbackDelivered<T>(f: Flags, id: int, msg: Message, loads: string -> Option<T>): Option<T>
  {
    if msg.id == id && loads(msg.data).Some? && f.running then loads(msg.data) else None
  }

  /** `_result`: the flags after it and the data passed to the result callback, if any. */
  function ResultStep<T>(f: Flags, id: int, msg: Message, loads: string -> Option<T>): (Flags, Option<T>)
  {
    if f.cancelRequested then (f.(cancelRequested := false), None)
    else if msg.id == id && loads(msg.data).Some? && f.running then (Idle, loads(msg.data))
    else (Idle, None)
  }

  // ------------------------------------------------------------ properties

  /** A goal goes out only from an action that is not running, which then runs; a second `send_goal` sends nothing and changes nothing. */
  lemma GoalOnce(f: Flags, id: int, data: string, data2: string)
    ensures var (g, sent) := GoalStep(f, id, data);
            && g.running && g.cancelRequested == f.cancelRequested
            && (sent != [] <==> !f.running)
            && (sent != [] ==> sent == [GoalRequest(id, data)])
            && GoalStep(g, id, data2) == (g, [])
  {
  }

  /** `cancel` always stops the action and marks the next result as a cancellation's; it sends a request for the action's id exactly when it was running. */
  lemma CancelAlwaysMarks(f: Flags, id: int)
    ensures var (g, sent) := CancelStep(f, id);
            && !g.running && g.cancelRequested
            && (sent != [] <==> f.running)
            && forall r :: r in sent ==> r == CancelRequest(id)
  {
  }

  /** Feedback reaches the callback exactly when its id matches, its data decodes and the action runs, and then with the decoded data. */
  lemma FeedbackGate<T>(f: Flags, id: int, msg: Message, loads: string -> Option<T>)
    ensures FeedbackDelivered(f, id, msg, loads).Some? <==> msg.id == id && loads(msg.data).Some? && f.running
    ensures FeedbackDelivered(f, id, msg, loads).Some? ==> FeedbackDelivered(f, id, msg, loads) == loads(msg.data)
  {
  }

  /**
   * A result after a cancellation reaches no callback, leaves `running` as
   * it was and clears the mark; any other result stops the action, whatever
   * its id, and reaches the callback exactly when the id matches, the data
   * decodes and the action was running.
   */
  lemma ResultGate<T>(f: Flags, id: int, msg: Message, loads: string -> Option<T>)
    ensures var (g, delivered) := ResultStep(f, id, msg, loads);
            && !g.cancelRequested
            && (f.cancelRequested ==> delivered == None && g.running == f.running)
            && (!f.cancelRequested ==> !g.running)
            && (delivered.Some? <==> !f.cancelRequested && msg.id == id && loads(msg.data).Some? && f.running)
            && (delivered.Some? ==> delivered == loads(msg.data))
  {
  }

  /** From an idle action: a goal, then its result, delivers the result and leaves the action idle again. */
  lemma GoalThenResult<T>(id: int, data: string, reply: string, loads: string -> Option<T>)
    requires loads(reply).Some?
    ensures var (g, sent) := GoalStep(Idle, id, data);
            && sent == [GoalRequest(id, data)]
            && ResultStep(g, id, Message(id, reply), loads) == (Idle, loads(reply))
  {
  }

  /** Cancelling a running goal swallows its result, however it reads, and leaves the action idle. */
  lemma CancelledResultSwallowed<T>(f: Flags, id: int, msg: Message, loads: string -> Option<T>)
    ensures ResultStep(CancelStep(f, id).0, id, msg, loads) == (Idle, None)
  {
  }

  /**
   * As written, a `cancel` of an idle action sends nothing but still marks
   * the next result as a cancellation's, so the result of the next goal is
   * swallowed: no callback, and `running` stays true. From there every
   * `send_goal` sends nothing and changes nothing, until a result message
   * (whatever its id) or a `cancel` stops the action.
   */
  lemma IdleCancelSwallowsNextResult<T>(id: int, data: string, reply: string, loads: string -> Option<T>)
    requires loads(reply).Some?
    ensures var (c, cancelSent) := CancelStep(Idle, id);
            var (g, goalSent) := GoalStep(c, id, data);
            var (r, delivered) := ResultStep(g, id, Message(id, reply), loads);
            && cancelSent == [] && goalSent == [GoalRequest(id, data)]
            && delivered == None && r.running && !r.cancelRequested
            && (forall later :: GoalStep(r, id, later) == (r, []))
            && (forall m :: ResultStep(r, id, m, loads).0 == Idle)
            && !CancelStep(r, id).0.running
  {
  }

  /** `cancel` with its mark set only when a cancel request went out. */
  function CancelIntended(f: Flags, id: int): (Flags, seq<Request>)
  {
    (Flags(false, f.running || f.cancelRequested), if f.running then [CancelRequest(id)] else [])
  }

  /**
   * With the corrected `cancel`: cancelling an idle action changes nothing,
   * so the next goal's result is delivered; cancelling a running goal still
   * swallows its result.
   */
  lemma CancelIntendedKeepsNextResult<T>(f: Flags, id: int, data: string, reply: string, msg: Message, loads: string -> Option<T>)
    requires loads(reply).Some?
    ensures CancelIntended(Idle, id) == (Idle, [])
    ensures var (g, _) := GoalStep(CancelIntended(Idle, id).0, id, data);
            ResultStep(g, id, Message(id, reply), loads) == (Idle, loads(reply))
    ensures f.running ==> ResultStep(CancelIntended(f, id).0, id, msg, loads) == (Idle, None)
    ensures var (g, sent) := CancelIntended(f, id);
            !g.running && (sent != [] <==> f.running)
  {
  }

  // ------------------------------------------------------------ the object

  class Action {
    const id: int
    var running: bool
    var cancelRequested: bool
    /** The calls made to the goal and cancel services, oldest first. */
    var requests: seq<Request>

    function State(): Flags
      reads this
    {
      Flags(running, cancelRequested)
    }

    /** `__init__`: not running, nothing to swallow, and a cancel request for the id already sent. */
    constructor(id: int)
      ensures this.id == id && State() == Idle && requests == [CancelRequest(id)]
    {
      this.id := id;
      running := false;
      cancelRequested := false;
      requests := [CancelRequest(id)];
    }

    /** `send_goal`: serialise the goal and send it, unless a goal is already running. */
    method SendGoal<G>(goalData: G, dumps: G -> string)
      modifies this
      ensures State() == GoalStep(old(State()), id, dumps(goalData)).0
      ensures requests == old(requests) + GoalStep(old(State()), id, dumps(goalData)).1
    {
      if !running {
        var data := dumps(goalData);
        requests := requests + [GoalRequest(id, data)];
        running := true;
      }
    }

    /**
     * `cancel`, with the mark set only when a cancel request goes out (the
     * source sets it in any case; see `CancelStep`): request a cancellation
     * and mark the next result if running, and stop.
     */
    method Cancel()
      modifies this
      ensures State() == CancelIntended(old(State()), id).0
      ensures requests == old(requests) + CancelIntended(old(State()), id).1
    {
      if running {
        requests := requests + [CancelRequest(id)];
        cancelRequested := true;
      }
      running := false;
    }

    /** `cancel` as written: the mark is set even when no cancel request goes out. */
    method CancelAsWritten()
      modifies this
      ensures State() == CancelStep(old(State()), id).0
      ensures requests == old(requests) + CancelStep(old(State()), id).1
    {
      if running {
        requests := requests + [CancelRequest(id)];
      }
      running := false;
      cancelRequested := true;
    }

    /** `_feedback`: hand the decoded data of a message for this id to the callback while running. */
    method Feedback<T>(msg: Message, loads: string -> Option<T>) returns (delivered: Option<T>)
      ensures delivered == FeedbackDelivered(State(), id, msg, loads)
    {
      delivered := None;
      if msg.id == id {
        var data := loads(msg.data);
        if data.Some? && running {
          delivered := data;
        }
      }
    }

    /** `_result`: swallow the answer to a cancellation, or stop and hand the decoded data to the callback if a goal was running. */
    method Result<T>(msg: Message, loads: string -> Option<T>) returns (delivered: Option<T>)
      modifies this
      ensures (State(), delivered) == ResultStep(old(State()), id, msg, loads)
      ensures requests == old(requests)
    {
      delivered := None;
      var wasRunning := running;
      if !cancelRequested {
        running := false;
        if msg.id == id {
          var data := loads(msg.data);
          if data.Some? && wasRunning {
            delivered := data;
          }
        }
      }
      cancelRequested := false;
    }
  }
}
