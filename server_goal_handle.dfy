/** A server goal handle: the capability through which user code moves one goal
    through its lifecycle and publishes its status, result and feedback. Locks are
    left out: every operation below is one atomic step. */
module GoalHandle {
  import opened Wrappers
  import opened ActionTypes
  import opened GoalTransitions

  /** What the handle hands to the transport, in the order it does so. */
  datatype Publication =
    | StatusList
    | ResultOf(status: GoalStatus, result: Body)
    | FeedbackOf(status: GoalStatus, feedback: Body)

  /** One goal's record: the goal as received, its id, and the mutable part of its
      status. The goal id inside the status is never written by the lifecycle, so
      it is a constant here. */
  class StatusTracker {
    const goal: Option<Goal>
    const goalId: GoalID
    var state: GoalState
    var text: string
    var handleDestructionTime: Time

    /** The status as a value, the snapshot that gets cloned for publication. */
    function Status(): (status: GoalStatus)
      reads this
    {
      GoalStatus(goalId, state, text)
    }

    constructor (goal: Option<Goal>, status: GoalStatus, destructionTime: Time)
      ensures this.goal == goal && Status() == status
      ensures handleDestructionTime == destructionTime
    {
      this.goal := goal;
      goalId := status.goalId;
      state := status.state;
      text := status.text;
      handleDestructionTime := destructionTime;
    }
  }

  /** The action server's publishing side. What the transport does with a message
      is outside the model: each publish call is recorded in `published`, and its
      outcome is given by the caller. */
  class ActionServerState {
    ghost var published: seq<Publication>

    constructor ()
      ensures published == []
    {
      published := [];
    }

    method PublishStatus(transport: Outcome<string>) returns (r: Outcome<string>)
      modifies this`published
      ensures published == old(published) + [StatusList] && r == transport
    {
      published := published + [StatusList];
      r := transport;
    }

    method PublishResult(status: GoalStatus, result: Body, transport: Outcome<string>) returns (r: Outcome<string>)
      modifies this`published
      ensures published == old(published) + [ResultOf(status, result)] && r == transport
    {
      published := published + [ResultOf(status, result)];
      r := transport;
    }

    method PublishFeedback(status: GoalStatus, feedback: Body, transport: Outcome<string>) returns (r: Outcome<string>)
      modifies this`published
      ensures published == old(published) + [FeedbackOf(status, feedback)] && r == transport
    {
      published := published + [FeedbackOf(status, feedback)];
      r := transport;
    }
  }

  /** A transport failure reported under the given heading. */
  function WithHeading(heading: string, transport: Outcome<string>): (r: Outcome<string>) {
    match transport
    case Pass => Pass
    case Fail(err) => Fail(heading + err)
  }

  function UninitializedMessage(operation: string): (message: string) {
    "Attempt to " + operation + " on an uninitialized ServerGoalHandle"
  }

  class ServerGoalHandle {
    const goal: Option<Goal>
    const actionServer: ActionServerState
    const statusTracker: StatusTracker

    constructor (actionServer: ActionServerState, statusTracker: StatusTracker)
      ensures goal == statusTracker.goal
      ensures this.actionServer == actionServer && this.statusTracker == statusTracker
    {
      goal := statusTracker.goal;
      this.actionServer := actionServer;
      this.statusTracker := statusTracker;
    }

    /** Succeeds exactly when the handle is bound to a goal; otherwise fails with a
        message naming the attempted operation. */
    function CheckGoalPresence(operation: string): (r: Outcome<string>)
      ensures r.Pass? <==> goal.Some?
      ensures r.Fail? ==> r.error == UninitializedMessage(operation)
    {
      match goal
      case Some(_) => Pass
      case None => Fail(UninitializedMessage(operation))
    }

    /** What `SetGeneral` reports for a command applied to a goal in state `s`:
        the uninitialized-handle error, the refused-transition message, or the
        transport's outcome under the heading of the publication it attempted. */
    function GeneralOutcome(action: Command, s: GoalState, transport: Outcome<string>): (r: Outcome<string>)
      ensures r.Pass? <==> goal.Some? && s in AcceptedStates(action) && transport.Pass?
      ensures goal.None? ==> r == Fail(UninitializedMessage("set_status"))
      ensures goal.Some? && s !in AcceptedStates(action) ==>
                r == Fail(IssueText(TransitionIssue(action, AcceptedStates(action), s)))
    {
      match CheckGoalPresence("set_status")
      case Fail(err) => Fail(err)
      case Pass =>
        match DoTransition(action, s)
        case Err(issue) => Fail(IssueText(issue))
        case Ok(_) =>
          match TargetOf(action)
          case PublishStatus => WithHeading("Failed to publish status: ", transport)
          case PublishResult => WithHeading("Failed to publish result: ", transport)
    }

    /** The state change `SetGeneral` makes. On an uninitialized handle or a refused
        transition nothing changes. Otherwise the state moves, the text is replaced
        when one is given, and then either the status list is published, or the
        destruction time is stamped and the new status is published with the result
        (the default result when none is given). */
    twostate predicate GeneralEffect(action: Command, text: Option<string>, result: Option<Body>, now: Time)
      reads statusTracker, actionServer
    {
      var before := old(statusTracker.state);
      if goal.None? || DoTransition(action, before).Err? then
        && unchanged(statusTracker)
        && actionServer.published == old(actionServer.published)
      else
        && statusTracker.state == DoTransition(action, before).value
        && statusTracker.text == (if text.Some? then text.value else old(statusTracker.text))
        && match TargetOf(action)
           case PublishStatus =>
             && statusTracker.handleDestructionTime == old(statusTracker.handleDestructionTime)
             && actionServer.published == old(actionServer.published) + [StatusList]
           case PublishResult =>
             && statusTracker.handleDestructionTime == now
             && actionServer.published
                == old(actionServer.published) + [ResultOf(statusTracker.Status(), result.GetOr(DefaultBody))]
    }

    /** Applies `action` to the goal. `now` is the clock reading taken when a result
        is published; `transport` is how the publish call turns out. A failed
        publication does not undo the transition. */
    method SetGeneral(result: Option<Body>, text: Option<string>, action: Command, now: Time, transport: Outcome<string>)
      returns (r: Outcome<string>)
      modifies statusTracker`state, statusTracker`text, statusTracker`handleDestructionTime
      modifies actionServer`published
      ensures r == GeneralOutcome(action, old(statusTracker.state), transport)
      ensures GeneralEffect(action, text, result, now)
    {
      var present := CheckGoalPresence("set_status");
      if present.Fail? {
        return present;
      }
      var transition := DoTransition(action, statusTracker.state);
      if transition.Err? {
        var message := Fmt(transition.error);
        return Fail(message);
      }
      statusTracker.state := transition.value;
      if text.Some? {
        statusTracker.text := text.value;
      }
      match TargetOf(action)
      case PublishStatus =>
        var published := actionServer.PublishStatus(transport);
        r := WithHeading("Failed to publish status: ", published);
      case PublishResult =>
        statusTracker.handleDestructionTime := now;
        var status := statusTracker.Status();
        var published := actionServer.PublishResult(status, result.GetOr(DefaultBody), transport);
        r := WithHeading("Failed to publish result: ", published);
    }

    method SetAccepted(text: string, transport: Outcome<string>) returns (ok: bool)
      modifies statusTracker`state, statusTracker`text, statusTracker`handleDestructionTime
      modifies actionServer`published
      ensures ok == GeneralOutcome(Accepted, old(statusTracker.state), transport).Pass?
      ensures GeneralEffect(Accepted, Some(text), None, ZeroTime)
    {
      // A status-target command never reads the clock.
      var r := SetGeneral(None, Some(text), Accepted, ZeroTime, transport);
      ok := r.Pass?;
    }

    method SetCanceled(result: Option<Body>, text: string, now: Time, transport: Outcome<string>) returns (ok: bool)
      modifies statusTracker`state, statusTracker`text, statusTracker`handleDestructionTime
      modifies actionServer`published
      ensures ok == GeneralOutcome(Canceled, old(statusTracker.state), transport).Pass?
      ensures GeneralEffect(Canceled, Some(text), result, now)
    {
      var r := SetGeneral(result, Some(text), Canceled, now, transport);
      ok := r.Pass?;
    }

    method SetRejected(result: Option<Body>, text: string, now: Time, transport: Outcome<string>) returns (ok: bool)
      modifies statusTracker`state, statusTracker`text, statusTracker`handleDestructionTime
      modifies actionServer`published
      ensures ok == GeneralOutcome(Command.Rejected, old(statusTracker.state), transport).Pass?
      ensures GeneralEffect(Command.Rejected, Some(text), result, now)
    {
      var r := SetGeneral(result, Some(text), Command.Rejected, now, transport);
      ok := r.Pass?;
    }

    method SetAborted(result: Option<Body>, text: string, now: Time, transport: Outcome<string>) returns (ok: bool)
      modifies statusTracker`state, statusTracker`text, statusTracker`handleDestructionTime
      modifies actionServer`published
      ensures ok == GeneralOutcome(Command.Aborted, old(statusTracker.state), transport).Pass?
      ensures GeneralEffect(Command.Aborted, Some(text), result, now)
    {
      var r := SetGeneral(result, Some(text), Command.Aborted, now, transport);
      ok := r.Pass?;
    }

    method SetSucceeded(result: Option<Body>, text: string, now: Time, transport: Outcome<string>) returns (ok: bool)
      modifies statusTracker`state, statusTracker`text, statusTracker`handleDestructionTime
      modifies actionServer`published
      ensures ok == GeneralOutcome(Command.Succeeded, old(statusTracker.state), transport).Pass?
      ensures GeneralEffect(Command.Succeeded, Some(text), result, now)
    {
      var r := SetGeneral(result, Some(text), Command.Succeeded, now, transport);
      ok := r.Pass?;
    }

    /** Requests cancellation; passes no text, so the status text is kept. */
    method SetCancelRequested(transport: Outcome<string>) returns (ok: bool)
      modifies statusTracker`state, statusTracker`text, statusTracker`handleDestructionTime
      modifies actionServer`published
      ensures ok == GeneralOutcome(CancelRequested, old(statusTracker.state), transport).Pass?
      ensures GeneralEffect(CancelRequested, None, None, ZeroTime)
      ensures statusTracker.text == old(statusTracker.text)
    {
      // A status-target command never reads the clock.
      var r := SetGeneral(None, None, CancelRequested, ZeroTime, transport);
      ok := r.Pass?;
    }

    /** Publishes feedback together with a snapshot of the current status. The
        tracker is not in the frame: feedback never changes the goal's status. */
    method PublishFeedbackInner(feedback: Body, transport: Outcome<string>) returns (r: Outcome<string>)
      modifies actionServer`published
      ensures goal.None? ==> r == Fail(UninitializedMessage("publish feedback"))
      ensures goal.None? ==> actionServer.published == old(actionServer.published)
      ensures goal.Some? ==> r == WithHeading("Failed to publish feedback: ", transport)
      ensures goal.Some? ==>
                actionServer.published == old(actionServer.published) + [FeedbackOf(statusTracker.Status(), feedback)]
    {
      var present := CheckGoalPresence("publish feedback");
      if present.Fail? {
        return present;
      }
      var status := statusTracker.Status();
      var published := actionServer.PublishFeedback(status, feedback, transport);
      r := WithHeading("Failed to publish feedback: ", published);
    }

    method PublishFeedback(feedback: Body, transport: Outcome<string>) returns (ok: bool)
      modifies actionServer`published
      ensures ok <==> goal.Some? && transport.Pass?
      ensures goal.None? ==> actionServer.published == old(actionServer.published)
      ensures goal.Some? ==>
                actionServer.published == old(actionServer.published) + [FeedbackOf(statusTracker.Status(), feedback)]
    {
      var r := PublishFeedbackInner(feedback, transport);
      ok := r.Pass?;
    }

    /** The goal's payload; none on an uninitialized handle. */
    function GoalBody(): (body: Option<Body>)
      ensures body.None? <==> goal.None?
      ensures body.Some? ==> body.value == goal.value.body
    {
      match goal
      case None => None
      case Some(g) => Some(g.body)
    }

    /** The goal's id; the default id on an uninitialized handle. */
    function GoalId(): (id: GoalID)
      ensures goal.None? ==> id == DefaultGoalId
      ensures goal.Some? ==> id == statusTracker.goalId
    {
      if CheckGoalPresence("get a goal id").Fail? then DefaultGoalId else statusTracker.goalId
    }

    /** A snapshot of the goal's status; the default status on an uninitialized handle. */
    function StatusSnapshot(): (status: GoalStatus)
      reads statusTracker
      ensures goal.None? ==> status == DefaultGoalStatus
      ensures goal.Some? ==> status.goalId == GoalId() && status.state == statusTracker.state
                             && status.text == statusTracker.text
    {
      if CheckGoalPresence("get a goal status").Fail? then DefaultGoalStatus else statusTracker.Status()
    }
  }

  /** Once a goal is past its live states, every `set_*` call on its handle fails
      with the refused-transition message, whatever the transport would do. */
  lemma SetFailsAfterTerminal(h: ServerGoalHandle, action: Command, s: GoalState, transport: Outcome<string>)
    requires h.goal.Some? && !IsLive(s)
    ensures h.GeneralOutcome(action, s, transport) == Fail(IssueText(TransitionIssue(action, AcceptedStates(action), s)))
  {
  }

  /** The number of results in a publication log. */
  function ResultCount(log: seq<Publication>): (count: nat)
    decreases |log|
  {
    if log == [] then 0
    else ResultCount(log[..|log| - 1]) + (if log[|log| - 1].ResultOf? then 1 else 0)
  }

  lemma ResultCountAppend(log: seq<Publication>, p: Publication)
    ensures ResultCount(log + [p]) == ResultCount(log) + (if p.ResultOf? then 1 else 0)
  {
    assert (log + [p])[..|log|] == log;
  }

  /** One `SetGeneral` call on a bound handle: the tracker moves by one `Step`, a
      result is added to the log exactly when the command succeeds with a result
      target, and the destruction time becomes `now` in that case and is left
      alone otherwise. */
  method SetStep(h: ServerGoalHandle, c: Command, result: Option<Body>, text: Option<string>,
                 now: Time, transport: Outcome<string>)
    requires h.goal.Some?
    modifies h.statusTracker`state, h.statusTracker`text, h.statusTracker`handleDestructionTime
    modifies h.actionServer`published
    ensures h.statusTracker.state == Step(old(h.statusTracker.state), c)
    ensures ResultCount(h.actionServer.published)
         == ResultCount(old(h.actionServer.published))
            + (if DoTransition(c, old(h.statusTracker.state)).Ok? && TargetOf(c) == PublishResult then 1 else 0)
    ensures h.statusTracker.handleDestructionTime
         == if DoTransition(c, old(h.statusTracker.state)).Ok? && TargetOf(c) == PublishResult
            then now else old(h.statusTracker.handleDestructionTime)
  {
    ghost var log := h.actionServer.published;
    var r := h.SetGeneral(result, text, c, now, transport);
    if h.actionServer.published != log {
      ResultCountAppend(log, h.actionServer.published[|log|]);
    }
  }

  /** Applies a series of commands to a bound handle, one `SetGeneral` call after
      another, call `i` with its own result, text, clock reading and transport
      outcome. The tracker follows `Settle`, one result is published for each
      command that `ResultsPublished` counts, and the destruction time is left
      alone until a result is published and is then the clock reading of the call
      that published it. Hence a goal that is past its live states never moves
      again, and a live goal publishes at most one result. */
  method SetSeries(h: ServerGoalHandle, cmds: seq<Command>, results: seq<Option<Body>>,
                   texts: seq<Option<string>>, nows: seq<Time>, transports: seq<Outcome<string>>)
    requires h.goal.Some?
    requires |results| == |texts| == |nows| == |transports| == |cmds|
    modifies h.statusTracker`state, h.statusTracker`text, h.statusTracker`handleDestructionTime
    modifies h.actionServer`published
    ensures h.statusTracker.state == Settle(old(h.statusTracker.state), cmds)
    ensures ResultCount(h.actionServer.published)
         == ResultCount(old(h.actionServer.published)) + ResultsPublished(old(h.statusTracker.state), cmds)
    ensures ResultsPublished(old(h.statusTracker.state), cmds) == 0 ==>
              h.statusTracker.handleDestructionTime == old(h.statusTracker.handleDestructionTime)
    ensures forall i :: 0 <= i < |cmds| && PublishesResultAt(old(h.statusTracker.state), cmds, i) ==>
              h.statusTracker.handleDestructionTime == nows[i]
    ensures !IsLive(old(h.statusTracker.state)) ==>
              && h.statusTracker.state == old(h.statusTracker.state)
              && ResultCount(h.actionServer.published) == ResultCount(old(h.actionServer.published))
    ensures IsLive(old(h.statusTracker.state)) ==>
              ResultCount(h.actionServer.published) <= ResultCount(old(h.actionServer.published)) + 1
  {
    var tracker, server := h.statusTracker, h.actionServer;
    ghost var s0, log0, time0 := tracker.state, server.published, tracker.handleDestructionTime;
    for i := 0 to |cmds|
      invariant tracker.state == Settle(s0, cmds[..i])
      invariant ResultCount(server.published) == ResultCount(log0) + ResultsPublished(s0, cmds[..i])
      invariant ResultsPublished(s0, cmds[..i]) == 0 ==> tracker.handleDestructionTime == time0
      invariant forall j :: 0 <= j < i && PublishesResultAt(s0, cmds, j) ==>
                  tracker.handleDestructionTime == nows[j] && ResultsPublished(s0, cmds[..i]) >= 1
    {
      ghost var done := cmds[..i];
      ghost var published := PublishesResultAt(s0, cmds, i);
      SettleSnoc(s0, done, cmds[i]);
      assert cmds[..i + 1] == done + [cmds[i]];
      assert ResultsPublished(s0, cmds[..i + 1]) == ResultsPublished(s0, done) + (if published then 1 else 0);
      OneResultPerSeries(s0, cmds[..i + 1]);
      SetStep(h, cmds[i], results[i], texts[i], nows[i], transports[i]);
      forall j | 0 <= j < i + 1 && PublishesResultAt(s0, cmds, j)
        ensures tracker.handleDestructionTime == nows[j] && ResultsPublished(s0, cmds[..i + 1]) >= 1
      {
        if j < i {
          assert !published;
        }
      }
    }
    assert cmds[..|cmds|] == cmds;
    if IsLive(s0) {
      AtMostOneResult(s0, cmds);
    } else {
      SettledStaysSettled(s0, cmds);
    }
  }

  /** A goal accepted, then asked to cancel, then succeeded: the status list is
      published twice and the result once, with the default result, and a failed
      publication of the result does not undo the transition. */
  method AcceptCancelSucceedScenario(goal: Goal, now: Time)
  {
    var tracker := new StatusTracker(Some(goal), GoalStatus(goal.id, Pending, ""), ZeroTime);
    var server := new ActionServerState();
    var handle := new ServerGoalHandle(server, tracker);
    assert DoTransition(Accepted, Pending) == Ok(Active);
    var ok := handle.SetAccepted("accepted", Pass);
    assert ok && tracker.state == Active && server.published == [StatusList];
    assert DoTransition(CancelRequested, Active) == Ok(Preempting);
    ok := handle.SetCancelRequested(Pass);
    assert ok && tracker.state == Preempting && tracker.text == "accepted";
    assert server.published == [StatusList, StatusList];
    assert DoTransition(Command.Succeeded, Preempting) == Ok(GoalState.Succeeded);
    ok := handle.SetSucceeded(None, "done", now, Fail("link down"));
    assert !ok && tracker.state == GoalState.Succeeded && tracker.handleDestructionTime == now;
    assert server.published
        == [StatusList, StatusList, ResultOf(GoalStatus(goal.id, GoalState.Succeeded, "done"), DefaultBody)];
  }
}
