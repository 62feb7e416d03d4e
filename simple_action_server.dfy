/** The arbitration state of the simple action server, which runs at most one goal
    at a time: a slot for the goal being executed, a slot for the goal queued next,
    and a preempt flag for each. */
module SimpleServer {
  import opened Wrappers
  import opened ActionTypes
  import opened GoalHandle

  /** A user callback: what it returns when invoked. */
  type Callback = () -> Outcome<string>

  /** Handle identity: two handles denote the same goal when their goal ids agree. */
  predicate SameGoal(h: ServerGoalHandle, slot: Option<ServerGoalHandle>) {
    slot.Some? && slot.value.GoalId() == h.GoalId()
  }

  class ServerState {
    var currentGoal: Option<ServerGoalHandle>
    var nextGoal: Option<ServerGoalHandle>
    var preemptRequest: bool
    var newGoalPreemptRequest: bool
    var onGoalCb: Callback
    var onPreemptCb: Callback
    /** How many times the preempt callback has been invoked. */
    ghost var preemptCallbacks: nat

    constructor (onGoalCb: Callback, onPreemptCb: Callback)
      ensures currentGoal == None && nextGoal == None
      ensures !preemptRequest && !newGoalPreemptRequest
      ensures this.onGoalCb == onGoalCb && this.onPreemptCb == onPreemptCb
      ensures preemptCallbacks == 0
    {
      currentGoal := None;
      nextGoal := None;
      preemptRequest := false;
      newGoalPreemptRequest := false;
      this.onGoalCb := onGoalCb;
      this.onPreemptCb := onPreemptCb;
      preemptCallbacks := 0;
    }

    /** The stamps of the goals that occupy a slot. */
    ghost function SlotStamps(): (stamps: set<Time>)
      reads this
    {
      (if nextGoal.Some? then {nextGoal.value.GoalId().stamp} else {})
      + (if currentGoal.Some? then {currentGoal.value.GoalId().stamp} else {})
    }

    /** A goal is outdated when an occupied slot holds a strictly newer goal. */
    function IsOutdated(goal: ServerGoalHandle): (outdated: bool)
      reads this
      ensures outdated <==> exists t :: t in SlotStamps() && Later(t, goal.GoalId().stamp)
    {
      var newStamp := goal.GoalId().stamp;
      var nextIsNewer := match nextGoal
        case Some(h) => Later(h.GoalId().stamp, newStamp)
        case None => false;
      var currentIsNewer := match currentGoal
        case Some(h) => Later(h.GoalId().stamp, newStamp)
        case None => false;
      nextIsNewer || currentIsNewer
    }

    /** Receives a newly admitted goal. An outdated goal is dropped; for any other
        goal the hand-off to the execution loop is not written yet. Either way the
        call succeeds and, having no frame, changes nothing. */
    method OnGoal(goal: ServerGoalHandle) returns (r: Outcome<string>)
      ensures r == Pass
    {
      if IsOutdated(goal) {
        return Pass;
      }
      return Pass;
    }

    /** Routes a preempt request: to the current goal (raise its flag and invoke the
        preempt callback, returning what it returns), else to the next goal (raise
        its flag only), else nowhere. The goal slots are outside the frame. */
    method OnPreempt(preempt: ServerGoalHandle) returns (r: Outcome<string>)
      modifies this`preemptRequest, this`newGoalPreemptRequest, this`preemptCallbacks
      ensures SameGoal(preempt, currentGoal) ==>
                && preemptRequest && newGoalPreemptRequest == old(newGoalPreemptRequest)
                && preemptCallbacks == old(preemptCallbacks) + 1
                && r == onPreemptCb()
      ensures !SameGoal(preempt, currentGoal) && SameGoal(preempt, nextGoal) ==>
                && newGoalPreemptRequest && preemptRequest == old(preemptRequest)
                && preemptCallbacks == old(preemptCallbacks)
                && r == Pass
      ensures !SameGoal(preempt, currentGoal) && !SameGoal(preempt, nextGoal) ==>
                && preemptRequest == old(preemptRequest) && newGoalPreemptRequest == old(newGoalPreemptRequest)
                && preemptCallbacks == old(preemptCallbacks)
                && r == Pass
    {
      if SameGoal(preempt, currentGoal) {
        preemptRequest := true;
        preemptCallbacks := preemptCallbacks + 1;
        r := onPreemptCb();
      } else if SameGoal(preempt, nextGoal) {
        newGoalPreemptRequest := true;
        r := Pass;
      } else {
        r := Pass;
      }
    }
  }

  /** With both slots empty, no goal is outdated. */
  lemma EmptySlotsOutdateNothing(st: ServerState, goal: ServerGoalHandle)
    requires st.currentGoal.None? && st.nextGoal.None?
    ensures !st.IsOutdated(goal)
  {
  }

  /** A goal is outdated exactly when it is older than some occupied slot; in
      particular a goal whose stamp equals or passes every occupied slot's stamp is
      kept, so equal stamps never outdate each other. */
  lemma NewestIsNotOutdated(st: ServerState, goal: ServerGoalHandle)
    ensures !st.IsOutdated(goal) <==>
              forall t :: t in st.SlotStamps() ==> t == goal.GoalId().stamp || Later(goal.GoalId().stamp, t)
  {
  }

  /** Being outdated is inherited by any goal stamped no later. */
  lemma OutdatedIsDownwardClosed(st: ServerState, goal: ServerGoalHandle, older: ServerGoalHandle)
    requires st.IsOutdated(goal)
    requires older.GoalId().stamp == goal.GoalId().stamp || Later(goal.GoalId().stamp, older.GoalId().stamp)
    ensures st.IsOutdated(older)
  {
  }

  /** The simple action server: the owner of the arbitration state, through which
      the user replaces its callbacks. */
  class SimpleActionServer {
    const state: ServerState

    /** Creates the arbitration state. Creating the underlying action server and
        starting the execution thread are not part of this model. */
    constructor (onGoal: Callback, onPreempt: Callback)
      ensures fresh(state)
      ensures state.currentGoal == None && state.nextGoal == None
      ensures !state.preemptRequest && !state.newGoalPreemptRequest
      ensures state.onGoalCb == onGoal && state.onPreemptCb == onPreempt
    {
      state := new ServerState(onGoal, onPreempt);
    }

    /** Replaces the goal callback; no other field is in the frame. */
    method RegisterOnGoalCallback(callback: Callback)
      modifies state`onGoalCb
      ensures state.onGoalCb == callback
    {
      state.onGoalCb := callback;
    }

    /** Replaces the preempt callback; no other field is in the frame. */
    method RegisterOnPreemptCallback(callback: Callback)
      modifies state`onPreemptCb
      ensures state.onPreemptCb == callback
    {
      state.onPreemptCb := callback;
    }
  }
}
