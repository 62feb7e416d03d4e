# Goal lifecycle of the rosrust action server

This project models two parts of the action-server goal lifecycle in
`rosrust_actionlib`, and proves properties of the model in Dafny.

- **Server goal handle.** A goal handle moves one goal through its states.
  `set_accepted`, `set_canceled`, `set_rejected`, `set_aborted`,
  `set_succeeded` and `set_cancel_requested` all go through one transition
  table. The table either gives the goal's new state or refuses the command
  with a message that lists the states the command accepts. A successful
  command updates the goal's status tracker in place. It then publishes either
  the status list or the goal's result; a result also stamps the tracker's
  destruction time. On a handle with no goal bound to it, the `set_*`
  commands and `publish_feedback` fail, while `goal()`, `goal_id()` and
  `goal_status()` answer with none or the default id and status.
- **Simple action server arbitration.** The single-goal server holds a
  current-goal slot and a next-goal slot, with one preempt flag for each. It
  drops goals that are older than a goal already in a slot. It routes a
  preempt request to the current goal (set its flag and call the preempt
  callback) or to the next goal (set its flag only).

Modules, one per file:

- `Wrappers`: the `Option`, `Result` and `Outcome` values.
- `ActionTypes`: the goal states, time stamps, goal ids, status snapshots and
  payloads.
- `GoalTransitions`: the transition table, the accepted-state lists, publish
  targets, and the rendering of a refused transition.
- `GoalHandle`: the status tracker, the publishing side of the action server,
  and the goal handle, as classes.
- `SimpleServer`: the arbitration state and the simple server that owns it, as
  classes.

Mutexes are left out, so each operation is one atomic step. The transport is
also left out. Every publish call is appended to a ghost log
(`ActionServerState.published`), and the transport's outcome is a parameter of
the operation. The clock is a parameter as well: `now` is the reading used when
a result is published.

Some types are defined in files that are not part of this model:
`status_tracker.rs`, the crate's `GoalState`, `GoalID` and `GoalStatus`, and
`ActionServerState`. They are declared here with only what the lifecycle reads
of them:

- The default `GoalStatus` is taken to have the default id (empty id, time
  zero), the state `Lost` and empty text.
- Time stamps are `(sec, nsec)` pairs compared lexicographically.
- The goal id inside a tracker's status is a constant. No modelled code writes
  it.

## Model

| member | source | states |
|---|---|---|
| GoalTransitions.AcceptedStates | rosrust_actionlib/src/action_server/server_goal_handle.rs:280-294 | every state a command accepts is one of the four live states (Pending, Recalling, Active, Preempting) |
| GoalTransitions.DoTransition | rosrust_actionlib/src/action_server/server_goal_handle.rs:296-327 | a command succeeds exactly from the states its accepted list names; a refusal carries the command, that full list and the current state; success needs a live source state; the new state is terminal exactly for result-target commands and live exactly for status-target commands (`publish_target`, lines 259-267) |
| GoalTransitions.TransitionMatchesTable | rosrust_actionlib/src/action_server/server_goal_handle.rs:296-317 | the transition yields t exactly when (command, from, t) is one of the fourteen triples of the lifecycle table (its nine rows, one triple per source state), and is refused for every other pair |
| GoalTransitions.PublishTargetMatchesTable | rosrust_actionlib/src/action_server/server_goal_handle.rs:259-267 | `publish_target`: Accepted and CancelRequested announce on the status list, Canceled, Rejected, Aborted and Succeeded publish a result; for every row of the transition table the command's target is a result exactly when the row ends in a terminal state, and the status list exactly when it ends in a live state (`DoTransition` states the same of every successful transition) |
| GoalTransitions.NoTransitionOutOfTerminal | rosrust_actionlib/src/action_server/server_goal_handle.rs:280-327 | from a terminal state (or Lost) every command is refused, with that command's accepted list |
| GoalTransitions.SettledStaysSettled | rosrust_actionlib/src/action_server/server_goal_handle.rs:56-88 | once a goal is out of its live states, any series of `set_*` commands leaves its state as it is and publishes no result; `GoalHandle.SetSeries` carries this to the handle's tracker and publication log |
| GoalTransitions.AtMostOneResult | rosrust_actionlib/src/action_server/server_goal_handle.rs:56-88 | from a live state, any series of commands publishes at most one result, so the destruction time is stamped at most once; the goal ends terminal exactly when one result was published, and live otherwise; `GoalHandle.SetSeries` carries this to the handle's tracker and publication log |
| GoalTransitions.OneResultPerSeries | rosrust_actionlib/src/action_server/server_goal_handle.rs:56-88 | from any starting state, a series of `set_*` commands publishes at most one result |
| GoalTransitions.SettleSnoc | rosrust_actionlib/src/action_server/server_goal_handle.rs:56-88 | one more command after a series moves the settled state by one transition step, and adds one result exactly when that step is an accepted result-target command |
| GoalTransitions.Fmt | rosrust_actionlib/src/action_server/server_goal_handle.rs:211-240 | the loop that writes the accepted list renders "To transition to <phrase> state, the goal must be in a <list> state, it is currently in state: <state>", with "nonexistent", "X", "X or Y" or "A, B, ..., or Z" as the list |
| GoalTransitions.CommaListIsSeparated | rosrust_actionlib/src/action_server/server_goal_handle.rs:230-233 | writing each name followed by ", " yields the names, in order, separated by ", ", plus a trailing ", " |
| GoalTransitions.SerialCommaJoin | rosrust_actionlib/src/action_server/server_goal_handle.rs:226-236 | with three or more accepted states the list is the leading names in list order separated by ", ", then ", or " and the last name |
| GoalTransitions.CanceledJoin | rosrust_actionlib/src/action_server/server_goal_handle.rs:226-236 | the accepted list of a cancel renders as "Pending, Recalling, Active, or Preempting" |
| GoalTransitions.CanceledIssueText | rosrust_actionlib/src/action_server/server_goal_handle.rs:211-240 | cancelling a goal outside the live states is refused with the list "Pending, Recalling, Active, or Preempting" and the current state's name |
| GoalTransitions.AbortedFromPendingText | rosrust_actionlib/src/action_server/server_goal_handle.rs:211-240 | aborting a pending goal is refused with "To transition to an aborted state, the goal must be in a Preempting or Active state, it is currently in state: Pending" |
| GoalHandle.ServerGoalHandle.constructor | rosrust_actionlib/src/action_server/server_goal_handle.rs:16-26 | the handle's goal is the tracker's goal, taken when the handle is created |
| GoalHandle.ServerGoalHandle.CheckGoalPresence | rosrust_actionlib/src/action_server/server_goal_handle.rs:35-43 | succeeds exactly when a goal is bound; otherwise fails with "Attempt to <operation> on an uninitialized ServerGoalHandle" |
| GoalHandle.ServerGoalHandle.GeneralOutcome | rosrust_actionlib/src/action_server/server_goal_handle.rs:46-89 | a command succeeds exactly when a goal is bound, the current state is accepted and the transport succeeds; an unbound handle fails with the set_status message; a refused state fails with the transition message |
| GoalHandle.ServerGoalHandle.SetGeneral | rosrust_actionlib/src/action_server/server_goal_handle.rs:46-89 | unbound handle or refused transition: tracker and publication log untouched. Otherwise: the state is moved; the text is replaced only when given; a status target publishes the status list and keeps the destruction time; a result target stamps `now` and publishes the post-transition status with the result or the default. A transport failure is reported but the transition stays |
| GoalHandle.ServerGoalHandle.SetAccepted | rosrust_actionlib/src/action_server/server_goal_handle.rs:91-95 | `SetGeneral` with the Accepted command and the given text; true exactly when it succeeds |
| GoalHandle.ServerGoalHandle.SetCanceled | rosrust_actionlib/src/action_server/server_goal_handle.rs:97-101 | `SetGeneral` with the Canceled command, result and text; true exactly when it succeeds |
| GoalHandle.ServerGoalHandle.SetRejected | rosrust_actionlib/src/action_server/server_goal_handle.rs:103-107 | `SetGeneral` with the Rejected command, result and text; true exactly when it succeeds |
| GoalHandle.ServerGoalHandle.SetAborted | rosrust_actionlib/src/action_server/server_goal_handle.rs:109-113 | `SetGeneral` with the Aborted command, result and text; true exactly when it succeeds |
| GoalHandle.ServerGoalHandle.SetSucceeded | rosrust_actionlib/src/action_server/server_goal_handle.rs:115-119 | `SetGeneral` with the Succeeded command, result and text; true exactly when it succeeds |
| GoalHandle.ServerGoalHandle.SetCancelRequested | rosrust_actionlib/src/action_server/server_goal_handle.rs:121-125 | `SetGeneral` with the CancelRequested command and no text, so the status text is always kept |
| GoalHandle.ServerGoalHandle.PublishFeedbackInner | rosrust_actionlib/src/action_server/server_goal_handle.rs:127-144 | an unbound handle fails with the publish-feedback message and publishes nothing; otherwise the current status snapshot is published with the feedback and a transport failure is reported under "Failed to publish feedback: "; the tracker is never changed |
| GoalHandle.ServerGoalHandle.PublishFeedback | rosrust_actionlib/src/action_server/server_goal_handle.rs:146-150 | true exactly when a goal is bound and the transport succeeds; the tracker is never changed |
| GoalHandle.ServerGoalHandle.GoalBody | rosrust_actionlib/src/action_server/server_goal_handle.rs:152-154 | none exactly on an unbound handle, otherwise the goal's payload |
| GoalHandle.ServerGoalHandle.GoalId | rosrust_actionlib/src/action_server/server_goal_handle.rs:156-171 | the default id on an unbound handle, otherwise the tracker's goal id |
| GoalHandle.ServerGoalHandle.StatusSnapshot | rosrust_actionlib/src/action_server/server_goal_handle.rs:173-187 | the default status on an unbound handle, otherwise a snapshot of the tracker's id, state and text |
| GoalHandle.SetFailsAfterTerminal | rosrust_actionlib/src/action_server/server_goal_handle.rs:56-60 | once a bound goal is out of its live states, every `set_*` command fails with the refused-transition message, whatever the transport would do |
| GoalHandle.SetStep | rosrust_actionlib/src/action_server/server_goal_handle.rs:46-89 | one `set_general` call on a bound handle, with any result, text, clock reading and transport outcome, moves the tracker by one transition step; when the command is accepted and targets the result, one result is added to the log and the destruction time becomes that clock reading, otherwise no result is added and the destruction time is kept |
| GoalHandle.ResultCountAppend | rosrust_actionlib/src/action_server/server_goal_handle.rs:78-83 | appending a publication to the log raises its result count by one exactly when it is a result |
| GoalHandle.SetSeries | rosrust_actionlib/src/action_server/server_goal_handle.rs:46-89 | a series of `set_*` calls on a bound handle, each with its own result, text, clock reading and transport outcome, leaves the tracker in the settled state of the series and adds exactly the results the series publishes to the log; the destruction time is kept until a result is published and is then the clock reading of the call that published it; a goal that starts outside the live states is left unchanged and gets no result; a live goal gets at most one result |
| SimpleServer.ServerState.constructor | rosrust_actionlib/src/simple_action_server.rs:94-103 | both slots empty, both preempt flags false, the two callbacks as given |
| SimpleServer.ServerState.IsOutdated | rosrust_actionlib/src/simple_action_server.rs:124-137 | a goal is outdated exactly when some occupied slot holds a goal with a strictly later stamp |
| SimpleServer.EmptySlotsOutdateNothing | rosrust_actionlib/src/simple_action_server.rs:124-137 | with both slots empty no goal is outdated |
| SimpleServer.NewestIsNotOutdated | rosrust_actionlib/src/simple_action_server.rs:124-137 | a goal is kept exactly when its stamp equals or passes every occupied slot's stamp, so equal stamps are not outdated |
| SimpleServer.OutdatedIsDownwardClosed | rosrust_actionlib/src/simple_action_server.rs:124-137 | a goal stamped no later than an outdated goal is outdated too |
| SimpleServer.ServerState.OnGoal | rosrust_actionlib/src/simple_action_server.rs:105-122 | succeeds on both the outdated and the other path, and changes no slot, flag or callback |
| SimpleServer.ServerState.OnPreempt | rosrust_actionlib/src/simple_action_server.rs:139-153 | a preempt matching the current goal sets its flag, invokes the preempt callback once and returns its result; otherwise one matching the next goal sets the next goal's flag only and succeeds; otherwise nothing changes and it succeeds; the slots are never written |
| SimpleServer.SimpleActionServer.constructor | rosrust_actionlib/src/simple_action_server.rs:13-18 | the arbitration state starts with empty slots, cleared flags and the given callbacks |
| SimpleServer.SimpleActionServer.RegisterOnGoalCallback | rosrust_actionlib/src/simple_action_server.rs:55-57 | replaces the goal callback and writes no other field |
| SimpleServer.SimpleActionServer.RegisterOnPreemptCallback | rosrust_actionlib/src/simple_action_server.rs:59-61 | replaces the preempt callback and writes no other field |

## Left out

- Mutexes, the tracker-then-server lock order, and the panics on a poisoned lock are left out. Each operation is modelled as one atomic step.
- `SimpleActionServer::new` is only partly modelled (simple_action_server.rs:13-53). The model keeps the creation of the arbitration state. It leaves out the weak-reference closures handed to `ActionServer::new`, the creation of the action server and its error, and the spawned execution thread.
- `SimpleActionServer::on_preempt` and `on_goal` (simple_action_server.rs:63-72) only lock the state and delegate to `ServerState`. They are left out.
- `execute_loop` (simple_action_server.rs:74-81) is left out. It only polls for shutdown and for the server still existing.
- Goal admission into `next_goal`, promotion of the next goal to current, the hand-off to the execution loop, and calling `on_goal_cb` are not modelled. The source has them only as TODO comments (simple_action_server.rs:106, 115 and 119-120). The error log for an outdated goal (simple_action_server.rs:114) says the goal was canceled, but no cancel transition is made there and no goal is stored in `next_goal`; the model follows the code.
- The transport is not modelled. The bodies of `publish_status`, `publish_result` and `publish_feedback` belong to the action server state, which is not part of this model. Their outcome is a parameter.
- `rosrust::now()` is a parameter. `set_accepted` and `set_cancel_requested` pass time zero, which a status-target command never reads.
- Logging is left out: `log_action`, `precise_description`, `Error::log`, and the debug and error log lines.
- `TransitionIssue::fmt` can report a formatter error. That cannot happen when the message is formatted into a `String`, so the model renders the message as a plain string.
- `ServerState.OnPreempt`: the source's `if` / `else if` has no final `else` branch. The model treats a preempt that matches neither slot as a no-op that succeeds.
- `ServerState.OnPreempt`: the callback is invoked with no argument, as at the source's call site. The callbacks are modelled as values that yield an outcome. What they do beyond that is outside the model.
- The `goal_id()` helper on an optional handle (simple_action_server.rs:128 and 133) is not part of this model. `IsOutdated` reads the goal id of the handle in the slot through `ServerGoalHandle.GoalId`. An unbound handle there would give time zero, which is never later than any stamp.
- Handle equality is not part of this model (it is defined in another file). Two handles are taken to be equal when their goal ids are equal, and `None` equals no handle.
- `GoalState`'s debug rendering is its variant name.
- Goal, result and feedback payloads are opaque. The default result is a fixed value standing for the payload type's `Default`.
