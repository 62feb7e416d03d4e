/** The message-level types the goal lifecycle works on. Their Rust definitions
    live outside the modelled files; only what the lifecycle reads of them is kept. */
module ActionTypes {

  /** The states of one goal, in the order of the actionlib status codes. */
  datatype GoalState =
    | Pending | Active | Preempted | Succeeded | Aborted
    | Rejected | Preempting | Recalling | Recalled | Lost

  /** The four states from which some command may still move a goal. */
  predicate IsLive(s: GoalState) {
    s == Pending || s == Recalling || s == Active || s == Preempting
  }

  /** The five states that end a goal's life and carry a published result. */
  predicate IsTerminal(s: GoalState) {
    s == Recalled || s == Rejected || s == Preempted || s == Aborted || s == Succeeded
  }

  /** The `{:?}` rendering of a state: its variant name. */
  function StateName(s: GoalState): (name: string) {
    match s
    case Pending => "Pending"
    case Active => "Active"
    case Preempted => "Preempted"
    case Succeeded => "Succeeded"
    case Aborted => "Aborted"
    case Rejected => "Rejected"
    case Preempting => "Preempting"
    case Recalling => "Recalling"
    case Recalled => "Recalled"
    case Lost => "Lost"
  }

  /** A ROS time stamp: seconds and nanoseconds, compared lexicographically. */
  datatype Time = Time(sec: nat, nsec: nat)

  const ZeroTime := Time(0, 0)

  /** `a > b` on time stamps. */
  predicate Later(a: Time, b: Time) {
    a.sec > b.sec || (a.sec == b.sec && a.nsec > b.nsec)
  }

  datatype GoalID = GoalID(id: string, stamp: Time)

  /** `GoalID::default()`: an empty id at time zero. */
  const DefaultGoalId := GoalID("", ZeroTime)

  /** A snapshot of a goal's status, as handed to the transport. */
  datatype GoalStatus = GoalStatus(goalId: GoalID, state: GoalState, text: string)

  /** `GoalStatus::default()`: the default id, no known state, no text. */
  const DefaultGoalStatus := GoalStatus(DefaultGoalId, Lost, "")

  /** A goal, result or feedback payload; its fields are opaque to the lifecycle. */
  datatype Body = Body(fields: seq<int>)

  /** The payload type's `Default` value. */
  const DefaultBody := Body([])

  /** A goal as received: its id and its payload. */
  datatype Goal = Goal(id: GoalID, body: Body)
}
