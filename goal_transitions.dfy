/** The goal transition table of a server goal handle: which command may move a
    goal out of which state, into which state, where the outcome is published, and
    the message a refused transition carries. */
module GoalTransitions {
  import opened Wrappers
  import opened ActionTypes

  /** The commands a goal handle applies to its goal. */
  datatype Command = Accepted | Canceled | Rejected | Aborted | Succeeded | CancelRequested

  /** Where a successful command is announced: the status list, or a result. */
  datatype PublishTarget = PublishStatus | PublishResult

  /** Why a transition was refused: the command, the states it accepts, and the
      state the goal was in. */
  datatype TransitionIssue = TransitionIssue(target: Command, accepted: seq<GoalState>, status: GoalState)

  /** Where a command's success is announced; `PublishTargetMatchesTable` ties it
      to the rows of the transition table. */
  function TargetOf(c: Command): (t: PublishTarget) {
    match c
    case Accepted | CancelRequested => PublishStatus
    case Canceled | Rejected | Aborted | Succeeded => PublishResult
  }

  /** The states each command accepts, in the order the source lists them. */
  function AcceptedStates(c: Command): (states: seq<GoalState>)
    ensures forall s :: s in states ==> IsLive(s)
  {
    match c
    case Accepted => [Pending, Recalling]
    case Canceled => [Pending, Recalling, Active, Preempting]
    case Rejected => [Pending, Recalling]
    case Aborted => [Preempting, Active]
    case Succeeded => [Preempting, Active]
    case CancelRequested => [Pending, Active]
  }

  /** Applies a command to a state: the new state, or why the command is refused.
      The table and the accepted-state lists are two separate definitions; the
      contract says they agree, and that the publish target of a command tells
      whether it ends the goal. */
  function DoTransition(c: Command, s: GoalState): (r: Result<GoalState, TransitionIssue>)
    ensures r.Ok? <==> s in AcceptedStates(c)
    ensures r.Err? ==> r.error == TransitionIssue(c, AcceptedStates(c), s)
    ensures r.Ok? ==> IsLive(s)
    ensures r.Ok? ==> (IsTerminal(r.value) <==> TargetOf(c) == PublishResult)
    ensures r.Ok? ==> (IsLive(r.value) <==> TargetOf(c) == PublishStatus)
  {
    match (c, s)
    case (Accepted, Pending) => Ok(Active)
    case (Accepted, Recalling) => Ok(Preempting)
    case (Canceled, Pending) => Ok(Recalled)
    case (Canceled, Recalling) => Ok(Recalled)
    case (Canceled, Active) => Ok(Preempted)
    case (Canceled, Preempting) => Ok(Preempted)
    case (Rejected, Pending) => Ok(GoalState.Rejected)
    case (Rejected, Recalling) => Ok(GoalState.Rejected)
    case (Aborted, Preempting) => Ok(GoalState.Aborted)
    case (Aborted, Active) => Ok(GoalState.Aborted)
    case (Succeeded, Preempting) => Ok(GoalState.Succeeded)
    case (Succeeded, Active) => Ok(GoalState.Succeeded)
    case (CancelRequested, Pending) => Ok(Recalling)
    case (CancelRequested, Active) => Ok(Preempting)
    case (target, status) => Err(TransitionIssue(target, AcceptedStates(target), status))
  }

  /** The transition table as a set of (command, from, to) triples. */
  const TransitionTable: set<(Command, GoalState, GoalState)> := {
    (Accepted, Pending, Active), (Accepted, Recalling, Preempting),
    (Canceled, Pending, Recalled), (Canceled, Recalling, Recalled),
    (Canceled, Active, Preempted), (Canceled, Preempting, Preempted),
    (Command.Rejected, Pending, GoalState.Rejected), (Command.Rejected, Recalling, GoalState.Rejected),
    (Command.Aborted, Active, GoalState.Aborted), (Command.Aborted, Preempting, GoalState.Aborted),
    (Command.Succeeded, Active, GoalState.Succeeded), (Command.Succeeded, Preempting, GoalState.Succeeded),
    (CancelRequested, Pending, Recalling), (CancelRequested, Active, Preempting)
  }

  /** A transition succeeds exactly on the pairs of the table, with the table's
      target state, and fails everywhere else. */
  lemma TransitionMatchesTable(c: Command, s: GoalState, t: GoalState)
    ensures DoTransition(c, s) == Ok(t) <==> (c, s, t) in TransitionTable
  {
  }

  /** The publish target agrees with every row of the transition table: a result
      exactly for the rows that end the goal, the status list exactly for the rows
      that keep it live. */
  lemma PublishTargetMatchesTable(c: Command, s: GoalState, t: GoalState)
    requires (c, s, t) in TransitionTable
    ensures IsTerminal(t) <==> TargetOf(c) == PublishResult
    ensures IsLive(t) <==> TargetOf(c) == PublishStatus
  {
  }

  /** No command moves a goal out of a terminal state (nor out of Lost). */
  lemma NoTransitionOutOfTerminal(c: Command, s: GoalState)
    requires !IsLive(s)
    ensures DoTransition(c, s).Err?
    ensures DoTransition(c, s).error.accepted == AcceptedStates(c)
  {
  }

  // ---------------------------------------------------------------------
  // Command sequences: the state a goal ends in after a series of commands,
  // each refused one leaving the state as it was, and how many results get
  // published along the way.

  /** One command's effect on the state: the new state, or the old one when refused. */
  function Step(s: GoalState, c: Command): (next: GoalState) {
    match DoTransition(c, s)
    case Ok(t) => t
    case Err(_) => s
  }

  function Settle(s: GoalState, cmds: seq<Command>): (last: GoalState)
    decreases |cmds|
  {
    if cmds == [] then s else Settle(Step(s, cmds[0]), cmds[1..])
  }

  /** The number of commands in `cmds` that succeed and publish a result, which is
      also the number of times the handle's destruction time gets stamped. */
  function ResultsPublished(s: GoalState, cmds: seq<Command>): (count: nat)
    decreases |cmds|
  {
    if cmds == [] then 0
    else
      var now := if DoTransition(cmds[0], s).Ok? && TargetOf(cmds[0]) == PublishResult then 1 else 0;
      now + ResultsPublished(Step(s, cmds[0]), cmds[1..])
  }

  /** The command at position `i` of a series succeeds and publishes a result. */
  predicate PublishesResultAt(s: GoalState, cmds: seq<Command>, i: nat)
    requires i < |cmds|
  {
    DoTransition(cmds[i], Settle(s, cmds[..i])).Ok? && TargetOf(cmds[i]) == PublishResult
  }

  /** Applying one more command extends a series by one `Step`, and adds one to
      the count exactly when that command succeeds and publishes a result. */
  lemma {:induction false} SettleSnoc(s: GoalState, cmds: seq<Command>, c: Command)
    ensures Settle(s, cmds + [c]) == Step(Settle(s, cmds), c)
    ensures ResultsPublished(s, cmds + [c])
         == ResultsPublished(s, cmds)
            + (if DoTransition(c, Settle(s, cmds)).Ok? && TargetOf(c) == PublishResult then 1 else 0)
    decreases |cmds|
  {
    if cmds == [] {
      assert [c][1..] == [];
    } else {
      assert (cmds + [c])[1..] == cmds[1..] + [c];
      SettleSnoc(Step(s, cmds[0]), cmds[1..], c);
    }
  }

  /** Once a goal is past its live states, no series of commands moves it again
      and none of them publishes a result. */
  lemma {:induction false} SettledStaysSettled(s: GoalState, cmds: seq<Command>)
    requires !IsLive(s)
    ensures Settle(s, cmds) == s
    ensures ResultsPublished(s, cmds) == 0
    decreases |cmds|
  {
    if cmds != [] {
      NoTransitionOutOfTerminal(cmds[0], s);
      SettledStaysSettled(s, cmds[1..]);
    }
  }

  /** Whatever commands are applied, a goal publishes at most one result and ends
      either live or terminal; it is terminal exactly when one result was published. */
  lemma {:induction false} AtMostOneResult(s: GoalState, cmds: seq<Command>)
    requires IsLive(s)
    ensures ResultsPublished(s, cmds) <= 1
    ensures IsTerminal(Settle(s, cmds)) <==> ResultsPublished(s, cmds) == 1
    ensures IsLive(Settle(s, cmds)) <==> ResultsPublished(s, cmds) == 0
    decreases |cmds|
  {
    if cmds != [] {
      var c, t := cmds[0], Step(s, cmds[0]);
      if DoTransition(c, s).Ok? && TargetOf(c) == PublishResult {
        SettledStaysSettled(t, cmds[1..]);
      } else {
        AtMostOneResult(t, cmds[1..]);
      }
    }
  }

  /** Whatever state it starts from, a series of commands publishes at most one result. */
  lemma OneResultPerSeries(s: GoalState, cmds: seq<Command>)
    ensures ResultsPublished(s, cmds) <= 1
  {
    if IsLive(s) {
      AtMostOneResult(s, cmds);
    } else {
      SettledStaysSettled(s, cmds);
    }
  }

  // ---------------------------------------------------------------------
  // The message of a refused transition.

  /** The article phrase naming each command's target state. */
  function TargetPhrase(c: Command): (phrase: string) {
    match c
    case Accepted => "an active"
    case Canceled => "a canceled"
    case Rejected => "a rejected"
    case Aborted => "an aborted"
    case Succeeded => "a succeeded"
    case CancelRequested => "a requested cancel"
  }

  /** Each state's name followed by ", ", in order. */
  function CommaList(states: seq<GoalState>): (text: string)
    decreases |states|
  {
    if states == [] then ""
    else CommaList(states[..|states| - 1]) + StateName(states[|states| - 1]) + ", "
  }

  /** The accepted states as a phrase: "X", "X or Y", or "A, B, ..., or Z". */
  function JoinStates(states: seq<GoalState>): (text: string) {
    if |states| == 0 then "nonexistent"
    else if |states| == 1 then StateName(states[0])
    else if |states| == 2 then StateName(states[0]) + " or " + StateName(states[1])
    else CommaList(states[..|states| - 1]) + "or " + StateName(states[|states| - 1])
  }

  function IssueText(issue: TransitionIssue): (text: string) {
    "To transition to " + TargetPhrase(issue.target) + " state, the goal must be in a "
    + JoinStates(issue.accepted)
    + " state, it is currently in state: " + StateName(issue.status)
  }

  /** Renders a transition issue, writing the comma-separated prefix of the
      accepted states one item at a time. */
  method Fmt(issue: TransitionIssue) returns (text: string)
    ensures text == IssueText(issue)
  {
    var accepted := issue.accepted;
    var joined: string;
    if |accepted| == 0 {
      joined := "nonexistent";
    } else if |accepted| == 1 {
      joined := StateName(accepted[0]);
    } else if |accepted| == 2 {
      joined := StateName(accepted[0]) + " or " + StateName(accepted[1]);
    } else {
      var most, last := accepted[..|accepted| - 1], accepted[|accepted| - 1];
      joined := "";
      for i := 0 to |most|
        invariant joined == CommaList(most[..i])
      {
        assert most[..i + 1][..i] == most[..i];
        joined := joined + StateName(most[i]) + ", ";
      }
      assert most[..|most|] == most;
      joined := joined + "or " + StateName(last);
    }
    text := "To transition to " + TargetPhrase(issue.target) + " state, the goal must be in a "
      + joined + " state, it is currently in state: " + StateName(issue.status);
  }

  // An independent reading of the list format: names separated by ", ".

  function Names(states: seq<GoalState>): (names: seq<string>)
    ensures |names| == |states|
    decreases |states|
  {
    if states == [] then [] else Names(states[..|states| - 1]) + [StateName(states[|states| - 1])]
  }

  function Intercalate(words: seq<string>, sep: string): (text: string)
    decreases |words|
  {
    if |words| == 0 then ""
    else if |words| == 1 then words[0]
    else Intercalate(words[..|words| - 1], sep) + sep + words[|words| - 1]
  }

  lemma {:induction false} CommaListIsSeparated(states: seq<GoalState>)
    requires states != []
    ensures CommaList(states) == Intercalate(Names(states), ", ") + ", "
    decreases |states|
  {
    var most := states[..|states| - 1];
    assert Names(states)[..|states| - 1] == Names(most);
    if most != [] {
      CommaListIsSeparated(most);
    }
  }

  /** With three or more accepted states the list uses the serial comma: the names
      in their listed order separated by ", ", the last one preceded by "or ". */
  lemma SerialCommaJoin(states: seq<GoalState>)
    requires |states| >= 3
    ensures JoinStates(states)
         == Intercalate(Names(states[..|states| - 1]), ", ") + ", or " + StateName(states[|states| - 1])
  {
    CommaListIsSeparated(states[..|states| - 1]);
  }

  /** The four states cancel accepts, joined with the serial comma. */
  lemma CanceledJoin()
    ensures JoinStates(AcceptedStates(Canceled)) == "Pending, Recalling, Active, or Preempting"
  {
    assert [Pending, Recalling][..1] == [Pending];
    assert [Pending, Recalling, Active][..2] == [Pending, Recalling];
    assert CommaList([Pending]) == "Pending, ";
    assert CommaList([Pending, Recalling]) == "Pending, Recalling, ";
    assert CommaList([Pending, Recalling, Active]) == "Pending, Recalling, Active, ";
    assert AcceptedStates(Canceled)[..3] == [Pending, Recalling, Active];
    assert "Pending, Recalling, Active, " + "or " + "Preempting" == "Pending, Recalling, Active, or Preempting";
  }

  /** The message for cancelling a goal that is already done lists all four live
      states with the serial comma. */
  lemma CanceledIssueText(s: GoalState)
    requires !IsLive(s)
    ensures DoTransition(Canceled, s).Err?
    ensures IssueText(DoTransition(Canceled, s).error)
         == "To transition to " + "a canceled" + " state, the goal must be in a "
            + "Pending, Recalling, Active, or Preempting" + " state, it is currently in state: " + StateName(s)
  {
    CanceledJoin();
  }

  /** Aborting a pending goal is refused with the message naming the two states
      abort accepts, in the source's order. */
  lemma AbortedFromPendingText()
    ensures DoTransition(Command.Aborted, Pending).Err?
    ensures IssueText(DoTransition(Command.Aborted, Pending).error)
         == "To transition to " + "an aborted" + " state, the goal must be in a "
            + "Preempting or Active" + " state, it is currently in state: " + "Pending"
  {
    assert JoinStates([Preempting, Active]) == "Preempting or Active";
  }
}
