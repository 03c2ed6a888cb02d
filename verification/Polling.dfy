/**
 The polling of one PVE task inside an attempt is the polling loop: driven by the same answers, the state machine
 reaches the verdict the loop returns.
 */
module Polling {
  import opened Models
  import opened Wire
  import opened NativeSnapshots
  import opened Attempts

  function ReplyOf(answer: Poll): Reply { if answer.Some? then Status(answer.value) else Raised }

  /** Resume an attempt with these answers, resting in between, until it leaves its polling positions. */
  function Drive(a: Attempt, phase: Phase, poll: nat, answers: seq<Poll>): Turn
    requires poll < |answers|
    decreases |answers| - poll
  {
    var at := a.(at := AwaitStatus(phase, poll));
    var turn := if phase.Creating? then OnCreateStatus(at, poll, ReplyOf(answers[poll]))
                else OnRemoveStatus(at, poll, ReplyOf(answers[poll]));
    if turn.Proceed? && turn.next.at == AwaitPause(phase, poll) && poll + 1 < |answers| then
      Drive(a, phase, poll + 1, answers)
    else turn
  }

  /** The verdict the polling loop reaches from this answer on. */
  function Verdict(answers: seq<Poll>, poll: nat): Watch
    decreases |answers| - poll
  {
    if poll >= |answers| then WatchFailed(false)
    else if StillRunning(answers[poll]) then Verdict(answers, poll + 1)
    else Conclude(answers[poll])
  }

  /** Where a verdict on the creation task takes the attempt. */
  predicate CreationFollows(a: Attempt, watch: Watch, turn: Turn) {
    match watch
    case WatchDone => turn.Proceed? && turn.next == a.(at := AwaitConfirm)
    case WatchFailed(true) => turn.Proceed? && turn.next == a.(at := AwaitRecheck)
    case WatchFailed(false) => turn.Settle? && turn.record == SnapshotErrorRecord(a, true)
  }

  predicate RemovalFollows(a: Attempt, watch: Watch, turn: Turn) {
    match watch
    case WatchDone => turn.Proceed? && turn.next == a.(at := AwaitAbsence)
    case WatchFailed(_) => turn.Settle? && turn.record == CleanupFailedRecord(a)
  }

  /** One answer about the creation task. */
  lemma CreationStep(a: Attempt, answer: Poll, poll: nat)
    requires poll < TASK_MAX_POLLS
    ensures var turn := OnCreateStatus(a.(at := AwaitStatus(Creating, poll)), poll, ReplyOf(answer));
      if !StillRunning(answer) then
        CreationFollows(a, Conclude(answer), turn) && (turn.Proceed? ==> !turn.next.at.AwaitPause?)
      else if poll + 1 < TASK_MAX_POLLS then turn.Proceed? && turn.next.at == AwaitPause(Creating, poll)
      else turn.Settle? && turn.record == SnapshotErrorRecord(a, true)
  {
    hide TaskStopped, ExitAccepted;
  }

  /** One answer about the removal task. */
  lemma RemovalStep(a: Attempt, answer: Poll, poll: nat)
    requires poll < TASK_MAX_POLLS
    ensures var turn := OnRemoveStatus(a.(at := AwaitStatus(Removing, poll)), poll, ReplyOf(answer));
      if !StillRunning(answer) then
        RemovalFollows(a, Conclude(answer), turn) && (turn.Proceed? ==> !turn.next.at.AwaitPause?)
      else if poll + 1 < TASK_MAX_POLLS then turn.Proceed? && turn.next.at == AwaitPause(Removing, poll)
      else turn.Settle? && turn.record == CleanupFailedRecord(a)
  {
    hide TaskStopped, ExitAccepted;
  }

  lemma {:induction false} CreationIsTheLoop(a: Attempt, answers: seq<Poll>, poll: nat)
    requires poll < |answers| == TASK_MAX_POLLS
    ensures CreationFollows(a, Verdict(answers, poll), Drive(a, Creating, poll, answers))
    decreases |answers| - poll
  {
    hide OnCreateStatus, OnRemoveStatus, StillRunning, Conclude, SnapshotErrorRecord;
    CreationStep(a, answers[poll], poll);
    if StillRunning(answers[poll]) && poll + 1 < TASK_MAX_POLLS {
      CreationIsTheLoop(a, answers, poll + 1);
    }
  }

  lemma {:induction false} RemovalIsTheLoop(a: Attempt, answers: seq<Poll>, poll: nat)
    requires poll < |answers| == TASK_MAX_POLLS
    ensures RemovalFollows(a, Verdict(answers, poll), Drive(a, Removing, poll, answers))
    decreases |answers| - poll
  {
    hide OnCreateStatus, OnRemoveStatus, StillRunning, Conclude, CleanupFailedRecord;
    RemovalStep(a, answers[poll], poll);
    if StillRunning(answers[poll]) && poll + 1 < TASK_MAX_POLLS {
      RemovalIsTheLoop(a, answers, poll + 1);
    }
  }

  lemma {:induction false} VerdictSkips(answers: seq<Poll>, poll: nat, decided: nat)
    requires poll <= decided <= |answers| && forall i | poll <= i < decided :: StillRunning(answers[i])
    ensures Verdict(answers, poll) == Verdict(answers, decided)
    decreases decided - poll
  {
    if poll < decided {
      VerdictSkips(answers, poll + 1, decided);
    }
  }

  /** The loop and the state machine agree on every sequence of answers. */
  method WatchTask(a: Attempt, answers: seq<Poll>) returns (watch: Watch)
    requires |answers| == TASK_MAX_POLLS
    ensures CreationFollows(a, watch, Drive(a, Creating, 0, answers))
    ensures RemovalFollows(a, watch, Drive(a, Removing, 0, answers))
  {
    var polled;
    watch, polled := WaitForTask(answers, TASK_MAX_POLLS);
    CreationIsTheLoop(a, answers, 0);
    RemovalIsTheLoop(a, answers, 0);
    if polled > 0 && !StillRunning(answers[polled - 1]) {
      VerdictSkips(answers, 0, polled - 1);
    } else {
      VerdictSkips(answers, 0, TASK_MAX_POLLS);
    }
  }
}
