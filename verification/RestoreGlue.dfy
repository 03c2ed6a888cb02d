/**
 What one Restore may claim about its outcome (snapshots.py): the answer to the rollback request, and the bounded
 observation of the task it started.
 */
module RestoreGlue {
  import opened Wire
  import opened NativeSnapshots
  import opened ManagerMachine

  datatype RestoreOutcome = NotStarted | RestoreSucceeded | RestoreFailed | Uncertain

  const OBSERVATION_RETRY: real := 5.0

  /** One request for the task's final status: what it returned and how long it took. */
  datatype Observation =
    | ObservationRaised(took: real)
    | DeadlineReached(took: real)
    | Observed(payload: Json, took: real)

  function ConcludeRestore(o: Observation): RestoreOutcome {
    if !o.Observed? || !TaskStopped(o.payload) then Uncertain
    else if ExitAccepted(Get(o.payload, "exitstatus")) then RestoreSucceeded
    else RestoreFailed
  }

  /** Success and failure are told apart only once the task's own status field says that it has stopped. */
  lemma ConcludesExactly(o: Observation)
    ensures !ConcludeRestore(o).Uncertain? <==> o.Observed? && Says(o.payload, "status", Str("stopped"))
    ensures ConcludeRestore(o).RestoreSucceeded? <==>
      o.Observed? && Says(o.payload, "status", Str("stopped"))
      && exists exit: string :: Says(o.payload, "exitstatus", Str(exit)) && EndsWell(exit)
    ensures !ConcludeRestore(o).NotStarted?
  {
    hide ExitAccepted, EndsWell;
    if o.Observed? {
      ExitExactly(Get(o.payload, "exitstatus"));
      if ConcludeRestore(o).RestoreSucceeded? {
        assert Says(o.payload, "exitstatus", Str(Get(o.payload, "exitstatus").s));
      }
    }
  }

  function Least(a: real, b: real): real { if a <= b then a else b }

  /** The observation that decides, if one is reached within the attempts and before the deadline. */
  function Deciding(answers: seq<Observation>, now: real, deadline: real, attempts: nat): (decided: nat)
    requires attempts <= |answers|
    ensures decided <= attempts
    decreases attempts
  {
    if attempts == 0 || deadline - now <= 0.0 then attempts
    else if !answers[0].ObservationRaised? then 0
    else
      var after := now + answers[0].took;
      if attempts == 1 || deadline - after <= 0.0 then attempts
      else 1 + Deciding(answers[1..], after + Least(OBSERVATION_RETRY, deadline - after), deadline, attempts - 1)
  }

  /** How long these answers and a full pause after each of them take. */
  function Elapsed(answers: seq<Observation>): real {
    if answers == [] then 0.0 else answers[0].took + OBSERVATION_RETRY + Elapsed(answers[1..])
  }

  lemma {:induction false} ElapsedGrows(answers: seq<Observation>)
    requires forall i | 0 <= i < |answers| :: answers[i].took >= 0.0
    ensures Elapsed(answers) >= 0.0
  {
    if answers != [] {
      ElapsedGrows(answers[1..]);
    }
  }

  /** The first answer that comes at all decides exactly when all failures before it leave it time to be asked for. */
  lemma {:induction false} DecidesExactly(answers: seq<Observation>, now: real, deadline: real, attempts: nat, first: nat)
    requires first < attempts <= |answers| && !answers[first].ObservationRaised?
    requires forall i | 0 <= i < first :: answers[i].ObservationRaised? && answers[i].took >= 0.0
    ensures Deciding(answers, now, deadline, attempts) ==
      if now + Elapsed(answers[..first]) < deadline then first else attempts
  {
    ElapsedGrows(answers[..first]);
    if first > 0 {
      var after := now + answers[0].took;
      assert answers[..first][1..] == answers[1..][..first - 1];
      ElapsedGrows(answers[1..][..first - 1]);
      DecidesExactly(answers[1..], after + Least(OBSERVATION_RETRY, deadline - after), deadline, attempts - 1, first - 1);
    }
  }

  /**
   Observe one task. The outcome is the conclusion of the first answer that came at all, provided it came within the
   attempts and before the shared deadline, and uncertain otherwise.
   */
  method ObserveTask(answers: seq<Observation>, started: real, timeout: real, attempts: nat) returns (outcome: RestoreOutcome)
    requires attempts <= |answers|
    ensures var decided := Deciding(answers, started, started + timeout, attempts);
      outcome == if decided < attempts then ConcludeRestore(answers[decided]) else Uncertain
    ensures outcome.RestoreSucceeded? || outcome.RestoreFailed? ==>
      exists i | 0 <= i < attempts ::
        && answers[i].Observed? && Says(answers[i].payload, "status", Str("stopped"))
        && (outcome.RestoreSucceeded? <==>
          exists exit: string :: Says(answers[i].payload, "exitstatus", Str(exit)) && EndsWell(exit))
        && forall j | 0 <= j < i :: answers[j].ObservationRaised?
  {
    hide ConcludeRestore, EndsWell, Says;
    var deadline, now := started + timeout, started;
    for attempt := 0 to attempts
      invariant forall j | 0 <= j < attempt :: answers[j].ObservationRaised?
      invariant Deciding(answers, started, deadline, attempts)
        == attempt + Deciding(answers[attempt..], now, deadline, attempts - attempt)
    {
      var rest := answers[attempt..];
      assert rest[0] == answers[attempt] && rest[1..] == answers[attempt + 1..];
      if deadline - now <= 0.0 {
        return Uncertain;
      }
      var answer := answers[attempt];
      if answer.ObservationRaised? {
        now := now + answer.took;
        if attempt + 1 >= attempts || deadline - now <= 0.0 {
          return Uncertain;
        }
        now := now + Least(OBSERVATION_RETRY, deadline - now);
      } else {
        ConcludesExactly(answer);
        return ConcludeRestore(answer);
      }
    }
    return Uncertain;
  }

  /** What came back from the rollback request: an HTTP status PVE refused it with, another error, or an answer. */
  datatype Submission = Rejected(status: int) | SubmissionRaised | Answered(upid: bool)

  /** Only a definite client error proves that nothing was started. */
  predicate Refuses(s: Submission) { s.Rejected? && 400 <= s.status < 500 && s.status != 408 }

  function RollbackOutcome(s: Submission, observed: RestoreOutcome): RestoreOutcome {
    if Refuses(s) then NotStarted
    else if !s.Answered? || !s.upid then Uncertain
    else observed
  }

  /** The replies the Restore task of the manager's state machine sees for one rollback, in order. */
  function Replies(s: Submission, observed: RestoreOutcome): seq<RestoreReply> {
    if Refuses(s) then [RollbackRefused]
    else if !s.Answered? || !s.upid then [RestoreRaised]
    else [TaskAccepted, TaskObserved(!observed.Uncertain?)]
  }

  /**
   The outcome is known exactly when PVE refused the request outright or the started task was seen to stop; only
   then does the state machine's Restore give its reservation back.
   */
  lemma KnownExactlyWhenSeen(s: Submission, observed: RestoreOutcome)
    requires !observed.NotStarted?
    ensures RollbackOutcome(s, observed).NotStarted? <==> s.Rejected? && 400 <= s.status <= 499 && s.status != 408
    ensures RollbackOutcome(s, observed).RestoreSucceeded? <==> s.Answered? && s.upid && observed.RestoreSucceeded?
    ensures !RollbackOutcome(s, observed).Uncertain? <==>
      RollbackOutcome(s, observed).NotStarted? || (s.Answered? && s.upid && (observed.RestoreSucceeded? || observed.RestoreFailed?))
    ensures var last := Replies(s, observed)[|Replies(s, observed)| - 1];
      !RollbackOutcome(s, observed).Uncertain? <==> last.RollbackRefused? || last == TaskObserved(true)
  {
  }
}
