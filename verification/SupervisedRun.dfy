/** The supervisor's runner thread, left alone after its launch, ends as run_task's account says. */
module SupervisedRun {
  import opened Models
  import opened TaskLedger
  import opened LedgerInvariants
  import opened Supervisor
  import Launch
  import R = Runner

  /** n steps of a runner thread with nobody else acting. */
  function Steps(l: Ledger, t: string, pc: Pc, cancel: bool, c: Choice, n: nat): (Ledger, Pc)
    decreases n
  {
    if n == 0 then (l, pc)
    else
      var step := RunnerStep(l, t, pc, cancel, c);
      Steps(step.0, t, step.1, cancel, c, n - 1)
  }

  /** What run_task writes for the end of its launch block and the flag at its last check. */
  function Recorded(end: Launch.End, cancel: bool): AttemptStatus {
    R.WrittenFor(end, if end.ExitedEnd? then end.code else 0, cancel)
  }

  /** The attempt and the task as the account of the run has them. */
  predicate AsAccounted(l: Ledger, t: string, a: nat, end: Launch.End, wrote: AttemptStatus) {
    && a in l.attempts && l.attempts[a].status == wrote
    && StatusOf(l, t) == Some(R.Verdict(end, wrote))
  }

  lemma Closes(l: Ledger, t: string, a: nat, status: AttemptStatus)
    requires OnlyRuns(l, t, a) && status != RunningAttempt
    ensures var m := Apply(l, FinishCall(a, status));
            && Accepted(l, FinishCall(a, status)) && a in m.attempts && m.attempts[a].status == status
            && !HasRunningAttempt(m, t) && StatusOf(m, t) == Some(Running)
  {
    FinishEffect(l, t, a, status);
  }

  /** Close the attempt, read the status, move the task. */
  lemma ThreeSteps(l: Ledger, t: string, p: Pc, m: Ledger, q: Pc, r: Pc, n: Ledger, last: Pc, cancel: bool,
                   c: Choice)
    requires RunnerStep(l, t, p, cancel, c) == (m, q)
    requires RunnerStep(m, t, q, cancel, c) == (m, r)
    requires RunnerStep(m, t, r, cancel, c) == (n, last)
    ensures Steps(l, t, p, cancel, c, 3) == (n, last)
  {
    assert Steps(n, t, last, cancel, c, 0) == (n, last);
    assert Steps(m, t, r, cancel, c, 1) == (n, last);
    assert Steps(m, t, q, cancel, c, 2) == (n, last);
  }

  lemma CancelCloses(l: Ledger, t: string, a: nat, c: Choice) returns (m: Ledger)
    requires OnlyRuns(l, t, a)
    ensures RunnerStep(l, t, CloseCancelled(a), true, c) == (m, ReadCancelled)
    ensures a in m.attempts && m.attempts[a].status == CancelledAttempt
    ensures !HasRunningAttempt(m, t) && StatusOf(m, t) == Some(Running)
  {
    Closes(l, t, a, CancelledAttempt);
    m := Apply(l, FinishCall(a, CancelledAttempt));
  }

  /** The two steps after a cancelled attempt is closed. */
  lemma CancelMoves(m: Ledger, t: string, c: Choice) returns (n: Ledger)
    requires !HasRunningAttempt(m, t) && StatusOf(m, t) == Some(Running)
    ensures RunnerStep(m, t, ReadCancelled, true, c) == (m, WillCancel)
    ensures RunnerStep(m, t, WillCancel, true, c) == (n, Done)
    ensures n.attempts == m.attempts && StatusOf(n, t) == Some(TaskStatus.Cancelled)
  {
    CancelEffect(m, t, "cancellation completed");
    n := Apply(m, CancelTask(t, "cancellation completed"));
  }

  lemma CancelEnds(l: Ledger, t: string, a: nat, c: Choice)
    requires OnlyRuns(l, t, a)
    ensures var r := Steps(l, t, CloseCancelled(a), true, c, 3);
            && r.1 == Done && a in r.0.attempts && r.0.attempts[a].status == CancelledAttempt
            && StatusOf(r.0, t) == Some(TaskStatus.Cancelled)
  {
    var m := CancelCloses(l, t, a, c);
    var n := CancelMoves(m, t, c);
    ThreeSteps(l, t, CloseCancelled(a), m, ReadCancelled, WillCancel, n, Done, true, c);
  }

  /** The two steps after an exit's attempt is closed. */
  lemma ExitMoves(m: Ledger, t: string, code: int, c: Choice) returns (n: Ledger)
    requires !HasRunningAttempt(m, t) && StatusOf(m, t) == Some(Running)
    ensures RunnerStep(m, t, ReadExited(code), false, c) == (m, WillExit(code))
    ensures RunnerStep(m, t, WillExit(code), false, c) == (n, Done)
    ensures n.attempts == m.attempts
    ensures StatusOf(n, t) == Some(if code == 0 then NeedsReview else TaskStatus.Failed)
  {
    var target := if code == 0 then NeedsReview else TaskStatus.Failed;
    MoveEffect(m, t, target, "exit");
    n := Apply(m, Transition(t, target, "exit"));
  }

  lemma ExitCloses(l: Ledger, t: string, a: nat, code: int, c: Choice) returns (m: Ledger)
    requires OnlyRuns(l, t, a)
    ensures RunnerStep(l, t, CloseExited(a, code), false, c) == (m, ReadExited(code))
    ensures a in m.attempts && m.attempts[a].status == if code == 0 then Succeeded else FailedAttempt
    ensures !HasRunningAttempt(m, t) && StatusOf(m, t) == Some(Running)
  {
    Closes(l, t, a, if code == 0 then Succeeded else FailedAttempt);
    m := Apply(l, FinishCall(a, if code == 0 then Succeeded else FailedAttempt));
  }

  lemma ExitEnds(l: Ledger, t: string, a: nat, code: int, c: Choice)
    requires OnlyRuns(l, t, a)
    ensures var r := Steps(l, t, CloseExited(a, code), false, c, 3);
            && r.1 == Done && a in r.0.attempts
            && r.0.attempts[a].status == (if code == 0 then Succeeded else FailedAttempt)
            && StatusOf(r.0, t) == Some(if code == 0 then NeedsReview else TaskStatus.Failed)
  {
    var m := ExitCloses(l, t, a, code, c);
    var n := ExitMoves(m, t, code, c);
    ThreeSteps(l, t, CloseExited(a, code), m, ReadExited(code), WillExit(code), n, Done, false, c);
  }

  /** The two steps after a failure's attempt is closed. */
  lemma FailureMoves(m: Ledger, t: string, group: bool, fatal: bool, cancel: bool, c: Choice) returns (n: Ledger)
    requires !HasRunningAttempt(m, t) && StatusOf(m, t) == Some(Running)
    ensures RunnerStep(m, t, ReadFailed(group, fatal), cancel, c) == (m, WillFail(group, fatal))
    ensures RunnerStep(m, t, WillFail(group, fatal), cancel, c) == (n, Leave(fatal))
    ensures n.attempts == m.attempts && !HasRunningAttempt(n, t)
    ensures StatusOf(n, t) == Some(if group then Blocked else TaskStatus.Failed)
  {
    var target := if group then Blocked else TaskStatus.Failed;
    MoveEffect(m, t, target, "");
    n := Apply(m, Transition(t, target, ""));
  }

  lemma FailureEnds(l: Ledger, t: string, a: nat, group: bool, fatal: bool, cancel: bool, c: Choice)
    requires OnlyRuns(l, t, a)
    ensures var r := Steps(l, t, CloseFailed(a, group, fatal), cancel, c, 3);
            && r.1 == Leave(fatal) && a in r.0.attempts && r.0.attempts[a].status == FailedAttempt
            && StatusOf(r.0, t) == Some(if group then Blocked else TaskStatus.Failed)
            && !HasRunningAttempt(r.0, t)
  {
    Closes(l, t, a, FailedAttempt);
    var m := Apply(l, FinishCall(a, FailedAttempt));
    var n := FailureMoves(m, t, group, fatal, cancel, c);
    ThreeSteps(l, t, CloseFailed(a, group, fatal), m, ReadFailed(group, fatal), WillFail(group, fatal), n,
               Leave(fatal), cancel, c);
  }

  /** The service's clean-up finds nothing to do in a settled ledger. */
  lemma CleanupIdle(l: Ledger, t: string, cancel: bool, c: Choice)
    requires Settled(l, t)
    ensures Steps(l, t, Cleanup, cancel, c, 3) == (l, Done)
  {
    forall i | i in l.attempts ensures !RunningFor(l, t, i) {
    }
    assert RunningIds(l, t) == {};
    ThreeSteps(l, t, Cleanup, l, CleanupClosing({}), CleanupRead, l, Done, cancel, c);
  }

  lemma {:induction false} StepsAppend(l: Ledger, t: string, pc: Pc, cancel: bool, c: Choice, m: nat, n: nat)
    ensures var r := Steps(l, t, pc, cancel, c, m);
            Steps(l, t, pc, cancel, c, m + n) == Steps(r.0, t, r.1, cancel, c, n)
    decreases m
  {
    if m > 0 {
      var step := RunnerStep(l, t, pc, cancel, c);
      StepsAppend(step.0, t, step.1, cancel, c, m - 1, n);
    }
  }

  lemma OneStepMore(l: Ledger, t: string, p: Pc, q: Pc, cancel: bool, c: Choice, n: nat)
    requires RunnerStep(l, t, p, cancel, c) == (l, q)
    ensures Steps(l, t, p, cancel, c, n + 1) == Steps(l, t, q, cancel, c, n)
  {
  }

  lemma FailureReturns(l: Ledger, t: string, a: nat, group: bool, fatal: bool, cancel: bool, c: Choice)
    returns (n: nat)
    requires OnlyRuns(l, t, a)
    ensures var r := Steps(l, t, CloseFailed(a, group, fatal), cancel, c, n);
            && r.1 == Done && a in r.0.attempts && r.0.attempts[a].status == FailedAttempt
            && StatusOf(r.0, t) == Some(if group then Blocked else TaskStatus.Failed)
  {
    FailureEnds(l, t, a, group, fatal, cancel, c);
    n := 3;
    if !fatal {
      n := 6;
      CleanupIdle(Steps(l, t, CloseFailed(a, group, fatal), cancel, c, 3).0, t, cancel, c);
      StepsAppend(l, t, CloseFailed(a, group, fatal), cancel, c, 3, 3);
    }
  }

  lemma ExitReturns(l: Ledger, t: string, a: nat, code: int, cancel: bool, c: Choice)
    requires OnlyRuns(l, t, a) && c.end.ExitedEnd? && c.end.code == code
    ensures var r := Steps(l, t, CheckFlag(a, code), cancel, c, 4);
            r.1 == Done && AsAccounted(r.0, t, a, c.end, Recorded(c.end, cancel))
  {
    if cancel {
      OneStepMore(l, t, CheckFlag(a, code), CloseCancelled(a), cancel, c, 3);
      CancelEnds(l, t, a, c);
    } else {
      OneStepMore(l, t, CheckFlag(a, code), CloseExited(a, code), cancel, c, 3);
      ExitEnds(l, t, a, code, c);
    }
  }

  /** Where the end of the launch block leads. */
  lemma LaunchedStep(l: Ledger, t: string, a: nat, q: Pc, cancel: bool, c: Choice, n: nat)
    requires q == match c.end
                  case ExitedEnd(code, _) => CheckFlag(a, code)
                  case CancelledEnd(_) => if cancel then CloseCancelled(a) else Launched(a)
                  case FailedEnd(group, _, leaves) => CloseFailed(a, group.Some?, Fatal(leaves))
    ensures Steps(l, t, Launched(a), cancel, c, n + 1) == Steps(l, t, q, cancel, c, n)
  {
    OneStepMore(l, t, Launched(a), q, cancel, c, n);
  }

  lemma FailedEnds(l: Ledger, t: string, a: nat, cancel: bool, c: Choice) returns (n: nat)
    requires OnlyRuns(l, t, a) && c.end.FailedEnd?
    ensures var r := Steps(l, t, Launched(a), cancel, c, n);
            r.1 == Done && AsAccounted(r.0, t, a, c.end, FailedAttempt)
  {
    var group, fatal := c.end.group.Some?, Fatal(c.end.leaves);
    n := FailureReturns(l, t, a, group, fatal, cancel, c);
    LaunchedStep(l, t, a, CloseFailed(a, group, fatal), cancel, c, n);
    n := n + 1;
  }

  /** Left alone after its launch, a runner thread returns, with the attempt closed and the task
      moved exactly as the account of run_task has them for that end of the launch block. */
  lemma LoneRunEndsAsAccounted(l: Ledger, t: string, a: nat, cancel: bool, c: Choice) returns (n: nat)
    requires OnlyRuns(l, t, a) && (c.end.CancelledEnd? ==> cancel)
    ensures var r := Steps(l, t, Launched(a), cancel, c, n);
            r.1 == Done && AsAccounted(r.0, t, a, c.end, Recorded(c.end, cancel))
  {
    match c.end
    case CancelledEnd(_) =>
      n := 4;
      LaunchedStep(l, t, a, CloseCancelled(a), cancel, c, 3);
      CancelEnds(l, t, a, c);
    case ExitedEnd(code, _) =>
      n := 5;
      LaunchedStep(l, t, a, CheckFlag(a, code), cancel, c, 4);
      ExitReturns(l, t, a, code, cancel, c);
    case FailedEnd(_, _, _) =>
      n := FailedEnds(l, t, a, cancel, c);
  }

  // ----------------------------------------------------- before the launch

  function JobOf(t: string, c: Choice): R.Job {
    R.Job(t, "builder_codex", "primary", Some("openai"), c.model, c.env, c.attemptId, c.now)
  }

  lemma ThenSteps(l: Ledger, t: string, p: Pc, m: Ledger, q: Pc, cancel: bool, c: Choice, n: nat)
    requires RunnerStep(l, t, p, cancel, c) == (m, q)
    ensures Steps(l, t, p, cancel, c, n + 1) == Steps(m, t, q, cancel, c, n)
  {
  }

  lemma OpensTask(l: Ledger, t: string, c: Choice) returns (n: nat)
    requires Accepted(R.Opened(l, t), R.StartCall(JobOf(t, c)))
    ensures Steps(l, t, ReadStatus, false, c, n) == (R.Opened(l, t), WillStart)
  {
    R.StartableExactly(l, JobOf(t, c));
    if l.tasks[t].status == Running {
      n := 1;
      ThenSteps(l, t, ReadStatus, l, WillStart, false, c, 0);
    } else {
      n := 2;
      OpeningMove(l, t, c);
      ThenSteps(l, t, WillMove, R.Opened(l, t), WillStart, false, c, 0);
      ThenSteps(l, t, ReadStatus, l, WillMove, false, c, 1);
    }
  }

  lemma OpeningMove(l: Ledger, t: string, c: Choice)
    requires StatusOf(l, t) in {Some(Queued), Some(Blocked), Some(NeedsReview), Some(TaskStatus.Failed)}
    ensures RunnerStep(l, t, WillMove, false, c) == (R.Opened(l, t), WillStart)
  {
  }

  lemma StartStep(l: Ledger, t: string, c: Choice)
    requires Accepted(l, R.StartCall(JobOf(t, c)))
    ensures RunnerStep(l, t, WillStart, false, c)
            == (Apply(l, R.StartCall(JobOf(t, c))), Preparing(c.attemptId))
  {
    assert R.StartCall(JobOf(t, c)) == StartCall(t, c);
  }

  lemma TrackSteps(m: Ledger, t: string, c: Choice)
    requires !c.fails
    ensures RunnerStep(m, t, Preparing(c.attemptId), false, c) == (m, Tracking(c.attemptId))
    ensures RunnerStep(m, t, Tracking(c.attemptId), false, c)
            == (Apply(m, SetAttemptProcess(c.attemptId, c.pid)), Launched(c.attemptId))
  {
  }

  /** The three steps that start the attempt and record its process. */
  lemma StartsAndTracks(l: Ledger, t: string, c: Choice)
    requires Accepted(l, R.StartCall(JobOf(t, c))) && !c.fails
    ensures var m := Apply(l, R.StartCall(JobOf(t, c)));
            Steps(l, t, WillStart, false, c, 3)
            == (Apply(m, SetAttemptProcess(c.attemptId, c.pid)), Launched(c.attemptId))
  {
    var m := Apply(l, R.StartCall(JobOf(t, c)));
    var n := Apply(m, SetAttemptProcess(c.attemptId, c.pid));
    StartStep(l, t, c);
    TrackSteps(m, t, c);
    ThreeSteps(l, t, WillStart, m, Preparing(c.attemptId), Tracking(c.attemptId), n, Launched(c.attemptId),
               false, c);
  }

  /** Left alone, with its flag unset and nothing failing, a submitted run comes to its launch with
      exactly the writes that run_task makes before it, whenever run_task would start. */
  lemma LoneRunLaunches(l: Ledger, t: string, c: Choice) returns (n: nat)
    requires Accepted(R.Opened(l, t), R.StartCall(JobOf(t, c))) && !c.fails
    ensures Steps(l, t, Pending, false, c, n)
            == (Apply(R.Begun(l, JobOf(t, c)), SetAttemptProcess(c.attemptId, c.pid)), Launched(c.attemptId))
  {
    n := OpensTask(l, t, c);
    LaunchesFrom(l, R.Opened(l, t), t, c, n);
    n := n + 5;
  }

  lemma LaunchesFrom(l: Ledger, ready: Ledger, t: string, c: Choice, n: nat)
    requires Steps(l, t, ReadStatus, false, c, n) == (ready, WillStart)
    requires Accepted(ready, R.StartCall(JobOf(t, c))) && !c.fails
    ensures Steps(l, t, Pending, false, c, n + 5)
            == (Apply(Apply(ready, R.StartCall(JobOf(t, c))), SetAttemptProcess(c.attemptId, c.pid)),
                Launched(c.attemptId))
  {
    StartsAndTracks(ready, t, c);
    StepsAppend(l, t, ReadStatus, false, c, n, 3);
    PassesChecks(l, t, c, n + 3);
  }

  lemma PassesChecks(l: Ledger, t: string, c: Choice, n: nat)
    requires !c.fails
    ensures Steps(l, t, Pending, false, c, n + 2) == Steps(l, t, ReadStatus, false, c, n)
  {
    ThenSteps(l, t, PreCheck, l, ReadStatus, false, c, n);
    ThenSteps(l, t, Pending, l, PreCheck, false, c, n + 1);
  }

  // ------------------------------------------------------------ clean-up

  /** The service's clean-up of a task that nothing runs for any more: one that is queued or running
      fails, any other is left as it is. */
  lemma CleanupFailsTask(l: Ledger, t: string, cancel: bool, c: Choice)
    requires !HasRunningAttempt(l, t) && StatusOf(l, t) in {Some(Queued), Some(Running)}
    ensures var r := Steps(l, t, CleanupClosing({}), cancel, c, 3);
            && r.1 == Done && r.0.attempts == l.attempts && StatusOf(r.0, t) == Some(TaskStatus.Failed)
  {
    var m := CleanupSteps(l, t, cancel, c);
    ThreeSteps(l, t, CleanupClosing({}), l, CleanupRead, CleanupMove, m, Done, cancel, c);
  }

  lemma CleanupSteps(l: Ledger, t: string, cancel: bool, c: Choice) returns (m: Ledger)
    requires !HasRunningAttempt(l, t) && StatusOf(l, t) in {Some(Queued), Some(Running)}
    ensures RunnerStep(l, t, CleanupClosing({}), cancel, c) == (l, CleanupRead)
    ensures RunnerStep(l, t, CleanupRead, cancel, c) == (l, CleanupMove)
    ensures RunnerStep(l, t, CleanupMove, cancel, c) == (m, Done)
    ensures m.attempts == l.attempts && StatusOf(m, t) == Some(TaskStatus.Failed)
  {
    MoveEffect(l, t, TaskStatus.Failed, "service runner failed");
    m := Apply(l, Transition(t, TaskStatus.Failed, "service runner failed"));
  }

  /** A run whose preparation fails is cleaned up after: its attempt and its task end failed. */
  lemma FailedPreparationIsCleanedUp(l: Ledger, t: string, a: nat, cancel: bool, c: Choice)
    requires OnlyRuns(l, t, a) && c.fails && c.pick == a
    ensures var r := Steps(l, t, Preparing(a), cancel, c, 6);
            && r.1 == Done && !HasRunningAttempt(r.0, t)
            && a in r.0.attempts && r.0.attempts[a].status == FailedAttempt
            && StatusOf(r.0, t) == Some(TaskStatus.Failed)
  {
    var m := ClosesInCleanup(l, t, a, cancel, c, 3);
    CleanupFailsTask(m, t, cancel, c);
    SameAttempts(m, Steps(m, t, CleanupClosing({}), cancel, c, 3).0, t);
  }

  lemma ClosesInCleanup(l: Ledger, t: string, a: nat, cancel: bool, c: Choice, n: nat) returns (m: Ledger)
    requires OnlyRuns(l, t, a) && c.fails && c.pick == a
    ensures Steps(l, t, Preparing(a), cancel, c, n + 3) == Steps(m, t, CleanupClosing({}), cancel, c, n)
    ensures a in m.attempts && m.attempts[a].status == FailedAttempt
    ensures !HasRunningAttempt(m, t) && StatusOf(m, t) == Some(Running)
  {
    Closes(l, t, a, FailedAttempt);
    m := Apply(l, FinishCall(a, FailedAttempt));
    assert RunningIds(l, t) == {a};
    ClosingOne(l, t, a, cancel, c);
    ThenSteps(l, t, CleanupClosing({a}), m, CleanupClosing({}), cancel, c, n);
    ThenSteps(l, t, Cleanup, l, CleanupClosing({a}), cancel, c, n + 1);
    ThenSteps(l, t, Preparing(a), l, Cleanup, cancel, c, n + 2);
  }

  lemma ClosingOne(l: Ledger, t: string, a: nat, cancel: bool, c: Choice)
    requires c.pick == a && Accepted(l, FinishCall(a, FailedAttempt))
    ensures RunnerStep(l, t, CleanupClosing({a}), cancel, c)
            == (Apply(l, FinishCall(a, FailedAttempt)), CleanupClosing({}))
  {
    assert {a} - {a} == {};
  }
}
