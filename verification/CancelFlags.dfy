/** What a requested cancellation does to a supervised run, over every interleaving. */
module CancelFlags {
  import opened Models
  import opened TaskLedger
  import opened LedgerInvariants
  import opened Supervisor

  predicate Flagged(m: Machine, k: nat) {
    k < |m.runs| && m.runs[k].cancel
  }

  /** Everybody else acts: the service waits where it stands. */
  predicate ServiceWaits(moves: seq<Move>) {
    forall k | 0 <= k < |moves| :: !moves[k].ServiceMove?
  }

  // ------------------------------------------------ the flag stays set

  lemma NextKeepsFlags(m: Machine, t: string, move: Move, k: nat)
    requires k < |m.runs|
    ensures k < |Next(m, t, move).runs|
    ensures m.runs[k].cancel ==> Next(m, t, move).runs[k].cancel
  {
  }

  /** Runs are never forgotten, and a flag once set stays set. */
  lemma {:induction false} FlagStays(m: Machine, t: string, moves: seq<Move>, k: nat)
    requires Flagged(m, k)
    ensures Flagged(Play(m, t, moves), k)
    decreases |moves|
  {
    if moves != [] {
      NextKeepsFlags(m, t, moves[0], k);
      FlagStays(Next(m, t, moves[0]), t, moves[1..], k);
    }
  }

  // ---------------------------------------------- the request sets it

  lemma {:induction false} WaitingService(m: Machine, t: string, moves: seq<Move>)
    requires !m.service.Free? && ServiceWaits(moves)
    ensures Play(m, t, moves).service == m.service && |Play(m, t, moves).runs| == |m.runs|
    decreases |moves|
  {
    if moves != [] {
      var n := Next(m, t, moves[0]);
      assert n.service == m.service && |n.runs| == |m.runs|;
      forall k | 0 <= k < |moves[1..]| ensures !moves[1..][k].ServiceMove? {
        assert moves[1..][k] == moves[k + 1];
      }
      WaitingService(n, t, moves[1..]);
    }
  }

  /** The machine after a request, what others did before the service read the task (`a`) and what they
      did after that (`b`). */
  function Requested(m: Machine, t: string, a: seq<Move>): Machine {
    Play(m, t, [RequestCancel] + a)
  }

  function ReadBy(m: Machine, t: string, b: seq<Move>): Machine {
    Play(m, t, [ServiceMove] + b)
  }

  lemma OneThen(m: Machine, t: string, move: Move, rest: seq<Move>)
    ensures Play(m, t, [move] + rest) == Play(Next(m, t, move), t, rest)
  {
    assert ([move] + rest)[1..] == rest;
  }

  /** A cancellation of a queued or running task reaches its run: whatever others do before the service
      reads the task and after, the newest run, if it is still live when the service goes on, has its
      flag set from then on, over all later moves. */
  lemma RequestReachesRun(m: Machine, t: string, a: seq<Move>, b: seq<Move>, later: seq<Move>)
    requires m.service.Free? && ServiceWaits(a) && ServiceWaits(b)
    requires StatusOf(Requested(m, t, a).ledger, t) in {Some(Queued), Some(Running)}
    ensures var q := ReadBy(Requested(m, t, a), t, b);
            LastLive(q) ==> Flagged(Play(q, t, [ServiceMove] + later), |q.runs| - 1)
  {
    var p := Requested(m, t, a);
    OneThen(m, t, RequestCancel, a);
    WaitingService(Next(m, t, RequestCancel), t, a);
    OneThen(p, t, ServiceMove, b);
    WaitingService(Next(p, t, ServiceMove), t, b);
    var q := ReadBy(p, t, b);
    if LastLive(q) {
      OneThen(q, t, ServiceMove, later);
      FlagStays(Next(q, t, ServiceMove), t, later, |q.runs| - 1);
    }
  }

  /** For a queued task the service then tries the cancellation itself: an idle task that is still
      queued or running is cancelled. */
  lemma RequestCancelsQueued(m: Machine, t: string, a: seq<Move>, b: seq<Move>, c: seq<Move>)
    requires m.service.Free? && ServiceWaits(a) && ServiceWaits(b) && ServiceWaits(c)
    requires StatusOf(Requested(m, t, a).ledger, t) == Some(Queued)
    ensures var q := ReadBy(ReadBy(Requested(m, t, a), t, b), t, c);
            var n := Next(q, t, ServiceMove);
            && n.service.Free?
            && (StatusOf(q.ledger, t) in {Some(Queued), Some(Running)} && !HasRunningAttempt(q.ledger, t) ==>
                  StatusOf(n.ledger, t) == Some(Cancelled))
            && (HasRunningAttempt(q.ledger, t) && StatusOf(q.ledger, t) != Some(Cancelled) ==>
                  n.ledger == q.ledger)
  {
    var p := Requested(m, t, a);
    OneThen(m, t, RequestCancel, a);
    WaitingService(Next(m, t, RequestCancel), t, a);
    OneThen(p, t, ServiceMove, b);
    WaitingService(Next(p, t, ServiceMove), t, b);
    var r := ReadBy(p, t, b);
    OneThen(r, t, ServiceMove, c);
    WaitingService(Next(r, t, ServiceMove), t, c);
    CancelEffect(ReadBy(r, t, c).ledger, t, "caller requested cancellation");
  }

  /** Closing the service sets the flag of a live run at once. */
  lemma CloseReachesRun(m: Machine, t: string, later: seq<Move>)
    requires LastLive(m)
    ensures Flagged(Play(m, t, [Close] + later), |m.runs| - 1)
  {
    OneThen(m, t, Close, later);
    FlagStays(Next(m, t, Close), t, later, |m.runs| - 1);
  }

  // ------------------------------------------ what a flagged run does

  /** Points from which a flagged run comes to none of its steps after an exit. */
  predicate BeforeLastLook(pc: Pc) {
    !(pc.CloseExited? || pc.ReadExited? || pc.WillExit?)
  }

  /** Points from which it does not come to a launched child. */
  predicate BeforeLaunchLook(pc: Pc) {
    BeforeLastLook(pc) && !(pc.Launched? || pc.CheckFlag?)
  }

  /** Points from which it does not come to starting an attempt. */
  predicate BeforeFirstLook(pc: Pc) {
    || pc.Pending? || pc.PreCheck? || pc.CancelBeforeLaunch?
    || pc.Cleanup? || pc.CleanupClosing? || pc.CleanupRead? || pc.CleanupMove? || Over(pc)
  }

  lemma FlaggedStep(l: Ledger, t: string, pc: Pc, c: Choice)
    ensures var next := RunnerStep(l, t, pc, true, c).1;
            && (BeforeLastLook(pc) ==> BeforeLastLook(next))
            && (BeforeLaunchLook(pc) ==> BeforeLaunchLook(next))
            && (BeforeFirstLook(pc) ==> BeforeFirstLook(next))
  {
  }

  lemma FlaggedNext(m: Machine, t: string, move: Move, k: nat)
    requires Flagged(m, k)
    ensures var n := Next(m, t, move);
            && Flagged(n, k)
            && (BeforeLastLook(m.runs[k].pc) ==> BeforeLastLook(n.runs[k].pc))
            && (BeforeLaunchLook(m.runs[k].pc) ==> BeforeLaunchLook(n.runs[k].pc))
            && (BeforeFirstLook(m.runs[k].pc) ==> BeforeFirstLook(n.runs[k].pc))
  {
    NextKeepsFlags(m, t, move, k);
    if move.RunnerMove? && move.run == k {
      FlaggedStep(m.ledger, t, m.runs[k].pc, move.choice);
    }
  }

  lemma {:induction false} FlaggedPlay(m: Machine, t: string, moves: seq<Move>, k: nat)
    requires Flagged(m, k)
    ensures var n := Play(m, t, moves);
            && Flagged(n, k)
            && (BeforeLastLook(m.runs[k].pc) ==> BeforeLastLook(n.runs[k].pc))
            && (BeforeLaunchLook(m.runs[k].pc) ==> BeforeLaunchLook(n.runs[k].pc))
            && (BeforeFirstLook(m.runs[k].pc) ==> BeforeFirstLook(n.runs[k].pc))
    decreases |moves|
  {
    if moves != [] {
      FlaggedNext(m, t, moves[0], k);
      FlaggedPlay(Next(m, t, moves[0]), t, moves[1..], k);
    }
  }

  /** A step that records no success: no attempt becomes succeeded and the task does not come into
      review. */
  predicate NoSuccess(l: Ledger, m: Ledger, t: string) {
    && (forall i | i in m.attempts && m.attempts[i].status == Succeeded ::
          i in l.attempts && l.attempts[i].status == Succeeded)
    && (StatusOf(m, t) == Some(NeedsReview) ==> StatusOf(l, t) == Some(NeedsReview))
  }

  lemma StepWithoutSuccess(l: Ledger, t: string, pc: Pc, cancel: bool, c: Choice)
    requires BeforeLastLook(pc)
    ensures NoSuccess(l, RunnerStep(l, t, pc, cancel, c).0, t)
  {
    match RunnerPlan(l, t, pc, cancel, c)
    case Goto(_) =>
    case Do(call, _, _) => CallWithoutSuccess(l, t, call);
  }

  lemma CallWithoutSuccess(l: Ledger, t: string, call: Call)
    requires call.FinishAttempt? ==> call.status != Succeeded
    requires call.Transition? ==> call.target != NeedsReview
    requires !call.CreateTask? && !call.RecordReview? && !call.CompleteTask?
    ensures NoSuccess(l, Apply(l, call), t)
  {
  }

  /** A run whose flag was set before its last look at it records no success: over every interleaving,
      no step of it closes an attempt as succeeded or sends the task to review. */
  lemma FlaggedRunNeverSucceeds(m: Machine, t: string, moves: seq<Move>, k: nat, c: Choice)
    requires Flagged(m, k) && BeforeLastLook(m.runs[k].pc)
    ensures var n := Play(m, t, moves); NoSuccess(n.ledger, Next(n, t, RunnerMove(k, c)).ledger, t)
  {
    FlaggedPlay(m, t, moves, k);
    var n := Play(m, t, moves);
    if !Over(n.runs[k].pc) {
      StepWithoutSuccess(n.ledger, t, n.runs[k].pc, n.runs[k].cancel, c);
    }
  }

  /** One whose flag was set before the launch is never launched, and one whose flag was set before its
      first look starts no attempt. */
  lemma FlaggedRunNeverLaunches(m: Machine, t: string, moves: seq<Move>, k: nat, c: Choice)
    requires Flagged(m, k)
    ensures var n := Play(m, t, moves);
            && k < |n.runs|
            && (BeforeLaunchLook(m.runs[k].pc) ==> !n.runs[k].pc.Launched?)
            && (BeforeFirstLook(m.runs[k].pc) ==>
                  Next(n, t, RunnerMove(k, c)).ledger.attempts.Keys == n.ledger.attempts.Keys)
  {
    FlaggedPlay(m, t, moves, k);
    var n := Play(m, t, moves);
    if BeforeFirstLook(n.runs[k].pc) && !Over(n.runs[k].pc) {
      StepStartsNothing(n.ledger, t, n.runs[k].pc, n.runs[k].cancel, c);
    }
  }

  lemma StepStartsNothing(l: Ledger, t: string, pc: Pc, cancel: bool, c: Choice)
    requires BeforeFirstLook(pc)
    ensures RunnerStep(l, t, pc, cancel, c).0.attempts.Keys == l.attempts.Keys
  {
    match RunnerPlan(l, t, pc, cancel, c)
    case Goto(_) =>
    case Do(call, _, _) => OnlyStartsAdd(l, call);
  }

  lemma OnlyStartsAdd(l: Ledger, call: Call)
    requires !call.StartAttempt?
    ensures Apply(l, call).attempts.Keys == l.attempts.Keys
  {
  }

  /** A cancellation requested for a running task is not overtaken by a success: once the service has
      gone on, the live run it found, if it has not yet looked at its flag for the last time, records
      none, whatever happens later. */
  lemma RequestedRunNeverSucceeds(m: Machine, t: string, a: seq<Move>, b: seq<Move>, later: seq<Move>, c: Choice)
    requires m.service.Free? && ServiceWaits(a) && ServiceWaits(b)
    requires StatusOf(Requested(m, t, a).ledger, t) in {Some(Queued), Some(Running)}
    requires var q := ReadBy(Requested(m, t, a), t, b);
             LastLive(q) && BeforeLastLook(q.runs[|q.runs| - 1].pc)
    ensures var q := ReadBy(Requested(m, t, a), t, b);
            var n := Play(q, t, [ServiceMove] + later);
            NoSuccess(n.ledger, Next(n, t, RunnerMove(|q.runs| - 1, c)).ledger, t)
  {
    var q := ReadBy(Requested(m, t, a), t, b);
    var k := |q.runs| - 1;
    RequestReachesRun(m, t, a, b, []);
    OneThen(q, t, ServiceMove, []);
    OneThen(q, t, ServiceMove, later);
    ServiceKeepsPoints(q, t, k);
    FlaggedRunNeverSucceeds(Next(q, t, ServiceMove), t, later, k, c);
  }

  lemma ServiceKeepsPoints(m: Machine, t: string, k: nat)
    requires k < |m.runs|
    ensures var n := Next(m, t, ServiceMove); k < |n.runs| && n.runs[k].pc == m.runs[k].pc
  {
  }

  // ---------------------------------------------- submitting and closing

  /** A submission starts a run exactly when the task was queued as created, has no attempt when the
      service lists them, no run of it is live and the service is open. */
  lemma SubmissionStartsExactly(m: Machine, t: string, create: Call, a: seq<Move>, b: seq<Move>)
    requires m.service.Free? && create.CreateTask? && create.taskId == Some(t) && Accepted(m.ledger, create)
    requires ServiceWaits(a) && ServiceWaits(b)
    ensures var p := Play(m, t, [Submit(create)] + a);
            var q := ReadBy(p, t, b);
            Next(q, t, ServiceMove).runs
            == if && StatusOf(Apply(m.ledger, create), t) == Some(Queued)
                  && (forall i | i in p.ledger.attempts :: p.ledger.attempts[i].task != t)
                  && !LastLive(q) && !q.closed
               then q.runs + [Runner(Pending, false)] else q.runs
  {
    var s := Next(m, t, Submit(create));
    CreatedIsThere(m.ledger, t, create);
    OneThen(m, t, Submit(create), a);
    WaitingService(s, t, a);
    var p := Play(m, t, [Submit(create)] + a);
    OneThen(p, t, ServiceMove, b);
    WaitingService(Next(p, t, ServiceMove), t, b);
  }

  lemma CreatedIsThere(l: Ledger, t: string, create: Call)
    requires create.CreateTask? && create.taskId == Some(t) && Accepted(l, create)
    ensures t in Apply(l, create).tasks
  {
  }

  /** After a shutdown no run is ever started again. */
  lemma {:induction false} ClosedStartsNone(m: Machine, t: string, moves: seq<Move>)
    requires m.closed
    ensures Play(m, t, moves).closed && |Play(m, t, moves).runs| == |m.runs|
    decreases |moves|
  {
    if moves != [] {
      ClosedStartsNone(Next(m, t, moves[0]), t, moves[1..]);
    }
  }

  lemma ShutdownIsFinal(m: Machine, t: string, later: seq<Move>)
    ensures |Play(m, t, [Shutdown] + later).runs| == |m.runs|
  {
    OneThen(m, t, Shutdown, later);
    ClosedStartsNone(Next(m, t, Shutdown), t, later);
  }
}
