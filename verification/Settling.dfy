/** What the runner writes when a run ends: its attempt first, then the task's status. Others may
    write after the attempt is closed (`between`) and after the status was read (`late`). */
module Settling {
  import opened Models
  import opened TaskLedger
  import opened LedgerInvariants
  import opened Store
  import opened Launch
  import opened Orphans

  const CANCEL_CODE := 130
  const CANCELLED_BY_RUNNER := "direct Codex cancellation completed"

  /** How run_task is left: with a return code or with an exception. */
  datatype Exit = Returned(code: int) | Raises

  /** What is recorded when an attempt is closed. */
  datatype Record = Record(summary: string, evidence: seq<string>, transcript: Option<string>,
                           usage: Option<Usage>)

  predicate GoodRecord(r: Record) {
    r.usage.Some? ==> ValidUsage(r.usage.value)
  }

  function CloseCall(i: nat, status: AttemptStatus, r: Record): Call {
    FinishAttempt(i, status, r.summary, r.evidence, r.transcript, r.usage)
  }

  /** The ledger in which the runner rereads the task, once its attempt is closed. */
  function Reread(l: Ledger, i: nat, status: AttemptStatus, r: Record, between: seq<Call>): Ledger {
    Run(Apply(l, CloseCall(i, status, r)), between)
  }

  /** Move a task that was read as running; `late` is what others write before the move. */
  function Move(l: Ledger, t: string, move: Call, late: seq<Call>): Ledger {
    if StatusOf(l, t) == Some(Running) then Apply(Run(l, late), move) else l
  }

  predicate Moves(l: Ledger, t: string, move: Call, late: seq<Call>) {
    StatusOf(l, t) == Some(Running) ==> Accepted(Run(l, late), move)
  }

  function FailureTarget(group: Option<GroupError>): TaskStatus {
    if group.Some? then Blocked else TaskStatus.Failed
  }

  function FailureMove(t: string, group: Option<GroupError>, r: Record): Call {
    Transition(t, FailureTarget(group), r.summary)
  }

  function ExitStatus(code: int): AttemptStatus {
    if code == 0 then Succeeded else FailedAttempt
  }

  function ExitMove(t: string, code: int): Call {
    Transition(t, if code == 0 then NeedsReview else TaskStatus.Failed, "exit")
  }

  function CancelMove(t: string): Call {
    CancelTask(t, CANCELLED_BY_RUNNER)
  }

  /** Close the attempt, then move the task; a refused close raises before anything else. */
  function CloseAndMove(l: Ledger, t: string, i: nat, status: AttemptStatus, r: Record, move: Call,
                        between: seq<Call>, late: seq<Call>): Ledger
  {
    if !Accepted(l, CloseCall(i, status, r)) then l
    else Move(Reread(l, i, status, r, between), t, move, late)
  }

  // ------------------------------------------------- what it amounts to

  /** Closing left the attempt as it was if somebody else had closed it, and with this status if not. */
  predicate ClosedAs(l: Ledger, m: Ledger, i: nat, status: AttemptStatus)
    requires i in l.attempts
  {
    && Terminal(m, i)
    && (l.attempts[i].status == RunningAttempt ==> m.attempts[i].status == status)
    && (l.attempts[i].status != RunningAttempt ==> m.attempts[i] == l.attempts[i])
  }

  lemma CloseIsFinal(l: Ledger, i: nat, status: AttemptStatus, r: Record)
    requires i in l.attempts && status != RunningAttempt && GoodRecord(r)
    requires status == Succeeded ==> r.evidence != []
    ensures ClosedAs(l, Apply(l, CloseCall(i, status, r)), i, status)
    ensures l.attempts[i].status == RunningAttempt ==> Accepted(l, CloseCall(i, status, r))
  {
  }

  /** Whatever others write afterwards, the attempt keeps the outcome it was closed with. */
  lemma OutcomeStands(l: Ledger, t: string, i: nat, status: AttemptStatus, r: Record, move: Call,
                      between: seq<Call>, late: seq<Call>)
    requires Inv(l) && i in l.attempts && status != RunningAttempt && GoodRecord(r)
    requires status == Succeeded ==> r.evidence != []
    ensures var m := CloseAndMove(l, t, i, status, r, move, between, late);
            Inv(m) && ClosedAs(l, m, i, status)
  {
    CloseIsFinal(l, i, status, r);
    var closed := Apply(l, CloseCall(i, status, r));
    ApplyKeepsInv(l, CloseCall(i, status, r));
    RunKeepsInv(closed, between);
    MoveExtends(Run(closed, between), t, move, late);
    ExtendsTransitive(closed, Run(closed, between), Move(Run(closed, between), t, move, late));
    ClosedStays(l, closed, Move(Run(closed, between), t, move, late), i, status);
  }

  lemma ClosedStays(l: Ledger, m: Ledger, n: Ledger, i: nat, status: AttemptStatus)
    requires i in l.attempts && ClosedAs(l, m, i, status) && Extends(m, n)
    ensures ClosedAs(l, n, i, status)
  {
    assert AttemptKept(m, n, i);
  }

  lemma MoveExtends(l: Ledger, t: string, move: Call, late: seq<Call>)
    requires Inv(l)
    ensures Inv(Move(l, t, move, late)) && Extends(l, Move(l, t, move, late))
  {
    if StatusOf(l, t) == Some(Running) {
      RunKeepsInv(l, late);
      ApplyKeepsInv(Run(l, late), move);
      ExtendsTransitive(l, Run(l, late), Apply(Run(l, late), move));
    }
  }

  /** When a task read as running is moved: to review always; to blocked or failed exactly when no
      implementation attempt of it is running. */
  lemma MoveExactly(l: Ledger, t: string, target: TaskStatus, reason: string)
    requires StatusOf(l, t) == Some(Running) && target in {NeedsReview, Blocked, TaskStatus.Failed}
    ensures var moved := target == NeedsReview || !HasRunningImplementation(l, t);
            && Accepted(l, Transition(t, target, reason)) == moved
            && StatusOf(Apply(l, Transition(t, target, reason)), t) == Some(if moved then target else Running)
  {
  }

  /** A task read as running is cancelled exactly when no attempt of it is running. */
  lemma CancelExactly(l: Ledger, t: string, reason: string)
    requires StatusOf(l, t) == Some(Running)
    ensures Accepted(l, CancelTask(t, reason)) == !HasRunningAttempt(l, t)
    ensures StatusOf(Apply(l, CancelTask(t, reason)), t)
            == Some(if HasRunningAttempt(l, t) then Running else TaskStatus.Cancelled)
  {
  }

  /** The attempt is the only one of its task still running, and the task is running. */
  predicate Sole(l: Ledger, t: string, i: nat) {
    && t in l.tasks && l.tasks[t].status == Running && RunningFor(l, t, i)
    && forall j | j in l.attempts :: RunningFor(l, t, j) ==> j == i
  }

  /** Closing the only running attempt leaves a running task with none. */
  lemma ClosingLeavesNone(l: Ledger, t: string, i: nat, status: AttemptStatus, r: Record)
    requires Sole(l, t, i) && status != RunningAttempt && GoodRecord(r)
    requires status == Succeeded ==> r.evidence != []
    ensures Accepted(l, CloseCall(i, status, r))
    ensures var m := Apply(l, CloseCall(i, status, r));
            && StatusOf(m, t) == Some(Running) && !HasRunningAttempt(m, t) && !HasRunningImplementation(m, t)
            && Reread(l, i, status, r, []) == m
  {
    var m := Apply(l, CloseCall(i, status, r));
    forall j | j in m.attempts ensures !RunningFor(m, t, j) && !RunningImplementation(m, t, j) {
      assert j != i ==> !RunningFor(l, t, j);
    }
  }

  // ------------------------------------------------------- the methods

  /** The attempt of a run, whatever others wrote meanwhile. */
  ghost predicate Owned(store: TaskStore, t: string, i: nat)
    reads store
  {
    store.Valid() && i in store.attempts && store.attempts[i].task == t
  }

  method Close(store: TaskStore, i: nat, status: AttemptStatus, r: Record) returns (ok: bool)
    requires store.Valid()
    modifies store
    ensures store.Valid()
    ensures var c := CloseCall(i, status, r);
            ok == Accepted(old(store.State()), c) && store.State() == Apply(old(store.State()), c)
  {
    var closed := store.FinishAttempt(i, status, r.summary, r.evidence, r.transcript, r.usage);
    return closed.Success?;
  }

  /** Reread the task and transition it if it is still running. */
  method TransitionRunning(store: TaskStore, t: string, target: TaskStatus, reason: string, late: seq<Call>)
    returns (ok: bool)
    requires store.Valid()
    modifies store
    ensures store.Valid()
    ensures var c := Transition(t, target, reason);
            ok == Moves(old(store.State()), t, c, late) && store.State() == Move(old(store.State()), t, c, late)
  {
    if t !in store.tasks || store.tasks[t].status != Running {
      return true;
    }
    OthersWrite(store, late);
    var moved := store.Transition(t, target, reason);
    return moved.Success?;
  }

  /** Record a failure: the attempt, then the task if it is still running. */
  method FinishFailedRun(store: TaskStore, t: string, i: nat, group: Option<GroupError>, r: Record,
                         between: seq<Call>, late: seq<Call>)
    requires Owned(store, t, i) && GoodRecord(r)
    modifies store
    ensures store.Valid()
    ensures store.State() == CloseAndMove(old(store.State()), t, i, FailedAttempt, r,
                                          FailureMove(t, group, r), between, late)
    ensures ClosedAs(old(store.State()), store.State(), i, FailedAttempt)
  {
    OutcomeStands(store.State(), t, i, FailedAttempt, r, FailureMove(t, group, r), between, late);
    var ok := Close(store, i, FailedAttempt, r);
    if ok {
      OthersWrite(store, between);
      ok := TransitionRunning(store, t, FailureTarget(group), r.summary, late);
    }
  }

  /** Record an exit: the attempt with its outcome, then the task if it is still running. */
  method FinishExitedRun(store: TaskStore, t: string, i: nat, code: int, r: Record, between: seq<Call>,
                         late: seq<Call>)
    returns (exit: Exit)
    requires Owned(store, t, i) && GoodRecord(r) && r.evidence != []
    modifies store
    ensures store.Valid()
    ensures store.State() == CloseAndMove(old(store.State()), t, i, ExitStatus(code), r,
                                          ExitMove(t, code), between, late)
    ensures ClosedAs(old(store.State()), store.State(), i, ExitStatus(code))
    ensures exit == if Accepted(old(store.State()), CloseCall(i, ExitStatus(code), r))
                       && Moves(Reread(old(store.State()), i, ExitStatus(code), r, between), t, ExitMove(t, code), late)
                    then Returned(code) else Raises
  {
    OutcomeStands(store.State(), t, i, ExitStatus(code), r, ExitMove(t, code), between, late);
    var ok := Close(store, i, ExitStatus(code), r);
    if ok {
      OthersWrite(store, between);
      ok := TransitionRunning(store, t, ExitMove(t, code).target, "exit", late);
    }
    return if ok then Returned(code) else Raises;
  }

  /** Record a proven cancellation: the attempt, then the task if it is still running; a task that
      somebody moved elsewhere is an error. */
  method FinishCancelledRun(store: TaskStore, t: string, i: nat, r: Record, between: seq<Call>, late: seq<Call>)
    returns (exit: Exit)
    requires Owned(store, t, i) && GoodRecord(r)
    modifies store
    ensures store.Valid()
    ensures store.State() == CloseAndMove(old(store.State()), t, i, CancelledAttempt, r, CancelMove(t),
                                          between, late)
    ensures ClosedAs(old(store.State()), store.State(), i, CancelledAttempt)
    ensures exit == Raises
            || (exit == Returned(CANCEL_CODE) && StatusOf(store.State(), t) == Some(TaskStatus.Cancelled))
    ensures exit == Raises <==>
              || !Accepted(old(store.State()), CloseCall(i, CancelledAttempt, r))
              || StatusOf(store.State(), t) != Some(TaskStatus.Cancelled)
              || !Moves(Reread(old(store.State()), i, CancelledAttempt, r, between), t, CancelMove(t), late)
  {
    OutcomeStands(store.State(), t, i, CancelledAttempt, r, CancelMove(t), between, late);
    var ok := Close(store, i, CancelledAttempt, r);
    if !ok {
      return Raises;
    }
    OthersWrite(store, between);
    exit := CancelRunning(store, t, late);
  }

  method CancelRunning(store: TaskStore, t: string, late: seq<Call>) returns (exit: Exit)
    requires store.Valid()
    modifies store
    ensures store.Valid() && store.State() == Move(old(store.State()), t, CancelMove(t), late)
    ensures exit == if Moves(old(store.State()), t, CancelMove(t), late)
                       && StatusOf(store.State(), t) == Some(TaskStatus.Cancelled)
                    then Returned(CANCEL_CODE) else Raises
  {
    if t in store.tasks && store.tasks[t].status == Running {
      OthersWrite(store, late);
      var cancelled := store.CancelTask(t, CANCELLED_BY_RUNNER);
      return if cancelled.Success? then Returned(CANCEL_CODE) else Raises;
    }
    return if t in store.tasks && store.tasks[t].status == TaskStatus.Cancelled then Returned(CANCEL_CODE) else Raises;
  }
}
