/** The execution supervisor: submitter, canceller and runner thread interleaving over one task, while
    the service and anyone else work on other tasks of the same ledger. */
module Supervisor {
  import opened Models
  import opened TaskLedger
  import opened LedgerInvariants
  import Execution
  import Launch

  /** Where a runner thread stands: between any two of its ledger accesses others may act. `a` is
      the attempt it started; `fatal` marks an exception that the service does not catch. */
  datatype Pc =
    | Pending
    | PreCheck
    | CancelBeforeLaunch
    | ReadStatus
    | WillMove
    | WillStart
    | Preparing(a: nat)
    | Tracking(a: nat)
    | Launched(a: nat)
    | CheckFlag(a: nat, code: int)
    | CloseCancelled(a: nat)
    | ReadCancelled
    | WillCancel
    | CloseFailed(a: nat, group: bool, fatal: bool)
    | ReadFailed(group: bool, fatal: bool)
    | WillFail(group: bool, fatal: bool)
    | CloseExited(a: nat, code: int)
    | ReadExited(code: int)
    | WillExit(code: int)
    | Cleanup
    | CleanupClosing(pending: set<nat>)
    | CleanupRead
    | CleanupMove
    | Done
    | Dropped

  /** One submitted run: its thread and its cancel flag. */
  datatype Runner = Runner(pc: Pc, cancel: bool)

  /** Where the thread that holds the service lock stands. */
  datatype ServicePc =
    | Free
    | Listing(status: TaskStatus)
    | Deciding(status: TaskStatus, noAttempts: bool)
    | CancelReading
    | CancelQueued
    | CancelWriting
    | CancelRunning

  datatype Machine = Machine(ledger: Ledger, runs: seq<Runner>, service: ServicePc, closed: bool)

  /** What the environment decides for one step of the runner. */
  datatype Choice = Choice(fails: bool, attemptId: nat, now: nat, env: Execution.Environment,
                           model: Option<string>, pid: int, end: Launch.End, pick: nat)

  datatype Move =
    | RunnerMove(run: nat, choice: Choice)
    | Submit(create: Call)
    | RequestCancel
    | ServiceMove
    | Close
    | Shutdown
    | Elsewhere(call: Call)

  // --------------------------------------------------------- the runner

  const EVIDENCE := ["transcript"]

  function StartCall(t: string, c: Choice): Call {
    StartAttempt(t, "builder_codex", "primary", Some("openai"), c.model, c.env, c.attemptId, c.now)
  }

  function FinishCall(a: nat, status: AttemptStatus): Call {
    FinishAttempt(a, status, "", if status == Succeeded then EVIDENCE else [], None, None)
  }

  function RunningIds(l: Ledger, t: string): set<nat> {
    set i | i in l.attempts && RunningFor(l, t, i)
  }

  /** What a runner thread does next: go on at another point, or perform a store call and go on at
      `ok`, or at `refused` when the store raises. */
  datatype Plan = Goto(pc: Pc) | Do(call: Call, ok: Pc, refused: Pc)

  /** Exceptions outside Python's Exception hierarchy pass the service's handler by. */
  predicate Fatal(leaves: Launch.Raised) {
    leaves.CancellationRequested? || leaves.Interruption?
  }

  /** Leave run_task with an exception: the service cleans up unless the exception is fatal. */
  function Leave(fatal: bool): Pc {
    if fatal then Done else Cleanup
  }

  function ReadRunning(l: Ledger, t: string, running: Pc, otherwise: Pc): Plan {
    Goto(if StatusOf(l, t) == Some(Running) then running else otherwise)
  }

  function CleanupStep(l: Ledger, t: string, pending: set<nat>, pick: nat): Plan {
    if pending == {} then Goto(CleanupRead)
    else if pick !in pending then Goto(CleanupClosing(pending))
    else Do(FinishCall(pick, FailedAttempt), CleanupClosing(pending - {pick}), Done)
  }

  /** What a runner thread at pc does, given what it reads of the ledger and its cancel flag. */
  function RunnerPlan(l: Ledger, t: string, pc: Pc, cancel: bool, c: Choice): Plan {
    match pc
    case Pending => Goto(if c.fails then Cleanup else PreCheck)
    case PreCheck => Goto(if cancel then CancelBeforeLaunch else ReadStatus)
    case CancelBeforeLaunch => Do(CancelTask(t, "before launch"), Done, Cleanup)
    case ReadStatus =>
      Goto(if StatusOf(l, t).None? then Cleanup
          else if StatusOf(l, t).value in {Queued, Blocked, NeedsReview, Failed} then WillMove
          else WillStart)
    case WillMove => Do(Transition(t, Running, "starting"), WillStart, Cleanup)
    case WillStart => Do(StartCall(t, c), Preparing(c.attemptId), Cleanup)
    case Preparing(a) => Goto(if c.fails then Cleanup else Tracking(a))
    case Tracking(a) =>
      if c.fails then Goto(CloseFailed(a, false, false))
      else if cancel then Goto(CloseCancelled(a))
      else Do(SetAttemptProcess(a, c.pid), Launched(a), Launched(a))
    case Launched(a) =>
      (match c.end
       case ExitedEnd(code, _) => Goto(CheckFlag(a, code))
       case CancelledEnd(_) => Goto(if cancel then CloseCancelled(a) else Launched(a))
       case FailedEnd(group, _, leaves) => Goto(CloseFailed(a, group.Some?, Fatal(leaves))))
    case CheckFlag(a, code) => Goto(if cancel then CloseCancelled(a) else CloseExited(a, code))
    case CloseCancelled(a) => Do(FinishCall(a, CancelledAttempt), ReadCancelled, Cleanup)
    case ReadCancelled =>
      ReadRunning(l, t, WillCancel, if StatusOf(l, t) == Some(Cancelled) then Done else Cleanup)
    case WillCancel => Do(CancelTask(t, "cancellation completed"), Done, Cleanup)
    case CloseFailed(a, group, fatal) =>
      Do(FinishCall(a, FailedAttempt), ReadFailed(group, fatal), Cleanup)
    case ReadFailed(group, fatal) => ReadRunning(l, t, WillFail(group, fatal), Leave(fatal))
    case WillFail(group, fatal) =>
      Do(Transition(t, if group then Blocked else Failed, ""), Leave(fatal), Cleanup)
    case CloseExited(a, code) =>
      Do(FinishCall(a, if code == 0 then Succeeded else FailedAttempt), ReadExited(code), Cleanup)
    case ReadExited(code) => ReadRunning(l, t, WillExit(code), Done)
    case WillExit(code) =>
      Do(Transition(t, if code == 0 then NeedsReview else Failed, "exit"), Done, Cleanup)
    case Cleanup => Goto(CleanupClosing(RunningIds(l, t)))
    case CleanupClosing(pending) => CleanupStep(l, t, pending, c.pick)
    case CleanupRead =>
      Goto(if StatusOf(l, t) == Some(Queued) || StatusOf(l, t) == Some(Running) then CleanupMove else Done)
    case CleanupMove => Do(Transition(t, Failed, "service runner failed"), Done, Done)
    case Done => Goto(Done)
    case Dropped => Goto(Dropped)
  }

  /** One step of a runner thread. */
  function RunnerStep(l: Ledger, t: string, pc: Pc, cancel: bool, c: Choice): (Ledger, Pc) {
    match RunnerPlan(l, t, pc, cancel, c)
    case Goto(next) => (l, next)
    case Do(call, ok, refused) => (Apply(l, call), if Accepted(l, call) then ok else refused)
  }

  // -------------------------------------------------------- the service

  /** future.done(): the thread has returned, or the executor dropped it before it started. */
  predicate Over(pc: Pc) {
    pc.Done? || pc.Dropped?
  }

  predicate LastLive(m: Machine) {
    m.runs != [] && !Over(m.runs[|m.runs| - 1].pc)
  }

  function WithFlag(runs: seq<Runner>): seq<Runner>
    requires runs != []
  {
    runs[|runs| - 1 := runs[|runs| - 1].(cancel := true)]
  }

  function ServiceStep(m: Machine, t: string): Machine {
    var l := m.ledger;
    match m.service
    case Free => m
    case Listing(status) =>
      m.(service := Deciding(status, forall i | i in l.attempts :: l.attempts[i].task != t))
    case Deciding(status, noAttempts) =>
      if status == Queued && noAttempts && !LastLive(m) && !m.closed
      then m.(service := Free, runs := m.runs + [Runner(Pending, false)])
      else m.(service := Free)
    case CancelReading =>
      m.(service := match StatusOf(l, t)
                    case Some(Queued) => CancelQueued
                    case Some(Running) => CancelRunning
                    case _ => Free)
    case CancelQueued =>
      m.(service := CancelWriting, runs := if LastLive(m) then WithFlag(m.runs) else m.runs)
    case CancelWriting => m.(service := Free, ledger := Apply(l, CancelTask(t, "caller requested cancellation")))
    case CancelRunning => m.(service := Free, runs := if LastLive(m) then WithFlag(m.runs) else m.runs)
  }

  /** Submitting creates or replays the task; a refused creation ends the request. */
  function SubmitStep(m: Machine, t: string, create: Call): Machine {
    if m.service != Free || !create.CreateTask? || create.taskId != Some(t) then m
    else if !Accepted(m.ledger, create) then m
    else
      var l := Apply(m.ledger, create);
      m.(ledger := l, service := if t in l.tasks then Listing(l.tasks[t].status) else Free)
  }

  /** A store call that is not about task t. */
  predicate Foreign(l: Ledger, t: string, c: Call) {
    match c
    case CreateTask(_, _, _, _) => TargetId(c) != t
    case FinishAttempt(i, _, _, _, _, _) => i in l.attempts ==> l.attempts[i].task != t
    case SetAttemptProcess(i, _) => i in l.attempts ==> l.attempts[i].task != t
    case Transition(task, _, _) => task != t
    case CancelTask(task, _) => task != t
    case StartAttempt(task, _, _, _, _, _, _, _) => task != t
    case RecordReview(task, _, _, _, _, _, _, _, _, _) => task != t
    case CompleteTask(task, _) => task != t
  }

  function Next(m: Machine, t: string, move: Move): Machine {
    match move
    case RunnerMove(k, c) =>
      if k >= |m.runs| || Over(m.runs[k].pc) then m
      else
        var step := RunnerStep(m.ledger, t, m.runs[k].pc, m.runs[k].cancel, c);
        m.(ledger := step.0, runs := m.runs[k := m.runs[k].(pc := step.1)])
    case Submit(create) => SubmitStep(m, t, create)
    case RequestCancel => if m.service.Free? then m.(service := CancelReading) else m
    case ServiceMove => ServiceStep(m, t)
    case Close => if LastLive(m) then m.(runs := WithFlag(m.runs)) else m
    case Shutdown =>
      var k := |m.runs| - 1;
      if LastLive(m) && m.runs[k].pc.Pending?
      then m.(closed := true, runs := m.runs[k := m.runs[k].(pc := Dropped)])
      else m.(closed := true)
    case Elsewhere(call) =>
      if Foreign(m.ledger, t, call) then m.(ledger := Apply(m.ledger, call)) else m
  }

  function Play(m: Machine, t: string, moves: seq<Move>): Machine
    decreases |moves|
  {
    if moves == [] then m else Play(Next(m, t, moves[0]), t, moves[1..])
  }

  // ------------------------------------------------------ the invariant

  predicate Settled(l: Ledger, t: string) {
    && !HasRunningAttempt(l, t)
    && StatusOf(l, t).Some? && StatusOf(l, t).value !in {Queued, Running}
  }

  predicate OnlyRuns(l: Ledger, t: string, a: nat) {
    && RunningFor(l, t, a)
    && StatusOf(l, t) == Some(Running)
    && forall j | j in l.attempts :: RunningFor(l, t, j) ==> j == a
  }

  /** After the attempt is closed the task is still running, unless a cancellation got in. */
  predicate Closing(l: Ledger, t: string) {
    !HasRunningAttempt(l, t) && StatusOf(l, t) in {Some(Running), Some(Cancelled)}
  }

  /** What the ledger must satisfy for a runner that stands at pc. */
  predicate At(l: Ledger, t: string, pc: Pc) {
    t in l.tasks
    && match pc
       case Pending => !HasRunningAttempt(l, t) && StatusOf(l, t) != Some(Running)
       case PreCheck => !HasRunningAttempt(l, t)
       case CancelBeforeLaunch => !HasRunningAttempt(l, t)
       case ReadStatus => !HasRunningAttempt(l, t)
       case WillMove => !HasRunningAttempt(l, t)
       case WillStart => !HasRunningAttempt(l, t)
       case Preparing(a) => OnlyRuns(l, t, a)
       case Tracking(a) => OnlyRuns(l, t, a)
       case Launched(a) => OnlyRuns(l, t, a)
       case CheckFlag(a, _) => OnlyRuns(l, t, a)
       case CloseCancelled(a) => OnlyRuns(l, t, a)
       case CloseFailed(a, _, _) => OnlyRuns(l, t, a)
       case CloseExited(a, _) => OnlyRuns(l, t, a)
       case ReadCancelled => Closing(l, t)
       case WillCancel => Closing(l, t)
       case ReadFailed(_, _) => Closing(l, t)
       case WillFail(_, _) => Closing(l, t)
       case ReadExited(_) => Closing(l, t)
       case WillExit(_) => Closing(l, t)
       case Cleanup => true
       case CleanupClosing(pending) =>
         && (forall j | j in l.attempts :: RunningFor(l, t, j) ==> j in pending)
         && (forall j | j in pending :: RunningFor(l, t, j))
       case CleanupRead => !HasRunningAttempt(l, t)
       case CleanupMove =>
         !HasRunningAttempt(l, t) && StatusOf(l, t) in {Some(Queued), Some(Running), Some(Cancelled)}
       case Done => Settled(l, t)
       case Dropped => !HasRunningAttempt(l, t) && StatusOf(l, t) != Some(Running)
  }

  /** Only the newest run may be live, and the ledger suits the point where it stands. */
  predicate RunsSuit(l: Ledger, runs: seq<Runner>, t: string) {
    && (forall k | 0 <= k < |runs| - 1 :: Over(runs[k].pc))
    && (runs == [] ==> !HasRunningAttempt(l, t))
    && (runs != [] ==> At(l, t, runs[|runs| - 1].pc))
  }

  predicate Consistent(m: Machine, t: string) {
    && Inv(m.ledger)
    && RunsSuit(m.ledger, m.runs, t)
    && (m.service.Listing? || m.service.Deciding? ==> t in m.ledger.tasks)
    && StatusIsCurrent(m, t)
  }

  /** With no runner there is nobody but the service itself to outdate the status it has read. */
  predicate StatusIsCurrent(m: Machine, t: string) {
    m.runs == [] && (m.service.Listing? || m.service.Deciding?) ==>
      StatusOf(m.ledger, t) == Some(m.service.status)
  }

  // ------------------------------------------- what each store call does

  lemma SameAttempts(l: Ledger, m: Ledger, t: string)
    requires m.attempts == l.attempts
    ensures HasRunningAttempt(m, t) == HasRunningAttempt(l, t)
    ensures forall i :: RunningFor(m, t, i) == RunningFor(l, t, i)
  {
  }

  /** A transition of an idle task. */
  lemma MoveEffect(l: Ledger, t: string, target: TaskStatus, reason: string)
    requires !HasRunningAttempt(l, t) && t in l.tasks && target !in {Completed, Cancelled}
    ensures var c := Transition(t, target, reason);
            var m := Apply(l, c);
            && m.attempts == l.attempts && !HasRunningAttempt(m, t) && t in m.tasks
            && (Accepted(l, c) ==> m.tasks[t].status == target)
            && (!Accepted(l, c) ==> m == l)
            && (l.tasks[t].status == Running && target in {NeedsReview, Blocked, Failed} ==> Accepted(l, c))
            && (l.tasks[t].status == Queued && target == Failed ==> Accepted(l, c))
  {
  }

  /** A cancellation is accepted only with no attempt running, and then the task is cancelled. */
  lemma CancelEffect(l: Ledger, t: string, reason: string)
    ensures var c := CancelTask(t, reason);
            var m := Apply(l, c);
            && m.attempts == l.attempts
            && (t in l.tasks ==> t in m.tasks)
            && (Accepted(l, c) ==>
                  StatusOf(m, t) == Some(Cancelled)
                  && (StatusOf(l, t) in {Some(Queued), Some(Running), Some(Cancelled)})
                  && (StatusOf(l, t) == Some(Cancelled) || !HasRunningAttempt(l, t)))
            && (!Accepted(l, c) ==> m == l)
            && ((t in l.tasks && l.tasks[t].status in {Queued, Running, Cancelled}
                 && !HasRunningAttempt(l, t)) ==> Accepted(l, c))
  {
  }

  lemma StartEffect(l: Ledger, t: string, c: Choice)
    requires !HasRunningAttempt(l, t) && Accepted(l, StartCall(t, c))
    ensures OnlyRuns(Apply(l, StartCall(t, c)), t, c.attemptId)
  {
  }

  lemma FinishEffect(l: Ledger, t: string, a: nat, status: AttemptStatus)
    requires OnlyRuns(l, t, a) && status != RunningAttempt
    ensures Accepted(l, FinishCall(a, status))
    ensures Closing(Apply(l, FinishCall(a, status)), t) && t in Apply(l, FinishCall(a, status)).tasks
  {
  }

  lemma CleanupEffect(l: Ledger, t: string, pending: set<nat>, pick: nat)
    requires At(l, t, CleanupClosing(pending)) && pick in pending
    ensures Accepted(l, FinishCall(pick, FailedAttempt))
    ensures At(Apply(l, FinishCall(pick, FailedAttempt)), t, CleanupClosing(pending - {pick}))
  {
  }

  // ---------------------------------------------- one step at a time

  predicate BeforeLaunch(pc: Pc) {
    pc.Pending? || pc.PreCheck? || pc.CancelBeforeLaunch? || pc.ReadStatus? || pc.WillMove?
    || pc.WillStart?
  }

  predicate DuringLaunch(pc: Pc) {
    pc.Preparing? || pc.Tracking? || pc.Launched? || pc.CheckFlag?
  }

  predicate AfterLaunch(pc: Pc) {
    pc.CloseCancelled? || pc.CloseFailed? || pc.CloseExited? || pc.ReadCancelled? || pc.ReadFailed?
    || pc.ReadExited?
  }

  predicate AtTheEnd(pc: Pc) {
    pc.WillCancel? || pc.WillFail? || pc.WillExit? || pc.CleanupMove?
  }

  lemma RunnerBeforeLaunch(l: Ledger, t: string, pc: Pc, cancel: bool, c: Choice)
    requires At(l, t, pc)
    requires BeforeLaunch(pc)
    ensures var step := RunnerStep(l, t, pc, cancel, c); At(step.0, t, step.1)
  {
    match pc
    case CancelBeforeLaunch =>
      CancelEffect(l, t, "before launch");
      SameAttempts(l, Apply(l, CancelTask(t, "before launch")), t);
    case WillMove => MoveEffect(l, t, Running, "starting");
    case WillStart =>
      if Accepted(l, StartCall(t, c)) { StartEffect(l, t, c); }
    case _ =>
  }

  lemma RunnerDuringLaunch(l: Ledger, t: string, pc: Pc, cancel: bool, c: Choice)
    requires At(l, t, pc)
    requires DuringLaunch(pc)
    ensures var step := RunnerStep(l, t, pc, cancel, c); At(step.0, t, step.1)
  {
  }

  lemma RunnerAfterLaunch(l: Ledger, t: string, pc: Pc, cancel: bool, c: Choice)
    requires At(l, t, pc)
    requires AfterLaunch(pc)
    ensures var step := RunnerStep(l, t, pc, cancel, c); At(step.0, t, step.1)
  {
    match pc
    case CloseCancelled(a) => FinishEffect(l, t, a, CancelledAttempt);
    case CloseFailed(a, _, _) => FinishEffect(l, t, a, FailedAttempt);
    case CloseExited(a, code) => FinishEffect(l, t, a, if code == 0 then Succeeded else FailedAttempt);
    case _ =>
  }

  lemma RunnerAtTheEnd(l: Ledger, t: string, pc: Pc, cancel: bool, c: Choice)
    requires At(l, t, pc)
    requires AtTheEnd(pc)
    ensures var step := RunnerStep(l, t, pc, cancel, c); At(step.0, t, step.1)
  {
    match pc
    case WillCancel =>
      CancelEffect(l, t, "cancellation completed");
      SameAttempts(l, Apply(l, CancelTask(t, "cancellation completed")), t);
    case WillFail(group, _) => MoveEffect(l, t, if group then Blocked else Failed, "");
    case WillExit(code) => MoveEffect(l, t, if code == 0 then NeedsReview else Failed, "exit");
    case CleanupMove => MoveEffect(l, t, Failed, "service runner failed");
  }

  lemma RunnerCleansUp(l: Ledger, t: string, pc: Pc, cancel: bool, c: Choice)
    requires At(l, t, pc)
    requires pc.CleanupClosing?
    ensures var step := RunnerStep(l, t, pc, cancel, c); At(step.0, t, step.1)
  {
    if pc.pending == {} {
      forall j | j in l.attempts ensures !RunningFor(l, t, j) {
      }
    } else if c.pick in pc.pending {
      CleanupEffect(l, t, pc.pending, c.pick);
    }
  }

  lemma RunnerReads(l: Ledger, t: string, pc: Pc, cancel: bool, c: Choice)
    requires At(l, t, pc)
    requires pc.Cleanup? || pc.CleanupRead? || Over(pc)
    ensures var step := RunnerStep(l, t, pc, cancel, c); At(step.0, t, step.1)
  {
  }

  lemma RunnerKeepsAt(l: Ledger, t: string, pc: Pc, cancel: bool, c: Choice)
    requires At(l, t, pc)
    ensures var step := RunnerStep(l, t, pc, cancel, c); At(step.0, t, step.1)
  {
    if BeforeLaunch(pc) {
      RunnerBeforeLaunch(l, t, pc, cancel, c);
    } else if DuringLaunch(pc) {
      RunnerDuringLaunch(l, t, pc, cancel, c);
    } else if AfterLaunch(pc) {
      RunnerAfterLaunch(l, t, pc, cancel, c);
    } else if AtTheEnd(pc) {
      RunnerAtTheEnd(l, t, pc, cancel, c);
    } else if pc.CleanupClosing? {
      RunnerCleansUp(l, t, pc, cancel, c);
    } else {
      RunnerReads(l, t, pc, cancel, c);
    }
  }

  lemma RunnerKeepsInv(l: Ledger, t: string, pc: Pc, cancel: bool, c: Choice)
    requires Inv(l)
    ensures Inv(RunnerStep(l, t, pc, cancel, c).0)
  {
    match RunnerPlan(l, t, pc, cancel, c)
    case Goto(_) =>
    case Do(call, _, _) => ApplyKeepsInv(l, call);
  }

  /** The canceller's own write never disturbs the runner: it is refused while an attempt runs, and
      otherwise leaves the task cancelled, which every waiting runner step allows for. */
  lemma CancelKeepsAt(l: Ledger, t: string, pc: Pc, reason: string)
    requires Inv(l) && At(l, t, pc)
    ensures At(Apply(l, CancelTask(t, reason)), t, pc)
  {
    CancelEffect(l, t, reason);
    SameAttempts(l, Apply(l, CancelTask(t, reason)), t);
    assert forall i :: RunningFor(l, t, i) ==> HasRunningAttempt(l, t);
  }

  lemma CreateKeepsAt(l: Ledger, t: string, pc: Pc, create: Call)
    requires create.CreateTask? && create.taskId == Some(t) && At(l, t, pc)
    ensures Apply(l, create) == l
  {
  }

  // ------------------------------------------------------- other tasks

  /** Two ledgers that agree on everything the runs of task t depend on. */
  ghost predicate SameTask(l: Ledger, m: Ledger, t: string) {
    StatusOf(m, t) == StatusOf(l, t) && forall i :: RunningFor(m, t, i) == RunningFor(l, t, i)
  }

  /** A call about another task leaves this one alone, whether it is accepted or refused. */
  lemma ForeignLeavesTask(l: Ledger, t: string, c: Call)
    requires Foreign(l, t, c)
    ensures SameTask(l, Apply(l, c), t)
  {
  }

  lemma SameTaskKeepsAt(l: Ledger, m: Ledger, t: string, pc: Pc)
    requires SameTask(l, m, t) && At(l, t, pc)
    ensures At(m, t, pc)
  {
    SameTaskRuns(l, m, t);
  }

  lemma SameTaskRuns(l: Ledger, m: Ledger, t: string)
    requires SameTask(l, m, t)
    ensures HasRunningAttempt(m, t) == HasRunningAttempt(l, t) && (t in m.tasks <==> t in l.tasks)
  {
    assert forall i :: RunningFor(l, t, i) ==> i in l.attempts;
    assert forall i :: RunningFor(m, t, i) ==> i in m.attempts;
  }

  lemma ElsewhereKeepsConsistent(m: Machine, t: string, call: Call)
    requires Consistent(m, t)
    ensures Consistent(Next(m, t, Elsewhere(call)), t)
  {
    if Foreign(m.ledger, t, call) {
      var l := Apply(m.ledger, call);
      ApplyKeepsInv(m.ledger, call);
      ForeignLeavesTask(m.ledger, t, call);
      SameTaskRuns(m.ledger, l, t);
      if m.runs != [] {
        SameTaskKeepsAt(m.ledger, l, t, m.runs[|m.runs| - 1].pc);
      }
    }
  }

  lemma NextKeepsConsistent(m: Machine, t: string, move: Move)
    requires Consistent(m, t)
    ensures Consistent(Next(m, t, move), t)
  {
    var l := m.ledger;
    match move
    case RunnerMove(k, c) =>
      if k < |m.runs| && !Over(m.runs[k].pc) {
        assert k == |m.runs| - 1;
        RunnerKeepsAt(l, t, m.runs[k].pc, m.runs[k].cancel, c);
        RunnerKeepsInv(l, t, m.runs[k].pc, m.runs[k].cancel, c);
        if m.service.Listing? || m.service.Deciding? { RunnerKeepsTask(l, t, m.runs[k].pc, m.runs[k].cancel, c); }
      }
    case Submit(create) => SubmitKeepsConsistent(m, t, create);
    case ServiceMove => ServiceKeepsConsistent(m, t);
    case Elsewhere(call) => ElsewhereKeepsConsistent(m, t, call);
    case _ =>
  }

  lemma RunnerKeepsTask(l: Ledger, t: string, pc: Pc, cancel: bool, c: Choice)
    requires At(l, t, pc)
    ensures t in RunnerStep(l, t, pc, cancel, c).0.tasks
  {
    RunnerKeepsAt(l, t, pc, cancel, c);
  }

  lemma SubmitKeepsConsistent(m: Machine, t: string, create: Call)
    requires Consistent(m, t)
    ensures Consistent(SubmitStep(m, t, create), t)
  {
    var l := m.ledger;
    if m.service.Free? && create.CreateTask? && create.taskId == Some(t) && Accepted(l, create) {
      ApplyKeepsInv(l, create);
      SameAttempts(l, Apply(l, create), t);
      if m.runs != [] { CreateKeepsAt(l, t, m.runs[|m.runs| - 1].pc, create); }
    }
  }

  lemma CancellerKeepsConsistent(m: Machine, t: string)
    requires Consistent(m, t) && m.service.CancelWriting?
    ensures Consistent(ServiceStep(m, t), t)
  {
    var c := CancelTask(t, "caller requested cancellation");
    ApplyKeepsInv(m.ledger, c);
    CancelSuitsRuns(m.ledger, m.runs, t, "caller requested cancellation");
  }

  lemma CancelSuitsRuns(l: Ledger, runs: seq<Runner>, t: string, reason: string)
    requires Inv(l) && RunsSuit(l, runs, t)
    ensures RunsSuit(Apply(l, CancelTask(t, reason)), runs, t)
  {
    CancelEffect(l, t, reason);
    SameAttempts(l, Apply(l, CancelTask(t, reason)), t);
    if runs != [] {
      CancelKeepsAt(l, t, runs[|runs| - 1].pc, reason);
    }
  }

  /** Every other step of the service leaves the ledger alone: it reads, raises the flag of the live
      run, or starts a run when none is live. */
  lemma ServiceSuitsRuns(m: Machine, t: string)
    requires RunsSuit(m.ledger, m.runs, t) && !m.service.CancelWriting? && StatusIsCurrent(m, t)
    requires m.service.Listing? || m.service.Deciding? ==> t in m.ledger.tasks
    ensures ServiceStep(m, t).ledger == m.ledger
    ensures RunsSuit(m.ledger, ServiceStep(m, t).runs, t) && StatusIsCurrent(ServiceStep(m, t), t)
  {
  }

  lemma ServiceKeepsConsistent(m: Machine, t: string)
    requires Consistent(m, t)
    ensures Consistent(ServiceStep(m, t), t)
  {
    if m.service.CancelWriting? {
      CancellerKeepsConsistent(m, t);
    } else {
      ServiceSuitsRuns(m, t);
    }
  }

  lemma {:induction false} PlayKeepsConsistent(m: Machine, t: string, moves: seq<Move>)
    requires Consistent(m, t)
    ensures Consistent(Play(m, t, moves), t)
    decreases |moves|
  {
    if moves != [] {
      NextKeepsConsistent(m, t, moves[0]);
      PlayKeepsConsistent(Next(m, t, moves[0]), t, moves[1..]);
    }
  }

  // --------------------------------------------------------- theorems

  /** A service that has not yet touched task t. */
  predicate Fresh(m: Machine, t: string) {
    Inv(m.ledger) && m.runs == [] && m.service == Free && !m.closed
    && !HasRunningAttempt(m.ledger, t)
  }

  lemma FreshStarts(m: Machine, t: string)
    requires Fresh(m, t)
    ensures Consistent(m, t) && DropsClose(m) && !Stranded(m, t)
  {
  }

  /** Every supervised run settles: over every interleaving of submitter, canceller and runner, when
      the newest run has returned the task is neither queued nor running and has no running attempt. */
  lemma EverySupervisedRunSettles(m: Machine, t: string, moves: seq<Move>)
    requires Fresh(m, t)
    ensures var n := Play(m, t, moves);
            n.runs != [] && n.runs[|n.runs| - 1].pc.Done? ==> Settled(n.ledger, t)
  {
    PlayKeepsConsistent(m, t, moves);
  }

  /** The newest run was dropped before its thread started, and its task is still queued. */
  predicate Stranded(m: Machine, t: string) {
    && m.runs != [] && m.runs[|m.runs| - 1].pc.Dropped?
    && StatusOf(m.ledger, t) == Some(Queued)
  }

  /** A shutdown that drops a run whose task is queued. */
  predicate Strands(m: Machine, t: string, move: Move) {
    && move.Shutdown? && LastLive(m) && m.runs[|m.runs| - 1].pc.Pending?
    && StatusOf(m.ledger, t) == Some(Queued)
  }

  /** The service writes the cancellation that a caller asked for. */
  predicate CancelWrites(m: Machine, move: Move) {
    move.ServiceMove? && m.service.CancelWriting?
  }

  predicate NoCancellation(m: Machine, t: string, moves: seq<Move>)
    decreases |moves|
  {
    moves != [] ==> !CancelWrites(m, moves[0]) && NoCancellation(Next(m, t, moves[0]), t, moves[1..])
  }

  /** Somewhere a shutdown drops the newest run of a queued task, and no cancellation is written after. */
  predicate EverStranded(m: Machine, t: string, moves: seq<Move>)
    decreases |moves|
  {
    && moves != []
    && ((Strands(m, t, moves[0]) && NoCancellation(Next(m, t, moves[0]), t, moves[1..]))
        || EverStranded(Next(m, t, moves[0]), t, moves[1..]))
  }

  /** A run is only dropped by a shutdown, which also closes the service. */
  predicate DropsClose(m: Machine) {
    forall k | 0 <= k < |m.runs| :: m.runs[k].pc.Dropped? ==> m.closed
  }

  lemma RunnersAreNotDropped(l: Ledger, t: string, pc: Pc, cancel: bool, c: Choice)
    requires !pc.Dropped?
    ensures !RunnerStep(l, t, pc, cancel, c).1.Dropped?
  {
  }

  lemma NextKeepsDropsClose(m: Machine, t: string, move: Move)
    requires DropsClose(m)
    ensures DropsClose(Next(m, t, move))
  {
    if move.RunnerMove? && move.run < |m.runs| && !Over(m.runs[move.run].pc) {
      RunnersAreNotDropped(m.ledger, t, m.runs[move.run].pc, m.runs[move.run].cancel, move.choice);
    }
  }

  lemma RunnerStrandsNone(m: Machine, t: string, k: nat, c: Choice)
    requires RunsSuit(m.ledger, m.runs, t)
    ensures Stranded(Next(m, t, RunnerMove(k, c)), t) <==> Stranded(m, t)
  {
    if k < |m.runs| && !Over(m.runs[k].pc) {
      RunnersAreNotDropped(m.ledger, t, m.runs[k].pc, m.runs[k].cancel, c);
    }
  }

  lemma ServiceStranded(m: Machine, t: string)
    requires RunsSuit(m.ledger, m.runs, t) && DropsClose(m)
    ensures Stranded(ServiceStep(m, t), t) <==> Stranded(m, t) && !m.service.CancelWriting?
  {
    if m.service.CancelWriting? {
      CancelEffect(m.ledger, t, "caller requested cancellation");
    }
  }

  /** One move strands a run or leaves it stranded, exactly as said. */
  lemma NextStranded(m: Machine, t: string, move: Move)
    requires Consistent(m, t) && DropsClose(m)
    ensures Stranded(Next(m, t, move), t)
            <==> Strands(m, t, move) || (Stranded(m, t) && !CancelWrites(m, move))
  {
    match move
    case RunnerMove(k, c) => RunnerStrandsNone(m, t, k, c);
    case ServiceMove => ServiceStranded(m, t);
    case Elsewhere(call) =>
      if Foreign(m.ledger, t, call) {
        ForeignLeavesTask(m.ledger, t, call);
      }
    case _ =>
  }

  lemma {:induction false} StrandedExactly(m: Machine, t: string, moves: seq<Move>)
    requires Consistent(m, t) && DropsClose(m)
    ensures Stranded(Play(m, t, moves), t)
            <==> (Stranded(m, t) && NoCancellation(m, t, moves)) || EverStranded(m, t, moves)
    decreases |moves|
  {
    if moves != [] {
      NextKeepsConsistent(m, t, moves[0]);
      NextKeepsDropsClose(m, t, moves[0]);
      NextStranded(m, t, moves[0]);
      StrandedExactly(Next(m, t, moves[0]), t, moves[1..]);
    }
  }

  lemma OverIsSettledOrStranded(m: Machine, t: string)
    requires Consistent(m, t) && m.runs != [] && Over(m.runs[|m.runs| - 1].pc)
    ensures Settled(m.ledger, t) <==> !Stranded(m, t)
  {
  }

  /** When exactly an over run is unsettled: for every interleaving, once the newest run is over, the
      task is settled unless a shutdown dropped that run before its thread started, with the task
      queued, and no cancellation was written afterwards. */
  lemma OverRunSettlesExactly(m: Machine, t: string, moves: seq<Move>)
    requires Fresh(m, t)
    ensures var n := Play(m, t, moves);
            n.runs != [] && Over(n.runs[|n.runs| - 1].pc) ==>
              (Settled(n.ledger, t) <==> !EverStranded(m, t, moves))
  {
    FreshStarts(m, t);
    PlayKeepsConsistent(m, t, moves);
    StrandedExactly(m, t, moves);
    var n := Play(m, t, moves);
    if n.runs != [] && Over(n.runs[|n.runs| - 1].pc) {
      OverIsSettledOrStranded(n, t);
    }
  }

  /** That exception does occur: for every task not yet created there is an interleaving in which its
      run is dropped at shutdown and its task stays queued. */
  lemma DroppedRunStaysQueued(m: Machine, t: string, create: Call)
    requires Fresh(m, t) && t !in m.ledger.tasks
    requires create.CreateTask? && create.taskId == Some(t) && Accepted(m.ledger, create)
    ensures exists moves ::
              var n := Play(m, t, moves);
              n.runs != [] && Over(n.runs[|n.runs| - 1].pc) && StatusOf(n.ledger, t) == Some(Queued)
  {
    var a := Next(m, t, Submit(create));
    var b := Next(a, t, ServiceMove);
    forall i | i in b.ledger.attempts ensures b.ledger.attempts[i].task != t {
      assert AttemptOk(m.ledger, m.ledger.attempts[i]);
    }
    var c := Next(b, t, ServiceMove);
    var d := Next(c, t, Shutdown);
    var moves := [Submit(create), ServiceMove, ServiceMove, Shutdown];
    assert moves[1..] == [ServiceMove, ServiceMove, Shutdown];
    assert moves[1..][1..] == [ServiceMove, Shutdown];
    assert moves[1..][1..][1..] == [Shutdown];
    assert [Shutdown][1..] == [];
    assert Play(m, t, moves) == Play(a, t, moves[1..]) == Play(b, t, moves[1..][1..]);
    assert Play(b, t, [ServiceMove, Shutdown]) == Play(c, t, [Shutdown]) == Play(d, t, []) == d;
  }

  /** There are never two live runners. */
  lemma NeverTwoLiveRunners(m: Machine, t: string, moves: seq<Move>, j: nat, k: nat)
    requires Fresh(m, t)
    requires j < |Play(m, t, moves).runs| && k < |Play(m, t, moves).runs|
    requires !Over(Play(m, t, moves).runs[j].pc) && !Over(Play(m, t, moves).runs[k].pc)
    ensures j == k
  {
    PlayKeepsConsistent(m, t, moves);
  }
}
