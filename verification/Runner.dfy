/** One run of a task: start an attempt, launch the child, and settle the ledger on every exit. */
module Runner {
  import opened Models
  import opened TaskLedger
  import opened LedgerInvariants
  import opened Store
  import opened ProcessGroup
  import opened Launch
  import opened Orphans
  import opened Settling
  import Execution

  /** The run's identity: what start_attempt is given. */
  datatype Job = Job(task: string, agent: string, workItem: string, provider: Option<string>,
                     model: Option<string>, env: Execution.Environment, attemptId: nat, now: nat)

  /** What the run meets outside the launch block: preparation, the streamed output, the terminal
      event or result file of the runtime, delays, and what others write: before each closing of an
      orphaned child, after the run's own attempt is closed, and after the task was reread. */
  datatype Aftermath = Aftermath(prepFails: bool, fatalLine: bool, terminalOk: bool, pause: nat,
                                 record: Record, sweeping: seq<seq<Call>>, between: seq<Call>,
                                 late: seq<Call>)

  /** An account of the run: whether its attempt was started, how the launch block ended, the leader's
      code, the orphaned children that were closed, and the status the runner wrote. */
  datatype Account = Account(started: bool, end: Option<End>, launched: bool, leader: Option<int>,
                             orphans: seq<nat>, wrote: Option<AttemptStatus>)

  const CANCELLED_BEFORE_LAUNCH := "direct Codex cancellation requested before launch"

  const NOTHING := Account(false, None, false, None, [], None)

  // ---------------------------------------------------------- the start

  function StartCall(job: Job): Call {
    StartAttempt(job.task, job.agent, job.workItem, job.provider, job.model, job.env, job.attemptId, job.now)
  }

  function Opened(l: Ledger, t: string): Ledger {
    if StatusOf(l, t).Some? && StatusOf(l, t).value in {Queued, Blocked, NeedsReview, TaskStatus.Failed}
    then Apply(l, Transition(t, Running, "starting")) else l
  }

  function Begun(l: Ledger, job: Job): Ledger {
    Apply(Opened(l, job.task), StartCall(job))
  }

  /** Bring the task to running and start the attempt. */
  method StartRun(store: TaskStore, job: Job) returns (ok: bool)
    requires store.Valid()
    modifies store
    ensures store.Valid()
    ensures ok <==> Accepted(Opened(old(store.State()), job.task), StartCall(job))
    ensures store.State() == Begun(old(store.State()), job)
    ensures ok ==> RunningFor(store.State(), job.task, job.attemptId)
  {
    if job.task !in store.tasks {
      return false;
    }
    if store.tasks[job.task].status in {Queued, Blocked, NeedsReview, TaskStatus.Failed} {
      var moved := store.Transition(job.task, Running, "starting");
      if moved.Failure? {
        return false;
      }
    }
    var started := store.StartAttempt(job.task, job.agent, job.workItem, job.provider, job.model,
                                      job.env, job.attemptId, job.now);
    ok := started.Success?;
  }

  /** A started attempt is new, its task is running, and it is alone if nothing was running before. */
  lemma StartsAlone(l: Ledger, job: Job)
    requires Accepted(Opened(l, job.task), StartCall(job))
    ensures job.attemptId !in l.attempts && RunningFor(Begun(l, job), job.task, job.attemptId)
    ensures StatusOf(Begun(l, job), job.task) == Some(Running)
    ensures !HasRunningAttempt(l, job.task) ==> Sole(Begun(l, job), job.task, job.attemptId)
  {
    var m := Begun(l, job);
    assert Opened(l, job.task).attempts == l.attempts;
    forall j | j in m.attempts && RunningFor(m, job.task, j) && j != job.attemptId
      ensures HasRunningAttempt(l, job.task)
    {
      assert RunningFor(l, job.task, j);
    }
  }

  /** Whether a run is started, from the ledger it finds: its task is open, its identity resolves, its
      work item is named and free and its id is new. */
  lemma StartableExactly(l: Ledger, job: Job)
    ensures var identity := Execution.Resolve(job.agent, job.provider, job.model, job.env);
            Accepted(Opened(l, job.task), StartCall(job)) <==>
              && job.task in l.tasks && !Absorbing(l.tasks[job.task].status)
              && identity.Success? && Strip(job.workItem) != "" && job.attemptId !in l.attempts
              && (identity.value.kind == Implementation ==>
                    forall i | i in l.attempts :: !HoldsWorkItem(l, job.task, Strip(job.workItem), i))
    ensures job.task in l.tasks ==>
              StatusOf(Opened(l, job.task), job.task)
              == Some(if Absorbing(l.tasks[job.task].status) then l.tasks[job.task].status else Running)
  {
    assert Opened(l, job.task).attempts == l.attempts;
    StartExactly(Opened(l, job.task), StartCall(job));
  }

  // ------------------------------------------------- the course of a run

  /** The ledger as the run goes on: when the launch block is left, and when the runner comes to close
      its own attempt; `children` are the orphans it had listed before that. */
  datatype Course = Course(child: Ledger, children: seq<nat>, closing: Ledger)

  function OrphanReason(end: End): string {
    if end.ExitedEnd? then "coordinator exited before child completion"
    else "coordinator terminated before child completion"
  }

  predicate Sweeps(plan: Plan, end: End) {
    plan.coordinator && !end.CancelledEnd?
  }

  /** The children are the orphans of that ledger, and what the sweep makes of them. */
  ghost predicate SweptFrom(plan: Plan, job: Job, a: Aftermath, end: End, course: Course, done: bool) {
    if Sweeps(plan, end) then
      && (forall i :: i in course.children <==> Orphan(course.child, job.task, job.attemptId, i))
      && Listed(course.child, course.children) && Distinct(course.children)
      && Swept(course.closing, done)
         == Sweep(course.child, ClosingCalls(course.child, course.children, OrphanReason(end)), a.sweeping)
    else course.children == [] && course.closing == course.child && done
  }

  ghost predicate Followed(l: Ledger, plan: Plan, script: Script, job: Job, a: Aftermath, account: Account,
                           course: Course)
  {
    && account.end.Some?
    && LedgerAfterChild(Begun(l, job), course.child, script, job.attemptId)
    && SweptFrom(plan, job, a, account.end.value, course, account.wrote.Some?)
    && Inv(course.child) && Inv(course.closing) && job.attemptId in course.closing.attempts
    && course.closing.attempts[job.attemptId].task == job.task
  }

  /** The exact condition under which a prepared run leaves its own attempt unwritten: it was sweeping
      orphans, and one of them had been closed by somebody else with a different outcome. */
  lemma UnwrittenExactly(l: Ledger, plan: Plan, script: Script, job: Job, a: Aftermath, account: Account,
                         course: Course)
    requires Followed(l, plan, script, job, a, account, course)
    ensures account.wrote.None? <==>
              Sweeps(plan, account.end.value)
              && var calls := ClosingCalls(course.child, course.children, OrphanReason(account.end.value));
                 exists k | 0 <= k < |calls| :: !ClosableBy(Turn(course.child, calls, a.sweeping, k), calls[k])
  {
    if Sweeps(plan, account.end.value) {
      SweepCompletesExactly(course.child, course.children, OrphanReason(account.end.value), a.sweeping);
    }
  }

  /** The whole decision about a clean exit: the leader's own code, unless something the runtime
      should not have done turns a zero into a failure. */
  function ExitCode(code: int, a: Aftermath, orphans: seq<nat>): (r: int)
    ensures code != 0 ==> r == code
    ensures r == 0 <==> code == 0 && orphans == [] && !a.fatalLine && a.terminalOk
  {
    if code == 0 && (orphans != [] || a.fatalLine || !a.terminalOk) then 1 else code
  }

  /** The move of the task that goes with what was written. */
  function MoveFor(t: string, end: End, wrote: AttemptStatus, r: Record): Call {
    match wrote
    case CancelledAttempt => CancelMove(t)
    case Succeeded => ExitMove(t, 0)
    case _ => if end.FailedEnd? then FailureMove(t, end.group, r) else ExitMove(t, 1)
  }

  /** Where a run leaves a task that nobody else moves. */
  function Verdict(end: End, wrote: AttemptStatus): TaskStatus {
    match wrote
    case CancelledAttempt => TaskStatus.Cancelled
    case Succeeded => NeedsReview
    case _ => if end.FailedEnd? && end.group.Some? then Blocked else TaskStatus.Failed
  }

  /** What stands in the way of that verdict when the task is reread as running. */
  predicate Hindered(l: Ledger, t: string, wrote: AttemptStatus) {
    match wrote
    case CancelledAttempt => HasRunningAttempt(l, t)
    case Succeeded => false
    case _ => HasRunningImplementation(l, t)
  }

  /** The final ledger, from the one in which the runner closes its attempt. */
  function FinalLedger(closing: Ledger, job: Job, a: Aftermath, end: End, wrote: AttemptStatus): Ledger {
    CloseAndMove(closing, job.task, job.attemptId, wrote, a.record,
                 MoveFor(job.task, end, wrote, a.record), a.between, a.late)
  }

  /** A task reread as running, with nobody writing before the move, gets the verdict unless hindered,
      and then stays running; a task that was moved by somebody else is left alone. */
  predicate TaskFollows(read: Ledger, m: Ledger, t: string, end: End, wrote: AttemptStatus, late: seq<Call>) {
    && (StatusOf(read, t) == Some(Running) && late == [] ==>
          StatusOf(m, t) == Some(if Hindered(read, t, wrote) then Running else Verdict(end, wrote)))
    && (StatusOf(read, t) != Some(Running) ==> m == read)
  }

  lemma TaskFollowsMove(read: Ledger, t: string, end: End, wrote: AttemptStatus, r: Record, late: seq<Call>)
    requires wrote != RunningAttempt
    ensures TaskFollows(read, Move(read, t, MoveFor(t, end, wrote, r), late), t, end, wrote, late)
  {
    if StatusOf(read, t) == Some(Running) && late == [] {
      assert Run(read, late) == read;
      match wrote
      case CancelledAttempt => CancelExactly(read, t, CANCELLED_BY_RUNNER);
      case Succeeded => MoveExactly(read, t, NeedsReview, "exit");
      case FailedAttempt =>
        if end.FailedEnd? {
          MoveExactly(read, t, FailureTarget(end.group), r.summary);
        } else {
          MoveExactly(read, t, TaskStatus.Failed, "exit");
        }
    }
  }

  // --------------------------------------------------- the launch block

  /** What the launch block may have written, with others writing while the child ran. */
  predicate LedgerAfterChild(l: Ledger, m: Ledger, s: Script, attempt: nat) {
    exists launched, watched :: ChildWrites(l, m, s, attempt, launched, watched)
  }

  lemma ChildLeavesOwned(l: Ledger, m: Ledger, s: Script, t: string, i: nat)
    requires Inv(l) && RunningFor(l, t, i) && LedgerAfterChild(l, m, s, i)
    ensures i in m.attempts && m.attempts[i].task == t
  {
    var c := SetAttemptProcess(i, s.pid);
    ApplyKeepsInv(l, c);
    assert AttemptKept(l, Apply(l, c), i);
    RunKeepsInv(Apply(l, c), s.others);
    assert AttemptKept(Apply(l, c), Run(Apply(l, c), s.others), i);
  }

  /** Recording the process leaves the attempt the only one running. */
  lemma TrackedStaysSole(l: Ledger, m: Ledger, s: Script, t: string, i: nat)
    requires Sole(l, t, i) && s.others == []
    requires LedgerAfterChild(l, m, s, i)
    ensures Sole(m, t, i)
  {
    assert m == l || m == Apply(l, SetAttemptProcess(i, s.pid));
    forall j | j in m.attempts && RunningFor(m, t, j) ensures j == i {
      assert RunningFor(l, t, j);
    }
  }

  /** Others that never finish the run's own attempt leave it running. */
  lemma SparedByOthers(l: Ledger, m: Ledger, s: Script, t: string, i: nat)
    requires RunningFor(l, t, i) && SparesAttempt(s.others, i) && LedgerAfterChild(l, m, s, i)
    ensures RunningFor(m, t, i)
  {
    OnlyFinishCloses(l, SetAttemptProcess(i, s.pid), t, i);
    SparedKeepsRunning(Apply(l, SetAttemptProcess(i, s.pid)), s.others, t, i);
  }

  lemma SparedBySweep(plan: Plan, job: Job, a: Aftermath, end: End, course: Course, done: bool)
    requires SweptFrom(plan, job, a, end, course, done)
    requires RunningFor(course.child, job.task, job.attemptId) && SparesThroughout(a.sweeping, job.attemptId)
    ensures RunningFor(course.closing, job.task, job.attemptId)
  {
    if Sweeps(plan, end) {
      ClosingCallsSpare(course.child, course.children, OrphanReason(end), job.attemptId);
      SweepSpares(course.child, ClosingCalls(course.child, course.children, OrphanReason(end)), a.sweeping,
                  job.task, job.attemptId);
    }
  }

  lemma {:induction false} ClosingCallsSpare(l: Ledger, children: seq<nat>, reason: string, i: nat)
    requires Listed(l, children) && i !in children
    ensures SparesAttempt(ClosingCalls(l, children, reason), i)
  {
    if children != [] {
      ClosingCallsSpare(l, children[1..], reason, i);
    }
  }

  /** A run whose task had no other running attempt has no orphans. */
  lemma NoOrphans(plan: Plan, job: Job, a: Aftermath, end: End, course: Course, done: bool)
    requires SweptFrom(plan, job, a, end, course, done) && Sole(course.child, job.task, job.attemptId)
    ensures done && course.closing == course.child
  {
    SomeMember(course.children);
  }

  lemma SomeMember(ids: seq<nat>)
    ensures ids == [] || exists i :: i in ids
  {
    if ids != [] {
      assert ids[0] in ids;
    }
  }

  // ------------------------------------------------------------ settling

  /** What the settling of a run promises, whoever else writes. */
  ghost predicate SettledAs(store: TaskStore, job: Job, a: Aftermath, end: End, wrote: AttemptStatus,
                            closing: Ledger)
    reads store
    requires job.attemptId in closing.attempts
  {
    && store.Valid()
    && store.State() == FinalLedger(closing, job, a, end, wrote)
    && ClosedAs(closing, store.State(), job.attemptId, wrote)
  }

  /** What was written, from how the launch block ended and the flag at the last check. */
  function Written(plan: Plan, end: End, a: Aftermath, children: seq<nat>, cancelled: bool): AttemptStatus {
    WrittenFor(end, if end.ExitedEnd? then ExitCode(end.code, a, children) else 0, plan.cancellable && cancelled)
  }

  /** The same once the leader's code is decided. */
  function WrittenFor(end: End, code: int, cancelled: bool): AttemptStatus {
    match end
    case CancelledEnd(_) => CancelledAttempt
    case FailedEnd(_, _, _) => FailedAttempt
    case ExitedEnd(_, _) => if cancelled then CancelledAttempt else ExitStatus(code)
  }

  /** The run's own writes went through: its attempt closed as it asked, and the task's move too. */
  predicate WentThrough(closing: Ledger, job: Job, a: Aftermath, end: End, wrote: AttemptStatus) {
    && Accepted(closing, CloseCall(job.attemptId, wrote, a.record))
    && Moves(Reread(closing, job.attemptId, wrote, a.record, a.between), job.task,
             MoveFor(job.task, end, wrote, a.record), a.late)
  }

  /** How run_task ends after writing: a failed launch block always raises, and so does a refused write
      and a task found anywhere but cancelled after a cancellation; otherwise 130 is returned for a
      cancellation and the decided code of the leader for an exit. */
  predicate Reports(exit: Exit, closing: Ledger, m: Ledger, job: Job, a: Aftermath, end: End,
                    children: seq<nat>, wrote: AttemptStatus)
  {
    if end.FailedEnd? || !WentThrough(closing, job, a, end, wrote) then exit == Raises
    else if wrote == CancelledAttempt then
      exit == if StatusOf(m, job.task) == Some(TaskStatus.Cancelled) then Returned(CANCEL_CODE) else Raises
    else
      && end.ExitedEnd? && exit == Returned(ExitCode(end.code, a, children))
      && (exit.code == 0 <==> wrote == Succeeded)
  }

  /** Sweep the orphans of a coordinator whose launch block did not end in a cancellation. */
  method SweepOrphans(store: TaskStore, plan: Plan, job: Job, a: Aftermath, end: End)
    returns (orphans: seq<nat>, ok: bool, ghost course: Course)
    requires Owned(store, job.task, job.attemptId)
    modifies store
    ensures Owned(store, job.task, job.attemptId)
    ensures course.child == old(store.State()) && course.closing == store.State()
    ensures SweptFrom(plan, job, a, end, course, ok)
    ensures orphans <= course.children && (ok <==> orphans == course.children)
  {
    ghost var l := store.State();
    if Sweeps(plan, end) {
      ghost var children;
      orphans, ok, children := FailRunningChildAttempts(store, job.task, job.attemptId, OrphanReason(end), a.sweeping);
      assert AttemptKept(l, store.State(), job.attemptId);
      course := Course(l, children, store.State());
    } else {
      orphans, ok, course := [], true, Course(l, [], l);
    }
  }

  /** Close the attempt and move the task, for each end of the launch block. */
  method Settle(store: TaskStore, h: Host, plan: Plan, job: Job, a: Aftermath, end: End, orphans: seq<nat>)
    returns (exit: Exit, wrote: AttemptStatus)
    requires Owned(store, job.task, job.attemptId) && GoodRecord(a.record) && a.record.evidence != []
    modifies store, h
    ensures SettledAs(store, job, a, end, wrote, old(store.State()))
    ensures h.trace == old(h.trace) && h.now == old(h.now) + (if end.ExitedEnd? then a.pause else 0)
    ensures wrote == Written(plan, end, a, orphans, h.CancelSet())
    ensures Reports(exit, old(store.State()), store.State(), job, a, end, orphans, wrote)
  {
    match end {
      case CancelledEnd(_) =>
        exit := SettleCancelled(store, job, a, end);
        wrote := CancelledAttempt;
      case FailedEnd(group, _, _) =>
        FinishFailedRun(store, job.task, job.attemptId, group, a.record, a.between, a.late);
        exit, wrote := Raises, FailedAttempt;
      case ExitedEnd(leader, _) =>
        exit, wrote := SettleExited(store, h, plan, job, a, end, ExitCode(leader, a, orphans));
    }
  }

  /** Past the launch block: a cancellation that was asked for meanwhile still goes first. */
  method SettleExited(store: TaskStore, h: Host, plan: Plan, job: Job, a: Aftermath, end: End, code: int)
    returns (exit: Exit, wrote: AttemptStatus)
    requires Owned(store, job.task, job.attemptId) && GoodRecord(a.record) && a.record.evidence != []
    requires end.ExitedEnd?
    modifies store, h
    ensures SettledAs(store, job, a, end, wrote, old(store.State()))
    ensures h.trace == old(h.trace) && h.now == old(h.now) + a.pause
    ensures wrote == if plan.cancellable && h.CancelSet() then CancelledAttempt else ExitStatus(code)
    ensures exit == if WentThrough(old(store.State()), job, a, end, wrote)
                       && (wrote == CancelledAttempt ==>
                             StatusOf(store.State(), job.task) == Some(TaskStatus.Cancelled))
                    then Returned(if wrote == CancelledAttempt then CANCEL_CODE else code) else Raises
  {
    h.now := h.now + a.pause;
    if plan.cancellable && h.CancelSet() {
      exit := SettleCancelled(store, job, a, end);
      wrote := CancelledAttempt;
    } else {
      exit := SettleCode(store, job, a, end, code);
      wrote := ExitStatus(code);
    }
  }

  method SettleCancelled(store: TaskStore, job: Job, a: Aftermath, end: End) returns (exit: Exit)
    requires Owned(store, job.task, job.attemptId) && GoodRecord(a.record)
    modifies store
    ensures SettledAs(store, job, a, end, CancelledAttempt, old(store.State()))
    ensures exit == if WentThrough(old(store.State()), job, a, end, CancelledAttempt)
                       && StatusOf(store.State(), job.task) == Some(TaskStatus.Cancelled)
                    then Returned(CANCEL_CODE) else Raises
  {
    exit := FinishCancelledRun(store, job.task, job.attemptId, a.record, a.between, a.late);
  }

  method SettleCode(store: TaskStore, job: Job, a: Aftermath, end: End, code: int) returns (exit: Exit)
    requires Owned(store, job.task, job.attemptId) && GoodRecord(a.record) && a.record.evidence != []
    requires end.ExitedEnd?
    modifies store
    ensures SettledAs(store, job, a, end, ExitStatus(code), old(store.State()))
    ensures exit == if WentThrough(old(store.State()), job, a, end, ExitStatus(code))
                    then Returned(code) else Raises
  {
    exit := FinishExitedRun(store, job.task, job.attemptId, code, a.record, a.between, a.late);
  }

  // ------------------------------------------------------------ run_task

  /** Nobody else finishes the run's attempt before the runner does. */
  predicate Unmeddled(script: Script, a: Aftermath, i: nat) {
    SparesAttempt(script.others, i) && SparesThroughout(a.sweeping, i)
  }

  /** What the ledger shows of a run that wrote an outcome, whatever others wrote. */
  ghost predicate LedgerShows(closing: Ledger, m: Ledger, job: Job, a: Aftermath, end: End, wrote: AttemptStatus)
    requires job.attemptId in closing.attempts
  {
    // Exactly these writes were made.
    && m == FinalLedger(closing, job, a, end, wrote)
    // The attempt is terminal; it has the written outcome unless somebody else had closed it first.
    && ClosedAs(closing, m, job.attemptId, wrote)
    // A task still running is moved as the outcome says, unless hindered.
    && (closing.attempts[job.attemptId].status == RunningAttempt ==>
          TaskFollows(Reread(closing, job.attemptId, wrote, a.record, a.between), m, job.task, end, wrote, a.late))
  }

  lemma SettledShows(closing: Ledger, job: Job, a: Aftermath, end: End, wrote: AttemptStatus)
    requires Inv(closing) && job.attemptId in closing.attempts && GoodRecord(a.record)
    requires wrote != RunningAttempt && a.record.evidence != []
    ensures LedgerShows(closing, FinalLedger(closing, job, a, end, wrote), job, a, end, wrote)
  {
    var i := job.attemptId;
    OutcomeStands(closing, job.task, i, wrote, a.record, MoveFor(job.task, end, wrote, a.record), a.between, a.late);
    if closing.attempts[i].status == RunningAttempt {
      CloseIsFinal(closing, i, wrote, a.record);
      TaskFollowsMove(Reread(closing, i, wrote, a.record, a.between), job.task, end, wrote, a.record, a.late);
    }
  }

  /** With nobody else writing and nothing else running, attempt and task end as the account says. */
  ghost predicate Agrees(m: Ledger, job: Job, account: Account) {
    && account.end.Some? && account.wrote.Some?
    && job.attemptId in m.attempts && m.attempts[job.attemptId].status == account.wrote.value
    && StatusOf(m, job.task) == Some(Verdict(account.end.value, account.wrote.value))
  }

  lemma QuietRunAgrees(l: Ledger, m: Ledger, plan: Plan, script: Script, job: Job, a: Aftermath,
                       account: Account, course: Course)
    requires Sole(Begun(l, job), job.task, job.attemptId) && Followed(l, plan, script, job, a, account, course)
    requires script.others == [] && a.between == [] && a.late == []
    requires GoodRecord(a.record) && a.record.evidence != []
    requires account.wrote.Some? ==>
               account.wrote.value != RunningAttempt
               && LedgerShows(course.closing, m, job, a, account.end.value, account.wrote.value)
    ensures Agrees(m, job, account)
  {
    var i := job.attemptId;
    TrackedStaysSole(Begun(l, job), course.child, script, job.task, i);
    NoOrphans(plan, job, a, account.end.value, course, account.wrote.Some?);
    ClosingLeavesNone(course.closing, job.task, i, account.wrote.value, a.record);
  }

  /** Where the launch block of a started run is entered: its attempt takes any positive process id. */
  function OutsetOf(at: nat, probe: nat, script: Script): Outset {
    Outset(at, probe, script.pid > 0)
  }

  /** The conditions on the environment under which an attempt is written as succeeded: the block runs
      to its end, the leader reports zero, nothing in the output or the ledger speaks against it, and
      the flag is not set when it is looked at for the last time. */
  predicate AllWell(plan: Plan, h: Host, o: Outset, script: Script, a: Aftermath, children: seq<nat>) {
    && Smooth(plan, h, o, script) && h.exitCode == 0
    && !a.fatalLine && a.terminalOk && children == []
    && !(plan.cancellable && h.CancelBy(Seen(plan, h, o) + a.pause))
  }

  /** The launch block ran to its end, and the flag was set before the last look at it. */
  predicate CancelledLate(plan: Plan, h: Host, o: Outset, script: Script, a: Aftermath) {
    Smooth(plan, h, o, script) && plan.cancellable && h.CancelBy(Seen(plan, h, o) + a.pause)
  }

  /** What each outcome implies about the child, whoever else writes. */
  ghost predicate Justified(plan: Plan, h: Host, o: Outset, before: seq<HostEvent>, script: Script,
                            a: Aftermath, account: Account, course: Course)
    reads h
  {
    && before <= h.trace
    // A cancellation is written only for a child never launched or whose group was proven absent.
    && (account.wrote == Some(CancelledAttempt) ==>
          plan.cancellable && h.CancelSet() && (account.launched ==> EndsAbsent(h.trace)))
    // A cancellation asked for in time is taken, unless the teardown is not verified or the reader
    // fails; and one that is only found at the last look still goes before the exit.
    && (Cancels(plan, h, o, script) ==>
          || account.wrote == Some(CancelledAttempt)
          || Unsettled(h.trace[|before|..]) || ReaderFault(script))
    && (CancelledLate(plan, h, o, script, a) ==> account.wrote in {None, Some(CancelledAttempt)})
    && (account.wrote == Some(CancelledAttempt) ==>
          || Cancels(plan, h, o, script) || SurvivedAtExit(h.trace[|before|..])
          || CancelledLate(plan, h, o, script, a))
    // While the leader runs, it is taken at the first look that finds the flag set.
    && (Starts(plan, h, o, script) && plan.cancellable && h.CancelsInTime(o.at, plan.timeout) ==>
          TornDownFrom(h.trace[|before|..], h, o, FirstLook(o.at, plan.timeout, h.cancelAt.value)))
    // A launch block that failed never writes anything but a failed attempt.
    && (account.end.Some? && account.end.value.FailedEnd? ==> account.wrote in {None, Some(FailedAttempt)})
    // A descendant seen at a Codex leader's exit is a group error, unless a cancellation was asked for.
    && ((plan.codex && account.leader.Some? && SurvivedAtExit(h.trace[|before|..])
         && !(plan.cancellable && h.CancelSet())) ==>
          && account.end.Some? && account.end.value.FailedEnd? && account.end.value.group.Some?
          && account.wrote in {None, Some(FailedAttempt)})
    // An attempt is written as succeeded exactly when the environment let everything go well.
    && (account.wrote == Some(Succeeded) <==> AllWell(plan, h, o, script, a, course.children))
    // No failure of the launch block without its cause.
    && (account.end.Some? && account.end.value.FailedEnd? ==>
          Caused(plan, h, o, script, h.trace[|before|..], account.end.value.leaves))
    // For Codex that includes: the group was probed once, at the leader's exit, and was absent.
    && (account.wrote == Some(Succeeded) && plan.codex ==> AbsentAtExit(h.trace[|before|..]))
  }

  lemma OutcomeIsJustified(plan: Plan, h: Host, o: Outset, before: seq<HostEvent>, script: Script,
                           a: Aftermath, account: Account, course: Course)
    requires ValidPlan(plan) && account.end.Some?
    requires Sound(plan, h, before, account.launched, account.leader, account.end.value)
    requires Explained(plan, h, o, script, h.trace[|before|..], account.launched, account.leader,
                       account.end.value)
    requires account.end.value.ExitedEnd? && account.wrote.Some? ==> h.now == Seen(plan, h, o) + a.pause
    requires account.wrote.Some? ==>
               account.wrote.value == Written(plan, account.end.value, a, course.children, h.CancelSet())
    requires account.wrote.None? ==> course.children != [] && !account.end.value.CancelledEnd?
    ensures Justified(plan, h, o, before, script, a, account, course)
  {
    assert AbsentAtExit(h.trace[|before|..]) ==> h.trace[|h.trace| - 1] == h.trace[|before|..][0];
  }

  /** What a run that reached its launch block promises about the child, the ledger and its account. */
  ghost predicate Promised(l: Ledger, store: TaskStore, h: Host, o: Outset, before: seq<HostEvent>,
                           plan: Plan, script: Script, job: Job, a: Aftermath, exit: Exit, account: Account,
                           course: Course)
    reads store, h
  {
    // What others wrote while the child ran, and what the run wrote: nothing exactly when its sweep
    // was stopped, and otherwise the outcome, whoever else writes.
    && Accounted(store, h, o, plan, script, job, a, exit, account, course, before)
    && ChildWrites(Begun(l, job), course.child, script, job.attemptId, account.launched,
                   Starts(plan, h, o, script))
    && Justified(plan, h, o, before, script, a, account, course)
    && Tidy(plan, job, account, course)
    && WithLess(l, store.State(), script, job, a, account)
  }

  /** A coordinator that wrote an exit or a failure has closed every child that ran when its launch block
      was left, and one that succeeded had none. */
  ghost predicate Tidy(plan: Plan, job: Job, account: Account, course: Course) {
    plan.coordinator && account.wrote.Some? && account.wrote.value != CancelledAttempt ==>
      forall i | Orphan(course.child, job.task, job.attemptId, i) ::
        Terminal(course.closing, i) && account.wrote.value != Succeeded
  }

  lemma SweptIsTidy(plan: Plan, job: Job, a: Aftermath, account: Account, course: Course)
    requires account.end.Some? && SweptFrom(plan, job, a, account.end.value, course, account.wrote.Some?)
    requires Inv(course.child) && (account.end.value.CancelledEnd? ==> account.wrote == Some(CancelledAttempt))
    requires account.wrote == Some(Succeeded) ==> course.children == []
    ensures Tidy(plan, job, account, course)
  {
    if Sweeps(plan, account.end.value) && account.wrote.Some? {
      forall i | Orphan(course.child, job.task, job.attemptId, i)
        ensures Terminal(course.closing, i) && i in course.children
      {
        SweptChildIsTerminal(course.child, course.children, OrphanReason(account.end.value), a.sweeping, i);
      }
    }
  }

  /** What holds when others keep away from the attempt, and when nobody else writes at all. */
  ghost predicate WithLess(l: Ledger, m: Ledger, script: Script, job: Job, a: Aftermath, account: Account) {
    // If nobody else finishes the attempt, the stored status is the written one.
    && (account.wrote.Some? && Unmeddled(script, a, job.attemptId) ==>
          job.attemptId in m.attempts && m.attempts[job.attemptId].status == account.wrote.value)
    // With no other writer and nothing else running, attempt and task end as the account says.
    && ((script.others == [] && a.between == [] && a.late == [] && !HasRunningAttempt(l, job.task)) ==>
          Agrees(m, job, account))
  }

  /** One run of a task. `course` tells where the ledger stood as the run went on. */
  method RunTask(store: TaskStore, h: Host, plan: Plan, script: Script, job: Job, a: Aftermath)
    returns (exit: Exit, account: Account, ghost course: Course)
    requires store.Valid() && ValidPlan(plan) && GoodRecord(a.record) && a.record.evidence != []
    modifies store, h
    ensures store.Valid()
    ensures account.started && !a.prepFails <==> account.end.Some?
    ensures account.end.None? ==>
              account == NOTHING.(started := account.started) && h.trace == old(h.trace)
    ensures account.end.Some? ==>
              Promised(old(store.State()), store, h, OutsetOf(old(h.now), old(h.probes), script),
                       old(h.trace), plan, script, job, a, exit, account, course)
    // Preparation is outside the launch block: its failure leaves the attempt running.
    ensures account.started && a.prepFails ==>
              exit == Raises && store.State() == Begun(old(store.State()), job)
              && RunningFor(store.State(), job.task, job.attemptId)
    // A run is started exactly when no cancellation was asked for before and the store takes the start.
    ensures account.started <==>
              !old(plan.cancellable && h.CancelSet())
              && Accepted(Opened(old(store.State()), job.task), StartCall(job))
    // A cancellation asked for before is tried on the task, and reported exactly when it was accepted.
    ensures old(plan.cancellable && h.CancelSet()) ==>
              var c := CancelTask(job.task, CANCELLED_BEFORE_LAUNCH);
              && store.State() == Apply(old(store.State()), c)
              && exit == if Accepted(old(store.State()), c) then Returned(CANCEL_CODE) else Raises
    // A refused start raises; the task keeps the opening move.
    ensures !account.started && !old(plan.cancellable && h.CancelSet()) ==>
              exit == Raises && store.State() == Opened(old(store.State()), job.task)
  {
    account, course := NOTHING, Course(EMPTY, [], EMPTY);
    if plan.cancellable && h.CancelSet() {
      var cancelled := store.CancelTask(job.task, CANCELLED_BEFORE_LAUNCH);
      exit := if cancelled.Failure? then Raises else Returned(CANCEL_CODE);
      return;
    }
    var started := StartRun(store, job);
    if !started {
      return Raises, account, course;
    }
    account := account.(started := true);
    if a.prepFails {
      return Raises, account, course;
    }
    exit, account, course := RunStarted(store, h, plan, script, job, a, old(store.State()));
  }

  method RunStarted(store: TaskStore, h: Host, plan: Plan, script: Script, job: Job, a: Aftermath,
                    ghost l: Ledger)
    returns (exit: Exit, account: Account, ghost course: Course)
    requires store.Valid() && ValidPlan(plan) && GoodRecord(a.record) && a.record.evidence != []
    requires store.State() == Begun(l, job) && Accepted(Opened(l, job.task), StartCall(job))
    modifies store, h
    ensures store.Valid() && account.started && account.end.Some?
    ensures Promised(l, store, h, OutsetOf(old(h.now), old(h.probes), script), old(h.trace), plan, script,
                     job, a, exit, account, course)
  {
    ghost var before, o := h.trace, OutsetOf(h.now, h.probes, script);
    StartsAlone(l, job);
    exit, account, course := LaunchAndSettle(store, h, plan, script, job, a, o);
    PromisesKept(l, store, h, o, before, plan, script, job, a, exit, account, course);
  }

  lemma PromisesKept(l: Ledger, store: TaskStore, h: Host, o: Outset, before: seq<HostEvent>, plan: Plan,
                     script: Script, job: Job, a: Aftermath, exit: Exit, account: Account, course: Course)
    requires ValidPlan(plan) && GoodRecord(a.record) && a.record.evidence != []
    requires RunningFor(Begun(l, job), job.task, job.attemptId)
    requires !HasRunningAttempt(l, job.task) ==> Sole(Begun(l, job), job.task, job.attemptId)
    requires Accounted(store, h, o, plan, script, job, a, exit, account, course, before)
    requires ChildWrites(Begun(l, job), course.child, script, job.attemptId, account.launched,
                         Starts(plan, h, o, script))
    ensures Promised(l, store, h, o, before, plan, script, job, a, exit, account, course)
  {
    AccountedIsJustified(store, h, o, plan, script, job, a, exit, account, course, before);
    AccountedIsTidy(store, h, o, plan, script, job, a, exit, account, course, before);
    AccountedWithLess(l, store, h, o, before, plan, script, job, a, exit, account, course);
  }

  lemma AccountedIsJustified(store: TaskStore, h: Host, o: Outset, plan: Plan, script: Script, job: Job,
                             a: Aftermath, exit: Exit, account: Account, course: Course,
                             before: seq<HostEvent>)
    requires ValidPlan(plan)
    requires Accounted(store, h, o, plan, script, job, a, exit, account, course, before)
    ensures Justified(plan, h, o, before, script, a, account, course)
  {
    OutcomeIsJustified(plan, h, o, before, script, a, account, course);
  }

  lemma AccountedIsTidy(store: TaskStore, h: Host, o: Outset, plan: Plan, script: Script, job: Job,
                        a: Aftermath, exit: Exit, account: Account, course: Course,
                        before: seq<HostEvent>)
    requires Accounted(store, h, o, plan, script, job, a, exit, account, course, before)
    ensures Tidy(plan, job, account, course)
  {
    SweptIsTidy(plan, job, a, account, course);
  }

  lemma AccountedWithLess(l: Ledger, store: TaskStore, h: Host, o: Outset, before: seq<HostEvent>,
                          plan: Plan, script: Script, job: Job, a: Aftermath, exit: Exit,
                          account: Account, course: Course)
    requires GoodRecord(a.record) && a.record.evidence != []
    requires RunningFor(Begun(l, job), job.task, job.attemptId)
    requires !HasRunningAttempt(l, job.task) ==> Sole(Begun(l, job), job.task, job.attemptId)
    requires Accounted(store, h, o, plan, script, job, a, exit, account, course, before)
    requires LedgerAfterChild(Begun(l, job), course.child, script, job.attemptId)
    ensures WithLess(l, store.State(), script, job, a, account)
  {
    LessInterference(l, store.State(), plan, script, job, a, account, course);
  }

  /** From the launch block on: every exit leads through the sweep and the settling. */
  method LaunchAndSettle(store: TaskStore, h: Host, plan: Plan, script: Script, job: Job, a: Aftermath,
                         ghost o: Outset)
    returns (exit: Exit, account: Account, ghost course: Course)
    requires store.Valid() && ValidPlan(plan) && GoodRecord(a.record) && a.record.evidence != []
    requires RunningFor(store.State(), job.task, job.attemptId) && o == OutsetOf(h.now, h.probes, script)
    modifies store, h
    ensures store.Valid() && account.started
    ensures Accounted(store, h, o, plan, script, job, a, exit, account, course, old(h.trace))
    ensures ChildWrites(old(store.State()), course.child, script, job.attemptId, account.launched,
                        Starts(plan, h, o, script))
  {
    ghost var before := h.trace;
    var end, launched, leader := LaunchOwned(plan, h, script, store, job, o);
    var orphans, wrote;
    exit, orphans, wrote, course :=
      SweepAndSettle(store, h, plan, job, a, end, launched, leader, before);
    account := Account(true, Some(end), launched, leader, orphans, wrote);
  }

  /** The account, the course and the stored ledger belong together. */
  ghost predicate Accounted(store: TaskStore, h: Host, o: Outset, plan: Plan, script: Script, job: Job,
                            a: Aftermath, exit: Exit, account: Account, course: Course,
                            before: seq<HostEvent>)
    reads store, h
  {
    && account.end.Some?
    && Sound(plan, h, before, account.launched, account.leader, account.end.value)
    && Explained(plan, h, o, script, h.trace[|before|..], account.launched, account.leader,
                 account.end.value)
    && SweptFrom(plan, job, a, account.end.value, course, account.wrote.Some?)
    && Inv(course.child) && Inv(course.closing) && job.attemptId in course.closing.attempts
    && course.closing.attempts[job.attemptId].task == job.task
    && account.orphans <= course.children && (account.wrote.Some? ==> account.orphans == course.children)
    && match account.wrote
       case None =>
         && exit == Raises && store.State() == course.closing
         && course.children != [] && !account.end.value.CancelledEnd?
       case Some(wrote) =>
         && wrote == Written(plan, account.end.value, a, course.children, h.CancelSet())
         && LedgerShows(course.closing, store.State(), job, a, account.end.value, wrote)
         && Reports(exit, course.closing, store.State(), job, a, account.end.value, course.children, wrote)
         && (account.end.value.ExitedEnd? ==> h.now == Seen(plan, h, o) + a.pause)
  }

  /** The launch block leaves the run's attempt in place. */
  method LaunchOwned(plan: Plan, h: Host, script: Script, store: TaskStore, job: Job, ghost o: Outset)
    returns (end: End, launched: bool, leader: Option<int>)
    requires store.Valid() && ValidPlan(plan) && RunningFor(store.State(), job.task, job.attemptId)
    requires o == OutsetOf(h.now, h.probes, script)
    modifies h, store
    ensures Owned(store, job.task, job.attemptId)
    ensures Sound(plan, h, old(h.trace), launched, leader, end)
    ensures Explained(plan, h, o, script, h.trace[|old(h.trace)|..], launched, leader, end)
    ensures end.ExitedEnd? ==> h.now == Seen(plan, h, o)
    ensures ChildWrites(old(store.State()), store.State(), script, job.attemptId, launched,
                        Starts(plan, h, o, script))
  {
    ghost var begun := store.State();
    end, launched, leader := LaunchBlock(plan, h, script, store, job.attemptId, o);
    ChildLeavesOwned(begun, store.State(), script, job.task, job.attemptId);
  }

  lemma LessInterference(l: Ledger, m: Ledger, plan: Plan, script: Script, job: Job, a: Aftermath,
                         account: Account, course: Course)
    requires RunningFor(Begun(l, job), job.task, job.attemptId) && GoodRecord(a.record) && a.record.evidence != []
    requires !HasRunningAttempt(l, job.task) ==> Sole(Begun(l, job), job.task, job.attemptId)
    requires Followed(l, plan, script, job, a, account, course)
    requires account.wrote.Some? ==>
               account.wrote.value != RunningAttempt
               && LedgerShows(course.closing, m, job, a, account.end.value, account.wrote.value)
    ensures WithLess(l, m, script, job, a, account)
  {
    if account.wrote.Some? && Unmeddled(script, a, job.attemptId) {
      UnmeddledRuns(l, plan, script, job, a, account, course);
    }
    if script.others == [] && a.between == [] && a.late == [] && !HasRunningAttempt(l, job.task) {
      QuietRunAgrees(l, m, plan, script, job, a, account, course);
    }
  }

  lemma UnmeddledRuns(l: Ledger, plan: Plan, script: Script, job: Job, a: Aftermath, account: Account,
                      course: Course)
    requires RunningFor(Begun(l, job), job.task, job.attemptId) && Unmeddled(script, a, job.attemptId)
    requires Followed(l, plan, script, job, a, account, course)
    ensures RunningFor(course.closing, job.task, job.attemptId)
  {
    SparedByOthers(Begun(l, job), course.child, script, job.task, job.attemptId);
    SparedBySweep(plan, job, a, account.end.value, course, account.wrote.Some?);
  }

  /** After the launch block: the orphans first, then, unless that raised, the attempt and the task. */
  method SweepAndSettle(store: TaskStore, h: Host, plan: Plan, job: Job, a: Aftermath, end: End,
                        launched: bool, leader: Option<int>, ghost before: seq<HostEvent>)
    returns (exit: Exit, orphans: seq<nat>, wrote: Option<AttemptStatus>, ghost course: Course)
    requires Owned(store, job.task, job.attemptId) && GoodRecord(a.record) && a.record.evidence != []
    requires Sound(plan, h, before, launched, leader, end)
    modifies store, h
    ensures store.Valid() && Sound(plan, h, before, launched, leader, end) && h.trace == old(h.trace)
    ensures end.ExitedEnd? && wrote.Some? ==> h.now == old(h.now) + a.pause
    ensures course.child == old(store.State()) && SweptFrom(plan, job, a, end, course, wrote.Some?)
    ensures orphans <= course.children && (wrote.Some? ==> orphans == course.children)
    ensures Inv(course.child) && Inv(course.closing) && job.attemptId in course.closing.attempts
    ensures course.closing.attempts[job.attemptId].task == job.task
    ensures wrote.None? ==>
              && exit == Raises && store.State() == course.closing
              && course.children != [] && !end.CancelledEnd?
    ensures wrote.Some? ==>
              && LedgerShows(course.closing, store.State(), job, a, end, wrote.value)
              && wrote.value == Written(plan, end, a, course.children, h.CancelSet())
              && Reports(exit, course.closing, store.State(), job, a, end, course.children, wrote.value)
  {
    var ok;
    orphans, ok, course := SweepOrphans(store, plan, job, a, end);
    if !ok {
      return Raises, orphans, None, course;
    }
    var status;
    exit, status := Settle(store, h, plan, job, a, end, orphans);
    SettledShows(course.closing, job, a, end, status);
    wrote := Some(status);
  }
}
