/** The task store: an object whose methods rewrite its tables, each proved against the ledger. */
module Store {
  import opened Models
  import opened TaskLedger
  import opened LedgerInvariants
  import Execution

  const RECONCILE_FORCED := "Attempt reconciled after operator-forced reconciliation"
  const RECONCILE_STALE := "Attempt reconciled after stale process lease"
  const RECONCILED := "stale attempts reconciled"

  /** A refused call keeps its reason; an accepted one has none. */
  ghost predicate Answers<T>(r: Result<T, Refusal>, refusal: Option<Refusal>) {
    match r
    case Success(_) => refusal.None?
    case Failure(e) => refusal == Some(e)
  }

  // ---------------------------------------------------------- completion

  /** What complete_task may find wrong with a latest attempt. */
  datatype Obstacle =
    | NotSucceeded(attempt: nat)
    | NotReviewed(attempt: nat)
    | NotApproved(attempt: nat)
    | SharesProvider(attempt: nat)

  /** The obstacle is really there. */
  predicate Stands(l: Ledger, t: string, o: Obstacle) {
    o.attempt in l.attempts
    && match o
       case NotSucceeded(i) => l.attempts[i].status != Succeeded
       case NotReviewed(i) => l.attempts[i].status == Succeeded && !exists r | r in l.reviews :: Reviews(l, t, i, r)
       case NotApproved(i) =>
         l.attempts[i].status == Succeeded
         && exists r | r in l.reviews ::
              IsNewestReview(l, t, i, r) && (l.reviews[r].verdict != Approve || l.reviews[r].evidence == [])
       case SharesProvider(i) =>
         l.attempts[i].status == Succeeded
         && exists r | r in l.reviews ::
              IsNewestReview(l, t, i, r) && l.reviews[r].verdict == Approve && l.reviews[r].evidence != []
              && l.reviews[r].provider == l.attempts[i].provider
  }

  // ------------------------------------------------------ reconciliation

  /** Attempt i is running and forced, or old enough with no live process. */
  predicate Stale(l: Ledger, i: nat, now: nat, olderThanSeconds: nat, force: bool, alive: nat -> bool) {
    && i in l.attempts
    && l.attempts[i].status == RunningAttempt
    && (force
        || (!(l.attempts[i].pid.Some? && alive(l.attempts[i].pid.value))
            && now - l.attempts[i].startedAt >= olderThanSeconds * 1_000_000))
  }

  function ReconcileCall(a: Attempt, i: nat, force: bool): Call {
    FinishAttempt(i, FailedAttempt, if force then RECONCILE_FORCED else RECONCILE_STALE, [],
                  a.transcript, None)
  }

  function ReconciledAttempt(a: Attempt, i: nat, force: bool): Attempt {
    TaskLedger.Closed(a, ReconcileCall(a, i, force))
  }

  /** The attempt table after closing exactly the attempts in `closed`. */
  function AfterClosing(attempts: map<nat, Attempt>, closed: seq<nat>, force: bool): map<nat, Attempt> {
    map i | i in attempts ::
      if i in closed then ReconciledAttempt(attempts[i], i, force) else attempts[i]
  }

  function TasksOf(l: Ledger, ids: seq<nat>): set<string> {
    set i | i in ids && i in l.attempts :: l.attempts[i].task
  }

  predicate Abandoned(l: Ledger, attempts: map<nat, Attempt>, t: string) {
    && t in l.tasks
    && l.tasks[t].status == Running
    && forall i | i in attempts :: attempts[i].task == t ==> attempts[i].status != RunningAttempt
  }

  /** The task table after failing the abandoned tasks among `affected`. */
  function AfterFailing(l: Ledger, attempts: map<nat, Attempt>, affected: set<string>): map<string, Task> {
    map t | t in l.tasks ::
      if t in affected && Abandoned(l, attempts, t) then l.tasks[t].(status := Failed) else l.tasks[t]
  }

  /** A reconciled attempt is failed without usage, keeps its transcript and has no process; every other
      row stays, as do, unless forced, a young attempt and one whose process lives. A forced
      reconciliation leaves no attempt running. */
  lemma ReconciledRows(l: Ledger, closed: seq<nat>, now: nat, olderThanSeconds: nat, force: bool, alive: nat -> bool)
    requires forall i :: i in closed <==> Stale(l, i, now, olderThanSeconds, force, alive)
    ensures var m := AfterClosing(l.attempts, closed, force);
            && m.Keys == l.attempts.Keys
            && (forall i | i in l.attempts && i !in closed :: m[i] == l.attempts[i])
            && (forall i | i in l.attempts && i in closed ::
                  && SameIdentity(l.attempts[i], m[i]) && m[i].status == FailedAttempt
                  && m[i].evidence == [] && m[i].usage.None? && m[i].pid.None?
                  && m[i].transcript == l.attempts[i].transcript)
            && (force ==> forall i | i in m :: m[i].status != RunningAttempt)
            && (!force ==> forall i | i in l.attempts && l.attempts[i].pid.Some? && alive(l.attempts[i].pid.value) ::
                  m[i] == l.attempts[i])
            && (!force ==> forall i | i in l.attempts && now < l.attempts[i].startedAt + olderThanSeconds * 1_000_000 ::
                  m[i] == l.attempts[i])
  {
  }

  /** The tables after the rows in `seen` were looked at and the attempts in `done` closed. */
  ghost predicate ClosedSoFar(l: Ledger, m: Ledger, seen: seq<nat>, done: seq<nat>, affected: set<string>,
                              force: bool)
  {
    && (forall i :: i in done ==> i in seen)
    && m.tasks == l.tasks && m.reviews == l.reviews
    && m.attempts == AfterClosing(l.attempts, done, force)
    && affected == TasksOf(l, done) && affected <= l.tasks.Keys
  }

  class TaskStore {
    var tasks: map<string, Task>
    var attempts: map<nat, Attempt>
    var reviews: map<nat, Review>
    var log: seq<Event>

    function State(): Ledger
      reads this
    {
      Ledger(tasks, attempts, reviews, log)
    }

    ghost predicate Valid()
      reads this
    {
      Inv(State())
    }

    constructor ()
      ensures Valid() && State() == EMPTY
    {
      tasks, attempts, reviews, log := map[], map[], map[], [];
    }

    method AppendEvent(e: Event)
      modifies this`log
      ensures log == old(log) + [e]
    {
      log := log + [e];
    }

    method CreateTask(taskId: Option<string>, generatedId: string, definition: Definition,
                      workspaceOk: bool)
      returns (r: Result<Task, Refusal>)
      requires Valid()
      modifies this
      ensures Valid()
      ensures var c := Call.CreateTask(taskId, generatedId, definition, workspaceOk);
              && State() == Apply(old(State()), c)
              && Answers(r, RefusalOf(old(State()), c))
              && (r.Success? ==> State().tasks[TargetId(c)] == r.value)
    {
      ghost var before := State();
      var c := Call.CreateTask(taskId, generatedId, definition, workspaceOk);
      InvKept(before, c);
      var id := TargetId(c);
      if !ValidTaskId(id) {
        return Failure(InvalidTaskId);
      }
      if !workspaceOk || !ValidDefinition(definition) {
        return Failure(InvalidDefinition);
      }
      var stored := Task(Stored(definition), Queued);
      if id in tasks {
        if taskId.None? {
          return Failure(IdTaken);
        }
        if tasks[id].definition == stored.definition {
          return Success(tasks[id]);
        }
        return Failure(DifferentDefinition);
      }
      tasks := tasks[id := stored];
      AppendEvent(TaskCreated(id, definition.title));
      return Success(stored);
    }

    method Transition(task: string, target: TaskStatus, reason: string)
      returns (r: Result<Task, Refusal>)
      requires Valid()
      modifies this
      ensures Valid()
      ensures var c := Call.Transition(task, target, reason);
              && State() == Apply(old(State()), c)
              && Answers(r, RefusalOf(old(State()), c))
              && (r.Success? ==> task in State().tasks && State().tasks[task] == r.value)
    {
      ghost var before := State();
      InvKept(before, Call.Transition(task, target, reason));
      if target == Completed {
        return Failure(UseCompleteTask);
      }
      if target == Cancelled {
        return Failure(UseCancelTask);
      }
      if task !in tasks {
        return Failure(TaskNotFound);
      }
      var current := tasks[task];
      if target == current.status {
        return Success(current);
      }
      if target !in ValidTransitions(current.status) {
        return Failure(InvalidTransition(current.status, target));
      }
      if target in {Blocked, Failed} {
        var running := HasRunningImplementation(State(), task);
        if running {
          return Failure(ImplementationRunning);
        }
      }
      tasks := tasks[task := current.(status := target)];
      AppendEvent(TaskTransitioned(task, current.status, target, reason));
      return Success(tasks[task]);
    }

    method CancelTask(task: string, reason: string) returns (r: Result<Task, Refusal>)
      requires Valid()
      modifies this
      ensures Valid()
      ensures var c := Call.CancelTask(task, reason);
              && State() == Apply(old(State()), c)
              && Answers(r, RefusalOf(old(State()), c))
              && (r.Success? ==> task in State().tasks && State().tasks[task] == r.value)
    {
      ghost var before := State();
      InvKept(before, Call.CancelTask(task, reason));
      if task !in tasks {
        return Failure(TaskNotFound);
      }
      var current := tasks[task];
      if current.status == Cancelled {
        return Success(current);
      }
      if current.status !in {Queued, Running} {
        return Failure(NotCancellable);
      }
      var running := HasRunningAttempt(State(), task);
      if running {
        return Failure(AttemptsRunning);
      }
      tasks := tasks[task := current.(status := Cancelled)];
      AppendEvent(TaskTransitioned(task, current.status, Cancelled, reason));
      return Success(tasks[task]);
    }

    method StartAttempt(task: string, agent: string, workItem: string, provider: Option<string>,
                        model: Option<string>, env: Execution.Environment, attemptId: nat, now: nat)
      returns (r: Result<nat, Refusal>)
      requires Valid()
      modifies this
      ensures Valid()
      ensures var c := Call.StartAttempt(task, agent, workItem, provider, model, env, attemptId, now);
              && State() == Apply(old(State()), c)
              && Answers(r, RefusalOf(old(State()), c))
              && (r.Success? ==> r.value == attemptId)
    {
      ghost var before := State();
      var c := Call.StartAttempt(task, agent, workItem, provider, model, env, attemptId, now);
      InvKept(before, c);
      var refusal := CheckStart(c);
      if refusal.Some? {
        return Failure(refusal.value);
      }
      var attempt := NewAttempt(c);
      attempts := attempts[attemptId := attempt];
      AppendEvent(StartedEvent(attemptId, attempt));
      return Success(attemptId);
    }

    /** The checks of start_attempt, ending with the unique index on running work items. */
    method CheckStart(c: Call) returns (refusal: Option<Refusal>)
      requires c.StartAttempt?
      ensures refusal == StartRefusal(State(), c)
    {
      var item := Strip(c.workItem);
      if item == "" {
        return Some(EmptyWorkItem);
      }
      var identity := Execution.Resolve(c.agent, c.provider, c.model, c.env);
      if identity.Failure? {
        return Some(BadIdentity(identity.error));
      }
      if c.task !in tasks {
        return Some(TaskNotFound);
      }
      if tasks[c.task].status != Running {
        return Some(TaskNotRunning);
      }
      var taken := identity.value.kind == Implementation
                   && exists i | i in attempts :: HoldsWorkItem(State(), c.task, item, i);
      if c.attemptId in attempts || taken {
        return Some(WorkItemTaken);
      }
      return None;
    }

    method FinishAttempt(attempt: nat, status: AttemptStatus, summary: string, evidence: seq<string>,
                         transcript: Option<string>, usage: Option<Usage>)
      returns (r: Result<Attempt, Refusal>)
      requires Valid()
      modifies this
      ensures Valid()
      ensures var c := Call.FinishAttempt(attempt, status, summary, evidence, transcript, usage);
              && State() == Apply(old(State()), c)
              && Answers(r, RefusalOf(old(State()), c))
              && (r.Success? ==> attempt in State().attempts && State().attempts[attempt] == r.value)
    {
      ghost var before := State();
      var c := Call.FinishAttempt(attempt, status, summary, evidence, transcript, usage);
      InvKept(before, c);
      if status == RunningAttempt {
        return Failure(NotTerminal);
      }
      if attempt !in attempts {
        return Failure(AttemptNotFound);
      }
      var current := attempts[attempt];
      if usage.Some? && !ValidUsage(usage.value) {
        return Failure(InvalidUsage);
      }
      if status == Succeeded && evidence == [] {
        return Failure(EvidenceRequired);
      }
      if current.status != RunningAttempt {
        if SameOutcome(current, c) {
          return Success(current);
        }
        return Failure(AlreadyTerminal);
      }
      attempts := attempts[attempt := current.(status := status, summary := summary,
                                               evidence := evidence, transcript := transcript,
                                               usage := usage, pid := None)];
      AppendEvent(AttemptFinished(current.task, attempt, status, summary));
      return Success(attempts[attempt]);
    }

    method SetAttemptProcess(attempt: nat, pid: int) returns (r: Result<Attempt, Refusal>)
      requires Valid()
      modifies this
      ensures Valid()
      ensures var c := Call.SetAttemptProcess(attempt, pid);
              && State() == Apply(old(State()), c)
              && Answers(r, RefusalOf(old(State()), c))
              && (r.Success? ==> attempt in State().attempts && State().attempts[attempt] == r.value)
    {
      ghost var before := State();
      InvKept(before, Call.SetAttemptProcess(attempt, pid));
      if pid <= 0 {
        return Failure(InvalidPid);
      }
      if attempt !in attempts || attempts[attempt].status != RunningAttempt {
        return Failure(AttemptNotRunning);
      }
      attempts := attempts[attempt := attempts[attempt].(pid := Some(pid))];
      return Success(attempts[attempt]);
    }

    method RecordReview(task: string, reviewer: string, verdict: string, summary: string, attempt: nat,
                        issues: seq<string>, evidence: seq<string>, env: Execution.Environment,
                        reviewId: nat, now: nat)
      returns (r: Result<Review, Refusal>)
      requires Valid()
      modifies this
      ensures Valid()
      ensures var c := Call.RecordReview(task, reviewer, verdict, summary, attempt, issues, evidence,
                                         env, reviewId, now);
              && State() == Apply(old(State()), c)
              && Answers(r, RefusalOf(old(State()), c))
              && (r.Success? ==> reviewId in State().reviews && State().reviews[reviewId] == r.value)
    {
      ghost var before := State();
      var c := Call.RecordReview(task, reviewer, verdict, summary, attempt, issues, evidence, env,
                                 reviewId, now);
      InvKept(before, c);
      var refusal := ReviewReadRefusal(State(), c);
      if refusal.Some? {
        return Failure(refusal.value);
      }
      if reviewId in reviews {
        return Failure(IdTaken);
      }
      var review := NewReview(c);
      reviews := reviews[reviewId := review];
      AppendEvent(ReviewRecorded(task, reviewId, reviewer, review.verdict));
      return Success(review);
    }

    method CompleteTask(task: string, summary: string) returns (r: Result<Task, Refusal>)
      requires Valid()
      modifies this
      ensures Valid()
      ensures var c := Call.CompleteTask(task, summary);
              && State() == Apply(old(State()), c)
              && Answers(r, RefusalOf(old(State()), c))
              && (r.Success? ==> Gate(State(), task) && State().tasks[task].status == Completed)
    {
      CompletionEffect(State(), task, summary);
      var refusal := CheckCompletion(task);
      if refusal.Some? {
        return Failure(refusal.value);
      }
      WriteCompleted(task, summary);
      return Success(tasks[task]);
    }

    /** The compare-and-swap of complete_task, with its event. */
    method WriteCompleted(task: string, summary: string)
      requires task in tasks && tasks[task].status == NeedsReview
      modifies this
      ensures State() == WithStatus(old(State()), task, Completed, summary)
      ensures task in tasks && tasks[task].status == Completed
    {
      tasks := tasks[task := tasks[task].(status := Completed)];
      AppendEvent(TaskTransitioned(task, NeedsReview, Completed, summary));
    }

    method CheckCompletion(task: string) returns (refusal: Option<Refusal>)
      ensures refusal == CompletionRefusal(State(), task)
    {
      var obstacle;
      refusal, obstacle := ReadForCompletion(task);
    }

    /** The reads of complete_task. */
    method ReadForCompletion(task: string) returns (refusal: Option<Refusal>, obstacle: Option<Obstacle>)
      ensures refusal == CompletionRefusal(State(), task)
      ensures obstacle.Some? <==> refusal == Some(GateUnmet)
      ensures obstacle.Some? ==>
                Stands(State(), task, obstacle.value) && IsLatest(State(), task, obstacle.value.attempt)
    {
      obstacle := None;
      if !ValidTaskId(task) {
        return Some(InvalidTaskId), None;
      }
      if task !in tasks {
        return Some(TaskNotFound), None;
      }
      if tasks[task].status != NeedsReview {
        return Some(NotInReview), None;
      }
      var running := HasRunningImplementation(State(), task);
      if running {
        return Some(ImplementationRunning), None;
      }
      var latest := set i | i in attempts && IsLatest(State(), task, i);
      if latest == {} {
        forall i | i in attempts ensures !IsLatest(State(), task, i) {
          assert i !in latest;
        }
        NoLatestMeansNone(State(), task);
        return Some(NoImplementation), None;
      }
      var w :| w in latest;
      assert IsImplementation(State(), task, w);
      obstacle := FirstObstacle(task, latest);
      assert obstacle.None? <==> forall i | i in attempts :: IsLatest(State(), task, i) ==> Closable(State(), task, i) by {
        forall i | i in attempts ensures IsLatest(State(), task, i) <==> i in latest {
        }
      }
      refusal := if obstacle.None? then None else Some(GateUnmet);
    }

    /** The loop over the latest attempts: each must have succeeded and have, as its newest review,
        an evidence-backed approval by another provider; the first obstacle ends it. */
    method FirstObstacle(task: string, latest: set<nat>) returns (obstacle: Option<Obstacle>)
      requires latest <= attempts.Keys
      ensures obstacle.None? <==> forall i | i in latest :: Closable(State(), task, i)
      ensures obstacle.Some? ==> obstacle.value.attempt in latest && Stands(State(), task, obstacle.value)
    {
      var rest := latest;
      while rest != {}
        invariant rest <= latest
        invariant forall i | i in latest - rest :: Closable(State(), task, i)
        decreases |rest|
      {
        var i :| i in rest;
        obstacle := ObstacleOf(task, i);
        if obstacle.Some? {
          return;
        }
        rest := rest - {i};
      }
      obstacle := None;
    }

    /** The checks of one latest attempt, in their order. */
    method ObstacleOf(task: string, i: nat) returns (obstacle: Option<Obstacle>)
      requires i in attempts
      ensures obstacle.None? <==> Closable(State(), task, i)
      ensures obstacle.Some? ==> obstacle.value.attempt == i && Stands(State(), task, obstacle.value)
    {
      if attempts[i].status != Succeeded {
        return Some(NotSucceeded(i));
      }
      var reviewed := exists r | r in reviews :: Reviews(State(), task, i, r);
      if !reviewed {
        return Some(NotReviewed(i));
      }
      ghost var q :| q in reviews && Reviews(State(), task, i, q);
      ghost var newest := NewestReviewExists(State(), task, i, q);
      var r :| r in reviews && IsNewestReview(State(), task, i, r);
      forall p | p in reviews && IsNewestReview(State(), task, i, p) ensures p == r {
        NewestReviewIsUnique(State(), task, i, p, r);
      }
      if reviews[r].verdict != Approve || reviews[r].evidence == [] {
        return Some(NotApproved(i));
      }
      if reviews[r].provider == attempts[i].provider {
        return Some(SharesProvider(i));
      }
      return None;
    }

    /** SELECT ... ORDER BY started_at; rows of one instant come in any order. */
    method OrderedByStart(selected: set<nat>) returns (rows: seq<nat>)
      requires selected <= attempts.Keys
      ensures forall i :: i in rows <==> i in selected
      ensures forall j | 0 <= j < |rows| :: rows[j] in attempts
      ensures Distinct(rows)
      ensures forall j, k | 0 <= j < k < |rows| ::
                attempts[rows[j]].startedAt <= attempts[rows[k]].startedAt
    {
      rows := [];
      var rest := selected;
      while rest != {}
        invariant rest <= selected
        invariant forall i :: i in rows <==> i in selected - rest
        invariant forall j | 0 <= j < |rows| :: rows[j] in attempts
        invariant Distinct(rows)
        invariant forall j, k | 0 <= j < k < |rows| ::
                    attempts[rows[j]].startedAt <= attempts[rows[k]].startedAt
        invariant forall j, i | 0 <= j < |rows| && i in rest ::
                    attempts[rows[j]].startedAt <= attempts[i].startedAt
        decreases |rest|
      {
        ghost var first := EarliestExists(attempts, rest);
        var i :| i in rest && forall k | k in rest :: attempts[i].startedAt <= attempts[k].startedAt;
        assert i !in rows;
        rows := rows + [i];
        rest := rest - {i};
      }
    }

    method ListAttempts(task: string) returns (rows: seq<nat>)
      ensures forall i :: i in rows <==> i in attempts && attempts[i].task == task
      ensures forall j | 0 <= j < |rows| :: rows[j] in attempts
      ensures Distinct(rows)
      ensures forall j, k | 0 <= j < k < |rows| ::
                attempts[rows[j]].startedAt <= attempts[rows[k]].startedAt
    {
      rows := OrderedByStart(set i | i in attempts && attempts[i].task == task);
    }

    /** Closes exactly the stale attempts and fails exactly the running tasks this leaves without a
        running attempt; it is a run of ordinary calls. */
    method ReconcileStaleAttempts(now: nat, olderThanSeconds: int, force: bool, alive: nat -> bool)
      returns (reconciled: Option<seq<nat>>, ghost calls: seq<Call>)
      requires Valid()
      modifies this
      ensures Valid()
      ensures State() == Run(old(State()), calls)
      ensures reconciled.None? <==> olderThanSeconds < 0
      ensures reconciled.None? ==> State() == old(State())
      ensures reconciled.Some? ==>
                && (forall i :: i in reconciled.value
                                <==> Stale(old(State()), i, now, olderThanSeconds, force, alive))
                && reviews == old(reviews)
                && attempts == AfterClosing(old(attempts), reconciled.value, force)
                && tasks == AfterFailing(old(State()), attempts,
                                         TasksOf(old(State()), reconciled.value))
                && forall t | t in TasksOf(old(State()), reconciled.value) && t in tasks ::
                     tasks[t].status == Running ==> HasRunningAttempt(State(), t)
    {
      if olderThanSeconds < 0 {
        return None, [];
      }
      ghost var l := State();
      var done, affected, closing := CloseStale(now, olderThanSeconds, force, alive);
      ghost var m := State();
      ghost var failing := FailAbandoned(affected);
      RunAppend(l, closing, failing);
      calls := closing + failing;
      assert AfterFailing(m, attempts, affected) == AfterFailing(l, attempts, affected);
      reconciled := Some(done);
      NoneLeftWithoutAttempt(l, State(), affected);
    }

    method CloseStale(now: nat, olderThanSeconds: nat, force: bool, alive: nat -> bool)
      returns (done: seq<nat>, affected: set<string>, ghost calls: seq<Call>)
      requires Valid()
      modifies this
      ensures Valid() && State() == Run(old(State()), calls)
      ensures tasks == old(tasks) && reviews == old(reviews)
      ensures forall i :: i in done <==> Stale(old(State()), i, now, olderThanSeconds, force, alive)
      ensures attempts == AfterClosing(old(attempts), done, force)
      ensures affected == TasksOf(old(State()), done)
      ensures affected <= tasks.Keys
    {
      ghost var l := State();
      var rows := OrderedByStart(set i | i in attempts && attempts[i].status == RunningAttempt);
      done, affected, calls := [], {}, [];
      assert attempts == AfterClosing(l.attempts, done, force);
      var k := 0;
      while k < |rows|
        invariant 0 <= k <= |rows| && Valid() && State() == Run(l, calls)
        invariant ClosedSoFar(l, State(), rows[..k], done, affected, force)
        invariant forall i :: i in done
                    <==> i in rows[..k] && Stale(l, i, now, olderThanSeconds, force, alive)
      {
        var i := rows[k];
        assert i in rows && i !in rows[..k];
        assert rows[..k + 1] == rows[..k] + [i];
        var a := attempts[i];
        assert a == l.attempts[i];
        var live := a.pid.Some? && alive(a.pid.value);
        if force || (!live && now - a.startedAt >= olderThanSeconds * 1_000_000) {
          CloseStaleRow(l, rows[..k], done, affected, calls, i, force);
          calls := calls + [ReconcileCall(a, i, force)];
          done := done + [i];
          affected := affected + {a.task};
        }
        k := k + 1;
      }
      assert rows[..k] == rows;
    }

    /** One stale attempt more, as one call more. */
    method CloseStaleRow(ghost l: Ledger, ghost seen: seq<nat>, ghost done: seq<nat>,
                         ghost affected: set<string>, ghost calls: seq<Call>, i: nat, force: bool)
      requires Valid() && AttemptsOk(l) && State() == Run(l, calls)
      requires i in attempts && i in l.attempts && attempts[i] == l.attempts[i] && i !in done
      requires attempts[i].status == RunningAttempt && ClosedSoFar(l, State(), seen, done, affected, force)
      modifies this
      ensures Valid() && State() == Run(l, calls + [ReconcileCall(l.attempts[i], i, force)])
      ensures ClosedSoFar(l, State(), seen + [i], done + [i], affected + {l.attempts[i].task}, force)
    {
      ClosingOneMore(l, State(), seen, done, affected, i, force);
      AppendCall(l, calls, ReconcileCall(attempts[i], i, force));
      var closed := CloseReconciled(i, force);
    }

    method CloseReconciled(i: nat, force: bool) returns (r: Result<Attempt, Refusal>)
      requires Valid() && i in attempts && attempts[i].status == RunningAttempt
      modifies this
      ensures Valid()
      ensures State() == Apply(old(State()), ReconcileCall(old(attempts)[i], i, force))
      ensures attempts == old(attempts)[i := ReconciledAttempt(old(attempts)[i], i, force)]
      ensures tasks == old(tasks) && reviews == old(reviews)
    {
      r := FinishAttempt(i, FailedAttempt, if force then RECONCILE_FORCED else RECONCILE_STALE, [],
                         attempts[i].transcript, None);
    }

    method FailAbandoned(affected: set<string>) returns (ghost calls: seq<Call>)
      requires Valid() && affected <= tasks.Keys
      modifies this
      ensures Valid() && State() == Run(old(State()), calls)
      ensures attempts == old(attempts) && reviews == old(reviews)
      ensures tasks == AfterFailing(old(State()), attempts, affected)
    {
      ghost var l := State();
      calls := [];
      var rest := affected;
      assert tasks == AfterFailing(l, attempts, affected - rest);
      while rest != {}
        invariant rest <= affected && Valid() && State() == Run(l, calls)
        invariant attempts == l.attempts && reviews == l.reviews
        invariant tasks == AfterFailing(l, l.attempts, affected - rest)
        decreases |rest|
      {
        var t :| t in rest;
        ghost var s := State();
        var still := HasRunningAttempt(State(), t);
        if tasks[t].status == Running && !still {
          NoRunningForms(State(), t);
          var moved := Transition(t, Failed, RECONCILED);
          AppendCall(l, calls, Call.Transition(t, Failed, RECONCILED));
          calls := calls + [Call.Transition(t, Failed, RECONCILED)];
          assert tasks == s.tasks[t := s.tasks[t].(status := Failed)];
        } else {
          assert still ==> exists i | i in attempts :: RunningFor(State(), t, i);
        }
        FailingOneMore(l, s.tasks, affected, rest, t);
        rest := rest - {t};
      }
      assert affected - rest == affected;
    }
  }

  /** The completing call keeps the invariant; accepted, it leaves a completed task that meets the gate. */
  lemma CompletionEffect(l: Ledger, t: string, summary: string)
    requires Inv(l)
    ensures Inv(Apply(l, Call.CompleteTask(t, summary)))
    ensures RefusalOf(l, Call.CompleteTask(t, summary)) == CompletionRefusal(l, t)
    ensures CompletionRefusal(l, t).Some? ==> Apply(l, Call.CompleteTask(t, summary)) == l
    ensures CompletionRefusal(l, t).None? ==>
              && t in l.tasks && l.tasks[t].status == NeedsReview
              && Apply(l, Call.CompleteTask(t, summary)) == WithStatus(l, t, Completed, summary)
              && Gate(WithStatus(l, t, Completed, summary), t)
  {
    InvKept(l, Call.CompleteTask(t, summary));
  }

  lemma AppendCall(l: Ledger, calls: seq<Call>, c: Call)
    ensures Run(l, calls + [c]) == Apply(Run(l, calls), c)
  {
    RunAppend(l, calls, [c]);
    var m := Run(l, calls);
    assert Run(m, [c]) == Run(Apply(m, c), []);
  }

  lemma NoLatestMeansNone(l: Ledger, task: string)
    requires forall i | i in l.attempts :: !IsLatest(l, task, i)
    ensures !exists i | i in l.attempts :: IsImplementation(l, task, i)
  {
    forall i | i in l.attempts && IsImplementation(l, task, i) ensures false {
      var k := LatestExists(l, task, i);
    }
  }

  lemma EarliestExists(attempts: map<nat, Attempt>, s: set<nat>) returns (i: nat)
    requires s != {} && s <= attempts.Keys
    ensures i in s && forall k | k in s :: attempts[i].startedAt <= attempts[k].startedAt
  {
    i :| i in s;
    if s != {i} {
      var j := EarliestExists(attempts, s - {i});
      if attempts[j].startedAt < attempts[i].startedAt {
        forall k | k in s ensures attempts[j].startedAt <= attempts[k].startedAt {
          assert k == i || k in s - {i};
        }
        i := j;
      } else {
        forall k | k in s ensures attempts[i].startedAt <= attempts[k].startedAt {
          assert k == i || k in s - {i};
        }
      }
    }
  }

  lemma ClosingOneMore(l: Ledger, m: Ledger, seen: seq<nat>, done: seq<nat>, affected: set<string>, i: nat,
                       force: bool)
    requires AttemptsOk(l) && i in l.attempts && i !in done
    requires ClosedSoFar(l, m, seen, done, affected, force)
    ensures ClosedSoFar(l, m.(attempts := m.attempts[i := ReconciledAttempt(l.attempts[i], i, force)]),
                        seen + [i], done + [i], affected + {l.attempts[i].task}, force)
  {
  }

  lemma FailingOneMore(l: Ledger, before: map<string, Task>, affected: set<string>, rest: set<string>,
                       t: string)
    requires t in rest && rest <= affected && affected <= l.tasks.Keys
    requires before == AfterFailing(l, l.attempts, affected - rest)
    ensures AfterFailing(l, l.attempts, affected - (rest - {t}))
            == if Abandoned(l, l.attempts, t) then before[t := l.tasks[t].(status := Failed)] else before
    ensures before[t] == l.tasks[t]
  {
  }

  /** An affected task that is still running has an attempt that is still running. */
  lemma NoneLeftWithoutAttempt(l: Ledger, m: Ledger, affected: set<string>)
    requires m.tasks == AfterFailing(l, m.attempts, affected)
    ensures forall t | t in affected && t in m.tasks ::
              m.tasks[t].status == Running ==> HasRunningAttempt(m, t)
  {
  }

  lemma NoRunningForms(l: Ledger, t: string)
    requires !HasRunningAttempt(l, t)
    ensures !HasRunningImplementation(l, t)
    ensures forall i | i in l.attempts :: l.attempts[i].task == t ==> l.attempts[i].status != RunningAttempt
  {
  }
}
