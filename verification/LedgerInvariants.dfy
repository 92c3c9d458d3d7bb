/** What every reachable ledger satisfies, and what no call ever undoes. */
module LedgerInvariants {
  import opened Models
  import opened TaskLedger

  // ------------------------------------------------- one-state invariants

  /** The facts a single attempt keeps in every reachable ledger. */
  predicate AttemptOk(l: Ledger, a: Attempt) {
    && a.task in l.tasks
    && (a.status == RunningAttempt ==> l.tasks[a.task].status != Cancelled)
    && (a.status == RunningAttempt && a.kind == Implementation ==>
          l.tasks[a.task].status in {Running, NeedsReview})
    && (a.status == Succeeded ==> a.evidence != [])
    && a.workItem != "" && Trimmed(a.workItem)
  }

  /** A review names a successful implementation of its own task by another provider. */
  predicate ReviewOk(l: Ledger, r: Review) {
    && r.attempt in l.attempts
    && l.attempts[r.attempt].task == r.task
    && l.attempts[r.attempt].kind == Implementation
    && l.attempts[r.attempt].status == Succeeded
    && l.attempts[r.attempt].provider != r.provider
    && (r.verdict == Approve ==> r.evidence != [])
  }

  /** Two running implementation attempts of one task and one work item. */
  predicate Rivals(l: Ledger, i: nat, j: nat)
    requires i in l.attempts
  {
    && HoldsWorkItem(l, l.attempts[i].task, l.attempts[i].workItem, i)
    && HoldsWorkItem(l, l.attempts[i].task, l.attempts[i].workItem, j)
  }

  predicate OneRunningPerWorkItem(l: Ledger) {
    forall i, j | i in l.attempts && j in l.attempts :: Rivals(l, i, j) ==> i == j
  }

  predicate Approval(l: Ledger, task: string, i: nat, r: nat)
    requires i in l.attempts
  {
    Reviews(l, task, i, r) && Approves(l.reviews[r], l.attempts[i].provider)
  }

  predicate Approved(l: Ledger, task: string, i: nat)
    requires i in l.attempts
  {
    exists r | r in l.reviews :: Approval(l, task, i, r)
  }

  /** The lasting completion gate: every work item's latest attempt succeeded with evidence and
      has an evidence-backed approval from another provider, and nothing is still running. */
  predicate Gate(l: Ledger, task: string) {
    && (exists i | i in l.attempts :: IsImplementation(l, task, i))
    && !HasRunningImplementation(l, task)
    && forall i | i in l.attempts :: IsLatest(l, task, i) ==>
         l.attempts[i].status == Succeeded && l.attempts[i].evidence != [] && Approved(l, task, i)
  }

  predicate IdsOk(l: Ledger) {
    forall t | t in l.tasks :: ValidTaskId(t)
  }

  predicate AttemptsOk(l: Ledger) {
    forall i | i in l.attempts :: AttemptOk(l, l.attempts[i])
  }

  predicate ReviewsOk(l: Ledger) {
    forall r | r in l.reviews :: ReviewOk(l, l.reviews[r])
  }

  predicate GatesOk(l: Ledger) {
    forall t | t in l.tasks :: l.tasks[t].status == Completed ==> Gate(l, t)
  }

  predicate Inv(l: Ledger) {
    IdsOk(l) && AttemptsOk(l) && ReviewsOk(l) && OneRunningPerWorkItem(l) && GatesOk(l)
  }

  // ------------------------------------------------ two-state invariants

  predicate Absorbing(s: TaskStatus) {
    s == Completed || s == Cancelled
  }

  predicate SameIdentity(a: Attempt, b: Attempt) {
    && a.task == b.task && a.agent == b.agent && a.harness == b.harness
    && a.provider == b.provider && a.model == b.model && a.kind == b.kind
    && a.workItem == b.workItem && a.startedAt == b.startedAt
  }

  predicate TaskKept(l: Ledger, m: Ledger, t: string)
    requires t in l.tasks
  {
    && t in m.tasks
    && m.tasks[t].definition == l.tasks[t].definition
    && (Absorbing(l.tasks[t].status) ==> m.tasks[t].status == l.tasks[t].status)
  }

  predicate AttemptKept(l: Ledger, m: Ledger, i: nat)
    requires i in l.attempts
  {
    && i in m.attempts
    && SameIdentity(l.attempts[i], m.attempts[i])
    && (l.attempts[i].status != RunningAttempt ==> m.attempts[i] == l.attempts[i])
  }

  predicate NewAttemptAllowed(l: Ledger, m: Ledger, i: nat)
    requires i in m.attempts
  {
    i in l.attempts || m.attempts[i].task !in l.tasks
    || !Absorbing(l.tasks[m.attempts[i].task].status)
  }

  /** m is a later ledger than l: rows and events are only added, a terminal attempt and a review
      never change, and a closed task stays closed and gains no attempt. */
  predicate Extends(l: Ledger, m: Ledger) {
    && (forall t | t in l.tasks :: TaskKept(l, m, t))
    && (forall i | i in l.attempts :: AttemptKept(l, m, i))
    && (forall r | r in l.reviews :: r in m.reviews && m.reviews[r] == l.reviews[r])
    && (forall i | i in m.attempts :: NewAttemptAllowed(l, m, i))
    && l.log <= m.log
  }

  lemma ExtendsTransitive(l: Ledger, m: Ledger, n: Ledger)
    requires Extends(l, m) && Extends(m, n)
    ensures Extends(l, n)
  {
    forall t | t in l.tasks ensures TaskKept(l, n, t) {
      assert TaskKept(l, m, t) && TaskKept(m, n, t);
    }
    forall i | i in l.attempts ensures AttemptKept(l, n, i) {
      assert AttemptKept(l, m, i) && AttemptKept(m, n, i);
    }
    forall i | i in n.attempts ensures NewAttemptAllowed(l, n, i) {
      assert NewAttemptAllowed(m, n, i);
      if i in m.attempts {
        assert NewAttemptAllowed(l, m, i) && AttemptKept(m, n, i);
      } else if n.attempts[i].task in l.tasks {
        assert TaskKept(l, m, n.attempts[i].task);
      }
    }
  }

  // ----------------------------------------------------- one call at a time

  lemma TaskWriteExtends(l: Ledger, t: string, task: Task, e: Event)
    requires t in l.tasks ==>
               task.definition == l.tasks[t].definition && !Absorbing(l.tasks[t].status)
    ensures Extends(l, l.(tasks := l.tasks[t := task], log := l.log + [e]))
  {
  }

  lemma AttemptWriteExtends(l: Ledger, i: nat, a: Attempt, log: seq<Event>)
    requires l.log <= log
    requires i in l.attempts ==>
               SameIdentity(l.attempts[i], a) && l.attempts[i].status == RunningAttempt
    requires i !in l.attempts && a.task in l.tasks ==> !Absorbing(l.tasks[a.task].status)
    ensures Extends(l, l.(attempts := l.attempts[i := a], log := log))
  {
  }

  lemma CreateExtends(l: Ledger, c: Call)
    requires c.CreateTask?
    ensures Extends(l, Created(l, c))
  {
    if TargetId(c) !in l.tasks {
      TaskWriteExtends(l, TargetId(c), Task(Stored(c.definition), Queued),
                       TaskCreated(TargetId(c), c.definition.title));
    }
  }

  lemma MovedExtends(l: Ledger, t: string, target: TaskStatus, reason: string)
    requires t in l.tasks && (l.tasks[t].status == target || !Absorbing(l.tasks[t].status))
    ensures Extends(l, Moved(l, t, target, reason))
  {
    if l.tasks[t].status != target {
      TaskWriteExtends(l, t, l.tasks[t].(status := target),
                       TaskTransitioned(t, l.tasks[t].status, target, reason));
    }
  }

  lemma StartExtends(l: Ledger, c: Call)
    requires c.StartAttempt? && StartRefusal(l, c).None?
    ensures Extends(l, Started(l, c))
  {
    AttemptWriteExtends(l, c.attemptId, NewAttempt(c), Started(l, c).log);
  }

  lemma FinishExtends(l: Ledger, c: Call)
    requires c.FinishAttempt? && c.attempt in l.attempts
    ensures Extends(l, Finished(l, c))
  {
    if l.attempts[c.attempt].status == RunningAttempt {
      AttemptWriteExtends(l, c.attempt, Closed(l.attempts[c.attempt], c), Finished(l, c).log);
    }
  }

  lemma ProcessExtends(l: Ledger, c: Call)
    requires c.SetAttemptProcess? && ProcessRefusal(l, c).None?
    ensures Extends(l, Tracked(l, c))
  {
    AttemptWriteExtends(l, c.attempt, l.attempts[c.attempt].(pid := Some(c.pid)), l.log);
  }

  lemma ReviewExtends(l: Ledger, c: Call)
    requires c.RecordReview? && ReviewRefusal(l, c).None?
    ensures Extends(l, Reviewed(l, c))
  {
  }

  lemma EffectExtends(l: Ledger, c: Call)
    requires Accepted(l, c)
    ensures Extends(l, Effect(l, c))
  {
    match c
    case CreateTask(_, _, _, _) => CreateExtends(l, c);
    case Transition(t, target, reason) => MovedExtends(l, t, target, reason);
    case CancelTask(t, reason) => MovedExtends(l, t, Cancelled, reason);
    case StartAttempt(_, _, _, _, _, _, _, _) => StartExtends(l, c);
    case FinishAttempt(_, _, _, _, _, _) => FinishExtends(l, c);
    case SetAttemptProcess(_, _) => ProcessExtends(l, c);
    case RecordReview(_, _, _, _, _, _, _, _, _, _) => ReviewExtends(l, c);
    case CompleteTask(t, summary) => MovedExtends(l, t, Completed, summary);
  }

  lemma EffectAttemptsOk(l: Ledger, c: Call)
    requires AttemptsOk(l) && Accepted(l, c)
    ensures AttemptsOk(Effect(l, c))
  {
    forall i | i in Effect(l, c).attempts ensures AttemptOk(Effect(l, c), Effect(l, c).attempts[i]) {
      if i in l.attempts {
        EffectAttemptOk(l, c, i);
      }
    }
  }

  /** An attempt that was there before: a running one keeps its task from being blocked, failed,
      completed or cancelled under it. */
  lemma EffectAttemptOk(l: Ledger, c: Call, i: nat)
    requires i in l.attempts && AttemptOk(l, l.attempts[i]) && Accepted(l, c)
    ensures i in Effect(l, c).attempts && AttemptOk(Effect(l, c), Effect(l, c).attempts[i])
  {
  }

  /** A reviewed attempt is terminal, so later ledgers keep what its review says about it. */
  lemma EffectReviewsOk(l: Ledger, c: Call)
    requires ReviewsOk(l) && Accepted(l, c)
    ensures ReviewsOk(Effect(l, c))
  {
  }

  lemma EffectOneRunning(l: Ledger, c: Call)
    requires OneRunningPerWorkItem(l) && Accepted(l, c)
    ensures OneRunningPerWorkItem(Effect(l, c))
  {
    var m := Effect(l, c);
    forall i, j | i in m.attempts && j in m.attempts && Rivals(m, i, j) ensures i == j {
      if i in l.attempts && j in l.attempts {
        assert Rivals(l, i, j);
      } else if i in l.attempts {
        assert HoldsWorkItem(l, m.attempts[j].task, m.attempts[j].workItem, i);
      } else if j in l.attempts {
        assert HoldsWorkItem(l, m.attempts[i].task, m.attempts[i].workItem, j);
      }
    }
  }

  /** Nothing a later ledger may add can undo the gate of a completed task. */
  lemma GateSurvives(l: Ledger, m: Ledger, t: string)
    requires t in l.tasks && l.tasks[t].status == Completed && Gate(l, t)
    requires Extends(l, m)
    ensures Gate(m, t)
  {
    forall i | IsImplementation(l, t, i) || IsImplementation(m, t, i)
      ensures i in l.attempts && i in m.attempts && m.attempts[i] == l.attempts[i]
    {
      if i in m.attempts { assert NewAttemptAllowed(l, m, i); }
      assert AttemptKept(l, m, i);
      assert !RunningImplementation(l, t, i);
    }
    GateCarries(l, m, t);
  }

  /** The completing step meets the gate, with the newest review as the witness. */
  lemma CompletionMeetsGate(l: Ledger, t: string)
    requires AttemptsOk(l) && CompletionRefusal(l, t).None?
    ensures Gate(l, t)
  {
    forall i | i in l.attempts && IsLatest(l, t, i)
      ensures l.attempts[i].status == Succeeded && l.attempts[i].evidence != [] && Approved(l, t, i)
    {
      assert Closable(l, t, i);
      assert AttemptOk(l, l.attempts[i]);
      var r :| r in l.reviews && IsNewestReview(l, t, i, r)
                && Approves(l.reviews[r], l.attempts[i].provider);
      assert Approval(l, t, i, r);
    }
  }

  /** The same implementation attempts of one task, row for row. */
  ghost predicate SameWork(l: Ledger, m: Ledger, t: string) {
    forall i :: IsImplementation(l, t, i) || IsImplementation(m, t, i) ==>
                  i in l.attempts && i in m.attempts && l.attempts[i] == m.attempts[i]
  }

  /** Being latest depends on the task's implementation attempts alone. */
  lemma SameWorkSameLatest(l: Ledger, m: Ledger, t: string, i: nat)
    requires SameWork(l, m, t)
    ensures IsLatest(l, t, i) == IsLatest(m, t, i)
  {
  }

  /** The gate speaks of the task's implementation attempts and their reviews only. */
  lemma GateCarries(l: Ledger, m: Ledger, t: string)
    requires SameWork(l, m, t) && Gate(l, t)
    requires forall r | r in l.reviews :: r in m.reviews && m.reviews[r] == l.reviews[r]
    ensures Gate(m, t)
  {
    var w :| w in l.attempts && IsImplementation(l, t, w);
    assert IsImplementation(m, t, w);
    forall i | i in m.attempts ensures !RunningImplementation(m, t, i) {
      if RunningImplementation(m, t, i) {
        assert IsImplementation(m, t, i);
        assert RunningImplementation(l, t, i);
      }
    }
    forall i | i in m.attempts && IsLatest(m, t, i)
      ensures m.attempts[i].status == Succeeded && m.attempts[i].evidence != [] && Approved(m, t, i)
    {
      SameWorkSameLatest(l, m, t, i);
      assert IsImplementation(l, t, i);
      var r :| r in l.reviews && Approval(l, t, i, r);
      assert Approval(m, t, i, r);
    }
  }

  /** A review that passes its checks once passes them in every later ledger. */
  lemma ReviewableForEver(l: Ledger, m: Ledger, c: Call)
    requires Extends(l, m) && c.RecordReview? && ReviewReadRefusal(l, c).None?
    ensures ReviewReadRefusal(m, c).None?
  {
  }

  lemma EffectGatesOk(l: Ledger, c: Call)
    requires AttemptsOk(l) && GatesOk(l) && Accepted(l, c)
    ensures GatesOk(Effect(l, c))
  {
    var m := Effect(l, c);
    EffectExtends(l, c);
    forall t | t in m.tasks && m.tasks[t].status == Completed ensures Gate(m, t) {
      if t in l.tasks && l.tasks[t].status == Completed {
        GateSurvives(l, m, t);
      } else {
        assert c.CompleteTask? && c.task == t;
        CompletionMeetsGate(l, t);
        GateCarries(l, m, t);
      }
    }
  }

  /** Every call keeps the invariant and only extends history. */
  lemma ApplyKeepsInv(l: Ledger, c: Call)
    requires Inv(l)
    ensures Inv(Apply(l, c)) && Extends(l, Apply(l, c))
  {
    InvKept(l, c);
    if Accepted(l, c) {
      EffectExtends(l, c);
    }
  }

  lemma InvKept(l: Ledger, c: Call)
    requires Inv(l)
    ensures Inv(Apply(l, c))
  {
    if Accepted(l, c) {
      EffectIdsOk(l, c);
      EffectAttemptsOk(l, c);
      EffectReviewsOk(l, c);
      EffectOneRunning(l, c);
      EffectGatesOk(l, c);
    }
  }

  lemma EffectIdsOk(l: Ledger, c: Call)
    requires IdsOk(l) && Accepted(l, c)
    ensures IdsOk(Effect(l, c))
  {
  }

  // ------------------------------------------------------------ whole runs

  lemma {:induction false} RunKeepsInv(l: Ledger, calls: seq<Call>)
    requires Inv(l)
    ensures Inv(Run(l, calls)) && Extends(l, Run(l, calls))
    decreases |calls|
  {
    if calls != [] {
      ApplyKeepsInv(l, calls[0]);
      RunKeepsInv(Apply(l, calls[0]), calls[1..]);
      ExtendsTransitive(l, Apply(l, calls[0]), Run(l, calls));
    }
  }

  lemma ReachableInv(l: Ledger)
    requires Reachable(l)
    ensures Inv(l)
  {
    var calls :| l == Run(EMPTY, calls);
    RunKeepsInv(EMPTY, calls);
  }

  /** Status and running attempts agree in every reachable ledger. */
  lemma RunningAttemptsMatchStatus(l: Ledger, i: nat)
    requires Reachable(l) && i in l.attempts && l.attempts[i].status == RunningAttempt
    ensures l.attempts[i].task in l.tasks
    ensures l.tasks[l.attempts[i].task].status != Cancelled
    ensures l.attempts[i].kind == Implementation ==>
              && l.tasks[l.attempts[i].task].status in {Running, NeedsReview}
              && forall j | j in l.attempts && l.attempts[j].kind == Implementation
                            && l.attempts[j].status == RunningAttempt
                            && l.attempts[j].task == l.attempts[i].task
                            && l.attempts[j].workItem == l.attempts[i].workItem :: j == i
  {
    ReachableInv(l);
    assert AttemptOk(l, l.attempts[i]);
    if l.attempts[i].kind == Implementation {
      forall j | j in l.attempts && l.attempts[j].kind == Implementation
                 && l.attempts[j].status == RunningAttempt
                 && l.attempts[j].task == l.attempts[i].task
                 && l.attempts[j].workItem == l.attempts[i].workItem
        ensures j == i
      {
        assert Rivals(l, i, j);
      }
    }
  }

  /** Completed and cancelled are absorbing, terminal attempts never change and a closed task never
      gains an attempt, whatever is called afterwards. */
  lemma ClosedForEver(l: Ledger, calls: seq<Call>, t: string)
    requires Reachable(l) && t in l.tasks && Absorbing(l.tasks[t].status)
    ensures var m := Run(l, calls);
            && t in m.tasks && m.tasks[t].status == l.tasks[t].status
            && (forall i :: i in m.attempts && m.attempts[i].task == t ==> i in l.attempts)
            && (forall i | i in l.attempts && l.attempts[i].status != RunningAttempt ::
                  i in m.attempts && m.attempts[i] == l.attempts[i])
  {
    ReachableInv(l);
    RunKeepsInv(l, calls);
    var m := Run(l, calls);
    assert TaskKept(l, m, t);
    forall i | i in m.attempts && m.attempts[i].task == t ensures i in l.attempts {
      assert NewAttemptAllowed(l, m, i);
    }
    forall i | i in l.attempts && l.attempts[i].status != RunningAttempt
      ensures i in m.attempts && m.attempts[i] == l.attempts[i]
    {
      assert AttemptKept(l, m, i);
    }
  }

  /** Completion gate over all runs: a completed task meets the gate at once and for ever, over
      exactly the implementation attempts it had when it was completed. */
  lemma CompletedTasksMeetTheGate(l: Ledger, calls: seq<Call>, t: string)
    requires Reachable(l) && t in l.tasks && l.tasks[t].status == Completed
    ensures Gate(l, t)
    ensures var m := Run(l, calls);
            && t in m.tasks && m.tasks[t].status == Completed && Gate(m, t)
            && forall i :: IsImplementation(m, t, i) <==> IsImplementation(l, t, i)
  {
    ReachableInv(l);
    RunKeepsInv(l, calls);
    ClosedForEver(l, calls, t);
    var m := Run(l, calls);
    forall i ensures IsImplementation(m, t, i) <==> IsImplementation(l, t, i) {
      if i in l.attempts { assert AttemptKept(l, m, i); }
    }
  }

  /** At the completing step, and only there, the newest review of each latest attempt must be the
      approval: complete_task is accepted exactly when that holds. */
  lemma CompletionExactly(l: Ledger, t: string, summary: string)
    requires Reachable(l)
    ensures Accepted(l, CompleteTask(t, summary)) <==>
            && t in l.tasks
            && l.tasks[t].status == NeedsReview
            && Gate(l, t)
            && forall i | i in l.attempts :: IsLatest(l, t, i) ==> NewestReviewApproves(l, t, i)
  {
    ReachableInv(l);
    if CompletionRefusal(l, t).None? {
      AcceptedCompletion(l, t);
    } else if t in l.tasks && l.tasks[t].status == NeedsReview && Gate(l, t) {
      RefusedCompletion(l, t);
    }
  }

  lemma AcceptedCompletion(l: Ledger, t: string)
    requires AttemptsOk(l) && CompletionRefusal(l, t).None?
    ensures Gate(l, t)
    ensures forall i | i in l.attempts :: IsLatest(l, t, i) ==> NewestReviewApproves(l, t, i)
  {
    CompletionMeetsGate(l, t);
    forall i | i in l.attempts && IsLatest(l, t, i) ensures NewestReviewApproves(l, t, i) {
      assert Closable(l, t, i);
    }
  }

  lemma RefusedCompletion(l: Ledger, t: string)
    requires IdsOk(l) && CompletionRefusal(l, t).Some?
    requires t in l.tasks && l.tasks[t].status == NeedsReview && Gate(l, t)
    ensures exists i | i in l.attempts :: IsLatest(l, t, i) && !NewestReviewApproves(l, t, i)
  {
    var i :| i in l.attempts && IsLatest(l, t, i) && !Closable(l, t, i);
  }

  /** An attempt is started exactly when its work item is named, its identity resolves, the task is
      running, the id is new and, for an implementation, nobody holds the work item; afterwards it
      alone holds it, and any further start on it is refused until it is finished. */
  lemma StartExactly(l: Ledger, c: Call)
    requires c.StartAttempt?
    ensures Accepted(l, c) <==>
            && Strip(c.workItem) != "" && IdentityOf(c).Success?
            && c.task in l.tasks && l.tasks[c.task].status == Running
            && c.attemptId !in l.attempts
            && (IdentityOf(c).value.kind == Implementation ==>
                  forall i | i in l.attempts :: !HoldsWorkItem(l, c.task, Strip(c.workItem), i))
    ensures Accepted(l, c) && IdentityOf(c).value.kind == Implementation ==>
              forall i :: HoldsWorkItem(Effect(l, c), c.task, Strip(c.workItem), i) <==> i == c.attemptId
  {
  }

  lemma SecondStartIsRefused(l: Ledger, d: Call, i: nat)
    requires d.StartAttempt? && HoldsWorkItem(l, d.task, Strip(d.workItem), i)
    requires IdentityOf(d).Success? && IdentityOf(d).value.kind == Implementation
    ensures !Accepted(l, d)
    ensures d.task in l.tasks && l.tasks[d.task].status == Running && Strip(d.workItem) != "" ==>
              RefusalOf(l, d) == Some(WorkItemTaken)
  {
  }

  /** An attempt that was reviewed has exactly one newest review. */
  lemma NewestReviewExists(l: Ledger, t: string, i: nat, q: nat) returns (r: nat)
    requires Reviews(l, t, i, q)
    ensures IsNewestReview(l, t, i, r)
  {
    r := NewestAmong(l, t, i, q, l.reviews.Keys);
  }

  lemma NewestReviewIsUnique(l: Ledger, t: string, i: nat, q: nat, r: nat)
    requires IsNewestReview(l, t, i, q) && IsNewestReview(l, t, i, r)
    ensures q == r
  {
    assert Reviews(l, t, i, q) && Reviews(l, t, i, r);
  }

  lemma NewestAmong(l: Ledger, t: string, i: nat, q: nat, s: set<nat>) returns (r: nat)
    requires Reviews(l, t, i, q) && s <= l.reviews.Keys
    ensures Reviews(l, t, i, r) && (r == q || r in s)
    ensures forall p | p in s :: Reviews(l, t, i, p) ==>
              p == r || Earlier(l.reviews[p].createdAt, p, l.reviews[r].createdAt, r)
  {
    if s == {} {
      r := q;
    } else {
      var x :| x in s;
      r := NewestAmong(l, t, i, q, s - {x});
      if Reviews(l, t, i, x) && x != r && !Earlier(l.reviews[x].createdAt, x, l.reviews[r].createdAt, r) {
        forall p | p in s && Reviews(l, t, i, p)
          ensures p == x || Earlier(l.reviews[p].createdAt, p, l.reviews[x].createdAt, x)
        {
          if p != x { assert p in s - {x}; }
        }
        r := x;
      }
    }
  }

  /** Every work item that was ever attempted has a latest attempt. */
  lemma LatestExists(l: Ledger, t: string, i: nat) returns (k: nat)
    requires IsImplementation(l, t, i)
    ensures IsLatest(l, t, k) && l.attempts[k].workItem == l.attempts[i].workItem
  {
    k := LatestAmong(l, t, i, l.attempts.Keys);
  }

  lemma LatestAmong(l: Ledger, t: string, i: nat, s: set<nat>) returns (k: nat)
    requires IsImplementation(l, t, i) && s <= l.attempts.Keys
    ensures IsImplementation(l, t, k) && l.attempts[k].workItem == l.attempts[i].workItem
    ensures forall j | j in s :: SameWorkItem(l, t, j, k) ==> NotLater(l, j, k)
    ensures k == i || k in s
  {
    if s == {} {
      k := i;
    } else {
      var x :| x in s;
      k := LatestAmong(l, t, i, s - {x});
      if SameWorkItem(l, t, x, k) && !NotLater(l, x, k) {
        forall j | j in s && SameWorkItem(l, t, j, x) ensures NotLater(l, j, x) {
          if j != x { assert j in s - {x}; assert SameWorkItem(l, t, j, k); }
        }
        k := x;
      }
    }
  }
}
