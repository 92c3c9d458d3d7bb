/** What an accepted call stores, field by field, and which calls may be repeated without effect. */
module StoredRows {
  import opened Models
  import opened TaskLedger
  import opened LedgerInvariants
  import Execution

  // ------------------------------------------------------ the new rows

  /** A resolved identity stands in the row of an attempt. */
  predicate CarriesIdentity(a: Attempt, provider: Option<string>, model: Option<string>,
                            env: Execution.Environment)
  {
    var r := Execution.Resolve(a.agent, provider, model, env);
    && r.Success?
    && a.harness == r.value.harness && Some(a.provider) == r.value.provider
    && a.model == r.value.model && a.kind == r.value.kind
  }

  predicate CarriesReviewer(r: Review, env: Execution.Environment) {
    var i := Execution.Resolve(r.reviewer, None, None, env);
    && i.Success? && i.value.role == Execution.ReviewerRole
    && r.harness == i.value.harness && Some(r.provider) == i.value.provider
  }

  /** A started attempt stands for the agent that was asked for, with the identity it resolves to, and
      has nothing yet to report. */
  lemma StartStores(l: Ledger, c: Call)
    requires c.StartAttempt? && Accepted(l, c)
    ensures var m := Effect(l, c);
            && m.tasks == l.tasks && m.reviews == l.reviews
            && m.attempts.Keys == l.attempts.Keys + {c.attemptId}
            && (forall i | i in l.attempts :: m.attempts[i] == l.attempts[i])
            && var a := m.attempts[c.attemptId];
               && a.task == c.task && a.agent == c.agent && CarriesIdentity(a, c.provider, c.model, c.env)
               && a.workItem == Strip(c.workItem) && a.startedAt == c.now
               && a.status == RunningAttempt && a.summary == "" && a.evidence == []
               && a.transcript.None? && a.usage.None? && a.pid.None?
               && m.log == l.log + [AttemptStarted(c.task, c.attemptId, c.agent, a.harness, a.provider,
                                                   a.model, a.kind, a.workItem)]
  {
  }

  /** Finishing a running attempt stores the whole outcome, forgets the process and keeps the rest. */
  lemma FinishStores(l: Ledger, c: Call)
    requires c.FinishAttempt? && Accepted(l, c) && l.attempts[c.attempt].status == RunningAttempt
    ensures var m := Effect(l, c);
            var a := m.attempts[c.attempt];
            && m.tasks == l.tasks && m.reviews == l.reviews && m.attempts.Keys == l.attempts.Keys
            && (forall i | i in l.attempts && i != c.attempt :: m.attempts[i] == l.attempts[i])
            && SameIdentity(l.attempts[c.attempt], a)
            && a.status == c.status && a.summary == c.summary && a.evidence == c.evidence
            && a.transcript == c.transcript && a.usage == c.usage && a.pid.None?
            && m.log == l.log + [AttemptFinished(a.task, c.attempt, c.status, c.summary)]
  {
  }

  lemma ProcessStores(l: Ledger, c: Call)
    requires c.SetAttemptProcess? && Accepted(l, c)
    ensures var m := Effect(l, c);
            && m == l.(attempts := m.attempts) && m.attempts.Keys == l.attempts.Keys
            && (forall i | i in l.attempts ::
                  m.attempts[i] == if i == c.attempt then l.attempts[i].(pid := Some(c.pid)) else l.attempts[i])
  {
  }

  /** A recorded review says what the reviewer said, under the identity the reviewer resolves to. */
  lemma ReviewStores(l: Ledger, c: Call)
    requires c.RecordReview? && Accepted(l, c)
    ensures var m := Effect(l, c);
            && m.tasks == l.tasks && m.attempts == l.attempts
            && m.reviews.Keys == l.reviews.Keys + {c.reviewId} && c.reviewId !in l.reviews
            && (forall r | r in l.reviews :: m.reviews[r] == l.reviews[r])
            && var r := m.reviews[c.reviewId];
               && r.task == c.task && r.attempt == c.attempt && r.reviewer == c.reviewer
               && CarriesReviewer(r, c.env) && Some(r.verdict) == ParseVerdict(c.verdict)
               && r.summary == c.summary && r.issues == c.issues && r.evidence == c.evidence
               && r.createdAt == c.now
               && m.log == l.log + [ReviewRecorded(c.task, c.reviewId, c.reviewer, r.verdict)]
  {
  }

  /** A created task has the definition that was given, its criteria stripped, and waits. */
  lemma CreateStores(l: Ledger, c: Call)
    requires c.CreateTask? && Accepted(l, c) && TargetId(c) !in l.tasks
    ensures var m := Effect(l, c);
            && m.attempts == l.attempts && m.reviews == l.reviews
            && m.tasks.Keys == l.tasks.Keys + {TargetId(c)}
            && (forall t | t in l.tasks :: m.tasks[t] == l.tasks[t])
            && m.log == l.log + [TaskCreated(TargetId(c), c.definition.title)]
            && var task := m.tasks[TargetId(c)];
               && task.status == Queued
               && task.definition.(acceptanceCriteria := []) == c.definition.(acceptanceCriteria := [])
               && (forall s :: s in task.definition.acceptanceCriteria
                               <==> s != "" && exists k | 0 <= k < |c.definition.acceptanceCriteria| ::
                                      s == Strip(c.definition.acceptanceCriteria[k]))
  {
    CleanedMembers(c.definition.acceptanceCriteria);
  }

  /** A move writes the new status and one event with both ends and the reason. */
  lemma MoveStores(l: Ledger, c: Call, t: string, target: TaskStatus, reason: string)
    requires Accepted(l, c) && t in l.tasks && l.tasks[t].status != target
    requires c == Transition(t, target, reason)
             || (c == CancelTask(t, reason) && target == Cancelled)
             || (c == CompleteTask(t, reason) && target == Completed)
    ensures var m := Effect(l, c);
            && m.attempts == l.attempts && m.reviews == l.reviews && m.tasks.Keys == l.tasks.Keys
            && (forall u | u in l.tasks ::
                  m.tasks[u] == if u == t then l.tasks[u].(status := target) else l.tasks[u])
            && m.log == l.log + [TaskTransitioned(t, l.tasks[t].status, target, reason)]
  {
  }

  // ------------------------------------------------ when it is accepted

  /** The edges of the task graph, by where they lead. */
  lemma EdgesByTarget(from: TaskStatus, to: TaskStatus)
    ensures to in ValidTransitions(from) <==>
              match to
              case Queued => from in {Blocked, Failed}
              case Running => from in {Queued, NeedsReview, Blocked, Failed}
              case NeedsReview => from == Running
              case Blocked => from in {Queued, Running, NeedsReview}
              case Failed => from in {Queued, Running, NeedsReview, Blocked}
              case Cancelled => from in {Queued, Running}
              case Completed => false
  {
  }

  /** A transition is accepted exactly along an edge, or to where the task already is; never into a
      completion or a cancellation, nor to blocked or failed over a running implementation. */
  lemma MovesExactly(l: Ledger, t: string, target: TaskStatus, reason: string)
    ensures Accepted(l, Transition(t, target, reason)) <==>
              && t in l.tasks && !Absorbing(target)
              && (l.tasks[t].status == target
                  || (target in ValidTransitions(l.tasks[t].status)
                      && (target == Blocked || target == Failed ==> !HasRunningImplementation(l, t))))
    ensures t in l.tasks && l.tasks[t].status == target ==> Apply(l, Transition(t, target, reason)) == l
  {
  }

  /** A cancellation is accepted exactly for a cancelled task, and for a queued or running one that
      nothing runs for. */
  lemma CancelsExactly(l: Ledger, t: string, reason: string)
    ensures Accepted(l, CancelTask(t, reason)) <==>
              && t in l.tasks
              && (l.tasks[t].status == Cancelled
                  || (l.tasks[t].status in {Queued, Running} && !HasRunningAttempt(l, t)))
  {
  }

  /** Closing is accepted exactly with a terminal status, valid usage and, for a success, evidence, for
      an attempt that runs or was closed with that very outcome. */
  lemma FinishExactly(l: Ledger, c: Call)
    requires c.FinishAttempt?
    ensures Accepted(l, c) <==>
              && c.status != RunningAttempt && c.attempt in l.attempts
              && (c.usage.Some? ==> ValidUsage(c.usage.value))
              && (c.status == Succeeded ==> c.evidence != [])
              && var a := l.attempts[c.attempt];
                 a.status == RunningAttempt
                 || (a.status, a.summary, a.evidence, a.transcript, a.usage)
                    == (c.status, c.summary, c.evidence, c.transcript, c.usage)
  {
  }

  lemma ProcessExactly(l: Ledger, c: Call)
    requires c.SetAttemptProcess?
    ensures Accepted(l, c) <==>
              c.pid > 0 && c.attempt in l.attempts && l.attempts[c.attempt].status == RunningAttempt
  {
  }

  /** A creation is accepted exactly with a valid id and definition, for a new task or, under the
      caller's own id, for one with the same definition. */
  lemma CreateExactly(l: Ledger, c: Call)
    requires c.CreateTask?
    ensures var d := c.definition;
            Accepted(l, c) <==>
              && ValidTaskId(TargetId(c)) && c.workspaceOk
              && 1 <= |d.title| <= 200 && d.objective != ""
              && (exists k | 0 <= k < |d.acceptanceCriteria| :: Strip(d.acceptanceCriteria[k]) != "")
              && (TargetId(c) in l.tasks ==>
                    c.taskId.Some?
                    && l.tasks[TargetId(c)].definition
                       == d.(acceptanceCriteria := Cleaned(d.acceptanceCriteria)))
  {
    var criteria := c.definition.acceptanceCriteria;
    CleanedMembers(criteria);
    if Cleaned(criteria) != [] {
      assert Cleaned(criteria)[0] in Cleaned(criteria);
    }
    if exists k | 0 <= k < |criteria| :: Strip(criteria[k]) != "" {
      var k :| 0 <= k < |criteria| && Strip(criteria[k]) != "";
      assert Strip(criteria[k]) in Cleaned(criteria);
    }
  }

  function VerdictText(v: Verdict): string {
    match v
    case Approve => "approve"
    case RequestChanges => "request_changes"
    case BlockedByReview => "blocked"
  }

  /** Each verdict has one spelling. */
  lemma VerdictReadsBack(text: string, v: Verdict)
    ensures ParseVerdict(text) == Some(v) <==> text == VerdictText(v)
  {
  }

  // -------------------------------------------------- stripped criteria

  lemma {:induction false} CleanedMembers(criteria: seq<string>)
    ensures forall s :: s in Cleaned(criteria)
                        <==> s != "" && exists k | 0 <= k < |criteria| :: s == Strip(criteria[k])
  {
    if criteria != [] {
      CleanedMembers(criteria[1..]);
      forall s ensures s in Cleaned(criteria)
                       <==> s != "" && exists k | 0 <= k < |criteria| :: s == Strip(criteria[k])
      {
        if s != "" && exists k | 0 <= k < |criteria| :: s == Strip(criteria[k]) {
          var k :| 0 <= k < |criteria| && s == Strip(criteria[k]);
          if k > 0 {
            assert criteria[1..][k - 1] == criteria[k];
          }
        }
      }
    }
  }

  /** The criteria keep their order. */
  lemma {:induction false} CleanedKeepsOrder(first: seq<string>, rest: seq<string>)
    ensures Cleaned(first + rest) == Cleaned(first) + Cleaned(rest)
  {
    if first == [] {
      assert first + rest == rest;
    } else {
      assert (first + rest)[1..] == first[1..] + rest;
      CleanedKeepsOrder(first[1..], rest);
    }
  }

  predicate AllSpace(s: string) {
    forall k | 0 <= k < |s| :: IsSpace(s[k])
  }

  lemma {:induction false} StripLeftExactly(s: string) returns (cut: string)
    ensures s == cut + StripLeft(s) && AllSpace(cut)
  {
    if s != "" && IsSpace(s[0]) {
      cut := StripLeftExactly(s[1..]);
      cut := [s[0]] + cut;
    } else {
      cut := "";
    }
  }

  lemma {:induction false} StripRightExactly(s: string) returns (cut: string)
    ensures s == StripRight(s) + cut && AllSpace(cut)
  {
    if s != "" && IsSpace(s[|s| - 1]) {
      cut := StripRightExactly(s[..|s| - 1]);
      cut := cut + [s[|s| - 1]];
    } else {
      cut := "";
    }
  }

  /** Stripping removes nothing but space, and only from the ends. */
  lemma StripExactly(s: string) returns (left: string, right: string)
    ensures s == left + Strip(s) + right && AllSpace(left) && AllSpace(right) && Trimmed(Strip(s))
  {
    left := StripLeftExactly(s);
    right := StripRightExactly(StripLeft(s));
  }

  // ----------------------------------------------------------- replays

  /** Closing an attempt, cancelling a task and creating one under its own id may be repeated. */
  predicate Repeatable(c: Call) {
    c.FinishAttempt? || c.CancelTask? || (c.CreateTask? && c.taskId.Some?)
  }

  lemma RepeatedAtOnce(l: Ledger, c: Call)
    requires Repeatable(c) && Accepted(l, c)
    ensures Accepted(Apply(l, c), c) && Apply(Apply(l, c), c) == Apply(l, c)
  {
    if c.FinishAttempt? && l.attempts[c.attempt].status == RunningAttempt {
      FinishStores(l, c);
    }
  }

  /** In every later ledger the same call is accepted again and changes nothing. */
  lemma RepeatedForEver(l: Ledger, c: Call, calls: seq<Call>)
    requires Inv(l) && Repeatable(c) && Accepted(l, c)
    ensures var n := Run(Apply(l, c), calls); Accepted(n, c) && Apply(n, c) == n
  {
    var m := Apply(l, c);
    ApplyKeepsInv(l, c);
    RunKeepsInv(m, calls);
    RepeatedAtOnce(l, c);
    RepeatedLater(m, Run(m, calls), c);
  }

  lemma RepeatedLater(m: Ledger, n: Ledger, c: Call)
    requires Extends(m, n) && Repeatable(c) && Accepted(m, c) && Apply(m, c) == m
    requires c.FinishAttempt? ==> m.attempts[c.attempt].status != RunningAttempt
    requires c.CancelTask? ==> m.tasks[c.task].status == Cancelled
    requires c.CreateTask? ==> TargetId(c) in m.tasks
    ensures Accepted(n, c) && Apply(n, c) == n
  {
    if c.FinishAttempt? {
      assert AttemptKept(m, n, c.attempt);
    } else if c.CancelTask? {
      assert TaskKept(m, n, c.task);
    } else {
      assert TaskKept(m, n, TargetId(c));
    }
  }

  /** A different outcome of a closed attempt is refused in every later ledger. */
  lemma OtherOutcomeRefused(l: Ledger, c: Call, calls: seq<Call>, d: Call)
    requires Inv(l) && c.FinishAttempt? && Accepted(l, c)
    requires d.FinishAttempt? && d.attempt == c.attempt
    requires (d.status, d.summary, d.evidence, d.transcript, d.usage)
             != (c.status, c.summary, c.evidence, c.transcript, c.usage)
    ensures !Accepted(Run(Apply(l, c), calls), d)
  {
    var m := Apply(l, c);
    ApplyKeepsInv(l, c);
    RunKeepsInv(m, calls);
    if l.attempts[c.attempt].status == RunningAttempt {
      FinishStores(l, c);
    }
    assert AttemptKept(m, Run(m, calls), c.attempt);
  }

  /** A different definition of a task is refused in every later ledger, and one under a generated id
      never touches a task that is there. */
  lemma OtherDefinitionRefused(l: Ledger, c: Call, calls: seq<Call>, d: Call)
    requires Inv(l) && c.CreateTask? && Accepted(l, c)
    requires d.CreateTask? && TargetId(d) == TargetId(c)
    requires d.taskId.None?
             || d.definition.(acceptanceCriteria := Cleaned(d.definition.acceptanceCriteria))
                != c.definition.(acceptanceCriteria := Cleaned(c.definition.acceptanceCriteria))
    ensures !Accepted(Run(Apply(l, c), calls), d)
  {
    var m := Apply(l, c);
    ApplyKeepsInv(l, c);
    RunKeepsInv(m, calls);
    assert TaskKept(m, Run(m, calls), TargetId(c));
  }
}
