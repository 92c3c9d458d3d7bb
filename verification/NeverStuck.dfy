/** No open task is ever stuck: accepted store calls can always lead it to completion. */
module NeverStuck {
  import opened Models
  import opened TaskLedger
  import opened LedgerInvariants
  import Execution

  /** A clock reading later than everything stored. */
  predicate ClockAhead(l: Ledger, now: nat) {
    && (forall i | i in l.attempts :: l.attempts[i].startedAt < now)
    && (forall r | r in l.reviews :: l.reviews[r].createdAt < now)
  }

  predicate InTime(l: Ledger, c: Call) {
    (c.StartAttempt? ==> ClockAhead(l, c.now)) && (c.RecordReview? ==> ClockAhead(l, c.now))
  }

  /** Every call is accepted where it stands. */
  predicate AllTaken(l: Ledger, calls: seq<Call>)
    decreases |calls|
  {
    calls == [] || (Accepted(l, calls[0]) && AllTaken(Apply(l, calls[0]), calls[1..]))
  }

  lemma {:induction false} AllTakenAppend(l: Ledger, first: seq<Call>, rest: seq<Call>)
    ensures AllTaken(l, first + rest) <==> AllTaken(l, first) && AllTaken(Run(l, first), rest)
    ensures Run(l, first + rest) == Run(Run(l, first), rest)
    decreases |first|
  {
    RunAppend(l, first, rest);
    if first == [] {
      assert first + rest == rest;
    } else {
      var all := first + rest;
      assert all[0] == first[0] && all[1..] == first[1..] + rest;
      AllTakenAppend(Apply(l, first[0]), first[1..], rest);
    }
  }

  lemma OneTaken(l: Ledger, c: Call)
    ensures AllTaken(l, [c]) == Accepted(l, c) && Run(l, [c]) == Apply(l, c)
  {
  }

  /** Every stamp is later than what is stored when it is taken. */
  predicate InTimeRun(l: Ledger, calls: seq<Call>)
    decreases |calls|
  {
    calls == [] || (InTime(l, calls[0]) && InTimeRun(Apply(l, calls[0]), calls[1..]))
  }

  lemma {:induction false} InTimeAppend(l: Ledger, first: seq<Call>, rest: seq<Call>)
    ensures InTimeRun(l, first + rest) <==> InTimeRun(l, first) && InTimeRun(Run(l, first), rest)
    decreases |first|
  {
    if first == [] {
      assert first + rest == rest;
    } else {
      var all := first + rest;
      assert all[0] == first[0] && all[1..] == first[1..] + rest;
      InTimeAppend(Apply(l, first[0]), first[1..], rest);
    }
  }

  /** Every call is accepted where it stands, under a clock that keeps advancing. */
  predicate AllAccepted(l: Ledger, calls: seq<Call>) {
    AllTaken(l, calls) && InTimeRun(l, calls)
  }

  lemma AllAcceptedAppend(l: Ledger, first: seq<Call>, rest: seq<Call>)
    ensures AllAccepted(l, first + rest) <==> AllAccepted(l, first) && AllAccepted(Run(l, first), rest)
    ensures Run(l, first + rest) == Run(Run(l, first), rest)
  {
    AllTakenAppend(l, first, rest);
    InTimeAppend(l, first, rest);
  }

  lemma OneCall(l: Ledger, c: Call)
    requires Accepted(l, c) && InTime(l, c)
    ensures AllAccepted(l, [c]) && Run(l, [c]) == Effect(l, c)
  {
  }

  lemma {:induction false} Bound(s: set<nat>) returns (n: nat)
    ensures forall x | x in s :: x < n
    decreases |s|
  {
    if s == {} {
      n := 0;
    } else {
      var x :| x in s;
      var m := Bound(s - {x});
      n := if x < m then m else x + 1;
      forall y | y in s ensures y < n { assert y == x || y in s - {x}; }
    }
  }

  lemma ClockAdvances(l: Ledger) returns (now: nat)
    ensures ClockAhead(l, now)
  {
    var starts := set i | i in l.attempts :: l.attempts[i].startedAt;
    var reviewed := set r | r in l.reviews :: l.reviews[r].createdAt;
    now := Bound(starts + reviewed);
    forall i | i in l.attempts ensures l.attempts[i].startedAt < now {
      assert l.attempts[i].startedAt in starts + reviewed;
    }
    forall r | r in l.reviews ensures l.reviews[r].createdAt < now {
      assert l.reviews[r].createdAt in starts + reviewed;
    }
  }

  // ------------------------------------------- 1. close what is running

  function RunningSet(l: Ledger, t: string): set<nat> {
    set i | i in l.attempts && RunningImplementation(l, t, i)
  }

  lemma {:induction false} CloseRunning(l: Ledger, t: string) returns (calls: seq<Call>)
    requires t in l.tasks
    ensures AllAccepted(l, calls)
    ensures Run(l, calls).tasks == l.tasks && !HasRunningImplementation(Run(l, calls), t)
    decreases |RunningSet(l, t)|
  {
    if RunningSet(l, t) == {} {
      calls := [];
      forall i | i in l.attempts ensures !RunningImplementation(l, t, i) {
        assert i !in RunningSet(l, t);
      }
    } else {
      var i :| i in RunningSet(l, t);
      var c := FinishAttempt(i, FailedAttempt, "", [], None, None);
      OneCall(l, c);
      var m := Effect(l, c);
      assert RunningSet(m, t) == RunningSet(l, t) - {i};
      var rest := CloseRunning(m, t);
      AllAcceptedAppend(l, [c], rest);
      calls := [c] + rest;
    }
  }

  // ----------------------------- 2. make every latest attempt a success

  function Unfinished(l: Ledger, t: string): set<nat> {
    set i | i in l.attempts && IsLatest(l, t, i) && l.attempts[i].status != Succeeded
  }

  predicate Workable(l: Ledger, t: string) {
    t in l.tasks && l.tasks[t].status == Running && !HasRunningImplementation(l, t)
  }

  predicate AddsAttempt(l: Ledger, m: Ledger, id: nat, a: Attempt) {
    && id !in l.attempts
    && m.attempts == l.attempts[id := a]
    && a.kind == Implementation && a.status == Succeeded
    && forall i | i in l.attempts :: l.attempts[i].startedAt < a.startedAt
  }

  /** One more successful attempt at a work item, whatever came before it. */
  lemma Succeed(l: Ledger, t: string, workItem: string, env: Execution.Environment)
    returns (calls: seq<Call>, id: nat, a: Attempt)
    requires Workable(l, t) && workItem != "" && Trimmed(workItem)
    ensures AllAccepted(l, calls)
    ensures Run(l, calls).tasks == l.tasks && AddsAttempt(l, Run(l, calls), id, a)
    ensures a.task == t && a.workItem == workItem
  {
    var now := ClockAdvances(l);
    id := Bound(l.attempts.Keys);
    var start := StartAttempt(t, "builder_claude", workItem, None, None, env, id, now);
    BuilderResolves(env);
    forall i | i in l.attempts ensures !HoldsWorkItem(l, t, Strip(workItem), i) {
      assert !RunningImplementation(l, t, i);
    }
    OneCall(l, start);
    var m := Effect(l, start);
    var finish := FinishAttempt(id, Succeeded, "", ["verified"], None, None);
    OneCall(m, finish);
    AllAcceptedAppend(l, [start], [finish]);
    calls := [start] + [finish];
    a := Run(l, calls).attempts[id];
  }

  lemma BuilderResolves(env: Execution.Environment)
    ensures var identity := Execution.Resolve("builder_claude", None, None, env);
            identity.Success? && identity.value.kind == Implementation
  {
  }

  /** A new success replaces the latest attempt of its own work item and of no other. */
  lemma NewLatest(l: Ledger, m: Ledger, t: string, id: nat, a: Attempt, j: nat)
    requires AddsAttempt(l, m, id, a) && a.task == t
    ensures IsLatest(m, t, id)
    ensures j in l.attempts && l.attempts[j].workItem != a.workItem ==>
              IsLatest(m, t, j) == IsLatest(l, t, j)
    ensures j in l.attempts && l.attempts[j].workItem == a.workItem ==> !IsLatest(m, t, j)
  {
    if j in l.attempts {
      if l.attempts[j].workItem == a.workItem {
        if IsImplementation(m, t, j) {
          assert SameWorkItem(m, t, id, j);
          assert !NotLater(m, id, j);
        }
      } else {
        if IsLatest(l, t, j) {
          forall k | k in m.attempts && SameWorkItem(m, t, k, j) ensures NotLater(m, k, j) {
            assert SameWorkItem(l, t, k, j);
            assert NotLater(l, k, j);
          }
        }
        if IsLatest(m, t, j) {
          forall k | k in l.attempts && SameWorkItem(l, t, k, j) ensures NotLater(l, k, j) {
            assert SameWorkItem(m, t, k, j);
            assert NotLater(m, k, j);
          }
        }
      }
    }
  }

  lemma UnfinishedShrinks(l: Ledger, m: Ledger, t: string, id: nat, a: Attempt)
    requires AddsAttempt(l, m, id, a) && a.task == t
    ensures Unfinished(m, t) == set i | i in Unfinished(l, t) && l.attempts[i].workItem != a.workItem
    ensures !HasRunningImplementation(l, t) ==> !HasRunningImplementation(m, t)
    ensures IsImplementation(m, t, id)
  {
    forall j ensures j in Unfinished(m, t) <==>
                     j in Unfinished(l, t) && l.attempts[j].workItem != a.workItem
    {
      NewLatest(l, m, t, id, a, j);
    }
    forall i | i in m.attempts && RunningImplementation(m, t, i) ensures HasRunningImplementation(l, t) {
      assert RunningImplementation(l, t, i);
    }
  }

  lemma {:induction false} FinishAll(l: Ledger, t: string, env: Execution.Environment)
    returns (calls: seq<Call>)
    requires Inv(l) && Workable(l, t)
    ensures AllAccepted(l, calls)
    ensures Run(l, calls).tasks == l.tasks && Workable(Run(l, calls), t)
    ensures Unfinished(Run(l, calls), t) == {}
    ensures (exists i | i in l.attempts :: IsImplementation(l, t, i)) ==>
              exists i | i in Run(l, calls).attempts :: IsImplementation(Run(l, calls), t, i)
    decreases |Unfinished(l, t)|
  {
    if Unfinished(l, t) == {} {
      calls := [];
    } else {
      var i :| i in Unfinished(l, t);
      assert AttemptOk(l, l.attempts[i]);
      var first, id, a := Succeed(l, t, l.attempts[i].workItem, env);
      var m := Run(l, first);
      RunKeepsInv(l, first);
      UnfinishedShrinks(l, m, t, id, a);
      assert i in Unfinished(l, t) && i !in Unfinished(m, t);
      assert Unfinished(m, t) < Unfinished(l, t);
      SmallerSet(Unfinished(m, t), Unfinished(l, t));
      var rest := FinishAll(m, t, env);
      AllAcceptedAppend(l, first, rest);
      calls := first + rest;
    }
  }

  lemma SmallerSet(a: set<nat>, b: set<nat>)
    requires a < b
    ensures |a| < |b|
  {
    assert b == a + (b - a);
    assert |b| == |a| + |b - a|;
  }

  // ---------------------------------- 3. approve every latest attempt

  function Unapproved(l: Ledger, t: string): set<nat> {
    set i | i in l.attempts && IsLatest(l, t, i) && !NewestReviewApproves(l, t, i)
  }

  predicate AddsReview(l: Ledger, m: Ledger, id: nat, r: Review) {
    && id !in l.reviews
    && m == l.(reviews := l.reviews[id := r], log := m.log)
    && forall q | q in l.reviews :: l.reviews[q].createdAt < r.createdAt
  }

  /** A later review becomes the newest of its own attempt and leaves the others' alone. */
  lemma NewestAfter(l: Ledger, m: Ledger, t: string, id: nat, r: Review, i: nat)
    requires AddsReview(l, m, id, r) && r.task == t && i in l.attempts
    ensures r.attempt == i ==>
              (NewestReviewApproves(m, t, i) <==> Approves(r, l.attempts[i].provider))
    ensures r.attempt != i ==> NewestReviewApproves(m, t, i) == NewestReviewApproves(l, t, i)
  {
    if r.attempt == i {
      assert IsNewestReview(m, t, i, id);
      forall q | q in m.reviews && IsNewestReview(m, t, i, q) ensures q == id {
        assert Reviews(m, t, i, id);
      }
    } else {
      forall q | q in l.reviews ensures IsNewestReview(m, t, i, q) == IsNewestReview(l, t, i, q) {
        SameNewest(l, m, t, id, r, i, q);
      }
      assert !Reviews(m, t, i, id);
    }
  }

  lemma SameNewest(l: Ledger, m: Ledger, t: string, id: nat, r: Review, i: nat, q: nat)
    requires AddsReview(l, m, id, r) && r.attempt != i && q in l.reviews
    ensures IsNewestReview(m, t, i, q) == IsNewestReview(l, t, i, q)
  {
    forall p | p in l.reviews ensures Reviews(m, t, i, p) == Reviews(l, t, i, p) {
    }
    assert !Reviews(m, t, i, id);
  }

  /** One more approval, by a reviewer of another provider. */
  lemma Approve(l: Ledger, t: string, i: nat, env: Execution.Environment)
    returns (c: Call, id: nat, r: Review)
    requires Inv(l) && t in l.tasks && IsLatest(l, t, i) && l.attempts[i].status == Succeeded
    ensures Accepted(l, c) && InTime(l, c)
    ensures AddsReview(l, Effect(l, c), id, r)
    ensures r.task == t && r.attempt == i && Approves(r, l.attempts[i].provider)
  {
    var reviewer := Execution.SomeReviewerDiffers(l.attempts[i].provider, env);
    var now := ClockAdvances(l);
    id := Bound(l.reviews.Keys);
    c := RecordReview(t, reviewer, "approve", "", i, [], ["checked"], env, id, now);
    assert ParseVerdict("approve") == Some(Models.Approve);
    assert ReviewReadRefusal(l, c).None?;
    r := NewReview(c);
  }

  lemma {:induction false} ApproveAll(l: Ledger, t: string, env: Execution.Environment)
    returns (calls: seq<Call>)
    requires Inv(l) && t in l.tasks && Unfinished(l, t) == {}
    ensures AllAccepted(l, calls)
    ensures Run(l, calls).tasks == l.tasks && Run(l, calls).attempts == l.attempts
    ensures Unapproved(Run(l, calls), t) == {}
    decreases |Unapproved(l, t)|
  {
    if Unapproved(l, t) == {} {
      calls := [];
    } else {
      var i :| i in Unapproved(l, t);
      assert i !in Unfinished(l, t);
      var c, id, r := Approve(l, t, i, env);
      OneCall(l, c);
      var m := Effect(l, c);
      ApplyKeepsInv(l, c);
      UnapprovedShrinks(l, m, t, id, r);
      SameRowsSameWork(l, m, t);
      var rest := ApproveAll(m, t, env);
      AllAcceptedAppend(l, [c], rest);
      calls := [c] + rest;
    }
  }

  lemma UnapprovedShrinks(l: Ledger, m: Ledger, t: string, id: nat, r: Review)
    requires AddsReview(l, m, id, r) && r.task == t && r.attempt in Unapproved(l, t)
    requires Approves(r, l.attempts[r.attempt].provider)
    ensures Unapproved(m, t) == Unapproved(l, t) - {r.attempt}
    ensures |Unapproved(m, t)| < |Unapproved(l, t)|
  {
    forall j | j in l.attempts
      ensures j in Unapproved(m, t) <==> j in Unapproved(l, t) && j != r.attempt
    {
      SameWorkSameLatest(l, m, t, j);
      NewestAfter(l, m, t, id, r, j);
    }
    assert Unapproved(m, t) == Unapproved(l, t) - {r.attempt};
  }

  // ------------------------------------------------------- 4. the theorem

  lemma ToRunning(l: Ledger, t: string) returns (calls: seq<Call>)
    requires Inv(l) && t in l.tasks && !Absorbing(l.tasks[t].status)
    ensures AllAccepted(l, calls)
    ensures var m := Run(l, calls);
            m.attempts == l.attempts && t in m.tasks && m.tasks[t].status == Running
  {
    var c := Transition(t, Running, "");
    OneCall(l, c);
    calls := [c];
  }

  lemma ToReview(l: Ledger, t: string) returns (calls: seq<Call>)
    requires t in l.tasks && l.tasks[t].status == Running
    ensures AllAccepted(l, calls)
    ensures var m := Run(l, calls);
            && m.attempts == l.attempts && m.reviews == l.reviews
            && t in m.tasks && m.tasks[t].status == NeedsReview
  {
    var c := Transition(t, NeedsReview, "");
    OneCall(l, c);
    calls := [c];
  }

  /** From an idle running task: succeed at everything, starting a first work item if there is none. */
  lemma FinishSomething(l: Ledger, t: string, env: Execution.Environment) returns (calls: seq<Call>)
    requires Inv(l) && Workable(l, t)
    ensures AllAccepted(l, calls)
    ensures Workable(Run(l, calls), t) && Unfinished(Run(l, calls), t) == {}
    ensures exists i | i in Run(l, calls).attempts :: IsImplementation(Run(l, calls), t, i)
  {
    if exists i | i in l.attempts :: IsImplementation(l, t, i) {
      calls := FinishAll(l, t, env);
    } else {
      var first, id, a := Succeed(l, t, "primary", env);
      UnfinishedShrinks(l, Run(l, first), t, id, a);
      RunKeepsInv(l, first);
      var rest := FinishAll(Run(l, first), t, env);
      AllAcceptedAppend(l, first, rest);
      calls := first + rest;
    }
  }

  lemma ReadyToComplete(l: Ledger, t: string)
    requires IdsOk(l) && t in l.tasks && l.tasks[t].status == NeedsReview
    requires Unfinished(l, t) == {} && Unapproved(l, t) == {} && !HasRunningImplementation(l, t)
    requires exists i | i in l.attempts :: IsImplementation(l, t, i)
    ensures AllAccepted(l, [CompleteTask(t, "")])
    ensures var m := Run(l, [CompleteTask(t, "")]); t in m.tasks && m.tasks[t].status == Completed
  {
    forall i | i in l.attempts && IsLatest(l, t, i) ensures Closable(l, t, i) {
      assert i !in Unfinished(l, t) && i !in Unapproved(l, t);
    }
    OneCall(l, CompleteTask(t, ""));
  }

  lemma Close(l: Ledger, t: string, env: Execution.Environment) returns (calls: seq<Call>)
    requires Inv(l) && t in l.tasks && l.tasks[t].status == NeedsReview
    requires Unfinished(l, t) == {} && !HasRunningImplementation(l, t)
    requires exists i | i in l.attempts :: IsImplementation(l, t, i)
    ensures AllAccepted(l, calls)
    ensures t in Run(l, calls).tasks && Run(l, calls).tasks[t].status == Completed
  {
    var reviews := ApproveAll(l, t, env);
    var m := Run(l, reviews);
    RunKeepsInv(l, reviews);
    SameRowsSameWork(l, m, t);
    ReadyToComplete(m, t);
    AllAcceptedAppend(l, reviews, [CompleteTask(t, "")]);
    calls := reviews + [CompleteTask(t, "")];
  }

  /** Any open task can be brought to review with every latest attempt successful. */
  lemma ToFinishedWork(l: Ledger, t: string, env: Execution.Environment) returns (calls: seq<Call>)
    requires Inv(l) && t in l.tasks && !Absorbing(l.tasks[t].status)
    ensures AllAccepted(l, calls)
    ensures var m := Run(l, calls);
            Workable(m, t) && Unfinished(m, t) == {}
            && exists i | i in m.attempts :: IsImplementation(m, t, i)
  {
    var a := ToRunning(l, t);
    var b := CloseRunning(Run(l, a), t);
    AllAcceptedAppend(l, a, b);
    RunKeepsInv(l, a + b);
    var c := FinishSomething(Run(l, a + b), t, env);
    AllAcceptedAppend(l, a + b, c);
    calls := a + b + c;
  }

  /** No open task is ever stuck. */
  lemma NoOpenTaskIsStuck(l: Ledger, t: string, env: Execution.Environment)
    requires Reachable(l) && t in l.tasks && !Absorbing(l.tasks[t].status)
    ensures exists calls ::
              AllAccepted(l, calls) && t in Run(l, calls).tasks
              && Run(l, calls).tasks[t].status == Completed
  {
    ReachableInv(l);
    var work := ToFinishedReview(l, t, env);
    RunKeepsInv(l, work);
    var closing := Close(Run(l, work), t, env);
    AllAcceptedAppend(l, work, closing);
  }

  /** Any open task can be brought into review with nothing left to do but approve. */
  lemma ToFinishedReview(l: Ledger, t: string, env: Execution.Environment) returns (calls: seq<Call>)
    requires Inv(l) && t in l.tasks && !Absorbing(l.tasks[t].status)
    ensures AllAccepted(l, calls)
    ensures var m := Run(l, calls);
            && t in m.tasks && m.tasks[t].status == NeedsReview
            && Unfinished(m, t) == {} && !HasRunningImplementation(m, t)
            && exists i | i in m.attempts :: IsImplementation(m, t, i)
  {
    var work := ToFinishedWork(l, t, env);
    var m := Run(l, work);
    var review := ToReview(m, t);
    SameRowsSameWork(m, Run(m, review), t);
    AllAcceptedAppend(l, work, review);
    calls := work + review;
  }

  lemma SameRowsSameWork(l: Ledger, m: Ledger, t: string)
    requires m.attempts == l.attempts
    ensures Unfinished(m, t) == Unfinished(l, t)
    ensures HasRunningImplementation(m, t) == HasRunningImplementation(l, t)
    ensures (exists i | i in l.attempts :: IsImplementation(l, t, i)) ==>
              exists i | i in m.attempts :: IsImplementation(m, t, i)
  {
  }
}
