/** A direct Codex review closes what it approves. */
module CodexReview {
  import opened Models
  import opened TaskLedger
  import opened LedgerInvariants
  import opened NeverStuck
  import opened Store
  import opened CodexTargets
  import Execution

  const REVIEWER := "reviewer_codex"
  const REVIEW_PROVIDER := "openai"

  // ------------------------------------------------- recording the verdict

  /** The structured result of a review run; the loader admits only nonempty evidence. */
  datatype Payload = Payload(verdict: string, summary: string, issues: seq<string>, evidence: seq<string>)

  /** The generated ids and clock readings that the recorded reviews receive, in order. */
  datatype Stamp = Stamp(id: nat, now: nat)

  function ReviewCalls(t: string, pending: seq<nat>, p: Payload, env: Execution.Environment,
                       stamps: seq<Stamp>): seq<Call>
    requires |stamps| == |pending|
  {
    if pending == [] then []
    else [RecordReview(t, REVIEWER, p.verdict, p.summary, pending[0], p.issues, p.evidence, env,
                       stamps[0].id, stamps[0].now)]
         + ReviewCalls(t, pending[1..], p, env, stamps[1..])
  }

  function ClosingCall(t: string, p: Payload): Call {
    if p.verdict == "approve" then CompleteTask(t, p.summary) else Transition(t, Blocked, p.summary)
  }

  lemma {:induction false} ReviewCallsAt(t: string, pending: seq<nat>, p: Payload,
                                         env: Execution.Environment, stamps: seq<Stamp>, k: nat)
    requires |stamps| == |pending| && k < |pending|
    ensures ReviewCalls(t, pending[..k + 1], p, env, stamps[..k + 1])
            == ReviewCalls(t, pending[..k], p, env, stamps[..k])
               + [RecordReview(t, REVIEWER, p.verdict, p.summary, pending[k], p.issues, p.evidence, env,
                               stamps[k].id, stamps[k].now)]
  {
    assert pending[..k + 1][1..] == pending[1..][..k] && stamps[..k + 1][1..] == stamps[1..][..k];
    if k > 0 {
      assert pending[..k][1..] == pending[1..][..k - 1] && stamps[..k][1..] == stamps[1..][..k - 1];
      ReviewCallsAt(t, pending[1..], p, env, stamps[1..], k - 1);
    }
  }

  /** Record one review per target, then close the task or block it. An exception stops at the
      first refused call, with everything before it recorded. */
  method RecordCodexReview(store: TaskStore, t: string, pending: seq<nat>, p: Payload,
                           env: Execution.Environment, stamps: seq<Stamp>)
    returns (error: Option<Refusal>)
    requires store.Valid() && |stamps| == |pending|
    modifies store
    ensures store.Valid()
    ensures var l := old(store.State());
            var calls := ReviewCalls(t, pending, p, env, stamps) + [ClosingCall(t, p)];
            && (error.None? <==> AllTaken(l, calls))
            && (error.None? ==> store.State() == Run(l, calls))
    ensures error.Some? ==>
              StoppedAt(old(store.State()), store.State(), t, pending, p, env, stamps, error.value)
  {
    ghost var l := store.State();
    var k := 0;
    while k < |pending|
      invariant 0 <= k <= |pending| && store.Valid()
      invariant Recorded(l, store.State(), t, pending, p, env, stamps, k)
    {
      RecordedNext(l, store.State(), t, pending, p, env, stamps, k);
      var refused := RecordOne(store, t, pending[k], p, env, stamps[k]);
      if refused.Some? {
        Refused(l, t, pending, p, env, stamps, k + 1);
        StoppedHere(l, store.State(), t, pending, p, env, stamps, k, refused.value);
        return refused;
      }
      k := k + 1;
    }
    RecordedAll(l, store.State(), t, pending, p, env, stamps);
    error := CloseReviewed(store, t, p);
    if error.Some? {
      StoppedHere(l, store.State(), t, pending, p, env, stamps, k, error.value);
    }
  }

  lemma StoppedHere(l: Ledger, m: Ledger, t: string, pending: seq<nat>, p: Payload,
                    env: Execution.Environment, stamps: seq<Stamp>, k: nat, error: Refusal)
    requires |stamps| == |pending| && k <= |pending| && Recorded(l, m, t, pending, p, env, stamps, k)
    requires RefusalOf(m, NextCall(t, pending, p, env, stamps, k)) == Some(error)
    ensures StoppedAt(l, m, t, pending, p, env, stamps, error)
  {
  }

  function ReviewCall(t: string, i: nat, p: Payload, env: Execution.Environment, stamp: Stamp): Call {
    RecordReview(t, REVIEWER, p.verdict, p.summary, i, p.issues, p.evidence, env, stamp.id, stamp.now)
  }

  method RecordOne(store: TaskStore, t: string, i: nat, p: Payload, env: Execution.Environment, stamp: Stamp)
    returns (error: Option<Refusal>)
    requires store.Valid()
    modifies store
    ensures store.Valid() && store.State() == Apply(old(store.State()), ReviewCall(t, i, p, env, stamp))
    ensures error == RefusalOf(old(store.State()), ReviewCall(t, i, p, env, stamp))
    ensures error.Some? ==> store.State() == old(store.State())
  {
    var r := store.RecordReview(t, REVIEWER, p.verdict, p.summary, i, p.issues, p.evidence, env,
                                stamp.id, stamp.now);
    return if r.Failure? then Some(r.error) else None;
  }

  /** The first k reviews were accepted and led from l to m. */
  ghost predicate Recorded(l: Ledger, m: Ledger, t: string, pending: seq<nat>, p: Payload,
                           env: Execution.Environment, stamps: seq<Stamp>, k: nat)
    requires |stamps| == |pending| && k <= |pending|
  {
    var calls := ReviewCalls(t, pending[..k], p, env, stamps[..k]);
    AllTaken(l, calls) && m == Run(l, calls)
  }

  /** The call that follows the first k reviews. */
  function NextCall(t: string, pending: seq<nat>, p: Payload, env: Execution.Environment, stamps: seq<Stamp>,
                    k: nat): Call
    requires |stamps| == |pending| && k <= |pending|
  {
    if k < |pending| then ReviewCall(t, pending[k], p, env, stamps[k]) else ClosingCall(t, p)
  }

  /** A refused call leaves exactly the reviews before it recorded, and is the one reported. */
  ghost predicate StoppedAt(l: Ledger, m: Ledger, t: string, pending: seq<nat>, p: Payload,
                            env: Execution.Environment, stamps: seq<Stamp>, error: Refusal)
    requires |stamps| == |pending|
  {
    exists k: nat | k <= |pending| ::
      Recorded(l, m, t, pending, p, env, stamps, k)
      && RefusalOf(m, NextCall(t, pending, p, env, stamps, k)) == Some(error)
  }

  lemma RecordedNext(l: Ledger, m: Ledger, t: string, pending: seq<nat>, p: Payload,
                     env: Execution.Environment, stamps: seq<Stamp>, k: nat)
    requires |stamps| == |pending| && k < |pending| && Recorded(l, m, t, pending, p, env, stamps, k)
    ensures var c := ReviewCall(t, pending[k], p, env, stamps[k]);
            && (Accepted(m, c) ==> Recorded(l, Apply(m, c), t, pending, p, env, stamps, k + 1))
            && (!Accepted(m, c) ==> !AllTaken(l, ReviewCalls(t, pending[..k + 1], p, env, stamps[..k + 1])))
  {
    var c := ReviewCall(t, pending[k], p, env, stamps[k]);
    ReviewCallsAt(t, pending, p, env, stamps, k);
    OneTaken(m, c);
    AllTakenAppend(l, ReviewCalls(t, pending[..k], p, env, stamps[..k]), [c]);
  }

  lemma RecordedAll(l: Ledger, m: Ledger, t: string, pending: seq<nat>, p: Payload,
                    env: Execution.Environment, stamps: seq<Stamp>)
    requires |stamps| == |pending| && Recorded(l, m, t, pending, p, env, stamps, |pending|)
    ensures var calls := ReviewCalls(t, pending, p, env, stamps) + [ClosingCall(t, p)];
            && AllTaken(l, calls) == Accepted(m, ClosingCall(t, p))
            && Run(l, calls) == Apply(m, ClosingCall(t, p))
  {
    assert pending[..|pending|] == pending && stamps[..|pending|] == stamps;
    OneTaken(m, ClosingCall(t, p));
    AllTakenAppend(l, ReviewCalls(t, pending, p, env, stamps), [ClosingCall(t, p)]);
  }

  method CloseReviewed(store: TaskStore, t: string, p: Payload) returns (error: Option<Refusal>)
    requires store.Valid()
    modifies store
    ensures store.Valid() && store.State() == Apply(old(store.State()), ClosingCall(t, p))
    ensures error == RefusalOf(old(store.State()), ClosingCall(t, p))
    ensures error.Some? ==> store.State() == old(store.State())
  {
    var r;
    if p.verdict == "approve" {
      r := store.CompleteTask(t, p.summary);
    } else {
      r := store.Transition(t, Blocked, p.summary);
    }
    return if r.Failure? then Some(r.error) else None;
  }

  /** A refused prefix refuses the whole sequence. */
  lemma {:induction false} Refused(l: Ledger, t: string, pending: seq<nat>, p: Payload,
                                   env: Execution.Environment, stamps: seq<Stamp>, k: nat)
    requires |stamps| == |pending| && k <= |pending|
    requires !AllTaken(l, ReviewCalls(t, pending[..k], p, env, stamps[..k]))
    ensures !AllTaken(l, ReviewCalls(t, pending, p, env, stamps) + [ClosingCall(t, p)])
    decreases |pending| - k
  {
    if k == |pending| {
      assert pending[..k] == pending && stamps[..k] == stamps;
      AllTakenAppend(l, ReviewCalls(t, pending, p, env, stamps), [ClosingCall(t, p)]);
    } else {
      var done := ReviewCalls(t, pending[..k], p, env, stamps[..k]);
      ReviewCallsAt(t, pending, p, env, stamps, k);
      AllTakenAppend(l, done, [RecordReview(t, REVIEWER, p.verdict, p.summary, pending[k], p.issues,
                                            p.evidence, env, stamps[k].id, stamps[k].now)]);
      Refused(l, t, pending, p, env, stamps, k + 1);
    }
  }

  // ------------------------------------------------- an approval closes

  /** Generated ids are new, and the clock is ahead and advances from stamp to stamp. */
  predicate GoodStamps(l: Ledger, stamps: seq<Stamp>) {
    && (forall k | 0 <= k < |stamps| :: stamps[k].id !in l.reviews)
    && (forall r, k | r in l.reviews && 0 <= k < |stamps| :: l.reviews[r].createdAt < stamps[k].now)
    && (forall j, k | 0 <= j < k < |stamps| ::
          stamps[j].id != stamps[k].id && stamps[j].now < stamps[k].now)
  }

  predicate Reviewable(l: Ledger, t: string, i: nat) {
    IsImplementation(l, t, i) && l.attempts[i].status == Succeeded
    && l.attempts[i].provider != REVIEW_PROVIDER
  }

  lemma CodexReviewer(env: Execution.Environment)
    requires Execution.IsReviewer(REVIEWER, env)
    ensures Execution.Resolve(REVIEWER, None, None, env).value.provider == Some(REVIEW_PROVIDER)
  {
  }

  /** One verdict recorded: accepted, and the newest of its attempt. */
  lemma OneVerdict(l: Ledger, t: string, i: nat, p: Payload, env: Execution.Environment, stamp: Stamp)
    returns (c: Call)
    requires IdsOk(l) && t in l.tasks && Reviewable(l, t, i) && GoodStamps(l, [stamp])
    requires ParseVerdict(p.verdict).Some? && p.evidence != [] && Execution.IsReviewer(REVIEWER, env)
    ensures c == RecordReview(t, REVIEWER, p.verdict, p.summary, i, p.issues, p.evidence, env,
                              stamp.id, stamp.now)
    ensures Accepted(l, c)
    ensures AddsReview(l, Apply(l, c), stamp.id, NewReview(c))
    ensures NewReview(c).task == t && NewReview(c).attempt == i && NewReview(c).createdAt == stamp.now
    ensures Approves(NewReview(c), l.attempts[i].provider) <==> p.verdict == "approve"
  {
    c := RecordReview(t, REVIEWER, p.verdict, p.summary, i, p.issues, p.evidence, env,
                      stamp.id, stamp.now);
    CodexReviewer(env);
    VerdictParses(p.verdict);
    assert [stamp][0] == stamp;
    assert ReviewReadRefusal(l, c).None?;
  }

  lemma VerdictParses(text: string)
    ensures ParseVerdict(text) == Some(Models.Approve) <==> text == "approve"
  {
  }

  /** Recording the verdict on the targets makes it the newest of each of them, and of nothing else. */
  lemma {:induction false} ReviewsApprove(l: Ledger, t: string, pending: seq<nat>, p: Payload,
                                          env: Execution.Environment, stamps: seq<Stamp>)
    requires IdsOk(l) && t in l.tasks && |stamps| == |pending| && GoodStamps(l, stamps)
    requires forall i | i in pending :: Reviewable(l, t, i)
    requires Distinct(pending)
    requires ParseVerdict(p.verdict).Some? && p.evidence != [] && Execution.IsReviewer(REVIEWER, env)
    ensures var calls := ReviewCalls(t, pending, p, env, stamps);
            var m := Run(l, calls);
            && AllTaken(l, calls) && m.tasks == l.tasks && m.attempts == l.attempts
            && forall i | i in l.attempts ::
                 NewestReviewApproves(m, t, i)
                 == if i in pending then p.verdict == "approve" else NewestReviewApproves(l, t, i)
    decreases |pending|
  {
    if pending != [] {
      var i := pending[0];
      var rest := pending[1..];
      assert GoodStamps(l, [stamps[0]]);
      var c := OneVerdict(l, t, i, p, env, stamps[0]);
      var m := Apply(l, c);
      StampsAdvance(l, m, stamps, NewReview(c));
      forall k | k in rest ensures Reviewable(m, t, k) {
        assert Reviewable(l, t, k);
      }
      ReviewsApprove(m, t, rest, p, env, stamps[1..]);
      var n := Run(m, ReviewCalls(t, rest, p, env, stamps[1..]));
      forall k | k in l.attempts
        ensures NewestReviewApproves(m, t, k)
                == if k == i then p.verdict == "approve" else NewestReviewApproves(l, t, k)
      {
        NewestAfter(l, m, t, stamps[0].id, NewReview(c), k);
      }
      assert i !in rest;
      var calls := ReviewCalls(t, pending, p, env, stamps);
      assert calls[0] == c && calls[1..] == ReviewCalls(t, rest, p, env, stamps[1..]);
      assert Run(l, calls) == n;
    }
  }

  lemma StampsAdvance(l: Ledger, m: Ledger, stamps: seq<Stamp>, r: Review)
    requires stamps != [] && GoodStamps(l, stamps) && m.reviews == l.reviews[stamps[0].id := r]
    requires r.createdAt == stamps[0].now
    ensures GoodStamps(m, stamps[1..])
  {
  }

  // --------------------------------------------- the whole review run

  lemma StartsCoordinator(l: Ledger, c: Call)
    requires c.StartAttempt? && c.agent == REVIEWER && c.workItem == "review"
    requires c.provider == Some(REVIEW_PROVIDER) && IdentityOf(c).Success?
    requires c.task in l.tasks && l.tasks[c.task].status == Running && c.attemptId !in l.attempts
    ensures Accepted(l, c)
    ensures var m := Apply(l, c);
            && OnlyCoordinated(l, m, c.task, c.attemptId) && m.tasks == l.tasks
            && m.attempts[c.attemptId].status == RunningAttempt
  {
  }

  lemma Reopens(l: Ledger, t: string, reason: string)
    requires t in l.tasks && !Absorbing(l.tasks[t].status)
    ensures Accepted(l, Transition(t, Running, reason))
    ensures var m := Apply(l, Transition(t, Running, reason));
            && m.attempts == l.attempts && m.reviews == l.reviews && m.tasks.Keys == l.tasks.Keys
            && m.tasks[t].status == Running
  {
  }

  lemma Taken2(l: Ledger, a: Call, b: Call)
    requires Accepted(l, a) && Accepted(Apply(l, a), b)
    ensures AllTaken(l, [a, b]) && Run(l, [a, b]) == Apply(Apply(l, a), b)
  {
    OneTaken(l, a);
    OneTaken(Apply(l, a), b);
    AllTakenAppend(l, [a], [b]);
    assert [a] + [b] == [a, b];
  }

  /** What identifies a review run: its attempt id, clock reading, model, process and evidence. */
  datatype Session = Session(id: nat, now: nat, model: Option<string>, pid: int, summary: string,
                             evidence: seq<string>)

  function Opening(t: string, env: Execution.Environment, s: Session): seq<Call> {
    [Transition(t, Running, "starting codex-review review"),
     StartAttempt(t, REVIEWER, "review", Some(REVIEW_PROVIDER), s.model, env, s.id, s.now)]
  }

  function Ending(t: string, s: Session): seq<Call> {
    [FinishAttempt(s.id, Succeeded, s.summary, s.evidence, None, None),
     Transition(t, NeedsReview, "review exit 0")]
  }

  predicate GoodSession(l: Ledger, env: Execution.Environment, s: Session) {
    && s.id !in l.attempts && s.pid > 0 && s.evidence != []
    && Execution.Resolve(REVIEWER, Some(REVIEW_PROVIDER), s.model, env).Success?
  }

  /** Ledger m differs from l by the task's status and a coordinator attempt only. */
  ghost predicate OnlyCoordinated(l: Ledger, m: Ledger, t: string, id: nat) {
    && m.reviews == l.reviews && m.tasks.Keys == l.tasks.Keys && id !in l.attempts
    && id in m.attempts && m.attempts == l.attempts[id := m.attempts[id]]
    && m.attempts[id].kind == Coordinator && m.attempts[id].task == t
  }

  lemma SessionOpens(l: Ledger, t: string, env: Execution.Environment, s: Session)
    requires t in l.tasks && !Absorbing(l.tasks[t].status) && GoodSession(l, env, s)
    ensures AllTaken(l, Opening(t, env, s))
    ensures var m := Run(l, Opening(t, env, s));
            && OnlyCoordinated(l, m, t, s.id) && m.tasks[t].status == Running
            && m.attempts[s.id].status == RunningAttempt
  {
    var calls := Opening(t, env, s);
    Reopens(l, t, "starting codex-review review");
    StartsCoordinator(Apply(l, calls[0]), calls[1]);
    Taken2(l, calls[0], calls[1]);
  }

  lemma SessionEnds(l: Ledger, m: Ledger, t: string, s: Session)
    requires OnlyCoordinated(l, m, t, s.id) && t in m.tasks && m.tasks[t].status == Running
    requires m.attempts[s.id].status == RunningAttempt && s.evidence != []
    ensures AllTaken(m, Ending(t, s))
    ensures var n := Run(m, Ending(t, s));
            OnlyCoordinated(l, n, t, s.id) && n.tasks[t].status == NeedsReview
  {
    Taken2(m, Ending(t, s)[0], Ending(t, s)[1]);
  }

  lemma SessionTracked(l: Ledger, m: Ledger, t: string, s: Session)
    requires OnlyCoordinated(l, m, t, s.id) && m.attempts[s.id].status == RunningAttempt && s.pid > 0
    ensures AllTaken(m, [SetAttemptProcess(s.id, s.pid)])
    ensures var n := Run(m, [SetAttemptProcess(s.id, s.pid)]);
            && OnlyCoordinated(l, n, t, s.id) && n.tasks == m.tasks
            && n.attempts[s.id].status == RunningAttempt
  {
  }

  /** The store calls of a review run whose process ends well, before its verdict is recorded. */
  function SessionCalls(t: string, env: Execution.Environment, s: Session): seq<Call> {
    Opening(t, env, s) + [SetAttemptProcess(s.id, s.pid)] + Ending(t, s)
  }

  /** A review run by itself leaves the implementation work and its reviews as they were. */
  lemma SessionLeavesWork(l: Ledger, t: string, env: Execution.Environment, s: Session)
    requires t in l.tasks && !Absorbing(l.tasks[t].status) && GoodSession(l, env, s)
    ensures AllTaken(l, SessionCalls(t, env, s))
    ensures var m := Run(l, SessionCalls(t, env, s));
            && SameWork(l, m, t) && m.reviews == l.reviews
            && t in m.tasks && m.tasks[t].status == NeedsReview
  {
    SessionOpens(l, t, env, s);
    var l2 := Run(l, Opening(t, env, s));
    SessionTracked(l, l2, t, s);
    AllTakenAppend(l, Opening(t, env, s), [SetAttemptProcess(s.id, s.pid)]);
    var l3 := Run(l2, [SetAttemptProcess(s.id, s.pid)]);
    SessionEnds(l, l3, t, s);
    AllTakenAppend(l, Opening(t, env, s) + [SetAttemptProcess(s.id, s.pid)], Ending(t, s));
  }

  /** What an accepted selection of targets means for the latest attempts. */
  ghost predicate Targeted(l: Ledger, t: string, pending: seq<nat>) {
    && HasImplementation(l, t) && Distinct(pending)
    && (forall i | IsLatest(l, t, i) :: Reviewable(l, t, i))
    && (forall i :: i in pending <==> IsLatest(l, t, i) && !HasReview(l, t, i))
  }

  /** The selection decides it, with distinct start times. */
  lemma SelectedIsTargeted(l: Ledger, t: string, chosen: set<nat>, pending: seq<nat>)
    requires DistinctStarts(l) && Selected(l, t, REVIEW_PROVIDER, chosen, Success(pending))
    ensures Targeted(l, t, pending)
  {
    forall i ensures i in chosen <==> IsLatest(l, t, i) {
      OneChoice(l, t, chosen, i);
    }
  }

  /** What had a review before this one is approved by its newest review. */
  ghost predicate ReviewedApprove(l: Ledger, t: string) {
    forall i | IsLatest(l, t, i) && HasReview(l, t, i) :: NewestReviewApproves(l, t, i)
  }

  lemma NothingRuns(l: Ledger, t: string)
    requires RunningIsLatest(l)
    requires forall i | IsLatest(l, t, i) :: l.attempts[i].status == Succeeded
    ensures !HasRunningImplementation(l, t)
  {
  }

  lemma SameWorkSameReadiness(l: Ledger, m: Ledger, t: string)
    requires SameWork(l, m, t)
    ensures forall i :: IsLatest(m, t, i) == IsLatest(l, t, i)
    ensures HasImplementation(l, t) ==> HasImplementation(m, t)
    ensures HasRunningImplementation(m, t) ==> HasRunningImplementation(l, t)
  {
  }

  lemma SameReviewsSameNewest(l: Ledger, m: Ledger, t: string, i: nat)
    requires m.reviews == l.reviews && i in l.attempts && i in m.attempts
    requires m.attempts[i] == l.attempts[i]
    ensures NewestReviewApproves(m, t, i) == NewestReviewApproves(l, t, i)
  {
  }

  /** With every target approved, the completion is accepted exactly when the other latest attempts
      are approved too. */
  lemma TargetsComplete(l: Ledger, t: string, pending: seq<nat>, n: Ledger)
    requires Targeted(l, t, pending) && RunningIsLatest(l) && SameWork(l, n, t) && IdsOk(n)
    requires t in n.tasks && n.tasks[t].status == NeedsReview
    requires forall i | IsLatest(l, t, i) && i in n.attempts ::
               NewestReviewApproves(n, t, i) == (i in pending || NewestReviewApproves(l, t, i))
    ensures CompletionRefusal(n, t).None? <==> ReviewedApprove(l, t)
  {
    SameWorkSameReadiness(l, n, t);
    NothingRuns(l, t);
    if ReviewedApprove(l, t) {
      forall i | i in n.attempts && IsLatest(n, t, i) ensures Closable(n, t, i) {
        assert IsLatest(l, t, i);
      }
    }
    if CompletionRefusal(n, t).None? {
      forall i | IsLatest(l, t, i) && HasReview(l, t, i) ensures NewestReviewApproves(l, t, i) {
        assert IsImplementation(l, t, i) && IsLatest(n, t, i);
        assert Closable(n, t, i);
      }
    }
  }

  /** The calls of a whole review run. */
  function DirectReview(t: string, pending: seq<nat>, p: Payload, env: Execution.Environment, s: Session,
                        stamps: seq<Stamp>): seq<Call>
    requires |stamps| == |pending|
  {
    SessionCalls(t, env, s) + (ReviewCalls(t, pending, p, env, stamps) + [ClosingCall(t, p)])
  }

  /** Direct Codex review closes what it approves: on a clock that advances and with nobody else
      writing, once the targets were selected and all of them approved, every call of the run is
      accepted and the task completed if and only if every latest attempt that was already reviewed
      is approved by its newest review; otherwise the task is left in review. */
  lemma DirectReviewClosesTask(before: seq<Call>, l: Ledger, t: string, chosen: set<nat>, pending: seq<nat>,
                               p: Payload, env: Execution.Environment, s: Session, stamps: seq<Stamp>)
    requires InTimeRun(EMPTY, before) && l == Run(EMPTY, before)
    requires t in l.tasks && !Absorbing(l.tasks[t].status)
    requires Selected(l, t, REVIEW_PROVIDER, chosen, Success(pending))
    requires GoodSession(l, env, s) && Execution.IsReviewer(REVIEWER, env)
    requires |stamps| == |pending| && GoodStamps(l, stamps)
    requires p.verdict == "approve" && p.evidence != []
    ensures var calls := DirectReview(t, pending, p, env, s, stamps);
            && (AllTaken(l, calls) <==> ReviewedApprove(l, t))
            && StatusOf(Run(l, calls), t) == Some(if ReviewedApprove(l, t) then Completed else NeedsReview)
  {
    RunKeepsInv(EMPTY, before);
    InTimeRunsAreClocked(EMPTY, before);
    SelectedIsTargeted(l, t, chosen, pending);
    SessionLeavesWork(l, t, env, s);
    var m := Run(l, SessionCalls(t, env, s));
    RunKeepsInv(l, SessionCalls(t, env, s));
    ApprovalsComplete(l, m, t, pending, p, env, stamps);
    AllTakenAppend(l, SessionCalls(t, env, s),
                   ReviewCalls(t, pending, p, env, stamps) + [ClosingCall(t, p)]);
  }

  /** A verdict that does not approve always goes through: every call is accepted, the task ends
      blocked, and no target is approved by its newest review. */
  lemma DirectReviewBlocksTask(before: seq<Call>, l: Ledger, t: string, chosen: set<nat>, pending: seq<nat>,
                               p: Payload, env: Execution.Environment, s: Session, stamps: seq<Stamp>)
    requires InTimeRun(EMPTY, before) && l == Run(EMPTY, before)
    requires t in l.tasks && !Absorbing(l.tasks[t].status)
    requires Selected(l, t, REVIEW_PROVIDER, chosen, Success(pending))
    requires GoodSession(l, env, s) && Execution.IsReviewer(REVIEWER, env)
    requires |stamps| == |pending| && GoodStamps(l, stamps)
    requires ParseVerdict(p.verdict).Some? && p.verdict != "approve" && p.evidence != []
    ensures var calls := DirectReview(t, pending, p, env, s, stamps);
            && AllTaken(l, calls) && StatusOf(Run(l, calls), t) == Some(Blocked)
            && forall i | i in pending && i in Run(l, calls).attempts :: !NewestReviewApproves(Run(l, calls), t, i)
  {
    RunKeepsInv(EMPTY, before);
    InTimeRunsAreClocked(EMPTY, before);
    SelectedIsTargeted(l, t, chosen, pending);
    SessionLeavesWork(l, t, env, s);
    var m := Run(l, SessionCalls(t, env, s));
    RunKeepsInv(l, SessionCalls(t, env, s));
    ObjectionsBlock(l, m, t, pending, p, env, stamps);
    AllTakenAppend(l, SessionCalls(t, env, s),
                   ReviewCalls(t, pending, p, env, stamps) + [ClosingCall(t, p)]);
  }

  lemma ObjectionsBlock(l: Ledger, m: Ledger, t: string, pending: seq<nat>, p: Payload,
                        env: Execution.Environment, stamps: seq<Stamp>)
    requires Targeted(l, t, pending) && Clocked(l) && IdsOk(m)
    requires SameWork(l, m, t) && m.reviews == l.reviews
    requires t in m.tasks && m.tasks[t].status == NeedsReview
    requires |stamps| == |pending| && GoodStamps(l, stamps)
    requires ParseVerdict(p.verdict).Some? && p.verdict != "approve" && p.evidence != []
    requires Execution.IsReviewer(REVIEWER, env)
    ensures var calls := ReviewCalls(t, pending, p, env, stamps) + [ClosingCall(t, p)];
            && AllTaken(m, calls) && StatusOf(Run(m, calls), t) == Some(Blocked)
            && forall i | i in pending && i in Run(m, calls).attempts :: !NewestReviewApproves(Run(m, calls), t, i)
  {
    TargetsReviewable(l, m, t, pending);
    NothingRunsLater(l, m, t);
    ObjectionsRecorded(m, t, pending, p, env, stamps);
    BlocksAfter(m, ReviewCalls(t, pending, p, env, stamps), t, pending, p);
  }

  lemma ObjectionsRecorded(m: Ledger, t: string, pending: seq<nat>, p: Payload, env: Execution.Environment,
                           stamps: seq<Stamp>)
    requires IdsOk(m) && t in m.tasks && m.tasks[t].status == NeedsReview && !HasRunningImplementation(m, t)
    requires Distinct(pending) && forall i | i in pending :: Reviewable(m, t, i)
    requires |stamps| == |pending| && GoodStamps(m, stamps)
    requires ParseVerdict(p.verdict).Some? && p.verdict != "approve" && p.evidence != []
    requires Execution.IsReviewer(REVIEWER, env)
    ensures var calls := ReviewCalls(t, pending, p, env, stamps);
            var n := Run(m, calls);
            && AllTaken(m, calls) && StatusOf(n, t) == Some(NeedsReview) && !HasRunningImplementation(n, t)
            && forall i | i in pending && i in n.attempts :: !NewestReviewApproves(n, t, i)
  {
    ReviewsApprove(m, t, pending, p, env, stamps);
  }

  lemma NothingRunsLater(l: Ledger, m: Ledger, t: string)
    requires SameWork(l, m, t) && RunningIsLatest(l)
    requires forall i | IsLatest(l, t, i) :: Reviewable(l, t, i)
    ensures !HasRunningImplementation(m, t)
  {
    SameWorkSameReadiness(l, m, t);
    NothingRuns(l, t);
  }

  lemma TargetsReviewable(l: Ledger, m: Ledger, t: string, pending: seq<nat>)
    requires Targeted(l, t, pending) && SameWork(l, m, t)
    ensures forall i | i in pending :: Reviewable(m, t, i)
  {
    forall i | i in pending ensures Reviewable(m, t, i) {
      assert IsLatest(l, t, i);
      assert Reviewable(l, t, i);
    }
  }

  lemma BlocksAfter(m: Ledger, calls: seq<Call>, t: string, pending: seq<nat>, p: Payload)
    requires AllTaken(m, calls) && p.verdict != "approve"
    requires var n := Run(m, calls);
             && StatusOf(n, t) == Some(NeedsReview) && !HasRunningImplementation(n, t)
             && forall i | i in pending && i in n.attempts :: !NewestReviewApproves(n, t, i)
    ensures var all := calls + [ClosingCall(t, p)];
            var n := Run(m, all);
            && AllTaken(m, all) && StatusOf(n, t) == Some(Blocked)
            && forall i | i in pending && i in n.attempts :: !NewestReviewApproves(n, t, i)
  {
    var n := Run(m, calls);
    BlocksReviewed(n, t, p.summary);
    OneTaken(n, ClosingCall(t, p));
    AllTakenAppend(m, calls, [ClosingCall(t, p)]);
    var last := Apply(n, ClosingCall(t, p));
    forall i | i in pending && i in last.attempts ensures !NewestReviewApproves(last, t, i) {
      SameReviewsSameNewest(n, last, t, i);
    }
  }

  lemma BlocksReviewed(n: Ledger, t: string, summary: string)
    requires StatusOf(n, t) == Some(NeedsReview) && !HasRunningImplementation(n, t)
    ensures Accepted(n, Transition(t, Blocked, summary))
    ensures var m := Apply(n, Transition(t, Blocked, summary));
            StatusOf(m, t) == Some(Blocked) && m.attempts == n.attempts && m.reviews == n.reviews
  {
  }

  lemma ApprovalsComplete(l: Ledger, m: Ledger, t: string, pending: seq<nat>, p: Payload,
                          env: Execution.Environment, stamps: seq<Stamp>)
    requires Targeted(l, t, pending) && Clocked(l) && IdsOk(m)
    requires SameWork(l, m, t) && m.reviews == l.reviews
    requires t in m.tasks && m.tasks[t].status == NeedsReview
    requires |stamps| == |pending| && GoodStamps(l, stamps)
    requires p.verdict == "approve" && p.evidence != [] && Execution.IsReviewer(REVIEWER, env)
    ensures var calls := ReviewCalls(t, pending, p, env, stamps) + [ClosingCall(t, p)];
            && (AllTaken(m, calls) <==> ReviewedApprove(l, t))
            && StatusOf(Run(m, calls), t) == Some(if ReviewedApprove(l, t) then Completed else NeedsReview)
  {
    TargetsReviewable(l, m, t, pending);
    ReviewsApprove(m, t, pending, p, env, stamps);
    var calls := ReviewCalls(t, pending, p, env, stamps);
    var n := Run(m, calls);
    forall i | IsLatest(l, t, i) && i in n.attempts
      ensures NewestReviewApproves(n, t, i) == (i in pending || NewestReviewApproves(l, t, i))
    {
      assert IsImplementation(l, t, i);
      SameReviewsSameNewest(l, m, t, i);
    }
    TargetsComplete(l, t, pending, n);
    CloseAfter(m, calls, t, p);
  }

  lemma CloseAfter(m: Ledger, calls: seq<Call>, t: string, p: Payload)
    requires AllTaken(m, calls) && p.verdict == "approve"
    ensures var n := Run(m, calls);
            var all := calls + [ClosingCall(t, p)];
            && (AllTaken(m, all) <==> CompletionRefusal(n, t).None?)
            && Run(m, all) == Apply(n, CompleteTask(t, p.summary))
            && StatusOf(Run(m, all), t)
               == if CompletionRefusal(n, t).None? then Some(Completed) else StatusOf(n, t)
  {
    OneTaken(Run(m, calls), ClosingCall(t, p));
    AllTakenAppend(m, calls, [ClosingCall(t, p)]);
    ClosingCompletes(Run(m, calls), t, p.summary);
  }

  lemma ClosingCompletes(n: Ledger, t: string, summary: string)
    ensures StatusOf(Apply(n, CompleteTask(t, summary)), t)
            == if CompletionRefusal(n, t).None? then Some(Completed) else StatusOf(n, t)
  {
  }
}
