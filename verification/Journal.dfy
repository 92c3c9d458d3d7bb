/** The event log is a faithful journal: replaying a task's events gives back its state. */
module Journal {
  import opened Models
  import opened TaskLedger
  import opened LedgerInvariants

  datatype AttemptView = AttemptView(agent: string, harness: string, provider: string,
                                     model: Option<string>, kind: AttemptKind, workItem: string,
                                     status: AttemptStatus, summary: string)

  datatype ReviewView = ReviewView(reviewer: string, verdict: Verdict)

  /** What the log says about one task. */
  datatype View = View(status: Option<TaskStatus>, attempts: map<nat, AttemptView>,
                       reviews: map<nat, ReviewView>)

  const BLANK := View(None, map[], map[])

  /** The events of one task, in log order. */
  function EventsOf(log: seq<Event>, t: string): seq<Event> {
    if log == [] then []
    else
      var last := log[|log| - 1];
      EventsOf(log[..|log| - 1], t) + (if last.task == t then [last] else [])
  }

  function Read(v: View, e: Event): View {
    match e
    case TaskCreated(_, _) => v.(status := Some(Queued))
    case TaskTransitioned(_, _, to, _) => v.(status := Some(to))
    case AttemptStarted(_, i, agent, harness, provider, model, kind, workItem) =>
      v.(attempts := v.attempts[i := AttemptView(agent, harness, provider, model, kind, workItem,
                                                 RunningAttempt, "")])
    case AttemptFinished(_, i, status, summary) =>
      if i in v.attempts
      then v.(attempts := v.attempts[i := v.attempts[i].(status := status, summary := summary)])
      else v
    case ReviewRecorded(_, r, reviewer, verdict) =>
      v.(reviews := v.reviews[r := ReviewView(reviewer, verdict)])
  }

  function Replay(events: seq<Event>): View {
    if events == [] then BLANK else Read(Replay(events[..|events| - 1]), events[|events| - 1])
  }

  predicate LegalEdge(from: TaskStatus, to: TaskStatus) {
    to in ValidTransitions(from) || (from == NeedsReview && to == Completed)
  }

  /** Event e may follow a history that left the task at v. */
  predicate Fits(v: View, e: Event) {
    match e
    case TaskCreated(_, _) => v == BLANK
    case TaskTransitioned(_, from, to, _) => v.status == Some(from) && LegalEdge(from, to)
    case AttemptStarted(_, i, _, _, _, _, _, _) => v.status == Some(Running) && i !in v.attempts
    case AttemptFinished(_, i, status, _) =>
      i in v.attempts && v.attempts[i].status == RunningAttempt && status != RunningAttempt
    case ReviewRecorded(_, r, _, verdict) => v.status.Some? && r !in v.reviews
  }

  /** Every event fits what the events before it say. */
  predicate Chained(events: seq<Event>) {
    events == []
    || (Chained(events[..|events| - 1])
        && Fits(Replay(events[..|events| - 1]), events[|events| - 1]))
  }

  function AttemptSeen(a: Attempt): AttemptView {
    AttemptView(a.agent, a.harness, a.provider, a.model, a.kind, a.workItem, a.status, a.summary)
  }

  /** What the tables say about one task. */
  function ViewOf(l: Ledger, t: string): View {
    View(if t in l.tasks then Some(l.tasks[t].status) else None,
         map i | i in l.attempts && l.attempts[i].task == t :: AttemptSeen(l.attempts[i]),
         map r | r in l.reviews && l.reviews[r].task == t
           :: ReviewView(l.reviews[r].reviewer, l.reviews[r].verdict))
  }

  ghost predicate Faithful(l: Ledger) {
    forall t: string :: Replay(EventsOf(l.log, t)) == ViewOf(l, t) && Chained(EventsOf(l.log, t))
  }

  /** How an accepted call changes the tables of task t, told as the one event it may append. */
  ghost predicate Journalled(l: Ledger, m: Ledger, t: string) {
    || (m.log == l.log && ViewOf(m, t) == ViewOf(l, t))
    || (|m.log| == |l.log| + 1 && m.log[..|l.log|] == l.log
        && var e := m.log[|l.log|];
           if e.task == t then ViewOf(m, t) == Read(ViewOf(l, t), e) && Fits(ViewOf(l, t), e)
           else ViewOf(m, t) == ViewOf(l, t))
  }

  lemma CreateJournalled(l: Ledger, c: Call, t: string)
    requires Inv(l) && c.CreateTask?
    ensures Journalled(l, Created(l, c), t)
  {
    var m := Created(l, c);
    assert ViewOf(m, t).attempts == ViewOf(l, t).attempts;
    assert ViewOf(m, t).reviews == ViewOf(l, t).reviews;
    if m != l && TargetId(c) == t {
      NothingBeforeCreation(l, t);
    }
  }

  lemma MoveJournalled(l: Ledger, task: string, target: TaskStatus, reason: string, t: string)
    requires task in l.tasks
    requires l.tasks[task].status == target || LegalEdge(l.tasks[task].status, target)
    ensures Journalled(l, Moved(l, task, target, reason), t)
  {
  }

  lemma NothingBeforeCreation(l: Ledger, t: string)
    requires Inv(l) && t !in l.tasks
    ensures ViewOf(l, t) == BLANK
  {
  }

  lemma StartJournalled(l: Ledger, c: Call, t: string)
    requires c.StartAttempt? && StartRefusal(l, c).None?
    ensures Journalled(l, Started(l, c), t)
  {
    var m := Started(l, c);
    assert ViewOf(m, t).reviews == ViewOf(l, t).reviews;
    var e := m.log[|l.log|];
    if c.task == t {
      assert ViewOf(m, t).attempts == Read(ViewOf(l, t), e).attempts;
    } else {
      assert ViewOf(m, t).attempts == ViewOf(l, t).attempts;
    }
  }

  lemma FinishJournalled(l: Ledger, c: Call, t: string)
    requires c.FinishAttempt? && c.attempt in l.attempts && c.status != RunningAttempt
    ensures Journalled(l, Finished(l, c), t)
  {
    var m := Finished(l, c);
    if m != l {
      assert ViewOf(m, t).reviews == ViewOf(l, t).reviews;
      var e := m.log[|l.log|];
      if e.task == t {
        assert ViewOf(m, t).attempts == Read(ViewOf(l, t), e).attempts;
      } else {
        assert ViewOf(m, t).attempts == ViewOf(l, t).attempts;
      }
    }
  }

  lemma ProcessJournalled(l: Ledger, c: Call, t: string)
    requires c.SetAttemptProcess? && ProcessRefusal(l, c).None?
    ensures Journalled(l, Tracked(l, c), t)
  {
    assert ViewOf(Tracked(l, c), t).attempts == ViewOf(l, t).attempts;
    assert ViewOf(Tracked(l, c), t).reviews == ViewOf(l, t).reviews;
  }

  lemma ReviewJournalled(l: Ledger, c: Call, t: string)
    requires c.RecordReview? && ReviewRefusal(l, c).None?
    ensures Journalled(l, Reviewed(l, c), t)
  {
    var m := Reviewed(l, c);
    assert ViewOf(m, t).attempts == ViewOf(l, t).attempts;
    var e := m.log[|l.log|];
    if c.task == t {
      assert ViewOf(m, t).reviews == Read(ViewOf(l, t), e).reviews;
    } else {
      assert ViewOf(m, t).reviews == ViewOf(l, t).reviews;
    }
  }

  lemma EffectJournalled(l: Ledger, c: Call, t: string)
    requires Inv(l) && Accepted(l, c)
    ensures Journalled(l, Effect(l, c), t)
  {
    match c
    case StartAttempt(_, _, _, _, _, _, _, _) => StartJournalled(l, c, t);
    case FinishAttempt(_, _, _, _, _, _) => FinishJournalled(l, c, t);
    case SetAttemptProcess(_, _) => ProcessJournalled(l, c, t);
    case RecordReview(_, _, _, _, _, _, _, _, _, _) => ReviewJournalled(l, c, t);
    case CreateTask(_, _, _, _) => CreateJournalled(l, c, t);
    case Transition(task, target, reason) => MoveJournalled(l, task, target, reason, t);
    case CancelTask(task, reason) => MoveJournalled(l, task, Cancelled, reason, t);
    case CompleteTask(task, summary) => MoveJournalled(l, task, Completed, summary, t);
  }

  lemma ReplayOneMore(l: Ledger, m: Ledger, t: string)
    requires Journalled(l, m, t)
    requires Replay(EventsOf(l.log, t)) == ViewOf(l, t) && Chained(EventsOf(l.log, t))
    ensures Replay(EventsOf(m.log, t)) == ViewOf(m, t) && Chained(EventsOf(m.log, t))
  {
    if m.log != l.log {
      var e := m.log[|l.log|];
      assert m.log[|m.log| - 1] == e && m.log[..|m.log| - 1] == l.log;
      var events := EventsOf(m.log, t);
      if e.task == t {
        assert events == EventsOf(l.log, t) + [e];
        assert events[..|events| - 1] == EventsOf(l.log, t);
      } else {
        assert events == EventsOf(l.log, t) + [] == EventsOf(l.log, t);
      }
    }
  }

  lemma ApplyKeepsFaithful(l: Ledger, c: Call)
    requires Inv(l) && Faithful(l)
    ensures Faithful(Apply(l, c))
  {
    if Accepted(l, c) {
      forall t: string
        ensures Replay(EventsOf(Effect(l, c).log, t)) == ViewOf(Effect(l, c), t)
        ensures Chained(EventsOf(Effect(l, c).log, t))
      {
        EffectJournalled(l, c, t);
        ReplayOneMore(l, Effect(l, c), t);
      }
    }
  }

  /** The journal theorem: in every reachable ledger, replaying a task's events yields its status,
      each attempt's identity, status and summary and each review's reviewer and verdict, and
      every event was legal where it stands. */
  lemma {:induction false} LogIsAFaithfulJournal(calls: seq<Call>)
    ensures Faithful(Run(EMPTY, calls))
    decreases |calls|
  {
    if calls == [] {
      forall t: string ensures Replay(EventsOf([], t)) == ViewOf(EMPTY, t) && Chained(EventsOf([], t)) {
        assert ViewOf(EMPTY, t) == BLANK;
      }
    } else {
      var earlier := calls[..|calls| - 1];
      var c := calls[|calls| - 1];
      LogIsAFaithfulJournal(earlier);
      RunKeepsInv(EMPTY, earlier);
      assert calls == earlier + [c];
      RunAppend(EMPTY, earlier, [c]);
      var l := Run(EMPTY, earlier);
      assert Run(l, [c]) == Run(Apply(l, c), []);
      ApplyKeepsFaithful(l, c);
    }
  }

  /** Refused and replayed calls append nothing; every other call appends one event, except that
      recording a process id is not journalled. */
  lemma OneEventPerEffect(l: Ledger, c: Call)
    ensures Apply(l, c).log == l.log <==> Apply(l, c) == l || (Accepted(l, c) && c.SetAttemptProcess?)
    ensures Apply(l, c).log != l.log ==>
              |Apply(l, c).log| == |l.log| + 1 && Apply(l, c).log[..|l.log|] == l.log
    ensures !Accepted(l, c) ==> Apply(l, c) == l
  {
  }

  // ------------------------------------------------------- the outcome text

  /** The newest transition event of a task, as its reversed event list meets it first. */
  function LastEdge(events: seq<Event>): (edge: Option<Event>)
    ensures edge.Some? ==> edge.value.TaskTransitioned? && edge.value in events
  {
    if events == [] then None
    else if events[|events| - 1].TaskTransitioned? then Some(events[|events| - 1])
    else LastEdge(events[..|events| - 1])
  }

  lemma {:induction false} StatusComesFromLastEdge(events: seq<Event>)
    requires Chained(events)
    ensures LastEdge(events).Some? ==> Replay(events).status == Some(LastEdge(events).value.to)
    ensures LastEdge(events).None? ==> Replay(events).status in {None, Some(Queued)}
  {
    if events != [] {
      var earlier := events[..|events| - 1];
      StatusComesFromLastEdge(earlier);
    }
  }

  /** The newest transition into `status`. */
  function NewestInto(events: seq<Event>, status: TaskStatus): (edge: Option<Event>)
    ensures edge.Some? ==> edge.value.TaskTransitioned?
  {
    if events == [] then None
    else
      var e := events[|events| - 1];
      if e.TaskTransitioned? && e.to == status then Some(e)
      else NewestInto(events[..|events| - 1], status)
  }

  predicate HasOutcome(status: TaskStatus) {
    status in {Blocked, Completed, Failed, Cancelled}
  }

  function OutcomeText(events: seq<Event>, status: TaskStatus, fallback: Option<string>): Option<string> {
    if HasOutcome(status) && NewestInto(events, status).Some?
    then Some(NewestInto(events, status).value.reason) else fallback
  }

  /** The HTTP projection's outcome text. */
  method Outcome(events: seq<Event>, status: TaskStatus, fallback: Option<string>)
    returns (reason: Option<string>)
    ensures reason == OutcomeText(events, status, fallback)
  {
    if HasOutcome(status) {
      var k := |events|;
      assert events[..k] == events;
      while k > 0
        invariant 0 <= k <= |events|
        invariant NewestInto(events[..k], status) == NewestInto(events, status)
      {
        k := k - 1;
        assert events[..k + 1][..k] == events[..k];
        var e := events[k];
        if e.TaskTransitioned? && e.to == status {
          return Some(e.reason);
        }
      }
    }
    return fallback;
  }

  /** The outcome never falls back in a reachable ledger: a closed or blocked task's status was
      produced by the last transition in its journal, whose reason is the outcome; a task that is
      queued, running or in review has the fallback. */
  lemma OutcomeReasonExists(calls: seq<Call>, t: string, fallback: Option<string>)
    requires t in Run(EMPTY, calls).tasks
    ensures var l := Run(EMPTY, calls);
            var status := l.tasks[t].status;
            var events := EventsOf(l.log, t);
            if status.Queued? || status.Running? || status.NeedsReview? then OutcomeText(events, status, fallback) == fallback
            else LastEdge(events).Some?
                 && OutcomeText(events, status, fallback) == Some(LastEdge(events).value.reason)
  {
    var status := Run(EMPTY, calls).tasks[t].status;
    if status in {Blocked, Completed, Failed, Cancelled} {
      StatusHasEdge(calls, t);
    }
  }

  lemma StatusHasEdge(calls: seq<Call>, t: string)
    requires t in Run(EMPTY, calls).tasks
    requires Run(EMPTY, calls).tasks[t].status in {Blocked, Completed, Failed, Cancelled}
    ensures var l := Run(EMPTY, calls);
            var events := EventsOf(l.log, t);
            && Chained(events) && Replay(events).status == Some(l.tasks[t].status)
            && LastEdge(events).Some?
            && NewestInto(events, l.tasks[t].status) == LastEdge(events)
            && LastEdge(events).value.to == l.tasks[t].status
            && LegalEdge(LastEdge(events).value.from, l.tasks[t].status)
  {
    LogIsAFaithfulJournal(calls);
    var l := Run(EMPTY, calls);
    var events := EventsOf(l.log, t);
    assert Replay(events) == ViewOf(l, t);
    StatusComesFromLastEdge(events);
    LastEdgeIsLegal(events);
    NewestIntoIsLastEdge(events, l.tasks[t].status);
  }

  lemma {:induction false} NewestIntoIsLastEdge(events: seq<Event>, status: TaskStatus)
    requires LastEdge(events).Some? && LastEdge(events).value.to == status
    ensures NewestInto(events, status) == LastEdge(events)
  {
    if !events[|events| - 1].TaskTransitioned? {
      NewestIntoIsLastEdge(events[..|events| - 1], status);
    }
  }

  lemma {:induction false} LastEdgeIsLegal(events: seq<Event>)
    requires Chained(events) && LastEdge(events).Some?
    ensures LegalEdge(LastEdge(events).value.from, LastEdge(events).value.to)
  {
    if !events[|events| - 1].TaskTransitioned? {
      LastEdgeIsLegal(events[..|events| - 1]);
    }
  }
}
