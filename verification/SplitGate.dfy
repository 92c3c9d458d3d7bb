/** When exactly split complete_task meets the gate, whatever others call in between. */
module SplitGate {
  import opened Models
  import opened TaskLedger
  import opened LedgerInvariants
  import opened SplitSteps

  predicate EvidenceOk(l: Ledger) {
    forall i | i in l.attempts :: l.attempts[i].status == Succeeded ==> l.attempts[i].evidence != []
  }

  lemma ApplyKeepsEvidence(l: Ledger, c: Call)
    requires EvidenceOk(l)
    ensures EvidenceOk(Apply(l, c))
  {
    if Accepted(l, c) {
      var m := Effect(l, c);
      forall i | i in m.attempts ensures m.attempts[i].status == Succeeded ==> m.attempts[i].evidence != [] {
        assert i in l.attempts ==> (l.attempts[i].status == Succeeded ==> l.attempts[i].evidence != []);
      }
    }
  }

  lemma ApplyExtends(l: Ledger, c: Call)
    ensures Extends(l, Apply(l, c))
  {
    if Accepted(l, c) {
      EffectExtends(l, c);
    }
  }

  // ------------------------------------- what the reads establish for good

  /** The implementation attempts that were there when the completion began are closed. */
  predicate OldClosed(l: Ledger, m: Ledger, t: string) {
    forall i | i in l.attempts && i in m.attempts :: !RunningImplementation(m, t, i)
  }

  predicate Fine(m: Ledger, t: string, i: nat)
    requires i in m.attempts
  {
    m.attempts[i].status == Succeeded && Approved(m, t, i)
  }

  /** Every old attempt that is still the latest of its work item is among the rows read, unchanged,
      and fine once it was checked. */
  ghost predicate OldRows(l: Ledger, m: Ledger, t: string, rows: map<nat, Attempt>, pending: set<nat>) {
    && rows != map[] && pending <= rows.Keys
    && (forall i | i in rows :: IsImplementation(m, t, i))
    && (forall i | i in rows && i in l.attempts :: rows[i] == m.attempts[i])
    && (forall i | i in l.attempts && IsLatest(m, t, i) :: i in rows)
    && (forall i | i in rows && i in l.attempts && i !in pending :: Fine(m, t, i))
  }

  ghost predicate OldFine(l: Ledger, m: Ledger, t: string) {
    && (exists i | i in m.attempts :: IsImplementation(m, t, i))
    && forall i | i in l.attempts && IsLatest(m, t, i) :: Fine(m, t, i)
  }

  /** What holds at every moment of a completion that began in l. */
  ghost predicate Since(l: Ledger, s: State, t: string) {
    && Extends(l, s.ledger) && EvidenceOk(s.ledger)
    && match s.phase
       case Begin => true
       case SawReview => true
       case Rejected => true
       case SawNoneRunning => OldClosed(l, s.ledger, t)
       case Checking(rows, pending) =>
         OldClosed(l, s.ledger, t) && OldRows(l, s.ledger, t, rows, pending)
       case Done => OldClosed(l, s.ledger, t) && OldFine(l, s.ledger, t)
  }

  // ------------------------------------------------- others' calls keep it

  lemma OldClosedStays(l: Ledger, m: Ledger, n: Ledger, t: string)
    requires Extends(l, m) && Extends(m, n) && OldClosed(l, m, t)
    ensures OldClosed(l, n, t)
  {
    forall i | i in l.attempts && i in n.attempts ensures !RunningImplementation(n, t, i) {
      assert AttemptKept(l, m, i) && AttemptKept(m, n, i);
      assert !RunningImplementation(m, t, i);
    }
  }

  /** An attempt that is latest later was latest before, if it was there. */
  lemma LatestBefore(m: Ledger, n: Ledger, t: string, i: nat)
    requires Extends(m, n) && i in m.attempts && IsLatest(n, t, i)
    ensures IsLatest(m, t, i)
  {
    assert AttemptKept(m, n, i);
    forall j | j in m.attempts && SameWorkItem(m, t, j, i) ensures NotLater(m, j, i) {
      assert AttemptKept(m, n, j);
      assert SameWorkItem(n, t, j, i);
      assert NotLater(n, j, i);
    }
  }

  lemma FineStays(m: Ledger, n: Ledger, t: string, i: nat)
    requires Extends(m, n) && i in m.attempts && Fine(m, t, i)
    ensures i in n.attempts && Fine(n, t, i)
  {
    assert AttemptKept(m, n, i);
    var r :| r in m.reviews && Approval(m, t, i, r);
    assert Approval(n, t, i, r);
  }

  lemma OldRowsStay(l: Ledger, m: Ledger, n: Ledger, t: string, rows: map<nat, Attempt>, pending: set<nat>)
    requires Extends(l, m) && Extends(m, n) && OldClosed(l, m, t) && OldRows(l, m, t, rows, pending)
    ensures OldRows(l, n, t, rows, pending)
  {
    forall i | i in rows
      ensures IsImplementation(n, t, i) && (i in l.attempts ==> rows[i] == n.attempts[i])
    {
      assert IsImplementation(m, t, i) && AttemptKept(m, n, i);
      assert i in l.attempts ==> !RunningImplementation(m, t, i);
    }
    forall i | i in l.attempts && IsLatest(n, t, i) ensures i in rows {
      assert AttemptKept(l, m, i);
      LatestBefore(m, n, t, i);
    }
    forall i | i in rows && i in l.attempts && i !in pending ensures Fine(n, t, i) {
      FineStays(m, n, t, i);
    }
  }

  lemma OldFineStays(l: Ledger, m: Ledger, n: Ledger, t: string)
    requires Extends(l, m) && Extends(m, n) && OldFine(l, m, t)
    ensures OldFine(l, n, t)
  {
    var w :| w in m.attempts && IsImplementation(m, t, w);
    assert AttemptKept(m, n, w) && IsImplementation(n, t, w);
    forall i | i in l.attempts && IsLatest(n, t, i) ensures Fine(n, t, i) {
      assert AttemptKept(l, m, i);
      LatestBefore(m, n, t, i);
      FineStays(m, n, t, i);
    }
  }

  lemma OtherKeepsSince(l: Ledger, s: State, t: string, summary: string, c: Call)
    requires Since(l, s, t)
    ensures Since(l, Next(s, t, summary, Other(c)), t)
  {
    var n := Apply(s.ledger, c);
    ApplyExtends(s.ledger, c);
    ApplyKeepsEvidence(s.ledger, c);
    LaterSince(l, s, n, t);
  }

  lemma LaterSince(l: Ledger, s: State, n: Ledger, t: string)
    requires Since(l, s, t) && Extends(s.ledger, n) && EvidenceOk(n)
    ensures Since(l, s.(ledger := n), t)
  {
    ExtendsTransitive(l, s.ledger, n);
    match s.phase
    case SawNoneRunning => OldClosedStays(l, s.ledger, n, t);
    case Checking(rows, pending) =>
      OldClosedStays(l, s.ledger, n, t);
      OldRowsStay(l, s.ledger, n, t, rows, pending);
    case Done =>
      OldClosedStays(l, s.ledger, n, t);
      OldFineStays(l, s.ledger, n, t);
    case _ =>
  }

  // ------------------------------------------------------ the own steps

  lemma RowsReadAreOldRows(l: Ledger, m: Ledger, t: string)
    requires LatestRows(m, t) != map[] && Extends(l, m)
    ensures OldRows(l, m, t, LatestRows(m, t), LatestRows(m, t).Keys)
  {
    forall i | i in l.attempts && IsLatest(m, t, i) ensures i in LatestRows(m, t) {
    }
  }

  lemma PickKeepsOldRows(l: Ledger, m: Ledger, t: string, rows: map<nat, Attempt>, pending: set<nat>, pick: nat)
    requires OldRows(l, m, t, rows, pending) && pick in rows && rows[pick].status == Succeeded
    requires RowApproved(m, t, pick, rows[pick])
    ensures OldRows(l, m, t, rows, pending - {pick})
  {
    if pick in l.attempts {
      var r :| r in m.reviews && IsNewestReview(m, t, pick, r) && Approves(m.reviews[r], rows[pick].provider);
      assert Approval(m, t, pick, r);
      assert Fine(m, t, pick);
    }
  }

  lemma AllCheckedIsFine(l: Ledger, m: Ledger, t: string, rows: map<nat, Attempt>)
    requires OldRows(l, m, t, rows, {})
    ensures OldFine(l, m, t)
  {
    var w :| w in rows;
    assert IsImplementation(m, t, w);
  }

  /** The completing write changes the task's status alone. */
  lemma WriteExtends(m: Ledger, t: string, summary: string)
    requires t in m.tasks && m.tasks[t].status == NeedsReview && EvidenceOk(m)
    ensures Extends(m, WithStatus(m, t, Completed, summary)) && EvidenceOk(WithStatus(m, t, Completed, summary))
  {
    TaskWriteExtends(m, t, m.tasks[t].(status := Completed), TaskTransitioned(t, NeedsReview, Completed, summary));
  }

  lemma CheckKeepsSince(l: Ledger, m: Ledger, t: string, rows: map<nat, Attempt>, pending: set<nat>,
                        summary: string, pick: nat)
    requires Since(l, State(m, Checking(rows, pending)), t)
    ensures Since(l, OwnStep(State(m, Checking(rows, pending)), t, summary, pick), t)
  {
    if pending == {} {
      AllCheckedIsFine(l, m, t, rows);
      if t in m.tasks && m.tasks[t].status == NeedsReview {
        WriteExtends(m, t, summary);
        LaterSince(l, State(m, Done), WithStatus(m, t, Completed, summary), t);
      }
    } else if pick in pending && rows[pick].status == Succeeded && RowApproved(m, t, pick, rows[pick]) {
      PickKeepsOldRows(l, m, t, rows, pending, pick);
    }
  }

  lemma OwnKeepsSince(l: Ledger, s: State, t: string, summary: string, pick: nat)
    requires Since(l, s, t)
    ensures Since(l, Next(s, t, summary, Own(pick)), t)
  {
    match s.phase
    case SawNoneRunning =>
      if LatestRows(s.ledger, t) != map[] { RowsReadAreOldRows(l, s.ledger, t); }
    case Checking(rows, pending) => CheckKeepsSince(l, s.ledger, t, rows, pending, summary, pick);
    case _ =>
  }

  lemma {:induction false} MovesKeepSince(l: Ledger, s: State, t: string, summary: string, moves: seq<Move>)
    requires Since(l, s, t)
    ensures Since(l, Moves(s, t, summary, moves), t)
    decreases |moves|
  {
    if moves != [] {
      match moves[0] {
        case Other(c) => OtherKeepsSince(l, s, t, summary, c);
        case Own(pick) => OwnKeepsSince(l, s, t, summary, pick);
      }
      MovesKeepSince(l, Next(s, t, summary, moves[0]), t, summary, moves[1..]);
    }
  }

  // --------------------------------------------------------- theorems

  /** The implementation attempts started since l are closed, and those that are the latest of their
      work item succeeded and are approved. */
  predicate NewWorkFine(l: Ledger, m: Ledger, t: string) {
    forall i | i in m.attempts && i !in l.attempts && IsImplementation(m, t, i) ::
      m.attempts[i].status != RunningAttempt && (IsLatest(m, t, i) ==> Fine(m, t, i))
  }

  /** The exact condition: over every interleaving in which a split completion goes through, the gate
      holds if and only if the attempts started since its first read would pass it themselves. */
  lemma SplitGateExactly(l: Ledger, t: string, summary: string, moves: seq<Move>)
    requires Reachable(l) && Moves(State(l, Begin), t, summary, moves).phase.Done?
    ensures var m := Moves(State(l, Begin), t, summary, moves).ledger;
            Gate(m, t) <==> NewWorkFine(l, m, t)
  {
    ReachableInv(l);
    forall i | i in l.attempts ensures l.attempts[i].status == Succeeded ==> l.attempts[i].evidence != [] {
      assert AttemptOk(l, l.attempts[i]);
    }
    MovesKeepSince(l, State(l, Begin), t, summary, moves);
    GateOfOldAndNew(l, Moves(State(l, Begin), t, summary, moves).ledger, t);
  }

  lemma GateOfOldAndNew(l: Ledger, m: Ledger, t: string)
    requires OldClosed(l, m, t) && OldFine(l, m, t) && EvidenceOk(m)
    ensures Gate(m, t) <==> NewWorkFine(l, m, t)
  {
    if NewWorkFine(l, m, t) {
      forall i | i in m.attempts ensures !RunningImplementation(m, t, i) {
      }
      forall i | i in m.attempts && IsLatest(m, t, i)
        ensures m.attempts[i].status == Succeeded && m.attempts[i].evidence != [] && Approved(m, t, i)
      {
        assert Fine(m, t, i);
      }
    }
    if Gate(m, t) {
      forall i | i in m.attempts && i !in l.attempts && IsImplementation(m, t, i)
        ensures m.attempts[i].status != RunningAttempt && (IsLatest(m, t, i) ==> Fine(m, t, i))
      {
        assert !RunningImplementation(m, t, i);
      }
    }
  }

  /** No move starts an attempt of the task. */
  predicate StartsNothing(moves: seq<Move>, t: string) {
    forall k | 0 <= k < |moves| ::
      !(moves[k].Other? && moves[k].call.StartAttempt? && moves[k].call.task == t)
  }

  predicate OnlyOld(l: Ledger, m: Ledger, t: string) {
    forall i | i in m.attempts && m.attempts[i].task == t :: i in l.attempts
  }

  lemma {:induction false} NothingNew(l: Ledger, s: State, t: string, summary: string, moves: seq<Move>)
    requires StartsNothing(moves, t) && OnlyOld(l, s.ledger, t)
    ensures OnlyOld(l, Moves(s, t, summary, moves).ledger, t)
    decreases |moves|
  {
    if moves != [] {
      StepAddsNothing(l, s, t, summary, moves[0]);
      NothingNew(l, Next(s, t, summary, moves[0]), t, summary, moves[1..]);
    }
  }

  lemma StepAddsNothing(l: Ledger, s: State, t: string, summary: string, move: Move)
    requires !(move.Other? && move.call.StartAttempt? && move.call.task == t) && OnlyOld(l, s.ledger, t)
    ensures OnlyOld(l, Next(s, t, summary, move).ledger, t)
  {
  }

  /** So a completion during which nobody starts an attempt of the task meets the gate, even if the
      task left review and came back. */
  lemma NothingStartedMeetsGate(l: Ledger, t: string, summary: string, moves: seq<Move>)
    requires Reachable(l) && StartsNothing(moves, t)
    requires Moves(State(l, Begin), t, summary, moves).phase.Done?
    ensures Gate(Moves(State(l, Begin), t, summary, moves).ledger, t)
  {
    SplitGateExactly(l, t, summary, moves);
    NothingNew(l, State(l, Begin), t, summary, moves);
  }
}
