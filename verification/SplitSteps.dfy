/** Calls whose reads and final write are separate steps, with other calls in between. */
module SplitSteps {
  import opened Models
  import opened TaskLedger
  import opened LedgerInvariants
  import NeverStuck
  import Execution

  // -------------------------------------------------------- finish_attempt

  datatype Ended = Ended(ledger: Ledger, refusal: Option<Refusal>)

  /** One atomic call at l. */
  predicate AtomicAt(l: Ledger, c: Call, e: Ended) {
    e.ledger == Apply(l, c) && e.refusal == RefusalOf(l, c)
  }

  /** finish_attempt: decide on the row read from `read`, then compare-and-swap on `l`. */
  function SplitFinish(read: Ledger, l: Ledger, c: Call): Ended
    requires c.FinishAttempt?
  {
    if FinishRefusal(read, c).Some? then Ended(l, FinishRefusal(read, c))
    else if read.attempts[c.attempt].status != RunningAttempt then Ended(l, None)
    else if c.attempt in l.attempts && l.attempts[c.attempt].status == RunningAttempt
    then Ended(Finished(l, c), None)
    else Ended(l, Some(ChangedConcurrently))
  }

  /** Whatever others call in between, a split finish_attempt is refused as one atomic call at its
      read would be, or has the effect of one atomic call at its write; a lost race is reported
      exactly when the attempt was closed in between, and then the atomic call changes nothing. */
  lemma SplitFinishIsAtomic(read: Ledger, calls: seq<Call>, c: Call)
    requires Inv(read) && c.FinishAttempt?
    ensures var l := Run(read, calls);
            var e := SplitFinish(read, l, c);
            && (!Accepted(read, c) ==> e == Ended(l, RefusalOf(read, c)))
            && (Accepted(read, c) ==>
                  && e.ledger == Apply(l, c)
                  && (e.refusal == Some(ChangedConcurrently) || e.refusal == RefusalOf(l, c))
                  && (e.refusal == Some(ChangedConcurrently) <==>
                        && read.attempts[c.attempt].status == RunningAttempt
                        && c.attempt in l.attempts
                        && l.attempts[c.attempt].status != RunningAttempt))
  {
    RunKeepsInv(read, calls);
    if Accepted(read, c) {
      assert AttemptKept(read, Run(read, calls), c.attempt);
    }
  }

  // --------------------------------------------------------- record_review

  /** The checks of record_review with the task read from `first` and the attempt from `second`. */
  function SplitReviewRefusal(first: Ledger, second: Ledger, c: Call): Option<Refusal>
    requires c.RecordReview?
  {
    if !ValidTaskId(c.task) then Some(InvalidTaskId)
    else if c.task !in first.tasks then Some(TaskNotFound)
    else ReviewReadRefusal(second.(tasks := first.tasks), c)
  }

  function SplitReview(first: Ledger, second: Ledger, l: Ledger, c: Call): Ended
    requires c.RecordReview?
  {
    if SplitReviewRefusal(first, second, c).Some? then Ended(l, SplitReviewRefusal(first, second, c))
    else if c.reviewId in l.reviews then Ended(l, Some(IdTaken))
    else
      var r := NewReview(c);
      Ended(l.(reviews := l.reviews[c.reviewId := r],
               log := l.log + [ReviewRecorded(c.task, c.reviewId, c.reviewer, r.verdict)]), None)
  }

  /** Split record_review is one atomic call: at its insert when the reads pass, otherwise refused
      as the atomic call would have been at one of its reads. */
  lemma SplitReviewIsAtomic(first: Ledger, calls: seq<Call>, later: seq<Call>, c: Call)
    requires Inv(first) && c.RecordReview?
    ensures var second := Run(first, calls);
            var l := Run(second, later);
            var e := SplitReview(first, second, l, c);
            || AtomicAt(l, c, e)
            || (e.ledger == l && e.refusal.Some?
                && (e.refusal == ReviewReadRefusal(first, c) || e.refusal == ReviewReadRefusal(second, c)))
  {
    var second := Run(first, calls);
    RunKeepsInv(first, calls);
    RunKeepsInv(second, later);
    SplitReadsAgree(first, second, c);
    if ReviewReadRefusal(second, c).None? {
      ReviewableForEver(second, Run(second, later), c);
    }
  }

  lemma SplitReadsAgree(first: Ledger, second: Ledger, c: Call)
    requires Extends(first, second) && c.RecordReview?
    ensures SplitReviewRefusal(first, second, c)
            == if c.task in first.tasks then ReviewReadRefusal(second, c) else ReviewReadRefusal(first, c)
  {
  }

  // --------------------------------------------------------- complete_task

  /** How far complete_task has read. The rows are the copies of the latest attempts it works on. */
  datatype Phase =
    | Begin
    | SawReview
    | SawNoneRunning
    | Checking(rows: map<nat, Attempt>, pending: set<nat>)
    | Done
    | Rejected

  datatype State = State(ledger: Ledger, phase: Phase)

  /** Another caller's call, or the next read or write of complete_task itself (`pick` chooses
      which of the pending rows it looks at). */
  datatype Move = Other(call: Call) | Own(pick: nat)

  function LatestRows(l: Ledger, t: string): map<nat, Attempt> {
    map i | i in l.attempts && IsLatest(l, t, i) :: l.attempts[i]
  }

  predicate RowApproved(l: Ledger, t: string, i: nat, row: Attempt) {
    exists r | r in l.reviews :: IsNewestReview(l, t, i, r) && Approves(l.reviews[r], row.provider)
  }

  function OwnStep(s: State, t: string, summary: string, pick: nat): State {
    var l := s.ledger;
    match s.phase
    case Begin =>
      s.(phase := if ValidTaskId(t) && t in l.tasks && l.tasks[t].status == NeedsReview
                  then SawReview else Rejected)
    case SawReview =>
      s.(phase := if HasRunningImplementation(l, t) then Rejected else SawNoneRunning)
    case SawNoneRunning =>
      var rows := LatestRows(l, t);
      s.(phase := if rows == map[] then Rejected else Checking(rows, rows.Keys))
    case Checking(rows, pending) =>
      if pending == {} then
        if t in l.tasks && l.tasks[t].status == NeedsReview
        then State(WithStatus(l, t, Completed, summary), Done)
        else s.(phase := Rejected)
      else if pick !in pending || pick !in rows then s
      else if rows[pick].status == Succeeded && RowApproved(l, t, pick, rows[pick])
      then s.(phase := Checking(rows, pending - {pick}))
      else s.(phase := Rejected)
    case Done => s
    case Rejected => s
  }

  function Next(s: State, t: string, summary: string, move: Move): State {
    match move
    case Other(call) => s.(ledger := Apply(s.ledger, call))
    case Own(pick) => OwnStep(s, t, summary, pick)
  }

  function Moves(s: State, t: string, summary: string, moves: seq<Move>): State
    decreases |moves|
  {
    if moves == [] then s else Moves(Next(s, t, summary, moves[0]), t, summary, moves[1..])
  }

  predicate Underway(phase: Phase) {
    phase.SawReview? || phase.SawNoneRunning? || phase.Checking?
  }

  predicate InReview(s: State, t: string) {
    Underway(s.phase) ==> t in s.ledger.tasks && s.ledger.tasks[t].status == NeedsReview
  }

  /** The task is in review at every moment from the first read of its status to the write. */
  predicate StaysInReview(s: State, t: string, summary: string, moves: seq<Move>)
    decreases |moves|
  {
    InReview(s, t)
    && (moves == [] || StaysInReview(Next(s, t, summary, moves[0]), t, summary, moves[1..]))
  }

  predicate RowsKnown(l: Ledger, t: string, rows: map<nat, Attempt>, pending: set<nat>) {
    && rows != map[]
    && pending <= rows.Keys
    && rows == LatestRows(l, t)
    && forall i | i in rows && i !in pending ::
         i in l.attempts && l.attempts[i].status == Succeeded && Approved(l, t, i)
  }

  /** What complete_task has read is still true. */
  predicate Known(s: State, t: string) {
    && Inv(s.ledger)
    && (s.phase.SawNoneRunning? || s.phase.Checking? ==> !HasRunningImplementation(s.ledger, t))
    && (s.phase.Checking? ==> RowsKnown(s.ledger, t, s.phase.rows, s.phase.pending))
    && (s.phase.Done? ==> t in s.ledger.tasks && s.ledger.tasks[t].status == Completed)
  }

  /** While a task is in review no call starts an attempt of it. */
  lemma NothingStartsInReview(l: Ledger, c: Call, t: string, i: nat)
    requires t in l.tasks && l.tasks[t].status == NeedsReview
    requires i in Apply(l, c).attempts && Apply(l, c).attempts[i].task == t
    ensures i in l.attempts
  {
  }

  lemma NoneRunningPersists(l: Ledger, c: Call, t: string)
    requires Inv(l) && t in l.tasks && l.tasks[t].status == NeedsReview
    requires !HasRunningImplementation(l, t)
    ensures !HasRunningImplementation(Apply(l, c), t)
    ensures SameWork(l, Apply(l, c), t)
  {
    var m := Apply(l, c);
    ApplyKeepsInv(l, c);
    forall i | IsImplementation(l, t, i) || IsImplementation(m, t, i)
      ensures i in l.attempts && i in m.attempts && l.attempts[i] == m.attempts[i]
    {
      if i !in l.attempts { NothingStartsInReview(l, c, t, i); }
      assert AttemptKept(l, m, i);
      assert !RunningImplementation(l, t, i);
    }
    forall i | i in m.attempts ensures RunningImplementation(m, t, i) ==> RunningImplementation(l, t, i) {
      assert RunningImplementation(m, t, i) ==> IsImplementation(m, t, i);
    }
  }

  lemma SameWorkSameRows(l: Ledger, m: Ledger, t: string)
    requires SameWork(l, m, t)
    ensures LatestRows(l, t) == LatestRows(m, t)
  {
    forall i ensures i in LatestRows(l, t) <==> i in LatestRows(m, t)
             ensures i in LatestRows(l, t) ==> l.attempts[i] == m.attempts[i]
    {
      SameWorkSameLatest(l, m, t, i);
    }
  }

  lemma RowsPersist(l: Ledger, m: Ledger, t: string, rows: map<nat, Attempt>, pending: set<nat>)
    requires SameWork(l, m, t) && RowsKnown(l, t, rows, pending)
    requires forall r | r in l.reviews :: r in m.reviews && m.reviews[r] == l.reviews[r]
    ensures RowsKnown(m, t, rows, pending)
  {
    SameWorkSameRows(l, m, t);
    forall i | i in rows && i !in pending ensures Approved(m, t, i) {
      assert i in LatestRows(m, t) && i in LatestRows(l, t);
      var r :| r in l.reviews && Approval(l, t, i, r);
      assert Approval(m, t, i, r);
    }
  }

  lemma OtherKeepsKnown(s: State, t: string, summary: string, c: Call)
    requires Known(s, t) && InReview(s, t)
    ensures Known(Next(s, t, summary, Other(c)), t)
  {
    var l := s.ledger;
    ApplyKeepsInv(l, c);
    match s.phase
    case SawNoneRunning => NoneRunningPersists(l, c, t);
    case Checking(rows, pending) =>
      NoneRunningPersists(l, c, t);
      RowsPersist(l, Apply(l, c), t, rows, pending);
    case Done => assert TaskKept(l, Apply(l, c), t);
    case _ =>
  }

  lemma WriteMeetsGate(l: Ledger, t: string, rows: map<nat, Attempt>)
    requires Inv(l) && !HasRunningImplementation(l, t) && RowsKnown(l, t, rows, {})
    ensures Gate(l, t)
  {
  }

  lemma PickKeepsRows(l: Ledger, t: string, rows: map<nat, Attempt>, pending: set<nat>, pick: nat)
    requires RowsKnown(l, t, rows, pending) && pick in rows && rows[pick].status == Succeeded
    requires RowApproved(l, t, pick, rows[pick])
    ensures RowsKnown(l, t, rows, pending - {pick})
  {
  }

  lemma OwnKeepsKnown(s: State, t: string, summary: string, pick: nat)
    requires Known(s, t) && InReview(s, t)
    ensures Known(Next(s, t, summary, Own(pick)), t)
  {
    if s.phase.Checking? {
      CheckKeepsKnown(s.ledger, t, s.phase.rows, s.phase.pending, summary, pick);
    }
  }

  lemma PickKeepsKnown(l: Ledger, t: string, rows: map<nat, Attempt>, pending: set<nat>, pick: nat)
    requires Known(State(l, Checking(rows, pending)), t) && pick in rows && rows[pick].status == Succeeded
    requires RowApproved(l, t, pick, rows[pick])
    ensures Known(State(l, Checking(rows, pending - {pick})), t)
  {
    PickKeepsRows(l, t, rows, pending, pick);
  }

  lemma WriteKeepsKnown(l: Ledger, t: string, rows: map<nat, Attempt>, summary: string)
    requires Inv(l) && t in l.tasks && l.tasks[t].status == NeedsReview && !HasRunningImplementation(l, t)
    requires RowsKnown(l, t, rows, {})
    ensures Known(State(WithStatus(l, t, Completed, summary), Done), t)
  {
    WriteMeetsGate(l, t, rows);
    CompletingWriteKeepsInv(l, t, summary);
  }

  lemma CheckKeepsKnown(l: Ledger, t: string, rows: map<nat, Attempt>, pending: set<nat>, summary: string,
                        pick: nat)
    requires Known(State(l, Checking(rows, pending)), t) && t in l.tasks && l.tasks[t].status == NeedsReview
    ensures Known(OwnStep(State(l, Checking(rows, pending)), t, summary, pick), t)
  {
    if pending == {} {
      WriteKeepsKnown(l, t, rows, summary);
    } else if pick in pending && rows[pick].status == Succeeded && RowApproved(l, t, pick, rows[pick]) {
      PickKeepsKnown(l, t, rows, pending, pick);
    }
  }

  /** The completing write keeps the invariant whenever the gate holds at that moment. */
  lemma CompletingWriteKeepsInv(l: Ledger, t: string, summary: string)
    requires Inv(l) && t in l.tasks && l.tasks[t].status == NeedsReview && Gate(l, t)
    ensures Inv(WithStatus(l, t, Completed, summary))
  {
    var m := WithStatus(l, t, Completed, summary);
    forall i | i in m.attempts ensures AttemptOk(m, m.attempts[i]) {
      assert AttemptOk(l, l.attempts[i]);
      assert RunningImplementation(l, t, i) ==> HasRunningImplementation(l, t);
    }
    forall r | r in m.reviews ensures ReviewOk(m, m.reviews[r]) {
      assert ReviewOk(l, l.reviews[r]);
    }
    forall i, j | i in m.attempts && j in m.attempts && Rivals(m, i, j) ensures i == j {
      assert Rivals(l, i, j);
    }
    forall u | u in m.tasks && m.tasks[u].status == Completed ensures Gate(m, u) {
      GateCarries(l, m, u);
    }
  }

  lemma {:induction false} MovesKeepKnown(s: State, t: string, summary: string, moves: seq<Move>)
    requires Known(s, t) && StaysInReview(s, t, summary, moves)
    ensures Known(Moves(s, t, summary, moves), t)
    decreases |moves|
  {
    if moves != [] {
      match moves[0] {
        case Other(c) => OtherKeepsKnown(s, t, summary, c);
        case Own(pick) => OwnKeepsKnown(s, t, summary, pick);
      }
      MovesKeepKnown(Next(s, t, summary, moves[0]), t, summary, moves[1..]);
    }
  }

  /** Split complete_task meets the gate under every interleaving in which the task stays in review
      from the status read to the write, and the whole ledger invariant survives. */
  lemma SplitCompletionMeetsGate(l: Ledger, t: string, summary: string, moves: seq<Move>)
    requires Reachable(l) && StaysInReview(State(l, Begin), t, summary, moves)
    requires Moves(State(l, Begin), t, summary, moves).phase.Done?
    ensures var m := Moves(State(l, Begin), t, summary, moves).ledger;
            Inv(m) && t in m.tasks && m.tasks[t].status == Completed && Gate(m, t)
  {
    ReachableInv(l);
    MovesKeepKnown(State(l, Begin), t, summary, moves);
  }

  // -------------------------------- why the task must stay in review

  // ------------------------------------------- with nobody in between

  /** The rows read, of which all but the pending ones have passed their checks. */
  predicate RowsRead(l: Ledger, t: string, rows: map<nat, Attempt>, pending: set<nat>) {
    && ValidTaskId(t) && t in l.tasks && l.tasks[t].status == NeedsReview && !HasRunningImplementation(l, t)
    && rows == LatestRows(l, t) && rows != map[] && pending <= rows.Keys
    && forall i | i in rows && i !in pending :: i in l.attempts && Closable(l, t, i)
  }

  /** What complete_task knows of the ledger it reads, while nobody else writes. */
  ghost predicate ReadSoFar(l: Ledger, t: string, summary: string, s: State) {
    var inReview := ValidTaskId(t) && t in l.tasks && l.tasks[t].status == NeedsReview;
    match s.phase
    case Begin => s.ledger == l
    case SawReview => s.ledger == l && inReview
    case SawNoneRunning => s.ledger == l && inReview && !HasRunningImplementation(l, t)
    case Checking(rows, pending) => s.ledger == l && RowsRead(l, t, rows, pending)
    case Done => Accepted(l, CompleteTask(t, summary)) && s.ledger == Apply(l, CompleteTask(t, summary))
    case Rejected => s.ledger == l && !Accepted(l, CompleteTask(t, summary))
  }

  lemma LastRead(l: Ledger, t: string, rows: map<nat, Attempt>)
    requires RowsRead(l, t, rows, {})
    ensures CompletionRefusal(l, t).None?
  {
    var i :| i in rows;
    assert IsLatest(l, t, i);
    forall k | k in l.attempts && IsLatest(l, t, k) ensures Closable(l, t, k) {
      assert k in rows;
    }
  }

  lemma OneRead(l: Ledger, t: string, rows: map<nat, Attempt>, pending: set<nat>, pick: nat)
    requires RowsRead(l, t, rows, pending) && pick in pending
    ensures pick in rows && pick in l.attempts && rows[pick] == l.attempts[pick]
    ensures if Closable(l, t, pick) then RowsRead(l, t, rows, pending - {pick})
            else CompletionRefusal(l, t).Some?
  {
    assert IsLatest(l, t, pick);
  }

  lemma StepOnRow(l: Ledger, t: string, summary: string, rows: map<nat, Attempt>, pending: set<nat>, pick: nat)
    requires pick in pending && pick in rows && pick in l.attempts && rows[pick] == l.attempts[pick]
    ensures OwnStep(State(l, Checking(rows, pending)), t, summary, pick)
            == State(l, if Closable(l, t, pick) then Checking(rows, pending - {pick}) else Rejected)
  {
  }

  lemma PickReads(l: Ledger, t: string, summary: string, rows: map<nat, Attempt>, pending: set<nat>, pick: nat)
    requires RowsRead(l, t, rows, pending) && pick in pending
    ensures var next := OwnStep(State(l, Checking(rows, pending)), t, summary, pick);
            || (next == State(l, Checking(rows, pending - {pick})) && RowsRead(l, t, rows, pending - {pick}))
            || (next == State(l, Rejected) && CompletionRefusal(l, t).Some?)
  {
    OneRead(l, t, rows, pending, pick);
    StepOnRow(l, t, summary, rows, pending, pick);
  }

  lemma WriteReads(l: Ledger, t: string, summary: string, rows: map<nat, Attempt>, pick: nat)
    requires RowsRead(l, t, rows, {})
    ensures OwnStep(State(l, Checking(rows, {})), t, summary, pick)
            == State(Apply(l, CompleteTask(t, summary)), Done)
    ensures Accepted(l, CompleteTask(t, summary))
  {
    LastRead(l, t, rows);
    WriteStep(l, t, summary, rows, pick);
  }

  lemma WriteStep(l: Ledger, t: string, summary: string, rows: map<nat, Attempt>, pick: nat)
    requires CompletionRefusal(l, t).None?
    ensures OwnStep(State(l, Checking(rows, {})), t, summary, pick)
            == State(Apply(l, CompleteTask(t, summary)), Done)
    ensures Accepted(l, CompleteTask(t, summary))
  {
  }

  lemma CheckReads(l: Ledger, t: string, summary: string, s: State, pick: nat)
    requires ReadSoFar(l, t, summary, s) && s.phase.Checking?
    ensures ReadSoFar(l, t, summary, OwnStep(s, t, summary, pick))
  {
    assert s == State(l, Checking(s.phase.rows, s.phase.pending));
    if s.phase.pending == {} {
      WriteReads(l, t, summary, s.phase.rows, pick);
    } else if pick in s.phase.pending {
      PickReads(l, t, summary, s.phase.rows, s.phase.pending, pick);
    }
  }

  lemma OwnReads(l: Ledger, t: string, summary: string, s: State, pick: nat)
    requires ReadSoFar(l, t, summary, s)
    ensures ReadSoFar(l, t, summary, OwnStep(s, t, summary, pick))
  {
    match s.phase
    case Checking(_, _) => CheckReads(l, t, summary, s, pick);
    case SawNoneRunning => RowsReads(l, t, summary);
    case _ =>
  }

  lemma RowsReads(l: Ledger, t: string, summary: string)
    ensures LatestRows(l, t) == map[] ==> !Accepted(l, CompleteTask(t, summary))
  {
    if exists i | i in l.attempts :: IsImplementation(l, t, i) {
      var w :| w in l.attempts && IsImplementation(l, t, w);
      var k := LatestExists(l, t, w);
      assert k in LatestRows(l, t);
    }
  }

  lemma {:induction false} AloneReads(l: Ledger, t: string, summary: string, s: State, moves: seq<Move>)
    requires ReadSoFar(l, t, summary, s) && forall k | 0 <= k < |moves| :: moves[k].Own?
    ensures ReadSoFar(l, t, summary, Moves(s, t, summary, moves))
    decreases |moves|
  {
    if moves != [] {
      OwnReads(l, t, summary, s, moves[0].pick);
      forall k | 0 <= k < |moves[1..]| ensures moves[1..][k].Own? {
        assert moves[1..][k] == moves[k + 1];
      }
      AloneReads(l, t, summary, Next(s, t, summary, moves[0]), moves[1..]);
    }
  }

  /** With nobody else writing, a split complete_task is one atomic call, in whatever order it looks at
      its rows: it goes through only if the atomic call is accepted, with the same effect, and it is
      rejected only if the atomic call is refused. */
  lemma AloneIsAtomic(l: Ledger, t: string, summary: string, moves: seq<Move>)
    requires forall k | 0 <= k < |moves| :: moves[k].Own?
    ensures var s := Moves(State(l, Begin), t, summary, moves);
            && (s.phase.Done? ==> Accepted(l, CompleteTask(t, summary)))
            && (s.phase.Rejected? ==> !Accepted(l, CompleteTask(t, summary)))
            && s.ledger == if s.phase.Done? then Apply(l, CompleteTask(t, summary)) else l
  {
    AloneReads(l, t, summary, State(l, Begin), moves);
  }

  lemma {:induction false} MovesAppend(s: State, t: string, summary: string, first: seq<Move>, rest: seq<Move>)
    ensures Moves(s, t, summary, first + rest) == Moves(Moves(s, t, summary, first), t, summary, rest)
    decreases |first|
  {
    if first == [] {
      assert first + rest == rest;
    } else {
      var all := first + rest;
      assert all[0] == first[0] && all[1..] == first[1..] + rest;
      MovesAppend(Next(s, t, summary, first[0]), t, summary, first[1..], rest);
    }
  }

  lemma OneMove(s: State, t: string, summary: string, move: Move)
    ensures Moves(s, t, summary, [move]) == Next(s, t, summary, move)
  {
  }

  /** Reading every pending row when each of them is approved. */
  lemma {:induction false} PickAll(s: State, t: string, summary: string) returns (moves: seq<Move>)
    requires s.phase.Checking? && s.phase.pending <= s.phase.rows.Keys
    requires forall i | i in s.phase.pending ::
               s.phase.rows[i].status == Succeeded && RowApproved(s.ledger, t, i, s.phase.rows[i])
    ensures Moves(s, t, summary, moves) == State(s.ledger, Checking(s.phase.rows, {}))
    decreases |s.phase.pending|
  {
    if s.phase.pending == {} {
      moves := [];
    } else {
      var i :| i in s.phase.pending;
      var after := Next(s, t, summary, Own(i));
      OneMove(s, t, summary, Own(i));
      var rest := PickAll(after, t, summary);
      MovesAppend(s, t, summary, [Own(i)], rest);
      moves := [Own(i)] + rest;
    }
  }

  /** The three reads before the per-row checks. */
  lemma ReachRows(l: Ledger, t: string, summary: string) returns (moves: seq<Move>)
    requires CompletionRefusal(l, t).None?
    ensures Moves(State(l, Begin), t, summary, moves)
            == State(l, Checking(LatestRows(l, t), LatestRows(l, t).Keys))
  {
    var w :| w in l.attempts && IsImplementation(l, t, w);
    var k := LatestExists(l, t, w);
    assert k in LatestRows(l, t);
    moves := [Own(0)] + [Own(0)] + [Own(0)];
    var s0 := State(l, Begin);
    OneMove(s0, t, summary, Own(0));
    OneMove(State(l, SawReview), t, summary, Own(0));
    OneMove(State(l, SawNoneRunning), t, summary, Own(0));
    MovesAppend(s0, t, summary, [Own(0)], [Own(0)]);
    MovesAppend(s0, t, summary, [Own(0)] + [Own(0)], [Own(0)]);
  }

  lemma Intrude(l: Ledger, t: string, env: Execution.Environment, id: nat, now: nat)
    requires t in l.tasks && l.tasks[t].status == Running && id !in l.attempts
    requires forall i | i in l.attempts :: !RunningImplementation(l, t, i)
    ensures var m := Apply(l, StartAttempt(t, "builder_claude", "primary", None, None, env, id, now));
            && m.tasks == l.tasks && m.reviews == l.reviews && RunningImplementation(m, t, id)
  {
    NeverStuck.BuilderResolves(env);
    assert Strip("primary") == "primary";
    var start := StartAttempt(t, "builder_claude", "primary", None, None, env, id, now);
    forall i | i in l.attempts ensures !HoldsWorkItem(l, t, "primary", i) {
      assert !RunningImplementation(l, t, i);
    }
    assert Accepted(l, start);
  }

  /** Another caller reopens the task, starts an attempt and puts the task back into review. */
  lemma Disturb(l: Ledger, t: string, env: Execution.Environment, now: nat) returns (calls: seq<Call>)
    requires t in l.tasks && l.tasks[t].status == NeedsReview && !HasRunningImplementation(l, t)
    ensures var m := Run(l, calls);
            && m.reviews == l.reviews && HasRunningImplementation(m, t)
            && t in m.tasks && m.tasks[t].status == NeedsReview
  {
    var id := NeverStuck.Bound(l.attempts.Keys);
    var reopen := Transition(t, Running, "");
    var start := StartAttempt(t, "builder_claude", "primary", None, None, env, id, now);
    var back := Transition(t, NeedsReview, "");
    var a := Apply(l, reopen);
    Shuttle(l, t, Running);
    Intrude(a, t, env, id, now);
    Shuttle(Apply(a, start), t, NeedsReview);
    calls := [reopen, start, back];
    RunThree(l, reopen, start, back);
    assert RunningImplementation(Run(l, calls), t, id);
  }

  /** Between running and review a task moves freely. */
  lemma Shuttle(l: Ledger, t: string, target: TaskStatus)
    requires t in l.tasks && l.tasks[t].status in {Running, NeedsReview} && target in {Running, NeedsReview}
    ensures var m := Apply(l, Transition(t, target, ""));
            && m.attempts == l.attempts && m.reviews == l.reviews
            && t in m.tasks && m.tasks[t].status == target
            && forall i :: RunningImplementation(m, t, i) == RunningImplementation(l, t, i)
  {
  }

  lemma RunThree(l: Ledger, a: Call, b: Call, c: Call)
    ensures Run(l, [a, b, c]) == Apply(Apply(Apply(l, a), b), c)
  {
    var m := Apply(Apply(l, a), b);
    assert [a, b, c][1..] == [b, c] && [b, c][1..] == [c] && [c][1..] == [];
    assert Run(l, [a, b, c]) == Run(Apply(l, a), [b, c]) == Run(m, [c]) == Run(Apply(m, c), []);
  }

  lemma RowsStayApproved(l: Ledger, m: Ledger, t: string, i: nat)
    requires CompletionRefusal(l, t).None? && i in LatestRows(l, t) && m.reviews == l.reviews
    ensures l.attempts[i].status == Succeeded && RowApproved(m, t, i, l.attempts[i])
  {
    assert Closable(l, t, i);
    var r :| r in l.reviews && IsNewestReview(l, t, i, r) && Approves(l.reviews[r], l.attempts[i].provider);
    assert IsNewestReview(m, t, i, r);
  }

  function Others(calls: seq<Call>): seq<Move> {
    seq(|calls|, i requires 0 <= i < |calls| => Other(calls[i]))
  }

  lemma {:induction false} OthersRun(s: State, t: string, summary: string, calls: seq<Call>)
    ensures Moves(s, t, summary, Others(calls)) == State(Run(s.ledger, calls), s.phase)
    decreases |calls|
  {
    if calls != [] {
      assert Others(calls)[1..] == Others(calls[1..]);
      OthersRun(State(Apply(s.ledger, calls[0]), s.phase), t, summary, calls[1..]);
    }
  }

  /** The condition is real: whenever a completion would be accepted, there is an interleaving in
      which the task leaves review and comes back, the split completion still closes it, and an
      implementation attempt is left running, so the gate fails. */
  lemma LeavingReviewBreaksTheGate(l: Ledger, t: string, summary: string, env: Execution.Environment,
                                   now: nat)
    requires CompletionRefusal(l, t).None?
    ensures exists moves ::
              var s := Moves(State(l, Begin), t, summary, moves);
              s.phase.Done? && HasRunningImplementation(s.ledger, t) && !Gate(s.ledger, t)
  {
    var s0 := State(l, Begin);
    var rows := LatestRows(l, t);
    var opening := ReachRows(l, t, summary);
    var calls := Disturb(l, t, env, now);
    var m := Run(l, calls);
    OthersRun(State(l, Checking(rows, rows.Keys)), t, summary, calls);
    forall i | i in rows ensures rows[i].status == Succeeded && RowApproved(m, t, i, rows[i]) {
      RowsStayApproved(l, m, t, i);
    }
    var picks := PickAll(State(m, Checking(rows, rows.Keys)), t, summary);
    var last := State(m, Checking(rows, {}));
    OneMove(last, t, summary, Own(0));
    var moves := opening + Others(calls) + picks + [Own(0)];
    MovesAppend(s0, t, summary, opening, Others(calls));
    MovesAppend(s0, t, summary, opening + Others(calls), picks);
    MovesAppend(s0, t, summary, opening + Others(calls) + picks, [Own(0)]);
    var s := Moves(s0, t, summary, moves);
    var i :| i in m.attempts && RunningImplementation(m, t, i);
    assert RunningImplementation(s.ledger, t, i);
  }
}
