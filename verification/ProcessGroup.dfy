/** Proving a child's process group absent: the probe, the process-table scan and the escalation. */
module ProcessGroup {
  import opened Models

  // Microseconds, like every clock reading here.
  const GRACE: nat := 5_000_000
  const POLL: nat := 50_000
  const WAIT_SLICE: nat := 100_000

  // --------------------------------------------------- the process table

  /** A printed row: its columns, None where int() would fail. */
  type Row = seq<Option<int>>

  datatype Unverified =
    | ProbeRefused
    | SignalRefused
    | TableUnreadable
    | MalformedRow(index: nat)
    | EmptyTable
    | SurvivedKill

  predicate Blank(row: Row) {
    row == []
  }

  predicate WellFormed(row: Row) {
    |row| == 2 && row[0].Some? && row[1].Some? && row[0].value > 0 && row[1].value > 0
  }

  predicate Names(row: Row, pgid: nat) {
    WellFormed(row) && row[1].value == pgid
  }

  /** A row that neither decides nor spoils the scan. */
  predicate Passable(row: Row, pgid: nat) {
    Blank(row) || (WellFormed(row) && !Names(row, pgid))
  }

  /** Scan a whole process table for a group: absent only if every row was readable and none names
      it, present at the first row that names it, and unverified at the first bad row before that
      or when no process was seen at all. */
  method ScanProcessTable(rows: seq<Row>, pgid: nat) returns (r: Result<bool, Unverified>)
    ensures r == Success(true) <==>
              && (forall k | 0 <= k < |rows| :: Passable(rows[k], pgid))
              && (exists k | 0 <= k < |rows| :: WellFormed(rows[k]))
    ensures r == Success(false) <==>
              exists k | 0 <= k < |rows| ::
                Names(rows[k], pgid) && forall j | 0 <= j < k :: Passable(rows[j], pgid)
    ensures r == Failure(EmptyTable) <==> forall k | 0 <= k < |rows| :: Blank(rows[k])
    ensures r.Failure? && r != Failure(EmptyTable) ==>
              && r.error.MalformedRow? && r.error.index < |rows|
              && !Blank(rows[r.error.index]) && !WellFormed(rows[r.error.index])
              && forall j | 0 <= j < r.error.index :: Passable(rows[j], pgid)
  {
    var observed := false;
    var k := 0;
    while k < |rows|
      invariant 0 <= k <= |rows|
      invariant forall j | 0 <= j < k :: Passable(rows[j], pgid)
      invariant observed <==> exists j | 0 <= j < k :: WellFormed(rows[j])
    {
      var row := rows[k];
      if row != [] {
        if |row| != 2 || row[0].None? || row[1].None? || row[0].value <= 0 || row[1].value <= 0 {
          assert !Blank(rows[k]) && !WellFormed(rows[k]) && !Passable(rows[k], pgid);
          return Failure(MalformedRow(k));
        }
        observed := true;
        if row[1].value == pgid {
          assert Names(rows[k], pgid) && !Passable(rows[k], pgid);
          return Success(false);
        }
      }
      k := k + 1;
    }
    if !observed {
      return Failure(EmptyTable);
    }
    return Success(true);
  }

  // ------------------------------------------------------------- the host

  /** How killpg answers; a permission error comes with what reading the table would give. */
  datatype Answer =
    | Delivered
    | NoSuchGroup
    | NotPermitted(table: Option<seq<Row>>)
    | OtherError

  datatype Signal = Term | Kill

  datatype HostEvent =
    | Probed(absent: bool, at: nat)
    | ProbeFailed(at: nat)
    | Signalled(signal: Signal, at: nat, refused: bool)

  /** The operating system as the runner meets it: answers and delays are arbitrary, time never
      runs backwards, and a sleep lasts at least as long as was asked. */
  class Host {
    const darwin: bool
    const pgid: nat
    const probeAnswer: nat -> Answer
    const probeTakes: nat -> nat
    const signalAnswer: nat -> Answer
    const oversleep: nat -> nat
    const exitAt: Option<nat>
    const exitCode: int
    const cancelAt: Option<nat>
    const interruptAt: Option<nat>
    var now: nat
    var probes: nat
    var signals: nat
    var sleeps: nat
    ghost var trace: seq<HostEvent>

    constructor (darwin: bool, pgid: nat, probeAnswer: nat -> Answer, probeTakes: nat -> nat,
                 signalAnswer: nat -> Answer, oversleep: nat -> nat, exitAt: Option<nat>,
                 exitCode: int, cancelAt: Option<nat>, interruptAt: Option<nat>)
      ensures trace == [] && now == 0
    {
      this.darwin, this.pgid := darwin, pgid;
      this.probeAnswer, this.probeTakes := probeAnswer, probeTakes;
      this.signalAnswer, this.oversleep := signalAnswer, oversleep;
      this.exitAt, this.exitCode := exitAt, exitCode;
      this.cancelAt, this.interruptAt := cancelAt, interruptAt;
      now, probes, signals, sleeps := 0, 0, 0, 0;
      trace := [];
    }

    /** The cancel flag, once set, stays set. */
    predicate CancelBy(at: nat) {
      cancelAt.Some? && cancelAt.value <= at
    }

    predicate CancelSet()
      reads this
    {
      CancelBy(now)
    }

    /** The leader exits by the deadline of a wait begun at `start`, before any interruption, and with
        the flag unset whenever the wait looked at it until then. */
    predicate ExitsInTime(start: nat, timeout: nat, cancellable: bool) {
      && exitAt.Some? && exitAt.value <= start + timeout
      && !(interruptAt.Some? && interruptAt.value < exitAt.value)
      && (cancellable ==> !CancelBy(LastCheck(start, exitAt.value)))
    }

    /** A cancellable wait begun at `start` finds the flag set at a look, before any exit and any
        interruption that it would have seen first. */
    predicate CancelsInTime(start: nat, timeout: nat) {
      && CancelBy(start + timeout)
      && var look := FirstLook(start, timeout, cancelAt.value);
         look == start
         || (!(exitAt.Some? && exitAt.value <= look) && !(interruptAt.Some? && interruptAt.value <= look))
    }

    /** When a wait begun at `start` sees the exit. */
    function ExitSeen(start: nat): nat {
      if exitAt.Some? && exitAt.value > start then exitAt.value else start
    }

    /** The wait is cut short by an interruption before the leader's exit and before the deadline. */
    predicate InterruptedBy(deadline: nat) {
      && interruptAt.Some? && interruptAt.value <= deadline
      && !(exitAt.Some? && exitAt.value <= interruptAt.value)
    }

    method Sleep(d: nat)
      modifies this
      ensures now == old(now) + d + oversleep(old(sleeps)) && sleeps == old(sleeps) + 1
      ensures trace == old(trace) && probes == old(probes)
    {
      now := now + d + oversleep(sleeps);
      sleeps := sleeps + 1;
    }
  }

  /** The last time a sliced wait begun at `start` looks at the flag before instant `at`. */
  function LastCheck(start: nat, at: nat): nat {
    if at <= start then start else start + (at - start - 1) / WAIT_SLICE * WAIT_SLICE
  }

  /** The instants at which a sliced wait looks at the flag: every slice, and the deadline. */
  predicate IsLook(start: nat, timeout: nat, at: nat) {
    start <= at <= start + timeout && ((at - start) % WAIT_SLICE == 0 || at == start + timeout)
  }

  /** The first of them that is not before instant `flag`. */
  function FirstLook(start: nat, timeout: nat, flag: nat): nat {
    if flag <= start then start
    else
      var at := start + (flag - start + WAIT_SLICE - 1) / WAIT_SLICE * WAIT_SLICE;
      if at > start + timeout then start + timeout else at
  }

  lemma FirstLookIsFirst(start: nat, timeout: nat, flag: nat, at: nat)
    requires flag <= start + timeout && IsLook(start, timeout, at) && flag <= at
    ensures IsLook(start, timeout, FirstLook(start, timeout, flag))
    ensures flag <= FirstLook(start, timeout, flag) <= at
  {
    if flag > start {
      var n := (flag - start + WAIT_SLICE - 1) / WAIT_SLICE;
      assert (n * WAIT_SLICE) % WAIT_SLICE == 0;
      if (at - start) % WAIT_SLICE == 0 {
        assert at - start == (at - start) / WAIT_SLICE * WAIT_SLICE;
        assert (at - start) / WAIT_SLICE >= n;
      }
    }
  }

  predicate AllSeen(events: seq<HostEvent>) {
    forall k | 0 <= k < |events| :: events[k].Probed? && !events[k].absent
  }

  predicate EndsAbsent(events: seq<HostEvent>) {
    events != [] && events[|events| - 1].Probed? && events[|events| - 1].absent
  }

  /** A teardown is given up at a probe without an answer or at a refused signal. */
  predicate GaveUp(events: seq<HostEvent>) {
    events != []
    && (events[|events| - 1].ProbeFailed?
        || (events[|events| - 1].Signalled? && events[|events| - 1].refused))
  }

  /** The group was seen by a last probe a full grace period after a KILL that was not refused. */
  predicate Outlasted(events: seq<HostEvent>, k: nat) {
    && k < |events| && events[k].Signalled? && events[k].signal == Kill && !events[k].refused
    && events[|events| - 1].Probed? && !events[|events| - 1].absent
    && events[|events| - 1].at >= events[k].at + GRACE
  }

  /** Everything that could be tried on the group was tried, and it was not shown absent. */
  predicate Unsettled(events: seq<HostEvent>) {
    GaveUp(events) || exists k: nat | k < |events| :: Outlasted(events, k)
  }

  lemma StillUnsettled(seen: seq<HostEvent>, events: seq<HostEvent>)
    requires Unsettled(events)
    ensures Unsettled(seen + events) && !EndsAbsent(seen + events)
  {
    if !GaveUp(events) {
      var k: nat :| k < |events| && Outlasted(events, k);
      var all := seen + events;
      assert all[|seen| + k] == events[k] && all[|all| - 1] == events[|events| - 1];
      assert Outlasted(all, |seen| + k);
    }
  }

  /** What a table that could be read says: absent when every row is readable, some process is listed
      and none is in the group; present when a row names the group before any bad row. */
  predicate TableSays(table: Option<seq<Row>>, pgid: nat, absent: bool) {
    && table.Some?
    && if absent then
         && (forall k | 0 <= k < |table.value| :: Passable(table.value[k], pgid))
         && (exists k | 0 <= k < |table.value| :: WellFormed(table.value[k]))
       else
         exists k | 0 <= k < |table.value| ::
           Names(table.value[k], pgid) && forall j | 0 <= j < k :: Passable(table.value[j], pgid)
  }

  predicate TableDecides(table: Option<seq<Row>>, pgid: nat) {
    TableSays(table, pgid, true) || TableSays(table, pgid, false)
  }

  /** Behind a bad row nothing counts. */
  lemma BadRowDecidesNothing(rows: seq<Row>, pgid: nat, k: nat)
    requires k < |rows| && !Blank(rows[k]) && !WellFormed(rows[k])
    requires forall j | 0 <= j < k :: Passable(rows[j], pgid)
    ensures !TableDecides(Some(rows), pgid)
  {
    assert !Passable(rows[k], pgid) && !Names(rows[k], pgid);
  }

  /** The answers of a probe that mean absence. */
  predicate AnswersAbsent(answer: Answer, darwin: bool, pgid: nat) {
    answer.NoSuchGroup? || (answer.NotPermitted? && darwin && TableSays(answer.table, pgid, true))
  }

  /** What a probe may conclude from its answer. */
  predicate Concludes(answer: Answer, darwin: bool, pgid: nat, r: Result<bool, Unverified>) {
    match answer
    case Delivered => r == Success(false)
    case NoSuchGroup => r == Success(true)
    case OtherError => r.Failure?
    case NotPermitted(table) =>
      && (r.Success? <==> darwin && TableDecides(table, pgid))
      && (r.Success? ==> TableSays(table, pgid, r.value))
  }

  /** Resolve a permission error through the process table, which only Darwin requires. */
  method ResolveDenied(h: Host, answer: Answer, refused: Unverified) returns (r: Result<bool, Unverified>)
    requires (answer.NotPermitted? || answer.OtherError?) && refused != SurvivedKill
    ensures r.Failure? ==> r.error != SurvivedKill
    ensures answer.OtherError? || !h.darwin ==> r == Failure(refused)
    ensures r.Success? <==> h.darwin && answer.NotPermitted? && TableDecides(answer.table, h.pgid)
    ensures r.Success? ==> TableSays(answer.table, h.pgid, r.value)
  {
    if answer.OtherError? || !h.darwin {
      return Failure(refused);
    }
    if answer.table.None? {
      return Failure(TableUnreadable);
    }
    r := ScanProcessTable(answer.table.value, h.pgid);
    match r {
      case Success(absent) => assert TableSays(answer.table, h.pgid, absent);
      case Failure(_) =>
    }
    if r.Failure? && r.error.MalformedRow? {
      BadRowDecidesNothing(answer.table.value, h.pgid, r.error.index);
    }
  }

  method ProcessGroupAbsent(h: Host) returns (r: Result<bool, Unverified>)
    modifies h
    ensures h.now >= old(h.now)
    ensures h.trace == old(h.trace)
                       + [if r.Success? then Probed(r.value, h.now) else ProbeFailed(h.now)]
    ensures r.Failure? ==> r.error != SurvivedKill
    ensures h.probes == old(h.probes) + 1 && h.sleeps == old(h.sleeps)
    ensures h.now == old(h.now) + h.probeTakes(old(h.probes))
    ensures r == Success(true) <==> AnswersAbsent(h.probeAnswer(old(h.probes)), h.darwin, h.pgid)
    ensures Concludes(h.probeAnswer(old(h.probes)), h.darwin, h.pgid, r)
  {
    var answer := h.probeAnswer(h.probes);
    h.now := h.now + h.probeTakes(h.probes);
    h.probes := h.probes + 1;
    match answer {
      case Delivered => r := Success(false);
      case NoSuchGroup => r := Success(true);
      case _ => r := ResolveDenied(h, answer, ProbeRefused);
    }
    h.trace := h.trace + [if r.Success? then Probed(r.value, h.now) else ProbeFailed(h.now)];
  }

  /** The most probes one wait can make. */
  function ProbeBound(timeout: nat): nat {
    (timeout + POLL - 1) / POLL + 1
  }

  /** All but the last of them before the deadline. */
  predicate DoneBy(events: seq<HostEvent>, deadline: nat) {
    forall k | 0 <= k < |events| - 1 :: events[k].at < deadline
  }

  /** What one wait adds to the trace, started at `start`. */
  predicate WaitTrace(events: seq<HostEvent>, start: nat, timeout: nat, r: Result<bool, Unverified>) {
    && 1 <= |events| <= ProbeBound(timeout)
    && AllSeen(events[..|events| - 1]) && DoneBy(events, start + timeout)
    && match r
       case Success(true) => EndsAbsent(events)
       case Success(false) => AllSeen(events) && events[|events| - 1].at >= start + timeout
       case Failure(error) => events[|events| - 1].ProbeFailed? && error != SurvivedKill
  }

  /** How long one sleep between probes is asked to be. */
  function Nap(at: nat, deadline: nat): nat {
    if at >= deadline then 0 else if deadline - at < POLL then deadline - at else POLL
  }

  /** Probe k follows the one before after one nap, as long as the host makes it. */
  predicate FollowsAt(h: Host, events: seq<HostEvent>, start: nat, deadline: nat, probe: nat, sleep: nat, k: nat)
    requires k < |events|
  {
    events[k].at == h.probeTakes(probe + k)
                    + if k == 0 then start
                      else events[k - 1].at + Nap(events[k - 1].at, deadline) + h.oversleep(sleep + k - 1)
  }

  predicate Paced(h: Host, events: seq<HostEvent>, start: nat, deadline: nat, probe: nat, sleep: nat) {
    forall k | 0 <= k < |events| :: FollowsAt(h, events, start, deadline, probe, sleep, k)
  }

  lemma PacedSnoc(h: Host, events: seq<HostEvent>, e: HostEvent, start: nat, deadline: nat, probe: nat, sleep: nat)
    requires Paced(h, events, start, deadline, probe, sleep)
    requires FollowsAt(h, events + [e], start, deadline, probe, sleep, |events|)
    ensures Paced(h, events + [e], start, deadline, probe, sleep)
  {
    var all := events + [e];
    forall k | 0 <= k < |all| ensures FollowsAt(h, all, start, deadline, probe, sleep, k) {
      if k < |events| {
        assert FollowsAt(h, events, start, deadline, probe, sleep, k);
      }
    }
  }

  /** The state of a wait before its next probe. */
  ghost predicate Polling(h: Host, events: seq<HostEvent>, start: nat, timeout: nat, probe: nat, sleep: nat)
    reads h
  {
    && AllSeen(events) && Paced(h, events, start, start + timeout, probe, sleep)
    && (forall k | 0 <= k < |events| :: events[k].at < start + timeout)
    && h.probes == probe + |events| && h.sleeps == sleep + |events|
    && h.now == (if events == [] then start
                 else var last := events[|events| - 1].at;
                      last + Nap(last, start + timeout) + h.oversleep(h.sleeps - 1))
    && (h.now >= start + timeout || h.now >= start + |events| * POLL)
    && (events != [] ==> (|events| - 1) * POLL < timeout)
  }

  method PollOnce(h: Host, ghost events: seq<HostEvent>, ghost start: nat, ghost timeout: nat,
                  ghost probe: nat, ghost sleep: nat)
    returns (r: Result<bool, Unverified>, ghost e: HostEvent)
    requires Polling(h, events, start, timeout, probe, sleep)
    modifies h
    ensures h.trace == old(h.trace) + [e] && h.now == e.at >= old(h.now)
    ensures e == if r.Success? then Probed(r.value, h.now) else ProbeFailed(h.now)
    ensures r.Failure? ==> r.error != SurvivedKill
    ensures h.probes == old(h.probes) + 1 && h.sleeps == old(h.sleeps)
    ensures Paced(h, events + [e], start, start + timeout, probe, sleep)
    ensures |events| + 1 <= ProbeBound(timeout)
  {
    r := ProcessGroupAbsent(h);
    e := if r.Success? then Probed(r.value, h.now) else ProbeFailed(h.now);
    PacedSnoc(h, events, e, start, start + timeout, probe, sleep);
    ProbesBounded(|events|, timeout);
  }

  /** Poll until the group is absent or the timeout has passed: every probe but the last saw the
      group before the deadline, a negative answer means the last probe ended at or after the deadline
      and saw it too, probes follow each other by one nap, and there are at most
      ceil(timeout / poll) + 1 of them. */
  method WaitForProcessGroupAbsence(h: Host, timeout: nat)
    returns (r: Result<bool, Unverified>, ghost events: seq<HostEvent>)
    modifies h
    ensures h.trace == old(h.trace) + events && h.now >= old(h.now)
    ensures WaitTrace(events, old(h.now), timeout, r)
    ensures Paced(h, events, old(h.now), old(h.now) + timeout, old(h.probes), old(h.sleeps))
  {
    var start := h.now;
    var deadline := h.now + timeout;
    events := [];
    while true
      invariant h.trace == old(h.trace) + events && h.now >= start
      invariant Polling(h, events, start, timeout, old(h.probes), old(h.sleeps))
      decreases if h.now < deadline then deadline - h.now else 0
    {
      ghost var e;
      ghost var before := events;
      r, e := PollOnce(h, events, start, timeout, old(h.probes), old(h.sleeps));
      events := events + [e];
      if r.Failure? || r.value || h.now >= deadline {
        WaitEnds(before, e, start, timeout, r);
        return;
      }
      TakeNap(h, deadline, events, start, timeout, old(h.probes), old(h.sleeps));
    }
  }

  /** The last probe of a wait ends it. */
  lemma WaitEnds(before: seq<HostEvent>, e: HostEvent, start: nat, timeout: nat, r: Result<bool, Unverified>)
    requires AllSeen(before) && forall k | 0 <= k < |before| :: before[k].at < start + timeout
    requires |before| + 1 <= ProbeBound(timeout)
    requires e == if r.Success? then Probed(r.value, e.at) else ProbeFailed(e.at)
    requires r.Failure? ==> r.error != SurvivedKill
    requires r == Success(false) ==> e.at >= start + timeout
    ensures WaitTrace(before + [e], start, timeout, r)
  {
    var events := before + [e];
    assert events[..|events| - 1] == before;
  }

  method TakeNap(h: Host, deadline: nat, ghost events: seq<HostEvent>, ghost start: nat, ghost timeout: nat,
                 ghost probe: nat, ghost sleep: nat)
    requires deadline == start + timeout && h.now < deadline
    requires events != [] && events[|events| - 1].at == h.now
    requires AllSeen(events) && Paced(h, events, start, deadline, probe, sleep)
    requires forall k | 0 <= k < |events| :: events[k].at < deadline
    requires h.probes == probe + |events| && h.sleeps == sleep + |events| - 1
    requires h.now >= start + (|events| - 1) * POLL
    modifies h
    ensures Polling(h, events, start, timeout, probe, sleep)
    ensures h.now >= old(h.now) && h.trace == old(h.trace)
    ensures h.now > old(h.now)
  {
    var remaining := deadline - h.now;
    NextNap(|events| - 1, start, timeout, h.now);
    h.Sleep(if remaining < POLL then remaining else POLL);
  }

  /** Before the deadline a nap keeps the probes a poll interval apart. */
  lemma NextNap(n: nat, start: nat, timeout: nat, now: nat)
    requires now < start + timeout && now >= start + n * POLL
    ensures n * POLL < timeout && now + POLL >= start + (n + 1) * POLL
  {
  }

  lemma ProbesBounded(n: nat, timeout: nat)
    requires n > 0 ==> (n - 1) * POLL < timeout
    ensures n + 1 <= ProbeBound(timeout)
  {
  }

  method SignalProcessGroup(h: Host, signal: Signal) returns (refused: Option<Unverified>)
    modifies h
    ensures h.now == old(h.now)
    ensures h.trace == old(h.trace) + [Signalled(signal, h.now, refused.Some?)]
    ensures refused.Some? ==> refused.value != SurvivedKill
    ensures var answer := h.signalAnswer(old(h.signals));
            && h.signals == old(h.signals) + 1
            && (refused.None? <==>
                  || answer.Delivered? || answer.NoSuchGroup?
                  || (h.darwin && answer.NotPermitted? && TableDecides(answer.table, h.pgid)))
            && (answer.OtherError? || (answer.NotPermitted? && !h.darwin) ==> refused == Some(SignalRefused))
  {
    var answer := h.signalAnswer(h.signals);
    h.signals := h.signals + 1;
    match answer {
      case Delivered => refused := None;
      case NoSuchGroup => refused := None;
      case _ =>
        var table := ResolveDenied(h, answer, SignalRefused);
        refused := if table.Failure? then Some(table.error) else None;
    }
    h.trace := h.trace + [Signalled(signal, h.now, refused.Some?)];
  }

  // ------------------------------------------------------- the escalation

  /** How a process group was found gone. */
  datatype Teardown = NotLaunched | AlreadyAbsent | AfterTerm | AfterKill | OnLeaderExit

  /** The parts of one teardown: the first probe, then at most TERM and its grace period, then at
      most KILL and its grace period. */
  datatype Escalation = Escalation(
    first: seq<HostEvent>,
    term: seq<HostEvent>,
    grace: seq<HostEvent>,
    kill: seq<HostEvent>,
    last: seq<HostEvent>)
  {
    function All(): seq<HostEvent> {
      first + term + grace + kill + last
    }
  }

  predicate AtMostOne(events: seq<HostEvent>, signal: Signal) {
    events == [] || (|events| == 1 && events[0].Signalled? && events[0].signal == signal)
  }

  predicate NoSignal(events: seq<HostEvent>) {
    forall k | 0 <= k < |events| :: !events[k].Signalled?
  }

  /** TERM only once the group was seen; KILL only after every probe through a full grace period
      from TERM saw the group. */
  predicate Escalates(e: Escalation) {
    && AtMostOne(e.term, Term) && AtMostOne(e.kill, Kill)
    && NoSignal(e.first) && NoSignal(e.grace) && NoSignal(e.last)
    && (e.term != [] ==> |e.first| == 1 && AllSeen(e.first))
    && (e.grace != [] ==> e.term != [] && !e.term[0].refused)
    && (e.last != [] ==> e.kill != [] && !e.kill[0].refused)
    && (e.kill != [] ==>
          && e.term != [] && e.grace != [] && AllSeen(e.grace)
          && e.grace[|e.grace| - 1].at >= e.term[0].at + GRACE)
    && |e.grace| <= ProbeBound(GRACE) && |e.last| <= ProbeBound(GRACE)
    && (e.term != [] ==> DoneBy(e.grace, e.term[0].at + GRACE))
    && (e.kill != [] ==> DoneBy(e.last, e.kill[0].at + GRACE))
  }

  predicate TeardownResult(e: Escalation, r: Result<Teardown, Unverified>) {
    match r
    case Success(AlreadyAbsent) => e.term == [] && EndsAbsent(e.first)
    case Success(AfterTerm) => e.term != [] && e.kill == [] && EndsAbsent(e.grace)
    case Success(AfterKill) => e.kill != [] && EndsAbsent(e.last)
    case Success(_) => false
    case Failure(SurvivedKill) =>
      Escalates(e) && e.kill != [] && e.last != [] && AllSeen(e.last)
      && e.last[|e.last| - 1].at >= e.kill[0].at + GRACE
    case Failure(_) => GaveUp(e.All())
  }

  /** What a signal and the grace period after it add to the trace. */
  predicate GraceTrace(sent: HostEvent, events: seq<HostEvent>, r: Result<bool, Unverified>)
    requires sent.Signalled?
  {
    && NoSignal(events) && |events| <= ProbeBound(GRACE) && DoneBy(events, sent.at + GRACE)
    && match r
       case Success(true) => EndsAbsent(events)
       case Success(false) =>
         events != [] && AllSeen(events) && events[|events| - 1].at >= sent.at + GRACE
       case Failure(error) => error != SurvivedKill && GaveUp([sent] + events)
  }

  method SignalAndWait(h: Host, signal: Signal)
    returns (r: Result<bool, Unverified>, ghost sent: HostEvent, ghost events: seq<HostEvent>)
    modifies h
    ensures h.now >= old(h.now) && h.trace == old(h.trace) + [sent] + events
    ensures sent.Signalled? && sent.signal == signal && sent.at == old(h.now)
    ensures (sent.refused ==> events == []) && GraceTrace(sent, events, r)
  {
    var refused := SignalProcessGroup(h, signal);
    sent := Signalled(signal, h.now, refused.Some?);
    if refused.Some? {
      return Failure(refused.value), sent, [];
    }
    r, events := WaitForProcessGroupAbsence(h, GRACE);
  }

  /** Tear a process group down: probe, TERM, wait, KILL, wait. Absence is only claimed when the
      last probe said absent. */
  method TerminateProcess(h: Host) returns (r: Result<Teardown, Unverified>, ghost e: Escalation)
    modifies h
    ensures h.now >= old(h.now) && h.trace == old(h.trace) + e.All()
    ensures Escalates(e) && TeardownResult(e, r)
    ensures r.Success? ==> EndsAbsent(h.trace) && r.value in {AlreadyAbsent, AfterTerm, AfterKill}
    ensures r.Failure? ==> Unsettled(e.All())
    ensures e.first != [] && e.first[0].at == old(h.now) + h.probeTakes(old(h.probes))
  {
    var absent, first := FirstProbe(h);
    e := Escalation(first, [], [], [], []);
    if absent.Failure? {
      return Failure(absent.error), e;
    }
    if absent.value {
      return Success(AlreadyAbsent), e;
    }
    var gone, term, grace := SignalAndWait(h, Term);
    e := Escalation(first, [term], grace, [], []);
    if gone.Failure? {
      return Failure(gone.error), e;
    }
    if gone.value {
      return Success(AfterTerm), e;
    }
    r, e := KillGroup(h, e);
  }

  /** A wait without a timeout is one probe. */
  method FirstProbe(h: Host) returns (r: Result<bool, Unverified>, ghost first: seq<HostEvent>)
    modifies h
    ensures h.now >= old(h.now) && h.trace == old(h.trace) + first && |first| == 1
    ensures first[0].at == old(h.now) + h.probeTakes(old(h.probes))
    ensures r.Failure? ==> first[0].ProbeFailed? && r.error != SurvivedKill
    ensures r.Success? ==> first[0].Probed? && first[0].absent == r.value
  {
    ghost var start, probe, sleep := h.now, h.probes, h.sleeps;
    r, first := WaitForProcessGroupAbsence(h, 0);
    assert FollowsAt(h, first, start, start, probe, sleep, 0);
  }

  /** KILL and its grace period, for a group that TERM left there. */
  method KillGroup(h: Host, ghost before: Escalation) returns (r: Result<Teardown, Unverified>, ghost e: Escalation)
    requires Escalates(before) && before.kill == [] && before.last == []
    requires before.term != [] && before.grace != [] && AllSeen(before.grace)
    requires before.grace[|before.grace| - 1].at >= before.term[0].at + GRACE
    modifies h
    ensures e.first == before.first && e.term == before.term && e.grace == before.grace
    ensures h.now >= old(h.now) && h.trace == old(h.trace) + e.kill + e.last
    ensures Escalates(e) && TeardownResult(e, r)
    ensures r.Success? ==> EndsAbsent(h.trace) && r.value == AfterKill
    ensures r.Failure? ==> Unsettled(e.All())
  {
    var dead, kill, last := SignalAndWait(h, Kill);
    e := before.(kill := [kill], last := last);
    if dead.Failure? {
      return Failure(dead.error), e;
    }
    if dead.value {
      return Success(AfterKill), e;
    }
    assert Outlasted(e.All(), |e.first + e.term + e.grace|);
    return Failure(SurvivedKill), e;
  }

  // ----------------------------------------------------- waiting for exit

  datatype WaitEnd =
    | Exited(code: int)
    | TimedOut
    | CancelledWith(teardown: Teardown)
    | CancelUnverified
    | Interrupted

  /** One bounded wait for the leader. */
  method WaitOnce(h: Host, timeout: nat) returns (r: Option<WaitEnd>)
    modifies h
    ensures h.trace == old(h.trace) && h.probes == old(h.probes)
    ensures var deadline := old(h.now) + timeout;
            var exits := h.exitAt.Some? && h.exitAt.value <= deadline;
            && (r == Some(Interrupted) <==> h.InterruptedBy(deadline))
            && (r == Some(Exited(h.exitCode)) <==> exits && !h.InterruptedBy(deadline))
            && (r == None <==> !exits && !h.InterruptedBy(deadline))
    ensures r == Some(Exited(h.exitCode)) ==> h.now == h.ExitSeen(old(h.now))
    ensures r == Some(Interrupted) ==> h.now >= old(h.now)
    ensures r == None ==> h.now == old(h.now) + timeout
  {
    if h.InterruptedBy(h.now + timeout) {
      h.now := if h.interruptAt.value > h.now then h.interruptAt.value else h.now;
      return Some(Interrupted);
    }
    if h.exitAt.Some? && h.exitAt.value <= h.now + timeout {
      h.now := h.ExitSeen(h.now);
      return Some(Exited(h.exitCode));
    }
    h.now := h.now + timeout;
    return None;
  }

  /** Wait for the leader, watching the cancel flag when there is one. How the wait ends is decided by
      the clock, the leader, the interruption and the flag; a cancellation is taken at the first look
      that finds the flag set. `e` is the teardown it caused. */
  method WaitForProcess(h: Host, timeout: nat, cancellable: bool) returns (r: WaitEnd, ghost e: Escalation)
    requires timeout > 0
    modifies h
    ensures h.now >= old(h.now) && h.trace == old(h.trace) + e.All()
    ensures r.Exited? <==> h.ExitsInTime(old(h.now), timeout, cancellable)
    ensures r.CancelledWith? || r.CancelUnverified? <==> cancellable && h.CancelsInTime(old(h.now), timeout)
    ensures r.Interrupted? <==>
              h.InterruptedBy(old(h.now) + timeout) && !(cancellable && h.CancelsInTime(old(h.now), timeout))
    ensures r.Exited? ==> r.code == h.exitCode && h.now == h.ExitSeen(old(h.now))
    ensures r.TimedOut? ==>
              && h.now == old(h.now) + timeout && !(cancellable && h.CancelSet())
              && !(h.exitAt.Some? && h.exitAt.value <= h.now)
    ensures r.Exited? || r.TimedOut? || r.Interrupted? ==> e.All() == [] && h.probes == old(h.probes)
    ensures r.CancelledWith? || r.CancelUnverified? ==>
              && h.CancelSet() && Escalates(e) && e.first != []
              && e.first[0].at == FirstLook(old(h.now), timeout, h.cancelAt.value) + h.probeTakes(old(h.probes))
    ensures r.CancelledWith? ==>
              && EndsAbsent(h.trace) && TeardownResult(e, Success(r.teardown))
              && r.teardown in {AlreadyAbsent, AfterTerm, AfterKill}
    ensures r.CancelUnverified? ==> Unsettled(e.All())
  {
    e := Escalation([], [], [], [], []);
    if !cancellable {
      var once := WaitOnce(h, timeout);
      return if once.None? then TimedOut else once.value, e;
    }
    var start := h.now;
    var deadline := h.now + timeout;
    ghost var k: nat := 0;
    while true
      invariant h.trace == old(h.trace) && h.probes == old(h.probes)
      invariant h.now == NthLook(start, timeout, k) && (k > 0 ==> start + (k - 1) * WAIT_SLICE < deadline)
      invariant k > 0 ==> !h.CancelBy(NthLook(start, timeout, k - 1))
      invariant k > 0 ==> !(h.exitAt.Some? && h.exitAt.value <= h.now) && !h.InterruptedBy(h.now)
      decreases deadline - h.now
    {
      if h.CancelSet() {
        FlagFoundAt(h, start, timeout, k);
        ghost var torn;
        r, torn := CancelNow(h);
        return r, torn;
      }
      if h.now >= deadline {
        return TimedOut, e;
      }
      NextLook(start, timeout, k);
      var remaining := deadline - h.now;
      var once := WaitOnce(h, if remaining < WAIT_SLICE then remaining else WAIT_SLICE);
      if once.Some? {
        SeenBeforeFlag(h, start, timeout, k, once.value);
        return once.value, e;
      }
      k := k + 1;
    }
  }

  /** The k-th look. */
  function NthLook(start: nat, timeout: nat, k: nat): nat {
    if start + k * WAIT_SLICE <= start + timeout then start + k * WAIT_SLICE else start + timeout
  }

  lemma NextLook(start: nat, timeout: nat, k: nat)
    requires NthLook(start, timeout, k) < start + timeout
    ensures var at := NthLook(start, timeout, k);
            && at == start + k * WAIT_SLICE
            && NthLook(start, timeout, k + 1)
               == at + if start + timeout - at < WAIT_SLICE then start + timeout - at else WAIT_SLICE
  {
  }

  method CancelNow(h: Host) returns (r: WaitEnd, ghost e: Escalation)
    modifies h
    requires h.CancelSet()
    ensures h.now >= old(h.now) && h.trace == old(h.trace) + e.All() && h.CancelSet()
    ensures r.CancelledWith? || r.CancelUnverified?
    ensures Escalates(e) && e.first != [] && e.first[0].at == old(h.now) + h.probeTakes(old(h.probes))
    ensures r.CancelledWith? ==>
              && EndsAbsent(h.trace) && TeardownResult(e, Success(r.teardown))
              && r.teardown in {AlreadyAbsent, AfterTerm, AfterKill}
    ensures r.CancelUnverified? ==> Unsettled(e.All())
  {
    var torn;
    torn, e := TerminateProcess(h);
    r := if torn.Success? then CancelledWith(torn.value) else CancelUnverified;
  }

  lemma FirstLookIsNth(start: nat, timeout: nat, flag: nat, k: nat)
    requires flag <= NthLook(start, timeout, k)
    requires k > 0 ==> flag > NthLook(start, timeout, k - 1) && start + (k - 1) * WAIT_SLICE < start + timeout
    ensures FirstLook(start, timeout, flag) == NthLook(start, timeout, k)
  {
    if k > 0 {
      assert (flag - start + WAIT_SLICE - 1) / WAIT_SLICE == k || flag == start + timeout;
    }
  }

  lemma LaterLook(start: nat, timeout: nat, flag: nat, k: nat)
    requires flag > NthLook(start, timeout, k) && NthLook(start, timeout, k) < start + timeout
    requires flag <= start + timeout
    ensures FirstLook(start, timeout, flag) >= NthLook(start, timeout, k + 1) > start
  {
    NextLook(start, timeout, k);
    assert (flag - start + WAIT_SLICE - 1) / WAIT_SLICE >= k + 1;
  }

  /** A flag found set at the k-th look, and at none before, ends the wait there. */
  lemma FlagFoundAt(h: Host, start: nat, timeout: nat, k: nat)
    requires var at := NthLook(start, timeout, k);
             && h.CancelBy(at)
             && (k > 0 ==> !(h.exitAt.Some? && h.exitAt.value <= at) && !h.InterruptedBy(at))
    requires k > 0 ==> start + (k - 1) * WAIT_SLICE < start + timeout
    requires k > 0 ==> !h.CancelBy(NthLook(start, timeout, k - 1))
    ensures h.CancelsInTime(start, timeout) && !h.ExitsInTime(start, timeout, true)
    ensures FirstLook(start, timeout, h.cancelAt.value) == NthLook(start, timeout, k)
  {
    FirstLookIsNth(start, timeout, h.cancelAt.value, k);
    if h.exitAt.Some? && h.exitAt.value <= start + timeout && k > 0 {
      LastCheckNotBefore(start, k, h.exitAt.value);
    }
  }

  lemma LastCheckNotBefore(start: nat, k: nat, at: nat)
    requires at > start + k * WAIT_SLICE
    ensures LastCheck(start, at) >= start + k * WAIT_SLICE
  {
    assert (at - start - 1) / WAIT_SLICE >= k;
  }

  /** An exit or interruption before the next look, with the flag unset at this one, comes first. */
  lemma SeenBeforeFlag(h: Host, start: nat, timeout: nat, k: nat, r: WaitEnd)
    requires var at := NthLook(start, timeout, k);
             && at < start + timeout && !h.CancelBy(at)
             && (k > 0 ==> !(h.exitAt.Some? && h.exitAt.value <= at) && !h.InterruptedBy(at))
    requires var next := NthLook(start, timeout, k + 1);
             && (r.Exited? ==> h.exitAt.Some? && h.exitAt.value <= next && !h.InterruptedBy(next))
             && (r.Interrupted? ==> h.InterruptedBy(next))
             && (r.Exited? || r.Interrupted?)
    ensures !h.CancelsInTime(start, timeout)
    ensures r.Exited? ==> h.ExitsInTime(start, timeout, true)
    ensures r.Interrupted? ==> h.InterruptedBy(start + timeout) && !h.ExitsInTime(start, timeout, true)
  {
    NextLook(start, timeout, k);
    if h.CancelBy(start + timeout) {
      LaterLook(start, timeout, h.cancelAt.value, k);
    }
    if r.Exited? {
      LastCheckIs(start, NthLook(start, timeout, k), k, h.exitAt.value);
    }
  }

  lemma LastCheckIs(start: nat, checked: nat, k: nat, at: nat)
    requires checked == start + k * WAIT_SLICE && at <= checked + WAIT_SLICE
    requires at > checked || (at <= start && checked == start)
    ensures LastCheck(start, at) == checked
  {
  }
}
