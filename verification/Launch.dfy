/** The launch block: start the child, watch it, and funnel every exit into one of three ends. */
module Launch {
  import opened Models
  import opened TaskLedger
  import opened LedgerInvariants
  import opened Store
  import opened ProcessGroup

  /** The runtimes fall into two groups: the Codex runtimes check the process group when the leader
      exits, and only direct Codex runs may carry a cancel flag. */
  datatype Plan = Plan(codex: bool, cancellable: bool, coordinator: bool, timeout: nat)

  /** What may go wrong around the child, beyond what the host decides. */
  datatype Script = Script(
    setupFails: bool,
    spawnFails: bool,
    pid: int,
    promptFails: bool,
    readerStuck: bool,
    readerStillStuck: bool,
    readerErrors: bool,
    resultModeFails: bool,
    closeFails: bool,
    others: seq<Call>)

  /** The exceptions of the launch block. */
  datatype Raised =
    | CancellationRequested(teardown: Teardown)
    | TeardownUnverified
    | SurvivedLeader(teardown: Teardown)
    | Interruption
    | TimeLimit
    | Broken

  datatype GroupError = Unproven | Outlived

  /** Where the launch block ends: past its last line, in a cancellation that may be recorded, or in
      a failure, with the exception that then leaves run_task. */
  datatype End =
    | ExitedEnd(code: int, teardown: Option<Teardown>)
    | CancelledEnd(proof: Teardown)
    | FailedEnd(group: Option<GroupError>, teardown: Option<Teardown>, leaves: Raised)

  /** What the body has established when it is left; `leader` is the leader's return code, once the
      wait has returned one. */
  datatype Body = Body(
    raised: Option<Raised>,
    launched: bool,
    readerStarted: bool,
    teardown: Option<Teardown>,
    leader: Option<int>)

  ghost predicate ValidPlan(p: Plan) {
    (p.cancellable ==> p.codex) && p.timeout > 0
  }

  // ----------------------------------------------- what must come of it

  /** Where the launch block is entered: the clock, the number of the next probe, and whether the
      ledger takes the process id. */
  datatype Outset = Outset(at: nat, probe: nat, tracked: bool)

  /** A child is launched unless something keeps it from being started or the flag is set. */
  predicate Launches(p: Plan, h: Host, o: Outset, s: Script) {
    !s.setupFails && !s.spawnFails && !(p.cancellable && h.CancelBy(o.at))
  }

  predicate Starts(p: Plan, h: Host, o: Outset, s: Script) {
    Launches(p, h, o, s) && o.tracked && !(p.codex && s.promptFails)
  }

  /** The only probe of a Codex leader's group, at its exit, is answered by absence. */
  predicate GoneAtExit(p: Plan, h: Host, o: Outset) {
    p.codex ==> AnswersAbsent(h.probeAnswer(o.probe), h.darwin, h.pgid)
  }

  /** When the exit has been seen and, for Codex, the group probed. */
  function Seen(p: Plan, h: Host, o: Outset): nat {
    h.ExitSeen(o.at) + (if p.codex then h.probeTakes(o.probe) else 0)
  }

  /** What may still fail once the leader is gone. */
  predicate FaultAfterExit(p: Plan, s: Script) {
    s.readerStuck || s.readerErrors || (p.codex && s.resultModeFails) || s.closeFails
  }

  /** The conditions on child, clock, group, reader and flag under which the block runs to its end. */
  predicate Smooth(p: Plan, h: Host, o: Outset, s: Script) {
    && Starts(p, h, o, s)
    && h.ExitsInTime(o.at, p.timeout, p.cancellable)
    && GoneAtExit(p, h, o)
    && !FaultAfterExit(p, s)
    && !(p.cancellable && h.CancelBy(Seen(p, h, o)))
  }

  /** A cancellation asked for is found: before the launch, at a look while the leader runs, or once
      the leader is gone with its group and the reader has stopped. */
  predicate Cancels(p: Plan, h: Host, o: Outset, s: Script) {
    && p.cancellable
    && (|| (!s.setupFails && h.CancelBy(o.at))
        || (Starts(p, h, o, s) && h.CancelsInTime(o.at, p.timeout))
        || (Starts(p, h, o, s) && h.ExitsInTime(o.at, p.timeout, p.cancellable) && GoneAtExit(p, h, o)
            && !s.readerStuck && !s.readerErrors && h.CancelBy(Seen(p, h, o))))
  }

  /** When a wait is given up, for a flag or for its deadline, the teardown starts with a probe at once. */
  predicate TornDownFrom(events: seq<HostEvent>, h: Host, o: Outset, at: nat) {
    events != [] && events[0].at == at + h.probeTakes(o.probe)
  }

  predicate ReaderFault(s: Script) {
    s.readerErrors || (s.readerStuck && s.readerStillStuck)
  }

  /** What lies behind an exception that leaves run_task. */
  predicate Caused(p: Plan, h: Host, o: Outset, s: Script, events: seq<HostEvent>, leaves: Raised) {
    match leaves
    case Broken =>
      if !Launches(p, h, o, s) then s.setupFails || s.spawnFails
      else if !Starts(p, h, o, s) then !o.tracked || (p.codex && s.promptFails)
      else h.ExitsInTime(o.at, p.timeout, p.cancellable) && FaultAfterExit(p, s)
    case Interruption => h.InterruptedBy(o.at + p.timeout)
    case TimeLimit =>
      && !(h.exitAt.Some? && h.exitAt.value <= o.at + p.timeout)
      && TornDownFrom(events, h, o, o.at + p.timeout)
    case TeardownUnverified => Unsettled(events)
    case SurvivedLeader(_) => SurvivedAtExit(events)
    case CancellationRequested(_) => Starts(p, h, o, s) && ReaderFault(s)
  }

  /** A cancellation that is found goes first: it is recorded, unless the teardown is not verified or
      the reader fails, and while the leader runs the teardown starts at the look that found it. */
  predicate TakesCancel(p: Plan, h: Host, o: Outset, s: Script, events: seq<HostEvent>, raised: Raised) {
    && (Cancels(p, h, o, s) ==> raised.CancellationRequested? || raised.TeardownUnverified?)
    && (raised.CancellationRequested? ==> Cancels(p, h, o, s) || SurvivedAtExit(events))
    && (Starts(p, h, o, s) && p.cancellable && h.CancelsInTime(o.at, p.timeout) ==>
          TornDownFrom(events, h, o, FirstLook(o.at, p.timeout, h.cancelAt.value)))
  }

  /** How the environment decides the end: whether the child is launched, whether its exit is seen and
      whether the block runs to its end, whether a cancellation is taken, and no failure without its
      cause. */
  predicate Explained(p: Plan, h: Host, o: Outset, s: Script, events: seq<HostEvent>, launched: bool,
                      leader: Option<int>, end: End)
  {
    && (launched <==> Launches(p, h, o, s))
    && (leader.Some? <==> Starts(p, h, o, s) && h.ExitsInTime(o.at, p.timeout, p.cancellable))
    && (end.ExitedEnd? <==> Smooth(p, h, o, s))
    && (end.FailedEnd? ==>
          Caused(p, h, o, s, events, end.leaves) && TakesCancel(p, h, o, s, events, end.leaves))
    && (end.CancelledEnd? ==> TakesCancel(p, h, o, s, events, CancellationRequested(end.proof)))
    && (Cancels(p, h, o, s) ==> !end.ExitedEnd?)
  }

  // ------------------------------------------------------- what happened

  /** Other writers act on the ledger while the child runs. */
  method OthersWrite(store: TaskStore, calls: seq<Call>)
    requires store.Valid()
    modifies store
    ensures store.Valid() && store.State() == Run(old(store.State()), calls)
  {
    RunKeepsInv(store.State(), calls);
    var m := Run(store.State(), calls);
    store.tasks, store.attempts, store.reviews, store.log := m.tasks, m.attempts, m.reviews, m.log;
  }

  predicate Torn(t: Teardown) {
    t in {AlreadyAbsent, AfterTerm, AfterKill}
  }

  /** The leader has exited by now, with that code. */
  predicate LeaderGone(h: Host, leader: Option<int>)
    reads h
  {
    leader.Some? ==> leader.value == h.exitCode && h.exitAt.Some? && h.exitAt.value <= h.now
  }

  /** The group was observed once, at the leader's exit, and was absent: nothing was ever signalled. */
  predicate AbsentAtExit(events: seq<HostEvent>) {
    |events| == 1 && events[0].Probed? && events[0].absent
  }

  /** The first observation, at the leader's exit, saw the group: a descendant survived. */
  predicate SurvivedAtExit(events: seq<HostEvent>) {
    events != [] && events[0].Probed? && !events[0].absent
  }

  predicate UnknownAtExit(events: seq<HostEvent>) {
    |events| == 1 && events[0].ProbeFailed?
  }

  /** What the probe at a Codex leader's exit forces: an absent group is left alone, a survivor is
      torn down and reported, and an unreadable answer is never taken for absence. */
  predicate ProbedAtExit(events: seq<HostEvent>, b: Body) {
    || (AbsentAtExit(events) && b.teardown == Some(OnLeaderExit)
        && (b.raised.Some? ==> b.raised.value.CancellationRequested? || b.raised.value.Broken?))
    || (SurvivedAtExit(events) && b.raised.Some?
        && (b.raised.value.SurvivedLeader? || b.raised.value.CancellationRequested?
            || b.raised.value.TeardownUnverified?)
        && (b.raised.value.TeardownUnverified? <==> b.teardown.None?))
    || (UnknownAtExit(events) && b.raised == Some(TeardownUnverified))
  }

  /** What the watch or the body knows of the child: how its leader and its group were observed since
      the trace was `before`. */
  ghost predicate Observed(p: Plan, h: Host, before: seq<HostEvent>, b: Body)
    reads h
  {
    && before <= h.trace && LeaderGone(h, b.leader)
    && (b.leader.Some? ==> b.launched)
    && (!b.launched ==> h.trace == before)
    && (p.codex && b.leader.Some? ==> ProbedAtExit(h.trace[|before|..], b))
    && (!p.codex && b.leader.Some? ==> h.trace == before)
    && (b.teardown.Some? ==> p.codex && b.leader.Some? && EndsAbsent(h.trace)
                             && (Torn(b.teardown.value) || b.teardown.value == OnLeaderExit))
    && (b.raised.None? ==>
          && b.leader.Some?
          && (p.codex ==> AbsentAtExit(h.trace[|before|..])))
  }

  /** What is known of the host when the watch over a running child ends. */
  ghost predicate Watched(p: Plan, h: Host, before: seq<HostEvent>, b: Body)
    reads h
  {
    && Observed(p, h, before, b)
    && match b.raised
       case None => !p.codex ==> b.teardown.None?
       case Some(CancellationRequested(t)) =>
         p.cancellable && h.CancelSet() && Torn(t) && EndsAbsent(h.trace)
       case Some(SurvivedLeader(t)) =>
         && p.codex && b.leader.Some? && Torn(t) && EndsAbsent(h.trace)
         && !(p.cancellable && h.CancelSet())
       case Some(TeardownUnverified) => Unsettled(h.trace[|before|..])
       case Some(_) => b.teardown.None? && b.leader.None?
  }

  /** The exceptions of the watch and what is behind them. */
  predicate WatchCause(p: Plan, h: Host, o: Outset, events: seq<HostEvent>, raised: Option<Raised>)
  {
    match raised
    case Some(Broken) => false
    case Some(Interruption) => h.InterruptedBy(o.at + p.timeout)
    case Some(TimeLimit) =>
      && !(h.exitAt.Some? && h.exitAt.value <= o.at + p.timeout)
      && TornDownFrom(events, h, o, o.at + p.timeout) && EndsAbsent(events)
    case Some(SurvivedLeader(_)) => SurvivedAtExit(events)
    case _ => true
  }

  /** A flag found while the leader runs ends the watch, and nothing else but a survivor does so. */
  predicate WatchTakesCancel(p: Plan, h: Host, o: Outset, events: seq<HostEvent>, b: Body) {
    var asked := p.cancellable && h.CancelsInTime(o.at, p.timeout);
    && (asked ==>
          && b.raised.Some? && (b.raised.value.CancellationRequested? || b.raised.value.TeardownUnverified?)
          && TornDownFrom(events, h, o, FirstLook(o.at, p.timeout, h.cancelAt.value)))
    && (b.raised.Some? && b.raised.value.CancellationRequested? ==> asked || SurvivedAtExit(events))
  }

  /** The inner try: wait for the leader, then check its group. */
  method Watch(p: Plan, h: Host, ghost o: Outset) returns (b: Body)
    requires ValidPlan(p) && o.at == h.now && o.probe == h.probes
    modifies h
    ensures b.launched && b.readerStarted && h.now >= old(h.now)
    ensures Watched(p, h, old(h.trace), b)
    ensures b.leader.Some? <==> h.ExitsInTime(o.at, p.timeout, p.cancellable)
    ensures b.raised.None? <==> b.leader.Some? && GoneAtExit(p, h, o)
    ensures b.raised.None? ==> h.now == Seen(p, h, o)
    ensures WatchCause(p, h, o, h.trace[|old(h.trace)|..], b.raised)
    ensures WatchTakesCancel(p, h, o, h.trace[|old(h.trace)|..], b)
  {
    var waited, torn := WaitForProcess(h, p.timeout, p.cancellable);
    assert h.trace[|old(h.trace)|..] == torn.All();
    match waited {
      case Interrupted => b := Body(Some(Interruption), true, true, None, None);
      case CancelledWith(t) => b := Body(Some(CancellationRequested(t)), true, true, None, None);
      case CancelUnverified => b := Body(Some(TeardownUnverified), true, true, None, None);
      case TimedOut => b := GiveUp(h, p, o);
      case Exited(code) => b := CheckGroup(p, h, o, code);
    }
  }

  /** The deadline has passed: tear the group down. */
  method GiveUp(h: Host, p: Plan, ghost o: Outset) returns (b: Body)
    requires o.probe == h.probes && !(h.exitAt.Some? && h.exitAt.value <= h.now)
    requires h.now == o.at + p.timeout
    modifies h
    ensures h.now >= old(h.now) && old(h.trace) <= h.trace
    ensures var events := h.trace[|old(h.trace)|..];
            && TornDownFrom(events, h, o, o.at + p.timeout)
            && b.raised.Some? && b == Body(b.raised, true, true, None, None)
            && (if b.raised.value.TimeLimit? then EndsAbsent(events)
                else b.raised.value.TeardownUnverified? && Unsettled(events))
  {
    var torn, e := TerminateProcess(h);
    assert h.trace[|old(h.trace)|..] == e.All();
    var raised := if torn.Success? then TimeLimit else TeardownUnverified;
    return Body(Some(raised), true, true, None, None);
  }

  /** The leader has exited: for Codex, nothing of its group may be left. */
  method CheckGroup(p: Plan, h: Host, ghost o: Outset, code: int) returns (b: Body)
    requires o.probe == h.probes && LeaderGone(h, Some(code)) && h.now == h.ExitSeen(o.at)
    modifies h
    ensures b.launched && b.readerStarted && h.now >= old(h.now) && b.leader == Some(code)
    ensures Watched(p, h, old(h.trace), b)
    ensures b.raised.None? <==> GoneAtExit(p, h, o)
    ensures b.raised.None? ==> h.now == Seen(p, h, o)
    ensures b.raised.Some? ==>
              && (b.raised.value.SurvivedLeader? || b.raised.value.CancellationRequested? ==>
                    SurvivedAtExit(h.trace[|old(h.trace)|..]))
              && !b.raised.value.Broken? && !b.raised.value.Interruption? && !b.raised.value.TimeLimit?
  {
    if !p.codex {
      return Body(None, true, true, None, Some(code));
    }
    ghost var before := h.trace;
    var absent := ProcessGroupAbsent(h);
    ghost var seen := if absent.Success? then Probed(absent.value, h.now) else ProbeFailed(h.now);
    if absent.Failure? {
      return Body(Some(TeardownUnverified), true, true, None, Some(code));
    }
    if absent.value {
      return Body(None, true, true, Some(OnLeaderExit), Some(code));
    }
    var torn, e := TerminateProcess(h);
    assert h.trace[|before|..] == [seen] + e.All();
    if torn.Failure? {
      StillUnsettled([seen], e.All());
      return Body(Some(TeardownUnverified), true, true, None, Some(code));
    }
    var cancelled := p.cancellable && h.CancelSet();
    var raised := if cancelled then CancellationRequested(torn.value) else SurvivedLeader(torn.value);
    return Body(Some(raised), true, true, Some(torn.value), Some(code));
  }

  /** What is known of the host when the whole body is left. */
  ghost predicate Left(p: Plan, h: Host, before: seq<HostEvent>, s: Script, b: Body)
    reads h
  {
    && Observed(p, h, before, b)
    && (b.launched ==> !s.setupFails && !s.spawnFails)
    && (b.readerStarted ==> b.launched)
    && match b.raised
       case None =>
         && (p.codex ==> b.teardown == Some(OnLeaderExit)) && (!p.codex ==> b.teardown.None?)
         && !s.readerStuck && !s.readerErrors
       case Some(CancellationRequested(t)) =>
         && p.cancellable && h.CancelSet()
         && (b.launched ==> t != NotLaunched && EndsAbsent(h.trace))
         && (!b.launched ==> t == NotLaunched)
       case Some(SurvivedLeader(t)) =>
         && b.leader.Some? && p.codex && Torn(t) && EndsAbsent(h.trace)
         && !(p.cancellable && h.CancelSet())
       case Some(TeardownUnverified) => b.launched && Unsettled(h.trace[|before|..])
       case Some(_) => true
  }

  /** Getting the child started: None when it is running with its process recorded. */
  method Spawn(p: Plan, h: Host, s: Script, store: TaskStore, attempt: nat)
    returns (raised: Option<Raised>, launched: bool)
    requires store.Valid()
    modifies store
    ensures store.Valid()
    ensures launched <==> !s.setupFails && !(p.cancellable && h.CancelSet()) && !s.spawnFails
    ensures store.State() == if launched then Apply(old(store.State()), SetAttemptProcess(attempt, s.pid))
                             else old(store.State())
    ensures !launched ==>
              raised == Some(if !s.setupFails && p.cancellable && h.CancelSet()
                             then CancellationRequested(NotLaunched) else Broken)
    ensures launched ==>
              var tracked := Accepted(old(store.State()), SetAttemptProcess(attempt, s.pid));
              raised == if tracked && !(p.codex && s.promptFails) then None else Some(Broken)
  {
    if s.setupFails {
      return Some(Broken), false;
    }
    if p.cancellable && h.CancelSet() {
      return Some(CancellationRequested(NotLaunched)), false;
    }
    if s.spawnFails {
      return Some(Broken), false;
    }
    var tracked := store.SetAttemptProcess(attempt, s.pid);
    if tracked.Failure? || (p.codex && s.promptFails) {
      return Some(Broken), true;
    }
    return None, true;
  }

  /** After the leader is gone: the reader, the cancel flag and the result file. The assertion can
      never fail: a cancel flag exists only for direct Codex runs, which have their evidence. */
  method AfterWatch(p: Plan, h: Host, s: Script, watched: Body, ghost before: seq<HostEvent>)
    returns (b: Body)
    requires ValidPlan(p) && watched.launched && watched.readerStarted && Watched(p, h, before, watched)
    requires !s.setupFails && !s.spawnFails
    ensures Left(p, h, before, s, b) && b.launched && b.readerStarted && b.leader == watched.leader
    ensures watched.raised.Some? ==> b == watched
    ensures watched.raised.None? && !s.readerStuck && !s.readerErrors && p.cancellable && h.CancelSet() ==>
              b.raised.Some? && b.raised.value.CancellationRequested?
    ensures b.raised.Some? && watched.raised.None? && b.raised.value.CancellationRequested? ==>
              !s.readerStuck && !s.readerErrors
    ensures watched.raised.None? ==>
              && (b.raised.None? <==> !FaultAfterExit(p, s) && !(p.cancellable && h.CancelSet()))
              && (b.raised.Some? ==> b.raised == Some(Broken) || b.raised.value.CancellationRequested?)
              && (b.raised == Some(Broken) ==> FaultAfterExit(p, s))
  {
    b := watched;
    if b.raised.Some? {
      return;
    }
    if s.readerStuck || s.readerErrors {
      return b.(raised := Some(Broken));
    }
    if p.cancellable && h.CancelSet() {
      assert b.teardown.Some?;
      return b.(raised := Some(CancellationRequested(b.teardown.value)));
    }
    if (p.codex && s.resultModeFails) || s.closeFails {
      return b.(raised := Some(Broken));
    }
  }

  /** The outset of a launch block about to be entered. */
  ghost predicate Fresh(h: Host, store: TaskStore, s: Script, attempt: nat, o: Outset)
    reads h, store
  {
    && o.at == h.now && o.probe == h.probes
    && (o.tracked <==> Accepted(store.State(), SetAttemptProcess(attempt, s.pid)))
  }

  /** Exactly what was written: nothing for a child never launched, its process for one that was, and
      what others wrote once it was watched. */
  predicate ChildWrites(l: Ledger, m: Ledger, s: Script, attempt: nat, launched: bool, watched: bool) {
    m == if !launched then l
         else if !watched then Apply(l, SetAttemptProcess(attempt, s.pid))
         else Run(Apply(l, SetAttemptProcess(attempt, s.pid)), s.others)
  }

  /** How the environment decides the body; a cancellation may still be recorded. */
  predicate BodyExplained(p: Plan, h: Host, o: Outset, s: Script, events: seq<HostEvent>, b: Body) {
    && (b.launched <==> Launches(p, h, o, s))
    && (b.readerStarted <==> Starts(p, h, o, s))
    && (b.leader.Some? <==> Starts(p, h, o, s) && h.ExitsInTime(o.at, p.timeout, p.cancellable))
    && (b.raised.None? <==> Smooth(p, h, o, s))
    && (b.raised.Some? ==>
          && (b.raised.value.CancellationRequested? || Caused(p, h, o, s, events, b.raised.value))
          && TakesCancel(p, h, o, s, events, b.raised.value))
    && (Cancels(p, h, o, s) ==> b.raised.Some?)
  }

  method TryBody(p: Plan, h: Host, s: Script, store: TaskStore, attempt: nat, ghost o: Outset)
    returns (b: Body)
    requires ValidPlan(p) && store.Valid() && Fresh(h, store, s, attempt, o)
    modifies h, store
    ensures store.Valid() && Left(p, h, old(h.trace), s, b)
    ensures BodyExplained(p, h, o, s, h.trace[|old(h.trace)|..], b)
    ensures b.raised.None? ==> h.now == Seen(p, h, o)
    ensures ChildWrites(old(store.State()), store.State(), s, attempt, b.launched, b.readerStarted)
  {
    var raised, launched := Spawn(p, h, s, store, attempt);
    if raised.Some? {
      return Body(raised, launched, false, None, None);
    }
    OthersWrite(store, s.others);
    ghost var before := h.trace;
    b := Watch(p, h, o);
    b := AfterWatch(p, h, s, b, before);
  }

  /** What the probe at a Codex leader's exit says about the end: absent, and the end is no group
      error; a survivor, and the end is a group error or the cancellation that was asked for; no
      answer, and the end is an unproven group. */
  predicate EndAfterExit(events: seq<HostEvent>, end: End) {
    || (AbsentAtExit(events) && (end.FailedEnd? ==> end.group.None?))
    || (SurvivedAtExit(events)
        && match end
           case ExitedEnd(_, _) => false
           case CancelledEnd(_) => true
           case FailedEnd(group, _, leaves) => group.Some? || leaves.CancellationRequested?)
    || (UnknownAtExit(events) && end.FailedEnd? && end.group == Some(Unproven))
  }

  /** What every end says about the child: an exit only after the leader's own exit, for Codex with
      the group absent at that moment and never signalled; a cancellation only when the child was never
      launched or its group was last probed absent; a failure leaves nothing unproven except under
      Unproven. */
  ghost predicate Sound(p: Plan, h: Host, before: seq<HostEvent>, launched: bool, leader: Option<int>, end: End)
    reads h
  {
    && before <= h.trace && LeaderGone(h, leader)
    && (leader.Some? ==> launched)
    && (!launched ==> h.trace == before)
    && (p.codex && leader.Some? ==> EndAfterExit(h.trace[|before|..], end))
    && match end
       case ExitedEnd(code, teardown) =>
         && leader == Some(code)
         && (p.codex ==> teardown == Some(OnLeaderExit) && AbsentAtExit(h.trace[|before|..]))
         && (!p.codex ==> teardown.None? && h.trace == before)
       case CancelledEnd(teardown) =>
         && p.cancellable && h.CancelSet()
         && (launched ==> teardown != NotLaunched && EndsAbsent(h.trace))
         && (!launched ==> teardown == NotLaunched)
       case FailedEnd(group, teardown, leaves) =>
         && (launched && group != Some(Unproven) ==> EndsAbsent(h.trace))
         && (!launched ==> group.None? && teardown == Some(NotLaunched))
         && (group == Some(Outlived) ==>
               p.codex && leader.Some? && leaves.SurvivedLeader? && !(p.cancellable && h.CancelSet()))
         && (group == Some(Unproven) ==> leaves == TeardownUnverified && Unsettled(h.trace[|before|..]))
         && (group.None? ==> !leaves.TeardownUnverified? && !leaves.SurvivedLeader? && teardown.Some?)
         && (launched && teardown.Some? ==> teardown.value != NotLaunched)
         && (leaves.CancellationRequested? ==> p.cancellable && h.CancelSet())
  }

  /** The exception handler: settle the group error and the teardown evidence, then decide whether
      the cancellation may be recorded. */
  method Funnel(p: Plan, h: Host, s: Script, b: Body, ghost before: seq<HostEvent>) returns (end: End)
    requires b.raised.Some? && Left(p, h, before, s, b)
    modifies h
    ensures Sound(p, h, before, b.launched, b.leader, end) && !end.ExitedEnd? && h.now >= old(h.now)
    ensures end.CancelledEnd? ==> !(b.readerStarted && s.readerStuck && s.readerStillStuck)
    ensures end.FailedEnd? && end.leaves != b.raised.value ==> end.leaves.TeardownUnverified?
    ensures end.FailedEnd? && end.leaves.TeardownUnverified? ==> Unsettled(h.trace[|before|..])
    ensures old(h.trace) <= h.trace
    ensures end.CancelledEnd? ==> b.raised.value.CancellationRequested? && h.trace == old(h.trace)
    ensures end.FailedEnd? && end.leaves.SurvivedLeader? ==> h.trace == old(h.trace)
    ensures end.FailedEnd? && end.leaves.CancellationRequested? ==>
              b.readerStarted && (s.readerErrors || (s.readerStuck && s.readerStillStuck))
  {
    var error := b.raised.value;
    var leaves := error;
    var group: Option<GroupError> :=
      if error.TeardownUnverified? then Some(Unproven)
      else if error.SurvivedLeader? then Some(Outlived) else None;
    var teardown := if error.CancellationRequested? then Some(error.teardown) else b.teardown;
    if !b.launched {
      teardown := Some(if teardown.Some? then teardown.value else NotLaunched);
    } else if group.None? && teardown.None? {
      ghost var seen := h.trace;
      var torn, e := TerminateProcess(h);
      assert torn.Failure? ==> Unsettled(h.trace[|before|..]) by {
        if torn.Failure? {
          StillUnsettled(seen[|before|..], e.All());
        }
        assert h.trace[|before|..] == seen[|before|..] + e.All();
      }
      if torn.Success? {
        teardown := Some(torn.value);
      } else {
        group, error, leaves := Some(Unproven), TeardownUnverified, TeardownUnverified;
      }
    }
    if error.CancellationRequested? {
      var stuck := b.readerStarted && s.readerStuck && s.readerStillStuck;
      if teardown.Some? && !stuck && !(b.readerStarted && s.readerErrors) {
        return CancelledEnd(teardown.value);
      }
    }
    return FailedEnd(group, teardown, leaves);
  }

  method LaunchBlock(p: Plan, h: Host, s: Script, store: TaskStore, attempt: nat, ghost o: Outset)
    returns (end: End, launched: bool, leader: Option<int>)
    requires ValidPlan(p) && store.Valid() && Fresh(h, store, s, attempt, o)
    modifies h, store
    ensures store.Valid() && Sound(p, h, old(h.trace), launched, leader, end)
    ensures Explained(p, h, o, s, h.trace[|old(h.trace)|..], launched, leader, end)
    ensures end.ExitedEnd? ==> h.now == Seen(p, h, o)
    ensures ChildWrites(old(store.State()), store.State(), s, attempt, launched, Starts(p, h, o, s))
  {
    var b := TryBody(p, h, s, store, attempt, o);
    launched, leader := b.launched, b.leader;
    if b.raised.None? {
      return ExitedEnd(leader.value, b.teardown), launched, leader;
    }
    end := Funnel(p, h, s, b, old(h.trace));
  }
}
