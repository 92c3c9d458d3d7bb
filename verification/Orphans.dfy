/** Closing the attempts a coordinator leaves running, while others may still write. */
module Orphans {
  import opened Models
  import opened TaskLedger
  import opened LedgerInvariants
  import opened Store
  import Launch

  predicate Terminal(l: Ledger, i: nat) {
    i in l.attempts && l.attempts[i].status != RunningAttempt
  }

  /** A running attempt of the task other than the coordinator's own. */
  predicate Orphan(l: Ledger, t: string, own: nat, i: nat) {
    i != own && RunningFor(l, t, i)
  }

  function ChildCall(a: Attempt, i: nat, reason: string): Call {
    FinishAttempt(i, FailedAttempt, reason, [], a.transcript, None)
  }

  predicate Listed(l: Ledger, ids: seq<nat>) {
    forall i | i in ids :: i in l.attempts
  }

  /** The listed attempts that the loop does not skip. */
  function Chosen(l: Ledger, rows: seq<nat>, own: nat): (children: seq<nat>)
    requires Listed(l, rows)
    ensures Listed(l, children)
  {
    if rows == [] then []
    else
      var rest := Chosen(l, rows[1..], own);
      if rows[0] != own && l.attempts[rows[0]].status == RunningAttempt then [rows[0]] + rest else rest
  }

  lemma {:induction false} ChosenExactly(l: Ledger, rows: seq<nat>, own: nat)
    requires Listed(l, rows)
    ensures forall i :: i in Chosen(l, rows, own)
                        <==> i in rows && i != own && l.attempts[i].status == RunningAttempt
    ensures Distinct(rows) ==> Distinct(Chosen(l, rows, own))
  {
    if rows != [] {
      ChosenExactly(l, rows[1..], own);
      assert rows == [rows[0]] + rows[1..];
    }
  }

  /** One closing call for each child, with what the listing said of it. */
  function ClosingCalls(l: Ledger, children: seq<nat>, reason: string): (calls: seq<Call>)
    requires Listed(l, children)
    ensures |calls| == |children|
  {
    if children == [] then []
    else [ChildCall(l.attempts[children[0]], children[0], reason)] + ClosingCalls(l, children[1..], reason)
  }

  lemma {:induction false} ClosingCallAt(l: Ledger, children: seq<nat>, reason: string, k: nat)
    requires Listed(l, children) && k < |children|
    ensures children[k] in l.attempts
    ensures ClosingCalls(l, children, reason)[k] == ChildCall(l.attempts[children[k]], children[k], reason)
  {
    assert children[k] in children;
    if k > 0 {
      ClosingCallAt(l, children[1..], reason, k - 1);
    }
  }

  // ------------------------------------------------------------ the sweep

  function Head(meanwhile: seq<seq<Call>>): seq<Call> {
    if meanwhile == [] then [] else meanwhile[0]
  }

  function Tail(meanwhile: seq<seq<Call>>): seq<seq<Call>> {
    if meanwhile == [] then [] else meanwhile[1..]
  }

  datatype Swept = Swept(ledger: Ledger, done: bool)

  /** Make each closing call, with the others' calls of that round before it; the first refusal
      raises and ends the sweep. */
  function Sweep(m: Ledger, calls: seq<Call>, meanwhile: seq<seq<Call>>): Swept
    decreases |calls|
  {
    if calls == [] then Swept(m, true)
    else
      var n := Run(m, Head(meanwhile));
      if Accepted(n, calls[0]) then Sweep(Apply(n, calls[0]), calls[1..], Tail(meanwhile))
      else Swept(n, false)
  }

  /** The ledger at the k-th call's turn, when the calls before it were accepted. */
  function Turn(m: Ledger, calls: seq<Call>, meanwhile: seq<seq<Call>>, k: nat): Ledger
    requires k < |calls|
    decreases k
  {
    var n := Run(m, Head(meanwhile));
    if k == 0 then n else Turn(Apply(n, calls[0]), calls[1..], Tail(meanwhile), k - 1)
  }

  lemma {:induction false} SweepExtends(m: Ledger, calls: seq<Call>, meanwhile: seq<seq<Call>>)
    requires Inv(m)
    ensures Inv(Sweep(m, calls, meanwhile).ledger) && Extends(m, Sweep(m, calls, meanwhile).ledger)
    decreases |calls|
  {
    if calls != [] {
      var n := Run(m, Head(meanwhile));
      RunKeepsInv(m, Head(meanwhile));
      if Accepted(n, calls[0]) {
        ApplyKeepsInv(n, calls[0]);
        ExtendsTransitive(m, n, Apply(n, calls[0]));
        SweepExtends(Apply(n, calls[0]), calls[1..], Tail(meanwhile));
        ExtendsTransitive(m, Apply(n, calls[0]), Sweep(m, calls, meanwhile).ledger);
      }
    }
  }

  lemma {:induction false} TurnExtends(m: Ledger, calls: seq<Call>, meanwhile: seq<seq<Call>>, k: nat)
    requires Inv(m) && k < |calls|
    ensures Extends(m, Turn(m, calls, meanwhile, k))
    decreases k
  {
    var n := Run(m, Head(meanwhile));
    RunKeepsInv(m, Head(meanwhile));
    if k > 0 {
      ApplyKeepsInv(n, calls[0]);
      ExtendsTransitive(m, n, Apply(n, calls[0]));
      TurnExtends(Apply(n, calls[0]), calls[1..], Tail(meanwhile), k - 1);
      ExtendsTransitive(m, Apply(n, calls[0]), Turn(m, calls, meanwhile, k));
    }
  }

  lemma {:induction false} DoneWhenAllAccepted(m: Ledger, calls: seq<Call>, meanwhile: seq<seq<Call>>)
    ensures Sweep(m, calls, meanwhile).done
            <==> forall k | 0 <= k < |calls| :: Accepted(Turn(m, calls, meanwhile, k), calls[k])
    decreases |calls|
  {
    if calls != [] {
      var n := Run(m, Head(meanwhile));
      var next := Apply(n, calls[0]);
      DoneWhenAllAccepted(next, calls[1..], Tail(meanwhile));
      assert Turn(m, calls, meanwhile, 0) == n;
      forall k | 0 < k < |calls|
        ensures Turn(m, calls, meanwhile, k) == Turn(next, calls[1..], Tail(meanwhile), k - 1)
        ensures calls[k] == calls[1..][k - 1]
      {
      }
      assert forall k | 0 <= k < |calls| - 1 ::
               Turn(m, calls, meanwhile, k + 1) == Turn(next, calls[1..], Tail(meanwhile), k);
    }
  }

  /** At its turn a child is still running, or was closed with the very outcome the sweep writes. */
  predicate ClosableBy(l: Ledger, c: Call)
  {
    c.FinishAttempt? && c.attempt in l.attempts
    && (l.attempts[c.attempt].status == RunningAttempt || SameOutcome(l.attempts[c.attempt], c))
  }

  /** The exact condition: the sweep completes if and only if no listed child was closed by somebody
      else with a different outcome before its turn. */
  lemma SweepCompletesExactly(l: Ledger, children: seq<nat>, reason: string, meanwhile: seq<seq<Call>>)
    requires Inv(l) && Listed(l, children)
    ensures var calls := ClosingCalls(l, children, reason);
            Sweep(l, calls, meanwhile).done
            <==> forall k | 0 <= k < |calls| :: ClosableBy(Turn(l, calls, meanwhile, k), calls[k])
  {
    var calls := ClosingCalls(l, children, reason);
    DoneWhenAllAccepted(l, calls, meanwhile);
    forall k | 0 <= k < |calls|
      ensures Accepted(Turn(l, calls, meanwhile, k), calls[k]) <==> ClosableBy(Turn(l, calls, meanwhile, k), calls[k])
    {
      TurnExtends(l, calls, meanwhile, k);
      ClosingCallAt(l, children, reason, k);
      AcceptedWhenClosable(l, Turn(l, calls, meanwhile, k), children[k], reason);
    }
  }

  lemma AcceptedWhenClosable(l: Ledger, m: Ledger, i: nat, reason: string)
    requires i in l.attempts && Extends(l, m)
    ensures Accepted(m, ChildCall(l.attempts[i], i, reason)) <==> ClosableBy(m, ChildCall(l.attempts[i], i, reason))
  {
    assert AttemptKept(l, m, i);
  }

  /** Every child of a completed sweep is terminal, whoever closed it. */
  lemma {:induction false} SweptAreTerminal(m: Ledger, calls: seq<Call>, meanwhile: seq<seq<Call>>, k: nat)
    requires Inv(m) && Sweep(m, calls, meanwhile).done && k < |calls|
    requires forall c | c in calls :: c.FinishAttempt?
    ensures calls[k] in calls && Terminal(Sweep(m, calls, meanwhile).ledger, calls[k].attempt)
    decreases |calls|
  {
    assert calls[k] in calls && calls[0] in calls;
    var n := Run(m, Head(meanwhile));
    var next := Apply(n, calls[0]);
    RunKeepsInv(m, Head(meanwhile));
    ApplyKeepsInv(n, calls[0]);
    if k == 0 {
      assert Terminal(next, calls[0].attempt);
      SweepExtends(next, calls[1..], Tail(meanwhile));
      assert AttemptKept(next, Sweep(m, calls, meanwhile).ledger, calls[0].attempt);
    } else {
      SweptAreTerminal(next, calls[1..], Tail(meanwhile), k - 1);
    }
  }

  lemma SweptChildIsTerminal(l: Ledger, children: seq<nat>, reason: string, meanwhile: seq<seq<Call>>, i: nat)
    requires Inv(l) && Listed(l, children) && i in children
    requires Sweep(l, ClosingCalls(l, children, reason), meanwhile).done
    ensures Terminal(Sweep(l, ClosingCalls(l, children, reason), meanwhile).ledger, i)
  {
    var calls := ClosingCalls(l, children, reason);
    forall k | 0 <= k < |calls|
      ensures children[k] in l.attempts && calls[k] == ChildCall(l.attempts[children[k]], children[k], reason)
    {
      ClosingCallAt(l, children, reason, k);
    }
    var k :| 0 <= k < |children| && children[k] == i;
    SweptAreTerminal(l, calls, meanwhile, k);
  }

  // --------------------------------------------- others that keep out

  /** No call closes attempt i. */
  predicate SparesAttempt(calls: seq<Call>, i: nat) {
    forall c | c in calls :: !(c.FinishAttempt? && c.attempt == i)
  }

  predicate SparesThroughout(meanwhile: seq<seq<Call>>, i: nat) {
    forall calls | calls in meanwhile :: SparesAttempt(calls, i)
  }

  /** Only finish_attempt ends an attempt. */
  lemma OnlyFinishCloses(l: Ledger, c: Call, t: string, i: nat)
    requires RunningFor(l, t, i) && !(c.FinishAttempt? && c.attempt == i)
    ensures RunningFor(Apply(l, c), t, i)
  {
  }

  lemma {:induction false} SparedKeepsRunning(l: Ledger, calls: seq<Call>, t: string, i: nat)
    requires RunningFor(l, t, i) && SparesAttempt(calls, i)
    ensures RunningFor(Run(l, calls), t, i)
    decreases |calls|
  {
    if calls != [] {
      OnlyFinishCloses(l, calls[0], t, i);
      SparedKeepsRunning(Apply(l, calls[0]), calls[1..], t, i);
    }
  }

  /** An attempt that neither the sweep nor the others close is running when the sweep ends. */
  lemma {:induction false} SweepSpares(m: Ledger, calls: seq<Call>, meanwhile: seq<seq<Call>>, t: string, i: nat)
    requires RunningFor(m, t, i) && SparesAttempt(calls, i) && SparesThroughout(meanwhile, i)
    ensures RunningFor(Sweep(m, calls, meanwhile).ledger, t, i)
    decreases |calls|
  {
    if calls != [] {
      var n := Run(m, Head(meanwhile));
      SparedKeepsRunning(m, Head(meanwhile), t, i);
      if Accepted(n, calls[0]) {
        OnlyFinishCloses(n, calls[0], t, i);
        SweepSpares(Apply(n, calls[0]), calls[1..], Tail(meanwhile), t, i);
      }
    }
  }

  /** When nobody else closes a listed child, every closing call is accepted. */
  lemma {:induction false} SparedSweepCompletes(m: Ledger, calls: seq<Call>, meanwhile: seq<seq<Call>>, t: string)
    requires forall k | 0 <= k < |calls| ::
               && calls[k].FinishAttempt? && RunningFor(m, t, calls[k].attempt)
               && calls[k].status == FailedAttempt && calls[k].usage.None?
               && SparesThroughout(meanwhile, calls[k].attempt)
    requires forall j, k | 0 <= j < k < |calls| :: calls[j].attempt != calls[k].attempt
    ensures Sweep(m, calls, meanwhile).done
    decreases |calls|
  {
    if calls != [] {
      var n := Run(m, Head(meanwhile));
      SparedKeepsRunning(m, Head(meanwhile), t, calls[0].attempt);
      assert Accepted(n, calls[0]);
      var next := Apply(n, calls[0]);
      forall k | 0 <= k < |calls| - 1
        ensures RunningFor(next, t, calls[1..][k].attempt)
        ensures SparesThroughout(Tail(meanwhile), calls[1..][k].attempt)
      {
        assert calls[1..][k] == calls[k + 1];
        SparedKeepsRunning(m, Head(meanwhile), t, calls[k + 1].attempt);
        OnlyFinishCloses(n, calls[0], t, calls[k + 1].attempt);
      }
      SparedSweepCompletes(next, calls[1..], Tail(meanwhile), t);
    }
  }

  /** So a sweep whose children nobody else closes completes. */
  lemma SparedChildrenAreSwept(l: Ledger, t: string, children: seq<nat>, reason: string, meanwhile: seq<seq<Call>>)
    requires Listed(l, children) && Distinct(children)
    requires forall i | i in children :: RunningFor(l, t, i) && SparesThroughout(meanwhile, i)
    ensures Sweep(l, ClosingCalls(l, children, reason), meanwhile).done
  {
    var calls := ClosingCalls(l, children, reason);
    forall k | 0 <= k < |calls|
      ensures calls[k] == ChildCall(l.attempts[children[k]], children[k], reason) && children[k] in children
    {
      ClosingCallAt(l, children, reason, k);
    }
    SparedSweepCompletes(l, calls, meanwhile, t);
  }

  // ------------------------------------------------ a sweep left alone

  function AfterOrphans(attempts: map<nat, Attempt>, failed: seq<nat>, reason: string): map<nat, Attempt> {
    map i | i in attempts ::
      if i in failed then TaskLedger.Closed(attempts[i], ChildCall(attempts[i], i, reason)) else attempts[i]
  }

  /** A closed orphan is failed for that reason, without evidence or usage, and keeps its transcript. */
  lemma OrphanRows(attempts: map<nat, Attempt>, failed: seq<nat>, reason: string)
    ensures var m := AfterOrphans(attempts, failed, reason);
            && m.Keys == attempts.Keys
            && (forall i | i in attempts && i !in failed :: m[i] == attempts[i])
            && (forall i | i in attempts && i in failed ::
                  && SameIdentity(attempts[i], m[i]) && m[i].status == FailedAttempt && m[i].summary == reason
                  && m[i].evidence == [] && m[i].usage.None? && m[i].pid.None?
                  && m[i].transcript == attempts[i].transcript)
  {
  }

  lemma OneMoreOrphan(l: Ledger, m: Ledger, closed: seq<nat>, i: nat, reason: string)
    requires i in l.attempts && l.attempts[i].status == RunningAttempt && i !in closed
    requires m.attempts == AfterOrphans(l.attempts, closed, reason)
    ensures var c := ChildCall(l.attempts[i], i, reason);
            && Accepted(m, c) && Apply(m, c).tasks == m.tasks && Apply(m, c).reviews == m.reviews
            && Apply(m, c).attempts == AfterOrphans(l.attempts, closed + [i], reason)
  {
  }

  /** With nobody else writing, the sweep closes exactly the listed children, here those in `closed`
      before and those in `rest` now, and changes nothing else but the log. */
  lemma {:induction false} LoneSweep(l: Ledger, m: Ledger, closed: seq<nat>, rest: seq<nat>, reason: string)
    requires Listed(l, closed) && Listed(l, rest)
    requires forall i | i in rest :: l.attempts[i].status == RunningAttempt
    requires Distinct(closed + rest)
    requires m.tasks == l.tasks && m.reviews == l.reviews
    requires m.attempts == AfterOrphans(l.attempts, closed, reason)
    ensures var s := Sweep(m, ClosingCalls(l, rest, reason), []);
            && s.done && s.ledger.tasks == l.tasks && s.ledger.reviews == l.reviews
            && s.ledger.attempts == AfterOrphans(l.attempts, closed + rest, reason)
    decreases |rest|
  {
    if rest == [] {
      assert closed + rest == closed;
    } else {
      var i := rest[0];
      Apart(closed, rest);
      assert rest == [i] + rest[1..] && closed + rest == (closed + [i]) + rest[1..];
      SweepStep(l, m, i, rest[1..], reason, []);
      OneMoreOrphan(l, m, closed, i, reason);
      LoneSweep(l, Apply(m, ChildCall(l.attempts[i], i, reason)), closed + [i], rest[1..], reason);
    }
  }

  lemma Apart(closed: seq<nat>, rest: seq<nat>)
    requires Distinct(closed + rest) && rest != []
    ensures rest[0] !in closed
  {
    assert (closed + rest)[|closed|] == rest[0];
    assert forall j | 0 <= j < |closed| :: (closed + rest)[j] == closed[j];
  }

  // ------------------------------------------------------- the method

  /** List the task's attempts, then close those that were running, other than the coordinator's own,
      one by one; `meanwhile` is what others write before each closing call. A refused call raises. */
  method FailRunningChildAttempts(store: TaskStore, t: string, own: nat, reason: string,
                                  meanwhile: seq<seq<Call>>)
    returns (failed: seq<nat>, ok: bool, ghost children: seq<nat>)
    requires store.Valid()
    modifies store
    ensures store.Valid() && Extends(old(store.State()), store.State())
    ensures forall i :: i in children <==> Orphan(old(store.State()), t, own, i)
    ensures Distinct(children) && Listed(old(store.State()), children)
    ensures Swept(store.State(), ok)
            == Sweep(old(store.State()), ClosingCalls(old(store.State()), children, reason), meanwhile)
    ensures failed <= children && (ok <==> failed == children)
  {
    var l := store.State();
    var rows := store.ListAttempts(t);
    children := Chosen(l, rows, own);
    ChosenExactly(l, rows, own);
    SweepExtends(l, ClosingCalls(l, children, reason), meanwhile);
    failed, ok := CloseListed(store, l, rows, own, reason, meanwhile);
  }

  /** The loop over the listed attempts. */
  method CloseListed(store: TaskStore, l: Ledger, rows: seq<nat>, own: nat, reason: string,
                     meanwhile: seq<seq<Call>>)
    returns (failed: seq<nat>, ok: bool)
    requires store.Valid() && Listed(l, rows)
    modifies store
    ensures store.Valid()
    ensures Swept(store.State(), ok)
            == Sweep(old(store.State()), ClosingCalls(l, Chosen(l, rows, own), reason), meanwhile)
    ensures failed <= Chosen(l, rows, own) && (ok <==> failed == Chosen(l, rows, own))
  {
    failed := [];
    var pending := meanwhile;
    ghost var rest := Chosen(l, rows, own);
    ghost var end := Sweep(store.State(), ClosingCalls(l, rest, reason), meanwhile);
    var k := 0;
    LeftAtFirst(l, rows, own);
    while k < |rows|
      invariant 0 <= k <= |rows| && store.Valid()
      invariant InSweep(store.State(), l, rows, k, own, reason, failed, rest, pending, end)
    {
      failed, pending, ok, rest := CloseRow(store, l, rows, k, own, reason, failed, pending, rest, end);
      if !ok {
        return;
      }
      k := k + 1;
    }
    ok := true;
    LeftAtLast(l, rows, own, failed, rest);
  }

  /** Where the loop stands: what is left of the sweep still leads to its end. */
  ghost predicate InSweep(m: Ledger, l: Ledger, rows: seq<nat>, k: nat, own: nat, reason: string,
                          failed: seq<nat>, rest: seq<nat>, pending: seq<seq<Call>>, end: Swept)
    requires Listed(l, rows) && k <= |rows|
  {
    Left(l, rows, k, own, failed, rest) && Listed(l, rest)
    && Sweep(m, ClosingCalls(l, rest, reason), pending) == end
  }

  /** The body of the loop: skip the row or close it. */
  method CloseRow(store: TaskStore, l: Ledger, rows: seq<nat>, k: nat, own: nat, reason: string,
                  failed: seq<nat>, pending: seq<seq<Call>>, ghost rest: seq<nat>, ghost end: Swept)
    returns (failed': seq<nat>, pending': seq<seq<Call>>, ok: bool, ghost rest': seq<nat>)
    requires store.Valid() && Listed(l, rows) && k < |rows|
    requires InSweep(store.State(), l, rows, k, own, reason, failed, rest, pending, end)
    modifies store
    ensures store.Valid()
    ensures ok ==> InSweep(store.State(), l, rows, k + 1, own, reason, failed', rest', pending', end)
    ensures !ok ==>
              && Swept(store.State(), false) == end && failed' == failed
              && failed' <= Chosen(l, rows, own) && failed' != Chosen(l, rows, own)
  {
    failed', pending', ok, rest' := failed, pending, true, rest;
    LeftNext(l, rows, k, own, failed, rest);
    var i := rows[k];
    if i != own && l.attempts[i].status == RunningAttempt {
      rest' := rest[1..];
      ok := CloseNext(store, l, i, reason, pending, rest');
      if ok {
        failed', pending' := failed + [i], Tail(pending);
      }
    }
  }

  /** `failed` were closed and `rest` are still to come when row k is looked at. */
  predicate Left(l: Ledger, rows: seq<nat>, k: nat, own: nat, failed: seq<nat>, rest: seq<nat>)
    requires Listed(l, rows) && k <= |rows|
  {
    Listed(l, rows[k..]) && rest == Chosen(l, rows[k..], own) && Chosen(l, rows, own) == failed + rest
  }

  lemma LeftAtFirst(l: Ledger, rows: seq<nat>, own: nat)
    requires Listed(l, rows)
    ensures Left(l, rows, 0, own, [], Chosen(l, rows, own))
  {
    assert rows[0..] == rows;
  }

  lemma LeftAtLast(l: Ledger, rows: seq<nat>, own: nat, failed: seq<nat>, rest: seq<nat>)
    requires Listed(l, rows) && Left(l, rows, |rows|, own, failed, rest)
    ensures rest == [] && failed == Chosen(l, rows, own)
  {
    assert rows[|rows|..] == [];
  }

  lemma LeftNext(l: Ledger, rows: seq<nat>, k: nat, own: nat, failed: seq<nat>, rest: seq<nat>)
    requires Listed(l, rows) && k < |rows| && Left(l, rows, k, own, failed, rest)
    ensures rows[k] in l.attempts
    ensures if rows[k] != own && l.attempts[rows[k]].status == RunningAttempt then
              && rest != [] && rest == [rows[k]] + rest[1..] && Listed(l, rest[1..])
              && Left(l, rows, k + 1, own, failed + [rows[k]], rest[1..])
              && failed <= Chosen(l, rows, own) && failed != Chosen(l, rows, own)
            else Left(l, rows, k + 1, own, failed, rest)
  {
    assert rows[k..][0] == rows[k] && rows[k..][1..] == rows[k + 1..] && rows[k] in rows;
    if rows[k] != own && l.attempts[rows[k]].status == RunningAttempt {
      assert rest[0] == rows[k] && rest[1..] == Chosen(l, rows[k + 1..], own);
      assert failed + rest == failed + [rows[k]] + rest[1..];
      assert |failed + rest| > |failed|;
    }
  }

  /** One round of the loop: what is left of the sweep is the rest of it. */
  method CloseNext(store: TaskStore, l: Ledger, i: nat, reason: string, pending: seq<seq<Call>>,
                   ghost rest: seq<nat>)
    returns (ok: bool)
    requires store.Valid() && i in l.attempts && Listed(l, rest)
    modifies store
    ensures store.Valid()
    ensures Sweep(old(store.State()), ClosingCalls(l, [i] + rest, reason), pending)
            == if ok then Sweep(store.State(), ClosingCalls(l, rest, reason), Tail(pending))
               else Swept(store.State(), false)
  {
    SweepStep(l, store.State(), i, rest, reason, pending);
    ok := CloseChild(store, i, ChildCall(l.attempts[i], i, reason), Head(pending));
  }

  lemma SweepStep(l: Ledger, m: Ledger, i: nat, rest: seq<nat>, reason: string, pending: seq<seq<Call>>)
    requires i in l.attempts && Listed(l, rest)
    ensures var c := ChildCall(l.attempts[i], i, reason);
            var n := Run(m, Head(pending));
            Sweep(m, ClosingCalls(l, [i] + rest, reason), pending)
            == if Accepted(n, c) then Sweep(Apply(n, c), ClosingCalls(l, rest, reason), Tail(pending))
               else Swept(n, false)
  {
    assert ([i] + rest)[1..] == rest;
    var calls := ClosingCalls(l, [i] + rest, reason);
    assert calls[0] == ChildCall(l.attempts[i], i, reason) && calls[1..] == ClosingCalls(l, rest, reason);
  }

  method CloseChild(store: TaskStore, i: nat, c: Call, others: seq<Call>) returns (ok: bool)
    requires store.Valid() && c.FinishAttempt? && c.attempt == i
    modifies store
    ensures store.Valid()
    ensures var n := Run(old(store.State()), others);
            ok == Accepted(n, c) && store.State() == Apply(n, c)
  {
    Launch.OthersWrite(store, others);
    var closed := store.FinishAttempt(i, c.status, c.summary, c.evidence, c.transcript, c.usage);
    ok := closed.Success?;
  }

  // --------------------------------------------- how a sweep is stopped

  /** The failing input: in any ledger in which a coordinator and a child of its task are running,
      another writer that closes the child as cancelled between the listing and its turn stops the
      sweep, and the coordinator's own attempt stays running. */
  lemma SweepCanBeStopped(l: Ledger, t: string, own: nat, child: nat, reason: string)
    requires RunningFor(l, t, own) && RunningFor(l, t, child) && own != child
    ensures var intruder := FinishAttempt(child, CancelledAttempt, "", [], None, None);
            var s := Sweep(l, ClosingCalls(l, [child], reason), [[intruder]]);
            !s.done && RunningFor(s.ledger, t, own)
  {
    var intruder := FinishAttempt(child, CancelledAttempt, "", [], None, None);
    assert [intruder][1..] == [];
    var n := Apply(l, intruder);
    assert Run(l, [intruder]) == Run(n, []) == n;
    assert Accepted(l, intruder) && !Accepted(n, ChildCall(l.attempts[child], child, reason));
  }

  const CREATE := CreateTask(Some("t"), "", Definition("t", "o", "w", ["c"], [], map[]), true)
  const OPEN := Transition("t", Running, "")
  const LEAD := StartAttempt("t", "coordinator", "plan", None, None, map[], 0, 0)
  const BUILD := StartAttempt("t", "builder_claude", "build", None, None, map[], 1, 1)

  lemma CreatesAndOpens() returns (l: Ledger)
    ensures l == Apply(Apply(EMPTY, CREATE), OPEN)
    ensures l.attempts == map[] && "t" in l.tasks && l.tasks["t"].status == Running
  {
    assert Cleaned(["c"]) == ["c"] by { assert Strip("c") == "c" && ["c"][1..] == []; }
    var a := Apply(EMPTY, CREATE);
    assert a.tasks["t"].status == Queued;
    l := Apply(a, OPEN);
  }

  lemma LeadStarts(l: Ledger)
    requires l.attempts == map[] && "t" in l.tasks && l.tasks["t"].status == Running
    ensures Apply(l, LEAD).tasks == l.tasks && Apply(l, LEAD).attempts.Keys == {0}
    ensures RunningFor(Apply(l, LEAD), "t", 0) && Apply(l, LEAD).attempts[0].kind == Coordinator
  {
    assert Strip("plan") == "plan";
  }

  lemma BuildStarts(l: Ledger)
    requires "t" in l.tasks && l.tasks["t"].status == Running && l.attempts.Keys == {0}
    requires RunningFor(l, "t", 0) && l.attempts[0].kind == Coordinator
    ensures RunningFor(Apply(l, BUILD), "t", 0) && RunningFor(Apply(l, BUILD), "t", 1)
  {
    assert Strip("build") == "build";
  }

  /** Such a ledger is reachable: a task, its coordinator and one builder. */
  lemma CoordinatorAndChildRun()
    ensures var l := Run(EMPTY, [CREATE, OPEN, LEAD, BUILD]);
            RunningFor(l, "t", 0) && RunningFor(l, "t", 1)
  {
    var b := CreatesAndOpens();
    LeadStarts(b);
    BuildStarts(Apply(b, LEAD));
    AppendCall(EMPTY, [], CREATE);
    AppendCall(EMPTY, [CREATE], OPEN);
    AppendCall(EMPTY, [CREATE, OPEN], LEAD);
    AppendCall(EMPTY, [CREATE, OPEN, LEAD], BUILD);
    assert [] + [CREATE] == [CREATE] && [CREATE] + [OPEN] == [CREATE, OPEN];
    assert [CREATE, OPEN] + [LEAD] == [CREATE, OPEN, LEAD];
    assert [CREATE, OPEN, LEAD] + [BUILD] == [CREATE, OPEN, LEAD, BUILD];
  }
}
