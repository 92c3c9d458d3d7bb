/** Which attempts a direct Codex review takes on, under an advancing clock. */
module CodexTargets {
  import opened Models
  import opened TaskLedger
  import opened LedgerInvariants
  import opened NeverStuck
  import opened Store

  // ------------------------------------------------ the clock assumption

  predicate DistinctStarts(l: Ledger) {
    forall i, j | i in l.attempts && j in l.attempts ::
      i != j ==> l.attempts[i].startedAt != l.attempts[j].startedAt
  }

  predicate RunningIsLatest(l: Ledger) {
    forall i | i in l.attempts ::
      RunningImplementation(l, l.attempts[i].task, i) ==> IsLatest(l, l.attempts[i].task, i)
  }

  /** What an advancing clock adds to the invariant. */
  predicate Clocked(l: Ledger) {
    DistinctStarts(l) && RunningIsLatest(l)
  }

  /** Being latest depends on what identifies the attempts, not on how they ended. */
  lemma LatestIgnoresOutcome(l: Ledger, m: Ledger, t: string, i: nat)
    requires m.attempts.Keys == l.attempts.Keys && IsLatest(l, t, i)
    requires forall k | k in l.attempts :: SameIdentity(l.attempts[k], m.attempts[k])
    ensures IsLatest(m, t, i)
  {
  }

  lemma StartKeepsClocked(l: Ledger, c: Call)
    requires Clocked(l) && c.StartAttempt? && Accepted(l, c) && InTime(l, c)
    ensures Clocked(Effect(l, c))
  {
    var m := Effect(l, c);
    var a := NewAttempt(c);
    forall i | i in m.attempts && RunningImplementation(m, m.attempts[i].task, i)
      ensures IsLatest(m, m.attempts[i].task, i)
    {
      if i != c.attemptId {
        assert RunningImplementation(l, l.attempts[i].task, i);
        if a.kind == Implementation && a.task == l.attempts[i].task {
          assert !HoldsWorkItem(l, c.task, Strip(c.workItem), i);
        }
        forall j | j in m.attempts && SameWorkItem(m, m.attempts[i].task, j, i)
          ensures NotLater(m, j, i)
        {
          assert SameWorkItem(l, l.attempts[i].task, j, i);
          assert NotLater(l, j, i);
        }
      }
    }
  }

  lemma ApplyKeepsClocked(l: Ledger, c: Call)
    requires Clocked(l) && InTime(l, c)
    ensures Clocked(Apply(l, c))
  {
    if Accepted(l, c) {
      var m := Effect(l, c);
      if c.StartAttempt? {
        StartKeepsClocked(l, c);
      } else {
        EffectExtends(l, c);
        NoStartKeepsClocked(l, m);
      }
    }
  }

  lemma NoStartKeepsClocked(l: Ledger, m: Ledger)
    requires Clocked(l) && Extends(l, m) && m.attempts.Keys == l.attempts.Keys
    ensures Clocked(m)
  {
    forall k | k in l.attempts ensures SameIdentity(l.attempts[k], m.attempts[k]) {
      assert AttemptKept(l, m, k);
    }
    forall i | i in m.attempts && RunningImplementation(m, m.attempts[i].task, i)
      ensures IsLatest(m, m.attempts[i].task, i)
    {
      assert AttemptKept(l, m, i);
      assert RunningImplementation(l, l.attempts[i].task, i);
      LatestIgnoresOutcome(l, m, l.attempts[i].task, i);
    }
  }

  lemma {:induction false} InTimeRunsAreClocked(l: Ledger, calls: seq<Call>)
    requires Clocked(l) && InTimeRun(l, calls)
    ensures Clocked(Run(l, calls))
    decreases |calls|
  {
    if calls != [] {
      ApplyKeepsClocked(l, calls[0]);
      InTimeRunsAreClocked(Apply(l, calls[0]), calls[1..]);
    }
  }

  // -------------------------------------------------- choosing the targets

  datatype TargetError =
    | NothingImplemented
    | LatestFailed
    | ProviderShared
    | AlreadyReviewed

  predicate HasReview(l: Ledger, t: string, i: nat) {
    exists r | r in l.reviews :: Reviews(l, t, i, r)
  }

  predicate HasImplementation(l: Ledger, t: string) {
    exists i | i in l.attempts :: IsImplementation(l, t, i)
  }

  /** The attempt each work item ends with when rows overwrite each other in list order. */
  function LastWins(l: Ledger, t: string, rows: seq<nat>): map<string, nat> {
    if rows == [] then map[]
    else
      var i := rows[|rows| - 1];
      var earlier := LastWins(l, t, rows[..|rows| - 1]);
      if IsImplementation(l, t, i) then earlier[l.attempts[i].workItem := i] else earlier
  }

  predicate OrderedRows(l: Ledger, rows: seq<nat>) {
    && (forall k | 0 <= k < |rows| :: rows[k] in l.attempts)
    && Distinct(rows)
    && (forall j, k | 0 <= j < k < |rows| ::
          l.attempts[rows[j]].startedAt <= l.attempts[rows[k]].startedAt)
  }

  /** Attempt i is the newest listed implementation of `item`. */
  predicate Wins(l: Ledger, t: string, rows: seq<nat>, item: string, i: nat) {
    && i in rows && IsImplementation(l, t, i) && l.attempts[i].workItem == item
    && forall j | j in rows && IsImplementation(l, t, j) && l.attempts[j].workItem == item ::
         l.attempts[j].startedAt <= l.attempts[i].startedAt
  }

  lemma {:induction false} LastWinsIsMaximal(l: Ledger, t: string, rows: seq<nat>, item: string)
    requires OrderedRows(l, rows) && item in LastWins(l, t, rows)
    ensures Wins(l, t, rows, item, LastWins(l, t, rows)[item])
  {
    var earlier := rows[..|rows| - 1];
    assert rows == earlier + [rows[|rows| - 1]];
    if item in LastWins(l, t, earlier) {
      LastWinsIsMaximal(l, t, earlier, item);
    } else {
      forall j | j in earlier && IsImplementation(l, t, j) ensures l.attempts[j].workItem != item {
        EveryItemWins(l, t, earlier, j);
      }
    }
  }

  lemma {:induction false} EveryItemWins(l: Ledger, t: string, rows: seq<nat>, j: nat)
    requires j in rows && IsImplementation(l, t, j)
    ensures l.attempts[j].workItem in LastWins(l, t, rows)
  {
    if j != rows[|rows| - 1] {
      assert rows == rows[..|rows| - 1] + [rows[|rows| - 1]];
      EveryItemWins(l, t, rows[..|rows| - 1], j);
    }
  }

  /** Last-wins over the listed order and the SQL maximum pick the same latest attempts. */
  lemma LastWinsIsSqlMaximum(l: Ledger, t: string, rows: seq<nat>)
    requires DistinctStarts(l) && OrderedRows(l, rows)
    requires forall i :: i in rows <==> i in l.attempts && l.attempts[i].task == t
    ensures forall i :: IsLatest(l, t, i) <==> i in LastWins(l, t, rows).Values
  {
    var w := LastWins(l, t, rows);
    forall item | item in w ensures IsLatest(l, t, w[item]) {
      LastWinsIsMaximal(l, t, rows, item);
      var i := w[item];
      forall j | j in l.attempts && SameWorkItem(l, t, j, i) ensures NotLater(l, j, i) {
        assert j in rows;
      }
    }
    forall i | IsLatest(l, t, i) ensures i in w.Values {
      assert IsImplementation(l, t, i) && i in rows;
      var item := l.attempts[i].workItem;
      EveryItemWins(l, t, rows, i);
      LastWinsIsMaximal(l, t, rows, item);
      assert SameWorkItem(l, t, w[item], i);
      assert NotLater(l, w[item], i);
    }
  }

  lemma WinnersKnown(l: Ledger, t: string, rows: seq<nat>)
    requires OrderedRows(l, rows)
    requires forall i :: i in rows <==> i in l.attempts && l.attempts[i].task == t
    ensures var w := LastWins(l, t, rows);
            && (forall item | item in w :: w[item] in l.attempts && l.attempts[w[item]].workItem == item)
            && (w == map[] <==> !HasImplementation(l, t))
  {
    var w := LastWins(l, t, rows);
    forall item | item in w
      ensures w[item] in l.attempts && l.attempts[w[item]].workItem == item
      ensures IsImplementation(l, t, w[item])
    {
      LastWinsIsMaximal(l, t, rows, item);
    }
    if HasImplementation(l, t) {
      var i :| i in l.attempts && IsImplementation(l, t, i);
      EveryItemWins(l, t, rows, i);
    }
  }

  /** What the targets of a direct Codex review are, and what each refusal means. */
  ghost predicate TargetAnswer(l: Ledger, t: string, reviewerProvider: string, chosen: set<nat>,
                               r: Result<seq<nat>, TargetError>)
    requires chosen <= l.attempts.Keys
  {
    match r
    case Success(pending) =>
      && HasImplementation(l, t) && pending != []
      && (forall i | i in chosen ::
            l.attempts[i].status == Succeeded && l.attempts[i].provider != reviewerProvider)
      && (forall i :: i in pending <==> i in chosen && !HasReview(l, t, i))
      && Distinct(pending)
    case Failure(NothingImplemented) => !HasImplementation(l, t)
    case Failure(LatestFailed) => exists i :: i in chosen && l.attempts[i].status != Succeeded
    case Failure(ProviderShared) =>
      exists i :: i in chosen && l.attempts[i].provider == reviewerProvider
    case Failure(AlreadyReviewed) =>
      HasImplementation(l, t) && forall i | i in chosen :: HasReview(l, t, i)
  }

  /** Attempt i is an implementation, and no other of its work item started later. */
  predicate StartedLast(l: Ledger, t: string, i: nat) {
    && IsImplementation(l, t, i)
    && forall j | j in l.attempts :: SameWorkItem(l, t, j, i) ==> l.attempts[j].startedAt <= l.attempts[i].startedAt
  }

  /** One attempt of each implemented work item, none of whose rivals started later. */
  ghost predicate OnePerWorkItem(l: Ledger, t: string, chosen: set<nat>) {
    && (forall i | i in chosen :: StartedLast(l, t, i))
    && (forall i, j | i in chosen && j in chosen ::
          i in l.attempts && j in l.attempts
          && (l.attempts[i].workItem == l.attempts[j].workItem ==> i == j))
    && (forall j | IsImplementation(l, t, j) ::
          exists i :: i in chosen && i in l.attempts && l.attempts[i].workItem == l.attempts[j].workItem)
  }

  /** The selection of targets, from the attempts it chose as latest to its answer. */
  ghost predicate Selected(l: Ledger, t: string, reviewerProvider: string, chosen: set<nat>,
                           r: Result<seq<nat>, TargetError>)
  {
    && chosen <= l.attempts.Keys && OnePerWorkItem(l, t, chosen)
    && TargetAnswer(l, t, reviewerProvider, chosen, r)
  }

  /** With distinct start times there is only one choice: the latest attempts. */
  lemma OneChoice(l: Ledger, t: string, chosen: set<nat>, i: nat)
    requires DistinctStarts(l) && chosen <= l.attempts.Keys && OnePerWorkItem(l, t, chosen)
    ensures i in chosen <==> IsLatest(l, t, i)
  {
    if i in chosen {
      assert StartedLast(l, t, i);
      forall j | j in l.attempts && SameWorkItem(l, t, j, i) ensures NotLater(l, j, i) {
      }
    }
    if IsLatest(l, t, i) {
      assert IsImplementation(l, t, i);
      var k :| k in chosen && k in l.attempts && l.attempts[k].workItem == l.attempts[i].workItem;
      assert StartedLast(l, t, k) && SameWorkItem(l, t, k, i) && SameWorkItem(l, t, i, k);
      assert NotLater(l, k, i);
    }
  }

  lemma LastWinsIsOnePerWorkItem(l: Ledger, t: string, rows: seq<nat>)
    requires OrderedRows(l, rows)
    requires forall i :: i in rows <==> i in l.attempts && l.attempts[i].task == t
    ensures OnePerWorkItem(l, t, LastWins(l, t, rows).Values)
  {
    var w := LastWins(l, t, rows);
    forall item | item in w
      ensures w[item] in l.attempts && l.attempts[w[item]].workItem == item && StartedLast(l, t, w[item])
    {
      LastWinsIsMaximal(l, t, rows, item);
    }
    forall j | IsImplementation(l, t, j)
      ensures exists i :: i in w.Values && i in l.attempts && l.attempts[i].workItem == l.attempts[j].workItem
    {
      EveryItemWins(l, t, rows, j);
      assert w[l.attempts[j].workItem] in w.Values;
    }
  }

  /** The latest attempts that have no review yet, when all of the latest may be reviewed; where two
      attempts of a work item share a start time, the one listed last counts as the latest. */
  method ReviewTargets(store: TaskStore, t: string, reviewerProvider: string)
    returns (r: Result<seq<nat>, TargetError>, chosen: set<nat>)
    requires store.Valid()
    ensures Selected(store.State(), t, reviewerProvider, chosen, r)
    ensures DistinctStarts(store.State()) ==> forall i :: i in chosen <==> IsLatest(store.State(), t, i)
  {
    var l := store.State();
    var rows := store.ListAttempts(t);
    var latest, order := LatestByWorkItem(l, t, rows);
    chosen := latest.Values;
    LastWinsIsOnePerWorkItem(l, t, rows);
    if DistinctStarts(l) {
      LastWinsIsSqlMaximum(l, t, rows);
    }
    WinnersKnown(l, t, rows);
    if order == [] {
      return Failure(NothingImplemented), chosen;
    }
    assert order[0] in latest;
    r := PendingTargets(l, t, latest, order, reviewerProvider);
  }

  /** The dictionary loop: rows overwrite each other; `order` is the order of first insertion. */
  method LatestByWorkItem(l: Ledger, t: string, rows: seq<nat>)
    returns (latest: map<string, nat>, order: seq<string>)
    requires forall i | i in rows :: i in l.attempts && l.attempts[i].task == t
    ensures latest == LastWins(l, t, rows)
    ensures forall item :: item in order <==> item in latest
    ensures forall a, b | 0 <= a < b < |order| :: order[a] != order[b]
  {
    latest, order := map[], [];
    var k := 0;
    while k < |rows|
      invariant 0 <= k <= |rows|
      invariant latest == LastWins(l, t, rows[..k])
      invariant forall item :: item in order <==> item in latest
      invariant forall a, b | 0 <= a < b < |order| :: order[a] != order[b]
    {
      assert rows[..k + 1][..k] == rows[..k];
      var i := rows[k];
      assert i in rows;
      if l.attempts[i].kind == Implementation {
        if l.attempts[i].workItem !in latest {
          order := order + [l.attempts[i].workItem];
        }
        latest := latest[l.attempts[i].workItem := i];
      }
      k := k + 1;
    }
    assert rows[..k] == rows;
  }

  method PendingTargets(l: Ledger, t: string, latest: map<string, nat>, order: seq<string>,
                        reviewerProvider: string)
    returns (r: Result<seq<nat>, TargetError>)
    requires forall item :: item in order <==> item in latest
    requires forall a, b | 0 <= a < b < |order| :: order[a] != order[b]
    requires forall item | item in latest ::
               latest[item] in l.attempts && l.attempts[latest[item]].workItem == item
    requires HasImplementation(l, t)
    ensures latest.Values <= l.attempts.Keys && TargetAnswer(l, t, reviewerProvider, latest.Values, r)
  {
    var failed := exists i | i in latest.Values :: l.attempts[i].status != Succeeded;
    if failed {
      return Failure(LatestFailed);
    }
    var shared := exists i | i in latest.Values :: l.attempts[i].provider == reviewerProvider;
    if shared {
      return Failure(ProviderShared);
    }
    var pending := Unreviewed(l, t, latest, order);
    if pending == [] {
      return Failure(AlreadyReviewed);
    }
    return Success(pending);
  }

  method Unreviewed(l: Ledger, t: string, latest: map<string, nat>, order: seq<string>)
    returns (pending: seq<nat>)
    requires forall item :: item in order <==> item in latest
    requires forall a, b | 0 <= a < b < |order| :: order[a] != order[b]
    requires forall item | item in latest ::
               latest[item] in l.attempts && l.attempts[latest[item]].workItem == item
    ensures forall i :: i in pending <==> i in latest.Values && !HasReview(l, t, i)
    ensures Distinct(pending)
  {
    pending := [];
    var k := 0;
    while k < |order|
      invariant 0 <= k <= |order|
      invariant forall i :: i in pending <==>
                  i in latest.Values && l.attempts[i].workItem in order[..k] && !HasReview(l, t, i)
      invariant Distinct(pending)
    {
      var item := order[k];
      assert item in order && item !in order[..k];
      var i := latest[item];
      assert i in latest.Values;
      var reviewed := HasReview(l, t, i);
      if !reviewed {
        pending := pending + [i];
      }
      k := k + 1;
    }
    assert order[..k] == order;
    forall i | i in latest.Values ensures l.attempts[i].workItem in order {
      var item :| item in latest && latest[item] == i;
    }
  }
}
