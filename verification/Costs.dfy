/** _cost_projection: what the observed usage of a task's attempts allows the service to state. */
module Costs {

  import opened Models
  import TaskLedger

  datatype Entry = Entry(attempt: nat, usage: Option<Usage>)

  datatype Observation = Observation(attempt: nat, amount: real, source: CostSource)

  /** An evidence reference: a given text, or one that the service derives from attempt ids. */
  datatype Evidence = Given(text: string) | AttemptUsage(attempts: seq<nat>) | CostUnknown

  datatype SourceLabel = Single(source: CostSource) | MixedObserved

  datatype Projection = Projection(
    actualCents: Option<int>,
    inDollars: bool,
    source: Option<SourceLabel>,
    evidence: Option<Evidence>,
    reported: Option<real>,
    derived: Option<real>)

  datatype CostError = MissingReceipt | ReceiptsDiffer

  predicate ExplicitlyUnknown(status: TaskStatus) {
    status in {NeedsReview, Blocked, Completed, TaskStatus.Failed, TaskStatus.Cancelled}
  }

  // -------------------------------------------------------- observations

  function ReportedPart(e: Entry): Option<real> {
    if e.usage.None? then None else e.usage.value.reportedCost
  }

  function DerivedPart(e: Entry): Option<real> {
    if e.usage.None? then None else e.usage.value.derivedCost
  }

  /** The amount an attempt's usage observes. */
  function Amount(e: Entry): Option<real> {
    if ReportedPart(e).Some? then ReportedPart(e) else DerivedPart(e)
  }

  predicate Billed(e: Entry) { Amount(e).Some? && e.usage.value.costSource == BillingReceipt }

  /** A receipt without its amount or its reference. */
  predicate Malformed(e: Entry) {
    Billed(e) && (e.usage.value.reportedCost.None? || e.usage.value.evidenceRef.None?)
  }

  predicate WellFormed(entries: seq<Entry>) {
    forall i :: 0 <= i < |entries| ==> !Malformed(entries[i])
  }

  /** What reading the rows through the usage validators guarantees. */
  predicate Validated(entries: seq<Entry>) {
    forall i :: 0 <= i < |entries| && entries[i].usage.Some? ==> ValidUsage(entries[i].usage.value)
  }

  /** The evidence an observed attempt contributes. */
  function ReferenceOf(e: Entry): Evidence
    requires Amount(e).Some? && !Malformed(e)
  {
    var ref := e.usage.value.evidenceRef;
    if Billed(e) then Given(ref.value)
    else if ref.Some? && ref.value != "" then Given(ref.value) else AttemptUsage([e.attempt])
  }

  function Last<T>(s: seq<T>): T requires s != [] { s[|s| - 1] }
  function Init<T>(s: seq<T>): seq<T> requires s != [] { s[..|s| - 1] }

  function Observations(entries: seq<Entry>): (r: seq<Observation>)
    ensures |r| <= |entries|
    ensures |r| == |entries| <==> forall i :: 0 <= i < |entries| ==> Amount(entries[i]).Some?
    ensures r == [] <==> forall i :: 0 <= i < |entries| ==> Amount(entries[i]).None?
  {
    if entries == [] then []
    else
      var e := Last(entries);
      var before := Observations(Init(entries));
      if Amount(e).Some? then before + [Observation(e.attempt, Amount(e).value, e.usage.value.costSource)]
      else before
  }

  function References(entries: seq<Entry>): (r: seq<Evidence>)
    requires WellFormed(entries)
    ensures |r| == |Observations(entries)|
  {
    if entries == [] then []
    else
      var before := References(Init(entries));
      if Amount(Last(entries)).Some? then before + [ReferenceOf(Last(entries))] else before
  }

  /** One kind of amount, as a list and as a sum. */
  function Parts(part: Entry -> Option<real>, entries: seq<Entry>): (r: seq<real>)
    ensures r == [] <==> forall i :: 0 <= i < |entries| ==> part(entries[i]).None?
  {
    if entries == [] then []
    else
      var before := Parts(part, Init(entries));
      if part(Last(entries)).Some? then before + [part(Last(entries)).value] else before
  }

  function Total(part: Entry -> Option<real>, entries: seq<Entry>): real {
    if entries == [] then 0.0
    else Total(part, Init(entries)) + if part(Last(entries)).Some? then part(Last(entries)).value else 0.0
  }

  function Sum(amounts: seq<real>): real {
    if amounts == [] then 0.0 else Sum(Init(amounts)) + Last(amounts)
  }

  function Amounts(observed: seq<Observation>): (r: seq<real>)
    ensures |r| == |observed|
  {
    if observed == [] then [] else Amounts(Init(observed)) + [Last(observed).amount]
  }

  function EntryId(e: Entry): nat {
    e.attempt
  }

  function ObservedId(o: Observation): nat {
    o.attempt
  }

  function Ids<T>(id: T -> nat, items: seq<T>): (r: seq<nat>)
    ensures |r| == |items| && forall i :: 0 <= i < |r| ==> r[i] == id(items[i])
  {
    seq(|items|, i requires 0 <= i < |items| => id(items[i]))
  }

  lemma {:induction false} SumSnoc(amounts: seq<real>, amount: real)
    ensures Sum(amounts + [amount]) == Sum(amounts) + amount
  {
  }

  lemma {:induction false} PartsSum(part: Entry -> Option<real>, entries: seq<Entry>)
    ensures Sum(Parts(part, entries)) == Total(part, entries)
  {
    if entries != [] {
      PartsSum(part, Init(entries));
      if part(Last(entries)).Some? {
        SumSnoc(Parts(part, Init(entries)), part(Last(entries)).value);
      }
    }
  }

  lemma {:induction false} AmountsSnoc(observed: seq<Observation>, o: Observation)
    ensures Sum(Amounts(observed + [o])) == Sum(Amounts(observed)) + o.amount
  {
  }

  lemma {:induction false} AmountsSum(entries: seq<Entry>)
    ensures Sum(Amounts(Observations(entries))) == Total(Amount, entries)
  {
    if entries != [] {
      AmountsSum(Init(entries));
      var e := Last(entries);
      if Amount(e).Some? {
        AmountsSnoc(Observations(Init(entries)), Observation(e.attempt, Amount(e).value, e.usage.value.costSource));
      }
    }
  }

  /** With every attempt observed, the lists line up with the attempts. */
  lemma {:induction false} FullCoverage(entries: seq<Entry>, k: nat)
    requires WellFormed(entries) && |Observations(entries)| == |entries| && k < |entries|
    ensures Amount(entries[k]).Some?
    ensures Observations(entries)[k].attempt == entries[k].attempt
    ensures Observations(entries)[k].source == entries[k].usage.value.costSource
    ensures References(entries)[k] == ReferenceOf(entries[k])
  {
    if k < |entries| - 1 {
      FullCoverage(Init(entries), k);
    }
  }

  // ------------------------------------------------------------ rounding

  /** ROUND_HALF_UP to a whole number: ties go away from zero. */
  function HalfUp(x: real): (n: int)
    ensures n as real - 0.5 <= x <= n as real + 0.5
    ensures x == n as real + 0.5 ==> x < 0.0
    ensures x == n as real - 0.5 ==> x > 0.0
  {
    if x >= 0.0 then (x + 0.5).Floor else -((0.5 - x).Floor)
  }

  // ---------------------------------------------------------- projection

  predicate Same<T(==)>(s: seq<T>) { forall x :: x in s ==> x == s[0] }

  function Sources(observed: seq<Observation>): (r: seq<CostSource>)
    ensures |r| == |observed| && forall i :: 0 <= i < |r| ==> r[i] == observed[i].source
  {
    seq(|observed|, i requires 0 <= i < |observed| => observed[i].source)
  }

  /** The conclusion drawn from the collected lists. */
  function Conclude(ids: seq<nat>, observed: seq<Observation>, reported: seq<real>, derived: seq<real>,
                    references: seq<Evidence>, status: TaskStatus): Result<Projection, CostError>
    requires |references| == |observed|
  {
    if observed == [] then
      Success(if ExplicitlyUnknown(status)
              then Projection(None, false, Some(Single(UnknownCost)), Some(CostUnknown), None, None)
              else Projection(None, false, None, None, None, None))
    else
      var complete := |observed| == |ids|;
      var uniform := complete && Same(Sources(observed));
      var billed := uniform && observed[0].source == BillingReceipt;
      if billed && !Same(references) then Failure(ReceiptsDiffer)
      else Success(Projection(
        if billed then Some(HalfUp(Sum(Amounts(observed)) * 100.0)) else None,
        true,
        Some(if uniform then Single(observed[0].source) else MixedObserved),
        Some(if billed then references[0] else if !complete then AttemptUsage(ids)
             else if |references| == 1 then references[0] else AttemptUsage(Ids(ObservedId, observed))),
        if reported == [] then None else Some(Sum(reported)),
        if derived == [] then None else Some(Sum(derived))))
  }

  function Project(entries: seq<Entry>, status: TaskStatus): Result<Projection, CostError> {
    if !WellFormed(entries) then Failure(MissingReceipt)
    else Conclude(Ids(EntryId, entries), Observations(entries), Parts(ReportedPart, entries),
                  Parts(DerivedPart, entries), References(entries), status)
  }

  lemma {:induction false} SingletonSet<T>(s: seq<T>)
    requires s != []
    ensures |set x | x in s| == 1 <==> Same(s)
  {
    var all := set x | x in s;
    assert s[0] in all;
    if Same(s) {
      assert all == {s[0]};
    }
    if |all| == 1 {
      forall x | x in s ensures x == s[0] {
        assert |all - {s[0]}| == 0;
        assert x in all;
        assert x !in all - {s[0]};
      }
    }
  }

  datatype Tally = Tally(
    observed: seq<Observation>,
    reported: seq<real>,
    derived: seq<real>,
    references: seq<Evidence>)

  ghost predicate Tallied(t: Tally, entries: seq<Entry>) {
    && WellFormed(entries)
    && t.observed == Observations(entries)
    && t.reported == Parts(ReportedPart, entries)
    && t.derived == Parts(DerivedPart, entries)
    && t.references == References(entries)
  }

  lemma {:induction false} TallyNext(t: Tally, entries: seq<Entry>, i: nat)
    requires i < |entries| && Tallied(t, entries[..i]) && !Malformed(entries[i])
    ensures var e := entries[i];
            Tallied(Tally(
              if Amount(e).Some? then t.observed + [Observation(e.attempt, Amount(e).value, e.usage.value.costSource)]
              else t.observed,
              if ReportedPart(e).Some? then t.reported + [ReportedPart(e).value] else t.reported,
              if DerivedPart(e).Some? then t.derived + [DerivedPart(e).value] else t.derived,
              if Amount(e).Some? then t.references + [ReferenceOf(e)] else t.references), entries[..i + 1])
  {
    assert Init(entries[..i + 1]) == entries[..i];
  }

  /** One pass over the attempts, collecting the lists the conclusion is drawn from. */
  method Collect(entries: seq<Entry>) returns (r: Result<Tally, CostError>)
    ensures r == if WellFormed(entries)
                 then Success(Tally(Observations(entries), Parts(ReportedPart, entries),
                                    Parts(DerivedPart, entries), References(entries)))
                 else Failure(MissingReceipt)
  {
    var observed: seq<Observation> := [];
    var reported: seq<real> := [];
    var derived: seq<real> := [];
    var references: seq<Evidence> := [];
    for i := 0 to |entries|
      invariant Tallied(Tally(observed, reported, derived, references), entries[..i])
    {
      var e := entries[i];
      if Malformed(e) {
        return Failure(MissingReceipt);
      }
      TallyNext(Tally(observed, reported, derived, references), entries, i);
      if e.usage.None? {
        continue;
      }
      var usage := e.usage.value;
      var amount: real;
      if usage.reportedCost.Some? {
        amount := usage.reportedCost.value;
        reported := reported + [amount];
      } else if usage.derivedCost.Some? {
        amount := usage.derivedCost.value;
      } else {
        continue;
      }
      if usage.derivedCost.Some? {
        derived := derived + [usage.derivedCost.value];
      }
      observed := observed + [Observation(e.attempt, amount, usage.costSource)];
      references := references + [ReferenceOf(e)];
    }
    assert entries[..|entries|] == entries;
    return Success(Tally(observed, reported, derived, references));
  }

  /** The tail of the projection: labels, cents and evidence from the collected lists. */
  method Label(ids: seq<nat>, t: Tally, status: TaskStatus) returns (r: Result<Projection, CostError>)
    requires |t.references| == |t.observed|
    ensures r == Conclude(ids, t.observed, t.reported, t.derived, t.references, status)
  {
    var Tally(observed, reported, derived, references) := t;
    if observed == [] {
      if ExplicitlyUnknown(status) {
        return Success(Projection(None, false, Some(Single(UnknownCost)), Some(CostUnknown), None, None));
      }
      return Success(Projection(None, false, None, None, None, None));
    }
    var complete := |observed| == |ids|;
    var sources := set s | s in Sources(observed);
    OneSource(observed);
    var source := if |sources| == 1 && complete then Single(observed[0].source) else MixedObserved;
    var cents: Option<int> := None;
    var receipt: Option<Evidence> := None;
    if complete && sources == {BillingReceipt} {
      SingletonSet(references);
      if |set x | x in references| != 1 {
        return Failure(ReceiptsDiffer);
      }
      cents := Some(HalfUp(Sum(Amounts(observed)) * 100.0));
      receipt := Some(references[0]);
    }
    var evidence :=
      if receipt.Some? then receipt.value
      else if !complete then AttemptUsage(ids)
      else if |references| == 1 then references[0]
      else AttemptUsage(Ids(ObservedId, observed));
    var reportedTotal := if reported == [] then None else Some(Sum(reported));
    var derivedTotal := if derived == [] then None else Some(Sum(derived));
    return Success(Projection(cents, true, Some(source), Some(evidence), reportedTotal, derivedTotal));
  }

  /** What the service states about the cost of a work item. */
  method CostProjection(entries: seq<Entry>, status: TaskStatus) returns (r: Result<Projection, CostError>)
    ensures r == Project(entries, status)
  {
    var collected := Collect(entries);
    if collected.Failure? {
      return Failure(collected.error);
    }
    r := Label(Ids(EntryId, entries), collected.value, status);
  }

  lemma {:induction false} OneSource(observed: seq<Observation>)
    requires observed != []
    ensures var sources := set s | s in Sources(observed);
            && (|sources| == 1 <==> Same(Sources(observed)))
            && (sources == {BillingReceipt} <==> Same(Sources(observed)) && observed[0].source == BillingReceipt)
  {
    SingletonSet(Sources(observed));
    assert Sources(observed)[0] in Sources(observed);
  }

  // ---------------------------------------------------------- properties

  predicate AllBilled(entries: seq<Entry>) {
    entries != [] && forall i :: 0 <= i < |entries| ==> Billed(entries[i])
  }

  /** Every attempt carries a billing receipt, and all have the same reference. */
  predicate OneReceipt(entries: seq<Entry>) {
    AllBilled(entries)
    && forall i :: 0 <= i < |entries| ==> entries[i].usage.value.evidenceRef == entries[0].usage.value.evidenceRef
  }

  lemma {:induction false} ValidatedIsWellFormed(entries: seq<Entry>)
    requires Validated(entries)
    ensures WellFormed(entries)
  {
  }

  /** The guard of the cents branch, in terms of the attempts. */
  lemma {:induction false} BilledExactly(entries: seq<Entry>)
    requires entries != [] && WellFormed(entries)
    ensures (&& |Observations(entries)| == |entries| && Same(Sources(Observations(entries)))
             && Observations(entries)[0].source == BillingReceipt) <==> AllBilled(entries)
  {
    var o := Observations(entries);
    if |o| == |entries| {
      forall k | 0 <= k < |entries| ensures Sources(o)[k] == entries[k].usage.value.costSource {
        FullCoverage(entries, k);
      }
      assert forall k :: 0 <= k < |entries| ==> Sources(o)[k] in Sources(o);
    }
  }

  lemma {:induction false} SameReceipts(entries: seq<Entry>)
    requires WellFormed(entries) && AllBilled(entries)
    ensures References(entries) != []
    ensures Same(References(entries)) <==> OneReceipt(entries)
    ensures References(entries)[0] == ReferenceOf(entries[0])
  {
    var refs := References(entries);
    forall k | 0 <= k < |entries| ensures |refs| == |entries| && refs[k] == ReferenceOf(entries[k]) {
      FullCoverage(entries, k);
    }
    assert forall k :: 0 <= k < |entries| ==> refs[k] in refs;
  }

  /** Validated usage never lacks its receipt; actual cents are stated exactly when there is an
      attempt and one receipt covers all of them; fully billed attempts with several are refused. */
  lemma {:induction false} CentsExactlyForOneReceipt(entries: seq<Entry>, status: TaskStatus)
    requires Validated(entries)
    ensures var r := Project(entries, status);
            && r != Failure(MissingReceipt)
            && (r.Success? && r.value.actualCents.Some? <==> OneReceipt(entries))
            && (r == Failure(ReceiptsDiffer) <==> AllBilled(entries) && !OneReceipt(entries))
  {
    ValidatedIsWellFormed(entries);
    if entries != [] {
      BilledExactly(entries);
      if AllBilled(entries) {
        SameReceipts(entries);
      }
    }
  }

  lemma {:induction false} BilledIsReported(entries: seq<Entry>)
    requires Validated(entries) && AllBilled(entries)
    ensures Parts(DerivedPart, entries) == [] && Parts(ReportedPart, entries) != []
    ensures Total(DerivedPart, entries) == 0.0
  {
    forall i | 0 <= i < |entries| ensures ReportedPart(entries[i]).Some? && DerivedPart(entries[i]).None? {
      assert ValidUsage(entries[i].usage.value);
    }
    PartsSum(DerivedPart, entries);
  }

  /** The cents are the nearest whole number to the observed total, ties upwards, and come with the
      receipt. */
  lemma {:induction false} CentsAreTheTotal(entries: seq<Entry>, status: TaskStatus)
    requires Validated(entries) && OneReceipt(entries)
    ensures Project(entries, status).Success? && Project(entries, status).value.actualCents.Some?
    ensures var p := Project(entries, status).value;
            var cents := p.actualCents.value;
            && cents >= 0
            && cents as real - 0.5 <= Total(Amount, entries) * 100.0 < cents as real + 0.5
            && p.evidence == Some(Given(entries[0].usage.value.evidenceRef.value))
            && p.source == Some(Single(BillingReceipt))
            && p.reported == Some(Total(Amount, entries)) && p.derived == None
  {
    ValidatedIsWellFormed(entries);
    CentsExactlyForOneReceipt(entries, status);
    BilledExactly(entries);
    SameReceipts(entries);
    AmountsSum(entries);
    TotalIsNotNegative(entries);
    TotalsPartition(entries);
    PartsSum(ReportedPart, entries);
    BilledIsReported(entries);
  }

  /** Reported and derived totals partition the observed amounts. */
  lemma {:induction false} TotalsPartition(entries: seq<Entry>)
    requires Validated(entries)
    ensures Total(ReportedPart, entries) + Total(DerivedPart, entries) == Total(Amount, entries)
  {
    if entries != [] {
      TotalsPartition(Init(entries));
      assert Last(entries).usage.Some? ==> ValidUsage(Last(entries).usage.value);
    }
  }

  lemma {:induction false} TotalIsNotNegative(entries: seq<Entry>)
    requires Validated(entries)
    ensures Total(Amount, entries) >= 0.0
  {
    if entries != [] {
      TotalIsNotNegative(Init(entries));
      assert Last(entries).usage.Some? ==> ValidUsage(Last(entries).usage.value);
    }
  }

  predicate Any(part: Entry -> Option<real>, entries: seq<Entry>) {
    exists i :: 0 <= i < |entries| && part(entries[i]).Some?
  }

  /** What a conclusion states of the totals. */
  lemma {:induction false} ConcludedTotals(ids: seq<nat>, observed: seq<Observation>, reported: seq<real>,
                                           derived: seq<real>, references: seq<Evidence>, status: TaskStatus)
    requires |references| == |observed|
    requires Conclude(ids, observed, reported, derived, references, status).Success?
    ensures var p := Conclude(ids, observed, reported, derived, references, status).value;
            && p.inDollars == (observed != [])
            && p.reported == (if observed == [] || reported == [] then None else Some(Sum(reported)))
            && p.derived == (if observed == [] || derived == [] then None else Some(Sum(derived)))
            && (observed == [] ==> p.actualCents == None)
            && (observed == [] ==> p.evidence == if ExplicitlyUnknown(status) then Some(CostUnknown) else None)
            && (observed == [] ==> p.source == if ExplicitlyUnknown(status) then Some(Single(UnknownCost)) else None)
  {
  }

  /** A total is stated exactly when some attempt observed such an amount, and it is their sum; an
      attempt without an observation is never counted as zero dollars. */
  lemma {:induction false} NoNumberIsInvented(entries: seq<Entry>, status: TaskStatus)
    requires Project(entries, status).Success?
    ensures var p := Project(entries, status).value;
            && p.reported == (if Any(ReportedPart, entries) then Some(Total(ReportedPart, entries)) else None)
            && p.derived == (if Any(DerivedPart, entries) then Some(Total(DerivedPart, entries)) else None)
            && p.inDollars == Any(Amount, entries)
            && (!p.inDollars ==> p.actualCents == None)
            && (!p.inDollars ==> p.evidence == if ExplicitlyUnknown(status) then Some(CostUnknown) else None)
            && (!p.inDollars ==> p.source == if ExplicitlyUnknown(status) then Some(Single(UnknownCost)) else None)
  {
    ConcludedTotals(Ids(EntryId, entries), Observations(entries), Parts(ReportedPart, entries),
                    Parts(DerivedPart, entries), References(entries), status);
    PartsSum(ReportedPart, entries);
    PartsSum(DerivedPart, entries);
    assert forall i :: 0 <= i < |entries| && Amount(entries[i]).None? ==>
             ReportedPart(entries[i]).None? && DerivedPart(entries[i]).None?;
  }

  /** One source is named exactly when every attempt was observed with that source; and unless the
      evidence is the receipt or there is only one attempt, it names every attempt. */
  lemma {:induction false} SourceAndEvidence(entries: seq<Entry>, status: TaskStatus, s: CostSource)
    requires Project(entries, status).Success? && Any(Amount, entries)
    ensures Project(entries, status).value.source == Some(Single(s))
            <==> forall i :: 0 <= i < |entries| ==>
                   Amount(entries[i]).Some? && entries[i].usage.value.costSource == s
    ensures Project(entries, status).value.source.Some?
    ensures Project(entries, status).value.actualCents.None? && |entries| > 1
            ==> Project(entries, status).value.evidence == Some(AttemptUsage(Ids(EntryId, entries)))
  {
    var o := Observations(entries);
    if |o| == |entries| {
      forall k | 0 <= k < |entries|
        ensures Sources(o)[k] == entries[k].usage.value.costSource && Ids(ObservedId, o)[k] == Ids(EntryId, entries)[k]
      {
        FullCoverage(entries, k);
      }
      assert Ids(ObservedId, o) == Ids(EntryId, entries);
      assert forall k :: 0 <= k < |entries| ==> Sources(o)[k] in Sources(o);
    }
  }

  /** The evidence of a lone observed attempt is its own reference, or names the attempt. */
  lemma {:induction false} LoneEvidence(e: Entry, status: TaskStatus)
    requires Project([e], status).Success? && Amount(e).Some?
    ensures var ref := e.usage.value.evidenceRef;
            Project([e], status).value.evidence
            == Some(if ref.Some? && (ref.value != "" || Billed(e)) then Given(ref.value)
                    else AttemptUsage([e.attempt]))
  {
    assert Init([e]) == [];
    assert Observations([e]) == [Observation(e.attempt, Amount(e).value, e.usage.value.costSource)];
    assert References([e]) == [ReferenceOf(e)];
  }

  // ------------------------------------------------- from the ledger

  /** The listed attempts of a ledger, as far as their cost is concerned. */
  function EntriesOf(l: TaskLedger.Ledger, rows: seq<nat>): (entries: seq<Entry>)
    requires forall i :: i in rows ==> i in l.attempts
    ensures |entries| == |rows|
  {
    seq(|rows|, k requires 0 <= k < |rows| => Entry(rows[k], l.attempts[rows[k]].usage))
  }

  predicate UsagesValid(l: TaskLedger.Ledger) {
    forall i | i in l.attempts :: l.attempts[i].usage.Some? ==> ValidUsage(l.attempts[i].usage.value)
  }

  lemma {:induction false} ApplyKeepsUsages(l: TaskLedger.Ledger, c: TaskLedger.Call)
    requires UsagesValid(l)
    ensures UsagesValid(TaskLedger.Apply(l, c))
  {
  }

  lemma {:induction false} RunKeepsUsages(l: TaskLedger.Ledger, calls: seq<TaskLedger.Call>)
    requires UsagesValid(l)
    ensures UsagesValid(TaskLedger.Run(l, calls))
    decreases |calls|
  {
    if calls != [] {
      ApplyKeepsUsages(l, calls[0]);
      RunKeepsUsages(TaskLedger.Apply(l, calls[0]), calls[1..]);
    }
  }

  /** Whatever was called, the projection over stored attempts never misses a receipt's evidence:
      it fails exactly when every attempt is billed and two receipts differ. */
  lemma {:induction false} StoredCostsAreReadable(calls: seq<TaskLedger.Call>, rows: seq<nat>, status: TaskStatus)
    requires forall i :: i in rows ==> i in TaskLedger.Run(TaskLedger.EMPTY, calls).attempts
    ensures var entries := EntriesOf(TaskLedger.Run(TaskLedger.EMPTY, calls), rows);
            && Validated(entries)
            && (Project(entries, status).Failure? <==> AllBilled(entries) && !OneReceipt(entries))
  {
    var l := TaskLedger.Run(TaskLedger.EMPTY, calls);
    RunKeepsUsages(TaskLedger.EMPTY, calls);
    var entries := EntriesOf(l, rows);
    forall k | 0 <= k < |entries| && entries[k].usage.Some? ensures ValidUsage(entries[k].usage.value) {
      assert rows[k] in rows;
    }
    CentsExactlyForOneReceipt(entries, status);
  }
}
