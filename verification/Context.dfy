/** build_task_context: the task contract, then as much recent history as the budget holds. */
module Context {

  import opened Text

  const HEADING := "\n## Prior attempts and reviews\n\n"
  const BETWEEN := "\n\n"

  /** The last eight rendered records of one kind. */
  function Recent(records: seq<string>): (r: seq<string>)
    ensures |r| <= 8
  {
    if |records| <= 8 then records else records[|records| - 8..]
  }

  /** They are the eight that come last, in their order; up to eight are all kept. */
  lemma RecentAreTheLast(older: seq<string>, records: seq<string>)
    requires |records| <= 8 && (older != [] ==> |records| == 8)
    ensures Recent(older + records) == records
  {
    assert older == [] ==> older + records == records;
  }

  function Newest(parts: seq<string>, k: nat): seq<string>
    requires k <= |parts|
  {
    parts[|parts| - k..]
  }

  /** k is the number of records in the longest suffix whose joined text fits the budget. */
  ghost predicate LongestFitting(parts: seq<string>, k: nat, budget: int) {
    && k <= |parts|
    && |Join(BETWEEN, Newest(parts, k))| <= budget
    && forall j: nat {:trigger Newest(parts, j)} ::
         k < j <= |parts| ==> |Join(BETWEEN, Newest(parts, j))| > budget
  }

  lemma LongestFittingIsUnique(parts: seq<string>, j: nat, k: nat, budget: int)
    requires LongestFitting(parts, j, budget) && LongestFitting(parts, k, budget)
    ensures j == k
  {
  }

  function OmissionNotice(omitted: nat): string {
    if omitted == 0 then ""
    else Decimal(omitted) + " older record(s) omitted by the context budget.\n\n"
  }

  function Render(contract: string, parts: seq<string>, kept: nat): string
    requires kept <= |parts|
  {
    contract + HEADING + OmissionNotice(|parts| - kept) + Join(BETWEEN, Newest(parts, kept)) + "\n"
  }

  function Remaining(contract: string, maxChars: int): nat {
    if maxChars - |contract| - |HEADING| < 0 then 0 else maxChars - |contract| - |HEADING|
  }

  // ------------------------------------------------------ joined lengths

  function Reversed(parts: seq<string>): (r: seq<string>)
    ensures |r| == |parts|
  {
    if parts == [] then [] else Reversed(parts[1..]) + [parts[0]]
  }

  lemma {:induction false} JoinSnoc(separator: string, parts: seq<string>, last: string)
    ensures |Join(separator, parts + [last])|
            == |Join(separator, parts)| + |last| + if parts == [] then 0 else |separator|
  {
    if parts == [] {
    } else {
      assert (parts + [last])[1..] == parts[1..] + [last];
      JoinSnoc(separator, parts[1..], last);
    }
  }

  /** Joining in reverse gives a text of the same length: the budget test measures what is printed. */
  lemma {:induction false} ReversedJoinLength(separator: string, parts: seq<string>)
    ensures |Join(separator, Reversed(parts))| == |Join(separator, parts)|
  {
    if parts != [] {
      ReversedJoinLength(separator, parts[1..]);
      JoinSnoc(separator, Reversed(parts[1..]), parts[0]);
    }
  }

  lemma {:induction false} LongerSuffixIsLonger(parts: seq<string>, j: nat, k: nat)
    requires j <= k <= |parts|
    ensures |Join(BETWEEN, Newest(parts, j))| <= |Join(BETWEEN, Newest(parts, k))|
    decreases k
  {
    if j < k {
      LongerSuffixIsLonger(parts, j, k - 1);
      assert Newest(parts, k)[1..] == Newest(parts, k - 1);
    }
  }

  // ---------------------------------------------------------- the builder

  /** The text handed to a session, from the rendered contract and the rendered records. */
  method BuildTaskContext(contract: string, attempts: seq<string>, reviews: seq<string>, maxChars: int)
    returns (text: string)
    ensures contract <= text
    ensures attempts == [] && reviews == [] ==>
              text == contract + HEADING + "None.\n" && |text| <= Limit(contract, maxChars) + 6
    ensures attempts != [] || reviews != [] ==>
              exists kept: nat ::
                && LongestFitting(Recent(attempts) + Recent(reviews), kept, Remaining(contract, maxChars))
                && text == Render(contract, Recent(attempts) + Recent(reviews), kept)
  {
    var parts: seq<string> := [];
    for i := 0 to |Recent(attempts)|
      invariant parts == Recent(attempts)[..i]
    {
      parts := parts + [Recent(attempts)[i]];
    }
    for i := 0 to |Recent(reviews)|
      invariant parts == Recent(attempts) + Recent(reviews)[..i]
    {
      parts := parts + [Recent(reviews)[i]];
    }
    assert parts == Recent(attempts) + Recent(reviews);
    if parts == [] {
      text := contract + HEADING + "None.\n";
      return;
    }
    var kept := KeepNewest(parts, Remaining(contract, maxChars));
    text := contract + HEADING + OmissionNotice(|parts| - |kept|) + Join(BETWEEN, kept) + "\n";
    assert text == Render(contract, parts, |kept|);
  }

  /** Take records from the newest back until one no longer fits. */
  method KeepNewest(parts: seq<string>, remaining: nat) returns (kept: seq<string>)
    ensures LongestFitting(parts, |kept|, remaining) && kept == Newest(parts, |kept|)
  {
    kept := [];
    var i := |parts|;
    while i > 0
      invariant 0 <= i <= |parts|
      invariant kept == Newest(parts, |parts| - i)
      invariant |Join(BETWEEN, kept)| <= remaining
    {
      var candidate := Join(BETWEEN, Reversed([parts[i - 1]] + kept));
      ReversedJoinLength(BETWEEN, [parts[i - 1]] + kept);
      assert [parts[i - 1]] + kept == Newest(parts, |parts| - i + 1);
      if |candidate| > remaining {
        LongestAt(parts, |parts| - i, remaining);
        break;
      }
      kept := [parts[i - 1]] + kept;
      i := i - 1;
    }
  }

  /** Stopping at the first suffix that is too long is stopping at the longest that fits. */
  lemma LongestAt(parts: seq<string>, k: nat, budget: nat)
    requires k < |parts|
    requires |Join(BETWEEN, Newest(parts, k))| <= budget
    requires |Join(BETWEEN, Newest(parts, k + 1))| > budget
    ensures LongestFitting(parts, k, budget)
  {
    forall j: nat {:trigger Newest(parts, j)} | k < j <= |parts|
      ensures |Join(BETWEEN, Newest(parts, j))| > budget
    {
      LongerSuffixIsLonger(parts, k + 1, j);
    }
  }

  /** The budget, or the contract and its heading where they alone exceed it. */
  function Limit(contract: string, maxChars: int): int {
    if maxChars < |contract| + |HEADING| then |contract| + |HEADING| else maxChars
  }

  /** Only the omission notice and the final newline can exceed that limit, and the notice is empty
      when everything is kept, which is exactly when everything fits. */
  lemma WithinBudget(contract: string, parts: seq<string>, kept: nat, maxChars: int)
    requires LongestFitting(parts, kept, Remaining(contract, maxChars))
    ensures |Render(contract, parts, kept)| <= Limit(contract, maxChars) + |OmissionNotice(|parts| - kept)| + 1
    ensures kept == |parts| <==> |Join(BETWEEN, parts)| <= Remaining(contract, maxChars)
  {
    assert Newest(parts, |parts|) == parts;
  }

  lemma SomethingIsNotNothing(parts: seq<string>, k: nat)
    requires 1 <= k <= |parts| && forall p :: p in parts ==> p != ""
    ensures |Join(BETWEEN, Newest(parts, k))| > 0
  {
    LongerSuffixIsLonger(parts, 1, k);
    assert Newest(parts, 1)[0] in parts;
  }

  /** When they do not fit, the contract is still whole and every (non-empty) record is dropped. */
  lemma OversizedContractDropsHistory(contract: string, parts: seq<string>, kept: nat, maxChars: int)
    requires LongestFitting(parts, kept, Remaining(contract, maxChars))
    requires |contract| + |HEADING| >= maxChars
    requires forall p :: p in parts ==> p != ""
    ensures kept == 0
  {
    if kept > 0 {
      SomethingIsNotNothing(parts, kept);
    }
  }
}
