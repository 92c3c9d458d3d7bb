/** The records and enumerations shared by the store, the runner and the HTTP service. */
module Models {

  datatype Option<+T> = None | Some(value: T)

  datatype Result<+T, +E> = Success(value: T) | Failure(error: E)

  datatype TaskStatus = Queued | Running | NeedsReview | Blocked | Completed | Failed | Cancelled

  datatype AttemptStatus = RunningAttempt | Succeeded | FailedAttempt | CancelledAttempt

  datatype AttemptKind = Coordinator | Implementation

  datatype Verdict = Approve | RequestChanges | BlockedByReview

  /** The fields of a task that no later call may change. */
  datatype Definition = Definition(
    title: string,
    objective: string,
    workspace: string,
    acceptanceCriteria: seq<string>,
    constraints: seq<string>,
    context: map<string, string>)

  datatype Task = Task(definition: Definition, status: TaskStatus)

  datatype CostSource = UnknownCost | RuntimeReported | ProviderRateDerived | BillingReceipt

  /** The cost part of a runtime's usage report; token counts take no part in any decision. */
  datatype Usage = Usage(
    reportedCost: Option<real>,
    derivedCost: Option<real>,
    costSource: CostSource,
    evidenceRef: Option<string>)

  datatype Attempt = Attempt(
    task: string,
    agent: string,
    harness: string,
    provider: string,
    model: Option<string>,
    kind: AttemptKind,
    workItem: string,
    startedAt: nat,
    status: AttemptStatus,
    summary: string,
    evidence: seq<string>,
    transcript: Option<string>,
    usage: Option<Usage>,
    pid: Option<nat>)

  datatype Review = Review(
    task: string,
    attempt: nat,
    reviewer: string,
    harness: string,
    provider: string,
    verdict: Verdict,
    summary: string,
    issues: seq<string>,
    evidence: seq<string>,
    createdAt: nat)

  /** A row of the append-only event table, one constructor per kind of event. */
  datatype Event =
    | TaskCreated(task: string, title: string)
    | TaskTransitioned(task: string, from: TaskStatus, to: TaskStatus, reason: string)
    | AttemptStarted(task: string, attempt: nat, agent: string, harness: string, provider: string,
                     model: Option<string>, kind: AttemptKind, workItem: string)
    | AttemptFinished(task: string, attempt: nat, status: AttemptStatus, summary: string)
    | ReviewRecorded(task: string, review: nat, reviewer: string, verdict: Verdict)

  function ParseVerdict(text: string): Option<Verdict> {
    match text
    case "approve" => Some(Approve)
    case "request_changes" => Some(RequestChanges)
    case "blocked" => Some(BlockedByReview)
    case _ => None
  }

  predicate CanonicalReference(ref: Option<string>) {
    ref.Some? ==> ref.value != "" && Trimmed(ref.value)
  }

  predicate Trimmed(text: string) {
    text != "" ==> !IsSpace(text[0]) && !IsSpace(text[|text| - 1])
  }

  /** The validators of a usage report: which amounts and which evidence each provenance carries. */
  predicate ValidUsage(u: Usage) {
    && (u.reportedCost.Some? ==> u.reportedCost.value >= 0.0)
    && (u.derivedCost.Some? ==> u.derivedCost.value >= 0.0)
    && CanonicalReference(u.evidenceRef)
    && match u.costSource
       case UnknownCost => u.reportedCost.None? && u.derivedCost.None?
       case RuntimeReported => u.reportedCost.Some? && u.derivedCost.None?
       case ProviderRateDerived =>
         u.derivedCost.Some? && u.reportedCost.None? && u.evidenceRef.Some?
       case BillingReceipt =>
         u.reportedCost.Some? && u.derivedCost.None? && u.evidenceRef.Some?
  }

  predicate Distinct(ids: seq<nat>) {
    forall j, k | 0 <= j < k < |ids| :: ids[j] != ids[k]
  }

  /** The characters that Python's str.strip removes. */
  predicate IsSpace(c: char) {
    var n := c as int;
    || 9 <= n <= 13 || 28 <= n <= 32 || n == 0x85 || n == 0xA0 || n == 0x1680
    || 0x2000 <= n <= 0x200A || n == 0x2028 || n == 0x2029 || n == 0x202F || n == 0x205F
    || n == 0x3000
  }

  function StripLeft(s: string): (r: string)
    ensures r != "" ==> !IsSpace(r[0])
  {
    if s != "" && IsSpace(s[0]) then StripLeft(s[1..]) else s
  }

  function StripRight(s: string): (r: string)
    ensures r <= s
    ensures r != "" ==> !IsSpace(r[|r| - 1])
  {
    if s != "" && IsSpace(s[|s| - 1]) then StripRight(s[..|s| - 1]) else s
  }

  function Strip(s: string): (r: string)
    ensures Trimmed(r)
    ensures Trimmed(s) ==> r == s
  {
    StripRight(StripLeft(s))
  }
}
