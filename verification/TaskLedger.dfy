/** The task ledger as a value: its tables, every call on it, and when a call is refused. */
module TaskLedger {
  import opened Models
  import Execution

  /** The four tables of the store. Attempt and review ids are the numbers their twelve
      hexadecimal digits spell; instants are microseconds. */
  datatype Ledger = Ledger(
    tasks: map<string, Task>,
    attempts: map<nat, Attempt>,
    reviews: map<nat, Review>,
    log: seq<Event>)

  const EMPTY := Ledger(map[], map[], map[], [])

  datatype Refusal =
    | InvalidTaskId
    | InvalidDefinition
    | DifferentDefinition
    | IdTaken
    | TaskNotFound
    | AttemptNotFound
    | UseCompleteTask
    | UseCancelTask
    | InvalidTransition(from: TaskStatus, to: TaskStatus)
    | ImplementationRunning
    | AttemptsRunning
    | NotCancellable
    | EmptyWorkItem
    | BadIdentity(identityError: Execution.IdentityError)
    | TaskNotRunning
    | WorkItemTaken
    | NotTerminal
    | InvalidUsage
    | EvidenceRequired
    | AlreadyTerminal
    | InvalidPid
    | AttemptNotRunning
    | NotAReviewer
    | DifferentTask
    | NotAnImplementation
    | NotSuccessful
    | SameProvider
    | InvalidVerdict
    | NotInReview
    | NoImplementation
    | GateUnmet
    | ChangedConcurrently

  /** One call of a store operation, with what the environment contributes to it:
      the generated id, the clock reading and the environment variables. */
  datatype Call =
    | CreateTask(taskId: Option<string>, generatedId: string, definition: Definition, workspaceOk: bool)
    | Transition(task: string, target: TaskStatus, reason: string)
    | CancelTask(task: string, reason: string)
    | StartAttempt(task: string, agent: string, workItem: string, provider: Option<string>,
                   model: Option<string>, env: Execution.Environment, attemptId: nat, now: nat)
    | FinishAttempt(attempt: nat, status: AttemptStatus, summary: string, evidence: seq<string>,
                    transcript: Option<string>, usage: Option<Usage>)
    | SetAttemptProcess(attempt: nat, pid: int)
    | RecordReview(task: string, reviewer: string, verdict: string, summary: string, attempt: nat,
                   issues: seq<string>, evidence: seq<string>, env: Execution.Environment,
                   reviewId: nat, now: nat)
    | CompleteTask(task: string, summary: string)

  // ---------------------------------------------------------------- tasks

  predicate IsIdStart(c: char) {
    'A' <= c <= 'Z' || 'a' <= c <= 'z' || '0' <= c <= '9'
  }

  predicate ValidTaskId(id: string) {
    && 1 <= |id| <= 128
    && IsIdStart(id[0])
    && forall i | 0 <= i < |id| :: IsIdStart(id[i]) || id[i] == '_' || id[i] == '-'
  }

  /** The criteria that survive stripping, stripped. */
  function Cleaned(criteria: seq<string>): seq<string> {
    if criteria == [] then []
    else
      var first := Strip(criteria[0]);
      (if first == "" then [] else [first]) + Cleaned(criteria[1..])
  }

  predicate ValidDefinition(d: Definition) {
    1 <= |d.title| <= 200 && d.objective != "" && Cleaned(d.acceptanceCriteria) != []
  }

  function Stored(d: Definition): Definition {
    d.(acceptanceCriteria := Cleaned(d.acceptanceCriteria))
  }

  function StatusOf(l: Ledger, t: string): Option<TaskStatus> {
    if t in l.tasks then Some(l.tasks[t].status) else None
  }

  function TargetId(c: Call): string
    requires c.CreateTask?
  {
    if c.taskId.Some? then c.taskId.value else c.generatedId
  }

  function CreateRefusal(l: Ledger, c: Call): Option<Refusal>
    requires c.CreateTask?
  {
    if !ValidTaskId(TargetId(c)) then Some(InvalidTaskId)
    else if !c.workspaceOk || !ValidDefinition(c.definition) then Some(InvalidDefinition)
    else if TargetId(c) !in l.tasks then None
    else if c.taskId.None? then Some(IdTaken)
    else if l.tasks[TargetId(c)].definition != Stored(c.definition) then Some(DifferentDefinition)
    else None
  }

  function Created(l: Ledger, c: Call): Ledger
    requires c.CreateTask?
  {
    if TargetId(c) in l.tasks then l
    else l.(tasks := l.tasks[TargetId(c) := Task(Stored(c.definition), Queued)],
            log := l.log + [TaskCreated(TargetId(c), c.definition.title)])
  }

  function ValidTransitions(from: TaskStatus): set<TaskStatus> {
    match from
    case Queued => {Running, Blocked, Failed, Cancelled}
    case Running => {NeedsReview, Blocked, Failed, Cancelled}
    case NeedsReview => {Running, Blocked, Failed}
    case Blocked => {Queued, Running, Failed}
    case Failed => {Queued, Running}
    case Completed => {}
    case Cancelled => {}
  }

  predicate RunningImplementation(l: Ledger, task: string, i: nat) {
    && i in l.attempts
    && l.attempts[i].task == task
    && l.attempts[i].kind == Implementation
    && l.attempts[i].status == RunningAttempt
  }

  predicate HasRunningImplementation(l: Ledger, task: string) {
    exists i | i in l.attempts :: RunningImplementation(l, task, i)
  }

  predicate RunningFor(l: Ledger, task: string, i: nat) {
    && i in l.attempts
    && l.attempts[i].task == task
    && l.attempts[i].status == RunningAttempt
  }

  predicate HasRunningAttempt(l: Ledger, task: string) {
    exists i | i in l.attempts :: RunningFor(l, task, i)
  }

  function TransitionRefusal(l: Ledger, task: string, target: TaskStatus): Option<Refusal> {
    if target == Completed then Some(UseCompleteTask)
    else if target == Cancelled then Some(UseCancelTask)
    else if task !in l.tasks then Some(TaskNotFound)
    else
      var current := l.tasks[task].status;
      if target == current then None
      else if target !in ValidTransitions(current) then Some(InvalidTransition(current, target))
      else if target in {Blocked, Failed} && HasRunningImplementation(l, task)
      then Some(ImplementationRunning)
      else None
  }

  function WithStatus(l: Ledger, task: string, target: TaskStatus, reason: string): Ledger
    requires task in l.tasks
  {
    l.(tasks := l.tasks[task := l.tasks[task].(status := target)],
       log := l.log + [TaskTransitioned(task, l.tasks[task].status, target, reason)])
  }

  function Moved(l: Ledger, task: string, target: TaskStatus, reason: string): Ledger
    requires task in l.tasks
  {
    if l.tasks[task].status == target then l else WithStatus(l, task, target, reason)
  }

  function CancelRefusal(l: Ledger, task: string): Option<Refusal> {
    if task !in l.tasks then Some(TaskNotFound)
    else if l.tasks[task].status == Cancelled then None
    else if l.tasks[task].status !in {Queued, Running} then Some(NotCancellable)
    else if HasRunningAttempt(l, task) then Some(AttemptsRunning)
    else None
  }

  // ------------------------------------------------------------- attempts

  predicate HoldsWorkItem(l: Ledger, task: string, workItem: string, i: nat) {
    RunningImplementation(l, task, i) && l.attempts[i].workItem == workItem
  }

  function IdentityOf(c: Call): Result<Execution.Identity, Execution.IdentityError>
    requires c.StartAttempt?
  {
    Execution.Resolve(c.agent, c.provider, c.model, c.env)
  }

  function StartRefusal(l: Ledger, c: Call): Option<Refusal>
    requires c.StartAttempt?
  {
    if Strip(c.workItem) == "" then Some(EmptyWorkItem)
    else if IdentityOf(c).Failure? then Some(BadIdentity(IdentityOf(c).error))
    else if c.task !in l.tasks then Some(TaskNotFound)
    else if l.tasks[c.task].status != Running then Some(TaskNotRunning)
    else if c.attemptId in l.attempts then Some(WorkItemTaken)
    else if IdentityOf(c).value.kind == Implementation
            && exists i | i in l.attempts :: HoldsWorkItem(l, c.task, Strip(c.workItem), i)
    then Some(WorkItemTaken)
    else None
  }

  function NewAttempt(c: Call): Attempt
    requires c.StartAttempt? && IdentityOf(c).Success?
  {
    var identity := IdentityOf(c).value;
    Attempt(c.task, c.agent, identity.harness, identity.provider.value, identity.model,
            identity.kind, Strip(c.workItem), c.now, RunningAttempt, "", [], None, None, None)
  }

  function StartedEvent(i: nat, a: Attempt): Event {
    AttemptStarted(a.task, i, a.agent, a.harness, a.provider, a.model, a.kind, a.workItem)
  }

  function Started(l: Ledger, c: Call): Ledger
    requires c.StartAttempt? && StartRefusal(l, c).None?
  {
    var a := NewAttempt(c);
    l.(attempts := l.attempts[c.attemptId := a], log := l.log + [StartedEvent(c.attemptId, a)])
  }

  predicate SameOutcome(a: Attempt, c: Call)
    requires c.FinishAttempt?
  {
    && a.status == c.status
    && a.summary == c.summary
    && a.evidence == c.evidence
    && a.transcript == c.transcript
    && a.usage == c.usage
  }

  function FinishRefusal(l: Ledger, c: Call): Option<Refusal>
    requires c.FinishAttempt?
  {
    if c.status == RunningAttempt then Some(NotTerminal)
    else if c.attempt !in l.attempts then Some(AttemptNotFound)
    else if c.usage.Some? && !ValidUsage(c.usage.value) then Some(InvalidUsage)
    else if c.status == Succeeded && c.evidence == [] then Some(EvidenceRequired)
    else
      var current := l.attempts[c.attempt];
      if current.status != RunningAttempt && !SameOutcome(current, c) then Some(AlreadyTerminal)
      else None
  }

  function Closed(a: Attempt, c: Call): Attempt
    requires c.FinishAttempt?
  {
    a.(status := c.status, summary := c.summary, evidence := c.evidence,
       transcript := c.transcript, usage := c.usage, pid := None)
  }

  function Finished(l: Ledger, c: Call): Ledger
    requires c.FinishAttempt? && c.attempt in l.attempts
  {
    var current := l.attempts[c.attempt];
    if current.status != RunningAttempt then l
    else l.(attempts := l.attempts[c.attempt := Closed(current, c)],
            log := l.log + [AttemptFinished(current.task, c.attempt, c.status, c.summary)])
  }

  function ProcessRefusal(l: Ledger, c: Call): Option<Refusal>
    requires c.SetAttemptProcess?
  {
    if c.pid <= 0 then Some(InvalidPid)
    else if c.attempt !in l.attempts || l.attempts[c.attempt].status != RunningAttempt
    then Some(AttemptNotRunning)
    else None
  }

  function Tracked(l: Ledger, c: Call): Ledger
    requires c.SetAttemptProcess? && ProcessRefusal(l, c).None?
  {
    l.(attempts := l.attempts[c.attempt := l.attempts[c.attempt].(pid := Some(c.pid))])
  }

  // -------------------------------------------------------------- reviews

  /** The checks of record_review that read the reviewed attempt. */
  function ReviewTargetRefusal(l: Ledger, c: Call, provider: string): Option<Refusal>
    requires c.RecordReview?
  {
    if c.attempt !in l.attempts then Some(AttemptNotFound)
    else
      var a := l.attempts[c.attempt];
      if a.task != c.task then Some(DifferentTask)
      else if a.kind != Implementation then Some(NotAnImplementation)
      else if a.status != Succeeded then Some(NotSuccessful)
      else if a.provider == provider then Some(SameProvider)
      else None
  }

  function ReviewerOf(c: Call): Result<Execution.Identity, Execution.IdentityError>
    requires c.RecordReview?
  {
    Execution.Resolve(c.reviewer, None, None, c.env)
  }

  /** The checks of record_review up to the insert itself. */
  function ReviewReadRefusal(l: Ledger, c: Call): Option<Refusal>
    requires c.RecordReview?
  {
    if !ValidTaskId(c.task) then Some(InvalidTaskId)
    else if c.task !in l.tasks then Some(TaskNotFound)
    else if ReviewerOf(c).Failure? then Some(BadIdentity(ReviewerOf(c).error))
    else if ReviewerOf(c).value.role != Execution.ReviewerRole then Some(NotAReviewer)
    else
      var target := ReviewTargetRefusal(l, c, ReviewerOf(c).value.provider.value);
      if target.Some? then target
      else if c.verdict == "approve" && c.evidence == [] then Some(EvidenceRequired)
      else if ParseVerdict(c.verdict).None? then Some(InvalidVerdict)
      else None
  }

  function ReviewRefusal(l: Ledger, c: Call): Option<Refusal>
    requires c.RecordReview?
  {
    if ReviewReadRefusal(l, c).Some? then ReviewReadRefusal(l, c)
    else if c.reviewId in l.reviews then Some(IdTaken)
    else None
  }

  function NewReview(c: Call): Review
    requires c.RecordReview? && ReviewerOf(c).Success?
    requires ParseVerdict(c.verdict).Some?
  {
    var identity := ReviewerOf(c).value;
    Review(c.task, c.attempt, c.reviewer, identity.harness, identity.provider.value,
           ParseVerdict(c.verdict).value, c.summary, c.issues, c.evidence, c.now)
  }

  function Reviewed(l: Ledger, c: Call): Ledger
    requires c.RecordReview? && ReviewReadRefusal(l, c).None?
  {
    var r := NewReview(c);
    l.(reviews := l.reviews[c.reviewId := r],
       log := l.log + [ReviewRecorded(c.task, c.reviewId, c.reviewer, r.verdict)])
  }

  // ----------------------------------------------------------- completion

  /** The order of `started_at || ':' || id` and of `ORDER BY created_at DESC, id DESC`. */
  predicate Earlier(time: nat, id: nat, laterTime: nat, laterId: nat) {
    time < laterTime || (time == laterTime && id < laterId)
  }

  predicate IsImplementation(l: Ledger, task: string, i: nat) {
    i in l.attempts && l.attempts[i].task == task && l.attempts[i].kind == Implementation
  }

  predicate SameWorkItem(l: Ledger, task: string, j: nat, i: nat)
    requires i in l.attempts
  {
    IsImplementation(l, task, j) && l.attempts[j].workItem == l.attempts[i].workItem
  }

  predicate NotLater(l: Ledger, j: nat, i: nat)
    requires i in l.attempts && j in l.attempts
  {
    j == i || Earlier(l.attempts[j].startedAt, j, l.attempts[i].startedAt, i)
  }

  /** Attempt i is the row the completion query selects for its work item. */
  predicate IsLatest(l: Ledger, task: string, i: nat) {
    && IsImplementation(l, task, i)
    && forall j | j in l.attempts ::
         SameWorkItem(l, task, j, i) ==> NotLater(l, j, i)
  }

  predicate Reviews(l: Ledger, task: string, i: nat, r: nat) {
    r in l.reviews && l.reviews[r].task == task && l.reviews[r].attempt == i
  }

  predicate IsNewestReview(l: Ledger, task: string, i: nat, r: nat) {
    && Reviews(l, task, i, r)
    && forall q | q in l.reviews :: Reviews(l, task, i, q) ==>
         q == r || Earlier(l.reviews[q].createdAt, q, l.reviews[r].createdAt, r)
  }

  /** An evidence-backed approval by another provider. */
  predicate Approves(review: Review, provider: string) {
    review.verdict == Approve && review.evidence != [] && review.provider != provider
  }

  predicate NewestReviewApproves(l: Ledger, task: string, i: nat)
    requires i in l.attempts
  {
    exists r | r in l.reviews ::
      IsNewestReview(l, task, i, r) && Approves(l.reviews[r], l.attempts[i].provider)
  }

  predicate Closable(l: Ledger, task: string, i: nat)
    requires i in l.attempts
  {
    l.attempts[i].status == Succeeded && NewestReviewApproves(l, task, i)
  }

  function CompletionRefusal(l: Ledger, task: string): Option<Refusal> {
    if !ValidTaskId(task) then Some(InvalidTaskId)
    else if task !in l.tasks then Some(TaskNotFound)
    else if l.tasks[task].status != NeedsReview then Some(NotInReview)
    else if HasRunningImplementation(l, task) then Some(ImplementationRunning)
    else if !exists i | i in l.attempts :: IsImplementation(l, task, i) then Some(NoImplementation)
    else if exists i | i in l.attempts :: IsLatest(l, task, i) && !Closable(l, task, i)
    then Some(GateUnmet)
    else None
  }

  // ---------------------------------------------------------------- calls

  function RefusalOf(l: Ledger, c: Call): Option<Refusal> {
    match c
    case CreateTask(_, _, _, _) => CreateRefusal(l, c)
    case Transition(task, target, _) => TransitionRefusal(l, task, target)
    case CancelTask(task, _) => CancelRefusal(l, task)
    case StartAttempt(_, _, _, _, _, _, _, _) => StartRefusal(l, c)
    case FinishAttempt(_, _, _, _, _, _) => FinishRefusal(l, c)
    case SetAttemptProcess(_, _) => ProcessRefusal(l, c)
    case RecordReview(_, _, _, _, _, _, _, _, _, _) => ReviewRefusal(l, c)
    case CompleteTask(task, _) => CompletionRefusal(l, task)
  }

  predicate Accepted(l: Ledger, c: Call) {
    RefusalOf(l, c).None?
  }

  function Effect(l: Ledger, c: Call): Ledger
    requires Accepted(l, c)
  {
    match c
    case CreateTask(_, _, _, _) => Created(l, c)
    case Transition(task, target, reason) => Moved(l, task, target, reason)
    case CancelTask(task, reason) => Moved(l, task, Cancelled, reason)
    case StartAttempt(_, _, _, _, _, _, _, _) => Started(l, c)
    case FinishAttempt(_, _, _, _, _, _) => Finished(l, c)
    case SetAttemptProcess(_, _) => Tracked(l, c)
    case RecordReview(_, _, _, _, _, _, _, _, _, _) => Reviewed(l, c)
    case CompleteTask(task, summary) => Moved(l, task, Completed, summary)
  }

  /** A refused call leaves the ledger as it was. */
  function Apply(l: Ledger, c: Call): Ledger {
    if Accepted(l, c) then Effect(l, c) else l
  }

  function Run(l: Ledger, calls: seq<Call>): Ledger
    decreases |calls|
  {
    if calls == [] then l else Run(Apply(l, calls[0]), calls[1..])
  }

  ghost predicate Reachable(l: Ledger) {
    exists calls :: l == Run(EMPTY, calls)
  }

  lemma {:induction false} RunAppend(l: Ledger, first: seq<Call>, rest: seq<Call>)
    ensures Run(l, first + rest) == Run(Run(l, first), rest)
    decreases |first|
  {
    if first == [] {
      assert first + rest == rest;
    } else {
      assert (first + rest)[1..] == first[1..] + rest;
      RunAppend(Apply(l, first[0]), first[1..], rest);
    }
  }
}
