/** The dispatch policy that decides before a child agent starts, and its agreement with the store. */
module Policies {
  import opened Models
  import opened TaskLedger
  import opened LedgerInvariants
  import opened StoredRows
  import Execution

  /** A runtime event, as far as the policy looks into it. A None stands for a value of the wrong
      shape; `named` are the attempt ids found in the prompt, in order. */
  datatype Dispatch = Dispatch(kind: string, data: Option<ToolCall>)
  datatype ToolCall = ToolCall(name: string, arguments: Option<Arguments>)
  datatype Arguments = Arguments(agent: Option<string>, args: Option<ChildArgs>)
  datatype ChildArgs = ChildArgs(purpose: string, named: seq<nat>)

  datatype Denial =
    | IdentityUnavailable
    | UnnamedChild
    | LedgerUnreadable
    | NoMatchingRunningAttempt
    | NoSuccessfulAttempt
    | UnknownReviewer
    | NotARegisteredReviewer
    | ReviewerSharesProvider

  datatype Decision = Allow | Deny(reason: Denial)

  /** The process environment of the policy: its task identity and the model variables. */
  datatype Surroundings = Surroundings(
    stateDir: string,
    taskId: string,
    readable: bool,
    env: Execution.Environment)

  predicate EligibleToImplement(l: Ledger, t: string, agent: string, i: nat) {
    RunningImplementation(l, t, i) && l.attempts[i].agent == agent
  }

  predicate SuccessfulImplementation(l: Ledger, t: string, i: nat) {
    IsImplementation(l, t, i) && l.attempts[i].status == Succeeded
  }

  function EvaluateReview(l: Ledger, s: Surroundings, agent: string, named: seq<nat>): Decision {
    if |named| != 1 || !SuccessfulImplementation(l, s.taskId, named[0]) then Deny(NoSuccessfulAttempt)
    else
      var reviewer := Execution.Resolve(agent, None, None, s.env);
      if reviewer.Failure? then Deny(UnknownReviewer)
      else if reviewer.value.role != Execution.ReviewerRole then Deny(NotARegisteredReviewer)
      else if reviewer.value.provider.value == l.attempts[named[0]].provider
      then Deny(ReviewerSharesProvider)
      else Allow
  }

  function Evaluate(l: Ledger, s: Surroundings, event: Dispatch): Decision {
    if event.kind != "tool_call" then Allow
    else if event.data.None? || event.data.value.name != "sys_session_send" then Allow
    else if event.data.value.arguments.None? then Allow
    else
      var arguments := event.data.value.arguments.value;
      if arguments.args.None? then Allow
      else
        var child := arguments.args.value;
        if child.purpose != "implement" && child.purpose != "review" then Allow
        else if s.stateDir == "" || s.taskId == "" then Deny(IdentityUnavailable)
        else if arguments.agent.None? then Deny(UnnamedChild)
        else if !s.readable then Deny(LedgerUnreadable)
        else if child.purpose == "implement" then
          if |child.named| == 1
             && EligibleToImplement(l, s.taskId, arguments.agent.value, child.named[0])
          then Allow else Deny(NoMatchingRunningAttempt)
        else EvaluateReview(l, s, arguments.agent.value, child.named)
  }

  /** A governed dispatch: the form in which the coordinator sends work to a child. */
  function Send(purpose: string, agent: string, named: seq<nat>): Dispatch {
    Dispatch("tool_call",
             Some(ToolCall("sys_session_send",
                           Some(Arguments(Some(agent), Some(ChildArgs(purpose, named)))))))
  }

  predicate Ready(s: Surroundings) {
    s.stateDir != "" && s.taskId != "" && s.readable
  }

  /** A review the policy and the store are asked about: the same agent, task and attempt. */
  predicate SameReview(c: Call, s: Surroundings, agent: string, i: nat) {
    && c.RecordReview?
    && c.task == s.taskId && c.reviewer == agent && c.attempt == i && c.env == s.env
    && ParseVerdict(c.verdict).Some?
    && (c.verdict == "approve" ==> c.evidence != [])
  }

  /** In every reachable ledger the policy lets a review through exactly when the store would
      accept it. */
  lemma PolicyAgreesWithStore(l: Ledger, s: Surroundings, agent: string, i: nat, c: Call)
    requires Reachable(l) && Ready(s) && SameReview(c, s, agent, i)
    ensures Evaluate(l, s, Send("review", agent, [i])) == Allow <==> ReviewReadRefusal(l, c).None?
  {
    ReachableInv(l);
    if SuccessfulImplementation(l, s.taskId, i) {
      assert AttemptOk(l, l.attempts[i]);
    }
  }

  /** For a successful implementation attempt of its task, the policy's reason for denying a review is the
      reason for which the store would refuse it; any other attempt is denied as not reviewable. */
  lemma DenialIsTheStoresRefusal(l: Ledger, s: Surroundings, agent: string, i: nat, c: Call)
    requires Reachable(l) && Ready(s) && SameReview(c, s, agent, i)
    ensures var decision := Evaluate(l, s, Send("review", agent, [i]));
            var refusal := ReviewReadRefusal(l, c);
            if SuccessfulImplementation(l, s.taskId, i) then
              && (decision == Deny(UnknownReviewer) <==> refusal.Some? && refusal.value.BadIdentity?)
              && (decision == Deny(NotARegisteredReviewer) <==> refusal == Some(NotAReviewer))
              && (decision == Deny(ReviewerSharesProvider) <==> refusal == Some(SameProvider))
            else decision == Deny(NoSuccessfulAttempt) && refusal.Some?
  {
    ReachableInv(l);
    if SuccessfulImplementation(l, s.taskId, i) {
      assert AttemptOk(l, l.attempts[i]);
    }
  }

  /** Agreement for ever: once the policy has allowed a review dispatch, the store accepts that
      agent's review of that attempt in every later ledger, whatever was called in between. */
  lemma AllowedReviewIsAcceptedForEver(l: Ledger, s: Surroundings, agent: string, i: nat,
                                       calls: seq<Call>, c: Call)
    requires Reachable(l) && Ready(s) && SameReview(c, s, agent, i)
    requires Evaluate(l, s, Send("review", agent, [i])) == Allow
    requires c.reviewId !in Run(l, calls).reviews
    ensures Accepted(Run(l, calls), c)
  {
    ReachableInv(l);
    PolicyAgreesWithStore(l, s, agent, i, c);
    RunKeepsInv(l, calls);
    ReviewableForEver(l, Run(l, calls), c);
  }

  /** The policy lets an implementation dispatch through exactly while the attempt the store started for
      it runs: for the agent it was started for, on its task, whatever else is called, and never again
      once it is closed. */
  lemma DispatchFollowsAttempt(l: Ledger, c: Call, s: Surroundings, agent: string, calls: seq<Call>)
    requires Inv(l) && c.StartAttempt? && Accepted(l, c) && IdentityOf(c).value.kind == Implementation
    requires Ready(s)
    ensures var m := Run(Apply(l, c), calls);
            Evaluate(m, s, Send("implement", agent, [c.attemptId])) == Allow <==>
              && agent == c.agent && s.taskId == c.task
              && c.attemptId in m.attempts && m.attempts[c.attemptId].status == RunningAttempt
  {
    StartStores(l, c);
    ApplyKeepsInv(l, c);
    RunKeepsInv(Apply(l, c), calls);
    assert AttemptKept(Apply(l, c), Run(Apply(l, c), calls), c.attemptId);
  }

  /** A dispatch of work to a child: the only kind of event that the policy ever denies. */
  predicate Governed(event: Dispatch) {
    && event.kind == "tool_call" && event.data.Some? && event.data.value.name == "sys_session_send"
    && event.data.value.arguments.Some? && event.data.value.arguments.value.args.Some?
    && event.data.value.arguments.value.args.value.purpose in {"implement", "review"}
  }

  /** Whatever else the runtime does passes; a governed dispatch passes only if it names its child, and
      then as `Send` does. */
  lemma OnlyGovernedAreDenied(l: Ledger, s: Surroundings, event: Dispatch)
    ensures !Governed(event) ==> Evaluate(l, s, event) == Allow
    ensures Governed(event) && event.data.value.arguments.value.agent.None? ==> Evaluate(l, s, event) != Allow
    ensures Governed(event) && event.data.value.arguments.value.agent.Some? ==>
              var arguments := event.data.value.arguments.value;
              event == Send(arguments.args.value.purpose, arguments.agent.value, arguments.args.value.named)
    ensures Governed(event) && Evaluate(l, s, event) != Allow ==>
              var reason := Evaluate(l, s, event).reason;
              && (reason == IdentityUnavailable <==> s.stateDir == "" || s.taskId == "")
              && (reason == UnnamedChild ==> event.data.value.arguments.value.agent.None?)
              && (reason == LedgerUnreadable ==> !s.readable)
              && (reason == NoMatchingRunningAttempt ==>
                    event.data.value.arguments.value.args.value.purpose == "implement")
  {
  }

  /** Naming no attempt, or more than one, is never enough for a governed dispatch. */
  lemma GovernedDispatchNamesOneAttempt(l: Ledger, s: Surroundings, purpose: string, agent: string,
                                        named: seq<nat>)
    requires purpose == "implement" || purpose == "review"
    requires Evaluate(l, s, Send(purpose, agent, named)) == Allow
    ensures Ready(s) && |named| == 1 && IsImplementation(l, s.taskId, named[0])
    ensures purpose == "implement" ==> l.attempts[named[0]].status == RunningAttempt
    ensures purpose == "review" ==> l.attempts[named[0]].status == Succeeded
  {
  }

  /** Two implementation dispatches allowed in the same ledger never share a work item. */
  lemma AllowedImplementersNeverCollide(l: Ledger, s: Surroundings, agent: string, i: nat,
                                        other: string, j: nat)
    requires Reachable(l) && i != j
    requires Evaluate(l, s, Send("implement", agent, [i])) == Allow
    requires Evaluate(l, s, Send("implement", other, [j])) == Allow
    ensures l.attempts[i].workItem != l.attempts[j].workItem
  {
    ReachableInv(l);
    if l.attempts[i].workItem == l.attempts[j].workItem {
      assert Rivals(l, i, j);
    }
  }
}
