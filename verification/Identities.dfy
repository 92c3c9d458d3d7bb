/** Who stands behind every stored row: the identities that agents and reviewers resolve to. */
module Identities {
  import opened Models
  import opened TaskLedger
  import opened LedgerInvariants
  import opened StoredRows
  import Execution

  ghost predicate Attributed(a: Attempt) {
    exists provider, model, env :: CarriesIdentity(a, provider, model, env)
  }

  ghost predicate ReviewerKnown(r: Review) {
    exists env :: CarriesReviewer(r, env)
  }

  ghost predicate AllAttributed(l: Ledger) {
    && (forall i | i in l.attempts :: Attributed(l.attempts[i]))
    && (forall r | r in l.reviews :: ReviewerKnown(l.reviews[r]))
  }

  lemma StillAttributed(a: Attempt, b: Attempt)
    requires Attributed(a) && SameIdentity(a, b)
    ensures Attributed(b)
  {
    var provider, model, env :| CarriesIdentity(a, provider, model, env);
    assert CarriesIdentity(b, provider, model, env);
  }

  lemma EffectKeepsAttributed(l: Ledger, c: Call)
    requires AllAttributed(l) && Accepted(l, c)
    ensures AllAttributed(Effect(l, c))
  {
    if c.StartAttempt? {
      StartIsAttributed(l, c);
    } else if c.RecordReview? {
      ReviewIsAttributed(l, c);
    } else {
      EffectExtends(l, c);
      SameRows(l, c);
      OldRowsAttributed(l, Effect(l, c));
    }
  }

  lemma SameRows(l: Ledger, c: Call)
    requires Accepted(l, c) && !c.StartAttempt? && !c.RecordReview?
    ensures Effect(l, c).attempts.Keys == l.attempts.Keys && Effect(l, c).reviews == l.reviews
  {
  }

  lemma StartIsAttributed(l: Ledger, c: Call)
    requires AllAttributed(l) && c.StartAttempt? && Accepted(l, c)
    ensures AllAttributed(Effect(l, c))
  {
    StartStores(l, c);
    assert CarriesIdentity(Effect(l, c).attempts[c.attemptId], c.provider, c.model, c.env);
  }

  lemma ReviewIsAttributed(l: Ledger, c: Call)
    requires AllAttributed(l) && c.RecordReview? && Accepted(l, c)
    ensures AllAttributed(Effect(l, c))
  {
    ReviewStores(l, c);
    assert CarriesReviewer(Effect(l, c).reviews[c.reviewId], c.env);
  }

  lemma OldRowsAttributed(l: Ledger, m: Ledger)
    requires AllAttributed(l) && Extends(l, m)
    requires m.attempts.Keys == l.attempts.Keys && m.reviews == l.reviews
    ensures AllAttributed(m)
  {
    forall i | i in m.attempts ensures Attributed(m.attempts[i]) {
      assert AttemptKept(l, m, i);
      StillAttributed(l.attempts[i], m.attempts[i]);
    }
  }

  lemma {:induction false} RunKeepsAttributed(l: Ledger, calls: seq<Call>)
    requires AllAttributed(l)
    ensures AllAttributed(Run(l, calls))
    decreases |calls|
  {
    if calls != [] {
      if Accepted(l, calls[0]) {
        EffectKeepsAttributed(l, calls[0]);
      }
      RunKeepsAttributed(Apply(l, calls[0]), calls[1..]);
    }
  }

  /** The provider an agent is registered with, where no model name chooses it. */
  function RegisteredProvider(agent: string): Option<string> {
    var profile := Execution.Profile(agent);
    if profile.None? || agent == "builder_opencode" || agent == "builder_ollama" then None
    else profile.value.provider
  }

  lemma ResolvesToRegistered(agent: string, provider: Option<string>, model: Option<string>,
                             env: Execution.Environment)
    requires Execution.Resolve(agent, provider, model, env).Success?
    ensures var r := Execution.Resolve(agent, provider, model, env).value;
            && Execution.Profile(agent).Some?
            && r.harness == Execution.Profile(agent).value.harness
            && r.kind == Execution.Profile(agent).value.kind
            && r.role == Execution.Profile(agent).value.role
            && (RegisteredProvider(agent).Some? ==> r.provider == RegisteredProvider(agent))
  {
    assert Execution.Profile(agent).value.agent == agent;
  }

  /** In every reachable ledger each attempt carries an identity that its agent resolves to, with the
      registered harness, kind and provider, and each review that of a registered reviewer. */
  lemma EveryRowIsAttributed(l: Ledger)
    requires Reachable(l)
    ensures AllAttributed(l)
    ensures forall i | i in l.attempts ::
              var a := l.attempts[i];
              && Execution.Profile(a.agent).Some?
              && a.harness == Execution.Profile(a.agent).value.harness
              && a.kind == Execution.Profile(a.agent).value.kind
              && RegisteredProvider(a.agent) in {None, Some(a.provider)}
    ensures forall r | r in l.reviews ::
              var v := l.reviews[r];
              && Execution.Profile(v.reviewer).Some?
              && v.harness == Execution.Profile(v.reviewer).value.harness
              && Execution.Profile(v.reviewer).value.role == Execution.ReviewerRole
              && RegisteredProvider(v.reviewer) == Some(v.provider)
  {
    var calls :| l == Run(EMPTY, calls);
    RunKeepsAttributed(EMPTY, calls);
    forall i | i in l.attempts
      ensures var a := l.attempts[i];
              && Execution.Profile(a.agent).Some?
              && a.harness == Execution.Profile(a.agent).value.harness
              && a.kind == Execution.Profile(a.agent).value.kind
              && RegisteredProvider(a.agent) in {None, Some(a.provider)}
    {
      AttributedAttempt(l.attempts[i]);
    }
    forall r | r in l.reviews
      ensures var v := l.reviews[r];
              && Execution.Profile(v.reviewer).Some?
              && v.harness == Execution.Profile(v.reviewer).value.harness
              && Execution.Profile(v.reviewer).value.role == Execution.ReviewerRole
              && RegisteredProvider(v.reviewer) == Some(v.provider)
    {
      KnownReviewer(l.reviews[r]);
    }
  }

  lemma AttributedAttempt(a: Attempt)
    requires Attributed(a)
    ensures Execution.Profile(a.agent).Some?
    ensures a.harness == Execution.Profile(a.agent).value.harness
    ensures a.kind == Execution.Profile(a.agent).value.kind
    ensures RegisteredProvider(a.agent) in {None, Some(a.provider)}
  {
    var provider, model, env :| CarriesIdentity(a, provider, model, env);
    ResolvesToRegistered(a.agent, provider, model, env);
  }

  lemma KnownReviewer(v: Review)
    requires ReviewerKnown(v)
    ensures Execution.Profile(v.reviewer).Some?
    ensures v.harness == Execution.Profile(v.reviewer).value.harness
    ensures Execution.Profile(v.reviewer).value.role == Execution.ReviewerRole
    ensures RegisteredProvider(v.reviewer) == Some(v.provider)
  {
    var env :| CarriesReviewer(v, env);
    ResolvesToRegistered(v.reviewer, None, None, env);
    ReviewersAreRegistered(v.reviewer);
  }

  lemma ReviewersAreRegistered(agent: string)
    requires Execution.Profile(agent).Some?
    requires Execution.Profile(agent).value.role == Execution.ReviewerRole
    ensures RegisteredProvider(agent).Some?
  {
  }

  /** Independent approval, by registration: a completed task's latest attempts are each approved, with
      evidence, by a registered reviewer whose registered provider is not the one that implemented
      them, nor the one their agent is registered with. */
  lemma CompletedWorkIsIndependentlyApproved(l: Ledger, t: string, i: nat) returns (r: nat)
    requires Reachable(l) && t in l.tasks && l.tasks[t].status == Completed && IsLatest(l, t, i)
    ensures Approval(l, t, i, r)
    ensures var v := l.reviews[r];
            && Execution.Profile(v.reviewer).Some?
            && Execution.Profile(v.reviewer).value.role == Execution.ReviewerRole
            && RegisteredProvider(v.reviewer) == Some(v.provider)
            && v.provider != l.attempts[i].provider
            && RegisteredProvider(l.attempts[i].agent) != RegisteredProvider(v.reviewer)
  {
    ReachableInv(l);
    EveryRowIsAttributed(l);
    assert Gate(l, t);
    assert Approved(l, t, i);
    r :| r in l.reviews && Approval(l, t, i, r);
  }
}
