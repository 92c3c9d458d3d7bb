/** Registered execution identities: who may run, with which provider, and who may review. */
module Execution {
  import opened Models

  datatype Role = CoordinatorRole | PlannerRole | BuilderRole | ReviewerRole

  datatype Identity = Identity(
    agent: string,
    role: Role,
    harness: string,
    provider: Option<string>,
    model: Option<string>,
    kind: AttemptKind)

  datatype IdentityError =
    | UnknownAgent
    | MalformedModel
    | ProviderMismatch
    | ProviderRequired
    | ContradictoryModel

  /** The environment variables that can name a model. */
  type Environment = map<string, string>

  const CODEX_MODEL := "gpt-5.6-sol"
  const ANTIGRAVITY_MODEL := "gemini-3.6-flash-high"

  function Profile(agent: string): Option<Identity> {
    match agent
    case "coordinator" =>
      Some(Identity(agent, CoordinatorRole, "claude-sdk", Some("anthropic"), None, Coordinator))
    case "prime_coordinator" =>
      Some(Identity(agent, BuilderRole, "prime-agent", None, None, Implementation))
    case "planner" =>
      Some(Identity(agent, PlannerRole, "claude-sdk", Some("anthropic"), None, Coordinator))
    case "builder_claude" =>
      Some(Identity(agent, BuilderRole, "claude-sdk", Some("anthropic"), None, Implementation))
    case "builder_codex" =>
      Some(Identity(agent, BuilderRole, "codex", Some("openai"), Some(CODEX_MODEL), Implementation))
    case "builder_antigravity" =>
      Some(Identity(agent, BuilderRole, "antigravity-cli", Some("google"), Some(ANTIGRAVITY_MODEL),
                    Implementation))
    case "builder_opencode" =>
      Some(Identity(agent, BuilderRole, "opencode-native", Some("openai"), Some("openai/gpt-5"),
                    Implementation))
    case "builder_ollama" =>
      Some(Identity(agent, BuilderRole, "opencode-native", Some("ollama"), Some("ollama/qwen3:14b"),
                    Implementation))
    case "reviewer_claude" =>
      Some(Identity(agent, ReviewerRole, "claude-sdk", Some("anthropic"), None, Coordinator))
    case "reviewer_owner" =>
      Some(Identity(agent, ReviewerRole, "operator", Some("operator"), None, Coordinator))
    case "reviewer_codex" =>
      Some(Identity(agent, ReviewerRole, "codex", Some("openai"), Some(CODEX_MODEL), Coordinator))
    case _ => None
  }

  /** The variable that overrides an agent's model, for the agents that have one. */
  function ModelVariable(agent: string): Option<string> {
    match agent
    case "builder_codex" => Some("AGENT_OS_CODEX_BUILDER_MODEL")
    case "reviewer_codex" => Some("AGENT_OS_CODEX_REVIEWER_MODEL")
    case "builder_antigravity" => Some("AGENT_OS_ANTIGRAVITY_MODEL")
    case "builder_opencode" => Some("AGENT_OS_OPENCODE_MODEL")
    case "builder_ollama" => Some("AGENT_OS_OLLAMA_MODEL")
    case _ => None
  }

  function LowerChar(c: char): char {
    if 'A' <= c <= 'Z' then ((c as int) + 32) as char else if c == '_' then '-' else c
  }

  /** strip().lower().replace("_", "-"), on ASCII letters. */
  function Normalized(s: string): string {
    var t := Strip(s);
    seq(|t|, i requires 0 <= i < |t| => LowerChar(t[i]))
  }

  function BeforeSlash(model: string): Option<string> {
    if model == "" then None
    else if model[0] == '/' then Some("")
    else
      var rest := BeforeSlash(model[1..]);
      if rest.None? then None else Some([model[0]] + rest.value)
  }

  /** The provider a PROVIDER/MODEL name stands for; None where the source raises. */
  function ProviderFromModel(model: string): Option<string> {
    var head := BeforeSlash(model);
    if head.None? || Strip(head.value) == "" then None
    else match Normalized(head.value)
         case "claude" => Some("anthropic")
         case "codex" => Some("openai")
         case "local" => Some("ollama")
         case other => Some(other)
  }

  /** Python's `a or b or c` on optional strings. */
  function FirstNonEmpty(a: Option<string>, b: Option<string>, c: Option<string>): Option<string> {
    if a.Some? && a.value != "" then a else if b.Some? && b.value != "" then b else c
  }

  function Lookup(env: Environment, name: string): Option<string> {
    if name in env then Some(env[name]) else None
  }

  function WithModel(base: Identity, model: Option<string>, env: Environment)
    : Result<Identity, IdentityError>
  {
    var variable := ModelVariable(base.agent);
    if variable.None? then
      Success(if model.Some? then base.(model := model) else base)
    else
      var configured := FirstNonEmpty(model, Lookup(env, variable.value), base.model);
      if base.agent != "builder_opencode" && base.agent != "builder_ollama" then
        Success(base.(model := configured))
      else if configured.None? then Failure(MalformedModel)
      else
        var named := ProviderFromModel(configured.value);
        if named.None? then Failure(MalformedModel)
        else Success(base.(model := configured, provider := named))
  }

  predicate Contradictory(identity: Identity) {
    && identity.model.Some?
    && '/' in identity.model.value
    && ProviderFromModel(identity.model.value) != identity.provider
  }

  /** Apply a requested model and provider to a registered profile. */
  function Concrete(profile: Identity, provider: Option<string>, model: Option<string>, env: Environment)
    : (r: Result<Identity, IdentityError>)
    ensures r.Success? ==> r.value.provider.Some?
  {
    var modelled := WithModel(profile, model, env);
    if modelled.Failure? then modelled
    else
      var base := modelled.value;
      if provider.Some? && base.provider.Some? && Some(Normalized(provider.value)) != base.provider
      then Failure(ProviderMismatch)
      else
        var identity :=
          if provider.Some? then base.(provider := Some(Normalized(provider.value))) else base;
        if identity.provider.None? then Failure(ProviderRequired)
        else if Contradictory(identity) then Failure(ContradictoryModel)
        else Success(identity)
  }

  /** Resolve an agent to the identity recorded with its attempts and reviews. */
  function Resolve(agent: string, provider: Option<string>, model: Option<string>, env: Environment)
    : (r: Result<Identity, IdentityError>)
    ensures r.Success? ==> r.value.provider.Some?
  {
    var profile := Profile(agent);
    if profile.None? then Failure(UnknownAgent) else Concrete(profile.value, provider, model, env)
  }

  predicate IsReviewer(reviewer: string, env: Environment) {
    var identity := Resolve(reviewer, None, None, env);
    identity.Success? && identity.value.role == ReviewerRole
  }

  /** Resolution never disturbs role, harness or kind, and a recorded provider cannot be
      contradicted by a PROVIDER/MODEL name stored beside it. */
  lemma ResolvedIdentityIsConsistent(profile: Identity, provider: Option<string>,
                                     model: Option<string>, env: Environment)
    requires Concrete(profile, provider, model, env).Success?
    ensures var identity := Concrete(profile, provider, model, env).value;
            && identity.agent == profile.agent
            && identity.role == profile.role
            && identity.harness == profile.harness
            && identity.kind == profile.kind
            && (provider.Some? ==> identity.provider == Some(Normalized(provider.value)))
            && (identity.model.Some? && '/' in identity.model.value ==>
                  ProviderFromModel(identity.model.value) == identity.provider)
  {
  }

  /** The part of a model name before its first slash; a name without one has none. */
  lemma {:induction false} BeforeSlashExactly(head: string, rest: string)
    requires '/' !in head
    ensures BeforeSlash(head + "/" + rest) == Some(head) && BeforeSlash(head).None?
  {
    if head != "" {
      BeforeSlashExactly(head[1..], rest);
      assert (head + "/" + rest)[1..] == head[1..] + "/" + rest;
      assert head == [head[0]] + head[1..] && head[0] in head;
    }
  }

  predicate NonEmpty(text: Option<string>) {
    text.Some? && text.value != ""
  }

  /** Which model a resolved identity has: for an agent with a model variable the requested one, else
      the variable's, else the registered one, empty texts counting as absent; for any other agent the
      requested one if there is a request at all. */
  lemma ModelPrecedence(agent: string, provider: Option<string>, model: Option<string>, env: Environment)
    requires Resolve(agent, provider, model, env).Success?
    ensures var identity := Resolve(agent, provider, model, env).value;
            var variable := ModelVariable(agent);
            && Profile(agent).Some?
            && identity.model
               == if variable.None? then (if model.Some? then model else Profile(agent).value.model)
                  else if NonEmpty(model) then model
                  else if variable.value in env && env[variable.value] != "" then Some(env[variable.value])
                  else Profile(agent).value.model
  {
    assert Profile(agent).value.agent == agent;
  }

  /** No implementation provider can exhaust the reviewers. */
  lemma SomeReviewerDiffers(provider: string, env: Environment) returns (reviewer: string)
    ensures IsReviewer(reviewer, env)
    ensures Resolve(reviewer, None, None, env).value.provider.value != provider
  {
    if provider == "anthropic" {
      reviewer := "reviewer_owner";
    } else {
      reviewer := "reviewer_claude";
    }
    assert ModelVariable(reviewer).None?;
  }
}
