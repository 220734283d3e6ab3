/**
 * The actor-critic workflow: an actor call drafts a narrative policy, the
 * stored user action is checked, and a critic call answers with an analysis
 * and the next scene, which the tolerant section parser separates.
 */
module ActorCritic {
  import opened PyText
  import opened Narrative
  import opened ReplyParsing

  const ActorKey := "workflow.actor_prompt"
  const CriticKey := "workflow.critic_prompt"

  datatype PolicyEvent = PolicyEvent(context: StoryContext, policy: string)
  datatype UserActionEvent = UserActionEvent(context: StoryContext, userAction: string, policy: string)
  datatype CriticResponseEvent = CriticResponseEvent(narrative: string, originalPolicy: string)

  predicate HasStoryElements(input: RunInput) {
    input.plot != "" && input.currentScene != ""
  }

  function ActorPromptFor(env: Env, input: RunInput): Result<Prompt> {
    match Lookup(env, ActorKey)
    case Err(e) => Err(e)
    case Ok(t) => Ok(ActorPolicyPrompt(t, input.plot, HistoryContext(input.sceneHistory), input.currentScene))
  }

  /** `actor_step`: only plot and scene are checked here. */
  function ActorStep(env: Env, input: RunInput): Step<PolicyEvent> {
    if !HasStoryElements(input) then End(Run([], Stopped(MissingElements)))
    else
      match Ask(env, ActorPromptFor(env, input), None)
      case End(run) => End(run)
      case Emit(calls, policy) =>
        Emit(calls, PolicyEvent(StoryContext(input.plot, input.currentScene, input.sceneHistory), policy))
  }

  /** `process_action`: context and policy are forwarded unchanged. */
  function ProcessAction(storedAction: string, ev: PolicyEvent): Step<UserActionEvent> {
    if storedAction == "" then End(Run([], Stopped(MissingAction)))
    else Emit([], UserActionEvent(ev.context, storedAction, ev.policy))
  }

  function CriticPromptFor(env: Env, ev: UserActionEvent): Result<Prompt> {
    match Lookup(env, CriticKey)
    case Err(e) => Err(e)
    case Ok(t) => Ok(CriticPrompt(t, HistoryContext(ev.context.sceneHistory), ev.context.currentScene, ev.policy, ev.userAction))
  }

  /** The `original_vision` text: the actor's policy above the critic's analysis. */
  function CombinedVision(policy: string, analysis: string): string {
    "ACTOR:\n" + policy + "\n\nCRITIC:\n" + analysis
  }

  /** `critic_step`. */
  function CriticStep(env: Env, ev: UserActionEvent): Step<CriticResponseEvent> {
    match Ask(env, CriticPromptFor(env, ev), None)
    case End(run) => End(run)
    case Emit(calls, reply) =>
      var sections := CriticSectionsOf(reply);
      Emit(calls, CriticResponseEvent(sections.response, CombinedVision(ev.policy, sections.analysis)))
  }

  /** `format_response`. */
  function FormatResponse(ev: CriticResponseEvent): WorkflowResult {
    WorkflowResult(ev.originalPolicy, ev.narrative)
  }

  function RunWorkflow(env: Env, input: RunInput): Run {
    match ActorStep(env, input)
    case End(run) => run
    case Emit(calls1, policyEvent) =>
      match ProcessAction(input.userAction, policyEvent)
      case End(run) => After(calls1, run)
      case Emit(_, actionEvent) =>
        match CriticStep(env, actionEvent)
        case End(run) => After(calls1, run)
        case Emit(calls2, response) => Run(calls1 + calls2, Completed(FormatResponse(response)))
  }

  /** Module-level `generate_narrative`. */
  method GenerateNarrative(slot: LlmSlot, config: Option<Config>, llm: Oracle,
                           resource: string -> Option<string>, input: RunInput) returns (run: Run)
    requires !slot.acceptsTogether
    modifies slot
    ensures slot.config == ConfigOrEmpty(config)
    ensures run == RunWorkflow(Env(llm, ClientFor(old(slot.llm), ConfigOrEmpty(config), false), resource), input)
    ensures var client := ClientFor(old(slot.llm), ConfigOrEmpty(config), false);
            slot.llm == if HasStoryElements(input) && client.Ok? then Some(client.value) else old(slot.llm)
  {
    var client := ConstructAndInitialize(slot, config, HasStoryElements(input));
    run := RunWorkflow(Env(llm, client, resource), input);
  }

  // ---------------------------------------------------------------------
  // Properties

  lemma MissingElementsIff(env: Env, input: RunInput)
    ensures RunWorkflow(env, input).outcome == Stopped(MissingElements) <==> !HasStoryElements(input)
    ensures !HasStoryElements(input) ==> RunWorkflow(env, input).calls == []
  {
  }

  /** The action is checked only after the actor call. */
  lemma MissingActionAfterPolicy(env: Env, input: RunInput)
    requires HasStoryElements(input) && input.userAction == ""
    requires ActorStep(env, input).Emit?
    ensures RunWorkflow(env, input) == Run(ActorStep(env, input).calls, Stopped(MissingAction))
  {
  }

  /**
   * A completed run made the actor call and then the critic call, which saw
   * the actor's policy; the narrative is the parsed response section and the
   * vision combines the policy with the parsed analysis.
   */
  lemma CompletedRun(env: Env, input: RunInput)
    requires RunWorkflow(env, input).outcome.Completed?
    ensures var run := RunWorkflow(env, input);
      && HasStoryElements(input) && input.userAction != "" && env.client.Ok?
      && |run.calls| == 2
      && var policy := env.llm(run.calls[0]).text;
      && var sections := CriticSectionsOf(env.llm(run.calls[1]).text);
      && run.calls[0] == Request(env.client.value,
           ActorPolicyPrompt(env.resource(ActorKey).value, input.plot, HistoryContext(input.sceneHistory), input.currentScene), None)
      && run.calls[1] == Request(env.client.value,
           CriticPrompt(env.resource(CriticKey).value, HistoryContext(input.sceneHistory), input.currentScene, policy, input.userAction), None)
      && run.outcome.result == WorkflowResult(CombinedVision(policy, sections.analysis), sections.response)
  {
  }

  /** With a critic reply in the requested layout, the narrative is the stripped text after "Response:" and the analysis the stripped text before it. */
  lemma WellFormedCriticStep(env: Env, ev: UserActionEvent, a: string, r: string)
    requires !Contains(a, ResponseMarker)
    requires Ask(env, CriticPromptFor(env, ev), None).Emit?
    requires Ask(env, CriticPromptFor(env, ev), None).event == ActionAnalysisMarker + a + ResponseMarker + r
    ensures CriticStep(env, ev).Emit?
    ensures CriticStep(env, ev).event == CriticResponseEvent(Strip(r), CombinedVision(ev.policy, Strip(a)))
  {
    WellFormedCriticReply(a, r);
  }

  lemma CallsUseClient(env: Env, input: RunInput)
    ensures |RunWorkflow(env, input).calls| <= 2
    ensures forall r :: r in RunWorkflow(env, input).calls ==> env.client == Ok(r.client)
  {
  }
}
