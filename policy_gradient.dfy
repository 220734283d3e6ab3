/**
 * The policy-gradient actor-critic workflow: an actor call analyses the
 * story's dimensions, the stored user action is checked, and a critic call
 * weaves the next scene, split naively at "Response:". Both the constructor
 * and the module-level entry point name `ActorCriticWorkflow`, which this
 * engine neither defines nor imports, so no run ever starts.
 */
module PolicyGradient {
  import opened PyText
  import opened Narrative
  import opened ReplyParsing

  /** The name the constructor and `generate_narrative` refer to but never bind. */
  const UnboundName := "ActorCriticWorkflow"

  datatype PolicyEvent = PolicyEvent(context: StoryContext, policy: string)
  datatype UserActionEvent = UserActionEvent(context: StoryContext, userAction: string, policy: string)
  datatype CriticResponseEvent = CriticResponseEvent(narrative: string, originalPolicy: string)

  predicate HasStoryElements(input: RunInput) {
    input.plot != "" && input.currentScene != ""
  }

  /** `actor_step`: plot and scene are checked; the user action is stored after the call. */
  function ActorStep(env: Env, input: RunInput): Step<PolicyEvent> {
    if !HasStoryElements(input) then End(Run([], Stopped(MissingElements)))
    else
      match Ask(env, Ok(DimensionsActorPrompt(input.plot, HistoryContext(input.sceneHistory), input.currentScene)), None)
      case End(run) => End(run)
      case Emit(calls, policy) =>
        Emit(calls, PolicyEvent(StoryContext(input.plot, input.currentScene, input.sceneHistory), policy))
  }

  /** `process_action`. */
  function ProcessAction(storedAction: string, ev: PolicyEvent): Step<UserActionEvent> {
    if storedAction == "" then End(Run([], Stopped(MissingAction)))
    else Emit([], UserActionEvent(ev.context, storedAction, ev.policy))
  }

  /** The `original_vision` text of this workflow. */
  function WeavingVision(policy: string, analysis: string): string {
    "ACTOR'S DIMENSIONAL ANALYSIS:\n" + policy + "\n\nCRITIC'S DIMENSIONAL WEAVING:\n" + analysis
  }

  /** `critic_step`: the naive split of the critic's reply. */
  function CriticStep(env: Env, ev: UserActionEvent): Step<CriticResponseEvent> {
    var prompt := WeavingCriticPrompt(HistoryContext(ev.context.sceneHistory), ev.context.currentScene, ev.policy, ev.userAction);
    match Ask(env, Ok(prompt), None)
    case End(run) => End(run)
    case Emit(calls, reply) =>
      var sections := NaiveCriticSections(reply);
      Emit(calls, CriticResponseEvent(sections.response, WeavingVision(ev.policy, sections.analysis)))
  }

  /** `format_response`. */
  function FormatResponse(ev: CriticResponseEvent): WorkflowResult {
    WorkflowResult(ev.originalPolicy, ev.narrative)
  }

  /** The steps as their events would connect them, were the workflow ever constructed. */
  function RunWorkflow(env: Env, input: RunInput): Run {
    match ActorStep(env, input)
    case End(run) => run
    case Emit(calls1, policyEvent) =>
      match ProcessAction(input.userAction, policyEvent)
      case End(run) => After(calls1, run)
      case Emit(_, actionEvent) =>
        match CriticStep(env, actionEvent)
        case End(run) => After(calls1, run)
        case Emit(calls2, response) => Run(calls1 + calls2, Completed(FormatResponse(response)))
  }

  /**
   * The constructor: after the base class is set up, the assignment to
   * `ActorCriticWorkflow._config` fails on the unbound name, so this class's
   * own `_config` is never written.
   */
  method Construct(slot: LlmSlot, config: Option<Config>) returns (r: Result<()>)
    ensures r == Err(NameError(UnboundName))
  {
    r := Err(NameError(UnboundName));
  }

  /**
   * Module-level `generate_narrative`: evaluating `ActorCriticWorkflow(...)`
   * raises before any workflow exists, whatever the inputs.
   */
  function GenerateNarrative(config: Option<Config>, env: Env, input: RunInput): (run: Run)
    ensures run.calls == [] && run.outcome == Raised(NameError(UnboundName))
  {
    Run([], Raised(NameError(UnboundName)))
  }

  // ---------------------------------------------------------------------
  // Properties

  /** Whatever the configuration, oracle and inputs, a caller only ever sees the unbound-name error. */
  lemma NeverRuns(config: Option<Config>, env: Env, input: RunInput)
    ensures !GenerateNarrative(config, env, input).outcome.Completed?
    ensures ErrorText(GenerateNarrative(config, env, input).outcome.error) == "name 'ActorCriticWorkflow' is not defined"
  {
  }

  lemma MissingElementsIff(env: Env, input: RunInput)
    ensures RunWorkflow(env, input).outcome == Stopped(MissingElements) <==> !HasStoryElements(input)
    ensures !HasStoryElements(input) ==> RunWorkflow(env, input).calls == []
  {
  }

  /** The action is checked only after the actor call. */
  lemma MissingActionAfterPolicy(env: Env, input: RunInput)
    requires HasStoryElements(input) && input.userAction == ""
    requires ActorStep(env, input).Emit?
    ensures RunWorkflow(env, input) == Run(ActorStep(env, input).calls, Stopped(MissingAction))
  {
  }

  /**
   * A completed run made the actor call and the critic call; the narrative
   * and the critic's part of the vision come from the naive split.
   */
  lemma CompletedRun(env: Env, input: RunInput)
    requires RunWorkflow(env, input).outcome.Completed?
    ensures var run := RunWorkflow(env, input);
      && HasStoryElements(input) && input.userAction != "" && env.client.Ok?
      && |run.calls| == 2
      && var history := HistoryContext(input.sceneHistory);
      && var policy := env.llm(run.calls[0]).text;
      && var sections := NaiveCriticSections(env.llm(run.calls[1]).text);
      && run.calls[0] == Request(env.client.value, DimensionsActorPrompt(input.plot, history, input.currentScene), None)
      && run.calls[1] == Request(env.client.value, WeavingCriticPrompt(history, input.currentScene, policy, input.userAction), None)
      && run.outcome.result == WorkflowResult(WeavingVision(policy, sections.analysis), sections.response)
  {
  }

  /** A critic reply without "Response:" is kept whole as the narrative. */
  lemma UnsplitReply(env: Env, ev: UserActionEvent)
    requires CriticStep(env, ev).Emit?
    requires !Contains(env.llm(CriticStep(env, ev).calls[0]).text, ResponseMarker)
    ensures CriticStep(env, ev).event
            == CriticResponseEvent(env.llm(CriticStep(env, ev).calls[0]).text, WeavingVision(ev.policy, AnalysisParsingFailed))
  {
  }
}
