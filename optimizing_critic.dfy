/**
 * The optimizing critic-actor workflow: a critic call analyses the story's
 * state and trajectory, user action included, and an actor call continues
 * the story from that analysis alone, with a larger token budget.
 */
module OptimizingCritic {
  import opened PyText
  import opened Narrative

  datatype CriticAnalysisEvent = CriticAnalysisEvent(context: StoryContext, analysis: string, userAction: string)
  datatype ActorResponseEvent = ActorResponseEvent(narrative: string, analysis: string)

  /** `max_tokens=1024*4` on the actor call. */
  const ActorMaxTokens: nat := 1024 * 4

  predicate HasStoryElements(input: RunInput) {
    input.plot != "" && input.currentScene != "" && input.userAction != ""
  }

  /** `critic_step`. */
  function CriticStep(env: Env, input: RunInput): Step<CriticAnalysisEvent> {
    if !HasStoryElements(input) then End(Run([], Stopped(MissingElements)))
    else
      var prompt := OptimizingCriticPrompt(input.plot, HistoryContext(input.sceneHistory), input.currentScene, input.userAction);
      match Ask(env, Ok(prompt), None)
      case End(run) => End(run)
      case Emit(calls, analysis) =>
        Emit(calls, CriticAnalysisEvent(StoryContext(input.plot, input.currentScene, input.sceneHistory), analysis, input.userAction))
  }

  /** `actor_step`: the event carries the user action, the prompt leaves it out. */
  function ActorStep(env: Env, ev: CriticAnalysisEvent): Step<ActorResponseEvent> {
    var prompt := OptimizingActorPrompt(ev.context.plot, HistoryContext(ev.context.sceneHistory),
                                        ev.context.currentScene, ev.analysis);
    match Ask(env, Ok(prompt), Some(ActorMaxTokens))
    case End(run) => End(run)
    case Emit(calls, narrative) => Emit(calls, ActorResponseEvent(narrative, ev.analysis))
  }

  /** `format_response`. */
  function FormatResponse(ev: ActorResponseEvent): WorkflowResult {
    WorkflowResult(ev.analysis, ev.narrative)
  }

  function RunWorkflow(env: Env, input: RunInput): Run {
    match CriticStep(env, input)
    case End(run) => run
    case Emit(calls1, analysisEvent) =>
      match ActorStep(env, analysisEvent)
      case End(run) => After(calls1, run)
      case Emit(calls2, response) => Run(calls1 + calls2, Completed(FormatResponse(response)))
  }

  /** Module-level `generate_narrative`; this class accepts ollama, openai and anthropic only. */
  method GenerateNarrative(slot: LlmSlot, config: Option<Config>, llm: Oracle,
                           resource: string -> Option<string>, input: RunInput) returns (run: Run)
    requires !slot.acceptsTogether
    modifies slot
    ensures slot.config == ConfigOrEmpty(config)
    ensures run == RunWorkflow(Env(llm, ClientFor(old(slot.llm), ConfigOrEmpty(config), false), resource), input)
    ensures var client := ClientFor(old(slot.llm), ConfigOrEmpty(config), false);
            slot.llm == if HasStoryElements(input) && client.Ok? then Some(client.value) else old(slot.llm)
  {
    var client := ConstructAndInitialize(slot, config, HasStoryElements(input));
    run := RunWorkflow(Env(llm, client, resource), input);
  }

  // ---------------------------------------------------------------------
  // Properties

  lemma MissingElementsIff(env: Env, input: RunInput)
    ensures RunWorkflow(env, input).outcome == Stopped(MissingElements) <==> !HasStoryElements(input)
    ensures !HasStoryElements(input) ==> RunWorkflow(env, input).calls == []
  {
  }

  /** The actor stage does not depend on the user action the critic event carries. */
  lemma ActorIgnoresUserAction(env: Env, ev: CriticAnalysisEvent, otherAction: string)
    ensures ActorStep(env, ev) == ActorStep(env, ev.(userAction := otherAction))
  {
  }

  /**
   * A completed run made two calls, the second with a 4096-token budget and
   * no user action; the analysis is returned as the vision and the actor's
   * text as the narrative.
   */
  lemma CompletedRun(env: Env, input: RunInput)
    requires RunWorkflow(env, input).outcome.Completed?
    ensures var run := RunWorkflow(env, input);
      && HasStoryElements(input) && env.client.Ok?
      && |run.calls| == 2
      && var history := HistoryContext(input.sceneHistory);
      && var analysis := env.llm(run.calls[0]).text;
      && run.calls[0] == Request(env.client.value,
           OptimizingCriticPrompt(input.plot, history, input.currentScene, input.userAction), None)
      && run.calls[1] == Request(env.client.value,
           OptimizingActorPrompt(input.plot, history, input.currentScene, analysis), Some(4096))
      && run.outcome.result == WorkflowResult(analysis, env.llm(run.calls[1]).text)
  {
  }
}
