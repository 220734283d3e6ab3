/**
 * The dimensional critic-actor workflow: a critic call analyses the moment,
 * user action included, and an actor call writes the next scene from that
 * analysis alone, without ever seeing the user action.
 */
module DimensionalCritic {
  import opened PyText
  import opened Narrative

  datatype CriticAnalysisEvent = CriticAnalysisEvent(context: StoryContext, dimensionalAnalysis: string, userAction: string)
  datatype ActorResponseEvent = ActorResponseEvent(narrative: string, originalAnalysis: string)

  predicate HasStoryElements(input: RunInput) {
    input.plot != "" && input.currentScene != "" && input.userAction != ""
  }

  /** `critic_analysis`. */
  function CriticAnalysis(env: Env, input: RunInput): Step<CriticAnalysisEvent> {
    if !HasStoryElements(input) then End(Run([], Stopped(MissingElements)))
    else
      var prompt := DimensionalCriticPrompt(input.plot, HistoryContext(input.sceneHistory), input.currentScene, input.userAction);
      match Ask(env, Ok(prompt), None)
      case End(run) => End(run)
      case Emit(calls, analysis) =>
        Emit(calls, CriticAnalysisEvent(StoryContext(input.plot, input.currentScene, input.sceneHistory), analysis, input.userAction))
  }

  /** `actor_response`: the prompt is built from the context and the analysis only. */
  function ActorResponse(env: Env, ev: CriticAnalysisEvent): Step<ActorResponseEvent> {
    var prompt := DimensionalActorPrompt(ev.context.plot, HistoryContext(ev.context.sceneHistory),
                                         ev.context.currentScene, ev.dimensionalAnalysis);
    match Ask(env, Ok(prompt), None)
    case End(run) => End(run)
    case Emit(calls, narrative) => Emit(calls, ActorResponseEvent(narrative, ev.dimensionalAnalysis))
  }

  /** `format_response`. */
  function FormatResponse(ev: ActorResponseEvent): WorkflowResult {
    WorkflowResult(ev.originalAnalysis, ev.narrative)
  }

  function RunWorkflow(env: Env, input: RunInput): Run {
    match CriticAnalysis(env, input)
    case End(run) => run
    case Emit(calls1, analysisEvent) =>
      match ActorResponse(env, analysisEvent)
      case End(run) => After(calls1, run)
      case Emit(calls2, response) => Run(calls1 + calls2, Completed(FormatResponse(response)))
  }

  /** Module-level `generate_narrative`; this class's `initialize_llm` also accepts "together". */
  method GenerateNarrative(slot: LlmSlot, config: Option<Config>, llm: Oracle,
                           resource: string -> Option<string>, input: RunInput) returns (run: Run)
    requires slot.acceptsTogether
    modifies slot
    ensures slot.config == ConfigOrEmpty(config)
    ensures run == RunWorkflow(Env(llm, ClientFor(old(slot.llm), ConfigOrEmpty(config), true), resource), input)
    ensures var client := ClientFor(old(slot.llm), ConfigOrEmpty(config), true);
            slot.llm == if HasStoryElements(input) && client.Ok? then Some(client.value) else old(slot.llm)
  {
    var client := ConstructAndInitialize(slot, config, HasStoryElements(input));
    run := RunWorkflow(Env(llm, client, resource), input);
  }

  // ---------------------------------------------------------------------
  // Properties

  lemma MissingElementsIff(env: Env, input: RunInput)
    ensures RunWorkflow(env, input).outcome == Stopped(MissingElements) <==> !HasStoryElements(input)
    ensures !HasStoryElements(input) ==> RunWorkflow(env, input).calls == []
  {
  }

  /** The actor stage does not depend on the user action the critic event carries. */
  lemma ActorIgnoresUserAction(env: Env, ev: CriticAnalysisEvent, otherAction: string)
    ensures ActorResponse(env, ev) == ActorResponse(env, ev.(userAction := otherAction))
  {
  }

  /** Stage failures propagate as exceptions: every `Raised` run ends with the error of the client or of its last call. */
  lemma FailuresRaise(env: Env, input: RunInput)
    requires RunWorkflow(env, input).outcome.Raised?
    ensures var run := RunWorkflow(env, input);
      if run.calls == [] then env.client == Err(run.outcome.error)
      else env.llm(run.calls[|run.calls| - 1]) == Failed(run.outcome.error)
  {
  }

  /**
   * A completed run made two calls; the actor's request holds the analysis
   * but no user action, the analysis is returned as the vision and the
   * actor's text as the narrative.
   */
  lemma CompletedRun(env: Env, input: RunInput)
    requires RunWorkflow(env, input).outcome.Completed?
    ensures var run := RunWorkflow(env, input);
      && HasStoryElements(input) && env.client.Ok?
      && |run.calls| == 2
      && var history := HistoryContext(input.sceneHistory);
      && var analysis := env.llm(run.calls[0]).text;
      && run.calls[0] == Request(env.client.value,
           DimensionalCriticPrompt(input.plot, history, input.currentScene, input.userAction), None)
      && run.calls[1] == Request(env.client.value,
           DimensionalActorPrompt(input.plot, history, input.currentScene, analysis), None)
      && run.outcome.result == WorkflowResult(analysis, env.llm(run.calls[1]).text)
  {
  }
}
