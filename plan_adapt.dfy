/**
 * The plan-and-adapt workflow (`NarrativeWorkflow` of the plan/adapt
 * engine): a planner call envisions where the story could go, the stored
 * user action is checked, and an adapter call writes the next scene from
 * that vision.
 */
module PlanAdapt {
  import opened PyText
  import opened Narrative

  const PlannerKey := "workflow.planner_prompt"
  const AdapterKey := "workflow.adapter_prompt"

  datatype PlanningEvent = PlanningEvent(context: StoryContext, vision: string)
  datatype UserInputEvent = UserInputEvent(context: StoryContext, userAction: string, vision: string)
  datatype NarrativeResponseEvent = NarrativeResponseEvent(narrative: string, originalVision: string)

  /** The input check of `envision_story`: the user action is not needed yet. */
  predicate HasStoryElements(input: RunInput) {
    input.plot != "" && input.currentScene != ""
  }

  function PlannerPromptFor(env: Env, input: RunInput): Result<Prompt> {
    match Lookup(env, PlannerKey)
    case Err(e) => Err(e)
    case Ok(t) => Ok(PlannerPrompt(t, input.plot, HistoryContext(input.sceneHistory), input.currentScene))
  }

  /** `envision_story`. */
  function EnvisionStory(env: Env, input: RunInput): Step<PlanningEvent> {
    if !HasStoryElements(input) then End(Run([], Stopped(MissingElements)))
    else
      match Ask(env, PlannerPromptFor(env, input), None)
      case End(run) => End(run)
      case Emit(calls, vision) =>
        Emit(calls, PlanningEvent(StoryContext(input.plot, input.currentScene, input.sceneHistory), vision))
  }

  /** `process_input`: `storedAction` is what `envision_story` put in the run context. */
  function ProcessInput(storedAction: string, ev: PlanningEvent): Step<UserInputEvent> {
    if storedAction == "" then End(Run([], Stopped(MissingAction)))
    else Emit([], UserInputEvent(ev.context, storedAction, ev.vision))
  }

  function AdapterPromptFor(env: Env, ev: UserInputEvent): Result<Prompt> {
    match Lookup(env, AdapterKey)
    case Err(e) => Err(e)
    case Ok(t) => Ok(AdapterPrompt(t, HistoryContext(ev.context.sceneHistory), ev.context.currentScene, ev.vision, ev.userAction))
  }

  /** `generate_response`. */
  function GenerateResponse(env: Env, ev: UserInputEvent): Step<NarrativeResponseEvent> {
    match Ask(env, AdapterPromptFor(env, ev), None)
    case End(run) => End(run)
    case Emit(calls, narrative) => Emit(calls, NarrativeResponseEvent(narrative, ev.vision))
  }

  /** `format_response`. */
  function FormatResponse(ev: NarrativeResponseEvent): WorkflowResult {
    WorkflowResult(ev.originalVision, ev.narrative)
  }

  /** One `workflow.run(...)`: the four steps in the order their events connect them. */
  function RunWorkflow(env: Env, input: RunInput): Run {
    match EnvisionStory(env, input)
    case End(run) => run
    case Emit(calls1, planning) =>
      match ProcessInput(input.userAction, planning)
      case End(run) => After(calls1, run)
      case Emit(_, userInput) =>
        match GenerateResponse(env, userInput)
        case End(run) => After(calls1, run)
        case Emit(calls2, response) => Run(calls1 + calls2, Completed(FormatResponse(response)))
  }

  /** Module-level `generate_narrative`: construct the workflow with `config`, then run it. */
  method GenerateNarrative(slot: LlmSlot, config: Option<Config>, llm: Oracle,
                           resource: string -> Option<string>, input: RunInput) returns (run: Run)
    requires !slot.acceptsTogether
    modifies slot
    ensures slot.config == ConfigOrEmpty(config)
    ensures run == RunWorkflow(Env(llm, ClientFor(old(slot.llm), ConfigOrEmpty(config), false), resource), input)
    ensures var client := ClientFor(old(slot.llm), ConfigOrEmpty(config), false);
            slot.llm == if HasStoryElements(input) && client.Ok? then Some(client.value) else old(slot.llm)
  {
    var client := ConstructAndInitialize(slot, config, HasStoryElements(input));
    run := RunWorkflow(Env(llm, client, resource), input);
  }

  // ---------------------------------------------------------------------
  // Properties

  /** The soft failure on missing story elements happens exactly when plot or scene is empty, before any call. */
  lemma MissingElementsIff(env: Env, input: RunInput)
    ensures RunWorkflow(env, input).outcome == Stopped(MissingElements) <==> !HasStoryElements(input)
    ensures !HasStoryElements(input) ==> RunWorkflow(env, input).calls == []
  {
  }

  /** The user action is checked only after the planner call: an empty action still costs one call. */
  lemma MissingActionAfterPlanning(env: Env, input: RunInput)
    requires HasStoryElements(input) && input.userAction == ""
    requires EnvisionStory(env, input).Emit?
    ensures RunWorkflow(env, input) == Run(EnvisionStory(env, input).calls, Stopped(MissingAction))
    ensures |RunWorkflow(env, input).calls| == 1
  {
  }

  /**
   * A completed run made exactly two calls, planner then adapter, with the
   * configured client; the planner's text is both the vision the adapter saw
   * and the returned original vision, and the adapter's text is the narrative.
   */
  lemma CompletedRun(env: Env, input: RunInput)
    requires RunWorkflow(env, input).outcome.Completed?
    ensures var run := RunWorkflow(env, input);
      && HasStoryElements(input) && input.userAction != "" && env.client.Ok?
      && |run.calls| == 2
      && run.calls[0] == Request(env.client.value,
           PlannerPrompt(env.resource(PlannerKey).value, input.plot, HistoryContext(input.sceneHistory), input.currentScene), None)
      && run.calls[1] == Request(env.client.value,
           AdapterPrompt(env.resource(AdapterKey).value, HistoryContext(input.sceneHistory), input.currentScene,
                         run.outcome.result.originalVision, input.userAction), None)
      && env.llm(run.calls[0]) == Text(run.outcome.result.originalVision)
      && env.llm(run.calls[1]) == Text(run.outcome.result.narrative)
  {
  }

  /** Conversely, when every input, template and reply is there, the run completes with those replies. */
  lemma RunCompletes(env: Env, input: RunInput, planner: string, adapter: string)
    requires HasStoryElements(input) && input.userAction != "" && env.client.Ok?
    requires env.resource(PlannerKey) == Some(planner) && env.resource(AdapterKey) == Some(adapter)
    requires var history := HistoryContext(input.sceneHistory);
      var first := Request(env.client.value, PlannerPrompt(planner, input.plot, history, input.currentScene), None);
      && env.llm(first).Text?
      && env.llm(Request(env.client.value,
           AdapterPrompt(adapter, history, input.currentScene, env.llm(first).text, input.userAction), None)).Text?
    ensures RunWorkflow(env, input).outcome.Completed?
  {
  }

  /** Every call a run makes uses the client `initialize_llm` gave, and there are at most two. */
  lemma CallsUseClient(env: Env, input: RunInput)
    ensures |RunWorkflow(env, input).calls| <= 2
    ensures forall r :: r in RunWorkflow(env, input).calls ==> env.client == Ok(r.client)
  {
  }
}
