/**
 * The original `NarrativeWorkflow`: a planning call lists story elements
 * that could emerge from the scene, the stored user action is checked, and a
 * second call writes what happens next. Its LLM is one hard-wired Ollama
 * model, cached at class level; the configuration is kept on the instance
 * and never read, and no scene history reaches either prompt.
 */
module LegacyWorkflow {
  import opened PyText
  import opened Narrative

  const HardWiredModel := "vanilj/gemma-2-ataraxy-9b:Q6_K"
  const HardWiredClient := LlmClient(Ollama, HardWiredModel)

  /** The class attribute `llm`, filled on first use. */
  class LegacySlot {
    var llm: Option<LlmClient>

    constructor ()
      ensures llm == None
    {
      llm := None;
    }

    /** Only the hard-wired client is ever cached. */
    predicate Valid()
      reads this
    {
      llm.None? || llm.value == HardWiredClient
    }

    /** `initialize_llm`: whatever was configured, the client is the hard-wired one. */
    method InitializeLlm() returns (c: LlmClient)
      requires Valid()
      modifies this
      ensures Valid()
      ensures c == HardWiredClient
      ensures llm == Some(c)
    {
      if llm.None? {
        llm := Some(HardWiredClient);
      }
      c := llm.value;
    }
  }

  datatype LegacyContext = LegacyContext(plot: string, currentScene: string)
  datatype PlanningEvent = PlanningEvent(context: LegacyContext, narrativeVision: string)
  datatype UserInputEvent = UserInputEvent(context: LegacyContext, userAction: string, narrativeVision: string)
  datatype NarrativeResponseEvent = NarrativeResponseEvent(narrative: string, originalVision: string)

  predicate HasStoryElements(input: RunInput) {
    input.plot != "" && input.currentScene != ""
  }

  /** `envision_story`: the prompt holds only plot and scene. */
  function EnvisionStory(env: Env, input: RunInput): Step<PlanningEvent> {
    if !HasStoryElements(input) then End(Run([], Stopped(MissingElements)))
    else
      match Ask(env, Ok(EnvisionPrompt(input.plot, input.currentScene)), None)
      case End(run) => End(run)
      case Emit(calls, vision) => Emit(calls, PlanningEvent(LegacyContext(input.plot, input.currentScene), vision))
  }

  /** `process_input`. */
  function ProcessInput(storedAction: string, ev: PlanningEvent): Step<UserInputEvent> {
    if storedAction == "" then End(Run([], Stopped(MissingAction)))
    else Emit([], UserInputEvent(ev.context, storedAction, ev.narrativeVision))
  }

  /** `generate_response`. */
  function GenerateResponse(env: Env, ev: UserInputEvent): Step<NarrativeResponseEvent> {
    match Ask(env, Ok(LegacyResponsePrompt(ev.context.currentScene, ev.narrativeVision, ev.userAction)), None)
    case End(run) => End(run)
    case Emit(calls, narrative) => Emit(calls, NarrativeResponseEvent(narrative, ev.narrativeVision))
  }

  /** `format_response`. */
  function FormatResponse(ev: NarrativeResponseEvent): WorkflowResult {
    WorkflowResult(ev.originalVision, ev.narrative)
  }

  function RunWorkflow(env: Env, input: RunInput): Run {
    match EnvisionStory(env, input)
    case End(run) => run
    case Emit(calls1, planning) =>
      match ProcessInput(input.userAction, planning)
      case End(run) => After(calls1, run)
      case Emit(_, userInput) =>
        match GenerateResponse(env, userInput)
        case End(run) => After(calls1, run)
        case Emit(calls2, response) => Run(calls1 + calls2, Completed(FormatResponse(response)))
  }

  /** The environment of a legacy run: the hard-wired client and no resources. */
  function LegacyEnv(llm: Oracle): Env {
    Env(llm, Ok(HardWiredClient), key => None)
  }

  /** Module-level `generate_narrative`: no history parameter, and `config` only reaches the instance. */
  method GenerateNarrative(slot: LegacySlot, config: Option<Config>, llm: Oracle,
                           plot: string, currentScene: string, userAction: string) returns (run: Run)
    requires slot.Valid()
    modifies slot
    ensures slot.Valid()
    ensures run == RunWorkflow(LegacyEnv(llm), RunInput(plot, currentScene, userAction, []))
    ensures slot.llm == if plot != "" && currentScene != "" then Some(HardWiredClient) else old(slot.llm)
  {
    var input := RunInput(plot, currentScene, userAction, []);
    if HasStoryElements(input) {
      var client := slot.InitializeLlm();
    }
    run := RunWorkflow(LegacyEnv(llm), input);
  }

  // ---------------------------------------------------------------------
  // Properties

  lemma MissingElementsIff(llm: Oracle, input: RunInput)
    ensures RunWorkflow(LegacyEnv(llm), input).outcome == Stopped(MissingElements) <==> !HasStoryElements(input)
    ensures !HasStoryElements(input) ==> RunWorkflow(LegacyEnv(llm), input).calls == []
  {
  }

  /** The action is checked only after the planning call. */
  lemma MissingActionAfterPlanning(llm: Oracle, input: RunInput)
    requires HasStoryElements(input) && input.userAction == ""
    requires EnvisionStory(LegacyEnv(llm), input).Emit?
    ensures RunWorkflow(LegacyEnv(llm), input) == Run(EnvisionStory(LegacyEnv(llm), input).calls, Stopped(MissingAction))
  {
  }

  /** No scene history enters a run: replacing it changes nothing. */
  lemma HistoryIgnored(llm: Oracle, input: RunInput, history: seq<string>)
    ensures RunWorkflow(LegacyEnv(llm), input) == RunWorkflow(LegacyEnv(llm), input.(sceneHistory := history))
  {
  }

  /**
   * A completed run made the planning call and the response call with the
   * hard-wired client; the vision is the planning text unchanged and the
   * narrative the second text.
   */
  lemma CompletedRun(llm: Oracle, input: RunInput)
    requires RunWorkflow(LegacyEnv(llm), input).outcome.Completed?
    ensures var run := RunWorkflow(LegacyEnv(llm), input);
      && HasStoryElements(input) && input.userAction != ""
      && |run.calls| == 2
      && run.calls[0] == Request(HardWiredClient, EnvisionPrompt(input.plot, input.currentScene), None)
      && run.calls[1] == Request(HardWiredClient,
           LegacyResponsePrompt(input.currentScene, run.outcome.result.originalVision, input.userAction), None)
      && llm(run.calls[0]) == Text(run.outcome.result.originalVision)
      && llm(run.calls[1]) == Text(run.outcome.result.narrative)
  {
  }
}
