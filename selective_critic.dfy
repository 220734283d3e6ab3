/**
 * The selective critic-actor workflow: a critic call analyses the moment and
 * names one of five specialised actors, that actor drafts a policy, and a
 * last call writes the scene from the policy and the user action.
 */
module SelectiveCritic {
  import opened PyText
  import opened Narrative
  import opened ReplyParsing

  datatype CriticAnalysisEvent = CriticAnalysisEvent(context: StoryContext, analysis: string, actorType: string)
  datatype ActorPolicyEvent = ActorPolicyEvent(context: StoryContext, policy: string, analysis: string, actorType: string)
  datatype NarrativeResponseEvent = NarrativeResponseEvent(narrative: string, analysis: string, policy: string, actorType: string)

  const CriticErrorPrefix := "Error in selective_critic: "
  const UserActionNotFound := "User action not found in context"

  /** All three inputs are checked by the first step. */
  predicate HasStoryElements(input: RunInput) {
    input.plot != "" && input.currentScene != "" && input.userAction != ""
  }

  /** The first step's `except Exception`: what was raised becomes a string result. */
  function CatchInCritic<E>(step: Step<E>): Step<E> {
    match step
    case End(Run(calls, Raised(e))) => End(Run(calls, Stopped(CriticErrorPrefix + ErrorText(e))))
    case _ => step
  }

  /** `selective_critic`: the input check, the classifying call and the choice of actor. */
  function SelectiveCriticStep(env: Env, input: RunInput): Step<CriticAnalysisEvent> {
    if !HasStoryElements(input) then End(Run([], Stopped(MissingElements)))
    else
      var prompt := SelectiveCriticPrompt(input.plot, HistoryContext(input.sceneHistory), input.currentScene, input.userAction);
      match CatchInCritic(Ask(env, Ok(prompt), None))
      case End(run) => End(run)
      case Emit(calls, analysis) =>
        Emit(calls, CriticAnalysisEvent(StoryContext(input.plot, input.currentScene, input.sceneHistory),
                                        analysis, KindName(SelectedActor(analysis))))
  }

  /** `actor_prompts.get(actor_type, actor_prompts["EXPLORATION"])`: the focus text an actor type selects. */
  function FocusFor(actorType: string): (k: ActorKind)
    ensures KindName(k) == actorType || (k == Exploration && forall j :: KindName(j) != actorType)
  {
    if actorType == "CONFLICT" then Conflict
    else if actorType == "INTERACTION" then Interaction
    else if actorType == "TRANSITION" then Transition
    else if actorType == "REVELATION" then Revelation
    else Exploration
  }

  /** Every label has its own focus text, so the EXPLORATION fallback only serves unknown types. */
  lemma FocusOfLabel(k: ActorKind)
    ensures FocusFor(KindName(k)) == k
  {
  }

  /** `specialized_actor`. */
  function SpecializedActor(env: Env, ev: CriticAnalysisEvent): Step<ActorPolicyEvent> {
    var prompt := SpecializedActorPrompt(ev.actorType, FocusFor(ev.actorType), ev.context.plot,
                                         HistoryContext(ev.context.sceneHistory), ev.context.currentScene, ev.analysis);
    match Ask(env, Ok(prompt), None)
    case End(run) => End(run)
    case Emit(calls, policy) => Emit(calls, ActorPolicyEvent(ev.context, policy, ev.analysis, ev.actorType))
  }

  /** `generate_response`: `initialize_llm` comes before the check of the stored action. */
  function GenerateResponse(env: Env, storedAction: string, ev: ActorPolicyEvent): Step<NarrativeResponseEvent> {
    if env.client.Err? then End(Run([], Raised(env.client.error)))
    else if storedAction == "" then End(Run([], Raised(ValueError(UserActionNotFound))))
    else
      var prompt := SelectiveResponsePrompt(ev.context.currentScene, ev.actorType, ev.policy, storedAction);
      match Ask(env, Ok(prompt), None)
      case End(run) => End(run)
      case Emit(calls, narrative) => Emit(calls, NarrativeResponseEvent(narrative, ev.analysis, ev.policy, ev.actorType))
  }

  /** The `original_vision` text of this workflow. */
  function SelectiveVision(analysis: string, actorType: string, policy: string): string {
    "\nCRITIC ANALYSIS:\n" + analysis + "\n\n" + actorType + " ACTOR POLICY:\n" + policy + "\n"
  }

  /** `format_response`. */
  function FormatResponse(ev: NarrativeResponseEvent): WorkflowResult {
    WorkflowResult(SelectiveVision(ev.analysis, ev.actorType, ev.policy), ev.narrative)
  }

  function RunWorkflow(env: Env, input: RunInput): Run {
    match SelectiveCriticStep(env, input)
    case End(run) => run
    case Emit(calls1, analysisEvent) =>
      match SpecializedActor(env, analysisEvent)
      case End(run) => After(calls1, run)
      case Emit(calls2, policyEvent) =>
        match GenerateResponse(env, input.userAction, policyEvent)
        case End(run) => After(calls1 + calls2, run)
        case Emit(calls3, response) => Run(calls1 + calls2 + calls3, Completed(FormatResponse(response)))
  }

  /** Module-level `generate_narrative`. */
  method GenerateNarrative(slot: LlmSlot, config: Option<Config>, llm: Oracle,
                           resource: string -> Option<string>, input: RunInput) returns (run: Run)
    requires !slot.acceptsTogether
    modifies slot
    ensures slot.config == ConfigOrEmpty(config)
    ensures run == RunWorkflow(Env(llm, ClientFor(old(slot.llm), ConfigOrEmpty(config), false), resource), input)
    ensures var client := ClientFor(old(slot.llm), ConfigOrEmpty(config), false);
            slot.llm == if HasStoryElements(input) && client.Ok? then Some(client.value) else old(slot.llm)
  {
    var client := ConstructAndInitialize(slot, config, HasStoryElements(input));
    run := RunWorkflow(Env(llm, client, resource), input);
  }

  // ---------------------------------------------------------------------
  // Properties

  lemma MissingElementsIff(env: Env, input: RunInput)
    ensures RunWorkflow(env, input).outcome == Stopped(MissingElements) <==> !HasStoryElements(input)
    ensures !HasStoryElements(input) ==> RunWorkflow(env, input).calls == []
  {
    if HasStoryElements(input) {
      var prompt := SelectiveCriticPrompt(input.plot, HistoryContext(input.sceneHistory), input.currentScene, input.userAction);
      var step := Ask(env, Ok(prompt), None);
      if step.End? && step.run.outcome.Raised? {
        CaughtIsNotMissing(ErrorText(step.run.outcome.error));
      }
    }
  }

  /** A caught error's text never reads as the missing-elements result. */
  lemma CaughtIsNotMissing(text: string)
    ensures CriticErrorPrefix + text != MissingElements
  {
    assert (CriticErrorPrefix + text)[0] != MissingElements[0];
  }

  /** What goes wrong in the first step, from the client or the call, ends the run as a string result. */
  lemma CriticErrorsBecomeResults(env: Env, input: RunInput)
    requires HasStoryElements(input)
    requires SelectiveCriticStep(env, input).End?
    ensures RunWorkflow(env, input).outcome.Stopped?
    ensures env.client.Err? ==>
              RunWorkflow(env, input) == Run([], Stopped(CriticErrorPrefix + ErrorText(env.client.error)))
    ensures env.client.Ok? ==>
              var run := RunWorkflow(env, input);
              |run.calls| == 1 && env.llm(run.calls[0]).Failed?
              && run.outcome == Stopped(CriticErrorPrefix + ErrorText(env.llm(run.calls[0]).error))
  {
  }

  /**
   * Past the first step only a failed LLM call can raise: the last call made
   * failed with exactly the raised error, so the "User action not found"
   * check never fires on its own.
   */
  lemma OnlyCallsRaise(env: Env, input: RunInput)
    requires RunWorkflow(env, input).outcome.Raised?
    ensures var run := RunWorkflow(env, input);
      2 <= |run.calls| <= 3 && env.llm(run.calls[|run.calls| - 1]) == Failed(run.outcome.error)
  {
    match SelectiveCriticStep(env, input)
    case End(run) =>
    case Emit(calls1, analysisEvent) =>
      match SpecializedActor(env, analysisEvent)
      case End(run) =>
      case Emit(calls2, policyEvent) =>
  }

  /**
   * A completed run made three calls; the critic's whole reply is the
   * analysis the chosen actor saw and the one returned, the actor is the one
   * the classifier picked from that reply, and the narrative is the last reply.
   */
  lemma CompletedRun(env: Env, input: RunInput)
    requires RunWorkflow(env, input).outcome.Completed?
    ensures HasStoryElements(input) && env.client.Ok?
    ensures var run := RunWorkflow(env, input);
      |run.calls| == 3 && env.llm(run.calls[0]).Text? && env.llm(run.calls[1]).Text? && env.llm(run.calls[2]).Text?
    ensures var run := RunWorkflow(env, input);
      && var history := HistoryContext(input.sceneHistory);
      && var analysis := env.llm(run.calls[0]).text;
      && var actor := SelectedActor(analysis);
      && var policy := env.llm(run.calls[1]).text;
      && run.calls[0] == Request(env.client.value,
           SelectiveCriticPrompt(input.plot, history, input.currentScene, input.userAction), None)
      && run.calls[1] == Request(env.client.value,
           SpecializedActorPrompt(KindName(actor), actor, input.plot, history, input.currentScene, analysis), None)
      && run.calls[2] == Request(env.client.value,
           SelectiveResponsePrompt(input.currentScene, KindName(actor), policy, input.userAction), None)
      && run.outcome.result == WorkflowResult(SelectiveVision(analysis, KindName(actor), policy), env.llm(run.calls[2]).text)
  {
    var s1 := SelectiveCriticStep(env, input);
    if s1.End? {
      assert false;
    }
    var s2 := SpecializedActor(env, s1.event);
    if s2.End? {
      assert false;
    }
    var s3 := GenerateResponse(env, input.userAction, s2.event);
    if s3.End? {
      assert false;
    }
    FocusOfLabel(SelectedActor(s1.event.analysis));
  }
}
