/**
 * The timescale-aware actor-critic workflow: a long-term actor, a
 * short-term actor, a pacing call that merges their policies and a critic,
 * all sharing one mutable story context. The long-term step builds that
 * context with an empty current scene, so the short-term step always ends
 * the run and nothing after it is ever reached.
 */
module Timescales {
  import opened PyText
  import opened Narrative
  import opened ReplyParsing

  const MissingPlot := "Missing plot information."
  const MissingScene := "Missing current scene."
  const MissingPolicies := "Missing policies for pacing."
  const StoryComplete := "Story complete."
  const DefaultMaxScenes := 10

  /** The `StoryContext` dataclass the steps update in place. */
  class TimescaleContext {
    var plot: string
    var currentScene: string
    var sceneHistory: seq<string>
    var longTermPolicy: Option<string>
    var shortTermPolicy: Option<string>
    var mergedPolicy: Option<string>

    constructor (plot: string, currentScene: string, sceneHistory: seq<string>)
      ensures this.plot == plot && this.currentScene == currentScene && this.sceneHistory == sceneHistory
      ensures longTermPolicy == None && shortTermPolicy == None && mergedPolicy == None
    {
      this.plot := plot;
      this.currentScene := currentScene;
      this.sceneHistory := sceneHistory;
      longTermPolicy := None;
      shortTermPolicy := None;
      mergedPolicy := None;
    }
  }

  datatype LongTermPolicyEvent = LongTermPolicyEvent(context: TimescaleContext, longTermPolicy: string)
  datatype ShortTermPolicyEvent = ShortTermPolicyEvent(context: TimescaleContext, shortTermPolicy: string)
  datatype MergedPolicyEvent = MergedPolicyEvent(context: TimescaleContext, mergedPolicy: string)
  datatype UserActionEvent = UserActionEvent(context: TimescaleContext, userAction: string, mergedPolicy: string)
  datatype CriticResponseEvent = CriticResponseEvent(narrative: string, originalPolicy: string)

  function LongTermRequest(env: Env, input: RunInput): Step<string> {
    Ask(env, Ok(LongTermPrompt(input.plot, HistoryContext(input.sceneHistory))), None)
  }

  /** `long_term_actor_step`: only the plot is checked; the new context gets an empty scene. */
  method LongTermActorStep(env: Env, input: RunInput) returns (step: Step<LongTermPolicyEvent>)
    ensures input.plot == "" ==> step == End(Run([], Stopped(MissingPlot)))
    ensures input.plot != "" && LongTermRequest(env, input).End? ==> step == End(LongTermRequest(env, input).run)
    ensures input.plot != "" && LongTermRequest(env, input).Emit? ==>
              && step.Emit? && step.calls == LongTermRequest(env, input).calls
              && step.event.longTermPolicy == LongTermRequest(env, input).event
    ensures step.Emit? ==>
              var ctx := step.event.context;
              && fresh(ctx)
              && ctx.plot == input.plot && ctx.currentScene == "" && ctx.sceneHistory == input.sceneHistory
              && ctx.longTermPolicy == Some(step.event.longTermPolicy)
              && ctx.shortTermPolicy == None && ctx.mergedPolicy == None
  {
    if input.plot == "" {
      return End(Run([], Stopped(MissingPlot)));
    }
    var ctx := new TimescaleContext(input.plot, "", input.sceneHistory);
    var asked := LongTermRequest(env, input);
    if asked.End? {
      return End(asked.run);
    }
    ctx.longTermPolicy := Some(asked.event);
    step := Emit(asked.calls, LongTermPolicyEvent(ctx, asked.event));
  }

  function ShortTermRequest(env: Env, ctx: TimescaleContext, longTermPolicy: string): Step<string>
    reads ctx
  {
    Ask(env, Ok(ShortTermPrompt(ctx.plot, HistoryContext(ctx.sceneHistory), ctx.currentScene, longTermPolicy)), None)
  }

  /** `short_term_actor_step`: stops on an empty current scene, else records the short-term policy in the context. */
  method ShortTermActorStep(env: Env, ev: LongTermPolicyEvent) returns (step: Step<ShortTermPolicyEvent>)
    modifies ev.context
    ensures old(ev.context.currentScene) == "" ==> step == End(Run([], Stopped(MissingScene)))
    ensures var asked := old(ShortTermRequest(env, ev.context, ev.longTermPolicy));
            old(ev.context.currentScene) != "" ==>
              if asked.End? then step == End(asked.run)
              else step == Emit(asked.calls, ShortTermPolicyEvent(ev.context, asked.event))
    ensures step.Emit? ==> ev.context.shortTermPolicy == Some(step.event.shortTermPolicy)
    ensures step.End? ==> ev.context.shortTermPolicy == old(ev.context.shortTermPolicy)
    ensures ev.context.plot == old(ev.context.plot) && ev.context.currentScene == old(ev.context.currentScene)
    ensures ev.context.sceneHistory == old(ev.context.sceneHistory)
    ensures ev.context.longTermPolicy == old(ev.context.longTermPolicy)
    ensures ev.context.mergedPolicy == old(ev.context.mergedPolicy)
  {
    if ev.context.currentScene == "" {
      return End(Run([], Stopped(MissingScene)));
    }
    var asked := ShortTermRequest(env, ev.context, ev.longTermPolicy);
    if asked.End? {
      return End(asked.run);
    }
    ev.context.shortTermPolicy := Some(asked.event);
    step := Emit(asked.calls, ShortTermPolicyEvent(ev.context, asked.event));
  }

  /** Python `not p` for the optional policies the pacing step reads. */
  predicate Falsy(p: Option<string>) {
    p.None? || p.value == ""
  }

  /** `pacing_step`: both policies must be non-empty; the merged policy is recorded in the context. */
  method PacingStep(env: Env, ev: ShortTermPolicyEvent) returns (step: Step<MergedPolicyEvent>)
    modifies ev.context
    ensures Falsy(old(ev.context.longTermPolicy)) || ev.shortTermPolicy == "" <==>
              step == End(Run([], Stopped(MissingPolicies)))
    ensures !Falsy(old(ev.context.longTermPolicy)) && ev.shortTermPolicy != "" ==>
              var asked := Ask(env, Ok(PacingPrompt(old(ev.context.longTermPolicy).value, ev.shortTermPolicy)), None);
              if asked.End? then step == End(asked.run)
              else step == Emit(asked.calls, MergedPolicyEvent(ev.context, asked.event))
    ensures step.Emit? ==> ev.context.mergedPolicy == Some(step.event.mergedPolicy)
    ensures step.End? ==> ev.context.mergedPolicy == old(ev.context.mergedPolicy)
    ensures ev.context.plot == old(ev.context.plot) && ev.context.currentScene == old(ev.context.currentScene)
    ensures ev.context.sceneHistory == old(ev.context.sceneHistory)
    ensures ev.context.longTermPolicy == old(ev.context.longTermPolicy)
    ensures ev.context.shortTermPolicy == old(ev.context.shortTermPolicy)
  {
    var longTerm := ev.context.longTermPolicy;
    if Falsy(longTerm) || ev.shortTermPolicy == "" {
      return End(Run([], Stopped(MissingPolicies)));
    }
    var asked := Ask(env, Ok(PacingPrompt(longTerm.value, ev.shortTermPolicy)), None);
    if asked.End? {
      return End(asked.run);
    }
    ev.context.mergedPolicy := Some(asked.event);
    step := Emit(asked.calls, MergedPolicyEvent(ev.context, asked.event));
  }

  /** The `original_vision` text of this workflow. */
  function MergedVision(merged: string, analysis: string): string {
    "MERGED POLICY:\n" + merged + "\n\nCRITIC ANALYSIS:\n" + analysis
  }

  /** `critic_step`: the naive split of the critic's reply. */
  function CriticStep(env: Env, ev: UserActionEvent): (step: Step<CriticResponseEvent>)
    reads ev.context
    ensures step.Emit? ==>
              && |step.calls| == 1 && env.llm(step.calls[0]).Text?
              && var sections := NaiveCriticSections(env.llm(step.calls[0]).text);
              && step.calls[0].prompt == TimescaleCriticPrompt(ev.context.plot, HistoryContext(ev.context.sceneHistory),
                                                               ev.userAction, ev.mergedPolicy)
              && step.event == CriticResponseEvent(sections.response, MergedVision(ev.mergedPolicy, sections.analysis))
  {
    var prompt := TimescaleCriticPrompt(ev.context.plot, HistoryContext(ev.context.sceneHistory), ev.userAction, ev.mergedPolicy);
    match Ask(env, Ok(prompt), None)
    case End(run) => End(run)
    case Emit(calls, reply) =>
      var sections := NaiveCriticSections(reply);
      Emit(calls, CriticResponseEvent(sections.response, MergedVision(ev.mergedPolicy, sections.analysis)))
  }

  /** `format_response_step`. */
  function FormatResponse(ev: CriticResponseEvent): WorkflowResult {
    WorkflowResult(ev.originalPolicy, ev.narrative)
  }

  /**
   * One run from the start event. The short-term step always ends it, so a
   * run never completes and makes at most the long-term call.
   */
  method RunWorkflow(env: Env, input: RunInput) returns (run: Run)
    ensures !run.outcome.Completed?
    ensures |run.calls| <= 1
    ensures forall r :: r in run.calls ==> r.prompt == LongTermPrompt(input.plot, HistoryContext(input.sceneHistory))
    ensures input.plot == "" ==> run == Run([], Stopped(MissingPlot))
    ensures input.plot != "" && LongTermRequest(env, input).Emit? ==>
              run == Run(LongTermRequest(env, input).calls, Stopped(MissingScene))
    ensures input.plot != "" && LongTermRequest(env, input).End? ==> run == LongTermRequest(env, input).run
  {
    var first := LongTermActorStep(env, input);
    if first.End? {
      return first.run;
    }
    var second := ShortTermActorStep(env, first.event);
    if second.End? {
      return After(first.calls, second.run);
    }
    // The context built by the long-term step has an empty scene.
    assert false;
    run := Run([], Stopped(MissingScene));
  }

  /** What `update_story_context_step` returns: a fresh start event, or the end of the story. */
  datatype Continuation = Restart | Finished(message: string)

  /** The run context the update step reads and writes. */
  class StoryProgress {
    var currentScene: string
    var sceneHistory: seq<string>

    constructor (currentScene: string, sceneHistory: seq<string>)
      ensures this.currentScene == currentScene && this.sceneHistory == sceneHistory
    {
      this.currentScene := currentScene;
      this.sceneHistory := sceneHistory;
    }

    /**
     * `update_story_context_step`: the narrative is appended and becomes the
     * current scene; the story ends once the history holds `max_scenes`
     * scenes (10 unless configured).
     */
    method UpdateStoryContext(config: Config, ev: CriticResponseEvent) returns (next: Continuation)
      modifies this
      ensures sceneHistory == old(sceneHistory) + [ev.narrative]
      ensures currentScene == ev.narrative
      ensures next == Finished(StoryComplete) <==> |sceneHistory| >= config.maxScenes.GetOr(DefaultMaxScenes)
      ensures next.Restart? <==> |old(sceneHistory)| + 1 < config.maxScenes.GetOr(DefaultMaxScenes)
    {
      sceneHistory := sceneHistory + [ev.narrative];
      currentScene := ev.narrative;
      if |sceneHistory| >= config.maxScenes.GetOr(DefaultMaxScenes) {
        next := Finished(StoryComplete);
      } else {
        next := Restart;
      }
    }
  }

  /** Module-level `generate_timescale_narrative`. */
  method GenerateTimescaleNarrative(slot: LlmSlot, config: Option<Config>, llm: Oracle,
                                    resource: string -> Option<string>, input: RunInput) returns (run: Run)
    requires !slot.acceptsTogether
    modifies slot
    ensures slot.config == ConfigOrEmpty(config)
    ensures !run.outcome.Completed?
    ensures |run.calls| <= 1
    ensures input.plot == "" ==> run == Run([], Stopped(MissingPlot))
    ensures var env := Env(llm, ClientFor(old(slot.llm), ConfigOrEmpty(config), false), resource);
            input.plot != "" ==>
              run == match LongTermRequest(env, input)
                     case End(stopped) => stopped
                     case Emit(calls, _) => Run(calls, Stopped(MissingScene))
    ensures var client := ClientFor(old(slot.llm), ConfigOrEmpty(config), false);
            slot.llm == if input.plot != "" && client.Ok? then Some(client.value) else old(slot.llm)
  {
    var client := ConstructAndInitialize(slot, config, input.plot != "");
    run := RunWorkflow(Env(llm, client, resource), input);
  }
}
