/**
 * The workflow adapter: the story state the UI keeps, the test for one
 * state continuing another, the (action, scene) pairs taken from the chat
 * log, the table of workflow classes, and the three operations that set the
 * adapter's current state.
 */
module Adapter {
  import opened PyText
  import opened Narrative
  import opened SaveMetadata
  import PlanAdapt
  import ActorCritic
  import DimensionalCritic
  import SelectiveCritic
  import OptimizingCritic

  // ---------------------------------------------------------------------
  // Story state

  /** The `metadata` dictionaries this adapter writes. */
  datatype StateMetadata =
    | InitialMetadata
    | RunMetadata(originalVision: string, userAction: string, modelConfig: Option<Config>, regenerated: bool)

  /** `metadata.get("user_action")`. */
  function MetadataUserAction(m: StateMetadata): Option<string> {
    match m
    case InitialMetadata => None
    case RunMetadata(_, action, _, _) => Some(action)
  }

  datatype StoryState = StoryState(
    plot: string,
    currentScene: string,
    sceneHistory: seq<string>,
    chatMessages: seq<Message>,
    timestamp: string,
    metadata: StateMetadata)

  /**
   * What `is_continuation_of` decides: same plot, and the other log after
   * its welcome message is a proper prefix of this one's.
   */
  predicate Continues(self: StoryState, other: Option<StoryState>) {
    && other.Some?
    && self.plot == other.value.plot
    && var mine := AfterWelcome(self.chatMessages);
    && var theirs := AfterWelcome(other.value.chatMessages);
    && |theirs| < |mine|
    && theirs == mine[..|theirs|]
  }

  /** `StoryState.is_continuation_of`: the early-return loop over the zipped logs. */
  method IsContinuationOf(self: StoryState, other: Option<StoryState>) returns (b: bool)
    ensures b == Continues(self, other)
  {
    if other.None? {
      return false;
    }
    if self.plot != other.value.plot {
      return false;
    }
    var mine := AfterWelcome(self.chatMessages);
    var theirs := AfterWelcome(other.value.chatMessages);
    if |mine| <= |theirs| {
      return false;
    }
    var i := 0;
    while i < |theirs|
      invariant 0 <= i <= |theirs|
      invariant theirs[..i] == mine[..i]
    {
      if mine[i] != theirs[i] {
        assert theirs[i] != mine[..|theirs|][i];
        return false;
      }
      i := i + 1;
    }
    assert theirs == theirs[..i];
    b := true;
  }

  /** A state never continues itself. */
  lemma NeverContinuesItself(s: StoryState)
    ensures !Continues(s, Some(s))
  {
  }

  /** Continuation chains: a continuation of a continuation is a continuation. */
  lemma ContinuesTransitive(a: StoryState, b: StoryState, c: StoryState)
    requires Continues(a, Some(b)) && Continues(b, Some(c))
    ensures Continues(a, Some(c))
  {
    var ma, mb, mc := AfterWelcome(a.chatMessages), AfterWelcome(b.chatMessages), AfterWelcome(c.chatMessages);
    assert mc == mb[..|mc|] == ma[..|mb|][..|mc|];
  }

  /** The welcome messages are never compared. */
  lemma WelcomeIgnored(s: StoryState, o: StoryState, w1: Message, w2: Message)
    requires |s.chatMessages| > 0 && |o.chatMessages| > 0
    ensures Continues(s.(chatMessages := [w1] + s.chatMessages[1..]), Some(o.(chatMessages := [w2] + o.chatMessages[1..])))
            == Continues(s, Some(o))
  {
    assert ([w1] + s.chatMessages[1..])[1..] == s.chatMessages[1..];
    assert ([w2] + o.chatMessages[1..])[1..] == o.chatMessages[1..];
  }

  // ---------------------------------------------------------------------
  // Workflow classes

  datatype WorkflowClass =
    | NarrativeWorkflow
    | ActorCriticWorkflow
    | DimensionalCriticActorWorkflow
    | SelectiveCriticActorWorkflow
    | OptimizingCriticActorWorkflow

  /** `WorkflowAdapter.WORKFLOW_TYPES`; "plan-adapt" is the planner/adapter `NarrativeWorkflow`. */
  const WorkflowTypes: map<string, WorkflowClass> := map[
    "plan-adapt" := NarrativeWorkflow,
    "actor-critic" := ActorCriticWorkflow,
    "dimensional-critic" := DimensionalCriticActorWorkflow,
    "selective-critic" := SelectiveCriticActorWorkflow,
    "optimizing-critic" := OptimizingCriticActorWorkflow]

  const DefaultWorkflowType := "plan-adapt"

  /** `_get_workflow_class`. */
  function WorkflowClassFor(config: Config): WorkflowClass {
    var t := config.workflowType.GetOr(DefaultWorkflowType);
    if t in WorkflowTypes then WorkflowTypes[t] else NarrativeWorkflow
  }

  /**
   * The plan-adapt class is chosen exactly for "plan-adapt", for a missing
   * type and for any unknown one; each other class has exactly one key.
   */
  lemma WorkflowClassChoice(config: Config)
    ensures var t := config.workflowType.GetOr(DefaultWorkflowType);
      && (WorkflowClassFor(config) == NarrativeWorkflow <==> t == "plan-adapt" || t !in WorkflowTypes)
      && (WorkflowClassFor(config) == ActorCriticWorkflow <==> t == "actor-critic")
      && (WorkflowClassFor(config) == DimensionalCriticActorWorkflow <==> t == "dimensional-critic")
      && (WorkflowClassFor(config) == SelectiveCriticActorWorkflow <==> t == "selective-critic")
      && (WorkflowClassFor(config) == OptimizingCriticActorWorkflow <==> t == "optimizing-critic")
  {
  }

  // ---------------------------------------------------------------------
  // Narrative pairs

  /** Python `start` of `s[start:]`, normalised for a sequence of length `len`. */
  function PySliceStart(start: int, len: nat): (k: nat)
    ensures k <= len
    ensures 0 <= start <= len ==> k == start
    ensures start < 0 <= start + len ==> len - k == -start
    ensures start + len < 0 ==> k == 0
  {
    if start < 0 then (if start + len < 0 then 0 else start + len)
    else if start > len then len
    else start
  }

  /**
   * `pairs[-max_scenes:] if len(pairs) > max_scenes else pairs`, the slice
   * written element by element: always a suffix of `pairs`.
   */
  function Window(pairs: seq<ScenePair>, maxScenes: int): (w: seq<ScenePair>)
    ensures |w| <= |pairs|
    ensures forall i :: 0 <= i < |w| ==> w[i] == pairs[|pairs| - |w| + i]
  {
    if |pairs| > maxScenes then
      var k := PySliceStart(-maxScenes, |pairs|);
      seq(|pairs| - k, j requires 0 <= j < |pairs| - k => pairs[k + j])
    else pairs
  }

  /** For a positive bound the window keeps the last `max_scenes` pairs, or all when there are fewer. */
  lemma WindowPositive(pairs: seq<ScenePair>, maxScenes: int)
    requires maxScenes >= 1
    ensures Window(pairs, maxScenes) == LastAtMost(pairs, maxScenes)
    ensures |Window(pairs, maxScenes)| == if |pairs| < maxScenes then |pairs| else maxScenes
  {
  }

  /** `pairs[-0:]` is the whole list, so a zero bound keeps everything. */
  lemma WindowZero(pairs: seq<ScenePair>)
    ensures Window(pairs, 0) == pairs
  {
  }

  /** The pairs `_extract_narrative_pairs` keeps. */
  function NarrativePairs(chat: seq<Message>, maxScenes: int): seq<ScenePair> {
    Window(PairUp(Contents(AfterWelcome(chat))), maxScenes)
  }

  /** `zip(*pairs) if pairs else ([], [])`, as two lists. */
  function Unzip(pairs: seq<ScenePair>): (r: (seq<string>, seq<string>))
    ensures |r.0| == |pairs| && |r.1| == |pairs|
    ensures forall i :: 0 <= i < |pairs| ==> r.0[i] == pairs[i].0 && r.1[i] == pairs[i].1
  {
    (seq(|pairs|, i requires 0 <= i < |pairs| => pairs[i].0), seq(|pairs|, i requires 0 <= i < |pairs| => pairs[i].1))
  }

  /** `_extract_narrative_pairs`: the pairing loop with its pending half-pair, then the window. */
  method ExtractNarrativePairs(chat: seq<Message>, maxScenes: int) returns (actions: seq<string>, scenes: seq<string>)
    ensures (actions, scenes) == Unzip(NarrativePairs(chat, maxScenes))
  {
    var messages := AfterWelcome(chat);
    var pairs: seq<ScenePair> := [];
    var current: seq<string> := [];
    var i := 0;
    while i < |messages|
      invariant 0 <= i <= |messages|
      invariant |pairs| == i / 2
      invariant forall j :: 0 <= j < |pairs| ==> pairs[j] == (messages[2 * j].content, messages[2 * j + 1].content)
      invariant current == if i % 2 == 1 then [messages[i - 1].content] else []
    {
      current := current + [messages[i].content];
      if |current| == 2 {
        pairs := pairs + [(current[0], current[1])];
        current := [];
      }
      i := i + 1;
    }
    assert pairs == PairUp(Contents(messages));
    var window := Window(pairs, maxScenes);
    if |window| > 0 {
      actions, scenes := Unzip(window).0, Unzip(window).1;
    } else {
      actions, scenes := [], [];
    }
  }

  /** The `i`-th kept pair, with `k` pairs dropped from the front, is messages `2(k+i)+1` and `2(k+i)+2`. */
  lemma NarrativePairAt(chat: seq<Message>, maxScenes: int, i: nat)
    requires i < |NarrativePairs(chat, maxScenes)|
    ensures var j := |PairUp(Contents(AfterWelcome(chat)))| - |NarrativePairs(chat, maxScenes)| + i;
      NarrativePairs(chat, maxScenes)[i] == (chat[2 * j + 1].content, chat[2 * j + 2].content)
  {
    PairsFollowTheLog(chat, |PairUp(Contents(AfterWelcome(chat)))| - |NarrativePairs(chat, maxScenes)| + i);
  }

  /**
   * The kept pairs are in log order: with `k` pairs dropped from the front,
   * the i-th action is message `2(k+i)+1` and its scene the message after it.
   */
  lemma PairsInLogOrder(chat: seq<Message>, maxScenes: int, i: nat)
    requires i < |NarrativePairs(chat, maxScenes)|
    ensures var all := PairUp(Contents(AfterWelcome(chat)));
      var k := |all| - |NarrativePairs(chat, maxScenes)|;
      && Unzip(NarrativePairs(chat, maxScenes)).0[i] == chat[2 * (k + i) + 1].content
      && Unzip(NarrativePairs(chat, maxScenes)).1[i] == chat[2 * (k + i) + 2].content
  {
    NarrativePairAt(chat, maxScenes, i);
  }

  /**
   * For a positive bound exactly the last `min(max_scenes, (len(log) - 1) // 2)`
   * pairs are kept; without a window the pairs are those the metadata
   * adapter builds from the same log.
   */
  lemma PairCounts(chat: seq<Message>, maxScenes: int)
    ensures var available := (if |chat| == 0 then 0 else |chat| - 1) / 2;
      && (maxScenes >= 1 ==>
            |NarrativePairs(chat, maxScenes)| == if available < maxScenes then available else maxScenes)
      && (maxScenes == 0 || maxScenes >= available ==> NarrativePairs(chat, maxScenes) == PairUp(Contents(AfterWelcome(chat))))
  {
    var all := PairUp(Contents(AfterWelcome(chat)));
    if maxScenes >= 1 {
      WindowPositive(all, maxScenes);
    }
  }

  /** `a1, s1, a2, s2, ...`: what the `extend` loops build from the zipped actions and scenes. */
  function Interleave(actions: seq<string>, scenes: seq<string>): (h: seq<string>)
    requires |actions| == |scenes|
    ensures |h| == 2 * |actions|
  {
    if |actions| == 0 then []
    else [actions[0], scenes[0]] + Interleave(actions[1..], scenes[1..])
  }

  /** Entry `2i` is the `i`-th action and entry `2i + 1` the `i`-th scene. */
  lemma {:induction false} InterleaveAt(actions: seq<string>, scenes: seq<string>)
    requires |actions| == |scenes|
    decreases |actions|
    ensures var h := Interleave(actions, scenes);
      forall i :: 0 <= i < |actions| ==> h[2 * i] == actions[i] && h[2 * i + 1] == scenes[i]
  {
    if |actions| > 0 {
      var rest := Interleave(actions[1..], scenes[1..]);
      InterleaveAt(actions[1..], scenes[1..]);
      var h := Interleave(actions, scenes);
      forall i | 1 <= i < |actions|
        ensures h[2 * i] == actions[i] && h[2 * i + 1] == scenes[i]
      {
        assert h[2 * i] == rest[2 * (i - 1)];
        assert h[2 * i + 1] == rest[2 * (i - 1) + 1];
      }
    }
  }

  lemma {:induction false} InterleaveSnoc(actions: seq<string>, scenes: seq<string>, a: string, s: string)
    requires |actions| == |scenes|
    decreases |actions|
    ensures Interleave(actions + [a], scenes + [s]) == Interleave(actions, scenes) + [a, s]
  {
    if |actions| > 0 {
      assert (actions + [a])[1..] == actions[1..] + [a];
      assert (scenes + [s])[1..] == scenes[1..] + [s];
      InterleaveSnoc(actions[1..], scenes[1..], a, s);
    }
  }

  /** The `narrative_context.extend([action, scene])` loop. */
  method NarrativeContext(actions: seq<string>, scenes: seq<string>) returns (context: seq<string>)
    requires |actions| == |scenes|
    ensures context == Interleave(actions, scenes)
  {
    context := [];
    var k := 0;
    while k < |actions|
      invariant 0 <= k <= |actions|
      invariant context == Interleave(actions[..k], scenes[..k])
    {
      InterleaveSnoc(actions[..k], scenes[..k], actions[k], scenes[k]);
      assert actions[..k + 1] == actions[..k] + [actions[k]];
      assert scenes[..k + 1] == scenes[..k] + [scenes[k]];
      context := context + [actions[k], scenes[k]];
      k := k + 1;
    }
    assert actions[..k] == actions && scenes[..k] == scenes;
  }

  /** Python `s[:-1]`. */
  function DropLast<T>(s: seq<T>): seq<T> {
    if |s| == 0 then [] else s[..|s| - 1]
  }

  // ---------------------------------------------------------------------
  // Running a workflow class

  /** The class-level LLM slots of the five workflow classes the adapter can run. */
  class EngineSlots {
    const planAdapt: LlmSlot
    const actorCritic: LlmSlot
    const dimensional: LlmSlot
    const selective: LlmSlot
    const optimizing: LlmSlot

    constructor (planAdapt: LlmSlot, actorCritic: LlmSlot, dimensional: LlmSlot, selective: LlmSlot, optimizing: LlmSlot)
      ensures this.planAdapt == planAdapt && this.actorCritic == actorCritic && this.dimensional == dimensional
      ensures this.selective == selective && this.optimizing == optimizing
    {
      this.planAdapt := planAdapt;
      this.actorCritic := actorCritic;
      this.dimensional := dimensional;
      this.selective := selective;
      this.optimizing := optimizing;
    }

    /**
     * Five separate Python classes, each with its own `_llm` and `_config`;
     * only the dimensional critic accepts the "together" provider.
     */
    predicate Valid() {
      && planAdapt != actorCritic && planAdapt != dimensional && planAdapt != selective && planAdapt != optimizing
      && actorCritic != dimensional && actorCritic != selective && actorCritic != optimizing
      && dimensional != selective && dimensional != optimizing && selective != optimizing
      && !planAdapt.acceptsTogether && !actorCritic.acceptsTogether && dimensional.acceptsTogether
      && !selective.acceptsTogether && !optimizing.acceptsTogether
    }

    function SlotFor(kind: WorkflowClass): LlmSlot {
      match kind
      case NarrativeWorkflow => planAdapt
      case ActorCriticWorkflow => actorCritic
      case DimensionalCriticActorWorkflow => dimensional
      case SelectiveCriticActorWorkflow => selective
      case OptimizingCriticActorWorkflow => optimizing
    }

    /** The class `kind` was constructed with `config` and then ran on `input`. */
    twostate predicate Ran(kind: WorkflowClass, config: Config, input: RunInput)
      reads SlotFor(kind)
    {
      && SlotFor(kind).config == config
      && SlotFor(kind).llm == CachedAfter(kind, old(SlotFor(kind).llm), config, input)
    }

    /** Every class other than `kind` keeps its `_config` and `_llm`. */
    twostate predicate OthersKept(kind: WorkflowClass)
      reads All()
    {
      && (kind != NarrativeWorkflow ==> Kept(planAdapt))
      && (kind != ActorCriticWorkflow ==> Kept(actorCritic))
      && (kind != DimensionalCriticActorWorkflow ==> Kept(dimensional))
      && (kind != SelectiveCriticActorWorkflow ==> Kept(selective))
      && (kind != OptimizingCriticActorWorkflow ==> Kept(optimizing))
    }

    /** No class's `_config` or `_llm` changed. */
    twostate predicate AllKept()
      reads All()
    {
      Kept(planAdapt) && Kept(actorCritic) && Kept(dimensional) && Kept(selective) && Kept(optimizing)
    }

    /** The class-level slots of all five classes. */
    function All(): set<LlmSlot> {
      {planAdapt, actorCritic, dimensional, selective, optimizing}
    }
  }

  /** A class's `_config` and `_llm` are as they were. */
  twostate predicate Kept(slot: LlmSlot)
    reads slot
  {
    slot.config == old(slot.config) && slot.llm == old(slot.llm)
  }

  /** One run of a workflow class, given its cached client and the config its constructor stored. */
  function EngineRun(kind: WorkflowClass, cached: Option<LlmClient>, config: Config, llm: Oracle,
                     resource: string -> Option<string>, input: RunInput): Run {
    match kind
    case NarrativeWorkflow => PlanAdapt.RunWorkflow(Env(llm, ClientFor(cached, config, false), resource), input)
    case ActorCriticWorkflow => ActorCritic.RunWorkflow(Env(llm, ClientFor(cached, config, false), resource), input)
    case DimensionalCriticActorWorkflow => DimensionalCritic.RunWorkflow(Env(llm, ClientFor(cached, config, true), resource), input)
    case SelectiveCriticActorWorkflow => SelectiveCritic.RunWorkflow(Env(llm, ClientFor(cached, config, false), resource), input)
    case OptimizingCriticActorWorkflow => OptimizingCritic.RunWorkflow(Env(llm, ClientFor(cached, config, false), resource), input)
  }

  /** Whether the first step of a workflow class gets past its input check and calls `initialize_llm`. */
  predicate EngineStarts(kind: WorkflowClass, input: RunInput) {
    match kind
    case NarrativeWorkflow => PlanAdapt.HasStoryElements(input)
    case ActorCriticWorkflow => ActorCritic.HasStoryElements(input)
    case DimensionalCriticActorWorkflow => DimensionalCritic.HasStoryElements(input)
    case SelectiveCriticActorWorkflow => SelectiveCritic.HasStoryElements(input)
    case OptimizingCriticActorWorkflow => OptimizingCritic.HasStoryElements(input)
  }

  /** A class's cached client after one run: set by a successful first `initialize_llm`, else kept. */
  function CachedAfter(kind: WorkflowClass, cached: Option<LlmClient>, config: Config, input: RunInput): Option<LlmClient> {
    var client := ClientFor(cached, config, kind == DimensionalCriticActorWorkflow);
    if EngineStarts(kind, input) && client.Ok? then Some(client.value) else cached
  }

  /**
   * `WorkflowClass(config=workflow_config or {})` followed by `workflow.run(...)`:
   * only the chosen class's `_config` and `_llm` change.
   */
  method RunEngine(slots: EngineSlots, kind: WorkflowClass, config: Option<Config>, llm: Oracle,
                   resource: string -> Option<string>, input: RunInput) returns (run: Run)
    requires slots.Valid()
    modifies slots.SlotFor(kind)
    ensures slots.Ran(kind, ConfigOrEmpty(config), input)
    ensures slots.OthersKept(kind)
    ensures run == EngineRun(kind, old(slots.SlotFor(kind).llm), ConfigOrEmpty(config), llm, resource, input)
  {
    match kind
    case NarrativeWorkflow => run := PlanAdapt.GenerateNarrative(slots.planAdapt, config, llm, resource, input);
    case ActorCriticWorkflow => run := ActorCritic.GenerateNarrative(slots.actorCritic, config, llm, resource, input);
    case DimensionalCriticActorWorkflow => run := DimensionalCritic.GenerateNarrative(slots.dimensional, config, llm, resource, input);
    case SelectiveCriticActorWorkflow => run := SelectiveCritic.GenerateNarrative(slots.selective, config, llm, resource, input);
    case OptimizingCriticActorWorkflow => run := OptimizingCritic.GenerateNarrative(slots.optimizing, config, llm, resource, input);
  }

  // ---------------------------------------------------------------------
  // The adapter's state transitions, as values

  const NoStateToGenerate := "No current state to generate from"
  const NoStateToRegenerate := "No current state to regenerate"
  const NoUserAction := "No user action found in current state metadata"

  /** What `generate_next_state` passes to the workflow. */
  function NextRunInput(state: StoryState, userAction: string, chat: seq<Message>, maxScenes: int): RunInput {
    var pairs := Unzip(NarrativePairs(chat, maxScenes));
    RunInput(state.plot, state.currentScene, userAction, Interleave(pairs.0, pairs.1))
  }

  /** A workflow's string result is raised as a `ValueError`; its exceptions propagate. */
  function NextStateFrom(state: StoryState, userAction: string, chat: seq<Message>, maxScenes: int,
                         config: Option<Config>, timestamp: string, run: Run): Result<StoryState> {
    match run.outcome
    case Stopped(message) => Err(ValueError(message))
    case Raised(e) => Err(e)
    case Completed(result) =>
      Ok(StoryState(state.plot, result.narrative, Unzip(NarrativePairs(chat, maxScenes)).1 + [state.currentScene],
                    chat, timestamp, RunMetadata(result.originalVision, userAction, config, false)))
  }

  /** What `regenerate_current_state` passes to the workflow, or why it stops first. */
  function RegenerationInput(state: StoryState, chat: seq<Message>, maxScenes: int): Result<RunInput> {
    match MetadataUserAction(state.metadata)
    case None => Err(ValueError(NoUserAction))
    case Some(action) =>
      if action == "" then Err(ValueError(NoUserAction))
      else
        Ok(ReplayInput(state.plot, state.currentScene, action, NarrativePairs(chat, maxScenes)))
  }

  /** The last kept pair's scene becomes the scene again, and the pairs before it the context. */
  function ReplayInput(plot: string, currentScene: string, action: string, kept: seq<ScenePair>): RunInput {
    var pairs := Unzip(kept);
    var previous := if |pairs.1| > 0 then pairs.1[|pairs.1| - 1] else currentScene;
    RunInput(plot, previous, action, Interleave(DropLast(pairs.0), DropLast(pairs.1)))
  }

  /** Replaying keeps plot and action; with kept pairs, the last pair's scene is the scene again
      and the earlier pairs, in order, make the context. */
  lemma ReplayInputMeaning(plot: string, currentScene: string, action: string, kept: seq<ScenePair>)
    ensures var input := ReplayInput(plot, currentScene, action, kept);
      && input.plot == plot && input.userAction == action
      && (|kept| == 0 ==> input.currentScene == currentScene && input.sceneHistory == [])
      && (|kept| > 0 ==>
            && input.currentScene == kept[|kept| - 1].1
            && |input.sceneHistory| == 2 * (|kept| - 1)
            && forall i :: 0 <= i < |kept| - 1 ==>
                 input.sceneHistory[2 * i] == kept[i].0 && input.sceneHistory[2 * i + 1] == kept[i].1)
  {
    var unzipped := Unzip(kept);
    var actions, scenes := DropLast(unzipped.0), DropLast(unzipped.1);
    assert forall i :: 0 <= i < |actions| ==> actions[i] == kept[i].0 && scenes[i] == kept[i].1;
    InterleaveAt(actions, scenes);
  }

  function RegeneratedFrom(state: StoryState, userAction: string, chat: seq<Message>, maxScenes: int,
                           config: Option<Config>, timestamp: string, run: Run): Result<StoryState> {
    match run.outcome
    case Stopped(message) => Err(ValueError(message))
    case Raised(e) => Err(e)
    case Completed(result) =>
      Ok(StoryState(state.plot, result.narrative, Unzip(NarrativePairs(chat, maxScenes)).1,
                    chat, timestamp, RunMetadata(result.originalVision, userAction, config, true)))
  }

  /** The part of `generate_next_state` that builds the workflow's input. */
  method PrepareNextInput(state: StoryState, userAction: string, chat: seq<Message>, maxScenes: int) returns (input: RunInput)
    ensures input == NextRunInput(state, userAction, chat, maxScenes)
  {
    var actions, scenes := ExtractNarrativePairs(chat, maxScenes);
    var context := NarrativeContext(actions, scenes);
    input := RunInput(state.plot, state.currentScene, userAction, context);
  }

  /** The part of `regenerate_current_state` before the workflow runs: the action check and the input. */
  method PrepareRegeneration(state: StoryState, chat: seq<Message>, maxScenes: int) returns (r: Result<RunInput>)
    ensures r == RegenerationInput(state, chat, maxScenes)
  {
    var action := MetadataUserAction(state.metadata);
    if action.None? || action.value == "" {
      return Err(ValueError(NoUserAction));
    }
    var actions, scenes := ExtractNarrativePairs(chat, maxScenes);
    var previous := if |scenes| > 0 then scenes[|scenes| - 1] else state.currentScene;
    var context := NarrativeContext(DropLast(actions), DropLast(scenes));
    r := Ok(RunInput(state.plot, previous, action.value, context));
  }

  /** `generate_next_state` once a state exists: build the input, run the chosen class, and read its result. */
  method AdvanceFrom(slots: EngineSlots, state: StoryState, userAction: string, chat: seq<Message>, maxScenes: int,
                     config: Option<Config>, llm: Oracle, resource: string -> Option<string>, timestamp: string)
    returns (r: Result<StoryState>)
    requires slots.Valid()
    modifies slots.SlotFor(WorkflowClassFor(ConfigOrEmpty(config)))
    ensures var kind := WorkflowClassFor(ConfigOrEmpty(config));
            var input := NextRunInput(state, userAction, chat, maxScenes);
            r == NextStateFrom(state, userAction, chat, maxScenes, config, timestamp,
                               EngineRun(kind, old(slots.SlotFor(kind).llm), ConfigOrEmpty(config), llm, resource, input))
    ensures slots.Ran(WorkflowClassFor(ConfigOrEmpty(config)), ConfigOrEmpty(config), NextRunInput(state, userAction, chat, maxScenes))
    ensures slots.OthersKept(WorkflowClassFor(ConfigOrEmpty(config)))
  {
    var kind := WorkflowClassFor(ConfigOrEmpty(config));
    var input := PrepareNextInput(state, userAction, chat, maxScenes);
    // building the input touches no class, so the run sees the cache as it was on entry
    assert slots.SlotFor(kind).llm == old(slots.SlotFor(kind).llm);
    var run := RunEngine(slots, kind, config, llm, resource, input);
    r := NextStateFrom(state, userAction, chat, maxScenes, config, timestamp, run);
  }

  /** `regenerate_current_state` once a state exists: check the stored action, rebuild the input, run the chosen class. */
  method RegenerateFrom(slots: EngineSlots, state: StoryState, chat: seq<Message>, maxScenes: int,
                        config: Option<Config>, llm: Oracle, resource: string -> Option<string>, timestamp: string)
    returns (r: Result<StoryState>)
    requires slots.Valid()
    modifies slots.SlotFor(WorkflowClassFor(ConfigOrEmpty(config)))
    ensures var kind := WorkflowClassFor(ConfigOrEmpty(config));
            r == match RegenerationInput(state, chat, maxScenes)
                 case Err(e) => Err(e)
                 case Ok(input) =>
                   RegeneratedFrom(state, input.userAction, chat, maxScenes, config, timestamp,
                                   EngineRun(kind, old(slots.SlotFor(kind).llm), ConfigOrEmpty(config), llm, resource, input))
    ensures RegenerationInput(state, chat, maxScenes).Err? ==> slots.AllKept()
    ensures RegenerationInput(state, chat, maxScenes).Ok? ==>
              slots.Ran(WorkflowClassFor(ConfigOrEmpty(config)), ConfigOrEmpty(config), RegenerationInput(state, chat, maxScenes).value)
    ensures slots.OthersKept(WorkflowClassFor(ConfigOrEmpty(config)))
  {
    var prepared := PrepareRegeneration(state, chat, maxScenes);
    if prepared.Err? {
      return Err(prepared.error);
    }
    var input := prepared.value;
    var kind := WorkflowClassFor(ConfigOrEmpty(config));
    var run := RunEngine(slots, kind, config, llm, resource, input);
    r := RegeneratedFrom(state, input.userAction, chat, maxScenes, config, timestamp, run);
  }

  /** The MongoDB client `WorkflowAdapter` is given, as an object that is not a path. */
  const MongoClientArg := ObjectArg("MongoClient")

  /**
   * `WorkflowAdapter(mongo_client)`: `__init__` hands its argument to
   * `SaveMetadataAdapter` as `save_dir`, so an adapter is built only from a
   * path, and the `TypeError` of `os.path.exists` escapes otherwise.
   */
  method NewWorkflowAdapter(slots: EngineSlots, mongoClient: SaveDirArg) returns (r: Result<WorkflowAdapter>)
    ensures r.Ok? <==> mongoClient.PathArg?
    ensures r.Err? ==> r.error == CheckedSaveDir(mongoClient).error
    ensures r.Ok? ==> fresh(r.value) && r.value.slots == slots && r.value.currentState == None
  {
    var metadata := NewMetadataAdapter(mongoClient);
    if metadata.Err? {
      return Err(metadata.error);
    }
    var adapter := new WorkflowAdapter(slots, metadata.value);
    r := Ok(adapter);
  }

  /** A MongoDB client is not a path: building the adapter from one always raises this `TypeError`. */
  lemma MongoClientNeverBuilds()
    ensures CheckedSaveDir(MongoClientArg).Err?
    ensures ErrorText(CheckedSaveDir(MongoClientArg).error) == StatTypeError + "MongoClient"
  {
  }

  /** `WorkflowAdapter`: the current state, and the workflow classes it runs. */
  class WorkflowAdapter {
    var currentState: Option<StoryState>
    const slots: EngineSlots
    const metadataAdapter: MetadataAdapter

    /** The state `__init__` leaves, were it to get past building the metadata adapter. */
    constructor (slots: EngineSlots, metadataAdapter: MetadataAdapter)
      ensures this.slots == slots && this.metadataAdapter == metadataAdapter && currentState == None
    {
      this.slots := slots;
      this.metadataAdapter := metadataAdapter;
      currentState := None;
    }

    /**
     * `generate_next_state`: `current_state` is replaced only on success; the
     * chosen workflow class's `_config` and `_llm` are those its run leaves.
     */
    method GenerateNextState(userAction: string, chat: seq<Message>, maxScenes: int, config: Option<Config>,
                             llm: Oracle, resource: string -> Option<string>, timestamp: string)
      returns (r: Result<StoryState>)
      requires slots.Valid()
      modifies this, slots.All()
      ensures old(currentState).None? ==> r == Err(ValueError(NoStateToGenerate))
      ensures old(currentState).Some? ==>
                var kind := WorkflowClassFor(ConfigOrEmpty(config));
                var input := NextRunInput(old(currentState).value, userAction, chat, maxScenes);
                var run := EngineRun(kind, old(slots.SlotFor(kind).llm), ConfigOrEmpty(config), llm, resource, input);
                r == NextStateFrom(old(currentState).value, userAction, chat, maxScenes, config, timestamp, run)
      ensures currentState == if r.Ok? then Some(r.value) else old(currentState)
      ensures old(currentState).None? ==> slots.AllKept()
      ensures old(currentState).Some? ==>
                slots.Ran(WorkflowClassFor(ConfigOrEmpty(config)), ConfigOrEmpty(config),
                          NextRunInput(old(currentState).value, userAction, chat, maxScenes))
      ensures slots.OthersKept(WorkflowClassFor(ConfigOrEmpty(config)))
    {
      if currentState.None? {
        return Err(ValueError(NoStateToGenerate));
      }
      r := AdvanceFrom(slots, currentState.value, userAction, chat, maxScenes, config, llm, resource, timestamp);
      // a failed run leaves `current_state` as it was
      currentState := if r.Ok? then Some(r.value) else currentState;
    }

    /**
     * `regenerate_current_state`: the last exchange is produced again from the
     * stored action; no workflow class is touched when there is none.
     */
    method RegenerateCurrentState(chat: seq<Message>, maxScenes: int, config: Option<Config>,
                                  llm: Oracle, resource: string -> Option<string>, timestamp: string)
      returns (r: Result<StoryState>)
      requires slots.Valid()
      modifies this, slots.All()
      ensures old(currentState).None? ==> r == Err(ValueError(NoStateToRegenerate))
      ensures old(currentState).Some? ==>
                var state := old(currentState).value;
                var kind := WorkflowClassFor(ConfigOrEmpty(config));
                r == match RegenerationInput(state, chat, maxScenes)
                     case Err(e) => Err(e)
                     case Ok(input) =>
                       RegeneratedFrom(state, input.userAction, chat, maxScenes, config, timestamp,
                                       EngineRun(kind, old(slots.SlotFor(kind).llm), ConfigOrEmpty(config), llm, resource, input))
      ensures currentState == if r.Ok? then Some(r.value) else old(currentState)
      ensures old(currentState).None? || RegenerationInput(old(currentState).value, chat, maxScenes).Err? ==>
                slots.AllKept()
      ensures old(currentState).Some? && RegenerationInput(old(currentState).value, chat, maxScenes).Ok? ==>
                slots.Ran(WorkflowClassFor(ConfigOrEmpty(config)), ConfigOrEmpty(config),
                          RegenerationInput(old(currentState).value, chat, maxScenes).value)
      ensures slots.OthersKept(WorkflowClassFor(ConfigOrEmpty(config)))
    {
      if currentState.None? {
        return Err(ValueError(NoStateToRegenerate));
      }
      r := RegenerateFrom(slots, currentState.value, chat, maxScenes, config, llm, resource, timestamp);
      // a failed run leaves `current_state` as it was
      currentState := if r.Ok? then Some(r.value) else currentState;
    }

    /** `create_initial_state`. */
    method CreateInitialState(plot: string, currentScene: string, chat: seq<Message>,
                              sceneHistory: Option<seq<string>>, timestamp: string) returns (state: StoryState)
      modifies this
      ensures state == StoryState(plot, currentScene, sceneHistory.GetOr([]), chat, timestamp, InitialMetadata)
      ensures currentState == Some(state)
    {
      state := StoryState(plot, currentScene, sceneHistory.GetOr([]), chat, timestamp, InitialMetadata);
      currentState := Some(state);
    }
  }

  // ---------------------------------------------------------------------
  // Properties of the transitions

  /** The history handed to the workflow alternates action and scene, two entries per kept pair. */
  lemma NextInputHistory(state: StoryState, userAction: string, chat: seq<Message>, maxScenes: int)
    ensures var input := NextRunInput(state, userAction, chat, maxScenes);
      var pairs := NarrativePairs(chat, maxScenes);
      && |input.sceneHistory| == 2 * |pairs|
      && (forall i :: 0 <= i < |pairs| ==> input.sceneHistory[2 * i] == pairs[i].0 && input.sceneHistory[2 * i + 1] == pairs[i].1)
      && input.plot == state.plot && input.currentScene == state.currentScene && input.userAction == userAction
  {
    var unzipped := Unzip(NarrativePairs(chat, maxScenes));
    InterleaveAt(unzipped.0, unzipped.1);
  }

  /**
   * A successful step keeps the plot, makes the narrative the current scene,
   * ends the history with the scene it replaced (so it holds at most
   * `max_scenes + 1` entries for a positive bound), and records the vision,
   * the action and the config; a string result or an exception fails it.
   */
  lemma NextStateMeaning(state: StoryState, userAction: string, chat: seq<Message>, maxScenes: int,
                         config: Option<Config>, timestamp: string, run: Run)
    ensures var r := NextStateFrom(state, userAction, chat, maxScenes, config, timestamp, run);
      && (r.Ok? <==> run.outcome.Completed?)
      && (run.outcome.Stopped? ==> r == Err(ValueError(run.outcome.message)))
      && (r.Ok? ==>
            && r.value.plot == state.plot
            && r.value.currentScene == run.outcome.result.narrative
            && |r.value.sceneHistory| >= 1 && r.value.sceneHistory[|r.value.sceneHistory| - 1] == state.currentScene
            && (maxScenes >= 1 ==> |r.value.sceneHistory| <= maxScenes + 1)
            && MetadataUserAction(r.value.metadata) == Some(userAction)
            && r.value.metadata.originalVision == run.outcome.result.originalVision
            && r.value.metadata.modelConfig == config)
  {
    if run.outcome.Completed? && maxScenes >= 1 {
      WindowPositive(PairUp(Contents(AfterWelcome(chat))), maxScenes);
    }
  }

  /**
   * Regeneration replays the last kept exchange: its scene (or the current
   * scene when no pair is kept) is the scene, and the context holds every
   * kept pair but the last.
   */
  lemma RegenerationContext(state: StoryState, chat: seq<Message>, maxScenes: int)
    requires RegenerationInput(state, chat, maxScenes).Ok?
    ensures var input := RegenerationInput(state, chat, maxScenes).value;
      var pairs := NarrativePairs(chat, maxScenes);
      && Some(input.userAction) == MetadataUserAction(state.metadata) && input.userAction != ""
      && (|pairs| == 0 ==> input.currentScene == state.currentScene && input.sceneHistory == [])
      && (|pairs| > 0 ==>
            && input.currentScene == pairs[|pairs| - 1].1
            && |input.sceneHistory| == 2 * (|pairs| - 1)
            && forall i :: 0 <= i < |pairs| - 1 ==>
                 input.sceneHistory[2 * i] == pairs[i].0 && input.sceneHistory[2 * i + 1] == pairs[i].1)
  {
    ReplayInputMeaning(state.plot, state.currentScene, MetadataUserAction(state.metadata).value, NarrativePairs(chat, maxScenes));
  }

  /** A freshly created state has no stored action, so it cannot be regenerated. */
  lemma InitialStateCannotRegenerate(plot: string, scene: string, chat: seq<Message>, history: seq<string>,
                                     timestamp: string, maxScenes: int)
    ensures RegenerationInput(StoryState(plot, scene, history, chat, timestamp, InitialMetadata), chat, maxScenes)
            == Err(ValueError(NoUserAction))
  {
  }

  /** A state produced by a step with a non-empty action can be regenerated with that same action. */
  lemma GeneratedStateRegenerates(state: StoryState, userAction: string, chat: seq<Message>, maxScenes: int,
                                  config: Option<Config>, timestamp: string, run: Run, chat2: seq<Message>, maxScenes2: int)
    requires NextStateFrom(state, userAction, chat, maxScenes, config, timestamp, run).Ok?
    requires userAction != ""
    ensures var next := NextStateFrom(state, userAction, chat, maxScenes, config, timestamp, run).value;
      RegenerationInput(next, chat2, maxScenes2).Ok? && RegenerationInput(next, chat2, maxScenes2).value.userAction == userAction
  {
  }
}
