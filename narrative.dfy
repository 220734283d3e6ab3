/**
 * Vocabulary shared by every story workflow: chat messages, the LLM seen as
 * an oracle, prompts recorded by the inputs that went into them, the
 * outcome of a workflow run, provider dispatch, and the write-once LLM
 * cache that every workflow class keeps at class level.
 */
module Narrative {
  import opened PyText

  /** One chat message, `{"role": ..., "content": ...}`. */
  datatype Message = Message(role: string, content: string)

  /** The exceptions the engine raises, by Python class. */
  datatype Error =
    | ValueError(message: string)
    | KeyError(message: string)
    | NameError(name: string)
    | FileNotFoundError(message: string)
    | TypeError(message: string)
    /** Whatever an LLM call raised once its retries were spent. */
    | GenerationError(message: string)

  /** Python `str(e)` for the errors above. */
  function ErrorText(e: Error): string {
    match e
    case ValueError(m) => m
    case KeyError(m) => if '\'' in m && '"' !in m then "\"" + m + "\"" else "'" + m + "'"
    case NameError(n) => "name '" + n + "' is not defined"
    case FileNotFoundError(m) => m
    case TypeError(m) => m
    case GenerationError(m) => m
  }

  datatype Result<+T> = Ok(value: T) | Err(error: Error)

  // ---------------------------------------------------------------------
  // Provider dispatch

  datatype Provider = Ollama | OpenAI | Anthropic | Together

  /** The client object `initialize_llm` builds: which backend, which model. */
  datatype LlmClient = LlmClient(provider: Provider, model: string)

  /** The workflow configuration dictionary; `None` is an absent key. */
  datatype Config = Config(
    provider: Option<string>,
    model: Option<string>,
    workflowType: Option<string>,
    maxScenes: Option<int>)

  const EmptyConfig := Config(None, None, None, None)

  /** Python `config or {}`. */
  function ConfigOrEmpty(c: Option<Config>): Config {
    c.GetOr(EmptyConfig)
  }

  const DefaultProvider := "ollama"
  const DefaultModel := "aya-expanse:8b-q6_K"

  function ProviderName(p: Provider): string {
    match p
    case Ollama => "ollama"
    case OpenAI => "openai"
    case Anthropic => "anthropic"
    case Together => "together"
  }

  /** The provider names a workflow class accepts; only the dimensional critic takes "together". */
  function SupportedProviders(acceptsTogether: bool): set<string> {
    if acceptsTogether then {"ollama", "openai", "anthropic", "together"}
    else {"ollama", "openai", "anthropic"}
  }

  /**
   * The body of `initialize_llm` when the cache is empty: provider and model
   * default to ollama and aya-expanse, and an unknown provider is a ValueError.
   */
  function Dispatch(config: Config, acceptsTogether: bool): (r: Result<LlmClient>)
    ensures r.Ok? <==> config.provider.GetOr(DefaultProvider) in SupportedProviders(acceptsTogether)
    ensures r.Ok? ==> ProviderName(r.value.provider) == config.provider.GetOr(DefaultProvider)
    ensures r.Ok? ==> r.value.model == config.model.GetOr(DefaultModel)
    ensures r.Err? ==> r.error == ValueError("Unsupported provider: " + config.provider.GetOr(DefaultProvider))
  {
    var provider := config.provider.GetOr(DefaultProvider);
    var model := config.model.GetOr(DefaultModel);
    if provider == "ollama" then Ok(LlmClient(Ollama, model))
    else if provider == "openai" then Ok(LlmClient(OpenAI, model))
    else if provider == "anthropic" then Ok(LlmClient(Anthropic, model))
    else if acceptsTogether && provider == "together" then Ok(LlmClient(Together, model))
    else Err(ValueError("Unsupported provider: " + provider))
  }

  /**
   * The class-level state of one workflow class: `_config`, which every
   * constructor overwrites, and `_llm`, which `initialize_llm` fills once
   * and then returns for ever after, whatever `_config` says by then.
   */
  class LlmSlot {
    var config: Config
    var llm: Option<LlmClient>
    const acceptsTogether: bool

    constructor (acceptsTogether: bool)
      ensures this.acceptsTogether == acceptsTogether
      ensures config == EmptyConfig && llm == None
    {
      this.acceptsTogether := acceptsTogether;
      config := EmptyConfig;
      llm := None;
    }

    /** The workflow constructor: `Cls._config = config or {}`; the cached client is untouched. */
    method Configure(c: Option<Config>)
      modifies this`config
      ensures config == ConfigOrEmpty(c)
    {
      config := ConfigOrEmpty(c);
    }

    /** `initialize_llm`: dispatch on `_config` only while nothing is cached. */
    method InitializeLlm() returns (r: Result<LlmClient>)
      modifies this`llm
      ensures old(llm).Some? ==> r == Ok(old(llm).value) && llm == old(llm)
      ensures old(llm).None? ==> r == Dispatch(config, acceptsTogether)
      ensures llm == if r.Ok? then Some(r.value) else None
    {
      if llm.None? {
        r := Dispatch(config, acceptsTogether);
        if r.Ok? {
          llm := Some(r.value);
        }
      } else {
        r := Ok(llm.value);
      }
    }
  }

  /**
   * The start of a module-level `generate_narrative`: the constructor
   * overwrites `_config`, and the first step calls `initialize_llm` only
   * once its own input check has passed. The client the run sees is the
   * cached one if any, else a dispatch on the new config.
   */
  method ConstructAndInitialize(slot: LlmSlot, config: Option<Config>, firstStepPasses: bool)
    returns (client: Result<LlmClient>)
    modifies slot
    ensures slot.config == ConfigOrEmpty(config)
    ensures client == ClientFor(old(slot.llm), ConfigOrEmpty(config), slot.acceptsTogether)
    ensures slot.llm == if firstStepPasses && client.Ok? then Some(client.value) else old(slot.llm)
  {
    slot.Configure(config);
    if firstStepPasses {
      client := slot.InitializeLlm();
    } else {
      client := ClientFor(slot.llm, slot.config, slot.acceptsTogether);
    }
  }

  // ---------------------------------------------------------------------
  // Prompts, requests and the oracle

  /** The five specialised actors of the selective critic, in the order the classifier tries them. */
  datatype ActorKind = Exploration | Conflict | Interaction | Transition | Revelation

  /**
   * A prompt, recorded by the inputs that went into it rather than by its
   * wording. `history` is always the rendered `HistoryContext`; `template`
   * is the text looked up in the resource table where the source does so.
   */
  datatype Prompt =
    // engine/plan_adapt_workflow.py
    | PlannerPrompt(template: string, plot: string, history: string, currentScene: string)
    | AdapterPrompt(template: string, history: string, currentScene: string, vision: string, userAction: string)
    // engine/actor_critic_workflow.py
    | ActorPolicyPrompt(template: string, plot: string, history: string, currentScene: string)
    | CriticPrompt(template: string, history: string, currentScene: string, policy: string, userAction: string)
    // engine/selective_critic_actor_engine.py
    | SelectiveCriticPrompt(plot: string, history: string, currentScene: string, userAction: string)
    | SpecializedActorPrompt(actorType: string, focus: ActorKind, plot: string, history: string,
                             currentScene: string, analysis: string)
    | SelectiveResponsePrompt(currentScene: string, actorType: string, policy: string, userAction: string)
    // engine/dimensional_critic_actor_engine.py
    | DimensionalCriticPrompt(plot: string, history: string, currentScene: string, userAction: string)
    | DimensionalActorPrompt(plot: string, history: string, currentScene: string, analysis: string)
    // engine/optimizing_critic_actor_engine.py
    | OptimizingCriticPrompt(plot: string, history: string, currentScene: string, userAction: string)
    | OptimizingActorPrompt(plot: string, history: string, currentScene: string, analysis: string)
    // engine/timescales_aware_actor_critic_workflow.py
    | LongTermPrompt(plot: string, history: string)
    | ShortTermPrompt(plot: string, history: string, currentScene: string, longTermPolicy: string)
    | PacingPrompt(longTermPolicy: string, shortTermPolicy: string)
    | TimescaleCriticPrompt(plot: string, history: string, userAction: string, mergedPolicy: string)
    // engine/policy_gradient_actor_critic_workflow.py
    | DimensionsActorPrompt(plot: string, history: string, currentScene: string)
    | WeavingCriticPrompt(history: string, currentScene: string, policy: string, userAction: string)
    // engine/workflow.py
    | EnvisionPrompt(plot: string, currentScene: string)
    | LegacyResponsePrompt(currentScene: string, vision: string, userAction: string)
    // adapter/save_metadata_adapter.py
    | StoryNamePrompt(plot: string, scenes: string)
    | OverallSummaryPrompt(plot: string, scenes: string)
    | LatestSummaryPrompt(scenes: string)

  /** One `llm.acomplete(prompt, ...)` call. */
  datatype Request = Request(client: LlmClient, prompt: Prompt, maxTokens: Option<nat>)

  /** What a call returned: its text, or the error it raised. */
  datatype Reply = Text(text: string) | Failed(error: Error)

  /** The LLM, uninterpreted: any answer to any request. */
  type Oracle = Request -> Reply

  /**
   * What a run sees of the outside world: the oracle, what `initialize_llm`
   * gave the first step that asked, and the resource table's `get_text(key)`.
   */
  datatype Env = Env(llm: Oracle, client: Result<LlmClient>, resource: string -> Option<string>)

  // ---------------------------------------------------------------------
  // Runs

  /** The keyword arguments of `workflow.run(...)`. */
  datatype RunInput = RunInput(plot: string, currentScene: string, userAction: string, sceneHistory: seq<string>)

  /** The dictionary `{"original_vision": ..., "narrative": ...}` every variant ends with. */
  datatype WorkflowResult = WorkflowResult(originalVision: string, narrative: string)

  /** How a run ends: the result dictionary, a string `StopEvent`, or an exception. */
  datatype Outcome =
    | Completed(result: WorkflowResult)
    | Stopped(message: string)
    | Raised(error: Error)

  /** A run: the LLM calls it made, in order, and how it ended. */
  datatype Run = Run(calls: seq<Request>, outcome: Outcome)

  const MissingElements := "Missing required story elements."
  const MissingAction := "Missing user action."

  /** The `StoryContext` object the engines pass from step to step. */
  datatype StoryContext = StoryContext(plot: string, currentScene: string, sceneHistory: seq<string>)

  /** What one step does: emit its event after making `calls`, or end the run. */
  datatype Step<+E> = Emit(calls: seq<Request>, event: E) | End(run: Run)

  /** A later step's run, behind the calls the earlier steps made. */
  function After(calls: seq<Request>, run: Run): Run {
    Run(calls + run.calls, run.outcome)
  }

  /** The message of the `KeyError` that `get_text` raises for a key found nowhere. */
  function MissingResourceMessage(key: string): string {
    "Resource key '" + key + "' not found in any language"
  }

  /** `get_text(key)` with no default: the text, or the KeyError. */
  function Lookup(env: Env, key: string): Result<string> {
    match env.resource(key)
    case Some(t) => Ok(t)
    case None => Err(KeyError(MissingResourceMessage(key)))
  }

  /**
   * The body every LLM-calling step shares: `initialize_llm()`, then the
   * prompt (whose template lookup may fail), then `acomplete`; the first
   * exception ends the run.
   */
  function Ask(env: Env, prompt: Result<Prompt>, maxTokens: Option<nat>): Step<string> {
    match env.client
    case Err(e) => End(Run([], Raised(e)))
    case Ok(client) =>
      match prompt
      case Err(e) => End(Run([], Raised(e)))
      case Ok(p) =>
        var request := Request(client, p, maxTokens);
        match env.llm(request)
        case Text(t) => Emit([request], t)
        case Failed(e) => End(Run([request], Raised(e)))
  }

  /** When client, prompt and reply are all there, a step makes exactly that one call. */
  lemma AskSucceeds(env: Env, prompt: Prompt, maxTokens: Option<nat>)
    requires env.client.Ok?
    requires env.llm(Request(env.client.value, prompt, maxTokens)).Text?
    ensures Ask(env, Ok(prompt), maxTokens)
            == Emit([Request(env.client.value, prompt, maxTokens)], env.llm(Request(env.client.value, prompt, maxTokens)).text)
  {
  }

  /** What a fresh `initialize_llm` gives a run: the cached client if any, else a dispatch on the config. */
  function ClientFor(cached: Option<LlmClient>, config: Config, acceptsTogether: bool): (r: Result<LlmClient>)
    ensures cached.Some? ==> r == Ok(cached.value)
    ensures cached.None? ==> r == Dispatch(config, acceptsTogether)
  {
    match cached
    case Some(c) => Ok(c)
    case None => Dispatch(config, acceptsTogether)
  }

  // ---------------------------------------------------------------------
  // The scene-history block every prompt carries

  /** `[f"Scene {i+1}: {scene}" for i, scene in enumerate(history)]`, numbering from `first`. */
  function HistoryLines(history: seq<string>, first: nat): (lines: seq<string>)
    ensures |lines| == |history|
    ensures forall i :: 0 <= i < |history| ==>
              lines[i] == "Scene " + NatToString(first + i) + ": " + history[i]
  {
    if history == [] then []
    else ["Scene " + NatToString(first) + ": " + history[0]] + HistoryLines(history[1..], first + 1)
  }

  /** The `history_context` text: one numbered line per scene, or "No previous scenes". */
  function HistoryContext(history: seq<string>): string {
    if history == [] then "No previous scenes" else Join(HistoryLines(history, 1), "\n")
  }

  /** A join starts with its first part. */
  lemma JoinStartsWithFirst(parts: seq<string>, sep: string)
    requires |parts| >= 1
    ensures parts[0] <= Join(parts, sep)
  {
  }

  /** The placeholder text appears exactly when there is no history. */
  lemma HistoryContextEmpty(history: seq<string>)
    ensures HistoryContext(history) == "No previous scenes" <==> history == []
  {
    if history != [] {
      var lines := HistoryLines(history, 1);
      JoinStartsWithFirst(lines, "\n");
      assert HistoryContext(history)[0] == lines[0][0] == 'S';
    }
  }
}
