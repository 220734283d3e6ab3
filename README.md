# The Garden of Forking Paths — a verified model of its narrative core

The Garden of Forking Paths is an interactive-fiction application. A
player's action and the story so far go to a *workflow*, a small graph of
asynchronous steps, and each step may call a large language model (LLM).
The workflow writes the next scene. This project models the part of the
system that decides what happens around those LLM calls:

- **The engines.** There are eight story-generation workflows:
  plan-adapt, actor-critic, dimensional critic, selective critic,
  optimizing critic, timescale-aware, policy-gradient, and the legacy
  `NarrativeWorkflow`. The model gives each one:
  - its input checks;
  - the order of its calls and the requests each call makes;
  - how it reads the replies (section parsing, naive splits, the
    selective critic's choice of actor);
  - the events passed from step to step;
  - the final `{"original_vision", "narrative"}` result, a string
    `StopEvent`, or an exception.
- **Provider dispatch.** `initialize_llm` checks the configured provider
  and caches the client at class level.
- **The workflow adapter.**
  - the story state and its continuation test;
  - the (action, scene) pairs taken from the chat log;
  - the table of workflow types;
  - `generate_next_state`, `regenerate_current_state` and
    `create_initial_state`.
- **The save-metadata adapter.**
  - scene pairs and their formatting;
  - the three summarising calls;
  - the metadata record and its dictionary round trip;
  - the metadata file name.
- **The resource manager.** It is a singleton with a current language and
  lookup fallbacks.
- **The early story-graph abstractions and the interaction dispatcher.**
- **The UI tables.** The model list, its grouping by provider, and the
  workflow types.

## How it is modelled

The LLM is an uninterpreted oracle, `Oracle = Request -> Reply`.
- A `Request` records the client (provider and model), the prompt (a
  datatype naming the template and its arguments) and `max_tokens`.
- A `Reply` is the text or the error the call raised.

A workflow run is a pure function from an environment to a `Run`.
- The environment holds the oracle, the client `initialize_llm` produced,
  and the prompt resources.
- A `Run` holds the calls made, in order, and the outcome: `Completed`,
  `Stopped` or `Raised`.

Two kinds of Python object become Dafny classes with `modifies` frames:
- objects whose fields change in place: the class-level LLM caches, the
  adapter's current state, the resource manager and its singleton
  registry, the story graph and its nodes, the timescale story context;
- the save-metadata adapter's per-instance cache.

Loops in the source become methods with invariants, each proved equal to
a specification function:
- the prefix walk of `is_continuation_of`;
- the pairing loop of `_extract_narrative_pairs` and the context
  `extend` loop;
- the scene-pair loop and `_format_scenes`;
- `_parse_critic_response`'s marker loop;
- the selective critic's label scan;
- the UI's grouping loop.

Python string operations are modelled in `pytext.dfy` and proved against
their own specifications: `split`, `split(sep, 1)`, `replace`, `strip`,
`rfind`, `os.path.splitext` and integer formatting. Examples of what is
proved there:
- `join(split(s)) == s`;
- `strip` is idempotent;
- the pieces of a split do not contain the separator.

Five behaviours of the code are easy to miss; the model follows the code
as written:
- **The timescale-aware workflow never completes.** Its long-term step
  builds the shared story context with an empty current scene, so the
  short-term step always stops the run with "Missing current scene". The
  pacing, critic and update steps are modelled, but no run reaches them
  (`Timescales.RunWorkflow`).
- **The policy-gradient workflow never runs.** Its constructor and its
  `generate_narrative` both name `ActorCriticWorkflow`, which that module
  never defines or imports, so every use raises a `NameError`
  (`PolicyGradient.NeverRuns`). Its steps are modelled as they would
  connect.
- **One workflow type falls back.** The UI offers
  "policy-gradient-actor-critic", but the adapter's `WORKFLOW_TYPES` has
  no such key, so that choice runs the plan-adapt `NarrativeWorkflow`
  (`Ui.PolicyGradientFallsBack`).
- **The selective critic's first step catches its own errors.** A client
  or LLM failure there becomes a string result, not an exception
  (`SelectiveCritic.CriticErrorsBecomeResults`).
- **No `WorkflowAdapter` can be built from a MongoDB client.** Its
  `__init__` passes the client to `SaveMetadataAdapter` as `save_dir`,
  where `os.path.exists` raises a `TypeError` for anything that is not a
  path. So the adapter's state transitions are modelled as they would
  behave once built, and only a path argument builds one
  (`Adapter.NewWorkflowAdapter`, `Adapter.MongoClientNeverBuilds`).

## Model

| member | source | states |
|---|---|---|
| Narrative.Dispatch | engine/plan_adapt_workflow.py:57-80 | the client is built exactly when the configured provider (default ollama) is supported; it carries that provider and the configured model (default aya-expanse:8b-q6_K); otherwise a ValueError naming the provider |
| Narrative.LlmSlot.constructor | engine/plan_adapt_workflow.py:51-53 | a workflow class starts with an empty class-level config and no cached client |
| Narrative.LlmSlot.Configure | engine/plan_adapt_workflow.py:51-53 | the constructor stores `config or {}` at class level and leaves the cached client alone |
| Narrative.LlmSlot.InitializeLlm | engine/plan_adapt_workflow.py:57-80 | a cached client is returned unchanged; otherwise the dispatch result, which is cached only when it succeeds |
| Narrative.ConstructAndInitialize | engine/plan_adapt_workflow.py:195-219 | construction then run: the config is stored; the run's client is the cached one or a fresh dispatch; it is cached only if the first step gets past its checks and dispatch succeeds |
| Narrative.ClientFor | engine/plan_adapt_workflow.py:57-80 | the client a run sees: the cached one when there is one, else the dispatch on the class config |
| Narrative.AskSucceeds | engine/plan_adapt_workflow.py:116 | with a client and a text reply, a step makes exactly that one request and emits its text |
| Narrative.HistoryLines | engine/plan_adapt_workflow.py:107 | one line per scene, in order, line i being "Scene {first+i}: " followed by scene i |
| Narrative.JoinStartsWithFirst | engine/plan_adapt_workflow.py:107 | a newline-joined history begins with its first line |
| Narrative.HistoryContextEmpty | engine/plan_adapt_workflow.py:107 | the "No previous scenes" placeholder appears exactly when the history is empty |
| PlanAdapt.GenerateNarrative | engine/plan_adapt_workflow.py:195-219 | the entry point stores the config and runs the four steps with the cached or dispatched client; the cache is updated as initialize_llm does |
| PlanAdapt.MissingElementsIff | engine/plan_adapt_workflow.py:96-99 | the run stops with "Missing required story elements" exactly when plot or current scene is empty, and then makes no call |
| PlanAdapt.MissingActionAfterPlanning | engine/plan_adapt_workflow.py:171-174 | an empty user action is only noticed after the planner call: the run stops with "Missing user action" after exactly one call |
| PlanAdapt.CompletedRun | engine/plan_adapt_workflow.py:83-193 | a completed run made exactly the planner call and then the adapter call, with the configured client; the planner text is both the vision the adapter saw and the returned original vision; the adapter text is the narrative |
| PlanAdapt.RunCompletes | engine/plan_adapt_workflow.py:163-193 | conversely, with story elements, an action, a client, both templates and two text replies, the run completes |
| PlanAdapt.CallsUseClient | engine/plan_adapt_workflow.py:116-151 | every call uses the client initialize_llm returned, and a run makes at most two |
| ActorCritic.GenerateNarrative | engine/actor_critic_workflow.py:242-266 | the entry point stores the config and runs actor, process and critic with the cached or dispatched client |
| ActorCritic.MissingElementsIff | engine/actor_critic_workflow.py:96-99 | stops for missing story elements exactly when plot or scene is empty, before any call |
| ActorCritic.MissingActionAfterPolicy | engine/actor_critic_workflow.py:210-228 | an empty action stops the run only after the actor call |
| ActorCritic.CompletedRun | engine/actor_critic_workflow.py:83-240 | a completed run made the actor call and then the critic call on the actor's policy; the narrative is the parsed response and the vision joins the policy with the parsed analysis |
| ActorCritic.WellFormedCriticStep | engine/actor_critic_workflow.py:167-208 | a critic reply in the requested "Action Analysis: … Response: …" layout, whose analysis does not itself contain "Response:", yields the stripped response as narrative and the stripped analysis in the vision |
| ActorCritic.CallsUseClient | engine/actor_critic_workflow.py:116-192 | every call uses the run's client; at most two calls |
| ReplyParsing.ParseCriticResponse | engine/actor_critic_workflow.py:129-164 | the parser, loop over fallback markers included, returns exactly the sections its specification function gives |
| ReplyParsing.WellFormedCriticReply | engine/actor_critic_workflow.py:136-140 | "Action Analysis:" + a + "Response:" + r parses to strip(a) and strip(r) whenever a does not contain "Response:" |
| ReplyParsing.SplitAtResponse | engine/actor_critic_workflow.py:136-140 | a one-split at "Response:" gives the two sides whenever the text before the marker does not contain it |
| ReplyParsing.NoResponseInHeading | engine/actor_critic_workflow.py:136-140 | prefixing the "Action Analysis:" heading never creates a "Response:" occurrence |
| ReplyParsing.FirstResponseAfter | engine/actor_critic_workflow.py:136-140 | the first "Response:" is the one right after a head that has none, since no occurrence can straddle into the marker |
| ReplyParsing.DropHeading | engine/actor_critic_workflow.py:136-140 | removing the "Action Analysis:" heading from a reply that starts with it leaves the analysis |
| ReplyParsing.ResponseAfterFirstMarker | engine/actor_critic_workflow.py:136-147 | whenever "Response:" occurs, the narrative is everything after its first occurrence, stripped |
| ReplyParsing.FallbackNone | engine/actor_critic_workflow.py:151-164 | when no fallback marker occurs, the analysis is empty and the whole reply, stripped, is the response |
| ReplyParsing.NoMarkerAllResponse | engine/actor_critic_workflow.py:151-164 | a reply with none of the markers is all response and no analysis |
| ReplyParsing.SceneInsideNextScene | engine/actor_critic_workflow.py:151 | "Scene:" occurs inside "Next Scene:" |
| ReplyParsing.NextSceneNeverChosen | engine/actor_critic_workflow.py:151-155 | "Next Scene:" is never the marker that splits: "Scene:", tried first, always matches |
| ReplyParsing.AnalysisHeadingBranch | engine/actor_critic_workflow.py:143-147 | with "Analysis:" but not "Action Analysis:", the analysis is the part before "Response:" minus its first "Analysis:" |
| ReplyParsing.NaiveCriticSections | engine/timescales_aware_actor_critic_workflow.py:369-374 | the IndexError fallback (failure text, whole reply kept unstripped) happens exactly when "Response:" is absent |
| ReplyParsing.SecondPieceShorter | engine/timescales_aware_actor_critic_workflow.py:370 | when the separator occurs, a full split has a second piece shorter than the text |
| ReplyParsing.SecondPiece | engine/timescales_aware_actor_critic_workflow.py:370 | the second piece of a full split is the first piece of the text after the first separator |
| ReplyParsing.NarrativesAgreeIff | engine/policy_gradient_actor_critic_workflow.py:225-226 | the naive split and the tolerant parser give the same narrative exactly when nothing after the first "Response:" contains it again |
| ReplyParsing.ActorNamesAgree | engine/selective_critic_actor_engine.py:153-160 | the label list scanned is the five actor kinds' names in classifier order |
| ReplyParsing.FirstNamedFrom | engine/selective_critic_actor_engine.py:153-160 | the scan from a position returns a position in range |
| ReplyParsing.FirstNamedFromMeaning | engine/selective_critic_actor_engine.py:153-160 | the scan finds the first label the actor line contains, with no earlier label present, or reports that none is present |
| ReplyParsing.SelectActorType | engine/selective_critic_actor_engine.py:153-160 | the loop over the labels, stopping at the first found, returns the actor of the specification function |
| ReplyParsing.SelectedActorMeaning | engine/selective_critic_actor_engine.py:153-160 | a non-default pick is a label on the actor line with none tried before it present; EXPLORATION is picked exactly when the marker is absent, the line names EXPLORATION, or it names no label |
| SelectiveCritic.FocusFor | engine/selective_critic_actor_engine.py:186-224 | the focus text is the one of the named actor type, or EXPLORATION's exactly when the type names no actor |
| SelectiveCritic.FocusOfLabel | engine/selective_critic_actor_engine.py:186-224 | every actor kind's label selects its own focus text |
| SelectiveCritic.GenerateNarrative | engine/selective_critic_actor_engine.py:345-365 | the entry point stores the config and runs the three steps with the cached or dispatched client |
| SelectiveCritic.MissingElementsIff | engine/selective_critic_actor_engine.py:88-89 | stops for missing story elements exactly when plot, scene or user action is empty, before any call |
| SelectiveCritic.CaughtIsNotMissing | engine/selective_critic_actor_engine.py:169-171 | a caught error's text never equals the missing-elements result |
| SelectiveCritic.CriticErrorsBecomeResults | engine/selective_critic_actor_engine.py:169-171 | a client or call failure in the first step ends the run as a string result carrying the error text, not an exception |
| SelectiveCritic.OnlyCallsRaise | engine/selective_critic_actor_engine.py:261-320 | past the first step only a failed LLM call raises, with exactly that call's error; the "User action not found" check never fires |
| SelectiveCritic.CompletedRun | engine/selective_critic_actor_engine.py:77-343 | a completed run made three calls: the critic's whole reply is the analysis, the actor is the one the scan picked from it, and the last reply is the narrative; the vision combines analysis, actor name and policy |
| DimensionalCritic.GenerateNarrative | engine/dimensional_critic_actor_engine.py:216-236 | the entry point stores the config and runs the steps; this class also accepts the "together" provider |
| DimensionalCritic.MissingElementsIff | engine/dimensional_critic_actor_engine.py:83-84 | stops for missing story elements exactly when plot, scene or action is empty, before any call |
| DimensionalCritic.ActorIgnoresUserAction | engine/dimensional_critic_actor_engine.py:154-162 | the actor stage gives the same result whatever user action the critic event carries |
| DimensionalCritic.FailuresRaise | engine/dimensional_critic_actor_engine.py:131-202 | every raised run ends with the client's error or the failed last call's error |
| DimensionalCritic.CompletedRun | engine/dimensional_critic_actor_engine.py:72-214 | a completed run made the critic call and then the actor call on the analysis, without the action; the analysis is the vision and the actor's text the narrative |
| OptimizingCritic.GenerateNarrative | engine/optimizing_critic_actor_engine.py:225-249 | the entry point stores the config and runs the steps with the cached or dispatched client |
| OptimizingCritic.MissingElementsIff | engine/optimizing_critic_actor_engine.py:87-89 | stops for missing story elements exactly when plot, scene or action is empty, before any call |
| OptimizingCritic.ActorIgnoresUserAction | engine/optimizing_critic_actor_engine.py:167-197 | the actor stage does not depend on the user action its event carries |
| OptimizingCritic.CompletedRun | engine/optimizing_critic_actor_engine.py:74-223 | a completed run made two calls, the second with max_tokens 4096 and no user action; the analysis is the vision, the actor's text the narrative |
| Timescales.TimescaleContext.constructor | engine/timescales_aware_actor_critic_workflow.py:25-33 | a story context holds plot, scene and history, with no policy yet |
| Timescales.LongTermActorStep | engine/timescales_aware_actor_critic_workflow.py:97-159 | an empty plot stops before any call; otherwise the one long-term call's failure ends the run, or its text becomes the policy of a fresh context whose current scene is empty |
| Timescales.ShortTermActorStep | engine/timescales_aware_actor_critic_workflow.py:162-229 | an empty current scene stops the run with no call; otherwise the call's text is recorded as the short-term policy and nothing else in the context changes |
| Timescales.PacingStep | engine/timescales_aware_actor_critic_workflow.py:232-275 | stops exactly when either policy is empty; otherwise the merged text is recorded and nothing else changes |
| Timescales.CriticStep | engine/timescales_aware_actor_critic_workflow.py:304-389 | an emitted event holds the naive split's response and the merged policy with the analysis |
| Timescales.RunWorkflow | engine/timescales_aware_actor_critic_workflow.py:97-229 | no run completes; it makes at most the long-term call, and an empty plot stops it first; otherwise the run is the long-term step's own failure or, after the long-term call, the missing-scene stop |
| Timescales.StoryProgress.constructor | engine/timescales_aware_actor_critic_workflow.py:404-428 | the run context starts with the given scene and history |
| Timescales.StoryProgress.UpdateStoryContext | engine/timescales_aware_actor_critic_workflow.py:404-428 | the narrative is appended and becomes the scene; the story ends exactly when the history reaches max_scenes (default 10), else a new start event follows |
| Timescales.GenerateTimescaleNarrative | engine/timescales_aware_actor_critic_workflow.py:449-473 | the entry point stores the config; its run never completes, makes at most one call, stops with no call on an empty plot, and otherwise is the long-term step's failure or the missing-scene stop after that call |
| PolicyGradient.Construct | engine/policy_gradient_actor_critic_workflow.py:49-52 | the constructor always raises NameError for the unbound ActorCriticWorkflow |
| PolicyGradient.GenerateNarrative | engine/policy_gradient_actor_critic_workflow.py:280-304 | the entry point makes no call and raises that NameError, whatever its inputs |
| PolicyGradient.NeverRuns | engine/policy_gradient_actor_critic_workflow.py:291 | no configuration, oracle or input completes a run; the error text is "name 'ActorCriticWorkflow' is not defined" |
| PolicyGradient.MissingElementsIff | engine/policy_gradient_actor_critic_workflow.py:94-96 | the steps as wired stop for missing story elements exactly when plot or scene is empty, before any call |
| PolicyGradient.MissingActionAfterPolicy | engine/policy_gradient_actor_critic_workflow.py:248-265 | an empty action stops the run only after the actor call |
| PolicyGradient.CompletedRun | engine/policy_gradient_actor_critic_workflow.py:81-278 | as wired, a completed run made the dimensions call and the weaving call; narrative and critic part of the vision come from the naive split |
| PolicyGradient.UnsplitReply | engine/policy_gradient_actor_critic_workflow.py:225-230 | a critic reply without "Response:" is kept whole as the narrative, with the failure text as analysis |
| LegacyWorkflow.LegacySlot.constructor | engine/workflow.py:36-38 | the class-level client starts empty |
| LegacyWorkflow.LegacySlot.InitializeLlm | engine/workflow.py:41-44 | whatever is configured, the client is the hard-wired Ollama model, and it is cached |
| LegacyWorkflow.GenerateNarrative | engine/workflow.py:173-187 | the run uses the hard-wired client and no history; the client is cached exactly when plot and scene are present |
| LegacyWorkflow.MissingElementsIff | engine/workflow.py:57-58 | stops for missing story elements exactly when plot or scene is empty, before any call |
| LegacyWorkflow.MissingActionAfterPlanning | engine/workflow.py:145-159 | an empty action stops the run only after the planning call |
| LegacyWorkflow.HistoryIgnored | engine/workflow.py:60-82 | replacing the scene history changes nothing in a run |
| LegacyWorkflow.CompletedRun | engine/workflow.py:47-171 | a completed run made the planning call and the response call with the hard-wired client; the planning text is the vision, the second text the narrative |
| Adapter.IsContinuationOf | adapter/adapter.py:36-62 | the early-return loop decides exactly continuation: same plot, and the other log after the welcome is a proper prefix of this one's |
| Adapter.NeverContinuesItself | adapter/adapter.py:36-62 | no state continues itself |
| Adapter.ContinuesTransitive | adapter/adapter.py:36-62 | a continuation of a continuation is a continuation |
| Adapter.WelcomeIgnored | adapter/adapter.py:49-62 | the welcome messages are never compared |
| Adapter.WorkflowClassChoice | adapter/adapter.py:65-82 | plan-adapt is chosen exactly for "plan-adapt", a missing type or an unknown one; every other class has exactly one key |
| Adapter.PySliceStart | adapter/adapter.py:103 | the start never passes the length; a start inside the sequence is kept, a negative one counts back from the end, and one before the beginning becomes 0 |
| Adapter.Window | adapter/adapter.py:103 | the window is always a suffix of the pairs |
| Adapter.WindowPositive | adapter/adapter.py:103 | for a positive bound, the last max_scenes pairs, or all when fewer |
| Adapter.WindowZero | adapter/adapter.py:103 | a zero bound keeps every pair |
| Adapter.Unzip | adapter/adapter.py:106-107 | two lists as long as the pairs, holding their first and second components in order |
| Adapter.ExtractNarrativePairs | adapter/adapter.py:84-107 | the pairing loop with its pending half-pair, then the window and unzip, returns the unzipped kept pairs |
| Adapter.NarrativePairAt | adapter/adapter.py:90-103 | kept pair i is the message pair 2(k+i)+1, 2(k+i)+2 of the log, k being the pairs dropped |
| Adapter.PairsInLogOrder | adapter/adapter.py:90-103 | kept pair i is the action at message 2(k+i)+1 and the scene after it, k being the pairs dropped |
| Adapter.PairCounts | adapter/adapter.py:90-103 | for a positive bound exactly min(max_scenes, (len(log)-1)//2) pairs are kept; without the window they are the metadata adapter's pairs |
| Adapter.Interleave | adapter/adapter.py:210-212 | the context has two entries per pair |
| Adapter.InterleaveAt | adapter/adapter.py:210-212 | entry 2i is action i and entry 2i+1 is scene i |
| Adapter.InterleaveSnoc | adapter/adapter.py:210-212 | extending with one more pair appends that action and scene |
| Adapter.NarrativeContext | adapter/adapter.py:210-212 | the extend loop builds exactly the interleaving |
| Adapter.EngineSlots.constructor | adapter/adapter.py:65-71 | the adapter's five workflow classes with their class-level caches |
| Adapter.RunEngine | adapter/adapter.py:215-220 | constructing the chosen class stores `config or {}` in its slot; its cached client becomes the dispatched one exactly when none was cached, the first step passes its input check and dispatch succeeds; the four other classes are untouched; the run is that engine's run with its cached or dispatched client |
| Adapter.PrepareNextInput | adapter/adapter.py:206-212 | the next-state input is plot, current scene, action and the interleaved kept pairs |
| Adapter.PrepareRegeneration | adapter/adapter.py:259-273 | regeneration stops without a stored user action; otherwise it replays the last kept exchange |
| Adapter.ReplayInputMeaning | adapter/adapter.py:268-273 | replay keeps plot and action; the last kept scene becomes the scene, and the pairs before it, in order, the context |
| Adapter.WorkflowAdapter.constructor | adapter/adapter.py:73-77 | once past building its metadata adapter, the adapter holds it and starts with no current state |
| Adapter.NewWorkflowAdapter | adapter/adapter.py:73-77 | an adapter is built exactly when the argument is a path, starting with no current state; otherwise the TypeError of building the metadata adapter escapes |
| Adapter.MongoClientNeverBuilds | adapter/adapter.py:76 | a MongoDB client is rejected with the TypeError "stat: path should be string, bytes, os.PathLike or integer, not MongoClient" |
| Adapter.AdvanceFrom | adapter/adapter.py:206-246 | with a state present, the result is the state read from the chosen engine's run on the prepared input; that class's config and cache are as its run leaves them and the four other classes keep theirs |
| Adapter.RegenerateFrom | adapter/adapter.py:259-315 | with a state present, a missing stored action is a ValueError with no class touched; otherwise the replayed run's result, with the chosen class's config and cache as its run leaves them and the other classes unchanged |
| Adapter.WorkflowAdapter.GenerateNextState | adapter/adapter.py:187-246 | without a state a ValueError and no workflow class touched; otherwise the engine runs on the prepared input and its result becomes the new state; the current state changes only on success; the chosen class's config and cache are as its run leaves them, and the other classes are untouched |
| Adapter.WorkflowAdapter.RegenerateCurrentState | adapter/adapter.py:248-315 | without a state or stored action a ValueError and no workflow class touched; otherwise the replayed run's result replaces the state, marked regenerated; the state changes only on success; the chosen class's config and cache are as its run leaves them, and the other classes are untouched |
| Adapter.WorkflowAdapter.CreateInitialState | adapter/adapter.py:317-333 | the new state has the given plot, scene, log and history (default empty), no stored action, and becomes the current state |
| Adapter.NextInputHistory | adapter/adapter.py:206-212 | the history the workflow gets alternates action and scene, two entries per kept pair, in log order |
| Adapter.NextStateMeaning | adapter/adapter.py:223-238 | a successful step keeps the plot, makes the narrative the scene, ends the history with the replaced scene (at most max_scenes+1 entries) and records vision, action and config; a string result or an exception fails it |
| Adapter.RegenerationContext | adapter/adapter.py:259-273 | regeneration replays the last kept exchange: its scene, or the current one when none is kept, and the earlier pairs as context |
| Adapter.InitialStateCannotRegenerate | adapter/adapter.py:317-333 | a freshly created state has no stored action, so regenerating it fails |
| Adapter.GeneratedStateRegenerates | adapter/adapter.py:227-261 | a state made by a step with a non-empty action regenerates with that same action |
| SaveMetadata.AfterWelcome | adapter/save_metadata_adapter.py:70 | skipping the welcome drops one message, and an empty log stays empty |
| SaveMetadata.Contents | adapter/save_metadata_adapter.py:70-76 | the contents of the messages, in order |
| SaveMetadata.PairUp | adapter/save_metadata_adapter.py:70-76 | consecutive texts paired in order; a trailing odd one dropped |
| SaveMetadata.ScenePairs | adapter/save_metadata_adapter.py:70-76 | the index loop collects exactly those pairs |
| SaveMetadata.LastAtMost | adapter/save_metadata_adapter.py:84-111 | the last n pairs, or all when fewer |
| SaveMetadata.FirstAtMost | adapter/save_metadata_adapter.py:99 | the first n pairs, or all when fewer |
| SaveMetadata.SceneLines | adapter/save_metadata_adapter.py:131-141 | four lines per pair |
| SaveMetadata.SceneLinesBlocks | adapter/save_metadata_adapter.py:131-141 | block i is pair i's action and scene, numbered first+i |
| SaveMetadata.SceneLinesSnoc | adapter/save_metadata_adapter.py:131-141 | formatting one more pair appends its block |
| SaveMetadata.FormatScenes | adapter/save_metadata_adapter.py:131-141 | the loop produces the numbered blocks joined by newlines |
| SaveMetadata.MetadataPath | adapter/save_metadata_adapter.py:167-170 | the extension, if any, gives way to "_metadata.json" |
| SaveMetadata.ToDict | adapter/save_metadata_adapter.py:21-27 | the dictionary has exactly the record's four keys (story_name, overall_summary, latest_summary, timestamp) |
| SaveMetadata.FromDict | adapter/save_metadata_adapter.py:161 | a record is built exactly when the keys are the four fields |
| SaveMetadata.FromToDict | adapter/save_metadata_adapter.py:21-27 | writing a record and reading it back gives the same record |
| SaveMetadata.ToFromDict | adapter/save_metadata_adapter.py:161 | a dictionary that reads back is exactly that record's dictionary |
| SaveMetadata.CheckedSaveDir | adapter/save_metadata_adapter.py:32 | `os.path.exists` succeeds exactly on a path; any other object is a TypeError whose message ends with the object's class name |
| SaveMetadata.NewMetadataAdapter | adapter/save_metadata_adapter.py:30-34 | an adapter is built exactly for a path `save_dir`, storing it, without a client; otherwise the TypeError |
| SaveMetadata.MetadataAdapter.constructor | adapter/save_metadata_adapter.py:30-34 | the adapter stores its directory and starts without a client |
| SaveMetadata.MetadataAdapter.InitializeLlm | adapter/save_metadata_adapter.py:36-59 | the client is the cached one, else a dispatch on this call's config, cached on success |
| SaveMetadata.MetadataAdapter.SummarisePairs | adapter/save_metadata_adapter.py:78-125 | the three calls in order (name, overall, latest); the first failed call is raised, otherwise the record of the stripped texts |
| SaveMetadata.MetadataAdapter.GenerateMetadata | adapter/save_metadata_adapter.py:61-129 | a client error or failed call propagates; otherwise the three calls (name from the last 5 pairs, overall summary from the first 10, latest from the last 3) give the stripped texts of the record |
| SaveMetadata.GeneratedTextsStripped | adapter/save_metadata_adapter.py:91-118 | every stored text is already stripped |
| SaveMetadata.PairCount | adapter/save_metadata_adapter.py:70-76 | the pair count is half the messages after the welcome, rounded down |
| SaveMetadata.PairsFollowTheLog | adapter/save_metadata_adapter.py:70-76 | pair i is message 2i+1's content and message 2i+2's |
| SaveMetadata.NoScenesFormatEmpty | adapter/save_metadata_adapter.py:131-141 | no pairs format as the empty string |
| SaveMetadata.JoinFour | adapter/save_metadata_adapter.py:141 | joining four lines puts the separator between each |
| SaveMetadata.OneSceneFormat | adapter/save_metadata_adapter.py:131-141 | one pair formats as its numbered action and scene lines and an empty line |
| SaveMetadata.MetadataPathReplacesExtension | adapter/save_metadata_adapter.py:167-170 | "dir/name.ext" becomes "dir/name_metadata.json" |
| SaveMetadata.MetadataPathAppends | adapter/save_metadata_adapter.py:167-170 | without a dot the suffix is appended |
| Resources.ResourceManager.constructor | resource_manager.py:6-8 | a new object starts with no resources and English |
| Resources.ResourceManager.LoadResources | resource_manager.py:19-26 | a missing file raises FileNotFoundError; otherwise the table and the language are set |
| Resources.ResourceManager.Init | resource_manager.py:15-17 | the file is read only while the table is empty; after that nothing changes |
| Resources.ResourceManager.GetText | resource_manager.py:28-49 | a failed lookup is the KeyError naming the key |
| Resources.ResourceManager.SetLanguage | resource_manager.py:51-55 | accepted exactly for a language of the table, which becomes current; otherwise a ValueError and the language is kept |
| Resources.ResourceManager.GetTextFailsIff | resource_manager.py:28-49 | a lookup fails exactly when no default is given and neither the current language nor English has the key |
| Resources.ResourceManager.GetTextSource | resource_manager.py:28-49 | a found text comes from the current language, else English, else it is the default |
| Resources.ResourceManager.DefaultOnlyAsLastResort | resource_manager.py:28-49 | once the key is found, every default gives the same answer |
| Resources.Registry.constructor | resource_manager.py:6-8 | no instance at first |
| Resources.Registry.New | resource_manager.py:10-13 | the first call creates the instance, later calls return it |
| Resources.Obtain | resource_manager.py:10-17 | the shared instance is returned (created fresh on the first call); the file is loaded, in English, whenever the shared table is still empty, a missing file raising FileNotFoundError; a loaded table and its language are kept |
| Abstractions.Node.constructor | abstractions.py:2-8 | a node has its fields, metadata defaulting to empty, and no children |
| Abstractions.NewEdge | abstractions.py:10-15 | an edge has its endpoints and kind, metadata defaulting to empty |
| Abstractions.StoryGraph.constructor | abstractions.py:17-20 | a graph starts with no nodes and no edges |
| Abstractions.StoryGraph.AddNode | abstractions.py:22-23 | the node is stored under its id, replacing any earlier one; edges unchanged; nodes stay keyed by id |
| Abstractions.StoryGraph.AddEdge | abstractions.py:25-27 | the edge is appended first; the source then gains the target as a child, or a KeyError is raised with the edge already recorded; no other node changes |
| Abstractions.AddEdgeNotAtomic | abstractions.py:25-27 | concretely, a second edge from an unknown node raises but stays in the edge list |
| Abstractions.HandleInteraction | abstractions.py:80-85 | succeeds exactly for "choice", "free_text" and "numerical"; otherwise a ValueError |
| Abstractions.HandlersDistinct | abstractions.py:73-85 | each known type reaches its own handler, and the context plays no part in the choice |
| Abstractions.UnknownTypeMessage | abstractions.py:85 | an unknown type's error reads "Unknown interaction type: " followed by the type |
| Ui.GroupByProvider | ui.py:42-49 | the keys are the providers in order of first appearance, each mapped to its models' options in order |
| Ui.DisplayNameShape | ui.py:48 | a label is the bare name exactly when the size is "N/A", and always starts with the name |
| Ui.ProvidersDistinct | ui.py:42-47 | the keys are distinct and are exactly the providers that occur |
| Ui.ProvidersSnoc | ui.py:42-47 | one more model adds its provider as a key only if it is not one already |
| Ui.GroupSnoc | ui.py:42-49 | one more model extends its own provider's options by its option and leaves every other provider's alone |
| Ui.UnseenProviderHasNoGroup | ui.py:46-47 | a provider that is not a key has nothing grouped under it |
| Ui.GroupLength | ui.py:42-49 | a group is as long as the number of that provider's models |
| Ui.GroupPosition | ui.py:42-49 | every model sits in its own provider's group, at the position of that provider's models before it |
| Ui.GroupAppend | ui.py:42-49 | grouping a concatenation concatenates the groups |
| Ui.GroupUniform | ui.py:42-49 | a block of one provider's models is grouped whole under it and nowhere else |
| Ui.ProvidersUniformSuffix | ui.py:42-47 | appending one provider's block adds that key once, unless it is already there |
| Ui.ThreeBlockProviders | ui.py:4-47 | three blocks of distinct providers give three keys in block order |
| Ui.ThreeBlockGroup | ui.py:4-49 | a block owner's group is as long as its block |
| Ui.AvailableGrouping | ui.py:4-49 | the selector's keys are ollama, openai, anthropic, with 14, 2 and 4 models |
| Ui.BlocksUniform | ui.py:4-30 | each commented block of the model list names a single provider |
| Ui.PolicyGradientFallsBack | ui.py:33-40 | every offered workflow type but "policy-gradient-actor-critic" is a key of the adapter's table; that one runs plan-adapt |

## Left out

- The LLM itself: replies are an uninterpreted oracle. Prompt wording is reduced to a datatype naming the template and its arguments, and temperature settings are not modelled.
- Retry policies, timeouts, `asyncio`, logging and workflow verbosity: each step runs once and its first failure ends the run.
- The run context's key-value store is a parameter. Steps that read back what an earlier step stored receive it directly, and the un-awaited `ctx.get` in the timescale update step is modelled as an ordinary read.
- Narrative.Dispatch: in `Config`, an absent key and a key set to `None` are both `None`. So `{"provider": None}` dispatches to ollama in the model, while `config.get("provider", "ollama")` returns `None` in the source and raises "Unsupported provider: None". Likewise `{"model": None}` takes the default model in the model.
- SaveMetadata.NewMetadataAdapter: the `os.makedirs(save_dir)` call for a missing directory, and the OSError it can raise, are not modelled. Only the TypeError of a `save_dir` that is not a path is modelled.
- Timescales.GenerateTimescaleNarrative: `run_workflow` passes its start event to `self.run` positionally (engine/timescales_aware_actor_critic_workflow.py:442); the model assumes the framework's `Workflow.run` takes it as the start event, and does not model the framework's argument binding.
- process_user_action_step (engine/timescales_aware_actor_critic_workflow.py:278-301): no run reaches it, because the short-term step always stops first; it is not modelled.
- Persistence: `save_state`, `load_state`, `list_saves`, `rollback_to_state` and the Mongo client; `save_metadata`, `load_metadata` file I/O and `format_save_display`. Only the record's dictionary round trip and the metadata path are modelled.
- `load_resources` JSON parsing: the parsed `resources.json` is a parameter. A malformed file is not modelled.
- Timestamps from `datetime.now()` are parameters.
- `StoryState.to_dict` and `current_save_id` serve persistence only.
- Python falsiness of `None` versus the empty string: absent inputs are modelled as "".
- Errors raised by `str.format` on malformed prompt templates are not modelled; a missing template key is the KeyError of `get_text`.
- Resources.ResourceManager.GetText: the KeyError message approximates Python's `repr` quoting of the key.
- Abstractions.StoryGraph.AddNode: node ids are strings, where Python accepts any hashable value.
- Abstractions.HandleInteraction: the handlers return `None`; the model returns which handler ran.
- Resources.ResourceManager.AvailableLanguages: a set, without the table's key order.
- The rest of abstractions.py (`GameState`, `StoryGenerator`, `StoryManager`, `Game`, `main`): stubs with no behaviour to model.
- The Shiny layout and server of ui.py after the selector tables.
- Concurrent runs sharing a class-level LLM cache: the model is sequential.
- garden.py, local_garden.py, app.py, app_utils.py and run.py: entry points and I/O glue, not part of this model.
