/**
 * The tables behind the interface's selectors: the models on offer, their
 * grouping by provider for the model selector, and the workflow types.
 */
module Ui {
  import opened PyText
  import opened Narrative
  import Adapter

  datatype ModelInfo = ModelInfo(name: string, provider: string, size: string)

  /** One option of the model selector: the value sent back, then the label shown. */
  type ModelChoice = (string, string)

  const OllamaModels: seq<ModelInfo> := [
    ModelInfo("mistral-nemo:12b", "ollama", "7.1 GB"),
    ModelInfo("aya-expanse:8b-q6_K", "ollama", "6.6 GB"),
    ModelInfo("technobyte/arliai-rpmax-12b-v1.1:q4_k_m", "ollama", "7.5 GB"),
    ModelInfo("michaelbui/nemomix-unleashed-12b:q4-k-m", "ollama", "7.5 GB"),
    ModelInfo("jean-luc/tiger-gemma-9b-v3:q6_K", "ollama", "7.6 GB"),
    ModelInfo("deepseek-coder-v2:16b-lite-base-q5_K_M", "ollama", "11 GB"),
    ModelInfo("qwen2.5:14b-instruct-q5_K_M", "ollama", "10 GB"),
    ModelInfo("mistral-small:latest", "ollama", "12 GB"),
    ModelInfo("bespoke-minicheck:latest", "ollama", "4.7 GB"),
    ModelInfo("minicpm-v:8b-2.6-q8_0", "ollama", "9.1 GB"),
    ModelInfo("vanilj/gemma-2-ataraxy-9b:Q6_K", "ollama", "7.6 GB"),
    ModelInfo("llama3.2:3b-instruct-q8_0", "ollama", "3.4 GB"),
    ModelInfo("qwen2.5-coder:7b-instruct-q8_0", "ollama", "8.1 GB"),
    ModelInfo("qwen2-math:7b-instruct-q8_0", "ollama", "8.1 GB")]

  const OpenAiModels: seq<ModelInfo> := [
    ModelInfo("gpt-4o", "openai", "N/A"),
    ModelInfo("gpt-4o-mini", "openai", "N/A")]

  const AnthropicModels: seq<ModelInfo> := [
    ModelInfo("claude-3-5-sonnet-20241022", "anthropic", "N/A"),
    ModelInfo("claude-3-opus-20240229", "anthropic", "N/A"),
    ModelInfo("claude-3-sonnet-20240229", "anthropic", "N/A"),
    ModelInfo("claude-3-haiku-20240307", "anthropic", "N/A")]

  /** `AVAILABLE_MODELS`, in its three commented blocks. */
  const AvailableModels: seq<ModelInfo> := OllamaModels + OpenAiModels + AnthropicModels

  /** `WORKFLOW_TYPES`: the value of each option, then its label. */
  const WorkflowChoices: seq<(string, string)> := [
    ("plan-adapt", "Plan & Adapt - Classic planning with adaptation"),
    ("actor-critic", "Actor-Critic - Policy-based narrative generation"),
    ("policy-gradient-actor-critic", "Policy Gradient A2C - Gradient update, Policy-based narrative generation"),
    ("dimensional-critic", "Dimensional Critic - Multi-dimensional narrative analysis"),
    ("selective-critic", "Selective Critic - Context-aware actor selection"),
    ("optimizing-critic", "Optimizing Critic - Direct narrative optimization")]

  const NoSize := "N/A"

  /** The label of a model: its size in parentheses, unless the size is unknown. */
  function DisplayName(m: ModelInfo): string {
    if m.size != NoSize then m.name + " (" + m.size + ")" else m.name
  }

  function Choice(m: ModelInfo): ModelChoice {
    (m.name, DisplayName(m))
  }

  // ---------------------------------------------------------------------
  // The grouping, as functions of the models seen so far

  /** The distinct providers in order of first appearance. */
  function Providers(ms: seq<ModelInfo>): seq<string> {
    if ms == [] then []
    else
      var seen := Providers(ms[..|ms| - 1]);
      var p := ms[|ms| - 1].provider;
      if p in seen then seen else seen + [p]
  }

  /** The options listed under `provider`, in the order of the models. */
  function Group(ms: seq<ModelInfo>, provider: string): seq<ModelChoice> {
    if ms == [] then []
    else
      var g := Group(ms[..|ms| - 1], provider);
      var m := ms[|ms| - 1];
      if m.provider == provider then g + [Choice(m)] else g
  }

  /** Every model of `ms` names provider `q`. */
  predicate AllOf(ms: seq<ModelInfo>, q: string) {
    forall i :: 0 <= i < |ms| ==> ms[i].provider == q
  }

  /** How many models name `provider`. */
  function CountOf(ms: seq<ModelInfo>, provider: string): nat {
    if ms == [] then 0
    else CountOf(ms[..|ms| - 1], provider) + (if ms[|ms| - 1].provider == provider then 1 else 0)
  }

  /**
   * The module-level loop that fills `MODELS_BY_PROVIDER`. The dictionary is
   * returned as its key order and its key-to-list map.
   */
  method GroupByProvider(models: seq<ModelInfo>) returns (order: seq<string>, groups: map<string, seq<ModelChoice>>)
    ensures order == Providers(models)
    ensures forall p :: p in groups <==> p in order
    ensures forall p :: p in groups ==> groups[p] == Group(models, p)
  {
    order := [];
    groups := map[];
    var i := 0;
    while i < |models|
      invariant 0 <= i <= |models|
      invariant order == Providers(models[..i])
      invariant forall p :: p in groups <==> p in order
      invariant forall p :: p in groups ==> groups[p] == Group(models[..i], p)
    {
      var m := models[i];
      assert models[..i + 1] == models[..i] + [m];
      ProvidersSnoc(models[..i], m);
      forall p
        ensures Group(models[..i + 1], p) == if m.provider == p then Group(models[..i], p) + [Choice(m)] else Group(models[..i], p)
      {
        GroupSnoc(models[..i], m, p);
      }
      if m.provider !in groups {
        UnseenProviderHasNoGroup(models[..i], m.provider);
        groups := groups[m.provider := []];
        order := order + [m.provider];
      }
      groups := groups[m.provider := groups[m.provider] + [Choice(m)]];
      i := i + 1;
    }
    assert models[..i] == models;
  }

  /** Appending a model adds its provider unless it is already a key. */
  lemma ProvidersSnoc(ms: seq<ModelInfo>, m: ModelInfo)
    ensures Providers(ms + [m]) == if m.provider in Providers(ms) then Providers(ms) else Providers(ms) + [m.provider]
  {
    assert (ms + [m])[..|ms + [m]| - 1] == ms;
  }

  /** Appending a model extends its provider's group and no other. */
  lemma GroupSnoc(ms: seq<ModelInfo>, m: ModelInfo, provider: string)
    ensures Group(ms + [m], provider) == if m.provider == provider then Group(ms, provider) + [Choice(m)] else Group(ms, provider)
  {
    assert (ms + [m])[..|ms + [m]| - 1] == ms;
  }

  // ---------------------------------------------------------------------
  // Properties

  /** A label is the bare name exactly when the size is unknown; otherwise it starts with the name. */
  lemma DisplayNameShape(m: ModelInfo)
    ensures DisplayName(m) == m.name <==> m.size == NoSize
    ensures m.name <= DisplayName(m)
  {
    if m.size != NoSize {
      assert |DisplayName(m)| > |m.name|;
    }
  }

  /** The keys are exactly the providers that occur, each once. */
  lemma {:induction false} ProvidersDistinct(ms: seq<ModelInfo>)
    ensures forall i, j :: 0 <= i < j < |Providers(ms)| ==> Providers(ms)[i] != Providers(ms)[j]
    ensures forall p :: p in Providers(ms) <==> exists i :: 0 <= i < |ms| && ms[i].provider == p
  {
    if ms != [] {
      var init := ms[..|ms| - 1];
      ProvidersDistinct(init);
      forall p | p in Providers(ms)
        ensures exists i :: 0 <= i < |ms| && ms[i].provider == p
      {
        if p in Providers(init) {
          var i :| 0 <= i < |init| && init[i].provider == p;
          assert ms[i] == init[i];
        } else {
          assert ms[|ms| - 1].provider == p;
        }
      }
      forall p | exists i :: 0 <= i < |ms| && ms[i].provider == p
        ensures p in Providers(ms)
      {
        var i :| 0 <= i < |ms| && ms[i].provider == p;
        if i < |ms| - 1 {
          assert init[i] == ms[i];
        }
      }
    }
  }

  /** A provider that is not yet a key has nothing grouped under it. */
  lemma {:induction false} UnseenProviderHasNoGroup(ms: seq<ModelInfo>, provider: string)
    requires provider !in Providers(ms)
    ensures Group(ms, provider) == []
  {
    if ms != [] {
      UnseenProviderHasNoGroup(ms[..|ms| - 1], provider);
    }
  }

  /** A group is as long as the number of models of its provider. */
  lemma {:induction false} GroupLength(ms: seq<ModelInfo>, provider: string)
    ensures |Group(ms, provider)| == CountOf(ms, provider)
  {
    if ms != [] {
      GroupLength(ms[..|ms| - 1], provider);
    }
  }

  /**
   * Every model sits in its own provider's group, at the position given by
   * the models of that provider before it: each model once, in order.
   */
  lemma {:induction false} GroupPosition(ms: seq<ModelInfo>, i: nat)
    requires i < |ms|
    ensures var p := ms[i].provider;
      && CountOf(ms[..i], p) < |Group(ms, p)|
      && Group(ms, p)[CountOf(ms[..i], p)] == Choice(ms[i])
  {
    var p := ms[i].provider;
    var init := ms[..|ms| - 1];
    if i == |ms| - 1 {
      assert ms[..i] == init;
      GroupLength(init, p);
    } else {
      assert init[..i] == ms[..i];
      assert init[i] == ms[i];
      GroupPosition(init, i);
    }
  }

  /** Grouping a concatenation concatenates the groups. */
  lemma {:induction false} GroupAppend(a: seq<ModelInfo>, b: seq<ModelInfo>, provider: string)
    ensures Group(a + b, provider) == Group(a, provider) + Group(b, provider)
  {
    if b != [] {
      var binit := b[..|b| - 1];
      assert (a + b)[..|a + b| - 1] == a + binit;
      assert (a + b)[|a + b| - 1] == b[|b| - 1];
      GroupAppend(a, binit, provider);
    } else {
      assert a + b == a;
    }
  }

  /** A block of one provider's models is grouped whole under it and nowhere else. */
  lemma {:induction false} GroupUniform(ms: seq<ModelInfo>, q: string, provider: string)
    requires AllOf(ms, q)
    ensures provider == q ==> |Group(ms, provider)| == |ms|
    ensures provider != q ==> Group(ms, provider) == []
  {
    if ms != [] {
      GroupUniform(ms[..|ms| - 1], q, provider);
    }
  }

  /** Appending a block of one provider's models adds that provider once, unless it was already a key. */
  lemma {:induction false} ProvidersUniformSuffix(a: seq<ModelInfo>, b: seq<ModelInfo>, q: string)
    requires b != []
    requires AllOf(b, q)
    ensures Providers(a + b) == if q in Providers(a) then Providers(a) else Providers(a) + [q]
  {
    var binit := b[..|b| - 1];
    assert (a + b)[..|a + b| - 1] == a + binit;
    assert (a + b)[|a + b| - 1] == b[|b| - 1];
    if binit == [] {
      assert a + binit == a;
    } else {
      ProvidersUniformSuffix(a, binit, q);
    }
  }

  /** Three non-empty blocks of distinct providers give the three providers, in block order. */
  lemma ThreeBlockProviders(a: seq<ModelInfo>, b: seq<ModelInfo>, c: seq<ModelInfo>, qa: string, qb: string, qc: string)
    requires a != [] && b != [] && c != []
    requires AllOf(a, qa) && AllOf(b, qb) && AllOf(c, qc)
    requires qa != qb && qb != qc && qa != qc
    ensures Providers(a + b + c) == [qa, qb, qc]
  {
    assert Providers(a) == [qa] by {
      ProvidersUniformSuffix([], a, qa);
      assert [] + a == a;
    }
    var ab := a + b;
    assert Providers(ab) == [qa, qb] by {
      assert qb !in [qa];
      ProvidersUniformSuffix(a, b, qb);
      assert [qa] + [qb] == [qa, qb];
    }
    assert qc !in [qa, qb];
    ProvidersUniformSuffix(ab, c, qc);
    assert [qa, qb] + [qc] == [qa, qb, qc];
  }

  /** The group of a provider owning one of three blocks is as long as that block. */
  lemma ThreeBlockGroup(a: seq<ModelInfo>, b: seq<ModelInfo>, c: seq<ModelInfo>, qa: string, qb: string, qc: string, q: string)
    requires AllOf(a, qa) && AllOf(b, qb) && AllOf(c, qc)
    requires qa != qb && qb != qc && qa != qc
    requires q == qa || q == qb || q == qc
    ensures |Group(a + b + c, q)| == if q == qa then |a| else if q == qb then |b| else |c|
  {
    GroupAppend(a, b, q);
    GroupAppend(a + b, c, q);
    GroupUniform(a, qa, q);
    GroupUniform(b, qb, q);
    GroupUniform(c, qc, q);
  }

  /** The selector's keys are ollama, openai and anthropic, in that order, with 14, 2 and 4 models. */
  lemma AvailableGrouping()
    ensures Providers(AvailableModels) == ["ollama", "openai", "anthropic"]
    ensures |Group(AvailableModels, "ollama")| == 14
    ensures |Group(AvailableModels, "openai")| == 2
    ensures |Group(AvailableModels, "anthropic")| == 4
  {
    BlocksUniform();
    ThreeBlockProviders(OllamaModels, OpenAiModels, AnthropicModels, "ollama", "openai", "anthropic");
    ThreeBlockGroup(OllamaModels, OpenAiModels, AnthropicModels, "ollama", "openai", "anthropic", "ollama");
    ThreeBlockGroup(OllamaModels, OpenAiModels, AnthropicModels, "ollama", "openai", "anthropic", "openai");
    ThreeBlockGroup(OllamaModels, OpenAiModels, AnthropicModels, "ollama", "openai", "anthropic", "anthropic");
  }

  lemma BlocksUniform()
    ensures AllOf(OllamaModels, "ollama") && AllOf(OpenAiModels, "openai") && AllOf(AnthropicModels, "anthropic")
  {
  }

  /**
   * Every offered workflow type is a key of the adapter's table except
   * "policy-gradient-actor-critic", which falls back to the plan-adapt
   * workflow.
   */
  lemma PolicyGradientFallsBack(config: Config)
    ensures forall i :: 0 <= i < |WorkflowChoices| ==>
              (WorkflowChoices[i].0 in Adapter.WorkflowTypes <==> WorkflowChoices[i].0 != "policy-gradient-actor-critic")
    ensures Adapter.WorkflowClassFor(config.(workflowType := Some("policy-gradient-actor-critic")))
            == Adapter.NarrativeWorkflow
  {
  }
}
