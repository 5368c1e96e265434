/** `config.py`: the settings read from the environment, and the list of
    completion backends offered to the user. */
module Config {
  import opened Wrappers

  /** The environment variables the configuration reads with `os.getenv`;
      `None` when a variable is unset. */
  datatype Environment = Environment(
    openaiApiKey: Option<string>,
    anthropicApiKey: Option<string>,
    defaultModel: Option<string>)

  /** Python truthiness of an optional string: set and not empty. */
  predicate IsSet(v: Option<string>)
  {
    v.Some? && v.value != ""
  }

  /** One entry of `Config.get_available_models()`. */
  datatype ModelInfo = ModelInfo(id: string, name: string, enabled: bool, description: string)

  const OpenAiModel := ModelInfo("openai", "OpenAI GPT-4", true,
    "OpenAI's GPT-4 model, suitable for complex requirement analysis")
  const AnthropicModel := ModelInfo("anthropic", "Anthropic Claude", true,
    "Anthropic's Claude model, excellent at logical reasoning")
  const DemoModel := ModelInfo("demo", "Demo Mode", true,
    "Demo mode, no API key required")

  /** `Config.DEFAULT_MODEL`: the variable's value, "openai" when it is unset. */
  function DefaultModel(env: Environment): (r: string)
    ensures env.defaultModel.None? ==> r == "openai"
    ensures env.defaultModel.Some? ==> r == env.defaultModel.value
  {
    match env.defaultModel
    case None => "openai"
    case Some(v) => v
  }

  /** The list offers a backend with identifier `id`. */
  predicate Offers(models: seq<ModelInfo>, id: string)
  {
    exists i | 0 <= i < |models| :: models[i].id == id
  }

  /** The value of `Config.get_available_models()` for the given environment. */
  function AvailableModels(env: Environment): (r: seq<ModelInfo>)
    ensures Offers(r, "openai") <==> IsSet(env.openaiApiKey)
    ensures Offers(r, "anthropic") <==> IsSet(env.anthropicApiKey)
    ensures Offers(r, "demo") <==> !IsSet(env.openaiApiKey) && !IsSet(env.anthropicApiKey)
    ensures 1 <= |r| <= 2
    ensures Offers(r, "openai") ==> r[0].id == "openai"
    ensures Offers(r, "anthropic") ==> r[|r| - 1].id == "anthropic"
    ensures forall i :: 0 <= i < |r| ==> r[i].enabled
    ensures forall i :: 0 <= i < |r| ==> r[i].id == "openai" || r[i].id == "anthropic" || r[i].id == "demo"
    ensures forall i, j :: 0 <= i < j < |r| ==> r[i].id != r[j].id
  {
    var keyed := (if IsSet(env.openaiApiKey) then [OpenAiModel] else [])
      + (if IsSet(env.anthropicApiKey) then [AnthropicModel] else []);
    assert IsSet(env.openaiApiKey) ==> keyed[0] == OpenAiModel;
    assert IsSet(env.anthropicApiKey) ==> keyed[|keyed| - 1] == AnthropicModel;
    assert [DemoModel][0].id == "demo";
    if keyed == [] then [DemoModel] else keyed
  }

  /** `Config.get_available_models`: builds the list by conditional appends. */
  method GetAvailableModels(env: Environment) returns (models: seq<ModelInfo>)
    ensures models == AvailableModels(env)
  {
    models := [];
    if IsSet(env.openaiApiKey) {
      models := models + [OpenAiModel];
    }
    if IsSet(env.anthropicApiKey) {
      models := models + [AnthropicModel];
    }
    if models == [] {
      models := models + [DemoModel];
    }
  }
}
