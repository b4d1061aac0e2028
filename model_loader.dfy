/**
 * Choosing the chat backend from the identifier picked in the sidebar and the API keys
 * found in the environment. The environment is read by the caller: each key arrives as
 * the value `os.getenv` would return (`None` when the variable is unset).
 */
module ModelLoader {
  import opened Wrappers

  /** The constructed chat clients, reduced to the settings they are built with. */
  datatype Client =
    | Anthropic(model: string, apiKey: string, temperature: real)
    | OpenAI(model: string, apiKey: string, temperature: real)
    | Ollama(model: string)

  /** The options offered by the sidebar radio button, the first being the default. */
  const SidebarOptions: seq<string> :=
    ["claude-3-sonnet-20240229", "claude-3-opus-20240229", "openai", "ollama"]

  /** Python truthiness of an environment lookup: unset and empty both count as missing. */
  predicate KeyPresent(key: Option<string>) {
    key.Some? && key.value != ""
  }

  /** `load_ai_model`: a `claude…` identifier needs the Anthropic key, `openai` needs the
      OpenAI key and always uses gpt-3.5-turbo, `ollama` needs no key and uses mistral;
      anything else is unsupported. */
  function LoadAiModel(modelName: string, anthropicKey: Option<string>, openaiKey: Option<string>)
    : (r: Option<Client>)
    ensures (r.Some? && r.value.Anthropic?) <==> "claude" <= modelName && KeyPresent(anthropicKey)
    ensures (r.Some? && r.value.OpenAI?) <==> modelName == "openai" && KeyPresent(openaiKey)
    ensures (r.Some? && r.value.Ollama?) <==> modelName == "ollama"
    ensures r.Some? && r.value.Anthropic? ==> r.value == Anthropic(modelName, anthropicKey.value, 0.3)
    ensures r.Some? && r.value.OpenAI? ==> r.value == OpenAI("gpt-3.5-turbo", openaiKey.value, 0.3)
    ensures r.Some? && r.value.Ollama? ==> r.value == Ollama("mistral")
  {
    if "claude" <= modelName then
      assert modelName[0] == 'c' && modelName != "openai" && modelName != "ollama";
      if KeyPresent(anthropicKey) then Some(Anthropic(modelName, anthropicKey.value, 0.3)) else None
    else if modelName == "openai" then
      if KeyPresent(openaiKey) then Some(OpenAI("gpt-3.5-turbo", openaiKey.value, 0.3)) else None
    else if modelName == "ollama" then
      Some(Ollama("mistral"))
    else
      None
  }

  /** No backend is produced exactly when the identifier is unsupported or its key is missing. */
  lemma UnavailableIff(modelName: string, anthropicKey: Option<string>, openaiKey: Option<string>)
    ensures LoadAiModel(modelName, anthropicKey, openaiKey).None? <==>
      (("claude" <= modelName && !KeyPresent(anthropicKey)) ||
       (modelName == "openai" && !KeyPresent(openaiKey)) ||
       (!("claude" <= modelName) && modelName != "openai" && modelName != "ollama"))
  {
  }

  /** Every sidebar option yields a backend once both keys are set; only `ollama` works without keys. */
  lemma SidebarOptionsLoad(anthropicKey: Option<string>, openaiKey: Option<string>)
    ensures KeyPresent(anthropicKey) && KeyPresent(openaiKey) ==>
      forall k :: 0 <= k < |SidebarOptions| ==> LoadAiModel(SidebarOptions[k], anthropicKey, openaiKey).Some?
    ensures forall k :: 0 <= k < |SidebarOptions| ==>
      (LoadAiModel(SidebarOptions[k], None, None).Some? <==> SidebarOptions[k] == "ollama")
  {
  }
}
