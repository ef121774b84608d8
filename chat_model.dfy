/** The chat service: the table of selectable models, the `Chat` object that forwards a
    prompt to the supervisor agent and turns its final text into a reply, switches the
    agent's model and registers provider keys, and the module-global single instance of it. */
module ChatModel {
  import opened Common
  import opened Exceptions
  import opened AppSettings
  import opened BaseAgent
  import opened JsonOutput
  import opened ReplyCoercion
  import ExceptionHandler

  /** `MODELS`: the selectable models and the provider serving each. */
  const Models: map<string, string> := map[
    "qwen/qwen3-32b" := Groq,
    "llama-3.1-8b-instant" := Groq,
    "llama-3.3-70b-versatile" := Groq,
    "openai/gpt-oss-20b" := Groq,
    "openai/gpt-oss-120b" := Groq,
    "gemini-2.5-flash" := Google,
    "gemini-2.5-pro" := Google
  ]

  const WrongModelMsg := "Wrong model name received, try again with a valid model."
  const ChatHistoryKey := "chat_history"
  /** What `MODELS.GET(...)` raises: a `dict` has no attribute `GET`. */
  const NoGetAttribute := "'dict' object has no attribute 'GET'"
  const SupervisorTools := ["get_current_datetime", "use_data_analyst", "use_data_engineer"]

  /** `ApiKeyInput` */
  datatype ApiKeyInput = ApiKeyInput(apiKey: string, modelName: string)

  function UpperChar(c: char): char
  {
    if 'a' <= c <= 'z' then (c as int - 'a' as int + 'A' as int) as char else c
  }

  function LowerChar(c: char): char
  {
    if 'A' <= c <= 'Z' then (c as int - 'A' as int + 'a' as int) as char else c
  }

  /** `str.upper()` over ASCII letters. */
  function Upper(s: string): string
  {
    seq(|s|, i requires 0 <= i < |s| => UpperChar(s[i]))
  }

  /** `str.capitalize()` over ASCII letters: the first letter upper-case, the rest lower. */
  function Capitalize(s: string): string
  {
    if s == [] then [] else [UpperChar(s[0])] + seq(|s| - 1, i requires 0 <= i < |s| - 1 => LowerChar(s[i + 1]))
  }

  function ModelChangedDetail(name: string, provider: string): string
  {
    "Model changed to " + name + " by " + Upper(provider)
  }

  function KeyRegisteredDetail(provider: string): string
  {
    "API key registered successfully for the " + Capitalize(provider) + " models"
  }

  /** Every selectable model is served by one of the two providers the agent can bind, so
      the `not provider` test rejects exactly the names outside the table. */
  lemma ModelsUseKnownProviders(name: string)
    requires name in Models
    ensures Models[name] == Google || Models[name] == Groq
    ensures Models[name] != ""
  {
  }

  /** The key the settings hold for a provider. */
  function ProviderKey(settings: Settings, provider: string): Option<string>
    reads settings
  {
    if provider == Google then settings.geminiApiKey else settings.groqApiKey
  }

  /** The executor a model switch leaves behind: built over the new model with the agent's
      own tools and prompt, a memory that did not exist before, and the usual cap. */
  predicate RebuiltAround(agent: Agent, l: Llm)
    reads agent
  {
    && agent.llm == Some(l)
    && agent.executor.Some?
    && agent.executor.value.llm == l
    && agent.executor.value.tools == agent.ownTools
    && agent.executor.value.prompt == agent.prompt
    && agent.executor.value.maxIterations == MaxIterations
    && agent.executor.value.memory.Some?
  }

  class Chat {
    const agent: Agent

    constructor(agent: Agent)
      ensures this.agent == agent
    {
      this.agent := agent;
    }

    /** `send_prompt`: the agent's failure is passed on; its final text becomes the reply
        through the coercion as written (see `ReplyCoercion.Reply`). */
    method SendPrompt(input: string, invoke: (Executor, string) -> Result<string, Raised>)
      returns (r: Result<JSONOutput, Raised>)
      ensures agent.executor.None? ==> r == Err(App(Make(ExecutorNotFound, None)))
      ensures agent.executor.Some? && invoke(agent.executor.value, input).Err? ==>
        r == Err(invoke(agent.executor.value, input).error)
      ensures agent.executor.Some? && invoke(agent.executor.value, input).Ok? ==>
        r == Ok(Reply(invoke(agent.executor.value, input).value))
    {
      var output := agent.Run(input, invoke);
      match output
      case Err(e) =>
        r := Err(e);
      case Ok(text) =>
        r := Ok(Reply(text));
    }

    /** `send_prompt` as evidently intended: the same, with a coercion that removes only a
        leading `json` tag (see `ReplyCoercion.ReplyIntended`), so an envelope the agent
        writes comes back intact. */
    method SendPromptIntended(input: string, invoke: (Executor, string) -> Result<string, Raised>)
      returns (r: Result<JSONOutput, Raised>)
      ensures agent.executor.None? ==> r == Err(App(Make(ExecutorNotFound, None)))
      ensures agent.executor.Some? && invoke(agent.executor.value, input).Err? ==>
        r == Err(invoke(agent.executor.value, input).error)
      ensures agent.executor.Some? && invoke(agent.executor.value, input).Ok? ==>
        r == Ok(ReplyIntended(invoke(agent.executor.value, input).value))
    {
      var output := agent.Run(input, invoke);
      match output
      case Err(e) =>
        r := Err(e);
      case Ok(text) =>
        r := Ok(ReplyIntended(text));
    }

    /** `change_model`: an unknown name, or a provider without a key, raises and leaves the
        agent's model and executor as they were. Otherwise the named model is bound at
        temperature 0 and the executor is rebuilt with a new memory: the conversation so
        far is not carried over. */
    method ChangeModel(name: string) returns (r: Result<string, Raised>)
      modifies agent
      ensures name !in Models ==>
        r == Err(App(Make(ModelNotFound, Some(WrongModelMsg)))) &&
        agent.llm == old(agent.llm) && agent.ModelInfo() == old(agent.ModelInfo()) &&
        agent.executor == old(agent.executor)
      ensures name in Models && Models[name] == Google && !Present(agent.settings.geminiApiKey) ==>
        r == Err(App(Make(APIKeyNotFound, Some(GeminiKeyMissing)))) &&
        agent.llm == old(agent.llm) && agent.ModelInfo() == old(agent.ModelInfo()) &&
        agent.executor == old(agent.executor)
      ensures name in Models && Models[name] == Groq && !Present(agent.settings.groqApiKey) ==>
        r == Err(App(Make(APIKeyNotFound, Some(GroqKeyMissing)))) &&
        agent.llm == old(agent.llm) && agent.ModelInfo() == old(agent.ModelInfo()) &&
        agent.executor == old(agent.executor)
      ensures r.Ok? ==>
        name in Models && r.value == ModelChangedDetail(name, Models[name]) &&
        agent.ModelInfo() == Ok((name, Models[name])) &&
        Present(ProviderKey(agent.settings, Models[name])) &&
        RebuiltAround(agent, Llm(Models[name], name, ProviderKey(agent.settings, Models[name]).value, Some(0))) &&
        fresh(agent.executor.value.memory.value) &&
        (old(agent.executor).Some? ==> agent.executor.value.memory != old(agent.executor).value.memory)
      ensures name in Models && Models[name] == Google && Present(agent.settings.geminiApiKey) ==> r.Ok?
      ensures name in Models && Models[name] == Groq && Present(agent.settings.groqApiKey) ==> r.Ok?
    {
      if name !in Models {
        return Err(App(Make(ModelNotFound, Some(WrongModelMsg))));
      }
      var provider := Models[name];
      ModelsUseKnownProviders(name);
      var bound;
      if provider == Google {
        bound := agent.InitGemini(name, Some(0));
      } else {
        bound := agent.InitGroq(name, Some(0));
      }
      if bound.Fail? {
        return Err(bound.error);
      }
      var built := agent.InitializeAgent(agent.ownTools, Some(agent.prompt), None, Some(ChatHistoryKey));
      r := Ok(ModelChangedDetail(name, provider));
    }

    /** `update_api_key` as written: `MODELS.GET` is not a method of a `dict`, so every call
        raises AttributeError before any key is looked at, and no setting changes. */
    method UpdateApiKey(input: ApiKeyInput) returns (r: Result<string, Raised>)
      ensures r == Err(AttributeError(NoGetAttribute))
    {
      r := Err(AttributeError(NoGetAttribute));
    }

    /** `update_api_key` as evidently intended (`MODELS.get`): the key of the named model's
        provider is replaced and the other provider's key is untouched; an unknown name
        raises ModelNotFoundException and changes nothing. */
    method UpdateApiKeyIntended(input: ApiKeyInput) returns (r: Result<string, Raised>)
      modifies agent.settings
      ensures input.modelName !in Models ==>
        r == Err(App(Make(ModelNotFound, Some(WrongModelMsg)))) &&
        agent.settings.geminiApiKey == old(agent.settings.geminiApiKey) &&
        agent.settings.groqApiKey == old(agent.settings.groqApiKey)
      ensures input.modelName in Models && Models[input.modelName] == Google ==>
        r == Ok(KeyRegisteredDetail(Google)) &&
        agent.settings.geminiApiKey == Some(input.apiKey) &&
        agent.settings.groqApiKey == old(agent.settings.groqApiKey)
      ensures input.modelName in Models && Models[input.modelName] == Groq ==>
        r == Ok(KeyRegisteredDetail(Groq)) &&
        agent.settings.groqApiKey == Some(input.apiKey) &&
        agent.settings.geminiApiKey == old(agent.settings.geminiApiKey)
    {
      if input.modelName !in Models {
        return Err(App(Make(ModelNotFound, Some(WrongModelMsg))));
      }
      var provider := Models[input.modelName];
      ModelsUseKnownProviders(input.modelName);
      if provider == Google {
        agent.settings.geminiApiKey := Some(input.apiKey);
      } else {
        agent.settings.groqApiKey := Some(input.apiKey);
      }
      r := Ok(KeyRegisteredDetail(provider));
    }
  }

  /** The error `update_api_key` raises as written is none the boundary handles: it escapes
      as a server error instead of a 400 answer. */
  lemma KeyUpdateErrorEscapes()
    ensures ExceptionHandler.Dispatch(ExceptionHandler.Threw(AttributeError(NoGetAttribute))) ==
      ExceptionHandler.Propagate(AttributeError(NoGetAttribute))
  {
  }

  /** A supervisor agent, once constructed: bound by the default rule, with the supervisor's
      three tools and prompt and a conversation memory. */
  predicate SupervisorReady(agent: Agent, settings: Settings)
    reads agent, settings
  {
    && agent.settings == settings
    && agent.ownTools == SupervisorTools
    && agent.prompt == SupervisorPrompt
    && agent.llm == DefaultBinding(settings.groqApiKey, settings.geminiApiKey)
    && agent.llm.Some?
    && agent.ModelInfo() == Ok((agent.llm.value.modelName, agent.llm.value.provider))
    && agent.executor.Some?
    && agent.executor.value.llm == agent.llm.value
    && agent.executor.value.tools == SupervisorTools
    && agent.executor.value.prompt == SupervisorPrompt
    && agent.executor.value.memory.Some?
    && agent.executor.value.maxIterations == MaxIterations
  }

  /** `SupervisorAgent()`: a base agent with the supervisor's tools and prompt, whose
      executor is built at once with the `chat_history` memory; without any key the build
      raises the class-default APIKeyNotFoundException. */
  method NewSupervisor(settings: Settings) returns (agent: Agent, r: Outcome<Raised>)
    ensures fresh(agent)
    ensures !Present(settings.groqApiKey) && !Present(settings.geminiApiKey) ==> r == Fail(App(Make(APIKeyNotFound, None)))
    ensures Present(settings.groqApiKey) || Present(settings.geminiApiKey) ==> r == Pass && SupervisorReady(agent, settings)
  {
    agent := new Agent(settings, None, SupervisorTools, SupervisorPrompt);
    r := agent.InitializeAgent(SupervisorTools, Some(SupervisorPrompt), None, Some(ChatHistoryKey));
  }

  /** The module-global `_chat_instance`. */
  class ChatService {
    const settings: Settings
    var instance: Option<Chat>

    constructor(settings: Settings)
      ensures this.settings == settings && instance.None?
    {
      this.settings := settings;
      instance := None;
    }

    /** `get_chat_service`: an existing instance is returned as it is unless a rebuild is
        forced, without looking at the keys. Building needs at least one key; without one
        the call raises and the previous instance, if any, stays. A built service's agent
        is bound by the default rule, whatever model was selected before. */
    method GetChatService(forceRecreate: bool := false) returns (r: Result<Chat, Raised>)
      modifies this
      ensures old(instance).Some? && !forceRecreate ==> r == Ok(old(instance).value) && instance == old(instance)
      ensures (old(instance).None? || forceRecreate) && !Present(settings.groqApiKey) && !Present(settings.geminiApiKey) ==>
        r == Err(App(Make(APIKeyNotFound, None))) && instance == old(instance)
      ensures (old(instance).None? || forceRecreate) && (Present(settings.groqApiKey) || Present(settings.geminiApiKey)) ==>
        r.Ok? && instance == Some(r.value) && fresh(r.value) && fresh(r.value.agent) &&
        SupervisorReady(r.value.agent, settings)
    {
      if instance.None? || forceRecreate {
        if Present(settings.geminiApiKey) || Present(settings.groqApiKey) {
          var agent, built := NewSupervisor(settings);
          var chat := new Chat(agent);
          instance := Some(chat);
        } else {
          return Err(App(Make(APIKeyNotFound, None)));
        }
      }
      r := Ok(instance.value);
    }
  }
}
