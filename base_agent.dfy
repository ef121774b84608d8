/** The agent every concrete agent inherits from: it binds a chat model from one of two
    providers, using that provider's key from the global settings, and wraps the model, a
    toolset, a prompt and an optional conversation memory into an executor. The model
    clients, the executor loop and the memory's contents are library code: a bound model is
    the value of its construction arguments, a memory is an object whose identity is all
    that matters, and invoking the executor is a parameter that may fail. */
module BaseAgent {
  import opened Common
  import opened Exceptions
  import opened AppSettings

  const Google := "google"
  const Groq := "groq"
  const DefaultGeminiModel := "gemini-1.5-pro"
  const DefaultGroqModel := "qwen/qwen3-32b"
  /** The model the default rule binds when only a Gemini key is set. */
  const FallbackGeminiModel := "gemini-2.5-flash"
  const GeminiKeyMissing := "Your Gemini API key is null, add an API key to the environment to proceed."
  const GroqKeyMissing := "Your Groq API key is null, add an API key to the environment to proceed."
  /** Every executor is capped at seven iterations. */
  const MaxIterations := 7

  /** A chat model client, as constructed: provider, model, key and temperature (None when
      the caller passed none). */
  datatype Llm = Llm(provider: string, modelName: string, apiKey: string, temperature: Option<int>)

  /** The prompt templates: the base agent's own and the supervisor's. */
  datatype Prompt = BasePrompt | SupervisorPrompt

  /** A `ConversationSummaryMemory` (or any memory a caller passes in). */
  class Memory {
    constructor()
    {
    }
  }

  /** An `AgentExecutor`: the model its agent calls, the tool names, the prompt, the memory
      and the iteration cap. */
  datatype Executor = Executor(llm: Llm, tools: seq<string>, prompt: Prompt, memory: Option<Memory>, maxIterations: int)

  /** The binding the default rule chooses: Groq's default model when a Groq key is set,
      else Gemini's fallback model when a Gemini key is set, else none. */
  function DefaultBinding(groqKey: Option<string>, geminiKey: Option<string>): (r: Option<Llm>)
    ensures r.Some? <==> Present(groqKey) || Present(geminiKey)
    ensures Present(groqKey) ==> r == Some(Llm(Groq, DefaultGroqModel, groqKey.value, Some(0)))
    ensures !Present(groqKey) && Present(geminiKey) ==> r == Some(Llm(Google, FallbackGeminiModel, geminiKey.value, Some(0)))
  {
    if Present(groqKey) then Some(Llm(Groq, DefaultGroqModel, groqKey.value, Some(0)))
    else if Present(geminiKey) then Some(Llm(Google, FallbackGeminiModel, geminiKey.value, Some(0)))
    else None
  }

  /** Python's truthiness of an optional memory key. */
  predicate Truthy(key: Option<string>)
  {
    key.Some? && key.value != ""
  }

  /** `tools or self.tools`: an absent or empty list falls back to the agent's own. */
  function ToolsOrOwn(tools: seq<string>, own: seq<string>): (r: seq<string>)
    ensures tools != [] ==> r == tools
    ensures tools == [] ==> r == own
  {
    if tools != [] then tools else own
  }

  class Agent {
    /** The global settings the keys are read from. */
    const settings: Settings
    /** The toolset of the concrete agent class (the `tools` property). */
    const ownTools: seq<string>
    /** The prompt template the concrete agent class sets up (`self.prompt`). */
    const prompt: Prompt
    /** `_llm` */
    var llm: Option<Llm>
    /** `model_name` and `provider`: attributes that only exist once a model was bound
        through one of the two `init_*_model` methods. */
    var modelName: Option<string>
    var provider: Option<string>
    /** `agent`, the executor. */
    var executor: Option<Executor>

    /** `BaseAgent.__init__(llm)`: nothing but the given model (if any) is set. */
    constructor(settings: Settings, llm: Option<Llm>, ownTools: seq<string>, prompt: Prompt)
      ensures this.settings == settings && this.ownTools == ownTools && this.prompt == prompt
      ensures this.llm == llm && modelName.None? && provider.None? && executor.None?
    {
      this.settings := settings;
      this.ownTools := ownTools;
      this.prompt := prompt;
      this.llm := llm;
      modelName := None;
      provider := None;
      executor := None;
    }

    /** `get_model_info`: reading attributes that were never set raises AttributeError. */
    function ModelInfo(): (r: Result<(string, string), Raised>)
      reads this
      ensures r.Ok? <==> modelName.Some? && provider.Some?
      ensures r.Ok? ==> r.value == (modelName.value, provider.value)
      ensures r.Err? ==> r.error.AttributeError?
    {
      if modelName.None? then Err(AttributeError("model_name"))
      else if provider.None? then Err(AttributeError("provider"))
      else Ok((modelName.value, provider.value))
    }

    /** `init_gemini_model`: without a Gemini key nothing changes and the call raises;
        otherwise a Gemini client for `name` is bound and recorded as the current model. */
    method InitGemini(name: string := DefaultGeminiModel, temperature: Option<int> := None) returns (r: Outcome<Raised>)
      modifies this
      ensures !Present(settings.geminiApiKey) ==>
        r == Fail(App(Make(APIKeyNotFound, Some(GeminiKeyMissing)))) &&
        llm == old(llm) && modelName == old(modelName) && provider == old(provider)
      ensures Present(settings.geminiApiKey) ==>
        r == Pass && llm == Some(Llm(Google, name, settings.geminiApiKey.value, temperature)) &&
        ModelInfo() == Ok((name, Google))
      ensures executor == old(executor)
    {
      if !Present(settings.geminiApiKey) {
        return Fail(App(Make(APIKeyNotFound, Some(GeminiKeyMissing))));
      }
      llm := Some(Llm(Google, name, settings.geminiApiKey.value, temperature));
      modelName, provider := Some(name), Some(Google);
      r := Pass;
    }

    /** `init_groq_model`, the same for Groq. */
    method InitGroq(name: string := DefaultGroqModel, temperature: Option<int> := None) returns (r: Outcome<Raised>)
      modifies this
      ensures !Present(settings.groqApiKey) ==>
        r == Fail(App(Make(APIKeyNotFound, Some(GroqKeyMissing)))) &&
        llm == old(llm) && modelName == old(modelName) && provider == old(provider)
      ensures Present(settings.groqApiKey) ==>
        r == Pass && llm == Some(Llm(Groq, name, settings.groqApiKey.value, temperature)) &&
        ModelInfo() == Ok((name, Groq))
      ensures executor == old(executor)
    {
      if !Present(settings.groqApiKey) {
        return Fail(App(Make(APIKeyNotFound, Some(GroqKeyMissing))));
      }
      llm := Some(Llm(Groq, name, settings.groqApiKey.value, temperature));
      modelName, provider := Some(name), Some(Groq);
      r := Pass;
    }

    /** `_init_default_llm`: binds what `DefaultBinding` chooses, at temperature 0, or raises
        the class-default APIKeyNotFoundException and changes nothing. */
    method InitDefaultLlm() returns (r: Outcome<Raised>)
      modifies this
      ensures var chosen := DefaultBinding(settings.groqApiKey, settings.geminiApiKey);
        && (chosen.None? ==>
              r == Fail(App(Make(APIKeyNotFound, None))) &&
              llm == old(llm) && modelName == old(modelName) && provider == old(provider))
        && (chosen.Some? ==>
              r == Pass && llm == chosen && ModelInfo() == Ok((chosen.value.modelName, chosen.value.provider)))
      ensures executor == old(executor)
    {
      if Present(settings.groqApiKey) {
        r := InitGroq(DefaultGroqModel, Some(0));
      } else if Present(settings.geminiApiKey) {
        r := InitGemini(FallbackGeminiModel, Some(0));
      } else {
        r := Fail(App(Make(APIKeyNotFound, None)));
      }
    }

    /** `initialize_agent`: binds the default model only when none is bound, then builds a
        new executor over the given or the agent's own tools and prompt. A truthy
        `memoryKey` gives the executor a new memory, whatever `memory` was passed; without
        it the passed memory is used. When no model can be bound nothing changes. */
    method InitializeAgent(tools: seq<string> := [], prompt: Option<Prompt> := None,
                           memory: Option<Memory> := None, memoryKey: Option<string> := None)
      returns (r: Outcome<Raised>)
      modifies this
      ensures old(llm).None? && DefaultBinding(settings.groqApiKey, settings.geminiApiKey).None? ==>
        r == Fail(App(Make(APIKeyNotFound, None))) &&
        llm == old(llm) && modelName == old(modelName) && provider == old(provider) && executor == old(executor)
      ensures old(llm).Some? ==> llm == old(llm) && modelName == old(modelName) && provider == old(provider)
      ensures old(llm).None? && DefaultBinding(settings.groqApiKey, settings.geminiApiKey).Some? ==>
        llm == DefaultBinding(settings.groqApiKey, settings.geminiApiKey) &&
        ModelInfo() == Ok((llm.value.modelName, llm.value.provider))
      ensures r.Pass? <==> old(llm).Some? || DefaultBinding(settings.groqApiKey, settings.geminiApiKey).Some?
      ensures r.Pass? ==>
        llm.Some? && executor.Some? &&
        executor.value.llm == llm.value &&
        executor.value.tools == ToolsOrOwn(tools, ownTools) &&
        executor.value.prompt == (if prompt.Some? then prompt.value else this.prompt) &&
        executor.value.maxIterations == MaxIterations
      ensures r.Pass? && Truthy(memoryKey) ==> executor.value.memory.Some? && fresh(executor.value.memory.value)
      ensures r.Pass? && !Truthy(memoryKey) ==> executor.value.memory == memory
    {
      if llm.None? {
        r := InitDefaultLlm();
        if r.Fail? {
          return;
        }
      }
      var own := ToolsOrOwn(tools, ownTools);
      var chosenPrompt := if prompt.Some? then prompt.value else this.prompt;
      var mem := memory;
      if Truthy(memoryKey) {
        var created := new Memory();
        mem := Some(created);
      }
      executor := Some(Executor(llm.value, own, chosenPrompt, mem, MaxIterations));
      r := Pass;
    }

    /** `run`: without an executor the call raises ExecutorNotFoundException; otherwise it is
        whatever the executor's invocation gives (its `output`, or what it raised). */
    method Run(input: string, invoke: (Executor, string) -> Result<string, Raised>) returns (r: Result<string, Raised>)
      ensures executor.None? ==> r == Err(App(Make(ExecutorNotFound, None)))
      ensures executor.Some? ==> r == invoke(executor.value, input)
    {
      if executor.None? {
        return Err(App(Make(ExecutorNotFound, None)));
      }
      r := invoke(executor.value, input);
    }
  }
}
