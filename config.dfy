/** LLM client-name resolution of rag/config.py: the `LLM_CLIENTS` table
    and the name normalisation, validation and model selection done by
    `LLMConfig.__init__`. The OpenAI client object itself is not modelled;
    the arguments it would be constructed with are kept, and whether
    building it and listing its models fails is an input. */
module Config {
  import opened Wrappers
  import opened PyText

  /** One row of `LLM_CLIENTS`. */
  datatype ClientEntry = ClientEntry(baseUrl: string, apiKey: Option<string>, model: string)

  const DefaultClientName := "ollama"

  /** `LLM_CLIENTS`; the OpenAI key is whatever `OPENAI_API_KEY` holds in the
      environment, `None` when unset. */
  function LlmClients(openaiApiKey: Option<string>): (table: map<string, ClientEntry>)
    ensures table.Keys == {"ollama", "openai"}
    ensures table["openai"].apiKey == openaiApiKey
  {
    map[
      "ollama" := ClientEntry("http://localhost:11434/v1", Some("ollama"), "llama3.2:3b-instruct-fp16"),
      "openai" := ClientEntry("https://api.openai.com/v1", openaiApiKey, "gpt-4o-mini")
    ]
  }

  /** `client_name.lower().strip()`. */
  function Normalise(name: string): string {
    Strip(Lower(name))
  }

  /** The message of the `ValueError` for an unsupported client. */
  function UnsupportedMessage(name: string): string {
    "Unsupported LLM client: " + name + ". Supported clients are: ['ollama', 'openai']"
  }

  /** The validation in `LLMConfig.__init__`: the normalised name and its
      table row, or the `ValueError` for a name outside the table. */
  function Resolve(name: string, openaiApiKey: Option<string>): (r: Result<(string, ClientEntry)>)
    ensures r.Ok? <==> Normalise(name) == "ollama" || Normalise(name) == "openai"
    ensures r.Ok? ==> r.value.0 == Normalise(name) && r.value.1 == LlmClients(openaiApiKey)[Normalise(name)]
    ensures r.Err? ==> r.error == ValueError(UnsupportedMessage(Normalise(name)))
  {
    var normalised := Normalise(name);
    var table := LlmClients(openaiApiKey);
    if normalised !in table then Err(ValueError(UnsupportedMessage(normalised)))
    else Ok((normalised, table[normalised]))
  }

  /** Normalising twice is normalising once. */
  lemma NormaliseIdempotent(name: string)
    ensures Normalise(Normalise(name)) == Normalise(name)
  {
    var lowered := Lower(name);
    LowerIsLowered(name);
    StripKeepsLowered(lowered);
    LowerOfLowered(Strip(lowered));
    StripIdempotent(lowered);
  }

  /** The stored client name resolves to the same table row again. */
  lemma ResolveStable(name: string, openaiApiKey: Option<string>)
    requires Resolve(name, openaiApiKey).Ok?
    ensures Resolve(Resolve(name, openaiApiKey).value.0, openaiApiKey) == Resolve(name, openaiApiKey)
  {
    NormaliseIdempotent(name);
  }

  /** A name that is already normalised is its own normal form. */
  lemma NormalisedLiteral(name: string)
    requires IsLowered(name)
    requires |name| == 0 || (!IsSpace(name[0]) && !IsSpace(name[|name| - 1]))
    ensures Normalise(name) == name
  {
    LowerOfLowered(name);
    StripTrimmed(name);
  }

  /** The default `"ollama"` selects `llama3.2:3b-instruct-fp16` at the local server. */
  lemma OllamaRow(openaiApiKey: Option<string>)
    ensures Resolve(DefaultClientName, openaiApiKey)
         == Ok(("ollama", ClientEntry("http://localhost:11434/v1", Some("ollama"), "llama3.2:3b-instruct-fp16")))
  {
    NormalisedLiteral("ollama");
  }

  /** `"openai"` selects `gpt-4o-mini` at api.openai.com, with the environment's key. */
  lemma OpenAiRow(openaiApiKey: Option<string>)
    ensures Resolve("openai", openaiApiKey)
         == Ok(("openai", ClientEntry("https://api.openai.com/v1", openaiApiKey, "gpt-4o-mini")))
  {
    NormalisedLiteral("openai");
  }

  /** `"random"` is not a supported client. */
  lemma RandomRejected(openaiApiKey: Option<string>)
    ensures Resolve("random", openaiApiKey) == Err(ValueError(UnsupportedMessage("random")))
  {
    NormalisedLiteral("random");
  }

  /** The configuration `LLMConfig.__init__` leaves behind. */
  class LLMConfig {
    var clientName: string
    var model: string
    /** The `base_url` and `api_key` handed to the OpenAI client. */
    var baseUrl: string
    var apiKey: Option<string>

    /** The fields agree with the table row of the stored name. */
    ghost predicate Valid(openaiApiKey: Option<string>)
      reads this
    {
      && clientName in LlmClients(openaiApiKey)
      && var entry := LlmClients(openaiApiKey)[clientName];
         model == entry.model && baseUrl == entry.baseUrl && apiKey == entry.apiKey
    }

    constructor FromEntry(clientName: string, entry: ClientEntry)
      ensures this.clientName == clientName && model == entry.model
      ensures baseUrl == entry.baseUrl && apiKey == entry.apiKey
    {
      this.clientName := clientName;
      model := entry.model;
      baseUrl := entry.baseUrl;
      apiKey := entry.apiKey;
    }
  }

  /** `LLMConfig(client_name="ollama")`: normalise, validate, select, then
      build the OpenAI client for the row and list its models. `connect`
      stands for that client construction and `models.list()` call: `None`
      when both succeed, otherwise the exception raised, which `__init__`
      logs and raises again unchanged. */
  method NewLLMConfig(openaiApiKey: Option<string>, connect: (string, Option<string>) -> Option<Exception>,
                      clientName: string := DefaultClientName)
    returns (r: Result<LLMConfig>)
    ensures var resolved := Resolve(clientName, openaiApiKey);
            resolved.Err? ==> r == Err(resolved.error)
    ensures var resolved := Resolve(clientName, openaiApiKey);
            resolved.Ok? ==>
              var entry := resolved.value.1;
              var failure := connect(entry.baseUrl, entry.apiKey);
              (failure.Some? ==> r == Err(failure.value)) && (failure.None? <==> r.Ok?)
    ensures r.Ok? ==> fresh(r.value) && r.value.Valid(openaiApiKey)
    ensures r.Ok? ==> r.value.clientName == Normalise(clientName)
  {
    var normalised := Normalise(clientName);
    var table := LlmClients(openaiApiKey);
    if normalised !in table {
      return Err(ValueError(UnsupportedMessage(normalised)));
    }
    var config := new LLMConfig.FromEntry(normalised, table[normalised]);
    var failure := connect(table[normalised].baseUrl, table[normalised].apiKey);
    if failure.Some? {
      return Err(failure.value);
    }
    return Ok(config);
  }
}
