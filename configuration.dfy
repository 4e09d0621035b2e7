/**
 * The agent's `Configuration` model and the rule by which
 * `Configuration.from_runnable_config` resolves each of its fields from the
 * process environment, the `"configurable"` part of a runnable config and the
 * declared defaults.
 */
module AgentConfiguration {
  import opened Wrappers

  // ---------------------------------------------------------------------------
  // Values and fields
  // ---------------------------------------------------------------------------

  /**
   * A value that can reach the constructor. Environment variables are always
   * text. A configurable entry may be any Python object: `Null` stands for
   * `None`, and `Str` and `Int` stand for every other value, which the merge
   * compares only against `None` and passes on unchanged.
   */
  datatype Value = Null | Str(text: string) | Int(number: int)

  /** The two providers the `llm_provider` literal admits. */
  datatype Provider = Gemini | OpenAI

  /** The declared fields of `Configuration`, one constructor per field. */
  datatype Field =
    | LlmProvider
    | QueryGeneratorModel
    | ReflectionModel
    | AnswerModel
    | OpenaiApiBase
    | OpenaiApiKey
    | NumberOfInitialQueries
    | MaxResearchLoops

  /** The fields in declaration order, as `model_fields` lists them. */
  const AllFields: seq<Field> := [
    LlmProvider, QueryGeneratorModel, ReflectionModel, AnswerModel,
    OpenaiApiBase, OpenaiApiKey, NumberOfInitialQueries, MaxResearchLoops
  ]

  /** The Python attribute name of a field, the key looked up in `configurable`. */
  function Name(f: Field): string {
    match f
    case LlmProvider => "llm_provider"
    case QueryGeneratorModel => "query_generator_model"
    case ReflectionModel => "reflection_model"
    case AnswerModel => "answer_model"
    case OpenaiApiBase => "openai_api_base"
    case OpenaiApiKey => "openai_api_key"
    case NumberOfInitialQueries => "number_of_initial_queries"
    case MaxResearchLoops => "max_research_loops"
  }

  /** The declared default of a field. */
  function Default(f: Field): Value {
    match f
    case LlmProvider => Str("gemini")
    case QueryGeneratorModel => Str("gemini-2.0-flash")
    case ReflectionModel => Str("gemini-2.5-flash-preview-04-17")
    case AnswerModel => Str("gemini-2.5-pro-preview-05-06")
    case OpenaiApiBase => Null
    case OpenaiApiKey => Null
    case NumberOfInitialQueries => Int(3)
    case MaxResearchLoops => Int(2)
  }

  /** The field names in declaration order: the keys of `model_fields`. */
  function FieldNames(): seq<string> {
    seq(|AllFields|, i requires 0 <= i < |AllFields| => Name(AllFields[i]))
  }

  /** Every field is declared, so every field name is among the keys iterated. */
  lemma FieldListed(f: Field)
    ensures f in AllFields
    ensures Name(f) in FieldNames()
  {
    var i := match f
      case LlmProvider => 0
      case QueryGeneratorModel => 1
      case ReflectionModel => 2
      case AnswerModel => 3
      case OpenaiApiBase => 4
      case OpenaiApiKey => 5
      case NumberOfInitialQueries => 6
      case MaxResearchLoops => 7;
    assert AllFields[i] == f;
    assert FieldNames()[i] == Name(f);
  }

  /** The names are pairwise different, so a name identifies its field. */
  lemma NameInjective(f: Field, g: Field)
    requires Name(f) == Name(g)
    ensures f == g
  {
    // The names differ in length or in a character that is visible at a fixed index.
    match f
    case LlmProvider => assert Name(g)[0] == 'l';
    case QueryGeneratorModel => assert Name(g)[0] == 'q';
    case ReflectionModel => assert Name(g)[0] == 'r';
    case AnswerModel => assert Name(g)[0] == 'a';
    case OpenaiApiBase => assert |Name(g)| == 15 && Name(g)[12] == 'a';
    case OpenaiApiKey => assert |Name(g)| == 14;
    case NumberOfInitialQueries => assert Name(g)[0] == 'n';
    case MaxResearchLoops => assert Name(g)[0] == 'm';
  }

  // ---------------------------------------------------------------------------
  // Upper-casing of field names into environment variable names
  // ---------------------------------------------------------------------------

  /** Upper-cases one ASCII letter and leaves every other character alone. */
  function UpperChar(c: char): char {
    if 'a' <= c <= 'z' then (c as int - 'a' as int + 'A' as int) as char else c
  }

  /** `str.upper` on ASCII text, character by character. */
  function Upper(s: string): string {
    seq(|s|, i requires 0 <= i < |s| => UpperChar(s[i]))
  }

  /** Text with no ASCII capital letter, as every field name is. */
  predicate NoCapitals(s: string) {
    forall i :: 0 <= i < |s| ==> !('A' <= s[i] <= 'Z')
  }

  /** Upper-casing cannot merge two strings that have no capitals. */
  lemma UpperInjective(s: string, t: string)
    requires NoCapitals(s) && NoCapitals(t)
    requires Upper(s) == Upper(t)
    ensures s == t
  {
    assert |s| == |Upper(s)| == |Upper(t)| == |t|;
    forall i | 0 <= i < |s| ensures s[i] == t[i] {
      // UpperChar is one-to-one on characters that are not capitals.
      assert Upper(s)[i] == Upper(t)[i];
    }
  }

  /** The name of the environment variable that overrides a field. */
  function EnvVar(f: Field): string {
    Upper(Name(f))
  }

  lemma NamesHaveNoCapitals(f: Field)
    ensures NoCapitals(Name(f))
  {
  }

  /** Two fields never read the same environment variable. */
  lemma EnvVarInjective(f: Field, g: Field)
    requires EnvVar(f) == EnvVar(g)
    ensures f == g
  {
    NamesHaveNoCapitals(f);
    NamesHaveNoCapitals(g);
    UpperInjective(Name(f), Name(g));
    NameInjective(f, g);
  }

  /** The environment variables the provider settings are read from. */
  lemma ProviderEnvVars()
    ensures EnvVar(LlmProvider) == "LLM_PROVIDER"
    ensures EnvVar(OpenaiApiBase) == "OPENAI_API_BASE"
    ensures EnvVar(OpenaiApiKey) == "OPENAI_API_KEY"
  {
    assert Upper(Name(LlmProvider)) == "LLM_PROVIDER";
    assert Upper(Name(OpenaiApiBase)) == "OPENAI_API_BASE";
    assert Upper(Name(OpenaiApiKey)) == "OPENAI_API_KEY";
  }

  // ---------------------------------------------------------------------------
  // The constructed configuration
  // ---------------------------------------------------------------------------

  /** A validated `Configuration` instance. */
  datatype Configuration = Configuration(
    llmProvider: Provider,
    queryGeneratorModel: Value,
    reflectionModel: Value,
    answerModel: Value,
    openaiApiBase: Value,
    openaiApiKey: Value,
    numberOfInitialQueries: Value,
    maxResearchLoops: Value)

  /** The reason the constructor refuses its keyword arguments. */
  datatype ConfigError = InvalidProvider(given: Value)

  function ProviderName(p: Provider): string {
    match p
    case Gemini => "gemini"
    case OpenAI => "openai"
  }

  /** The values `Literal["gemini", "openai"]` admits. */
  predicate AllowedProvider(v: Value) {
    v == Str("gemini") || v == Str("openai")
  }

  /** Validation of the provider literal: exact text, nothing else. */
  function ParseProvider(v: Value): (r: Option<Provider>)
    ensures r.Some? <==> AllowedProvider(v)
    ensures r.Some? ==> Str(ProviderName(r.value)) == v
  {
    if v == Str("gemini") then Some(Gemini)
    else if v == Str("openai") then Some(OpenAI)
    else None
  }

  lemma ParseProviderName(p: Provider)
    ensures ParseProvider(Str(ProviderName(p))) == Some(p)
  {
  }

  /** The attribute of a configuration that a field names. */
  function Get(c: Configuration, f: Field): Value {
    match f
    case LlmProvider => Str(ProviderName(c.llmProvider))
    case QueryGeneratorModel => c.queryGeneratorModel
    case ReflectionModel => c.reflectionModel
    case AnswerModel => c.answerModel
    case OpenaiApiBase => c.openaiApiBase
    case OpenaiApiKey => c.openaiApiKey
    case NumberOfInitialQueries => c.numberOfInitialQueries
    case MaxResearchLoops => c.maxResearchLoops
  }

  /** A configuration is determined by what its fields read. */
  lemma GetDetermines(a: Configuration, b: Configuration)
    requires forall f :: Get(a, f) == Get(b, f)
    ensures a == b
  {
    assert Get(a, LlmProvider) == Get(b, LlmProvider);
    assert ProviderName(a.llmProvider) == ProviderName(b.llmProvider);
    assert Get(a, QueryGeneratorModel) == Get(b, QueryGeneratorModel);
    assert Get(a, ReflectionModel) == Get(b, ReflectionModel);
    assert Get(a, AnswerModel) == Get(b, AnswerModel);
    assert Get(a, OpenaiApiBase) == Get(b, OpenaiApiBase);
    assert Get(a, OpenaiApiKey) == Get(b, OpenaiApiKey);
    assert Get(a, NumberOfInitialQueries) == Get(b, NumberOfInitialQueries);
    assert Get(a, MaxResearchLoops) == Get(b, MaxResearchLoops);
  }

  /** The value a field receives from keyword arguments: the argument if given, else the default. */
  function Supplied(kwargs: map<string, Value>, f: Field): Value {
    if Name(f) in kwargs then kwargs[Name(f)] else Default(f)
  }

  /**
   * `Configuration(**kwargs)`: every field takes its keyword argument or its
   * default, keys that name no field are ignored, and a provider outside the
   * literal is refused.
   */
  function Construct(kwargs: map<string, Value>): (r: Result<Configuration, ConfigError>)
    ensures r.Ok? <==> AllowedProvider(Supplied(kwargs, LlmProvider))
    ensures r.Ok? ==> forall f :: Get(r.value, f) == Supplied(kwargs, f)
    ensures r.Err? ==> r.error == InvalidProvider(Supplied(kwargs, LlmProvider))
  {
    match ParseProvider(Supplied(kwargs, LlmProvider))
    case None => Err(InvalidProvider(Supplied(kwargs, LlmProvider)))
    case Some(p) =>
      Ok(Configuration(
        p,
        Supplied(kwargs, QueryGeneratorModel),
        Supplied(kwargs, ReflectionModel),
        Supplied(kwargs, AnswerModel),
        Supplied(kwargs, OpenaiApiBase),
        Supplied(kwargs, OpenaiApiKey),
        Supplied(kwargs, NumberOfInitialQueries),
        Supplied(kwargs, MaxResearchLoops)))
  }

  /** The configuration every field's default makes. */
  const DefaultConfiguration: Configuration := Configuration(
    Gemini,
    Str("gemini-2.0-flash"),
    Str("gemini-2.5-flash-preview-04-17"),
    Str("gemini-2.5-pro-preview-05-06"),
    Null,
    Null,
    Int(3),
    Int(2))

  // ---------------------------------------------------------------------------
  // from_runnable_config
  // ---------------------------------------------------------------------------

  /**
   * The part of a runnable config this code reads: its optional
   * `"configurable"` dictionary.
   */
  datatype RunnableConfig = RunnableConfig(configurable: Option<map<string, Value>>)

  /** The config's `configurable` dictionary, or the empty map when the config or that entry is missing. */
  function ConfigurableOf(config: Option<RunnableConfig>): map<string, Value> {
    match config
    case Some(RunnableConfig(Some(c))) => c
    case _ => map[]
  }

  /**
   * The raw value for one field name: the environment variable named by the
   * upper-cased name if it is set, else the configurable entry, else `None`.
   */
  function RawValue(env: map<string, string>, configurable: map<string, Value>, name: string): Value {
    if Upper(name) in env then Str(env[Upper(name)])
    else if name in configurable then configurable[name]
    else Null
  }

  /** The `raw_values` dictionary: one entry per declared field name. */
  function RawValues(env: map<string, string>, configurable: map<string, Value>): (raw: map<string, Value>)
    ensures forall f :: Name(f) in raw
    ensures forall k :: k in raw ==> k in FieldNames()
  {
    forall f ensures Name(f) in FieldNames() { FieldListed(f); }
    map name | name in FieldNames() :: RawValue(env, configurable, name)
  }

  /** The `values` dictionary: `raw` without its `None` entries. */
  function DropNone(raw: map<string, Value>): map<string, Value> {
    map k | k in raw && raw[k] != Null :: raw[k]
  }

  /**
   * The precedence a field's value follows, stated field by field: the
   * environment variable if it is set, else the configurable entry if it is
   * present and not `None`, else the declared default.
   */
  function Effective(env: map<string, string>, config: Option<RunnableConfig>, f: Field): Value {
    var c := ConfigurableOf(config);
    if EnvVar(f) in env then Str(env[EnvVar(f)])
    else if Name(f) in c && c[Name(f)] != Null then c[Name(f)]
    else Default(f)
  }

  /** The keyword arguments `from_runnable_config` hands to the constructor. */
  function Kwargs(env: map<string, string>, config: Option<RunnableConfig>): (kwargs: map<string, Value>)
    ensures forall k :: k in kwargs ==> k in FieldNames() && kwargs[k] != Null
    ensures forall f :: Supplied(kwargs, f) == Effective(env, config, f)
  {
    DropNone(RawValues(env, ConfigurableOf(config)))
  }

  /**
   * `Configuration.from_runnable_config(config)` with `os.environ` passed as
   * `env`: every field follows the precedence `Effective` states, and the
   * call fails exactly when the resolved provider is not an allowed one.
   */
  function FromRunnableConfig(env: map<string, string>, config: Option<RunnableConfig>): (r: Result<Configuration, ConfigError>)
    ensures r.Ok? <==> AllowedProvider(Effective(env, config, LlmProvider))
    ensures r.Ok? ==> forall f :: Get(r.value, f) == Effective(env, config, f)
    ensures r.Err? ==> r.error == InvalidProvider(Effective(env, config, LlmProvider))
  {
    Construct(Kwargs(env, config))
  }

  // ---------------------------------------------------------------------------
  // Properties of the resolution
  // ---------------------------------------------------------------------------

  /** Inputs that agree on every field's effective value give the same outcome. */
  lemma SameEffectiveSameOutcome(env1: map<string, string>, config1: Option<RunnableConfig>,
                                 env2: map<string, string>, config2: Option<RunnableConfig>)
    requires forall f :: Effective(env1, config1, f) == Effective(env2, config2, f)
    ensures FromRunnableConfig(env1, config1) == FromRunnableConfig(env2, config2)
  {
    var r1, r2 := FromRunnableConfig(env1, config1), FromRunnableConfig(env2, config2);
    assert Effective(env1, config1, LlmProvider) == Effective(env2, config2, LlmProvider);
    if r1.Ok? {
      assert forall f :: Get(r1.value, f) == Get(r2.value, f) by {
        forall f ensures Get(r1.value, f) == Get(r2.value, f) {
          assert Effective(env1, config1, f) == Effective(env2, config2, f);
        }
      }
      GetDetermines(r1.value, r2.value);
    }
  }

  /**
   * Only the declared names are read: two environments that agree on the
   * fields' variables and two configurables that agree on the field names
   * give the same outcome, whatever else they hold.
   */
  lemma OnlyFieldKeysRead(env1: map<string, string>, config1: Option<RunnableConfig>,
                          env2: map<string, string>, config2: Option<RunnableConfig>)
    requires forall f :: (EnvVar(f) in env1 <==> EnvVar(f) in env2)
    requires forall f :: EnvVar(f) in env1 ==> env1[EnvVar(f)] == env2[EnvVar(f)]
    requires forall f :: (Name(f) in ConfigurableOf(config1) <==> Name(f) in ConfigurableOf(config2))
    requires forall f :: Name(f) in ConfigurableOf(config1) ==>
               ConfigurableOf(config1)[Name(f)] == ConfigurableOf(config2)[Name(f)]
    ensures FromRunnableConfig(env1, config1) == FromRunnableConfig(env2, config2)
  {
    forall f ensures Effective(env1, config1, f) == Effective(env2, config2, f) {
    }
    SameEffectiveSameOutcome(env1, config1, env2, config2);
  }

  /** An environment variable that no field is named after changes nothing. */
  lemma UnrelatedEnvIgnored(env: map<string, string>, config: Option<RunnableConfig>, key: string, value: string)
    requires forall f :: key != EnvVar(f)
    ensures FromRunnableConfig(env[key := value], config) == FromRunnableConfig(env, config)
  {
    OnlyFieldKeysRead(env[key := value], config, env, config);
  }

  /** A configurable key that names no field changes nothing. */
  lemma UnrelatedConfigurableIgnored(env: map<string, string>, c: map<string, Value>, key: string, value: Value)
    requires forall f :: key != Name(f)
    ensures FromRunnableConfig(env, Some(RunnableConfig(Some(c[key := value]))))
         == FromRunnableConfig(env, Some(RunnableConfig(Some(c))))
  {
    OnlyFieldKeysRead(env, Some(RunnableConfig(Some(c[key := value]))), env, Some(RunnableConfig(Some(c))));
  }

  /** A set environment variable supplies its field, whatever the configurable holds for it. */
  lemma EnvironmentWins(env: map<string, string>, c: map<string, Value>, f: Field, v: Value)
    requires EnvVar(f) in env
    ensures FromRunnableConfig(env, Some(RunnableConfig(Some(c[Name(f) := v]))))
         == FromRunnableConfig(env, Some(RunnableConfig(Some(c))))
    ensures FromRunnableConfig(env, Some(RunnableConfig(Some(c)))).Ok? ==>
              Get(FromRunnableConfig(env, Some(RunnableConfig(Some(c)))).value, f) == Str(env[EnvVar(f)])
  {
    var c1, c2 := Some(RunnableConfig(Some(c[Name(f) := v]))), Some(RunnableConfig(Some(c)));
    forall g ensures Effective(env, c1, g) == Effective(env, c2, g) {
      if g != f && Name(g) == Name(f) {
        NameInjective(g, f);
      }
    }
    SameEffectiveSameOutcome(env, c1, env, c2);
  }

  /** Without its environment variable, a field takes the configurable entry when it is not `None`. */
  lemma ConfigurableWhenNoEnv(env: map<string, string>, c: map<string, Value>, f: Field)
    requires EnvVar(f) !in env
    requires Name(f) in c && c[Name(f)] != Null
    ensures FromRunnableConfig(env, Some(RunnableConfig(Some(c)))).Ok? ==>
              Get(FromRunnableConfig(env, Some(RunnableConfig(Some(c)))).value, f) == c[Name(f)]
  {
  }

  /** A configurable entry that is `None` counts as absent: the default fills it. */
  lemma NoneEntryIsAbsent(env: map<string, string>, c: map<string, Value>, f: Field)
    ensures FromRunnableConfig(env, Some(RunnableConfig(Some(c[Name(f) := Null]))))
         == FromRunnableConfig(env, Some(RunnableConfig(Some(c - {Name(f)}))))
    ensures EnvVar(f) !in env && FromRunnableConfig(env, Some(RunnableConfig(Some(c[Name(f) := Null])))).Ok? ==>
              Get(FromRunnableConfig(env, Some(RunnableConfig(Some(c[Name(f) := Null])))).value, f) == Default(f)
  {
    var c1, c2 := Some(RunnableConfig(Some(c[Name(f) := Null]))), Some(RunnableConfig(Some(c - {Name(f)})));
    forall g ensures Effective(env, c1, g) == Effective(env, c2, g) {
      if g != f && Name(g) == Name(f) {
        NameInjective(g, f);
      }
    }
    SameEffectiveSameOutcome(env, c1, env, c2);
  }

  /**
   * An empty environment variable is a value, not `None`: it is kept, and it
   * differs from the field's default.
   */
  lemma EmptyStringKept(env: map<string, string>, config: Option<RunnableConfig>, f: Field)
    requires EnvVar(f) in env && env[EnvVar(f)] == ""
    ensures Default(f) != Str("")
    ensures FromRunnableConfig(env, config).Ok? ==> Get(FromRunnableConfig(env, config).value, f) == Str("")
  {
  }

  /** A missing config and a config without `"configurable"` both read as an empty configurable. */
  lemma MissingConfigurableIsEmpty(env: map<string, string>)
    ensures FromRunnableConfig(env, None) == FromRunnableConfig(env, Some(RunnableConfig(Some(map[]))))
    ensures FromRunnableConfig(env, Some(RunnableConfig(None))) == FromRunnableConfig(env, Some(RunnableConfig(Some(map[]))))
    ensures FromRunnableConfig(env, None).Ok? ==>
              forall f :: Get(FromRunnableConfig(env, None).value, f) ==
                          if EnvVar(f) in env then Str(env[EnvVar(f)]) else Default(f)
  {
    SameEffectiveSameOutcome(env, None, env, Some(RunnableConfig(Some(map[]))));
    SameEffectiveSameOutcome(env, Some(RunnableConfig(None)), env, Some(RunnableConfig(Some(map[]))));
  }

  /** With nothing set anywhere, the result is the all-defaults configuration. */
  lemma AllDefaults()
    ensures FromRunnableConfig(map[], None) == Ok(DefaultConfiguration)
    ensures FromRunnableConfig(map[], Some(RunnableConfig(Some(map[])))) == Ok(DefaultConfiguration)
  {
    var r := FromRunnableConfig(map[], None);
    assert Effective(map[], None, LlmProvider) == Str("gemini");
    forall f ensures Get(r.value, f) == Get(DefaultConfiguration, f) {
      assert Effective(map[], None, f) == Default(f);
      match f
      case LlmProvider =>
      case QueryGeneratorModel =>
      case ReflectionModel =>
      case AnswerModel =>
      case OpenaiApiBase =>
      case OpenaiApiKey =>
      case NumberOfInitialQueries =>
      case MaxResearchLoops =>
    }
    GetDetermines(r.value, DefaultConfiguration);
    MissingConfigurableIsEmpty(map[]);
  }

  /** Any provider text other than the two literals is refused, case included. */
  lemma ProviderRestricted(env: map<string, string>, config: Option<RunnableConfig>, p: string)
    requires EnvVar(LlmProvider) in env && env[EnvVar(LlmProvider)] == p
    ensures FromRunnableConfig(env, config).Ok? <==> p == "gemini" || p == "openai"
    ensures FromRunnableConfig(env, config).Err? ==> FromRunnableConfig(env, config).error == InvalidProvider(Str(p))
  {
  }

  /** `LLM_PROVIDER=openai` selects the OpenAI-compatible provider; `Gemini` is refused. */
  lemma ProviderFromEnvironment()
    ensures FromRunnableConfig(map["LLM_PROVIDER" := "openai"], None).Ok?
    ensures FromRunnableConfig(map["LLM_PROVIDER" := "openai"], None).value.llmProvider == OpenAI
    ensures FromRunnableConfig(map["LLM_PROVIDER" := "Gemini"], None) == Err(InvalidProvider(Str("Gemini")))
  {
    ProviderEnvVars();
    assert Get(FromRunnableConfig(map["LLM_PROVIDER" := "openai"], None).value, LlmProvider) == Str("openai");
  }
}
