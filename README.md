# Agent configuration resolution

This project models the agent's `Configuration` class: its eight declared
fields with their defaults, the `Literal["gemini", "openai"]` restriction on
`llm_provider`, and the classmethod `from_runnable_config`. That method builds
a configuration from three sources, field by field:

1. the environment variable named by the upper-cased field name;
2. otherwise the entry of the runnable config's optional `"configurable"`
   dictionary under the field name;
3. otherwise the declared default.

Entries whose value would be `None` are dropped before the constructor is
called, so a `None` in `configurable` falls back to the default. An empty
environment string is not `None`, so it is kept. The constructor refuses any
provider other than the two literals.

Modules:

- `Wrappers` (`wrappers.dfy`): `Option` and `Result`.
- `AgentConfiguration` (`configuration.dfy`): values, fields, defaults,
  upper-casing, the constructor and `from_runnable_config`, and the lemmas
  about them.

`os.environ` is an explicit parameter `env: map<string, string>`. A runnable
config is `Option<RunnableConfig>`, and its `"configurable"` entry is
`Option<map<string, Value>>`. `Value` is `Null | Str | Int`, where `Null`
stands for Python's `None`. `Effective(env, config, f)` is a per-field
reference definition of the precedence rule. `FromRunnableConfig` is the
comprehension-filter-construct pipeline the source runs. The contract of
`FromRunnableConfig` proves that the two agree.

The code does not check that `number_of_initial_queries` is at least 1 or
that `max_research_loops` is non-negative (configuration.py:53-61 declares
plain `int` fields); the model has no range checks either.

The provider literal is matched exactly, with no case folding: `Gemini` is
refused. The manual script backend/test_llm_providers.py:84 lower-cases
`LLM_PROVIDER` for its own dispatch, but `from_runnable_config` does not.

## Model

| member | source | states |
|---|---|---|
| AgentConfiguration.FieldListed | backend/src/agent/configuration.py:11-61 | every field is declared, so its name is among the names iterated |
| AgentConfiguration.NameInjective | backend/src/agent/configuration.py:11-61 | no two declared fields share a name |
| AgentConfiguration.UpperInjective | backend/src/agent/configuration.py:74 | upper-casing never maps two different strings without capitals to the same string |
| AgentConfiguration.NamesHaveNoCapitals | backend/src/agent/configuration.py:11-61 | every field name is written without capital letters |
| AgentConfiguration.EnvVarInjective | backend/src/agent/configuration.py:74 | two different fields never read the same environment variable |
| AgentConfiguration.ProviderEnvVars | backend/test_llm_providers.py:13-17 | the provider, API base and API key are read from `LLM_PROVIDER`, `OPENAI_API_BASE` and `OPENAI_API_KEY` |
| AgentConfiguration.ParseProvider | backend/src/agent/configuration.py:11-16 | a provider is accepted exactly when it is the text `gemini` or `openai`, and the accepted provider is named by that text |
| AgentConfiguration.ParseProviderName | backend/src/agent/configuration.py:11 | each provider's name is parsed back to the same provider |
| AgentConfiguration.Construct | backend/src/agent/configuration.py:8-61 | each field takes its keyword argument if one is given, else its default; the call succeeds exactly when the resulting provider is allowed, and otherwise fails with that provider value |
| AgentConfiguration.RawValues | backend/src/agent/configuration.py:73-76 | the raw dictionary holds an entry for every declared field and no other key |
| AgentConfiguration.Kwargs | backend/src/agent/configuration.py:68-79 | the constructor receives only field names and never `None`; together with the defaults they give every field its environment, configurable or default value, in that precedence |
| AgentConfiguration.FromRunnableConfig | backend/src/agent/configuration.py:63-81 | every field of the result follows the precedence environment, then configurable, then default; the call fails exactly when the resolved provider is not allowed, and the error carries that provider value |
| AgentConfiguration.SameEffectiveSameOutcome | backend/src/agent/configuration.py:73-81 | inputs that agree on every field's resolved value give the same result or the same error |
| AgentConfiguration.OnlyFieldKeysRead | backend/src/agent/configuration.py:73-76 | two inputs give the same outcome when they agree on the fields' environment variables and on the fields' configurable keys, whatever else they hold |
| AgentConfiguration.UnrelatedEnvIgnored | backend/src/agent/configuration.py:74-75 | setting an environment variable that is not a field's variable changes nothing |
| AgentConfiguration.UnrelatedConfigurableIgnored | backend/src/agent/configuration.py:74-75 | adding a configurable key that names no field changes nothing |
| AgentConfiguration.EnvironmentWins | backend/src/agent/configuration.py:74 | when a field's environment variable is set, that value is used and the configurable entry for the field has no effect |
| AgentConfiguration.ConfigurableWhenNoEnv | backend/src/agent/configuration.py:74 | without its environment variable, a field takes its configurable entry when that entry is not `None` |
| AgentConfiguration.NoneEntryIsAbsent | backend/src/agent/configuration.py:79-81 | a `None` configurable entry acts like a missing one, and the field falls back to its default unless the environment sets it |
| AgentConfiguration.EmptyStringKept | backend/src/agent/configuration.py:79 | an empty environment value is kept as the field's value, and it differs from every default |
| AgentConfiguration.MissingConfigurableIsEmpty | backend/src/agent/configuration.py:68-70 | a missing config and a config without `"configurable"` act like an empty configurable, so each field comes from the environment or its default |
| AgentConfiguration.AllDefaults | backend/src/agent/configuration.py:11-61 | with an empty environment and no configurable, the result is provider gemini, the three declared model names, no API base or key, 3 initial queries and 2 research loops |
| AgentConfiguration.ProviderRestricted | backend/src/agent/configuration.py:11-16 | a provider supplied through the environment is accepted exactly when it is `gemini` or `openai`, and is otherwise refused with that text |
| AgentConfiguration.ProviderFromEnvironment | backend/src/agent/configuration.py:11-16 | `LLM_PROVIDER=openai` selects the OpenAI-compatible provider, and `LLM_PROVIDER=Gemini` is refused |

## Left out

- Pydantic coercion and type validation of fields other than `llm_provider` are not modelled. For example, the environment text `"5"` for `number_of_initial_queries` stays the text `"5"` and is not turned into 5. A value of the wrong type is not refused.
- Field `metadata` descriptions are left out because they have no effect on behaviour.
- Only the `"configurable"` entry of a runnable config is modelled. Its other entries (tags, callbacks, metadata) are never read by this code.
- A `"configurable"` entry that is not a dictionary would raise an error in Python. It is not modelled, because the runnable config type declares that entry as a dictionary.
- Upper: models ASCII upper-casing only, not Python's full Unicode `str.upper`. The two agree on the field names, which are ASCII.
- `os.environ` is passed in as a map. Reading the process environment and the case-insensitive environment of Windows are not modelled.
- backend/src/agent/prompts.py is left out. It holds static prompt templates, and `get_current_date` reads the wall clock.
- backend/test_llm_providers.py is left out as code. It is a manual script that mutates the environment, prints, exits and calls `create_llm`. Only its environment-variable names and provider choices appear, as lemmas.
- The research loop, the language-model calls and web search are left out: `agent/graph.py` is not part of this model.
