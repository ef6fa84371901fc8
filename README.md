# Exhale: configuration reconciliation and orchestration, in Dafny

This project models the core of the Exhale Sphinx extension (`exhale/__init__.py`, version
0.1.8), the part that runs when Sphinx fires `builder-inited`:

- **The shape check** `_assert_is_dictionary_with_string_keys`. A configuration value must
  be exactly a `dict`, so subclasses are refused too. Every key must be a string. Values are
  never examined. A failure raises `ConfigError` labelled with the field's title.
- **Reconciliation**, the first half of `environment_ready`:
  - It first validates every field, in a fixed order: `exhale_args`, then `exhale_projects`,
    then each project entry under the title `exhale_projects['<name>']`, then
    `exhale_global_args`.
  - It then applies two mutual-exclusion rules. An empty mapping counts as absent.
  - Finally it replaces `exhale_projects` with `{"exhale_auto": <copy of exhale_args>}` when
    the single-project shorthand is used.
- **The driver**, the second half of `environment_ready` and the `ExhaleProject` class. For
  each project, in iteration order, it builds a `configs.Config` and an `ExhaleProject` and
  calls the project's three stages: `run_doxygen`, `parse`, `explode`. It then calls
  `configs.apply_sphinx_configurations` once, and then `deploy.explode` inside a catch-all.
  If that call raises, the failure is reported through `utils.fancyError` with a fixed
  message instead of being raised.

Modules, one per component:

| file | module | contents |
|---|---|---|
| values.dfy | `Values` | configuration values (`Dict(exact, items)` in insertion order, or `Atom`), keys (string or not), `FirstWhere`: the first element a test rejects |
| validation.dfy | `Validation` | `ConfigError`, `Outcome`, the shape check |
| reconciliation.dfy | `Reconciliation` | the validation order, the conflict rules, the shorthand rewrite, as functions with lemmas |
| trace.dfy | `Trace` | the calls into collaborators as events, the expected trace of a run and its shape |
| host.dfy | `Host` | the Sphinx application and `app.config`, as classes; the external collaborators |
| exhale.dfy | `Exhale` | `ExhaleProject`, and `environment_ready` as imperative methods |

Exceptions become values: `Outcome` (`Pass` or `Fail(ConfigError)`) and `Result`. The
collaborators `configs.Config`, `configs.apply_sphinx_configurations`, `deploy.explode` and
`utils.fancyError` are not implemented. Each call to one of them, and each call to a
project's stage methods, appends an event to a ghost `trace` field of the application. Whether
`deploy.explode` raises is a parameter of `EnvironmentReady`.

`EnvironmentReady` is proved against the function `Reconcile` and the trace function
`RunTrace`. On every input it reports exactly `Reconcile`'s error. When `Reconcile` fails,
neither the host configuration nor the trace changes. When it succeeds, `exhale_projects`
holds the reconciled value, and the trace is, for each project name in order, *config, run
doxygen, parse, explode*. After the projects come *apply configurations* and *deploy explode*,
and then a report exactly when `deploy.explode` raised.

What the code does, as the model states it:

- The shape check requires exactly `dict`: subclasses of `dict` and other mappings are refused.
- Besides the three fields, every entry of `exhale_projects` is validated, under the title
  `exhale_projects['<name>']`.
- `exhale_global_args` is validated, but it is never merged into any project.
- A `ConfigError` carries the field's title, and a key failure also carries the first
  non-string key. The model's errors leave out the type repr that the messages contain (see
  "## Left out").
- The host attribute `app.config.exhale_projects` is replaced by a new dictionary; the old
  dictionary is not changed. So when `exhale_args` is set, reconciling the same host
  configuration a second time fails with the "may not both be specified" conflict
  (`ReconcileAgain`). Calling the pure `Reconcile` twice on equal inputs
  gives equal results.

## Model

| member | source | states |
|---|---|---|
| `Values.FirstWhere` | exhale/__init__.py:28-34 | the index returned is that of the first element, in iteration order, the test rejects, and none is returned exactly when every element passes |
| `Validation.AssertIsDictionaryWithStringKeys` | exhale/__init__.py:17-34 | passes iff the value is exactly a `dict` and every key is a string; a non-`dict` fails with `NotADictionary(title)`, otherwise the error names the first non-string key; every error carries the given title |
| `Validation.ValuesNeverInspected` | exhale/__init__.py:27-34 | two mappings with the same keys in the same order get the same verdict, whatever their values |
| `Reconciliation.FirstFailure` | exhale/__init__.py:67-70 | running validations in sequence passes iff all pass, and otherwise reports the error of a failing one all of whose predecessors passed |
| `Reconciliation.ValidateAll` | exhale/__init__.py:60-74 | passes iff `exhale_args`, `exhale_projects`, every project entry and `exhale_global_args` all pass; any error is a shape error |
| `Reconciliation.FirstFailureAppend` | exhale/__init__.py:60-74 | validating `a` then `b` reports `a`'s error if `a` fails and `b`'s outcome otherwise |
| `Reconciliation.ValidationOrder` | exhale/__init__.py:60-74 | the validation outcome is that of the first failing field in the order `exhale_args`, `exhale_projects`, each entry in iteration order, `exhale_global_args` |
| `Reconciliation.Reconcile` | exhale/__init__.py:60-95 | a shape error iff validation fails (and then exactly validation's error); `ArgsWithProjects` iff all valid and both `exhale_args` and `exhale_projects` non-empty; `ArgsWithGlobalArgs` iff all valid, `exhale_args` and `exhale_global_args` non-empty and `exhale_projects` empty; on success the shorthand project when `exhale_args` is non-empty, else `exhale_projects` unchanged |
| `Reconciliation.EmptyArgsNeverConflict` | exhale/__init__.py:76-88 | with empty `exhale_args`, the only possible errors are shape errors: empty mappings never conflict |
| `Reconciliation.ShorthandSingleProject` | exhale/__init__.py:90-95 | after a successful shorthand, the only project name is `exhale_auto` and its arguments have exactly the entries of `exhale_args`; `exhale_projects` and `exhale_global_args` were empty, so no entry is lost and nothing is merged |
| `Reconciliation.ReconciledNamesDistinct` | exhale/__init__.py:90-103 | when `exhale_projects` lists each key once, as a Python dictionary does, the driver runs every reconciled project under a name of its own |
| `Reconciliation.ResultIsValidProjects` | exhale/__init__.py:90-98 | whatever the driver goes on to iterate is itself a valid `exhale_projects` value |
| `Reconciliation.ReconcileAgain` | exhale/__init__.py:76-95 | reconciling again with the rewritten `exhale_projects` leaves it unchanged when `exhale_args` is empty, and fails with `ArgsWithProjects` when it is not |
| `Trace.StageTraceLength` | exhale/__init__.py:98-103 | each project contributes four events |
| `Trace.StageTraceAt` | exhale/__init__.py:98-103 | project `i` accounts for exactly events `4i` to `4i+3`: its config, `run_doxygen`, `parse`, `explode`, in that order |
| `Trace.StageTraceOnlyProjects` | exhale/__init__.py:98-103 | the per-project part of the trace holds only project events, each naming one of the projects |
| `Trace.Finalisation` | exhale/__init__.py:105-113 | after the projects come exactly one configuration pass, then exactly one `deploy.explode`, then one report with "Exhale: could not generate reStructuredText documents :/" exactly when `deploy.explode` raised, and nothing else |
| `Host.SphinxConfig.constructor` | exhale/__init__.py:118-120 | the host configuration holds the three values `exhale_args`, `exhale_projects`, `exhale_global_args` |
| `Host.ProjectConfig.constructor` | exhale/__init__.py:99 | building a project's config binds the application and the project name, and records one config event |
| `Host.ApplySphinxConfigurations` | exhale/__init__.py:106 | records one configuration pass and changes nothing else |
| `Host.DeployExplode` | exhale/__init__.py:111 | records one call, and raises exactly when told to |
| `Host.FancyError` | exhale/__init__.py:113 | records one report carrying the message |
| `Exhale.ExhaleProject.constructor` | exhale/__init__.py:38-43 | copies `app` and `project_name` from the config, stores the config, and sets `root` to none |
| `Exhale.ExhaleProject.RunDoxygen` | exhale/__init__.py:45-46 | the stage does nothing but be called |
| `Exhale.ExhaleProject.Parse` | exhale/__init__.py:48-49 | the stage does nothing but be called |
| `Exhale.ExhaleProject.Explode` | exhale/__init__.py:51-52 | the stage does nothing but be called |
| `Exhale.ValidateFields` | exhale/__init__.py:60-74 | the imperative checks, loop over project entries included, raise exactly `ValidateAll`'s error, or pass when it passes |
| `Exhale.GenerateProjects` | exhale/__init__.py:97-103 | for every project in iteration order, the trace gains its config and three stage calls, one project after another |
| `Exhale.EnvironmentReady` | exhale/__init__.py:54-113 | raises exactly `Reconcile`'s error. On failure, nothing has run and `exhale_projects` is untouched. On success, `exhale_projects` holds the reconciled value and the trace is `RunTrace` of its names. `exhale_args` and `exhale_global_args` never change |
| `Exhale.DefaultConfigurationRunsNoProjects` | exhale/__init__.py:116-120 | the all-empty default configuration is accepted and runs no project, only the finalisation |

## Left out

- The internals of `configs.Config`, `configs.apply_sphinx_configurations`, `deploy.explode` and `utils.fancyError`: `configs`, `deploy` and `utils` are not part of this model. Each appears only as a trace event.
- Exceptions from `configs.Config` and `apply_sphinx_configurations`: the model assumes both return normally, because their code is not available.
- Exceptions from a project's stages: the stages are `pass` stubs, so they cannot raise.
- The bare `except:` also catches `KeyboardInterrupt` and `SystemExit`. Host-process exception semantics are not modelled; the model only has "`deploy.explode` raised" or "it did not".
- What `utils.fancyError` does after reporting: it is not part of this model, so it is modelled as returning.
- The text of the shape errors, which includes Python `type()` reprs. An error is modelled by its kind, its title and the offending key. The conflict errors are the constructors `ArgsWithProjects` and `ArgsWithGlobalArgs`, whose messages are fixed in the source.
- The distinction between `six.string_types` under Python 2 and Python 3: a key is modelled as either a string or something else.
- `setup`'s calls to `setup_extension`, `add_config_value` and `connect` are Sphinx registration. Only their consequence is modelled: all three values default to empty mappings (`DefaultConfigurationRunsNoProjects`).
- `ExhaleProject.root`: its type is not given by the source. It is modelled as an optional placeholder `Node` that nothing constructs.
- Iteration: the model walks a mapping's entries, not its keys followed by a lookup. The two agree on values with distinct keys (`DistinctKeys`), which every Python dictionary has. A value that repeats a key can be written down in the model but stands for no Python dictionary.
- The shallow copy at exhale/__init__.py:93: values are immutable datatypes here, so the model cannot tell the fresh outer dictionary from an alias or a deep copy. In the source, the nested values stay shared with `exhale_args`. Nothing in this core mutates them.
