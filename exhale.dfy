/** The extension's entry point: per-project generation objects and the handler Sphinx
    calls once the builder is ready. */
module Exhale {
  import opened Values
  import opened Validation
  import opened Reconciliation
  import opened Trace
  import opened Host

  /** The parsed API tree a project would build; `parse` is a stub, so none is ever made. */
  datatype Node = Node(name: string)

  /** One project being generated. Its three stages do nothing yet; each call only shows
      up in the application's trace. */
  class ExhaleProject {
    var app: Application
    var projectName: string
    var config: ProjectConfig
    var root: Option<Node>

    constructor (config: ProjectConfig)
      ensures app == config.app && projectName == config.projectName
      ensures this.config == config && root == None
    {
      app := config.app;
      projectName := config.projectName;
      this.config := config;
      root := None;
    }

    method RunDoxygen()
      modifies app
      ensures app.trace == old(app.trace) + [DoxygenRun(projectName)]
    {
      app.trace := app.trace + [DoxygenRun(projectName)];
    }

    method Parse()
      modifies app
      ensures app.trace == old(app.trace) + [Parsed(projectName)]
    {
      app.trace := app.trace + [Parsed(projectName)];
    }

    method Explode()
      modifies app
      ensures app.trace == old(app.trace) + [Exploded(projectName)]
    {
      app.trace := app.trace + [Exploded(projectName)];
    }
  }

  /** The type-safety checks at the head of `environment_ready`, in their order: the first
      field that fails is the error raised. */
  method ValidateFields(exhaleArgs: Value, exhaleProjects: Value, exhaleGlobalArgs: Value)
    returns (outcome: Outcome)
    ensures outcome == ValidateAll(exhaleArgs, exhaleProjects, exhaleGlobalArgs)
  {
    outcome := AssertIsDictionaryWithStringKeys(exhaleArgs, "exhale_args");
    if outcome.Fail? {
      return;
    }

    outcome := AssertIsDictionaryWithStringKeys(exhaleProjects, "exhale_projects");
    if outcome.Fail? {
      return;
    }
    ghost var entryChecks := ProjectEntryChecks(exhaleProjects.items);
    var i := 0;
    while i < |exhaleProjects.items|
      invariant 0 <= i <= |exhaleProjects.items|
      invariant forall j :: 0 <= j < i ==> !Fails(entryChecks[j])
    {
      var project := exhaleProjects.items[i];
      outcome := AssertIsDictionaryWithStringKeys(project.1, ProjectTitle(KeyText(project.0)));
      if outcome.Fail? {
        FirstWhereAt(entryChecks, Fails, i);
        return;
      }
      i := i + 1;
    }

    outcome := AssertIsDictionaryWithStringKeys(exhaleGlobalArgs, "exhale_global_args");
  }

  /** Generates every project of `projects` in iteration order: its config, then its three
      stages, before the next project starts. */
  method GenerateProjects(app: Application, projects: Value)
    requires projects.Dict?
    modifies app
    ensures app.trace == old(app.trace) + StageTrace(ProjectNames(projects))
  {
    ghost var names := ProjectNames(projects);
    var n := 0;
    while n < |projects.items|
      invariant 0 <= n <= |projects.items|
      invariant app.trace == old(app.trace) + StageTrace(names[..n])
    {
      var config := new ProjectConfig(app, KeyText(projects.items[n].0));
      var project := new ExhaleProject(config);
      project.RunDoxygen();
      project.Parse();
      project.Explode();
      assert names[..n + 1][..n] == names[..n];
      n := n + 1;
    }
    assert names[..n] == names;
  }

  /** The `builder-inited` handler. It validates the configuration and raises the first
      `ConfigError` before any project starts; otherwise it replaces `exhale_projects` when
      `exhale_args` is used, generates every project in order, applies the Sphinx
      configuration, and runs `deploy.explode`, reporting (not raising) its failure.
      `deployRaises` says whether `deploy.explode` raises. */
  method EnvironmentReady(app: Application, deployRaises: bool) returns (outcome: Outcome)
    modifies app, app.config
    ensures app.config.exhaleArgs == old(app.config.exhaleArgs)
    ensures app.config.exhaleGlobalArgs == old(app.config.exhaleGlobalArgs)
    ensures var r := Reconcile(old(app.config.exhaleArgs), old(app.config.exhaleProjects),
                               old(app.config.exhaleGlobalArgs));
      && (outcome.Fail? <==> r.Err?)
      && (r.Err? ==> outcome.error == r.error && app.trace == old(app.trace)
                     && app.config.exhaleProjects == old(app.config.exhaleProjects))
      && (r.Ok? ==> app.config.exhaleProjects == r.value
                    && app.trace == old(app.trace) + RunTrace(ProjectNames(r.value), deployRaises))
  {
    var exhaleArgs := app.config.exhaleArgs;
    var exhaleProjects := app.config.exhaleProjects;
    var exhaleGlobalArgs := app.config.exhaleGlobalArgs;
    ghost var r := Reconcile(exhaleArgs, exhaleProjects, exhaleGlobalArgs);
    outcome := ValidateFields(exhaleArgs, exhaleProjects, exhaleGlobalArgs);
    if outcome.Fail? {
      assert r == Err(outcome.error);
      return;
    }
    assert exhaleProjects.Dict?;

    if NonEmpty(exhaleArgs) && NonEmpty(exhaleProjects) {
      assert r == Err(ArgsWithProjects);
      return Fail(ArgsWithProjects);
    }
    if NonEmpty(exhaleArgs) && NonEmpty(exhaleGlobalArgs) {
      assert r == Err(ArgsWithGlobalArgs);
      return Fail(ArgsWithGlobalArgs);
    }
    assert r.Ok?;

    if NonEmpty(exhaleArgs) {
      app.config.exhaleProjects := Shorthand(exhaleArgs);
      exhaleProjects := app.config.exhaleProjects;
    }

    ghost var afterRewrite := app.config.exhaleProjects;
    GenerateProjects(app, exhaleProjects);
    assert app.config.exhaleProjects == afterRewrite;

    ApplySphinxConfigurations(app);
    var raised := DeployExplode(app, deployRaises);
    if raised {
      FancyError(app, GenerationFailedMessage);
    }
    outcome := Pass;
  }

  /** The three values default to empty mappings when the extension is registered; that
      configuration is valid and generates no project, only the finalisation. */
  lemma DefaultConfigurationRunsNoProjects(deployRaises: bool)
    ensures Reconcile(EmptyDict, EmptyDict, EmptyDict) == Ok(EmptyDict)
    ensures RunTrace(ProjectNames(EmptyDict), deployRaises) == FinalTrace(deployRaises)
  {
  }
}
