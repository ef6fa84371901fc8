/** The Sphinx application the extension runs in, and the collaborators `environment_ready`
    calls that belong to other modules (`configs`, `deploy`, `utils`). What those
    collaborators do is not modelled; each call only records itself in the application's
    trace, which is ghost: it observes the run, nothing reads it. */
module Host {
  import opened Values
  import opened Trace

  /** `app.config`: the three values the extension registers. */
  class SphinxConfig {
    var exhaleArgs: Value
    var exhaleProjects: Value
    var exhaleGlobalArgs: Value

    constructor (args: Value, projects: Value, globals: Value)
      ensures exhaleArgs == args && exhaleProjects == projects && exhaleGlobalArgs == globals
    {
      exhaleArgs, exhaleProjects, exhaleGlobalArgs := args, projects, globals;
    }
  }

  /** The Sphinx application object, with the calls made into collaborators so far. */
  class Application {
    const config: SphinxConfig
    ghost var trace: seq<Event>

    constructor (config: SphinxConfig)
      ensures this.config == config && trace == []
    {
      this.config := config;
      trace := [];
    }
  }

  /** `configs.Config(app, project_name)`: the per-project configuration object. */
  class ProjectConfig {
    const app: Application
    const projectName: string

    constructor (app: Application, projectName: string)
      modifies app
      ensures this.app == app && this.projectName == projectName
      ensures app.trace == old(app.trace) + [ConfigBuilt(projectName)]
    {
      this.app := app;
      this.projectName := projectName;
      new;
      app.trace := app.trace + [ConfigBuilt(projectName)];
    }
  }

  /** `configs.apply_sphinx_configurations(app)`. */
  method ApplySphinxConfigurations(app: Application)
    modifies app
    ensures app.trace == old(app.trace) + [SphinxConfigured]
  {
    app.trace := app.trace + [SphinxConfigured];
  }

  /** `deploy.explode()`; whether it raises is decided by the caller's `raises`. */
  method DeployExplode(app: Application, raises: bool) returns (raised: bool)
    modifies app
    ensures raised == raises
    ensures app.trace == old(app.trace) + [DeployExploded]
  {
    app.trace := app.trace + [DeployExploded];
    raised := raises;
  }

  /** `utils.fancyError(message)`. */
  method FancyError(app: Application, message: string)
    modifies app
    ensures app.trace == old(app.trace) + [ErrorReported(message)]
  {
    app.trace := app.trace + [ErrorReported(message)];
  }
}
