/** Reconciliation of the three configuration values `exhale_args`, `exhale_projects` and
    `exhale_global_args` into the one mapping of projects that the driver iterates. */
module Reconciliation {
  import opened Values
  import opened Validation

  /** Either the reconciled value, or the `ConfigError` that was raised. */
  datatype Result<+T> = Ok(value: T) | Err(error: ConfigError)

  /** The reserved name of the single project that `exhale_args` stands for. */
  const AutoProjectName: string := "exhale_auto"

  /** The label under which one entry of `exhale_projects` is validated. */
  function ProjectTitle(name: string): string {
    "exhale_projects['" + name + "']"
  }

  /** One validation: a label and the value checked under it. */
  function RunCheck(check: (string, Value)): Outcome {
    AssertIsDictionaryWithStringKeys(check.1, check.0)
  }

  predicate Fails(check: (string, Value)) {
    RunCheck(check).Fail?
  }

  /** Running a list of validations one after another, stopping at the first error. */
  function FirstFailure(checks: seq<(string, Value)>): (r: Outcome)
    ensures r.Pass? <==> forall i :: 0 <= i < |checks| ==> RunCheck(checks[i]).Pass?
    ensures r.Fail? ==>
      exists i :: 0 <= i < |checks| && r == RunCheck(checks[i]) &&
        forall j :: 0 <= j < i ==> RunCheck(checks[j]).Pass?
  {
    match FirstWhere(checks, Fails)
    case None => Pass
    case Some(i) => RunCheck(checks[i])
  }

  /** The validations of the entries of `exhale_projects`, one per project in iteration order. */
  function ProjectEntryChecks(items: seq<(Key, Value)>): seq<(string, Value)> {
    seq(|items|, i requires 0 <= i < |items| => (ProjectTitle(KeyText(items[i].0)), items[i].1))
  }

  /** Every validation `environment_ready` performs, as the statements perform them. */
  function ValidateAll(args: Value, projects: Value, globals: Value): (r: Outcome)
    ensures r.Fail? ==> IsShapeError(r.error)
    ensures r.Pass? <==>
      && AssertIsDictionaryWithStringKeys(args, "exhale_args").Pass?
      && AssertIsDictionaryWithStringKeys(projects, "exhale_projects").Pass?
      && (forall i :: 0 <= i < |projects.items| ==>
            AssertIsDictionaryWithStringKeys(projects.items[i].1, ProjectTitle(projects.items[i].0.text)).Pass?)
      && AssertIsDictionaryWithStringKeys(globals, "exhale_global_args").Pass?
  {
    var a := AssertIsDictionaryWithStringKeys(args, "exhale_args");
    if a.Fail? then a else
    var p := AssertIsDictionaryWithStringKeys(projects, "exhale_projects");
    if p.Fail? then p else
    var entries := ProjectEntryChecks(projects.items);
    assert forall i :: 0 <= i < |entries| ==>
      entries[i] == (ProjectTitle(projects.items[i].0.text), projects.items[i].1);
    var e := FirstFailure(entries);
    if e.Fail? then e else
    AssertIsDictionaryWithStringKeys(globals, "exhale_global_args")
  }

  /** The order in which the fields are validated, as an independent list: `exhale_args`,
      `exhale_projects`, each project entry in iteration order, `exhale_global_args`. */
  function Checks(args: Value, projects: Value, globals: Value): seq<(string, Value)> {
    [("exhale_args", args), ("exhale_projects", projects)]
    + (if projects.Dict? then ProjectEntryChecks(projects.items) else [])
    + [("exhale_global_args", globals)]
  }

  lemma {:induction false} FirstFailureAppend(a: seq<(string, Value)>, b: seq<(string, Value)>)
    ensures FirstFailure(a + b) == if FirstFailure(a).Fail? then FirstFailure(a) else FirstFailure(b)
  {
    var ab := a + b;
    assert forall i :: 0 <= i < |a| ==> ab[i] == a[i];
    assert forall i :: 0 <= i < |b| ==> ab[|a| + i] == b[i];
    match FirstWhere(a, Fails)
    case Some(i) =>
      FirstWhereAt(ab, Fails, i);
    case None =>
      match FirstWhere(b, Fails)
      case Some(k) =>
        FirstWhereAt(ab, Fails, |a| + k);
      case None =>
        assert forall i :: 0 <= i < |ab| ==> !Fails(ab[i]) by {
          forall i | 0 <= i < |ab| ensures !Fails(ab[i]) {
            if i >= |a| {
              assert ab[i] == b[i - |a|];
            }
          }
        }
  }

  /** `ValidateAll` reports exactly the first field of `Checks` that fails, and passes
      only when every one of them passes. */
  lemma ValidationOrder(args: Value, projects: Value, globals: Value)
    ensures ValidateAll(args, projects, globals) == FirstFailure(Checks(args, projects, globals))
  {
    var entries := if projects.Dict? then ProjectEntryChecks(projects.items) else [];
    var front := [("exhale_args", args), ("exhale_projects", projects)];
    FirstFailureAppend(front + entries, [("exhale_global_args", globals)]);
    FirstFailureAppend(front, entries);
    FirstFailureAppend([("exhale_args", args)], [("exhale_projects", projects)]);
    assert [("exhale_args", args)] + [("exhale_projects", projects)] == front;
    SingleCheck(("exhale_args", args));
    SingleCheck(("exhale_projects", projects));
    SingleCheck(("exhale_global_args", globals));
  }

  lemma SingleCheck(check: (string, Value))
    ensures FirstFailure([check]) == RunCheck(check)
  {
  }

  /** The mapping `exhale_projects` is rewritten to when `exhale_args` is used: one project
      under the reserved name, holding a fresh copy of the entries of `exhale_args`. */
  function Shorthand(args: Value): Value
    requires args.Dict?
  {
    Dict(true, [(StrKey(AutoProjectName), Dict(true, args.items))])
  }

  /** The projects `environment_ready` goes on to generate, or the error it raises first. */
  function Reconcile(args: Value, projects: Value, globals: Value): (r: Result<Value>)
    ensures ValidateAll(args, projects, globals).Fail? ==>
      r == Err(ValidateAll(args, projects, globals).error)
    ensures r.Err? && IsShapeError(r.error) <==> ValidateAll(args, projects, globals).Fail?
    ensures r == Err(ArgsWithProjects) <==>
      ValidateAll(args, projects, globals).Pass? && NonEmpty(args) && NonEmpty(projects)
    ensures r == Err(ArgsWithGlobalArgs) <==>
      ValidateAll(args, projects, globals).Pass? && NonEmpty(args) && !NonEmpty(projects) && NonEmpty(globals)
    ensures r.Ok? && NonEmpty(args) ==> r.value == Shorthand(args)
    ensures r.Ok? && !NonEmpty(args) ==> r.value == projects
  {
    var v := ValidateAll(args, projects, globals);
    if v.Fail? then Err(v.error)
    else if NonEmpty(args) && NonEmpty(projects) then Err(ArgsWithProjects)
    else if NonEmpty(args) && NonEmpty(globals) then Err(ArgsWithGlobalArgs)
    else if NonEmpty(args) then Ok(Shorthand(args))
    else Ok(projects)
  }

  /** With empty `exhale_args` the outcome never is a conflict, whatever the other two hold. */
  lemma EmptyArgsNeverConflict(args: Value, projects: Value, globals: Value)
    requires !NonEmpty(args)
    ensures var r := Reconcile(args, projects, globals);
      r.Err? ==> IsShapeError(r.error)
  {
  }

  /** The shorthand becomes a single synthetic project whose arguments are exactly those of
      `exhale_args`, and nothing is lost: there were no projects and no global arguments. */
  lemma ShorthandSingleProject(args: Value, projects: Value, globals: Value)
    requires NonEmpty(args)
    requires Reconcile(args, projects, globals).Ok?
    ensures var r := Reconcile(args, projects, globals).value;
      && ProjectNames(r) == [AutoProjectName]
      && r.items[0].1 == args
      && r.items[0].1.items == args.items
      && projects.items == [] && globals.items == []
  {
  }

  /** For a genuine dictionary the driver runs each project under a name of its own: the
      shorthand has a single name, and the names of `exhale_projects` are its distinct
      string keys. */
  lemma ReconciledNamesDistinct(args: Value, projects: Value, globals: Value)
    requires Reconcile(args, projects, globals).Ok?
    requires projects.Dict? ==> DistinctKeys(projects.items)
    ensures var names := ProjectNames(Reconcile(args, projects, globals).value);
      forall i, j :: 0 <= i < j < |names| ==> names[i] != names[j]
  {
  }

  /** Whatever is handed on to the driver is itself a valid `exhale_projects` value. */
  lemma ResultIsValidProjects(args: Value, projects: Value, globals: Value)
    requires Reconcile(args, projects, globals).Ok?
    ensures var r := Reconcile(args, projects, globals).value;
      ValidateAll(EmptyDict, r, EmptyDict).Pass?
  {
  }

  /** Reconciling the host's configuration a second time, after `exhale_projects` has been
      rewritten: without `exhale_args` nothing moves, with it the rewritten value conflicts. */
  lemma ReconcileAgain(args: Value, projects: Value, globals: Value)
    requires Reconcile(args, projects, globals).Ok?
    ensures var r := Reconcile(args, projects, globals).value;
      && (!NonEmpty(args) ==> Reconcile(args, r, globals) == Ok(r))
      && (NonEmpty(args) ==> Reconcile(args, r, globals) == Err(ArgsWithProjects))
  {
  }
}
