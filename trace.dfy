/** The observable sequence of calls `environment_ready` makes into its collaborators. */
module Trace {

  /** One call into a collaborator: building a project's `configs.Config`, a project's
      three stages, the two finalisation calls, and a report through `utils.fancyError`. */
  datatype Event =
    | ConfigBuilt(project: string)
    | DoxygenRun(project: string)
    | Parsed(project: string)
    | Exploded(project: string)
    | SphinxConfigured
    | DeployExploded
    | ErrorReported(message: string)

  predicate IsProjectEvent(e: Event) {
    e.ConfigBuilt? || e.DoxygenRun? || e.Parsed? || e.Exploded?
  }

  /** The message reported when generating the documents fails. */
  const GenerationFailedMessage: string := "Exhale: could not generate reStructuredText documents :/"

  /** What generating one project calls, in order. */
  function ProjectEvents(name: string): seq<Event> {
    [ConfigBuilt(name), DoxygenRun(name), Parsed(name), Exploded(name)]
  }

  /** What generating the given projects calls, one project after the other. */
  function StageTrace(names: seq<string>): seq<Event> {
    if names == [] then []
    else StageTrace(names[..|names| - 1]) + ProjectEvents(names[|names| - 1])
  }

  /** What the finalisation calls: the configuration pass, the guarded `deploy.explode`, and
      a report exactly when `deploy.explode` raised. */
  function FinalTrace(deployRaises: bool): seq<Event> {
    [SphinxConfigured, DeployExploded] + if deployRaises then [ErrorReported(GenerationFailedMessage)] else []
  }

  /** The whole run after configuration was accepted. */
  function RunTrace(names: seq<string>, deployRaises: bool): seq<Event> {
    StageTrace(names) + FinalTrace(deployRaises)
  }

  /** Project `i` accounts for exactly the four events at positions `4 * i` to `4 * i + 3`:
      its config, then its three stages in order. */
  lemma {:induction false} StageTraceAt(names: seq<string>, i: nat)
    requires i < |names|
    ensures |StageTrace(names)| == 4 * |names|
    ensures StageTrace(names)[4 * i .. 4 * i + 4] == ProjectEvents(names[i])
  {
    var n := |names| - 1;
    var front := names[..n];
    StageTraceLength(front);
    if i < n {
      assert front[i] == names[i];
      StageTraceAt(front, i);
      assert StageTrace(names)[4 * i .. 4 * i + 4] == StageTrace(front)[4 * i .. 4 * i + 4];
    } else {
      assert StageTrace(names)[4 * i .. 4 * i + 4] == ProjectEvents(names[n]);
    }
  }

  lemma {:induction false} StageTraceLength(names: seq<string>)
    ensures |StageTrace(names)| == 4 * |names|
  {
    if names != [] {
      StageTraceLength(names[..|names| - 1]);
    }
  }

  /** The projects' part of the trace holds project events and nothing else, and each
      names one of the projects. */
  lemma {:induction false} StageTraceOnlyProjects(names: seq<string>)
    ensures forall k :: 0 <= k < |StageTrace(names)| ==>
      IsProjectEvent(StageTrace(names)[k]) && StageTrace(names)[k].project in names
  {
    if names != [] {
      var front := names[..|names| - 1];
      StageTraceOnlyProjects(front);
      var t := StageTrace(names);
      forall k | 0 <= k < |t|
        ensures IsProjectEvent(t[k]) && t[k].project in names
      {
        if k < |StageTrace(front)| {
          assert t[k] == StageTrace(front)[k];
          assert forall x :: x in front ==> x in names;
        } else {
          assert t[k] == ProjectEvents(names[|names| - 1])[k - |StageTrace(front)|];
        }
      }
    }
  }

  /** After all projects come exactly one configuration pass, then exactly one
      `deploy.explode`, and a single report with the fixed message exactly when
      `deploy.explode` raised. */
  lemma Finalisation(names: seq<string>, deployRaises: bool)
    ensures var t := RunTrace(names, deployRaises);
      && |t| == 4 * |names| + 2 + (if deployRaises then 1 else 0)
      && (forall k :: 0 <= k < |t| ==> (t[k] == SphinxConfigured <==> k == 4 * |names|))
      && (forall k :: 0 <= k < |t| ==> (t[k] == DeployExploded <==> k == 4 * |names| + 1))
      && (forall k :: 0 <= k < |t| ==> (t[k].ErrorReported? <==> deployRaises && k == |t| - 1))
      && (deployRaises ==> t[|t| - 1] == ErrorReported(GenerationFailedMessage))
  {
    StageTraceLength(names);
    StageTraceOnlyProjects(names);
    var t := RunTrace(names, deployRaises);
    var s := StageTrace(names);
    forall k | 0 <= k < |t|
      ensures k < |s| ==> t[k] == s[k]
      ensures k >= |s| ==> t[k] == FinalTrace(deployRaises)[k - |s|]
    {
    }
  }
}
