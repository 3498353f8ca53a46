/**
 * The deploy_to_* routines and main of register_workflow.py. Each routine
 * checks its credentials, selects its actions, and deploys them one by one
 * until the first failure. main validates the document, collects the
 * lower-cased FaaSTypes into a set and runs the routine of every type it
 * recognises, in the set's (unspecified) iteration order, each routine
 * starting from the document the earlier ones left behind.
 */
module Registration {
  import opened Basics
  import opened Text
  import opened WorkflowModel
  import opened Routing
  import opened SecretPayload
  import opened Deployment
  import opened LambdaDeploy
  import opened PlatformSteps
  import opened S3Check
  import opened Gates

  /** What main's checks find before anything is deployed. */
  datatype Checks = Checks(
    schemaOk: bool,                 // the file loads as JSON and validate_json does not raise
    dagOk: bool)                    // check_dag does not raise

  /** What the outside world answers during one deploy_to_* routine. */
  datatype Live = Live(
    lambdaLive: Action -> LambdaLive,
    repoFound: bool,                // get_repo and its default branch
    secretsSet: bool,               // ensure_github_secrets_and_vars does not raise
    files: Action -> FileLive,
    owLive: Action -> OwLive,
    gcpClient: GcpAuth -> bool,     // FunctionServiceClient() with that authentication
    gcpLive: Action -> GcpLive)

  /** workflow_data['ComputeServers'][name]; selected actions always find their server. */
  function ServerOf(servers: seq<Entry>, name: string): Entry {
    match Lookup(servers, name)
    case Some(e) => e
    case None => Entry(name, map[], None, None)
  }

  function AwsStepFor(workflowName: string, servers: seq<Entry>, live: Live): Action -> Step {
    (a: Action) => LambdaStep(PrefixedName(workflowName, a.name),
                    Clamped(Requested(a, ServerOf(servers, a.faasServer))), live.lambdaLive(a))
  }

  function GitHubStepFor(workflowName: string, containers: map<string, string>, live: Live): Action -> Step {
    (a: Action) => GitHubStep(workflowName, containers, a, live.files(a))
  }

  function OwStepFor(workflowName: string, live: Live): Action -> Step {
    (a: Action) => OwStep(workflowName, a, live.owLive(a))
  }

  function GcpStepFor(workflowName: string, live: Live): Action -> Step {
    (a: Action) => GcpStep(workflowName, a, live.gcpLive(a))
  }

  /** The document after create_secret_payload has (or has not) run. */
  function AfterPayload(d: Data, env: Env): Data {
    match CredentialsFrom(env, d)
    case Ok(c) => Substituted(d, c)
    case Err(_) => d
  }

  // ---------------------------------------------------------------------------
  // The four routines as functions of the document they start from.

  /** deploy_to_aws: AWS variables, then the payload (GH_PAT), then the Lambda actions. */
  function AwsRun(d: Data, env: Env, live: Live): Run {
    if AwsGate(env).Some? then Aborted([], AwsGate(env).value)
    else match CredentialsFrom(env, d)
      case Err(f) => Aborted([], f)
      case Ok(c) =>
        var d1 := Substituted(d, c);
        match Selected(ActionsOf(d1), Servers(d1), Lambda)
        case Err(f) => Aborted([], f)
        case Ok(sel) => Outcome(sel, AwsStepFor(WorkflowName(d1), Servers(d1), live))
  }

  function AwsData(d: Data, env: Env): Data {
    if AwsGate(env).Some? then d else AfterPayload(d, env)
  }

  /** deploy_to_github: GH_PAT and GITHUB_REPOSITORY, the actions, then the repository, the payload and the files. */
  function GitHubRun(d: Data, env: Env, live: Live): Run {
    if !EnvSet(env, "GH_PAT") then Aborted([], MissingEnv("GH_PAT"))
    else if !EnvSet(env, "GITHUB_REPOSITORY") then Aborted([], MissingEnv("GITHUB_REPOSITORY"))
    else match Selected(ActionsOf(d), Servers(d), GitHubActions)
      case Err(f) => Aborted([], f)
      case Ok(sel) =>
        if sel == [] then Finished([])
        else if !live.repoFound then Aborted([], CallFailed(env["GITHUB_REPOSITORY"]))
        else
          var d1 := AfterPayload(d, env);
          if !live.secretsSet then Aborted([], CallFailed(env["GITHUB_REPOSITORY"]))
          else Outcome(sel, GitHubStepFor(WorkflowName(d1), Containers(d1), live))
  }

  function GitHubData(d: Data, env: Env, live: Live): Data {
    if !EnvSet(env, "GH_PAT") || !EnvSet(env, "GITHUB_REPOSITORY") || !live.repoFound then d
    else match Selected(ActionsOf(d), Servers(d), GitHubActions)
      case Err(_) => d
      case Ok(sel) => if sel == [] then d else AfterPayload(d, env)
  }

  /** deploy_to_ow: the OpenWhisk server as written, then the actions; no payload is built. */
  function OwRun(d: Data, live: Live): Run {
    match OwServerAsWritten(Servers(d))
    case Err(f) => Aborted([], f)
    case Ok(_) =>
      match Selected(ActionsOf(d), Servers(d), OpenWhisk)
      case Err(f) => Aborted([], f)
      case Ok(sel) => Outcome(sel, OwStepFor(WorkflowName(d), live))
  }

  /** deploy_to_gcp: the project and key, the client, the payload, then the actions. */
  function GcpRun(d: Data, env: Env, live: Live): Run {
    match GcpGate(Servers(d), env)
    case Err(f) => Aborted([], f)
    case Ok(auth) =>
      if !live.gcpClient(auth) then Aborted([], CallFailed(auth.project))
      else match CredentialsFrom(env, d)
        case Err(f) => Aborted([], f)
        case Ok(c) =>
          var d1 := Substituted(d, c);
          match Selected(ActionsOf(d1), Servers(d1), CloudFunctions)
          case Err(f) => Aborted([], f)
          case Ok(sel) => Outcome(sel, GcpStepFor(WorkflowName(d1), live))
  }

  function GcpData(d: Data, env: Env, live: Live): Data {
    match GcpGate(Servers(d), env)
    case Err(_) => d
    case Ok(auth) => if live.gcpClient(auth) then AfterPayload(d, env) else d
  }

  function PlatformRun(p: Platform, d: Data, env: Env, live: Live): Run {
    match p
    case Lambda => AwsRun(d, env, live)
    case GitHubActions => GitHubRun(d, env, live)
    case OpenWhisk => OwRun(d, live)
    case CloudFunctions => GcpRun(d, env, live)
  }

  /** The document a routine leaves behind: unchanged, or rewritten by create_secret_payload. */
  function PlatformData(p: Platform, d: Data, env: Env, live: Live): (r: Data)
    ensures r == d || (CredentialsFrom(env, d).Ok? && r == Substituted(d, CredentialsFrom(env, d).value))
  {
    match p
    case Lambda => AwsData(d, env)
    case GitHubActions => GitHubData(d, env, live)
    case OpenWhisk => d
    case CloudFunctions => GcpData(d, env, live)
  }

  // ---------------------------------------------------------------------------
  // Properties of the routines.

  lemma AwsRunStable(d: Data, env: Env, live: Live)
    requires CredentialsFrom(env, d).Ok?
    ensures var d1 := Substituted(d, CredentialsFrom(env, d).value);
      AwsRun(d1, env, live) == AwsRun(d, env, live) && AwsData(d1, env) == d1
  {
    SubstitutionIdempotent(env, d);
  }

  lemma GitHubRunStable(d: Data, env: Env, live: Live)
    requires CredentialsFrom(env, d).Ok?
    ensures var d1 := Substituted(d, CredentialsFrom(env, d).value);
      GitHubRun(d1, env, live) == GitHubRun(d, env, live) && GitHubData(d1, env, live) == d1
  {
    var c := CredentialsFrom(env, d).value;
    var d1 := Substituted(d, c);
    AfterPayloadStable(d, env);
    ServersOfSubstituted(d, c);
    assert ActionsOf(d1) == ActionsOf(d);
    SelectedSubstituted(ActionsOf(d), Servers(d), c, GitHubActions);
    GitHubSame(d, d1, env, live);
  }

  /** The payload step rewrites a document it has already rewritten to itself. */
  lemma AfterPayloadStable(d: Data, env: Env)
    requires CredentialsFrom(env, d).Ok?
    ensures var d1 := Substituted(d, CredentialsFrom(env, d).value);
      AfterPayload(d1, env) == d1 && AfterPayload(d, env) == d1
  {
    SubstitutionIdempotent(env, d);
  }

  /** Two documents with the same routing and the same document after the payload step give the same GitHub routine. */
  lemma GitHubSame(d: Data, d1: Data, env: Env, live: Live)
    requires Selected(ActionsOf(d1), Servers(d1), GitHubActions) == Selected(ActionsOf(d), Servers(d), GitHubActions)
    requires AfterPayload(d1, env) == AfterPayload(d, env) == d1
    ensures GitHubRun(d1, env, live) == GitHubRun(d, env, live)
    ensures GitHubData(d1, env, live) == d1
  {
  }

  lemma OwRunStable(d: Data, env: Env, live: Live)
    requires CredentialsFrom(env, d).Ok?
    ensures OwRun(Substituted(d, CredentialsFrom(env, d).value), live) == OwRun(d, live)
  {
    var c := CredentialsFrom(env, d).value;
    var d1 := Substituted(d, c);
    ServersOfSubstituted(d, c);
    assert ActionsOf(d1) == ActionsOf(d) && WorkflowName(d1) == WorkflowName(d);
    SelectedSubstituted(ActionsOf(d), Servers(d), c, OpenWhisk);
    OwServerAsWrittenSubstituted(Servers(d), c);
  }

  /**
   * A workflow whose one server has an OpenWhisk alias other than
   * "openwhisk" has its action routed to OpenWhisk, yet the routine aborts
   * for want of an OpenWhisk server.
   */
  lemma OwRunAliasAborts(d: Data, e: Entry, a: Action, live: Live)
    requires Servers(d) == [e] && ActionsOf(d) == [a] && a.faasServer == e.name
    requires "FaaSType" in e.fields && Lower(e.fields["FaaSType"]) in Aliases(OpenWhisk) - {"openwhisk"}
    ensures Selected(ActionsOf(d), Servers(d), OpenWhisk) == Ok([a])
    ensures OwRun(d, live) == Aborted([], NoPlatformServer)
  {
    OwAliasRejected(e, a);
  }

  /** The Cloud Functions routine is unaffected by an earlier payload unless its server uses its own key placeholder. */
  lemma GcpRunStable(d: Data, env: Env, live: Live)
    requires CredentialsFrom(env, d).Ok?
    requires GcpServer(Servers(d)).Some? ==> !NamedKeyPlaceholder(GcpServer(Servers(d)).value)
    ensures var d1 := Substituted(d, CredentialsFrom(env, d).value);
      GcpRun(d1, env, live) == GcpRun(d, env, live) && GcpData(d1, env, live) == d1
  {
    var c := CredentialsFrom(env, d).value;
    SubstitutionIdempotent(env, d);
    ServersOfSubstituted(d, c);
    GcpGateSubstituted(env, d);
  }

  /**
   * Every routine yields the same run, and leaves the document rewritten,
   * when it starts from a document another routine has already rewritten,
   * except a Cloud Functions routine whose server uses its own key
   * placeholder (see Gates.GcpKeyDependsOnOrder).
   */
  lemma RunsStable(p: Platform, d: Data, env: Env, live: Live)
    requires CredentialsFrom(env, d).Ok?
    requires p == CloudFunctions && GcpServer(Servers(d)).Some? ==> !NamedKeyPlaceholder(GcpServer(Servers(d)).value)
    ensures var d1 := Substituted(d, CredentialsFrom(env, d).value);
      PlatformRun(p, d1, env, live) == PlatformRun(p, d, env, live) && PlatformData(p, d1, env, live) == d1
  {
    match p
    case Lambda => AwsRunStable(d, env, live);
    case GitHubActions => GitHubRunStable(d, env, live);
    case OpenWhisk => OwRunStable(d, env, live);
    case CloudFunctions => GcpRunStable(d, env, live);
  }

  /** Missing AWS variables or a missing GH_PAT stop the Lambda routine before any function is touched. */
  lemma AwsRunGates(d: Data, env: Env, live: Live)
    ensures !EnvSet(env, "AWS_ACCESSKEY") || !EnvSet(env, "AWS_SECRETKEY") || !EnvSet(env, "AWS_ARN") ==>
      AwsRun(d, env, live).Aborted? && AwsRun(d, env, live).steps == [] && AwsData(d, env) == d
    ensures !EnvSet(env, "GH_PAT") ==> AwsRun(d, env, live) == Aborted([], (if AwsGate(env).Some? then AwsGate(env).value else MissingEnv("GH_PAT")))
    ensures !EnvSet(env, "GH_PAT") ==> AwsData(d, env) == d
  {
  }

  // ---------------------------------------------------------------------------
  // Routines run in turn on the shared document.

  /** The document after the routines of runs have run in turn, the k-th meeting live(k). */
  function DataAfter(runs: seq<(Platform, Run)>, d: Data, env: Env, live: nat -> Live): Data
    decreases |runs|
  {
    if runs == [] then d
    else
      var k := |runs| - 1;
      PlatformData(runs[k].0, DataAfter(runs[..k], d, env, live), env, live(k))
  }

  /** However many routines have run, the document is as loaded or rewritten once by create_secret_payload. */
  lemma {:induction false} DataAfterRewritten(runs: seq<(Platform, Run)>, d: Data, env: Env, live: nat -> Live)
    ensures var r := DataAfter(runs, d, env, live);
      r == d || (CredentialsFrom(env, d).Ok? && r == Substituted(d, CredentialsFrom(env, d).value))
    decreases |runs|
  {
    if runs != [] {
      var k := |runs| - 1;
      DataAfterRewritten(runs[..k], d, env, live);
      if DataAfter(runs[..k], d, env, live) != d {
        AfterPayloadStable(d, env);
      }
    }
  }

  /**
   * Unless the first Cloud Functions server uses its own key placeholder, a
   * routine makes the same run on the document earlier routines left behind
   * as on the document as loaded: the order main visits the platforms in
   * does not matter.
   */
  lemma OrderIrrelevant(runs: seq<(Platform, Run)>, p: Platform, d: Data, env: Env, live: nat -> Live, l: Live)
    requires GcpServer(Servers(d)).Some? ==> !NamedKeyPlaceholder(GcpServer(Servers(d)).value)
    ensures PlatformRun(p, DataAfter(runs, d, env, live), env, l) == PlatformRun(p, d, env, l)
  {
    DataAfterRewritten(runs, d, env, live);
    if DataAfter(runs, d, env, live) != d {
      RunsStable(p, d, env, l);
    }
  }

  /** The run the next routine makes, given the runs made before it: the routine on the document they left behind. */
  function NextRun(d: Data, env: Env, live: nat -> Live): (Platform, seq<(Platform, Run)>) -> Run {
    (p: Platform, runs: seq<(Platform, Run)>) => PlatformRun(p, DataAfter(runs, d, env, live), env, live(|runs|))
  }

  // ---------------------------------------------------------------------------
  // main's loop as a function of the order the FaaSTypes are visited in and
  // of the run each routine makes.

  /**
   * The outcome and runs of main's loop over the FaaSTypes in the order ts,
   * after the runs already made: an unrecognised type is skipped, next gives
   * the run of a recognised one, and the first routine that aborts stops the
   * loop.
   */
  function Loop(ts: seq<string>, next: (Platform, seq<(Platform, Run)>) -> Run, runs: seq<(Platform, Run)>): (bool, seq<(Platform, Run)>)
    decreases |ts|
  {
    if ts == [] then (true, runs)
    else match Route(ts[0])
      case None => Loop(ts[1..], next, runs)
      case Some(p) =>
        var run := next(p, runs);
        if run.Aborted? then (false, runs + [(p, run)])
        else Loop(ts[1..], next, runs + [(p, run)])
  }

  /** Every run is the one next gives after the runs before it. */
  predicate Follows(runs: seq<(Platform, Run)>, next: (Platform, seq<(Platform, Run)>) -> Run) {
    forall i :: 0 <= i < |runs| ==> runs[i].1 == next(runs[i].0, runs[..i])
  }

  /** The platforms of the recognised types of ts, in order (repeated when two spellings name one platform). */
  function RoutedPlatforms(ts: seq<string>): seq<Platform> {
    if ts == [] then []
    else (if Route(ts[0]).Some? then [Route(ts[0]).value] else []) + RoutedPlatforms(ts[1..])
  }

  function Platforms(runs: seq<(Platform, Run)>): seq<Platform> {
    if runs == [] then [] else [runs[0].0] + Platforms(runs[1..])
  }

  /** The loop only appends runs after those already made. */
  lemma {:induction false} LoopExtends(ts: seq<string>, next: (Platform, seq<(Platform, Run)>) -> Run, runs: seq<(Platform, Run)>)
    ensures var r := Loop(ts, next, runs); |runs| <= |r.1| && r.1[..|runs|] == runs
    decreases |ts|
  {
    if ts != [] && Route(ts[0]).Some? {
      var p := Route(ts[0]).value;
      var run := next(p, runs);
      var runs' := runs + [(p, run)];
      assert runs'[..|runs|] == runs;
      if !run.Aborted? {
        LoopExtends(ts[1..], next, runs');
        var r := Loop(ts[1..], next, runs');
        assert r.1[..|runs'|][..|runs|] == r.1[..|runs|];
      }
    } else if ts != [] {
      LoopExtends(ts[1..], next, runs);
    }
  }

  /** Each run the loop adds is the one next gives after the runs before it. */
  lemma {:induction false} LoopFollows(ts: seq<string>, next: (Platform, seq<(Platform, Run)>) -> Run, runs: seq<(Platform, Run)>)
    requires Follows(runs, next)
    ensures Follows(Loop(ts, next, runs).1, next)
    decreases |ts|
  {
    if ts != [] && Route(ts[0]).Some? {
      var p := Route(ts[0]).value;
      var run := next(p, runs);
      var runs' := runs + [(p, run)];
      assert runs'[..|runs|] == runs;
      assert forall i :: 0 <= i < |runs| ==> runs'[..i] == runs[..i];
      assert Follows(runs', next);
      if !run.Aborted? {
        LoopFollows(ts[1..], next, runs');
      }
    } else if ts != [] {
      LoopFollows(ts[1..], next, runs);
    }
  }

  /** Every run the loop adds but the last finishes, and the loop succeeds exactly when all of them finish. */
  lemma {:induction false} LoopFinishes(ts: seq<string>, next: (Platform, seq<(Platform, Run)>) -> Run, runs: seq<(Platform, Run)>)
    ensures var r := Loop(ts, next, runs);
      |runs| <= |r.1| &&
      (forall i :: |runs| <= i < |r.1| - 1 ==> r.1[i].1.Finished?) &&
      (r.0 <==> forall i :: |runs| <= i < |r.1| ==> r.1[i].1.Finished?)
    decreases |ts|
  {
    LoopExtends(ts, next, runs);
    if ts != [] && Route(ts[0]).Some? {
      var p := Route(ts[0]).value;
      var run := next(p, runs);
      var runs' := runs + [(p, run)];
      if run.Aborted? {
        assert runs'[|runs|] == (p, run);
      } else {
        LoopFinishes(ts[1..], next, runs');
        LoopExtends(ts[1..], next, runs');
        var r := Loop(ts[1..], next, runs');
        assert r.1[|runs|] == r.1[..|runs'|][|runs|] == (p, run);
      }
    } else if ts != [] {
      LoopFinishes(ts[1..], next, runs);
    }
  }

  /**
   * The runs the loop adds are for the recognised platforms of ts, in order;
   * when the loop succeeds, it has run the routine of every recognised type.
   */
  lemma {:induction false} LoopPlatforms(ts: seq<string>, next: (Platform, seq<(Platform, Run)>) -> Run, runs: seq<(Platform, Run)>)
    ensures var r := Loop(ts, next, runs);
      |runs| <= |r.1| && Platforms(r.1[|runs|..]) <= RoutedPlatforms(ts) &&
      (r.0 ==> Platforms(r.1[|runs|..]) == RoutedPlatforms(ts))
    decreases |ts|
  {
    LoopExtends(ts, next, runs);
    if ts != [] && Route(ts[0]).Some? {
      var p := Route(ts[0]).value;
      var run := next(p, runs);
      var runs' := runs + [(p, run)];
      if run.Aborted? {
        assert runs'[|runs|..] == [(p, run)];
        assert Platforms([(p, run)]) == [p];
      } else {
        LoopPlatforms(ts[1..], next, runs');
        LoopExtends(ts[1..], next, runs');
        var r := Loop(ts[1..], next, runs');
        assert r.1[|runs|..][1..] == r.1[|runs'|..];
        assert r.1[|runs|..][0] == r.1[..|runs'|][|runs|] == (p, run);
      }
    } else if ts != [] {
      LoopPlatforms(ts[1..], next, runs);
    }
  }

  /**
   * What main's loop does, over the FaaSTypes in the order ts: the i-th run
   * is the run of its platform's routine on the document the runs before it
   * left behind, meeting the world live(i); the runs are for the recognised
   * types in order; every run but the last finishes; and the loop succeeds
   * exactly when every run finishes, having then run every recognised type.
   */
  lemma LoopRuns(ts: seq<string>, d: Data, env: Env, live: nat -> Live)
    ensures var r := Loop(ts, NextRun(d, env, live), []);
      forall i :: 0 <= i < |r.1| ==> r.1[i].1 == PlatformRun(r.1[i].0, DataAfter(r.1[..i], d, env, live), env, live(i))
    ensures var r := Loop(ts, NextRun(d, env, live), []);
      && Platforms(r.1) <= RoutedPlatforms(ts)
      && (forall i :: 0 <= i < |r.1| - 1 ==> r.1[i].1.Finished?)
      && (r.0 <==> forall i :: 0 <= i < |r.1| ==> r.1[i].1.Finished?)
      && (r.0 ==> Platforms(r.1) == RoutedPlatforms(ts))
  {
    var next := NextRun(d, env, live);
    var r := Loop(ts, next, []);
    LoopFollows(ts, next, []);
    LoopFinishes(ts, next, []);
    LoopPlatforms(ts, next, []);
    assert r.1[0..] == r.1;
  }

  // ---------------------------------------------------------------------------
  // The routines on the shared document.

  method DeployToAws(wf: Workflow, env: Env, live: Live) returns (run: Run)
    modifies wf
    ensures run == AwsRun(old(wf.data), env, live) && wf.data == AwsData(old(wf.data), env)
  {
    var gate := AwsGate(env);
    if gate.Some? {
      return Aborted([], gate.value);
    }
    var payload := wf.CreateSecretPayload(env);
    if payload.Err? {
      return Aborted([], payload.error);
    }
    var sel := FilterActions(ActionsOf(wf.data), Servers(wf.data), Lambda);
    if sel.Err? {
      return Aborted([], sel.error);
    }
    run := DeployEach(sel.value, AwsStepFor(WorkflowName(wf.data), Servers(wf.data), live));
  }

  method DeployToGitHub(wf: Workflow, env: Env, live: Live) returns (run: Run)
    modifies wf
    ensures run == GitHubRun(old(wf.data), env, live) && wf.data == GitHubData(old(wf.data), env, live)
  {
    if !EnvSet(env, "GH_PAT") {
      return Aborted([], MissingEnv("GH_PAT"));
    }
    if !EnvSet(env, "GITHUB_REPOSITORY") {
      return Aborted([], MissingEnv("GITHUB_REPOSITORY"));
    }
    var sel := FilterActions(ActionsOf(wf.data), Servers(wf.data), GitHubActions);
    if sel.Err? {
      return Aborted([], sel.error);
    }
    if sel.value == [] {
      return Finished([]);
    }
    if !live.repoFound {
      return Aborted([], CallFailed(env["GITHUB_REPOSITORY"]));
    }
    var payload := wf.CreateSecretPayload(env);
    if !live.secretsSet {
      return Aborted([], CallFailed(env["GITHUB_REPOSITORY"]));
    }
    run := DeployEach(sel.value, GitHubStepFor(WorkflowName(wf.data), Containers(wf.data), live));
  }

  method DeployToOw(wf: Workflow, live: Live) returns (run: Run)
    ensures run == OwRun(wf.data, live)
  {
    var config := OwServerAsWritten(Servers(wf.data));
    if config.Err? {
      return Aborted([], config.error);
    }
    var sel := FilterActions(ActionsOf(wf.data), Servers(wf.data), OpenWhisk);
    if sel.Err? {
      return Aborted([], sel.error);
    }
    run := DeployEach(sel.value, OwStepFor(WorkflowName(wf.data), live));
  }

  method DeployToGcp(wf: Workflow, env: Env, live: Live) returns (run: Run)
    modifies wf
    ensures run == GcpRun(old(wf.data), env, live) && wf.data == GcpData(old(wf.data), env, live)
  {
    var gate := GcpGate(Servers(wf.data), env);
    if gate.Err? {
      return Aborted([], gate.error);
    }
    if !live.gcpClient(gate.value) {
      return Aborted([], CallFailed(gate.value.project));
    }
    var payload := wf.CreateSecretPayload(env);
    if payload.Err? {
      return Aborted([], payload.error);
    }
    var sel := FilterActions(ActionsOf(wf.data), Servers(wf.data), CloudFunctions);
    if sel.Err? {
      return Aborted([], sel.error);
    }
    run := DeployEach(sel.value, GcpStepFor(WorkflowName(wf.data), live));
  }

  method Dispatch(wf: Workflow, p: Platform, env: Env, live: Live) returns (run: Run)
    modifies wf
    ensures run == PlatformRun(p, old(wf.data), env, live) && wf.data == PlatformData(p, old(wf.data), env, live)
  {
    match p
    case Lambda => run := DeployToAws(wf, env, live);
    case GitHubActions => run := DeployToGitHub(wf, env, live);
    case OpenWhisk => run := DeployToOw(wf, live);
    case CloudFunctions => run := DeployToGcp(wf, env, live);
  }

  /** The checks main makes before deploying anything. */
  predicate Prechecked(d: Data, checks: Checks) {
    checks.dagOk && Checked(Stores(d)).Ok? && FaaSTypes(Servers(d)) != {}
  }

  /**
   * main. When the checks pass, its exit status and runs are those of the
   * loop over the FaaSTypes in the order the set yields them (order); the
   * meaning of that loop is stated by LoopRuns.
   */
  method Register(wf: Workflow, path: string, env: Env, checks: Checks, live: nat -> Live)
    returns (exit: int, runs: seq<(Platform, Run)>, order: seq<string>)
    modifies wf
    ensures !checks.schemaOk ==> exit == 1 && runs == [] && wf.data == old(wf.data)
    ensures checks.schemaOk ==>
      var d := old(wf.data)[WORKFLOW_FILE := Str(path)];
      && (!Prechecked(d, checks) ==> exit == 1 && runs == [] && wf.data == d)
      && (Prechecked(d, checks) ==>
            (forall t :: t in order <==> t in FaaSTypes(Servers(d))) &&
            (exit == 0) == Loop(order, NextRun(d, env, live), []).0 && runs == Loop(order, NextRun(d, env, live), []).1)
      && wf.data == DataAfter(runs, d, env, live)
    ensures forall i, j :: 0 <= i < j < |order| ==> order[i] != order[j]
    ensures exit == 0 || exit == 1
  {
    runs, order := [], [];
    if !checks.schemaOk {
      return 1, [], [];
    }
    wf.data := wf.data[WORKFLOW_FILE := Str(path)];
    if !checks.dagOk {
      return 1, [], [];
    }
    var s3 := ValidateStores(Stores(wf.data));
    if s3.Err? {
      return 1, [], [];
    }
    var types := CollectFaaSTypes(Servers(wf.data));
    if types == {} {
      return 1, [], [];
    }
    order := IterationOrder(types);
    var ok;
    ok, runs := DeployPlatforms(wf, order, env, live);
    exit := if ok then 0 else 1;
  }

  /** The order in which iterating a set of FaaSTypes yields them, which Python leaves unspecified. */
  method IterationOrder(types: set<string>) returns (ts: seq<string>)
    ensures forall t :: t in ts <==> t in types
    ensures forall i, j :: 0 <= i < j < |ts| ==> ts[i] != ts[j]
  {
    ts := [];
    var remaining := types;
    while remaining != {}
      invariant remaining <= types
      invariant forall t :: t in ts <==> t in types - remaining
      invariant forall i, j :: 0 <= i < j < |ts| ==> ts[i] != ts[j]
      decreases remaining
    {
      var t :| t in remaining;
      assert forall i :: 0 <= i < |ts| ==> ts[i] in ts && ts[i] != t;
      ts := ts + [t];
      remaining := remaining - {t};
    }
  }

  /**
   * The loop of main over the FaaSTypes in the order ts: each recognised
   * type runs its routine on the shared document, and the first routine that
   * aborts stops the loop.
   */
  method DeployPlatforms(wf: Workflow, ts: seq<string>, env: Env, live: nat -> Live) returns (ok: bool, runs: seq<(Platform, Run)>)
    modifies wf
    ensures (ok, runs) == Loop(ts, NextRun(old(wf.data), env, live), [])
    ensures wf.data == DataAfter(runs, old(wf.data), env, live)
  {
    ghost var d := wf.data;
    runs := [];
    for i := 0 to |ts|
      invariant Loop(ts, NextRun(d, env, live), []) == Loop(ts[i..], NextRun(d, env, live), runs)
      invariant wf.data == DataAfter(runs, d, env, live)
    {
      assert ts[i..][1..] == ts[i + 1..];
      var route := Route(ts[i]);
      if route.Some? {
        var p := route.value;
        var run := Dispatch(wf, p, env, live(|runs|));
        assert (runs + [(p, run)])[..|runs|] == runs;
        runs := runs + [(p, run)];
        if run.Aborted? {
          return false, runs;
        }
      }
    }
    assert ts[|ts|..] == [];
    return true, runs;
  }
}
