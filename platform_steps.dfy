/**
 * The per-action decisions of deploy_to_github, deploy_to_ow and
 * deploy_to_gcp in register_workflow.py, together with the names and
 * container images they derive from the workflow document.
 */
module PlatformSteps {
  import opened Basics
  import opened Text
  import opened WorkflowModel
  import opened Deployment
  import Routing

  // ---------------------------------------------------------------------------
  // Names.

  /** The deployed name of an action: WorkflowName, a dash, the action name. */
  function PrefixedName(workflowName: string, action: string): (r: string)
    ensures |r| == |workflowName| + 1 + |action|
    ensures r[..|workflowName|] == workflowName && r[|workflowName|] == '-' && r[|workflowName| + 1..] == action
  {
    workflowName + "-" + action
  }

  /** Within one workflow, distinct actions get distinct prefixed names. */
  lemma PrefixedNameInjective(w: string, a: string, b: string)
    requires PrefixedName(w, a) == PrefixedName(w, b)
    ensures a == b
  {
    assert a == PrefixedName(w, a)[|w| + 1..];
  }

  /** The Cloud Functions name: the prefixed name with '_' turned into '-', then lower-cased. */
  function GcpFunctionName(workflowName: string, action: string): (r: string)
    ensures |r| == |workflowName| + 1 + |action|
    ensures '_' !in r
    ensures forall i :: 0 <= i < |r| ==> !('A' <= r[i] <= 'Z')
  {
    Lower(ReplaceChar(PrefixedName(workflowName, action), '_', '-'))
  }

  /**
   * The Cloud Functions name is not injective: two actions whose names
   * differ only in '_' against '-' (or in letter case) are deployed to the
   * same function, the later one overwriting the earlier.
   */
  lemma GcpFunctionNameCollides()
    ensures "a_b" != "a-b" && GcpFunctionName("wf", "a_b") == GcpFunctionName("wf", "a-b")
    ensures "Ab" != "ab" && GcpFunctionName("wf", "Ab") == GcpFunctionName("wf", "ab")
  {
    assert GcpFunctionName("wf", "a_b") == "wf-a-b";
    assert GcpFunctionName("wf", "a-b") == "wf-a-b";
    assert GcpFunctionName("wf", "Ab") == "wf-ab";
    assert GcpFunctionName("wf", "ab") == "wf-ab";
  }

  /** The Cloud Functions resource path of a function. */
  function GcpFunctionPath(project: string, region: string, name: string): (r: string)
    ensures EndsWith(r, "/functions/" + name)
    ensures StartsWith(r, "projects/" + project + "/locations/" + region)
  {
    var loc := "projects/" + project + "/locations/" + region;
    assert (loc + "/functions/" + name)[..|loc|] == loc;
    loc + "/functions/" + name
  }

  /** The repository variable that tells a GitHub run where the workflow file lives. */
  function PayloadRepoVariable(workflowName: string): (r: string)
    ensures |r| == |workflowName| + |"_PAYLOAD_REPO"|
    ensures EndsWith(r, "_PAYLOAD_REPO")
    ensures forall i :: 0 <= i < |workflowName| ==> r[i] == UpperChar(workflowName[i])
  {
    Upper(workflowName) + "_PAYLOAD_REPO"
  }

  /** Its value: the repository, a slash, the uploaded workflow file name. */
  function PayloadRepoValue(repository: string, workflowFile: string): (r: string)
    ensures StartsWith(r, repository + "/") && EndsWith(r, workflowFile)
  {
    assert (repository + "/" + workflowFile)[..|repository| + 1] == repository + "/";
    repository + "/" + workflowFile
  }

  /** Where the GitHub Actions workflow of an action is stored in the repository. */
  function WorkflowPath(prefixed: string): (r: string)
    ensures StartsWith(r, ".github/workflows/") && EndsWith(r, ".yml")
  {
    assert (".github/workflows/" + prefixed + ".yml")[..18] == ".github/workflows/";
    ".github/workflows/" + prefixed + ".yml"
  }

  // ---------------------------------------------------------------------------
  // Container images.

  const GITHUB_IMAGE := "ghcr.io/faasr/github-actions-tidyverse"
  const OPENWHISK_IMAGE := "ghcr.io/faasr/openwhisk-tidyverse"
  const LAMBDA_IMAGE := "145342739029.dkr.ecr.us-east-1.amazonaws.com/aws-lambda-tidyverse:latest"
  const GCP_IMAGE := "gcr.io/faasr-project/gcp-cloud-functions-tidyverse:latest"

  /**
   * The container image of an action. GitHub Actions and OpenWhisk use
   * get(action, default), so a listed empty image stays empty; Lambda and
   * Cloud Functions replace any empty value by their default.
   */
  function Image(containers: map<string, string>, action: string, default: string, emptyFallsBack: bool): (r: string)
    ensures action !in containers ==> r == default
    ensures action in containers && containers[action] != "" ==> r == containers[action]
    ensures action in containers && containers[action] == "" ==> r == (if emptyFallsBack then default else "")
    ensures emptyFallsBack && default != "" ==> r != ""
  {
    if action in containers && (containers[action] != "" || !emptyFallsBack) then containers[action] else default
  }

  // ---------------------------------------------------------------------------
  // GitHub Actions: one workflow file per action.

  /** The template between the name line and the container line. */
  const WORKFLOW_TRIGGER :=
    "\non:\n  workflow_dispatch:\n    inputs:\n"
    + "      OVERWRITTEN:\n        description: 'overwritten fields'\n        required: true\n"
    + "      PAYLOAD_URL:\n        description: 'url to payload'\n        required: true\n"
    + "jobs:\n  run_docker_image:\n    runs-on: ubuntu-latest\n"

  /** The template after the container line. */
  const WORKFLOW_RUN :=
    "    env:\n"
    + "      TOKEN: ${{ secrets.GH_PAT }}\n"
    + "      SECRET_PAYLOAD: ${{ secrets.SECRET_PAYLOAD }}\n"
    + "      OVERWRITTEN: ${{ github.event.inputs.OVERWRITTEN }}\n"
    + "      PAYLOAD_URL: ${{ github.event.inputs.PAYLOAD_URL }}\n"
    + "    steps:\n    - name: run Python\n      run: |\n        cd /action\n        python3 faasr_entry.py\n"

  /** A template of that shape: a name line, fixed text, a container line, fixed text. */
  function Fill(prefixed: string, trigger: string, image: string, run: string): string {
    "name: " + (prefixed + ("\n" + (trigger + ("    container: " + (image + ("\n" + run))))))
  }

  /** The filled text starts with its name line and fixed text, and ends with its container line and fixed text. */
  lemma FillParts(prefixed: string, trigger: string, image: string, run: string)
    ensures StartsWith(Fill(prefixed, trigger, image, run), "name: " + prefixed + "\n" + trigger)
    ensures EndsWith(Fill(prefixed, trigger, image, run), "    container: " + image + "\n" + run)
  {
    var head := "name: " + prefixed + "\n" + trigger;
    var tail := "    container: " + image + "\n" + run;
    assert Fill(prefixed, trigger, image, run) == head + tail;
    assert (head + tail)[..|head|] == head;
    assert (head + tail)[|head|..] == tail;
  }

  /**
   * The generated workflow file: the template with the prefixed action name
   * on its first line and the image on its container line.
   */
  function WorkflowText(prefixed: string, image: string): (r: string)
    ensures StartsWith(r, "name: " + prefixed + "\n" + WORKFLOW_TRIGGER)
    ensures EndsWith(r, "    container: " + image + "\n" + WORKFLOW_RUN)
  {
    FillParts(prefixed, WORKFLOW_TRIGGER, image, WORKFLOW_RUN);
    Fill(prefixed, WORKFLOW_TRIGGER, image, WORKFLOW_RUN)
  }

  /** A common prefix cancels. */
  lemma DropPrefix(a: string, b: string, c: string)
    requires a + b == a + c
    ensures b == c
  {
    assert b == (a + b)[|a|..] && c == (a + c)[|a|..];
  }

  /** A common suffix cancels. */
  lemma DropSuffix(a: string, b: string, c: string)
    requires a + c == b + c
    ensures a == b
  {
    assert a == (a + c)[..|a|] && b == (b + c)[..|b|];
  }

  /** Every position of a line without a break holds no break; the break follows it. */
  lemma FirstBreak(p: string, s: string)
    requires '\n' !in p
    ensures forall k :: 0 <= k < |p| ==> (p + ("\n" + s))[k] != '\n'
    ensures (p + ("\n" + s))[|p|] == '\n'
  {
    assert forall k :: 0 <= k < |p| ==> (p + ("\n" + s))[k] == p[k];
  }

  /** A line without a break is recovered from the text it starts. */
  lemma SplitAtLineBreak(p1: string, s1: string, p2: string, s2: string)
    requires '\n' !in p1 && '\n' !in p2
    requires p1 + ("\n" + s1) == p2 + ("\n" + s2)
    ensures p1 == p2 && s1 == s2
  {
    FirstBreak(p1, s1);
    FirstBreak(p2, s2);
    assert |p1| == |p2|;
    var r := p1 + ("\n" + s1);
    assert p1 == r[..|p1|] && p2 == (p2 + ("\n" + s2))[..|p2|];
    DropPrefix(p1, "\n" + s1, "\n" + s2);
    DropPrefix("\n", s1, s2);
  }

  /** With the fixed parts the same, the filled text determines the name (without a break) and the image. */
  lemma FillInjective(p1: string, i1: string, p2: string, i2: string, trigger: string, run: string)
    requires '\n' !in p1 && '\n' !in p2
    requires Fill(p1, trigger, i1, run) == Fill(p2, trigger, i2, run)
    ensures p1 == p2 && i1 == i2
  {
    var c1 := "    container: " + (i1 + ("\n" + run));
    var c2 := "    container: " + (i2 + ("\n" + run));
    DropPrefix("name: ", p1 + ("\n" + (trigger + c1)), p2 + ("\n" + (trigger + c2)));
    SplitAtLineBreak(p1, trigger + c1, p2, trigger + c2);
    DropPrefix(trigger, c1, c2);
    DropPrefix("    container: ", i1 + ("\n" + run), i2 + ("\n" + run));
    DropSuffix(i1, i2, "\n" + run);
  }

  /**
   * Different actions get different files: for names without a line break,
   * the text determines both the prefixed name and the image.
   */
  lemma WorkflowTextInjective(p1: string, i1: string, p2: string, i2: string)
    requires '\n' !in p1 && '\n' !in p2
    requires WorkflowText(p1, i1) == WorkflowText(p2, i2)
    ensures p1 == p2 && i1 == i2
  {
    FillInjective(p1, i1, p2, i2, WORKFLOW_TRIGGER, WORKFLOW_RUN);
  }

  /** What the repository answers while one workflow file is written. */
  datatype FileLive = FileLive(
    probe: Call,       // get_contents of the workflow path
    existing: string,  // its decoded content when found
    update: Call,      // update_file when the content differs
    create: bool)      // create_file when the file is absent

  /** The create branch reached by a not-found error. */
  function CreateFile(path: string, live: FileLive): Step {
    if live.create then Done(path, Created, None) else Failed(path, CallFailed(path))
  }

  /**
   * Writing one workflow file: unchanged when the stored text equals the new
   * one up to surrounding whitespace, updated otherwise; a not-found error
   * (from the probe or the update, which share one try block) creates it.
   */
  function FileStep(path: string, desired: string, live: FileLive): (r: Step)
    ensures r.unit == path
    ensures r.Done? ==> r.config == None
    ensures r.Done? && r.kind == Unchanged <==> live.probe == Succeeded && Strip(live.existing) == Strip(desired)
    ensures live.probe == Missing ==> r.Failed? || r.kind == Created
  {
    match live.probe
    case Raised => Failed(path, ProbeFailed(path))
    case Missing => CreateFile(path, live)
    case Succeeded =>
      if Strip(live.existing) == Strip(desired) then Done(path, Unchanged, None)
      else match live.update
        case Succeeded => Done(path, Updated, None)
        case Missing => CreateFile(path, live)
        case Raised => Failed(path, CallFailed(path))
  }

  /**
   * The GitHub step of one action: its workflow file, named after the
   * prefixed action, left alone exactly when the stored text already holds
   * the action's name and image up to surrounding whitespace.
   */
  function GitHubStep(workflowName: string, containers: map<string, string>, a: Action, live: FileLive): (r: Step)
    ensures r.unit == WorkflowPath(PrefixedName(workflowName, a.name))
    ensures r.Done? ==> r.config == None
    ensures r.Done? && r.kind == Unchanged <==>
      live.probe == Succeeded
      && Strip(live.existing) == Strip(WorkflowText(PrefixedName(workflowName, a.name), Image(containers, a.name, GITHUB_IMAGE, false)))
    ensures live.probe == Missing ==> r.Failed? || r.kind == Created
  {
    var prefixed := PrefixedName(workflowName, a.name);
    var desired := WorkflowText(prefixed, Image(containers, a.name, GITHUB_IMAGE, false));
    FileStep(WorkflowPath(prefixed), desired, live)
  }

  /**
   * Re-deploying is a no-op: a file whose stored text is what would be
   * written (up to surrounding whitespace) is left alone whatever the update
   * call would do; and a file whose text differs is never reported unchanged.
   */
  lemma FileStepUnchangedIff(path: string, desired: string, live: FileLive)
    requires live.probe == Succeeded
    ensures FileStep(path, desired, live) == Done(path, Unchanged, None) <==> Strip(live.existing) == Strip(desired)
    ensures Strip(live.existing) == Strip(desired) ==>
      forall u :: FileStep(path, desired, live.(update := u)) == Done(path, Unchanged, None)
  {
  }

  /** An absent file is only ever created; it is never reported unchanged or updated. */
  lemma FileStepMissingCreates(path: string, desired: string, live: FileLive)
    requires live.probe == Missing
    ensures FileStep(path, desired, live) == (if live.create then Done(path, Created, None) else Failed(path, CallFailed(path)))
  {
  }

  // ---------------------------------------------------------------------------
  // OpenWhisk: wsk action update or create.

  /** What the wsk command line answers for one action. */
  datatype OwLive = OwLive(found: bool, commandOk: bool)

  /**
   * The OpenWhisk step: an action that `wsk action get` finds is updated,
   * one it does not find (or whose probe fails for any reason) is created,
   * and a non-zero exit status of that command stops the run.
   */
  function OwStep(workflowName: string, a: Action, live: OwLive): (r: Step)
    ensures r.Done? <==> live.commandOk
    ensures r.Done? ==> r.unit == PrefixedName(workflowName, a.name) && (r.kind == Updated <==> live.found)
    ensures r.Done? ==> r.kind != Unchanged
  {
    var name := PrefixedName(workflowName, a.name);
    if !live.commandOk then Failed(name, CallFailed(name))
    else if live.found then Done(name, Updated, None)
    else Done(name, Created, None)
  }

  // ---------------------------------------------------------------------------
  // Cloud Functions.

  /** What the Cloud Functions service answers for one function. */
  datatype GcpLive = GcpLive(
    probe: Call,    // get_function
    update: Call,   // update_function and waiting for the operation
    create: bool)   // create_function and waiting for the operation

  /**
   * The Cloud Functions step: found functions are updated; a not-found error
   * from the probe or from the update (one try block) creates the function.
   */
  function GcpStep(workflowName: string, a: Action, live: GcpLive): Step {
    var name := GcpFunctionName(workflowName, a.name);
    var create := if live.create then Done(name, Created, None) else Failed(name, CallFailed(name));
    match live.probe
    case Raised => Failed(name, ProbeFailed(name))
    case Missing => create
    case Succeeded =>
      match live.update
      case Succeeded => Done(name, Updated, None)
      case Missing => create
      case Raised => Failed(name, CallFailed(name))
  }

  /**
   * A function the probe finds is reported updated exactly when the update
   * succeeds; one it does not find is never reported updated; no step is
   * ever reported unchanged (there is no content comparison).
   */
  lemma GcpStepBranch(workflowName: string, a: Action, live: GcpLive)
    ensures live.probe == Succeeded ==> (GcpStep(workflowName, a, live).Done? && GcpStep(workflowName, a, live).kind == Updated <==> live.update == Succeeded)
    ensures live.probe == Missing ==> !(GcpStep(workflowName, a, live).Done? && GcpStep(workflowName, a, live).kind == Updated)
    ensures GcpStep(workflowName, a, live).Done? ==> GcpStep(workflowName, a, live).kind != Unchanged
    ensures GcpStep(workflowName, a, live).unit == GcpFunctionName(workflowName, a.name)
  {
  }

  /**
   * The region Cloud Functions are deployed in. The selection loop assigns
   * the region at every selected action, so the last one's server decides;
   * with no selected action (or an unknown server) it is us-central1.
   */
  function GcpRegion(selected: seq<Action>, servers: seq<Entry>): (r: string)
    ensures selected == [] ==> r == "us-central1"
    ensures selected != [] ==>
      || (exists i :: 0 <= i < |servers| && servers[i].name == selected[|selected| - 1].faasServer
            && (forall j :: 0 <= j < i ==> servers[j].name != servers[i].name)
            && r == Get(servers[i].fields, "Region", "us-central1"))
      || ((forall i :: 0 <= i < |servers| ==> servers[i].name != selected[|selected| - 1].faasServer) && r == "us-central1")
  {
    if selected == [] then "us-central1"
    else RegionOf(servers, selected[|selected| - 1].faasServer)
  }

  /** The Region of the first server with that name, us-central1 by default. */
  function RegionOf(servers: seq<Entry>, name: string): (r: string)
    ensures || (exists i :: 0 <= i < |servers| && servers[i].name == name
                  && (forall j :: 0 <= j < i ==> servers[j].name != name)
                  && r == Get(servers[i].fields, "Region", "us-central1"))
            || ((forall i :: 0 <= i < |servers| ==> servers[i].name != name) && r == "us-central1")
  {
    if servers == [] then "us-central1"
    else if servers[0].name == name then Get(servers[0].fields, "Region", "us-central1")
    else
      var r := RegionOf(servers[1..], name);
      assert forall i :: 0 < i < |servers| ==> servers[i] == servers[1..][i - 1];
      r
  }

  /** A server whose lower-cased FaaSType (empty when missing) is one of the Lambda spellings. */
  predicate IsLambdaServer(e: Entry) {
    Lower(Get(e.fields, "FaaSType", "")) in Routing.Aliases(Routing.Lambda)
  }

  /**
   * The region the Lambda client uses: the Region of the first Lambda-typed
   * server (us-east-1 when it has none), or us-east-1 when there is no such
   * server.
   */
  function LambdaRegion(servers: seq<Entry>): (r: string)
    ensures || (exists i :: 0 <= i < |servers| && IsLambdaServer(servers[i])
                  && (forall j :: 0 <= j < i ==> !IsLambdaServer(servers[j]))
                  && r == Get(servers[i].fields, "Region", "us-east-1"))
            || ((forall i :: 0 <= i < |servers| ==> !IsLambdaServer(servers[i])) && r == "us-east-1")
  {
    if servers == [] then "us-east-1"
    else if IsLambdaServer(servers[0]) then Get(servers[0].fields, "Region", "us-east-1")
    else
      var r := LambdaRegion(servers[1..]);
      assert forall i :: 0 < i < |servers| ==> servers[i] == servers[1..][i - 1];
      r
  }
}
