/**
 * deploy_terraform.py: the repository name taken from the git remote, the
 * terraform.tfvars settings, the terraform command line, and the choice
 * between destroy, plan and plan-then-apply.
 */
module TerraformDriver {
  import opened Basics
  import opened Text
  import opened WorkflowModel

  const HTTPS_PREFIX: string := "https://github.com/"
  const SSH_PREFIX: string := "git@github.com:"
  const GIT_SUFFIX: string := ".git"

  /**
   * detect_git_repository as written, on the remote URL git printed (None
   * when git failed): both prefixes and ".git" are removed with str.replace,
   * that is, wherever they occur.
   */
  function ParseRemoteAsWritten(output: Option<string>): (r: Option<string>)
    ensures r.Some? ==> output.Some? && Contains(Strip(output.value), "github.com")
                        && (StartsWith(Strip(output.value), HTTPS_PREFIX) || StartsWith(Strip(output.value), SSH_PREFIX))
  {
    match output
    case None => None
    case Some(text) =>
      var remote := Strip(text);
      if !Contains(remote, "github.com") then None
      else if StartsWith(remote, HTTPS_PREFIX) then Some(ReplaceAll(ReplaceAll(remote, HTTPS_PREFIX, ""), GIT_SUFFIX, ""))
      else if StartsWith(remote, SSH_PREFIX) then Some(ReplaceAll(ReplaceAll(remote, SSH_PREFIX, ""), GIT_SUFFIX, ""))
      else None
  }

  /** Removes a trailing ".git", once. */
  function DropGitSuffix(s: string): (r: string)
    ensures EndsWith(s, GIT_SUFFIX) ==> r + GIT_SUFFIX == s
    ensures !EndsWith(s, GIT_SUFFIX) ==> r == s
  {
    if EndsWith(s, GIT_SUFFIX) then s[..|s| - |GIT_SUFFIX|] else s
  }

  /** The evident intent: drop the leading prefix and a trailing ".git" only. */
  function ParseRemote(output: Option<string>): (r: Option<string>)
    ensures output.None? ==> r.None?
    ensures output.Some? && !StartsWith(Strip(output.value), HTTPS_PREFIX) && !StartsWith(Strip(output.value), SSH_PREFIX) ==> r.None?
  {
    match output
    case None => None
    case Some(text) =>
      var remote := Strip(text);
      if StartsWith(remote, HTTPS_PREFIX) then Some(DropGitSuffix(remote[|HTTPS_PREFIX|..]))
      else if StartsWith(remote, SSH_PREFIX) then Some(DropGitSuffix(remote[|SSH_PREFIX|..]))
      else None
  }

  /** A clone URL parses to what follows its prefix, less a trailing ".git". */
  lemma ParseAfterPrefix(prefix: string, rest: string)
    requires prefix == HTTPS_PREFIX || prefix == SSH_PREFIX
    requires Unpadded(rest)
    ensures ParseRemote(Some(prefix + rest)) == Some(DropGitSuffix(rest))
  {
    var s := prefix + rest;
    assert s[0] == prefix[0];
    assert s[|s| - 1] == if rest == [] then prefix[|prefix| - 1] else rest[|rest| - 1];
    StripUnpadded(s);
    assert s[..|prefix|] == prefix && s[|prefix|..] == rest;
    assert prefix == SSH_PREFIX ==> !StartsWith(s, HTTPS_PREFIX);
  }

  /**
   * Either clone URL of a repository parses back to the repository path,
   * with or without the ".git" ending.
   */
  lemma ParseRemoteRoundTrip(path: string)
    requires Unpadded(path)
    ensures ParseRemote(Some(HTTPS_PREFIX + path + GIT_SUFFIX)) == Some(path)
    ensures ParseRemote(Some(SSH_PREFIX + path + GIT_SUFFIX)) == Some(path)
    ensures !EndsWith(path, GIT_SUFFIX) ==> ParseRemote(Some(HTTPS_PREFIX + path)) == Some(path)
    ensures !EndsWith(path, GIT_SUFFIX) ==> ParseRemote(Some(SSH_PREFIX + path)) == Some(path)
  {
    var withSuffix := path + GIT_SUFFIX;
    assert withSuffix[|withSuffix| - 1] == 't';
    assert withSuffix[..|path|] == path;
    assert HTTPS_PREFIX + path + GIT_SUFFIX == HTTPS_PREFIX + withSuffix;
    assert SSH_PREFIX + path + GIT_SUFFIX == SSH_PREFIX + withSuffix;
    ParseAfterPrefix(HTTPS_PREFIX, withSuffix);
    ParseAfterPrefix(SSH_PREFIX, withSuffix);
    ParseAfterPrefix(HTTPS_PREFIX, path);
    ParseAfterPrefix(SSH_PREFIX, path);
  }

  /** Both clone-URL prefixes name github.com. */
  lemma HostInPrefix(remote: string)
    requires StartsWith(remote, HTTPS_PREFIX) || StartsWith(remote, SSH_PREFIX)
    ensures Contains(remote, "github.com")
  {
    if StartsWith(remote, HTTPS_PREFIX) {
      assert remote[8..18] == HTTPS_PREFIX[8..18] == "github.com";
      ContainsAt(remote, "github.com", 8);
    } else {
      assert remote[4..14] == SSH_PREFIX[4..14] == "github.com";
      ContainsAt(remote, "github.com", 4);
    }
  }

  /** The path part of the remote of acme/.github, an organisation's profile repository. */
  function ProfileRepo(): string {
    "acme/" + GIT_SUFFIX + "hub" + GIT_SUFFIX
  }

  lemma ProfileRepoText()
    ensures ProfileRepo() == "acme/.github.git"
  {
  }

  lemma ProfileRepoDropsPrefix()
    ensures ReplaceAll(HTTPS_PREFIX + ProfileRepo(), HTTPS_PREFIX, "") == ProfileRepo()
  {
    var rest := ProfileRepo();
    ReplaceAllAtFront(rest, HTTPS_PREFIX, "");
    assert |rest| < |HTTPS_PREFIX|;
    assert ReplaceAll(rest, HTTPS_PREFIX, "") == rest;
  }

  lemma ProfileRepoDropsEveryGit()
    ensures ReplaceAll(ProfileRepo(), GIT_SUFFIX, "") == "acme/hub"
  {
    var tail := GIT_SUFFIX + [];
    assert ProfileRepo() == "acme/" + (GIT_SUFFIX + ("hub" + tail));
    ReplaceAllPlain("acme/", GIT_SUFFIX + ("hub" + tail), GIT_SUFFIX, "");
    ReplaceAllAtFront("hub" + tail, GIT_SUFFIX, "");
    ReplaceAllPlain("hub", tail, GIT_SUFFIX, "");
    ReplaceAllAtFront([], GIT_SUFFIX, "");
  }

  /**
   * As written, a repository whose name holds ".git" loses it: the remote
   * https://github.com/acme/.github.git of acme/.github yields "acme/hub".
   */
  lemma ParseRemoteMangles()
    ensures ParseRemoteAsWritten(Some(HTTPS_PREFIX + ProfileRepo())) == Some("acme/hub")
  {
    var rest := ProfileRepo();
    assert rest[0] == 'a' && rest[|rest| - 1] == 't';
    AsWrittenAfterPrefix(HTTPS_PREFIX, rest);
    ProfileRepoDropsPrefix();
    ProfileRepoDropsEveryGit();
  }

  /** The corrected parser keeps the name of an owner's ".github" repository, ".git" inside it included. */
  lemma ParseRemoteKeepsName(owner: string)
    requires owner != [] && !IsSpace(owner[0])
    ensures var name := owner + "/" + GIT_SUFFIX + "hub";
      ParseRemote(Some(HTTPS_PREFIX + (name + GIT_SUFFIX))) == Some(name)
  {
    var path := owner + "/" + GIT_SUFFIX + "hub";
    var rest := path + GIT_SUFFIX;
    assert rest[0] == owner[0] && rest[|rest| - 1] == 't';
    ParseAfterPrefix(HTTPS_PREFIX, rest);
    assert rest[|rest| - |GIT_SUFFIX|..] == GIT_SUFFIX;
    assert DropGitSuffix(rest) == path by {
      assert DropGitSuffix(rest) + GIT_SUFFIX == rest;
      assert rest[..|path|] == path;
    }
  }

  /** The as-written parser on a clone URL: both replacements, applied to the whole URL. */
  lemma AsWrittenAfterPrefix(prefix: string, rest: string)
    requires prefix == HTTPS_PREFIX || prefix == SSH_PREFIX
    requires Unpadded(rest)
    ensures ParseRemoteAsWritten(Some(prefix + rest)) == Some(ReplaceAll(ReplaceAll(prefix + rest, prefix, ""), GIT_SUFFIX, ""))
  {
    var s := prefix + rest;
    assert s[0] == prefix[0];
    assert s[|s| - 1] == if rest == [] then prefix[|prefix| - 1] else rest[|rest| - 1];
    StripUnpadded(s);
    assert s[..|prefix|] == prefix;
    HostInPrefix(s);
    assert prefix == SSH_PREFIX ==> !StartsWith(s, HTTPS_PREFIX);
  }

  /** generate_tfvars: a detection that failed or came back empty falls back to GITHUB_REPOSITORY, then "unknown/unknown". */
  function Repository(detected: Option<string>, env: Env): (r: string)
    ensures detected.Some? && detected.value != "" ==> r == detected.value
    ensures (detected.None? || detected.value == "") && "GITHUB_REPOSITORY" !in env ==> r == "unknown/unknown"
    ensures (detected.None? || detected.value == "") && "GITHUB_REPOSITORY" in env ==> r == env["GITHUB_REPOSITORY"]
  {
    if detected.Some? && detected.value != "" then detected.value else EnvOr(env, "GITHUB_REPOSITORY", "unknown/unknown")
  }

  /** One `name = "value"` line of terraform.tfvars. */
  datatype Setting = Setting(name: string, value: string)

  /** The settings, in file order, and the entries of the tags block. */
  datatype Tfvars = Tfvars(settings: seq<Setting>, tags: seq<Setting>)

  /** The value of the first setting with this name. */
  function ValueOf(settings: seq<Setting>, name: string): (r: Option<string>)
    ensures r.None? <==> forall i :: 0 <= i < |settings| ==> settings[i].name != name
    ensures r.Some? ==> exists i :: 0 <= i < |settings| && settings[i] == Setting(name, r.value)
  {
    if settings == [] then None
    else if settings[0].name == name then Some(settings[0].value)
    else
      var r := ValueOf(settings[1..], name);
      assert forall i :: 1 <= i < |settings| ==> settings[i] == settings[1..][i - 1];
      r
  }

  /** `key = "value"` and a newline; values are not escaped. */
  function Line(s: Setting): string {
    s.name + " = \"" + s.value + "\"\n"
  }

  function Lines(settings: seq<Setting>, indent: string): string
    decreases |settings|
  {
    if settings == [] then "" else indent + Line(settings[0]) + Lines(settings[1..], indent)
  }

  /** The text written to terraform.tfvars. */
  function Render(t: Tfvars): string {
    "# Auto-generated terraform.tfvars\n" + Lines(t.settings, "") + "\ntags = {\n" + Lines(t.tags, "  ") + "}\n"
  }

  /** The optional settings: present exactly when the variable is set and non-empty. */
  function Optional(env: Env, variable: string, name: string): seq<Setting> {
    if EnvOr(env, variable, "") != "" then [Setting(name, env[variable])] else []
  }

  /**
   * generate_tfvars on the absolute workflow path (os.path.abspath is not
   * modelled), the output of `git remote get-url origin` (None when git
   * failed) and the environment.
   */
  function TfvarsFor(workflowPath: string, absolutePath: string, remote: Option<string>, env: Env): Tfvars {
    Tfvars(SettingsFor(absolutePath, Repository(ParseRemoteAsWritten(remote), env), env),
           [Setting("Project", "FaaSr"), Setting("Workflow", Stem(workflowPath)), Setting("ManagedBy", "Terraform")])
  }

  /** Settings with other names before the one looked up do not change the answer. */
  lemma {:induction false} ValueOfSkip(prefix: seq<Setting>, rest: seq<Setting>, name: string)
    requires forall i :: 0 <= i < |prefix| ==> prefix[i].name != name
    ensures ValueOf(prefix + rest, name) == ValueOf(rest, name)
    decreases |prefix|
  {
    if prefix != [] {
      assert (prefix + rest)[0] == prefix[0];
      assert (prefix + rest)[1..] == prefix[1..] + rest;
      ValueOfSkip(prefix[1..], rest, name);
    } else {
      assert prefix + rest == rest;
    }
  }

  /** The settings, in file order: three every file has, then the optional two. */
  function SettingsFor(absolutePath: string, repository: string, env: Env): (r: seq<Setting>)
    ensures |r| >= 3 && r[..3] == BaseSettings(absolutePath, repository, env)
  {
    BaseSettings(absolutePath, repository, env) + Optional(env, "PAT", "github_token")
      + Optional(env, "AWS_LAMBDA_ROLE_ARN", "aws_lambda_role_arn")
  }

  /** The settings every tfvars file has, in file order. */
  function BaseSettings(absolutePath: string, repository: string, env: Env): seq<Setting> {
    [Setting("workflow_file_path", absolutePath),
     Setting("github_repository", repository),
     Setting("aws_region", EnvOr(env, "AWS_DEFAULT_REGION", "us-east-1"))]
  }

  /** The github_token line is there exactly when PAT is set and non-empty, and carries its value. */
  lemma TfvarsTokenLine(absolutePath: string, repository: string, env: Env)
    ensures ValueOf(SettingsFor(absolutePath, repository, env), "github_token")
            == (if EnvSet(env, "PAT") then Some(env["PAT"]) else None)
  {
    var base := BaseSettings(absolutePath, repository, env);
    var token := Optional(env, "PAT", "github_token");
    var role := Optional(env, "AWS_LAMBDA_ROLE_ARN", "aws_lambda_role_arn");
    assert base + token + role == base + (token + role);
    ValueOfSkip(base, token + role, "github_token");
    if token == [] {
      assert token + role == role;
      ValueOfSkip(role, [], "github_token");
      assert role + [] == role;
    } else {
      assert (token + role)[0] == token[0];
    }
  }

  /** The aws_lambda_role_arn line is there exactly when AWS_LAMBDA_ROLE_ARN is set and non-empty. */
  lemma TfvarsRoleLine(absolutePath: string, repository: string, env: Env)
    ensures ValueOf(SettingsFor(absolutePath, repository, env), "aws_lambda_role_arn")
            == (if EnvSet(env, "AWS_LAMBDA_ROLE_ARN") then Some(env["AWS_LAMBDA_ROLE_ARN"]) else None)
  {
    var base := BaseSettings(absolutePath, repository, env);
    var token := Optional(env, "PAT", "github_token");
    var role := Optional(env, "AWS_LAMBDA_ROLE_ARN", "aws_lambda_role_arn");
    var front: seq<Setting> := base + token;
    assert forall i :: 0 <= i < |front| ==> front[i].name != "aws_lambda_role_arn";
    ValueOfSkip(base + token, role, "aws_lambda_role_arn");
    if role != [] {
      assert role[0] == Setting("aws_lambda_role_arn", env["AWS_LAMBDA_ROLE_ARN"]);
    }
  }

  /** The github_repository line carries the repository the settings were built with. */
  lemma TfvarsRepositoryLine(absolutePath: string, repository: string, env: Env)
    ensures ValueOf(SettingsFor(absolutePath, repository, env), "github_repository") == Some(repository)
  {
    var settings := SettingsFor(absolutePath, repository, env);
    assert settings[0].name != "github_repository";
    assert settings[1..][0] == Setting("github_repository", repository);
  }

  /**
   * That repository is the one parsed from the git remote as written, so the
   * profile repository acme/.github is recorded as acme/hub.
   */
  lemma TfvarsRepositoryMangled(workflowPath: string, absolutePath: string, env: Env)
    ensures ValueOf(TfvarsFor(workflowPath, absolutePath, Some(HTTPS_PREFIX + ProfileRepo()), env).settings, "github_repository") == Some("acme/hub")
  {
    ParseRemoteMangles();
    TfvarsRepositoryLine(absolutePath, "acme/hub", env);
  }

  /** The Workflow tag is the stem of the workflow file name. */
  lemma TfvarsWorkflowTag(workflowPath: string, absolutePath: string, remote: Option<string>, env: Env)
    ensures ValueOf(TfvarsFor(workflowPath, absolutePath, remote, env).tags, "Workflow") == Some(Stem(workflowPath))
  {
    var tags := TfvarsFor(workflowPath, absolutePath, remote, env).tags;
    assert tags[0].name != "Workflow";
    assert tags[1..][0].name == "Workflow";
  }

  lemma {:induction false} LinesAppend(a: seq<Setting>, b: seq<Setting>, indent: string)
    ensures Lines(a + b, indent) == Lines(a, indent) + Lines(b, indent)
    decreases |a|
  {
    if a != [] {
      assert (a + b)[0] == a[0];
      assert (a + b)[1..] == a[1..] + b;
      LinesAppend(a[1..], b, indent);
      assert Lines(a + b, indent) == indent + Line(a[0]) + Lines(a[1..] + b, indent);
    } else {
      assert a + b == b;
    }
  }

  lemma LinesOne(x: Setting, indent: string)
    ensures Lines([x], indent) == indent + Line(x)
  {
    assert [x][1..] == [];
  }

  /** Writing one more setting line extends the rendered settings by that line. */
  lemma AppendLine(header: string, settings: seq<Setting>, line: Setting)
    ensures header + Lines(settings, "") + Line(line) == header + Lines(settings + [line], "")
  {
    var text, last := Lines(settings, ""), Line(line);
    LinesAppend(settings, [line], "");
    LinesOne(line, "");
    assert "" + last == last;
    assert Lines(settings + [line], "") == text + last;
    assert header + text + last == header + (text + last);
  }

  /** The text generate_tfvars accumulates with += and writes to terraform.tfvars. */

  method GenerateTfvars(workflowPath: string, absolutePath: string, remote: Option<string>, env: Env)
    returns (text: string)
    ensures text == Render(TfvarsFor(workflowPath, absolutePath, remote, env))
  {
    var header := "# Auto-generated terraform.tfvars\n";
    var token := EnvOr(env, "PAT", "");
    var role := EnvOr(env, "AWS_LAMBDA_ROLE_ARN", "");
    var repository := Repository(ParseRemoteAsWritten(remote), env);
    var settings := BaseSettings(absolutePath, repository, env);
    text := header + Lines(settings, "");
    if token != "" {
      var line := Setting("github_token", token);
      AppendLine(header, settings, line);
      text := text + Line(line);
      settings := settings + [line];
    }
    assert text == header + Lines(settings, "");
    if role != "" {
      var line := Setting("aws_lambda_role_arn", role);
      AppendLine(header, settings, line);
      text := text + Line(line);
      settings := settings + [line];
    }
    assert text == header + Lines(settings, "");
    assert settings == SettingsFor(absolutePath, repository, env);
    var tags := [Setting("Project", "FaaSr"), Setting("Workflow", Stem(workflowPath)), Setting("ManagedBy", "Terraform")];
    assert TfvarsFor(workflowPath, absolutePath, remote, env) == Tfvars(settings, tags);
    text := text + "\ntags = {\n" + Lines(tags, "  ") + "}\n";
  }

  /** run_terraform_command's command line as written: -auto-approve only for a command holding "apply". */
  function CommandAsWritten(command: seq<string>, autoApprove: bool): (r: seq<string>)
    ensures |r| == |command| + 1 + (if autoApprove && "apply" in command then 1 else 0)
    ensures r[..|command| + 1] == ["terraform"] + command
    ensures |r| > |command| + 1 ==> r[|r| - 1] == "-auto-approve"
  {
    ["terraform"] + command + (if autoApprove && "apply" in command then ["-auto-approve"] else [])
  }

  /** The evident intent: auto-approval also reaches destroy, which prompts just as apply does. */
  function Command(command: seq<string>, autoApprove: bool): (r: seq<string>)
    ensures |r| == |command| + 1 + (if autoApprove && ("apply" in command || "destroy" in command) then 1 else 0)
    ensures r[..|command| + 1] == ["terraform"] + command
    ensures |r| > |command| + 1 ==> r[|r| - 1] == "-auto-approve"
  {
    ["terraform"] + command + (if autoApprove && ("apply" in command || "destroy" in command) then ["-auto-approve"] else [])
  }

  /** `--destroy --auto-approve` runs a destroy that still asks for confirmation. */
  lemma DestroyNotAutoApproved()
    ensures CommandAsWritten(["destroy"], true) == ["terraform", "destroy"]
    ensures Command(["destroy"], true) == ["terraform", "destroy", "-auto-approve"]
  {
    assert "apply" !in ["destroy"];
  }

  /**
   * With the correction, both commands that ask for confirmation get
   * -auto-approve under --auto-approve; the command line differs from the
   * one as written only for destroy.
   */
  lemma CommandAutoApproves(c: string, autoApprove: bool)
    ensures autoApprove && (c == "apply" || c == "destroy") ==> Command([c], autoApprove) == ["terraform", c, "-auto-approve"]
    ensures Command([c], autoApprove) != CommandAsWritten([c], autoApprove) <==> autoApprove && c == "destroy"
  {
    assert "apply" in [c] <==> c == "apply";
    assert "destroy" in [c] <==> c == "destroy";
  }

  /** The list-building in run_terraform_command, as written. */
  method BuildCommand(command: seq<string>, autoApprove: bool) returns (cmd: seq<string>)
    ensures cmd == CommandAsWritten(command, autoApprove)
  {
    cmd := ["terraform"] + command;
    if autoApprove && "apply" in command {
      cmd := cmd + ["-auto-approve"];
    }
  }

  /** The command-line flags, and whether the terraform directory exists. */
  datatype Args = Args(dirExists: bool, destroy: bool, planOnly: bool, autoApprove: bool)

  predicate Confirmed(answer: string) {
    Lower(answer) in {"yes", "y"}
  }

  /**
   * Whether apply runs after a successful plan: --auto-approve skips the
   * prompt; otherwise the line read by input() must be yes or y. `answer` is
   * None when input() meets end of file (a closed stdin).
   */
  predicate Approved(autoApprove: bool, answer: Option<string>) {
    autoApprove || (answer.Some? && Confirmed(answer.value))
  }

  /** Exit status and the terraform commands run, in order. */
  datatype Drive = Drive(exit: int, commands: seq<seq<string>>)

  const FUNCTION_LIST := "FunctionList"

  /** FunctionList's server resolves through ComputeServers and has a FaaSType. */
  predicate ServerTyped(d: Data, server: string) {
    var s := Lookup(Servers(d), server);
    s.Some? && "FaaSType" in s.value.fields
  }

  /**
   * handle_openwhisk_deployment indexes FunctionList, each function's server
   * in ComputeServers and that server's FaaSType without a default: it
   * returns only when all of them are there.
   */
  predicate OwHandlerCompletes(d: Data) {
    && FUNCTION_LIST in d && d[FUNCTION_LIST].ActionTable?
    && forall i :: 0 <= i < |d[FUNCTION_LIST].actions| ==> ServerTyped(d, d[FUNCTION_LIST].actions[i].faasServer)
  }

  /** A function whose server's FaaSType is OpenWhisk, in any letter case. */
  predicate OnOpenWhisk(a: Action, servers: seq<Entry>) {
    var s := Lookup(servers, a.faasServer);
    s.Some? && Lower(Get(s.value.fields, "FaaSType", "")) == "openwhisk"
  }

  /** The names handle_openwhisk_deployment reports, in FunctionList order. */
  function OwFunctions(fs: seq<Action>, servers: seq<Entry>): (r: seq<string>)
    ensures |r| <= |fs|
    ensures forall n :: n in r <==> exists i :: 0 <= i < |fs| && fs[i].name == n && OnOpenWhisk(fs[i], servers)
  {
    if fs == [] then []
    else
      var last := fs[|fs| - 1];
      assert forall i :: 0 <= i < |fs| - 1 ==> fs[..|fs| - 1][i] == fs[i];
      OwFunctions(fs[..|fs| - 1], servers) + (if OnOpenWhisk(last, servers) then [last.name] else [])
  }

  /**
   * handle_openwhisk_deployment: `ok` is false where the source raises a
   * KeyError (or finds FunctionList is not a dictionary); otherwise the
   * OpenWhisk functions it lists.
   */
  method HandleOpenWhisk(d: Data) returns (ok: bool, owFunctions: seq<string>)
    ensures ok <==> OwHandlerCompletes(d)
    ensures ok ==> owFunctions == OwFunctions(d[FUNCTION_LIST].actions, Servers(d))
  {
    owFunctions := [];
    if FUNCTION_LIST !in d || !d[FUNCTION_LIST].ActionTable? {
      return false, owFunctions;
    }
    var fs := d[FUNCTION_LIST].actions;
    var servers := Servers(d);
    for i := 0 to |fs|
      invariant forall j :: 0 <= j < i ==> ServerTyped(d, fs[j].faasServer)
      invariant owFunctions == OwFunctions(fs[..i], servers)
    {
      var server := Lookup(servers, fs[i].faasServer);
      if server.None? || "FaaSType" !in server.value.fields {
        return false, owFunctions;
      }
      if Lower(server.value.fields["FaaSType"]) == "openwhisk" {
        owFunctions := owFunctions + [fs[i].name];
      }
      assert fs[..i + 1][..i] == fs[..i];
    }
    assert fs[..|fs|] == fs;
    return true, owFunctions;
  }

  /**
   * main after the tfvars are written: init when .terraform is missing,
   * then destroy, or plan only, or plan and, once confirmed, apply; after a
   * successful deployment, `terraform output` and the OpenWhisk check, whose
   * KeyError ends the process with status 1. `run` says whether a command
   * exits 0; `doc` is the workflow document, None when it could not be read.
   */
  function Expected(args: Args, doc: Option<Data>, initialised: bool, run: seq<string> -> bool, answer: Option<string>): Drive {
    if !args.dirExists || doc.None? then Drive(1, [])
    else
      var init := if initialised then [] else [CommandAsWritten(["init"], false)];
      if !initialised && !run(CommandAsWritten(["init"], false)) then Drive(1, init)
      else if args.destroy then
        var c := CommandAsWritten(["destroy"], args.autoApprove);
        Drive(if run(c) then 0 else 1, init + [c])
      else if args.planOnly then
        var c := CommandAsWritten(["plan"], false);
        Drive(if run(c) then 0 else 1, init + [c])
      else
        var plan := CommandAsWritten(["plan"], false);
        if !run(plan) then Drive(1, init + [plan])
        else if !args.autoApprove && answer.None? then Drive(1, init + [plan])
        else if !Approved(args.autoApprove, answer) then Drive(0, init + [plan])
        else Applied(doc.value, run, init + [plan], CommandAsWritten(["apply"], args.autoApprove))
  }

  /** The end of a deployment once apply is chosen: output and the OpenWhisk check after a successful apply. */
  function Applied(d: Data, run: seq<string> -> bool, before: seq<seq<string>>, apply: seq<string>): Drive {
    if run(apply) then Drive(if OwHandlerCompletes(d) then 0 else 1, before + [apply, CommandAsWritten(["output"], false)])
    else Drive(1, before + [apply])
  }

  /** Every apply runs right after a plan that succeeded, and only when auto-approved or confirmed. */
  lemma ApplyOnlyAfterPlan(args: Args, doc: Option<Data>, initialised: bool, run: seq<string> -> bool, answer: Option<string>)
    ensures var d := Expected(args, doc, initialised, run, answer);
      forall i :: 0 <= i < |d.commands| && "apply" in d.commands[i] ==>
        && i > 0 && d.commands[i - 1] == ["terraform", "plan"] && run(d.commands[i - 1])
        && !args.destroy && !args.planOnly && Approved(args.autoApprove, answer)
  {
    assert "apply" !in CommandAsWritten(["init"], false) && "apply" !in CommandAsWritten(["plan"], false);
    assert "apply" !in CommandAsWritten(["output"], false) && "apply" !in CommandAsWritten(["destroy"], args.autoApprove);
    assert CommandAsWritten(["plan"], false) == ["terraform", "plan"];
  }

  /** With --destroy, neither plan nor apply runs, whatever --plan-only says, and destroy is never auto-approved. */
  lemma DestroyTakesPrecedence(args: Args, doc: Option<Data>, initialised: bool, run: seq<string> -> bool, answer: Option<string>)
    requires args.destroy
    ensures var d := Expected(args, doc, initialised, run, answer);
      forall c :: c in d.commands ==> "plan" !in c && "apply" !in c && "-auto-approve" !in c
  {
    assert CommandAsWritten(["init"], false) == ["terraform", "init"];
    assert CommandAsWritten(["destroy"], args.autoApprove) == ["terraform", "destroy"];
  }

  /**
   * The process succeeds exactly when the chosen operation succeeded or the
   * apply was declined, and, after an apply, the document passed the
   * OpenWhisk check.
   */
  lemma ExitZeroIff(args: Args, doc: Option<Data>, initialised: bool, run: seq<string> -> bool, answer: Option<string>)
    ensures Expected(args, doc, initialised, run, answer).exit == 0 <==>
      (&& args.dirExists && doc.Some?
       && (initialised || run(["terraform", "init"]))
       && (if args.destroy then run(["terraform", "destroy"])
           else if args.planOnly then run(["terraform", "plan"])
           else && run(["terraform", "plan"])
                && (args.autoApprove || answer.Some?)
                && (Approved(args.autoApprove, answer) ==>
                      run(CommandAsWritten(["apply"], args.autoApprove)) && OwHandlerCompletes(doc.value))))
  {
    assert CommandAsWritten(["init"], false) == ["terraform", "init"];
    assert CommandAsWritten(["plan"], false) == ["terraform", "plan"];
    assert CommandAsWritten(["destroy"], args.autoApprove) == ["terraform", "destroy"];
  }

  /**
   * Without --auto-approve and with stdin closed, the prompt raises
   * EOFError after a successful plan: status 1, nothing applied.
   */
  lemma ClosedStdinFails(args: Args, doc: Data, initialised: bool, run: seq<string> -> bool)
    requires args.dirExists && !args.destroy && !args.planOnly && !args.autoApprove
    requires initialised && run(["terraform", "plan"])
    ensures Expected(args, Some(doc), initialised, run, None) == Drive(1, [["terraform", "plan"]])
  {
    assert CommandAsWritten(["plan"], false) == ["terraform", "plan"];
  }

  /**
   * A workflow that lists its functions under ActionList, as the other
   * scripts read them, and has no FunctionList, ends with status 1 after a
   * deployment that succeeded.
   */
  lemma ActionListDeploymentFails(doc: Data, run: seq<string> -> bool)
    requires FUNCTION_LIST !in doc
    requires run(["terraform", "plan"]) && run(["terraform", "apply", "-auto-approve"])
    ensures Expected(Args(true, false, false, true), Some(doc), true, run, None) ==
      Drive(1, [["terraform", "plan"], ["terraform", "apply", "-auto-approve"], ["terraform", "output"]])
  {
    assert CommandAsWritten(["plan"], false) == ["terraform", "plan"];
    assert CommandAsWritten(["apply"], true) == ["terraform", "apply", "-auto-approve"];
    assert CommandAsWritten(["output"], false) == ["terraform", "output"];
  }

  /** main, with `success` assigned across the branches as in the source. */
  method TerraformMain(args: Args, doc: Option<Data>, initialised: bool, run: seq<string> -> bool, answer: Option<string>)
    returns (exit: int, commands: seq<seq<string>>)
    ensures Drive(exit, commands) == Expected(args, doc, initialised, run, answer)
  {
    commands := [];
    if !args.dirExists || doc.None? {
      return 1, commands;
    }
    if !initialised {
      var init := BuildCommand(["init"], false);
      commands := commands + [init];
      if !run(init) {
        return 1, commands;
      }
    }
    var success: bool;
    // What the remaining steps lead to, fixed once the operation has run.
    ghost var rest: Drive;
    if args.destroy {
      var c := BuildCommand(["destroy"], args.autoApprove);
      commands := commands + [c];
      success := run(c);
      rest := Drive(if success then 0 else 1, commands);
    } else if args.planOnly {
      var c := BuildCommand(["plan"], false);
      commands := commands + [c];
      success := run(c);
      rest := Drive(if success then 0 else 1, commands);
    } else {
      var plan := BuildCommand(["plan"], false);
      commands := commands + [plan];
      if run(plan) {
        if args.autoApprove {
          var apply := BuildCommand(["apply"], true);
          rest := Applied(doc.value, run, commands, apply);
          commands := commands + [apply];
          success := run(apply);
        } else if answer.None? {
          // EOFError from input(): the traceback ends the process with status 1.
          return 1, commands;
        } else if Confirmed(answer.value) {
          var apply := BuildCommand(["apply"], false);
          rest := Applied(doc.value, run, commands, apply);
          commands := commands + [apply];
          success := run(apply);
        } else {
          return 0, commands;
        }
      } else {
        success := false;
        rest := Drive(1, commands);
      }
    }
    assert rest == Expected(args, doc, initialised, run, answer);
    if !success {
      return 1, commands;
    }
    if !args.destroy && !args.planOnly {
      var output := BuildCommand(["output"], false);
      commands := commands + [output];
      var ok, _ := HandleOpenWhisk(doc.value);
      if !ok {
        return 1, commands;
      }
    }
    return 0, commands;
  }
}
