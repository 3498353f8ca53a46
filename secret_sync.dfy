/**
 * sync_secrets.py: which secret names are synchronised, how each one is
 * written to AWS Secrets Manager or Google Secret Manager, how failures are
 * folded into one success flag, and the exit status of the script.
 */
module SecretSync {
  import opened Text
  import opened WorkflowModel

  /** The secrets each --server choice contributes. */
  const SERVER_SECRETS_MAP: map<string, seq<string>> := map[
    "AWS" := ["AWS_AccessKey", "AWS_SecretKey", "AWS_ARN"],
    "GCP" := ["GCP_SecretKey"],
    "OW" := ["OW_APIkey"],
    "SLURM" := ["SLURM_Token"],
    "GH_PAT" := ["GH_PAT"]]

  /** SERVER_SECRETS_MAP.get(server, []). */
  function SecretsOf(server: string): seq<string> {
    if server in SERVER_SECRETS_MAP then SERVER_SECRETS_MAP[server] else []
  }

  /** The secrets of the --server choices, in order, duplicates kept. */
  function ServerSecrets(servers: seq<string>): seq<string>
    decreases |servers|
  {
    if servers == [] then []
    else ServerSecrets(servers[..|servers| - 1]) + SecretsOf(servers[|servers| - 1])
  }

  /** The pair derived from --data-server-name; emptiness is tested before stripping. */
  function DataServerSecrets(dataServer: string): (r: seq<string>)
    ensures dataServer == "" ==> r == []
    ensures dataServer != "" ==> r == [Upper(Strip(dataServer)) + "_ACCESSKEY", Upper(Strip(dataServer)) + "_SECRETKEY"]
  {
    if dataServer == "" then []
    else
      var name := Upper(Strip(dataServer));
      [name + "_ACCESSKEY", name + "_SECRETKEY"]
  }

  function SecretsToSync(servers: seq<string>, dataServer: string): seq<string> {
    ServerSecrets(servers) + DataServerSecrets(dataServer)
  }

  /** The list of one choice list followed by another is the concatenation of their lists. */
  lemma {:induction false} ServerSecretsAppend(a: seq<string>, b: seq<string>)
    ensures ServerSecrets(a + b) == ServerSecrets(a) + ServerSecrets(b)
    decreases |b|
  {
    if b == [] {
      assert a + b == a;
    } else {
      var b0 := b[..|b| - 1];
      assert (a + b)[..|a + b| - 1] == a + b0;
      ServerSecretsAppend(a, b0);
    }
  }

  /**
   * An unknown server name contributes nothing, a known one contributes its
   * table entry at the end, and a name given twice contributes twice.
   */
  lemma ServerSecretsOne(servers: seq<string>, s: string)
    ensures ServerSecrets(servers + [s]) == ServerSecrets(servers) + SecretsOf(s)
    ensures s !in SERVER_SECRETS_MAP ==> ServerSecrets(servers + [s]) == ServerSecrets(servers)
    ensures ServerSecrets([s, s]) == SecretsOf(s) + SecretsOf(s)
  {
    assert (servers + [s])[..|servers|] == servers;
    assert [s, s][..1] == [s];
    assert [s][..0] == [];
  }

  /** get_secrets_to_sync: extends the list server by server, then adds the data-server pair. */
  method GetSecretsToSync(servers: seq<string>, dataServer: string) returns (secrets: seq<string>)
    ensures secrets == SecretsToSync(servers, dataServer)
    ensures |secrets| >= |DataServerSecrets(dataServer)|
    ensures dataServer != "" ==> secrets[|secrets| - 1] == Upper(Strip(dataServer)) + "_SECRETKEY"
  {
    secrets := [];
    var i := 0;
    while i < |servers|
      invariant 0 <= i <= |servers|
      invariant secrets == ServerSecrets(servers[..i])
    {
      assert servers[..i + 1][..i] == servers[..i];
      secrets := secrets + SecretsOf(servers[i]);
      i := i + 1;
    }
    assert servers[..i] == servers;
    if dataServer != "" {
      var name := Upper(Strip(dataServer));
      secrets := secrets + [name + "_ACCESSKEY", name + "_SECRETKEY"];
    }
  }

  // ---------------------------------------------------------------------------
  // One secret.

  /** The value is missing, empty or masked ("***"); such a secret is skipped. */
  predicate Unavailable(env: Env, name: string) {
    name !in env || env[name] == "" || env[name] == "***"
  }

  /** What happened to one secret. */
  datatype Sync = Skipped(name: string) | Updated(id: string) | Created(id: string) | Failed(id: string)

  /** An AWS call: it returned, raised ResourceNotFoundException, or raised anything else. */
  datatype AwsCall = Done | NotFound | Error

  datatype AwsLive = AwsLive(describe: AwsCall, put: AwsCall, create: bool)

  /**
   * One secret on AWS: an existing secret gets a new value; a secret that
   * does not exist (reported by describe_secret or by put_secret_value,
   * which share one try block) is created; any other error is a failure.
   */
  function AwsSync(name: string, env: Env, prefix: string, live: AwsLive): (r: Sync)
    ensures Unavailable(env, name) <==> r == Skipped(name)
    ensures !r.Skipped? ==> r.id == prefix + name
    ensures r.Updated? <==> !Unavailable(env, name) && live.describe == Done && live.put == Done
    ensures r.Created? <==>
      !Unavailable(env, name) && live.create && (live.describe == NotFound || (live.describe == Done && live.put == NotFound))
  {
    var id := prefix + name;
    if Unavailable(env, name) then Skipped(name)
    else match live.describe
      case Error => Failed(id)
      case NotFound => if live.create then Created(id) else Failed(id)
      case Done =>
        match live.put
        case Done => Updated(id)
        case NotFound => if live.create then Created(id) else Failed(id)
        case Error => Failed(id)
  }

  /** An HTTP reply: a status code, or an exception raised by the request. */
  datatype Http = Status(code: int) | Raised

  predicate Accepted(h: Http) { h.Status? && (h.code == 200 || h.code == 201) }

  datatype GcpLive = GcpLive(probe: Http, addVersion: Http, create: Http, initialVersion: Http)

  /**
   * One secret on Google Secret Manager: status 200 adds a version, 404
   * creates the secret and then adds its first version; only 200 and 201
   * count as success, and any other status or exception is a failure.
   */
  function GcpSync(name: string, env: Env, prefix: string, live: GcpLive): (r: Sync)
    ensures Unavailable(env, name) <==> r == Skipped(name)
    ensures !r.Skipped? ==> r.id == prefix + name
    ensures r.Updated? <==> !Unavailable(env, name) && live.probe == Status(200) && Accepted(live.addVersion)
    ensures r.Created? <==> !Unavailable(env, name) && live.probe == Status(404) && Accepted(live.create) && Accepted(live.initialVersion)
  {
    var id := prefix + name;
    if Unavailable(env, name) then Skipped(name)
    else if live.probe == Status(200) then (if Accepted(live.addVersion) then Updated(id) else Failed(id))
    else if live.probe == Status(404) then
      (if Accepted(live.create) && Accepted(live.initialVersion) then Created(id) else Failed(id))
    else Failed(id)
  }

  // ---------------------------------------------------------------------------
  // The loops.

  predicate NoFailure(log: seq<Sync>) {
    forall i :: 0 <= i < |log| ==> !log[i].Failed?
  }

  /** Whether the imports each sync function starts with succeed: boto3 and botocore, requests and base64. */
  datatype Installed = Installed(boto3: bool, requests: bool)

  /**
   * sync_to_aws: without boto3 it returns False at once, syncing nothing;
   * otherwise every secret is tried in order, a failure clears the success
   * flag without stopping the loop.
   */
  method SyncToAws(secrets: seq<string>, env: Env, prefix: string, sdkAvailable: bool, live: nat -> AwsLive)
    returns (success: bool, log: seq<Sync>)
    ensures !sdkAvailable ==> !success && log == []
    ensures sdkAvailable ==> |log| == |secrets|
    ensures sdkAvailable ==> forall i :: 0 <= i < |secrets| ==> log[i] == AwsSync(secrets[i], env, prefix, live(i))
    ensures sdkAvailable ==> (success <==> NoFailure(log))
  {
    if !sdkAvailable {
      return false, [];
    }
    success, log := true, [];
    var i := 0;
    while i < |secrets|
      invariant 0 <= i <= |secrets| && |log| == i
      invariant forall j :: 0 <= j < i ==> log[j] == AwsSync(secrets[j], env, prefix, live(j))
      invariant success <==> NoFailure(log)
    {
      var name := secrets[i];
      var outcome: Sync;
      if name !in env || env[name] == "" || env[name] == "***" {
        outcome := Skipped(name);
      } else {
        var id := prefix + name;
        var l := live(i);
        if l.describe == Error {
          outcome := Failed(id);
        } else if l.describe == Done && l.put == Done {
          outcome := Updated(id);
        } else if l.describe == Done && l.put == Error {
          outcome := Failed(id);
        } else {
          outcome := if l.create then Created(id) else Failed(id);
        }
      }
      if outcome.Failed? {
        success := false;
      }
      log := log + [outcome];
      i := i + 1;
    }
  }

  /** sync_to_gcp: False at once without requests, otherwise the same folding of failures. */
  method SyncToGcp(secrets: seq<string>, env: Env, prefix: string, sdkAvailable: bool, live: nat -> GcpLive)
    returns (success: bool, log: seq<Sync>)
    ensures !sdkAvailable ==> !success && log == []
    ensures sdkAvailable ==> |log| == |secrets|
    ensures sdkAvailable ==> forall i :: 0 <= i < |secrets| ==> log[i] == GcpSync(secrets[i], env, prefix, live(i))
    ensures sdkAvailable ==> (success <==> NoFailure(log))
  {
    if !sdkAvailable {
      return false, [];
    }
    success, log := true, [];
    var i := 0;
    while i < |secrets|
      invariant 0 <= i <= |secrets| && |log| == i
      invariant forall j :: 0 <= j < i ==> log[j] == GcpSync(secrets[j], env, prefix, live(j))
      invariant success <==> NoFailure(log)
    {
      var name := secrets[i];
      var outcome: Sync;
      if name !in env || env[name] == "" || env[name] == "***" {
        outcome := Skipped(name);
      } else {
        var id := prefix + name;
        var l := live(i);
        if l.probe == Status(200) {
          outcome := if Accepted(l.addVersion) then Updated(id) else Failed(id);
        } else if l.probe == Status(404) {
          if Accepted(l.create) {
            outcome := if Accepted(l.initialVersion) then Created(id) else Failed(id);
          } else {
            outcome := Failed(id);
          }
        } else {
          outcome := Failed(id);
        }
      }
      if outcome.Failed? {
        success := false;
      }
      log := log + [outcome];
      i := i + 1;
    }
  }

  // ---------------------------------------------------------------------------
  // main.

  datatype Args = Args(servers: seq<string>, dataServer: string, toAws: bool, toGcp: bool)

  /** Every secret of the list syncs without failure on AWS. */
  predicate AwsAllSynced(secrets: seq<string>, env: Env, live: nat -> AwsLive) {
    forall i :: 0 <= i < |secrets| ==> !AwsSync(secrets[i], env, EnvOr(env, "AWS_SECRET_PREFIX", ""), live(i)).Failed?
  }

  predicate GcpAllSynced(secrets: seq<string>, env: Env, live: nat -> GcpLive) {
    forall i :: 0 <= i < |secrets| ==> !GcpSync(secrets[i], env, EnvOr(env, "GCP_SECRET_PREFIX", ""), live(i)).Failed?
  }

  /**
   * The exit status of main: no provider is an error, an empty list succeeds
   * at once, a missing AWS_REGION, GCP_PROJECT_ID or GCP_SecretKey or a failed
   * GCP authentication is an error, and otherwise every selected provider
   * must have its SDK installed and synchronise every secret.
   */
  function ExitStatus(args: Args, env: Env, installed: Installed, gcpAuthOk: bool, aws: nat -> AwsLive, gcp: nat -> GcpLive): int {
    var secrets := SecretsToSync(args.servers, args.dataServer);
    if !args.toAws && !args.toGcp then 1
    else if secrets == [] then 0
    else if args.toAws && !EnvSet(env, "AWS_REGION") then 1
    else if args.toGcp && !(EnvSet(env, "GCP_PROJECT_ID") && EnvSet(env, "GCP_SecretKey") && gcpAuthOk) then 1
    else if && (!args.toAws || (installed.boto3 && AwsAllSynced(secrets, env, aws)))
            && (!args.toGcp || (installed.requests && GcpAllSynced(secrets, env, gcp))) then 0
    else 1
  }

  /**
   * The status is 0 or 1; it is 1 when no provider is chosen, 0 when there
   * is nothing to sync, and otherwise 0 exactly when every selected provider
   * is configured, has its SDK installed and synchronised every secret
   * without failure.
   */
  lemma ExitStatusMeaning(args: Args, env: Env, installed: Installed, gcpAuthOk: bool, aws: nat -> AwsLive, gcp: nat -> GcpLive)
    ensures var exit, secrets := ExitStatus(args, env, installed, gcpAuthOk, aws, gcp), SecretsToSync(args.servers, args.dataServer);
      && (exit == 0 || exit == 1)
      && (!args.toAws && !args.toGcp ==> exit == 1)
      && ((args.toAws || args.toGcp) && secrets == [] ==> exit == 0)
      && (exit == 0 <==>
            ((args.toAws || args.toGcp) &&
             (secrets == [] ||
              ((!args.toAws || (EnvSet(env, "AWS_REGION") && installed.boto3 && AwsAllSynced(secrets, env, aws))) &&
               (!args.toGcp || (EnvSet(env, "GCP_PROJECT_ID") && EnvSet(env, "GCP_SecretKey") && gcpAuthOk
                                && installed.requests && GcpAllSynced(secrets, env, gcp)))))))
  {
  }

  /**
   * A selected provider whose SDK cannot be imported makes main exit 1 once
   * there is something to sync, even when every secret would be skipped.
   */
  lemma MissingSdkFails(args: Args, env: Env, installed: Installed, gcpAuthOk: bool, aws: nat -> AwsLive, gcp: nat -> GcpLive)
    requires SecretsToSync(args.servers, args.dataServer) != []
    requires (args.toAws && !installed.boto3) || (args.toGcp && !installed.requests)
    ensures ExitStatus(args, env, installed, gcpAuthOk, aws, gcp) == 1
  {
  }

  /**
   * main, with the provider calls as oracles and the installed SDKs as a
   * parameter; the logs are those of the sync loops it ran.
   */
  method SyncMain(args: Args, env: Env, installed: Installed, gcpAuthOk: bool, aws: nat -> AwsLive, gcp: nat -> GcpLive)
    returns (exit: int, awsLog: seq<Sync>, gcpLog: seq<Sync>)
    ensures exit == ExitStatus(args, env, installed, gcpAuthOk, aws, gcp)
    ensures var secrets := SecretsToSync(args.servers, args.dataServer);
      |awsLog| == (if args.toAws && secrets != [] && EnvSet(env, "AWS_REGION") && installed.boto3 then |secrets| else 0)
    ensures var secrets := SecretsToSync(args.servers, args.dataServer);
      |gcpLog| == (if args.toGcp && secrets != [] && (!args.toAws || EnvSet(env, "AWS_REGION"))
                      && EnvSet(env, "GCP_PROJECT_ID") && EnvSet(env, "GCP_SecretKey") && gcpAuthOk && installed.requests
                   then |secrets| else 0)
    ensures var secrets := SecretsToSync(args.servers, args.dataServer);
      forall i :: 0 <= i < |awsLog| && i < |secrets| ==>
        awsLog[i] == AwsSync(secrets[i], env, EnvOr(env, "AWS_SECRET_PREFIX", ""), aws(i))
    ensures var secrets := SecretsToSync(args.servers, args.dataServer);
      forall i :: 0 <= i < |gcpLog| && i < |secrets| ==>
        gcpLog[i] == GcpSync(secrets[i], env, EnvOr(env, "GCP_SECRET_PREFIX", ""), gcp(i))
  {
    awsLog, gcpLog := [], [];
    if !args.toAws && !args.toGcp {
      return 1, [], [];
    }
    var secrets := GetSecretsToSync(args.servers, args.dataServer);
    if secrets == [] {
      return 0, [], [];
    }
    var overall := true;
    if args.toAws {
      if !EnvSet(env, "AWS_REGION") {
        return 1, [], [];
      }
      var ok;
      ok, awsLog := SyncToAws(secrets, env, EnvOr(env, "AWS_SECRET_PREFIX", ""), installed.boto3, aws);
      if !ok {
        overall := false;
      }
    }
    if args.toGcp {
      if !EnvSet(env, "GCP_PROJECT_ID") || !EnvSet(env, "GCP_SecretKey") || !gcpAuthOk {
        return 1, awsLog, [];
      }
      var ok;
      ok, gcpLog := SyncToGcp(secrets, env, EnvOr(env, "GCP_SECRET_PREFIX", ""), installed.requests, gcp);
      if !ok {
        overall := false;
      }
    }
    exit := if overall then 0 else 1;
  }
}
