/**
 * create_secret_payload in register_workflow.py: the credentials map, the
 * placeholder substitution in ComputeServers and DataStores, and the payload
 * that combines both. The workflow dictionary is copied shallowly, so the
 * substitution lands in the caller's ComputeServers and DataStores as well;
 * class Workflow models that shared document.
 */
module SecretPayload {
  import opened Basics
  import opened Text
  import opened WorkflowModel
  import Routing

  /** The nine credential slots at the top of the payload. */
  datatype Credentials = Credentials(
    githubToken: string,             // GH_PAT, required
    minioAccessKey: Option<string>,  // MINIO_ACCESSKEY, null when unset
    minioSecretKey: Option<string>,  // MINIO_SECRETKEY, null when unset
    owApiKey: string,                // OW_APIKEY or ""
    lambdaAccessKey: string,         // AWS_ACCESSKEY or ""
    lambdaSecretKey: string,         // AWS_SECRETKEY or ""
    gcpProjectId: string,            // Namespace of the first GCP server, or ""
    gcpServiceAccountKey: string,    // GCP_SECRETKEY or ""
    slurmToken: string)              // SLURM_TOKEN or ""

  const GITHUB_TOKEN_KEY := "My_GitHub_Account_TOKEN"
  const MINIO_ACCESS_KEY := "My_Minio_Bucket_ACCESS_KEY"
  const MINIO_SECRET_KEY := "My_Minio_Bucket_SECRET_KEY"
  const OW_API_KEY := "My_OW_Account_API_KEY"
  const LAMBDA_ACCESS_KEY := "My_Lambda_Account_ACCESS_KEY"
  const LAMBDA_SECRET_KEY := "My_Lambda_Account_SECRET_KEY"
  const GCP_PROJECT_ID := "My_GCP_Account_PROJECT_ID"
  const GCP_ACCOUNT_KEY := "My_GCP_Account_SERVICE_ACCOUNT_KEY"
  const SLURM_TOKEN := "My_SLURM_Account_TOKEN"

  const CREDENTIAL_KEYS: set<string> := {GITHUB_TOKEN_KEY, MINIO_ACCESS_KEY, MINIO_SECRET_KEY, OW_API_KEY,
    LAMBDA_ACCESS_KEY, LAMBDA_SECRET_KEY, GCP_PROJECT_ID, GCP_ACCOUNT_KEY, SLURM_TOKEN}

  /** The only data store whose keys are substituted. */
  const MINIO_BUCKET := "My_Minio_Bucket"

  /** The Namespace of the first server whose lower-cased FaaSType is a GCP alias, or "". */
  function GcpProjectId(servers: seq<Entry>): string {
    if servers == [] then ""
    else if Lower(Get(servers[0].fields, "FaaSType", "")) in Routing.Aliases(Routing.CloudFunctions)
    then Get(servers[0].fields, "Namespace", "")
    else GcpProjectId(servers[1..])
  }

  function EnvOpt(env: Env, name: string): Option<string> {
    if name in env then Some(env[name]) else None
  }

  /** The credentials dictionary; get_github_token exits when GH_PAT is unset or empty. */
  function CredentialsFrom(env: Env, d: Data): Result<Credentials, Fault> {
    if !EnvSet(env, "GH_PAT") then Err(MissingEnv("GH_PAT"))
    else Ok(Credentials(env["GH_PAT"], EnvOpt(env, "MINIO_ACCESSKEY"), EnvOpt(env, "MINIO_SECRETKEY"),
      EnvOr(env, "OW_APIKEY", ""), EnvOr(env, "AWS_ACCESSKEY", ""), EnvOr(env, "AWS_SECRETKEY", ""),
      GcpProjectId(Servers(d)), EnvOr(env, "GCP_SECRETKEY", ""), EnvOr(env, "SLURM_TOKEN", "")))
  }

  function OptValue(o: Option<string>): Value {
    if o.Some? then Str(o.value) else Null
  }

  /** Truthiness of an optional credential: present and non-empty. */
  function OptStr(o: Option<string>): string {
    if o.Some? then o.value else ""
  }

  function CredentialMap(c: Credentials): (m: map<string, Value>)
    ensures m.Keys == CREDENTIAL_KEYS
  {
    map[GITHUB_TOKEN_KEY := Str(c.githubToken), MINIO_ACCESS_KEY := OptValue(c.minioAccessKey),
        MINIO_SECRET_KEY := OptValue(c.minioSecretKey), OW_API_KEY := Str(c.owApiKey),
        LAMBDA_ACCESS_KEY := Str(c.lambdaAccessKey), LAMBDA_SECRET_KEY := Str(c.lambdaSecretKey),
        GCP_PROJECT_ID := Str(c.gcpProjectId), GCP_ACCOUNT_KEY := Str(c.gcpServiceAccountKey),
        SLURM_TOKEN := Str(c.slurmToken)]
  }

  /** One guarded assignment: the field is present, holds an accepted placeholder, and the credential is non-empty. */
  function Replace(f: Fields, field: string, placeholders: set<string>, cred: string): Fields {
    if field in f && f[field] in placeholders && cred != "" then f[field := cred] else f
  }

  /** The substitution applied to one compute server, keyed by its exact-case FaaSType. */
  function SubstituteServer(e: Entry, c: Credentials): Entry {
    var key, f := e.name, e.fields;
    var t := Get(f, "FaaSType", "");
    var f' :=
      if t == "Lambda" then
        Replace(Replace(f, "AccessKey", {key + "_ACCESS_KEY"}, c.lambdaAccessKey),
                "SecretKey", {key + "_SECRET_KEY"}, c.lambdaSecretKey)
      else if t == "GitHubActions" then Replace(f, "Token", {key + "_TOKEN"}, c.githubToken)
      else if t == "OpenWhisk" then Replace(f, "API.key", {key + "_API_KEY"}, c.owApiKey)
      else if t in {"CloudFunctions", "GoogleCloud"} then
        Replace(Replace(f, "Namespace", {key + "_PROJECT_ID"}, c.gcpProjectId),
                "SecretKey", {key + "_SECRET_KEY", "GCP_SECRET_KEY"}, c.gcpServiceAccountKey)
      else f;
    e.(fields := f')
  }

  /** The substitution applied to one data store: only My_Minio_Bucket gets credentials. */
  function SubstituteStore(e: Entry, c: Credentials): Entry {
    var key := e.name;
    var access := if key == MINIO_BUCKET then OptStr(c.minioAccessKey) else "";
    var secret := if key == MINIO_BUCKET then OptStr(c.minioSecretKey) else "";
    e.(fields := Replace(Replace(e.fields, "AccessKey", {key + "_ACCESS_KEY"}, access),
                         "SecretKey", {key + "_SECRET_KEY"}, secret))
  }

  function SubstituteServers(es: seq<Entry>, c: Credentials): seq<Entry> {
    seq(|es|, i requires 0 <= i < |es| => SubstituteServer(es[i], c))
  }

  function SubstituteStores(es: seq<Entry>, c: Credentials): seq<Entry> {
    seq(|es|, i requires 0 <= i < |es| => SubstituteStore(es[i], c))
  }

  /** The workflow document after the substitution has gone through the shared dictionaries. */
  function Substituted(d: Data, c: Credentials): Data {
    var d1 := if COMPUTE_SERVERS in d && d[COMPUTE_SERVERS].Table?
              then d[COMPUTE_SERVERS := Table(SubstituteServers(d[COMPUTE_SERVERS].entries, c))] else d;
    if DATA_STORES in d1 && d1[DATA_STORES].Table?
    then d1[DATA_STORES := Table(SubstituteStores(d1[DATA_STORES].entries, c))] else d1
  }

  /** The payload dictionary that json.dumps serialises. */
  function Payload(d: Data, c: Credentials): Data {
    CredentialMap(c) + (Substituted(d, c) - {WORKFLOW_FILE})
  }

  // ---------------------------------------------------------------------------
  // Reference definition of the credential slots, independent of Replace.

  /** The placeholders a field of server `key` with exact FaaSType t accepts, and the credential that fills it. */
  function ServerSlot(key: string, t: string, field: string, c: Credentials): Option<(set<string>, string)> {
    if t == "Lambda" && field == "AccessKey" then Some(({key + "_ACCESS_KEY"}, c.lambdaAccessKey))
    else if t == "Lambda" && field == "SecretKey" then Some(({key + "_SECRET_KEY"}, c.lambdaSecretKey))
    else if t == "GitHubActions" && field == "Token" then Some(({key + "_TOKEN"}, c.githubToken))
    else if t == "OpenWhisk" && field == "API.key" then Some(({key + "_API_KEY"}, c.owApiKey))
    else if t in {"CloudFunctions", "GoogleCloud"} && field == "Namespace" then Some(({key + "_PROJECT_ID"}, c.gcpProjectId))
    else if t in {"CloudFunctions", "GoogleCloud"} && field == "SecretKey"
    then Some(({key + "_SECRET_KEY", "GCP_SECRET_KEY"}, c.gcpServiceAccountKey))
    else None
  }

  /** The field's value after substitution, according to the slot table. */
  function SlotValue(key: string, t: string, field: string, v: string, c: Credentials): string {
    match ServerSlot(key, t, field, c)
    case Some((accepted, cred)) => if v in accepted && cred != "" then cred else v
    case None => v
  }

  /**
   * Every server field is replaced exactly when the slot table says so: the
   * field holds one of its placeholders for this server key, the exact-case
   * FaaSType owns the slot, and the credential is non-empty. Nothing else moves.
   */
  lemma SubstituteServerBySlot(e: Entry, c: Credentials)
    ensures SubstituteServer(e, c).name == e.name
    ensures SubstituteServer(e, c).fields.Keys == e.fields.Keys
    ensures forall k :: k in e.fields ==>
      SubstituteServer(e, c).fields[k] == SlotValue(e.name, Get(e.fields, "FaaSType", ""), k, e.fields[k], c)
  {
    forall k | k in e.fields
      ensures SubstituteServer(e, c).fields[k] == SlotValue(e.name, Get(e.fields, "FaaSType", ""), k, e.fields[k], c)
    {
      SubstituteFieldBySlot(e, c, k);
    }
  }

  /** One field of SubstituteServerBySlot. */
  lemma SubstituteFieldBySlot(e: Entry, c: Credentials, k: string)
    requires k in e.fields
    ensures SubstituteServer(e, c).fields.Keys == e.fields.Keys
    ensures SubstituteServer(e, c).fields[k] == SlotValue(e.name, Get(e.fields, "FaaSType", ""), k, e.fields[k], c)
  {
    var t := Get(e.fields, "FaaSType", "");
    if t == "Lambda" {
      SubstituteLambdaField(e, c, k);
    } else if t in {"CloudFunctions", "GoogleCloud"} {
      SubstituteGcpField(e, c, k);
    }
  }

  lemma SubstituteLambdaField(e: Entry, c: Credentials, k: string)
    requires k in e.fields && Get(e.fields, "FaaSType", "") == "Lambda"
    ensures SubstituteServer(e, c).fields.Keys == e.fields.Keys
    ensures SubstituteServer(e, c).fields[k] == SlotValue(e.name, "Lambda", k, e.fields[k], c)
  {
    var f1 := Replace(e.fields, "AccessKey", {e.name + "_ACCESS_KEY"}, c.lambdaAccessKey);
    assert SubstituteServer(e, c).fields == Replace(f1, "SecretKey", {e.name + "_SECRET_KEY"}, c.lambdaSecretKey);
  }

  lemma SubstituteGcpField(e: Entry, c: Credentials, k: string)
    requires k in e.fields && Get(e.fields, "FaaSType", "") in {"CloudFunctions", "GoogleCloud"}
    ensures SubstituteServer(e, c).fields.Keys == e.fields.Keys
    ensures SubstituteServer(e, c).fields[k] == SlotValue(e.name, Get(e.fields, "FaaSType", ""), k, e.fields[k], c)
  {
    var f1 := Replace(e.fields, "Namespace", {e.name + "_PROJECT_ID"}, c.gcpProjectId);
    assert SubstituteServer(e, c).fields == Replace(f1, "SecretKey", {e.name + "_SECRET_KEY", "GCP_SECRET_KEY"}, c.gcpServiceAccountKey);
  }

  /** The data-store rule: AccessKey/SecretKey of My_Minio_Bucket, from its placeholders, when the MinIO credential is set. */
  lemma SubstituteStoreOnlyMinio(e: Entry, c: Credentials)
    ensures SubstituteStore(e, c).name == e.name
    ensures SubstituteStore(e, c).fields.Keys == e.fields.Keys
    ensures e.name != MINIO_BUCKET ==> SubstituteStore(e, c) == e
    ensures forall k :: k in e.fields && SubstituteStore(e, c).fields[k] != e.fields[k] ==>
      e.name == MINIO_BUCKET &&
      ((k == "AccessKey" && e.fields[k] == e.name + "_ACCESS_KEY" && SubstituteStore(e, c).fields[k] == OptStr(c.minioAccessKey) != "") ||
       (k == "SecretKey" && e.fields[k] == e.name + "_SECRET_KEY" && SubstituteStore(e, c).fields[k] == OptStr(c.minioSecretKey) != ""))
  {
  }

  /** Substitution never changes a server's FaaSType. */
  lemma SubstituteKeepsType(e: Entry, c: Credentials)
    ensures Get(SubstituteServer(e, c).fields, "FaaSType", "") == Get(e.fields, "FaaSType", "")
    ensures ("FaaSType" in SubstituteServer(e, c).fields) == ("FaaSType" in e.fields)
    ensures SubstituteServer(e, c).name == e.name
    ensures SubstituteServer(e, c).maxMemory == e.maxMemory && SubstituteServer(e, c).maxRuntime == e.maxRuntime
  {
  }

  lemma ReplaceTwice(f: Fields, field: string, placeholders: set<string>, cred: string)
    ensures Replace(Replace(f, field, placeholders, cred), field, placeholders, cred) == Replace(f, field, placeholders, cred)
  {
  }

  /** Substituting a server twice with the same credentials is a no-op. */
  lemma SubstituteServerIdempotent(e: Entry, c: Credentials)
    ensures SubstituteServer(SubstituteServer(e, c), c) == SubstituteServer(e, c)
  {
    var e1 := SubstituteServer(e, c);
    SubstituteServerBySlot(e, c);
    SubstituteServerBySlot(e1, c);
    SubstituteKeepsType(e, c);
    var t := Get(e.fields, "FaaSType", "");
    assert SubstituteServer(e1, c).fields == e1.fields by {
      forall k | k in e1.fields ensures SubstituteServer(e1, c).fields[k] == e1.fields[k] {
        assert SubstituteServer(e1, c).fields[k] == SlotValue(e.name, t, k, e1.fields[k], c);
      }
    }
  }

  lemma SubstituteStoreIdempotent(e: Entry, c: Credentials)
    ensures SubstituteStore(SubstituteStore(e, c), c) == SubstituteStore(e, c)
  {
  }

  /** The GCP project id read from the servers survives their substitution. */
  lemma {:induction false} GcpProjectIdStable(es: seq<Entry>, c: Credentials)
    requires c.gcpProjectId == GcpProjectId(es)
    ensures GcpProjectId(SubstituteServers(es, c)) == GcpProjectId(es)
  {
    if es != [] {
      var s := SubstituteServers(es, c);
      SubstituteKeepsType(es[0], c);
      SubstituteServerBySlot(es[0], c);
      if Lower(Get(es[0].fields, "FaaSType", "")) !in Routing.Aliases(Routing.CloudFunctions) {
        assert s[1..] == SubstituteServers(es[1..], c);
        GcpProjectIdStable(es[1..], c);
      }
    }
  }

  lemma ServersOfSubstituted(d: Data, c: Credentials)
    ensures Servers(Substituted(d, c)) == SubstituteServers(Servers(d), c)
    ensures Stores(Substituted(d, c)) == SubstituteStores(Stores(d), c)
    ensures Substituted(d, c).Keys == d.Keys
    ensures forall k :: k in d && k != COMPUTE_SERVERS && k != DATA_STORES ==> Substituted(d, c)[k] == d[k]
  {
  }

  /**
   * create_secret_payload is idempotent: run again on the document it has
   * already rewritten (as the next deploy_to_* routine does), it derives the
   * same credentials, leaves the document as it is and builds the same payload.
   */
  lemma SubstitutionIdempotent(env: Env, d: Data)
    requires CredentialsFrom(env, d).Ok?
    ensures var c := CredentialsFrom(env, d).value;
      && CredentialsFrom(env, Substituted(d, c)) == Ok(c)
      && Substituted(Substituted(d, c), c) == Substituted(d, c)
      && Payload(Substituted(d, c), c) == Payload(d, c)
  {
    var c := CredentialsFrom(env, d).value;
    var d1 := Substituted(d, c);
    ServersOfSubstituted(d, c);
    GcpProjectIdStable(Servers(d), c);
    ServersOfSubstituted(d1, c);
    var s1 := SubstituteServers(Servers(d), c);
    var t1 := SubstituteStores(Stores(d), c);
    assert SubstituteServers(s1, c) == s1 by {
      forall i | 0 <= i < |s1| ensures SubstituteServers(s1, c)[i] == s1[i] {
        SubstituteServerIdempotent(Servers(d)[i], c);
      }
    }
    assert SubstituteStores(t1, c) == t1 by {
      forall i | 0 <= i < |t1| ensures SubstituteStores(t1, c)[i] == t1[i] {
        SubstituteStoreIdempotent(Stores(d)[i], c);
      }
    }
    assert Substituted(d1, c) == d1;
  }

  /**
   * The payload holds the nine credential keys and every workflow key but
   * _workflow_file; on a shared key the workflow's (substituted) value wins.
   */
  lemma PayloadKeys(d: Data, c: Credentials)
    ensures Payload(d, c).Keys == CREDENTIAL_KEYS + (d.Keys - {WORKFLOW_FILE})
    ensures forall k :: k in d && k != WORKFLOW_FILE ==> Payload(d, c)[k] == Substituted(d, c)[k]
    ensures forall k :: k in d && k != WORKFLOW_FILE && k != COMPUTE_SERVERS && k != DATA_STORES ==> Payload(d, c)[k] == d[k]
    ensures forall k :: k in CREDENTIAL_KEYS && k !in d ==> Payload(d, c)[k] == CredentialMap(c)[k]
  {
    ServersOfSubstituted(d, c);
    var m, s := CredentialMap(c), Substituted(d, c) - {WORKFLOW_FILE};
    assert Payload(d, c) == m + s;
    assert s.Keys == d.Keys - {WORKFLOW_FILE};
  }

  /** The shared workflow document (the dictionaries create_secret_payload writes through). */
  class Workflow {
    var data: Data

    constructor (d: Data)
      ensures data == d
    {
      data := d;
    }

    /** create_secret_payload(workflow_data). */
    method CreateSecretPayload(env: Env) returns (r: Result<Data, Fault>)
      modifies this
      ensures CredentialsFrom(env, old(data)).Err? ==> r == Err(MissingEnv("GH_PAT")) && data == old(data)
      ensures CredentialsFrom(env, old(data)).Ok? ==>
        var c := CredentialsFrom(env, old(data)).value;
        data == Substituted(old(data), c) && r == Ok(Payload(old(data), c))
    {
      if !EnvSet(env, "GH_PAT") {
        return Err(MissingEnv("GH_PAT"));
      }
      var projectId := FindGcpProjectId(Servers(data));
      var c := Credentials(env["GH_PAT"], EnvOpt(env, "MINIO_ACCESSKEY"), EnvOpt(env, "MINIO_SECRETKEY"),
        EnvOr(env, "OW_APIKEY", ""), EnvOr(env, "AWS_ACCESSKEY", ""), EnvOr(env, "AWS_SECRETKEY", ""),
        projectId, EnvOr(env, "GCP_SECRETKEY", ""), EnvOr(env, "SLURM_TOKEN", ""));
      var payload := CredentialMap(c) + (data - {WORKFLOW_FILE});
      if COMPUTE_SERVERS in data && data[COMPUTE_SERVERS].Table? {
        var servers := SubstituteEach(data[COMPUTE_SERVERS].entries, c, true);
        OverlayUpdate(CredentialMap(c), data, COMPUTE_SERVERS, Table(servers));
        data := data[COMPUTE_SERVERS := Table(servers)];
        payload := payload[COMPUTE_SERVERS := Table(servers)];
      }
      if DATA_STORES in data && data[DATA_STORES].Table? {
        var stores := SubstituteEach(data[DATA_STORES].entries, c, false);
        OverlayUpdate(CredentialMap(c), data, DATA_STORES, Table(stores));
        data := data[DATA_STORES := Table(stores)];
        payload := payload[DATA_STORES := Table(stores)];
      }
      r := Ok(payload);
    }
  }

  /** Writing a key of the shared document shows through the payload built from it. */
  lemma OverlayUpdate(m: Data, d: Data, x: string, v: Value)
    requires x != WORKFLOW_FILE
    ensures (m + (d - {WORKFLOW_FILE}))[x := v] == m + (d[x := v] - {WORKFLOW_FILE})
  {
  }

  /** The loop that finds gcp_project_id (first GCP-alias server, then break). */
  method FindGcpProjectId(servers: seq<Entry>) returns (projectId: string)
    ensures projectId == GcpProjectId(servers)
  {
    var i := 0;
    while i < |servers|
      invariant 0 <= i <= |servers|
      invariant GcpProjectId(servers) == GcpProjectId(servers[i..])
    {
      if Lower(Get(servers[i].fields, "FaaSType", "")) in Routing.Aliases(Routing.CloudFunctions) {
        return Get(servers[i].fields, "Namespace", "");
      }
      assert servers[i..][1..] == servers[i + 1..];
      i := i + 1;
    }
    return "";
  }

  /** The per-entry loops over ComputeServers (servers) or DataStores (not servers). */
  method SubstituteEach(es: seq<Entry>, c: Credentials, servers: bool) returns (out: seq<Entry>)
    ensures servers ==> out == SubstituteServers(es, c)
    ensures !servers ==> out == SubstituteStores(es, c)
  {
    out := [];
    var i := 0;
    while i < |es|
      invariant 0 <= i <= |es|
      invariant |out| == i
      invariant forall j :: 0 <= j < i ==> out[j] == if servers then SubstituteServer(es[j], c) else SubstituteStore(es[j], c)
    {
      out := out + [if servers then SubstituteServer(es[i], c) else SubstituteStore(es[i], c)];
      i := i + 1;
    }
  }
}
