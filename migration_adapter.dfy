/**
 * migration_adapter.py: the payload objects handed to the scheduler and the
 * checks made before a workflow's first function is triggered. Unlike
 * create_secret_payload, the adapter writes credentials into every server of
 * a matching platform, placeholder or not.
 */
module MigrationAdapter {
  import opened Basics
  import opened Text
  import opened WorkflowModel
  import opened Routing

  /** FaaSrPayload: a plain wrapper around one dictionary. */
  class FaaSrPayload {
    var data: Data

    constructor (d: Data)
      ensures data == d
    {
      data := d;
    }

    /** payload[key]; None stands for KeyError. */
    method GetItem(key: string) returns (r: Option<Value>)
      ensures r.Some? <==> key in data
      ensures r.Some? ==> r.value == data[key]
    {
      if key in data {
        return Some(data[key]);
      }
      return None;
    }

    method SetItem(key: string, value: Value)
      modifies this
      ensures data == old(data)[key := value]
    {
      data := data[key := value];
    }

    method Contains(key: string) returns (r: bool)
      ensures r <==> key in data
    {
      return key in data;
    }

    method Get(key: string, default: Value) returns (r: Value)
      ensures key in data ==> r == data[key]
      ensures key !in data ==> r == default
    {
      if key in data {
        return data[key];
      }
      return default;
    }
  }

  /** The environment variables the adapter reads; an unset variable counts as "". */
  datatype AdapterCredentials = AdapterCredentials(
    githubToken: string,    // GITHUB_TOKEN
    minioAccessKey: string, // MINIO_ACCESS_KEY
    minioSecretKey: string, // MINIO_SECRET_KEY
    owApiKey: string,       // OW_API_KEY
    lambdaAccessKey: string,// AWS_ACCESS_KEY_ID
    lambdaSecretKey: string)// AWS_SECRET_ACCESS_KEY

  function AdapterCredentialsFrom(env: Env): AdapterCredentials {
    AdapterCredentials(EnvOr(env, "GITHUB_TOKEN", ""), EnvOr(env, "MINIO_ACCESS_KEY", ""),
      EnvOr(env, "MINIO_SECRET_KEY", ""), EnvOr(env, "OW_API_KEY", ""),
      EnvOr(env, "AWS_ACCESS_KEY_ID", ""), EnvOr(env, "AWS_SECRET_ACCESS_KEY", ""))
  }

  /** Sets a field to a credential when the credential is non-empty, whatever the field held. */
  function Overwrite(f: Fields, field: string, cred: string): (r: Fields)
    ensures cred != "" ==> r == f[field := cred]
    ensures cred == "" ==> r == f
  {
    if cred != "" then f[field := cred] else f
  }

  /** The lower-cased FaaSType of a server, "" when it has none. */
  function TypeOf(e: Entry): string {
    Lower(Get(e.fields, "FaaSType", ""))
  }

  /** _setup_credentials on one compute server, by its lower-cased FaaSType. */
  function AdaptServer(e: Entry, c: AdapterCredentials): Entry {
    var t := TypeOf(e);
    if t in Aliases(Lambda) then
      e.(fields := Overwrite(Overwrite(e.fields, "AccessKey", c.lambdaAccessKey), "SecretKey", c.lambdaSecretKey))
    else if t in Aliases(GitHubActions) then e.(fields := Overwrite(e.fields, "Token", c.githubToken))
    else if t in Aliases(OpenWhisk) then e.(fields := Overwrite(e.fields, "API.key", c.owApiKey))
    else e
  }

  /** _setup_credentials on one data store: only My_Minio_Bucket gets credentials. */
  function AdaptStore(e: Entry, c: AdapterCredentials): Entry {
    if e.name == "My_Minio_Bucket" then
      e.(fields := Overwrite(Overwrite(e.fields, "AccessKey", c.minioAccessKey), "SecretKey", c.minioSecretKey))
    else e
  }

  /**
   * The credential fields a server of each platform receives. A field is
   * rewritten exactly when it is one of its platform's fields and the
   * credential for it is non-empty; it then holds that credential, whatever
   * it held before. Other fields, and servers of other platforms, are kept.
   */
  function CredentialFor(t: string, field: string, c: AdapterCredentials): string {
    if t in Aliases(Lambda) && field == "AccessKey" then c.lambdaAccessKey
    else if t in Aliases(Lambda) && field == "SecretKey" then c.lambdaSecretKey
    else if t in Aliases(GitHubActions) && field == "Token" then c.githubToken
    else if t in Aliases(OpenWhisk) && field == "API.key" then c.owApiKey
    else ""
  }

  lemma AdaptServerByField(e: Entry, c: AdapterCredentials)
    ensures AdaptServer(e, c).name == e.name
    ensures forall field :: CredentialFor(TypeOf(e), field, c) != "" ==>
      field in AdaptServer(e, c).fields && AdaptServer(e, c).fields[field] == CredentialFor(TypeOf(e), field, c)
    ensures forall field :: CredentialFor(TypeOf(e), field, c) == "" ==>
      (field in AdaptServer(e, c).fields <==> field in e.fields) &&
      (field in e.fields ==> AdaptServer(e, c).fields[field] == e.fields[field])
  {
  }

  /** The store rule: only My_Minio_Bucket changes, and then only where a credential is set. */
  lemma AdaptStoreOnlyMinio(e: Entry, c: AdapterCredentials)
    ensures e.name != "My_Minio_Bucket" ==> AdaptStore(e, c) == e
    ensures e.name == "My_Minio_Bucket" && c.minioAccessKey != "" ==> AdaptStore(e, c).fields["AccessKey"] == c.minioAccessKey
    ensures e.name == "My_Minio_Bucket" && c.minioSecretKey != "" ==> AdaptStore(e, c).fields["SecretKey"] == c.minioSecretKey
    ensures c.minioAccessKey == "" && c.minioSecretKey == "" ==> AdaptStore(e, c) == e
  {
  }

  /** The loop over ComputeServers (servers) or DataStores (stores). */
  method AdaptEach(es: seq<Entry>, c: AdapterCredentials, servers: bool) returns (out: seq<Entry>)
    ensures |out| == |es|
    ensures forall i :: 0 <= i < |es| ==> out[i] == if servers then AdaptServer(es[i], c) else AdaptStore(es[i], c)
  {
    out := [];
    var i := 0;
    while i < |es|
      invariant 0 <= i <= |es| && |out| == i
      invariant forall j :: 0 <= j < i ==> out[j] == if servers then AdaptServer(es[j], c) else AdaptStore(es[j], c)
    {
      out := out + [if servers then AdaptServer(es[i], c) else AdaptStore(es[i], c)];
      i := i + 1;
    }
  }

  function AdaptServers(es: seq<Entry>, c: AdapterCredentials): seq<Entry> {
    seq(|es|, i requires 0 <= i < |es| => AdaptServer(es[i], c))
  }

  function AdaptStores(es: seq<Entry>, c: AdapterCredentials): seq<Entry> {
    seq(|es|, i requires 0 <= i < |es| => AdaptStore(es[i], c))
  }

  /** The document after _setup_credentials. */
  function Adapted(d: Data, c: AdapterCredentials): Data {
    var d1 := if COMPUTE_SERVERS in d && d[COMPUTE_SERVERS].Table?
              then d[COMPUTE_SERVERS := Table(AdaptServers(d[COMPUTE_SERVERS].entries, c))] else d;
    if DATA_STORES in d1 && d1[DATA_STORES].Table?
    then d1[DATA_STORES := Table(AdaptStores(d1[DATA_STORES].entries, c))] else d1
  }

  /** _setup_credentials: the server loop, then the store loop, each over its table when present. */
  method AdaptDocument(workflow: Data, c: AdapterCredentials) returns (d: Data)
    ensures d == Adapted(workflow, c)
  {
    d := workflow;
    if COMPUTE_SERVERS in d && d[COMPUTE_SERVERS].Table? {
      var es := AdaptEach(d[COMPUTE_SERVERS].entries, c, true);
      assert es == AdaptServers(d[COMPUTE_SERVERS].entries, c);
      d := d[COMPUTE_SERVERS := Table(es)];
    }
    if DATA_STORES in d && d[DATA_STORES].Table? {
      var es := AdaptEach(d[DATA_STORES].entries, c, false);
      assert es == AdaptStores(d[DATA_STORES].entries, c);
      d := d[DATA_STORES := Table(es)];
    }
  }

  /** Keys that never go into the overwritten fields. */
  const EXCLUDED: set<string> := {COMPUTE_SERVERS, DATA_STORES, WORKFLOW_FILE}

  const DEFAULT_KEYS: set<string> := {"FunctionInvoke", "InvocationID", "InvocationTimestamp", "WorkflowName"}

  function GetValue(d: Data, key: string, default: Value): Value {
    if key in d then d[key] else default
  }

  /** _setup_overwritten_fields: four defaults, then every workflow key outside EXCLUDED. */
  function Overwritten(d: Data): (r: Data)
    ensures r.Keys == DEFAULT_KEYS + (d.Keys - EXCLUDED)
    ensures forall k :: k in d && k !in EXCLUDED ==> r[k] == d[k]
    ensures "FunctionInvoke" !in d ==> r["FunctionInvoke"] == Null
    ensures "WorkflowName" !in d ==> r["WorkflowName"] == Str("default")
    ensures "InvocationID" !in d ==> r["InvocationID"] == Str("")
    ensures "InvocationTimestamp" !in d ==> r["InvocationTimestamp"] == Str("")
  {
    map["FunctionInvoke" := GetValue(d, "FunctionInvoke", Null),
        "InvocationID" := GetValue(d, "InvocationID", Str("")),
        "InvocationTimestamp" := GetValue(d, "InvocationTimestamp", Str("")),
        "WorkflowName" := GetValue(d, "WorkflowName", Str("default"))]
    + (d - EXCLUDED)
  }

  /** The first server of a GitHub Actions type: `github_servers[0]`. */
  function FirstGitHubServer(servers: seq<Entry>): (r: Option<Entry>)
    ensures r.Some? ==> TypeOf(r.value) in Aliases(GitHubActions)
    ensures r.Some? ==>
      exists i :: 0 <= i < |servers| && servers[i] == r.value && forall j :: 0 <= j < i ==> TypeOf(servers[j]) !in Aliases(GitHubActions)
    ensures r.None? ==> forall i :: 0 <= i < |servers| ==> TypeOf(servers[i]) !in Aliases(GitHubActions)
  {
    if servers == [] then None
    else if TypeOf(servers[0]) in Aliases(GitHubActions) then Some(servers[0])
    else FirstGitHubServer(servers[1..])
  }

  /** _setup_url: "unknown" without a path; user/repo/branch/file with a GitHub server; else the file name. */
  function PayloadUrl(d: Data, path: string): (r: string)
    ensures path == "" ==> r == "unknown"
    ensures path != "" && FirstGitHubServer(Servers(d)).None? ==> r == Basename(path)
    ensures path != "" && FirstGitHubServer(Servers(d)).Some? ==>
      var f := FirstGitHubServer(Servers(d)).value.fields;
      r == Get(f, "UserName", "unknown") + "/" + Get(f, "ActionRepoName", "unknown") + "/" + Get(f, "Branch", "main") + "/" + Basename(path)
    ensures path != "" ==> EndsWith(r, Basename(path)) && Basename(r) == Basename(path)
  {
    if path == "" then "unknown"
    else match FirstGitHubServer(Servers(d))
      case None =>
        BasenameAfterSlash([], Basename(path));
        assert [] + Basename(path) == Basename(path);
        Basename(path)
      case Some(s) =>
        var prefix := Get(s.fields, "UserName", "unknown") + "/" + Get(s.fields, "ActionRepoName", "unknown") + "/"
                      + Get(s.fields, "Branch", "main") + "/";
        assert (prefix + Basename(path))[|prefix|..] == Basename(path);
        BasenameAfterSlash(prefix, Basename(path));
        prefix + Basename(path)
  }

  /** FaaSrPayloadAdapter. */
  class FaaSrPayloadAdapter {
    var data: Data
    var overwritten: Data
    var url: string

    /** Every workflow key outside EXCLUDED has its current value in overwritten. */
    predicate Valid()
      reads this
    {
      forall k :: k in data && k !in EXCLUDED ==> k in overwritten && overwritten[k] == data[k]
    }

    /** The three setup steps, on a copy of the document. */
    constructor (workflow: Data, path: string, env: Env)
      ensures data == Adapted(workflow, AdapterCredentialsFrom(env))
      ensures overwritten == Overwritten(data)
      ensures url == PayloadUrl(data, path)
      ensures Valid()
    {
      var d := AdaptDocument(workflow, AdapterCredentialsFrom(env));
      var o := Overwritten(d);
      assert forall k :: k in d && k !in EXCLUDED ==> k in o && o[k] == d[k];
      data, overwritten, url := d, o, PayloadUrl(d, path);
    }

    /** adapter[key] reads the document only. */
    method GetItem(key: string) returns (r: Option<Value>)
      ensures r.Some? <==> key in data
      ensures r.Some? ==> r.value == data[key]
    {
      if key in data {
        return Some(data[key]);
      }
      return None;
    }

    method Contains(key: string) returns (r: bool)
      ensures r <==> key in data
    {
      return key in data;
    }

    method Get(key: string, default: Value) returns (r: Value)
      ensures r == GetValue(data, key, default)
    {
      if key in data {
        return data[key];
      }
      return default;
    }

    /** The whole adapted document, as the OpenWhisk path reads it; it agrees with the overwritten fields. */
    method GetCompleteWorkflow() returns (r: Data)
      requires Valid()
      ensures r == data
      ensures forall k :: k in r && k !in EXCLUDED ==> k in overwritten && overwritten[k] == r[k]
    {
      r := data;
    }

    /**
     * adapter[key] = value: the document always changes, the overwritten
     * fields too unless the key is excluded; the agreement between the two
     * is kept.
     */
    method SetItem(key: string, value: Value)
      requires Valid()
      modifies this
      ensures data == old(data)[key := value]
      ensures overwritten == if key in EXCLUDED then old(overwritten) else old(overwritten)[key := value]
      ensures url == old(url)
      ensures Valid()
    {
      data := data[key := value];
      if key !in EXCLUDED {
        overwritten := overwritten[key := value];
      }
    }
  }

  /** A value read as a condition, as Python does. */
  predicate Truthy(v: Value) {
    match v
    case Null => false
    case Str(s) => s != ""
    case Num(n) => n != 0
    case Flag(b) => b
    case Table(es) => es != []
    case ActionTable(actions) => actions != []
    case StrMap(m) => m != map[]
    case Other(_) => true
  }

  /** The names of ActionList. */
  function ActionNames(d: Data): set<string> {
    set a | a in ActionsOf(d) :: a.name
  }

  datatype MigrateFault = NoFunctionInvoke | NotInActionList | TriggerFailed(action: string)

  /**
   * migrate_invoke_workflow_to_scheduler after the file is loaded: a given
   * function name replaces FunctionInvoke; an unset or empty FunctionInvoke,
   * or one that names no action, stops before the adapter is built;
   * otherwise the scheduler is handed the adapted document.
   */
  method Migrate(workflow: Data, path: string, functionName: string, env: Env, trigger: (string, Data) -> bool)
    returns (r: Result<string, MigrateFault>)
    ensures var d := if functionName != "" then workflow["FunctionInvoke" := Str(functionName)] else workflow;
      && (r == Err(NoFunctionInvoke) <==> !Truthy(GetValue(d, "FunctionInvoke", Null)))
      && (r.Ok? <==> Truthy(GetValue(d, "FunctionInvoke", Null)) && GetValue(d, "FunctionInvoke", Null).Str? && GetValue(d, "FunctionInvoke", Null).s in ActionNames(d)
                     && trigger(GetValue(d, "FunctionInvoke", Null).s, Adapted(d, AdapterCredentialsFrom(env))))
      && (r.Ok? ==> r.value == GetValue(d, "FunctionInvoke", Null).s)
    ensures functionName != "" && r.Ok? ==> r.value == functionName
  {
    var d := workflow;
    if functionName != "" {
      d := d["FunctionInvoke" := Str(functionName)];
    }
    var invoke := GetValue(d, "FunctionInvoke", Null);
    if !Truthy(invoke) {
      return Err(NoFunctionInvoke);
    }
    if !invoke.Str? || invoke.s !in ActionNames(d) {
      return Err(NotInActionList);
    }
    var adapter := new FaaSrPayloadAdapter(d, path, env);
    var payload := new FaaSrPayload(adapter.data);
    if !trigger(invoke.s, payload.data) {
      return Err(TriggerFailed(invoke.s));
    }
    return Ok(invoke.s);
  }
}
