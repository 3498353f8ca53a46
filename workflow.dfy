/**
 * The workflow document as the deployment scripts see it after json.load:
 * a top-level dictionary whose ComputeServers and DataStores entries are
 * dictionaries of dictionaries, whose ActionList maps action names to
 * actions, and whose ActionContainers maps action names to image references.
 */
module WorkflowModel {
  import opened Basics

  /** String-valued settings of one compute server or data store. */
  type Fields = map<string, string>

  /**
   * One named compute server or data store. MaxMemory and MaxRuntime are the
   * only numeric settings the scripts read, so they are kept apart.
   */
  datatype Entry = Entry(name: string, fields: Fields, maxMemory: Option<int>, maxRuntime: Option<int>)

  /** One entry of ActionList. */
  datatype Action = Action(name: string, faasServer: string, functionName: string,
                           maxMemory: Option<int>, maxRuntime: Option<int>)

  /** A top-level value of the workflow document (and of the secret payload). */
  datatype Value =
    | Null
    | Str(s: string)
    | Num(n: int)
    | Flag(b: bool)
    | Table(entries: seq<Entry>)        // ComputeServers, DataStores
    | ActionTable(actions: seq<Action>) // ActionList
    | StrMap(m: map<string, string>)    // ActionContainers
    | Other(code: int)                  // anything else, copied verbatim

  type Data = map<string, Value>

  /** The process environment. */
  type Env = map<string, string>

  /** Why a script run stops with exit status 1. */
  datatype Fault =
    | MissingEnv(variable: string)
    | UnknownServer(server: string)
    | MissingFaaSType(server: string)
    | MissingField(server: string, field: string)
    | NoFaaSType
    | NoPlatformServer
    | InvalidEndpoint(store: string)
    | ValidationFailed
    | ProbeFailed(unit: string)
    | CallFailed(unit: string)
    | StateFailed(unit: string)
    | WaitTimedOut(unit: string)

  const COMPUTE_SERVERS := "ComputeServers"
  const DATA_STORES := "DataStores"
  const ACTION_LIST := "ActionList"
  const ACTION_CONTAINERS := "ActionContainers"
  const WORKFLOW_FILE := "_workflow_file"
  const WORKFLOW_NAME := "WorkflowName"

  /** d.get(key, {}) for a dictionary of dictionaries. */
  function TableOf(d: Data, key: string): seq<Entry> {
    if key in d && d[key].Table? then d[key].entries else []
  }

  function Servers(d: Data): seq<Entry> { TableOf(d, COMPUTE_SERVERS) }

  function Stores(d: Data): seq<Entry> { TableOf(d, DATA_STORES) }

  function ActionsOf(d: Data): seq<Action> {
    if ACTION_LIST in d && d[ACTION_LIST].ActionTable? then d[ACTION_LIST].actions else []
  }

  function Containers(d: Data): map<string, string> {
    if ACTION_CONTAINERS in d && d[ACTION_CONTAINERS].StrMap? then d[ACTION_CONTAINERS].m else map[]
  }

  /** workflow_data.get('WorkflowName', 'default'). */
  function WorkflowName(d: Data): string {
    if WORKFLOW_NAME in d && d[WORKFLOW_NAME].Str? then d[WORKFLOW_NAME].s else "default"
  }

  /** config.get(key, default) on a string field. */
  function Get(f: Fields, key: string, default: string): string {
    if key in f then f[key] else default
  }

  /** os.getenv(name, default). */
  function EnvOr(env: Env, name: string, default: string): string {
    if name in env then env[name] else default
  }

  /** Python truthiness of os.getenv(name): set and non-empty. */
  predicate EnvSet(env: Env, name: string) {
    name in env && env[name] != ""
  }

  /** dict[name] on a dictionary of dictionaries (JSON keys are unique, the first match is the one). */
  function Lookup(entries: seq<Entry>, name: string): (r: Option<Entry>)
    ensures r.Some? ==> r.value in entries && r.value.name == name
    ensures r.None? ==> forall i :: 0 <= i < |entries| ==> entries[i].name != name
  {
    if entries == [] then None
    else if entries[0].name == name then Some(entries[0])
    else Lookup(entries[1..], name)
  }
}
