/**
 * The AWS Lambda part of deploy_to_aws in register_workflow.py: memory and
 * runtime resolution, clamping to Lambda's limits, the two bounded status
 * polls, and the update-or-create decision for one function.
 */
module LambdaDeploy {
  import opened Basics
  import opened WorkflowModel
  import opened Deployment

  const DEFAULT_MEMORY_MB := 1024
  const DEFAULT_TIMEOUT_S := 900
  const MIN_MEMORY_MB := 128
  const MAX_MEMORY_MB := 10240
  const MIN_TIMEOUT_S := 1
  const MAX_TIMEOUT_S := 900
  /** The shorter timeout create_function is called with. */
  const INITIAL_TIMEOUT_CAP_S := 300
  /** Status queries allowed before a wait times out (5 s apart). */
  const MAX_ATTEMPTS := 60

  /** The action's value, else the server's, else the default (`is None` tests, so 0 counts as set). */
  function Resolve(fromAction: Option<int>, fromServer: Option<int>, default: int): (r: int)
    ensures fromAction.Some? ==> r == fromAction.value
    ensures fromAction.None? && fromServer.Some? ==> r == fromServer.value
    ensures fromAction.None? && fromServer.None? ==> r == default
  {
    match fromAction
    case Some(v) => v
    case None => if fromServer.Some? then fromServer.value else default
  }

  /** MaxMemory and MaxRuntime before clamping. */
  function Requested(a: Action, server: Entry): Settings {
    Settings(Resolve(a.maxMemory, server.maxMemory, DEFAULT_MEMORY_MB),
             Resolve(a.maxRuntime, server.maxRuntime, DEFAULT_TIMEOUT_S))
  }

  /** Memory forced into [128, 10240]; a value already inside is kept. */
  function ClampMemory(m: int): (r: int)
    ensures MIN_MEMORY_MB <= r <= MAX_MEMORY_MB
    ensures MIN_MEMORY_MB <= m <= MAX_MEMORY_MB ==> r == m
    ensures m < MIN_MEMORY_MB ==> r == MIN_MEMORY_MB
    ensures m > MAX_MEMORY_MB ==> r == MAX_MEMORY_MB
  {
    if m < MIN_MEMORY_MB then MIN_MEMORY_MB else if m > MAX_MEMORY_MB then MAX_MEMORY_MB else m
  }

  /** Timeout forced into [1, 900]; a value already inside is kept. */
  function ClampTimeout(t: int): (r: int)
    ensures MIN_TIMEOUT_S <= r <= MAX_TIMEOUT_S
    ensures MIN_TIMEOUT_S <= t <= MAX_TIMEOUT_S ==> r == t
    ensures t < MIN_TIMEOUT_S ==> r == MIN_TIMEOUT_S
    ensures t > MAX_TIMEOUT_S ==> r == MAX_TIMEOUT_S
  {
    if t < MIN_TIMEOUT_S then MIN_TIMEOUT_S else if t > MAX_TIMEOUT_S then MAX_TIMEOUT_S else t
  }

  function Clamped(s: Settings): Settings {
    Settings(ClampMemory(s.memory), ClampTimeout(s.timeout))
  }

  predicate InRange(s: Settings) {
    MIN_MEMORY_MB <= s.memory <= MAX_MEMORY_MB && MIN_TIMEOUT_S <= s.timeout <= MAX_TIMEOUT_S
  }

  /**
   * The clamping statements: each value is reassigned to the nearest bound
   * when it lies outside Lambda's limits, and a warning is printed for it.
   */
  method Clamp(requested: Settings) returns (s: Settings, memoryWarning: bool, timeoutWarning: bool)
    ensures InRange(s)
    ensures memoryWarning <==> !(MIN_MEMORY_MB <= requested.memory <= MAX_MEMORY_MB)
    ensures timeoutWarning <==> !(MIN_TIMEOUT_S <= requested.timeout <= MAX_TIMEOUT_S)
    ensures !memoryWarning ==> s.memory == requested.memory
    ensures !timeoutWarning ==> s.timeout == requested.timeout
    ensures s == Clamped(requested)
  {
    var memory, timeout := requested.memory, requested.timeout;
    memoryWarning, timeoutWarning := false, false;
    if memory < MIN_MEMORY_MB {
      memory, memoryWarning := MIN_MEMORY_MB, true;
    } else if memory > MAX_MEMORY_MB {
      memory, memoryWarning := MAX_MEMORY_MB, true;
    }
    if timeout < MIN_TIMEOUT_S {
      timeout, timeoutWarning := MIN_TIMEOUT_S, true;
    } else if timeout > MAX_TIMEOUT_S {
      timeout, timeoutWarning := MAX_TIMEOUT_S, true;
    }
    s := Settings(memory, timeout);
  }

  /** The values create_function is first called with: min(300, timeout) and max(128, memory). */
  function Initial(s: Settings): (r: Settings)
    ensures r.memory >= MIN_MEMORY_MB && r.memory >= s.memory
    ensures r.memory == MIN_MEMORY_MB || r.memory == s.memory
    ensures r.timeout <= INITIAL_TIMEOUT_CAP_S && r.timeout <= s.timeout
    ensures r.timeout == INITIAL_TIMEOUT_CAP_S || r.timeout == s.timeout
  {
    Settings(if MIN_MEMORY_MB < s.memory then s.memory else MIN_MEMORY_MB,
             if s.timeout < INITIAL_TIMEOUT_CAP_S then s.timeout else INITIAL_TIMEOUT_CAP_S)
  }

  /**
   * On clamped settings the initial create keeps the memory (the max with
   * 128 changes nothing), and its timeout lies in [1, 300], is no longer than
   * the final one, and equals it when the final one is at most 300.
   */
  lemma InitialCreateSettings(s: Settings)
    requires InRange(s)
    ensures Initial(s).memory == s.memory
    ensures MIN_TIMEOUT_S <= Initial(s).timeout <= INITIAL_TIMEOUT_CAP_S
    ensures Initial(s).timeout <= s.timeout
    ensures s.timeout <= INITIAL_TIMEOUT_CAP_S <==> Initial(s).timeout == s.timeout
  {
  }

  // ---------------------------------------------------------------------------
  // Waiting for the function to settle.

  /** One get_function answer during a wait, or the exception it raised. */
  datatype Reply = Status(state: string, lastUpdateStatus: string) | QueryError

  /** The success test: State is Active (and, on the update path, LastUpdateStatus is Successful). */
  predicate Ready(r: Reply, checkUpdate: bool) {
    r.Status? && r.state == "Active" && (!checkUpdate || r.lastUpdateStatus == "Successful")
  }

  /** The failure test: State is Failed (or, on the update path, LastUpdateStatus is Failed). */
  predicate Broken(r: Reply, checkUpdate: bool) {
    r.Status? && !Ready(r, checkUpdate) && (r.state == "Failed" || (checkUpdate && r.lastUpdateStatus == "Failed"))
  }

  /** A reply that neither ends the wait nor fails it; query exceptions are among them. */
  predicate Pending(r: Reply, checkUpdate: bool) {
    !Ready(r, checkUpdate) && !Broken(r, checkUpdate)
  }

  datatype WaitResult = Settled(queries: nat) | FailedState(queries: nat) | TimedOut

  /** The wait from query number `attempt` on, given the replies the platform would give. */
  function Wait(replies: nat -> Reply, checkUpdate: bool, attempt: nat): WaitResult
    decreases MAX_ATTEMPTS - attempt
  {
    if attempt >= MAX_ATTEMPTS then TimedOut
    else if Ready(replies(attempt), checkUpdate) then Settled(attempt + 1)
    else if Broken(replies(attempt), checkUpdate) then FailedState(attempt + 1)
    else Wait(replies, checkUpdate, attempt + 1)
  }

  /**
   * The polling loop (checkUpdate on the update path, not on the create path).
   * It settles after query k exactly when reply k-1 is ready and all before
   * it were pending; it fails as soon as a reply reads Failed; after 60
   * pending replies it times out, and it never makes more than 60 queries.
   */
  method AwaitSettled(replies: nat -> Reply, checkUpdate: bool) returns (r: WaitResult)
    ensures r == Wait(replies, checkUpdate, 0)
    ensures r.Settled? ==> 1 <= r.queries <= MAX_ATTEMPTS && Ready(replies(r.queries - 1), checkUpdate)
    ensures r.FailedState? ==> 1 <= r.queries <= MAX_ATTEMPTS && Broken(replies(r.queries - 1), checkUpdate)
    ensures !r.TimedOut? ==> forall j :: 0 <= j < r.queries - 1 ==> Pending(replies(j), checkUpdate)
    ensures r.TimedOut? <==> forall j :: 0 <= j < MAX_ATTEMPTS ==> Pending(replies(j), checkUpdate)
  {
    var attempt := 0;
    while attempt < MAX_ATTEMPTS
      invariant 0 <= attempt <= MAX_ATTEMPTS
      invariant forall j :: 0 <= j < attempt ==> Pending(replies(j), checkUpdate)
      invariant Wait(replies, checkUpdate, 0) == Wait(replies, checkUpdate, attempt)
    {
      var reply := replies(attempt);
      if Ready(reply, checkUpdate) {
        return Settled(attempt + 1);
      } else if Broken(reply, checkUpdate) {
        return FailedState(attempt + 1);
      }
      attempt := attempt + 1;
    }
    return TimedOut;
  }

  /** A status sequence that never reports Active yields a time-out after exactly 60 queries. */
  lemma {:induction false} NeverActiveTimesOut(replies: nat -> Reply, checkUpdate: bool, attempt: nat)
    requires forall j :: attempt <= j < MAX_ATTEMPTS ==> replies(j).Status? && replies(j).state != "Active" && replies(j).state != "Failed"
    requires !checkUpdate || forall j :: attempt <= j < MAX_ATTEMPTS ==> replies(j).lastUpdateStatus != "Failed"
    ensures Wait(replies, checkUpdate, attempt) == TimedOut
    decreases MAX_ATTEMPTS - attempt
  {
    if attempt < MAX_ATTEMPTS {
      NeverActiveTimesOut(replies, checkUpdate, attempt + 1);
    }
  }

  // ---------------------------------------------------------------------------
  // One Lambda function.

  /** What the Lambda service answers while one function is deployed. */
  datatype LambdaLive = LambdaLive(
    probe: Call,               // get_function before deciding
    updateCode: Call,          // update_function_code
    updateWait: nat -> Reply,  // get_function while the code update settles
    updateConfig: Settings -> Call,  // update_function_configuration after the update, with these settings
    create: Settings -> bool,        // create_function with these settings
    createWait: nat -> Reply,        // get_function while the new function becomes active
    createConfig: Settings -> bool)  // update_function_configuration after creation, with these settings

  /**
   * The ResourceNotFoundException branch: create with the initial settings,
   * wait for State Active, then configure with the final settings.
   */
  function CreatePath(name: string, s: Settings, live: LambdaLive): Step {
    if !live.create(Initial(s)) then Failed(name, CallFailed(name))
    else match Wait(live.createWait, false, 0)
      case Settled(_) => if live.createConfig(s) then Done(name, Created, Some(s)) else Failed(name, CallFailed(name))
      case FailedState(_) => Failed(name, StateFailed(name))
      case TimedOut => Failed(name, WaitTimedOut(name))
  }

  /**
   * Deploying one Lambda function with the clamped settings s. A not-found
   * error from any call inside the update branch (the probe, the code update
   * or the configuration update) falls through to the create branch, because
   * they share one try block.
   */
  function LambdaStep(name: string, s: Settings, live: LambdaLive): Step {
    match live.probe
    case Raised => Failed(name, ProbeFailed(name))
    case Missing => CreatePath(name, s, live)
    case Succeeded =>
      match live.updateCode
      case Raised => Failed(name, CallFailed(name))
      case Missing => CreatePath(name, s, live)
      case Succeeded =>
        match Wait(live.updateWait, true, 0)
        case FailedState(_) => Failed(name, StateFailed(name))
        case TimedOut => Failed(name, WaitTimedOut(name))
        case Settled(_) =>
          match live.updateConfig(s)
          case Succeeded => Done(name, Updated, Some(s))
          case Missing => CreatePath(name, s, live)
          case Raised => Failed(name, CallFailed(name))
  }

  /**
   * The create-or-update branch: a function the probe does not find is only
   * ever created, never updated; a found function whose update calls all
   * succeed and whose code update settles is updated, never recreated; a
   * created function was created with Initial(s) and then configured with
   * s, and an updated one configured with s; and a deployed function always
   * carries the settings it was given.
   */
  lemma LambdaBranch(name: string, s: Settings, live: LambdaLive)
    ensures live.probe == Missing ==> LambdaStep(name, s, live).Failed? || LambdaStep(name, s, live).kind == Created
    ensures (live.probe == Succeeded && live.updateCode == Succeeded && live.updateConfig(s) == Succeeded
             && Wait(live.updateWait, true, 0).Settled?) ==> LambdaStep(name, s, live) == Done(name, Updated, Some(s))
    ensures LambdaStep(name, s, live).Done? ==> LambdaStep(name, s, live).config == Some(s) && LambdaStep(name, s, live).unit == name
    ensures LambdaStep(name, s, live).Done? && LambdaStep(name, s, live).kind == Created ==>
      live.create(Initial(s)) && Wait(live.createWait, false, 0).Settled? && live.createConfig(s)
    ensures LambdaStep(name, s, live).Done? && LambdaStep(name, s, live).kind == Updated ==>
      live.updateCode == Succeeded && Wait(live.updateWait, true, 0).Settled? && live.updateConfig(s) == Succeeded
    ensures live.probe == Missing && !live.create(Initial(s)) ==> LambdaStep(name, s, live) == Failed(name, CallFailed(name))
    ensures live.probe == Raised ==> LambdaStep(name, s, live) == Failed(name, ProbeFailed(name))
  {
  }
}
