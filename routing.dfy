/**
 * Platform routing in register_workflow.py: FaaSType strings are lower-cased
 * and matched against four disjoint alias sets, both when main dispatches a
 * platform routine and when each deploy_to_* routine picks its actions.
 */
module Routing {
  import opened Basics
  import opened Text
  import opened WorkflowModel

  datatype Platform = Lambda | GitHubActions | OpenWhisk | CloudFunctions

  /** The lower-cased FaaSType spellings each platform routine accepts. */
  function Aliases(p: Platform): set<string> {
    match p
    case Lambda => {"lambda", "aws_lambda", "aws"}
    case GitHubActions => {"githubactions", "github_actions", "github"}
    case OpenWhisk => {"openwhisk", "open_whisk", "ow"}
    case CloudFunctions => {"cloudfunctions", "cloud_functions", "gcp", "gcf", "googlecloud"}
  }

  /** The if/elif chain of main: which routine a lower-cased FaaSType dispatches, if any. */
  function Route(t: string): (r: Option<Platform>)
    ensures forall p :: r == Some(p) <==> t in Aliases(p)
  {
    if t in Aliases(Lambda) then Some(Lambda)
    else if t in Aliases(GitHubActions) then Some(GitHubActions)
    else if t in Aliases(OpenWhisk) then Some(OpenWhisk)
    else if t in Aliases(CloudFunctions) then Some(CloudFunctions)
    else None
  }

  /** The set main builds: the lower-cased FaaSType of every server that has one. */
  function FaaSTypes(servers: seq<Entry>): set<string> {
    set i | 0 <= i < |servers| && "FaaSType" in servers[i].fields :: Lower(servers[i].fields["FaaSType"])
  }

  /** The loop at the start of main that collects FaaSTypes into a set. */
  method CollectFaaSTypes(servers: seq<Entry>) returns (types: set<string>)
    ensures types == FaaSTypes(servers)
    ensures forall t :: t in types <==>
      exists i :: 0 <= i < |servers| && "FaaSType" in servers[i].fields && Lower(servers[i].fields["FaaSType"]) == t
  {
    types := {};
    var i := 0;
    while i < |servers|
      invariant 0 <= i <= |servers|
      invariant types == FaaSTypes(servers[..i])
    {
      if "FaaSType" in servers[i].fields {
        types := types + {Lower(servers[i].fields["FaaSType"])};
      }
      assert servers[..i + 1][..i] == servers[..i];
      i := i + 1;
    }
    assert servers[..i] == servers;
  }

  /** workflow_data['ComputeServers'][server]['FaaSType'], with the KeyErrors it can raise. */
  function ServerType(servers: seq<Entry>, server: string): Result<string, Fault> {
    match Lookup(servers, server)
    case None => Err(UnknownServer(server))
    case Some(e) => if "FaaSType" in e.fields then Ok(e.fields["FaaSType"]) else Err(MissingFaaSType(server))
  }

  /** The action routes to platform p. */
  predicate RoutesTo(servers: seq<Entry>, a: Action, p: Platform) {
    var t := ServerType(servers, a.faasServer);
    t.Ok? && Lower(t.value) in Aliases(p)
  }

  /**
   * What the filter loop of a deploy_to_* routine yields: the actions of p in
   * ActionList order, or the KeyError of the first action whose server or
   * FaaSType is missing (it is raised whatever platform that action is on).
   */
  function Selected(actions: seq<Action>, servers: seq<Entry>, p: Platform): (r: Result<seq<Action>, Fault>)
    ensures r.Err? ==> r.error.UnknownServer? || r.error.MissingFaaSType?
    decreases |actions|
  {
    if actions == [] then Ok([])
    else
      var last := actions[|actions| - 1];
      match Selected(actions[..|actions| - 1], servers, p)
      case Err(e) => Err(e)
      case Ok(prev) =>
        match ServerType(servers, last.faasServer)
        case Err(e) => Err(e)
        case Ok(t) => Ok(if Lower(t) in Aliases(p) then prev + [last] else prev)
  }

  /** The filter loop itself (`platform_actions[action_name] = action_data`). */
  method FilterActions(actions: seq<Action>, servers: seq<Entry>, p: Platform) returns (r: Result<seq<Action>, Fault>)
    ensures r == Selected(actions, servers, p)
  {
    var chosen: seq<Action> := [];
    var i := 0;
    while i < |actions|
      invariant 0 <= i <= |actions|
      invariant Selected(actions[..i], servers, p) == Ok(chosen)
    {
      assert actions[..i + 1][..i] == actions[..i];
      var a := actions[i];
      var lookup := Lookup(servers, a.faasServer);
      if lookup.None? {
        SelectedKeepsFirstError(actions, servers, p, i + 1);
        return Err(UnknownServer(a.faasServer));
      }
      if "FaaSType" !in lookup.value.fields {
        SelectedKeepsFirstError(actions, servers, p, i + 1);
        return Err(MissingFaaSType(a.faasServer));
      }
      if Lower(lookup.value.fields["FaaSType"]) in Aliases(p) {
        chosen := chosen + [a];
      }
      i := i + 1;
    }
    assert actions[..i] == actions;
    return Ok(chosen);
  }

  /** Once a prefix of ActionList raises, the whole filter raises the same error. */
  lemma {:induction false} SelectedKeepsFirstError(actions: seq<Action>, servers: seq<Entry>, p: Platform, k: nat)
    requires k <= |actions|
    requires Selected(actions[..k], servers, p).Err?
    ensures Selected(actions, servers, p) == Selected(actions[..k], servers, p)
    decreases |actions| - k
  {
    if k < |actions| {
      assert actions[..k + 1][..k] == actions[..k];
      SelectedKeepsFirstError(actions, servers, p, k + 1);
    } else {
      assert actions[..k] == actions;
    }
  }

  /** The filter succeeds exactly when every action's server and FaaSType resolve. */
  lemma {:induction false} SelectedOkIff(actions: seq<Action>, servers: seq<Entry>, p: Platform)
    ensures Selected(actions, servers, p).Ok? <==>
      forall i :: 0 <= i < |actions| ==> ServerType(servers, actions[i].faasServer).Ok?
  {
    if actions != [] {
      var init := actions[..|actions| - 1];
      SelectedOkIff(init, servers, p);
      assert forall i :: 0 <= i < |init| ==> init[i] == actions[i];
    }
  }

  /** A successful filter keeps exactly the actions whose server routes to p. */
  lemma {:induction false} SelectedMembers(actions: seq<Action>, servers: seq<Entry>, p: Platform)
    requires Selected(actions, servers, p).Ok?
    ensures forall a :: a in Selected(actions, servers, p).value <==> a in actions && RoutesTo(servers, a, p)
  {
    if actions != [] {
      var init := actions[..|actions| - 1];
      SelectedMembers(init, servers, p);
      assert actions == init + [actions[|actions| - 1]];
    }
  }

  /** No action is deployed by two platform routines. */
  lemma SelectionsDisjoint(actions: seq<Action>, servers: seq<Entry>, p: Platform, q: Platform)
    requires p != q
    requires Selected(actions, servers, p).Ok? && Selected(actions, servers, q).Ok?
    ensures forall a :: a in Selected(actions, servers, p).value ==> a !in Selected(actions, servers, q).value
  {
    SelectedMembers(actions, servers, p);
    SelectedMembers(actions, servers, q);
    forall a | a in Selected(actions, servers, p).value
      ensures a !in Selected(actions, servers, q).value
    {
      var t := Lower(ServerType(servers, a.faasServer).value);
      assert Route(t) == Some(p);
    }
  }
}
