/**
 * The credential checks the deploy_to_* routines of register_workflow.py
 * make before touching a platform: get_aws_credentials,
 * get_openwhisk_credentials and get_gcp_credentials_from_workflow.
 */
module Gates {
  import opened Basics
  import opened Text
  import opened WorkflowModel
  import opened Routing
  import opened SecretPayload

  // ---------------------------------------------------------------------------
  // AWS.

  /** get_aws_credentials: None when all three variables are set and non-empty, else the first one missing. */
  function AwsGate(env: Env): (r: Option<Fault>)
    ensures r.None? <==> EnvSet(env, "AWS_ACCESSKEY") && EnvSet(env, "AWS_SECRETKEY") && EnvSet(env, "AWS_ARN")
    ensures r.Some? ==> r.value.MissingEnv? && !EnvSet(env, r.value.variable)
  {
    if !EnvSet(env, "AWS_ACCESSKEY") then Some(MissingEnv("AWS_ACCESSKEY"))
    else if !EnvSet(env, "AWS_SECRETKEY") then Some(MissingEnv("AWS_SECRETKEY"))
    else if !EnvSet(env, "AWS_ARN") then Some(MissingEnv("AWS_ARN"))
    else None
  }

  // ---------------------------------------------------------------------------
  // OpenWhisk.

  datatype OwConfig = OwConfig(apiHost: string, namespace: string, ssl: bool)

  /** The three settings read from the chosen server; a missing one raises KeyError. */
  function OwConfigOf(e: Entry): (r: Result<OwConfig, Fault>)
    ensures r.Err? ==> r.error.MissingField? && r.error.server == e.name
    ensures r.Ok? <==> "Endpoint" in e.fields && "Namespace" in e.fields && "SSL" in e.fields
    ensures r.Ok? ==> r.value.apiHost == e.fields["Endpoint"] && r.value.namespace == e.fields["Namespace"]
    ensures r.Ok? ==> r.value.ssl == (Lower(e.fields["SSL"]) == "true")
  {
    if "Endpoint" !in e.fields then Err(MissingField(e.name, "Endpoint"))
    else if "Namespace" !in e.fields then Err(MissingField(e.name, "Namespace"))
    else if "SSL" !in e.fields then Err(MissingField(e.name, "SSL"))
    else Ok(OwConfig(e.fields["Endpoint"], e.fields["Namespace"], Lower(e.fields["SSL"]) == "true"))
  }

  /**
   * get_openwhisk_credentials as written: the first server whose lower-cased
   * FaaSType is exactly "openwhisk" (a server without FaaSType met earlier
   * raises KeyError).
   */
  function OwServerAsWritten(servers: seq<Entry>): Result<OwConfig, Fault> {
    if servers == [] then Err(NoPlatformServer)
    else if "FaaSType" !in servers[0].fields then Err(MissingFaaSType(servers[0].name))
    else if Lower(servers[0].fields["FaaSType"]) == "openwhisk" then OwConfigOf(servers[0])
    else OwServerAsWritten(servers[1..])
  }

  /**
   * A server whose type is an OpenWhisk alias other than "openwhisk" (such as
   * "ow") has its actions routed to OpenWhisk, yet the lookup as written finds
   * no OpenWhisk server.
   */
  lemma OwAliasRejected(e: Entry, a: Action)
    requires "FaaSType" in e.fields && Lower(e.fields["FaaSType"]) in Aliases(OpenWhisk) - {"openwhisk"}
    requires a.faasServer == e.name
    ensures Selected([a], [e], OpenWhisk) == Ok([a])
    ensures OwServerAsWritten([e]) == Err(NoPlatformServer)
  {
    assert [a][..0] == [] && [] + [a] == [a];
    assert Lookup([e], a.faasServer) == Some(e);
    assert ServerType([e], a.faasServer) == Ok(e.fields["FaaSType"]);
    assert [e][1..] == [];
  }

  /** get_openwhisk_credentials accepting every OpenWhisk alias, as the filter and the dispatcher do. */
  function OwServer(servers: seq<Entry>): Result<OwConfig, Fault> {
    if servers == [] then Err(NoPlatformServer)
    else if "FaaSType" !in servers[0].fields then Err(MissingFaaSType(servers[0].name))
    else if Lower(servers[0].fields["FaaSType"]) in Aliases(OpenWhisk) then OwConfigOf(servers[0])
    else OwServer(servers[1..])
  }

  /**
   * Whenever an action is routed to OpenWhisk, the lookup does not report
   * that there is no OpenWhisk server.
   */
  lemma {:induction false} OwServerFound(servers: seq<Entry>, a: Action)
    requires RoutesTo(servers, a, OpenWhisk)
    ensures OwServer(servers) != Err(NoPlatformServer)
    decreases |servers|
  {
    if servers != [] && "FaaSType" in servers[0].fields && Lower(servers[0].fields["FaaSType"]) !in Aliases(OpenWhisk) {
      assert servers[0].name != a.faasServer;
      OwServerFound(servers[1..], a);
    }
  }

  // ---------------------------------------------------------------------------
  // Cloud Functions.

  /** The project and, when one is configured, the service account key the client authenticates with. */
  datatype GcpAuth = GcpAuth(project: string, key: Option<string>)

  predicate IsGcpServer(e: Entry) {
    Lower(Get(e.fields, "FaaSType", "")) in Aliases(CloudFunctions)
  }

  /** The first server of a Cloud Functions type: the loop's `break`. */
  function GcpServer(servers: seq<Entry>): (r: Option<Entry>)
    ensures r.Some? ==> IsGcpServer(r.value)
    ensures r.Some? ==> exists i :: 0 <= i < |servers| && servers[i] == r.value && forall j :: 0 <= j < i ==> !IsGcpServer(servers[j])
    ensures r.None? ==> forall i :: 0 <= i < |servers| ==> !IsGcpServer(servers[i])
  {
    if servers == [] then None
    else if IsGcpServer(servers[0]) then Some(servers[0])
    else GcpServer(servers[1..])
  }

  /** The project id that goes into the payload is the Namespace of the server the check uses. */
  lemma {:induction false} GcpProjectIdOfServer(servers: seq<Entry>)
    ensures GcpProjectId(servers) == (if GcpServer(servers).Some? then Get(GcpServer(servers).value.fields, "Namespace", "") else "")
    decreases |servers|
  {
    if servers != [] && !IsGcpServer(servers[0]) {
      GcpProjectIdOfServer(servers[1..]);
    }
  }

  /** The key as written: only the literal "GCP_SECRET_KEY" is read from GCP_SECRETKEY; an empty key means default credentials. */
  function GcpKeyAsWritten(e: Entry, env: Env): Option<string> {
    var secret := Get(e.fields, "SecretKey", "");
    var key := if secret == "GCP_SECRET_KEY" then EnvOr(env, "GCP_SECRETKEY", "") else secret;
    if key == "" then None else Some(key)
  }

  /**
   * The key as written depends on whether create_secret_payload has already
   * rewritten the server in place: a "<server>_SECRET_KEY" placeholder (for a
   * server not named "GCP") is used literally as the key before, and the real
   * key after.
   */
  lemma GcpKeyDependsOnOrder(e: Entry, env: Env, c: Credentials)
    requires Get(e.fields, "FaaSType", "") in {"CloudFunctions", "GoogleCloud"}
    requires NamedKeyPlaceholder(e)
    requires c.gcpServiceAccountKey == EnvOr(env, "GCP_SECRETKEY", "") != ""
    ensures GcpKeyAsWritten(e, env) == Some(e.name + "_SECRET_KEY")
    ensures GcpKeyAsWritten(SubstituteServer(e, c), env) == Some(c.gcpServiceAccountKey)
  {
    SubstituteServerBySlot(e, c);
    var k := e.name + "_SECRET_KEY";
    assert k[..|e.name|] == e.name;
    assert "GCP_SECRET_KEY"[..3] == "GCP";
  }

  /** A SecretKey of the per-server form "<server>_SECRET_KEY" that is not also the literal "GCP_SECRET_KEY". */
  predicate NamedKeyPlaceholder(e: Entry) {
    Get(e.fields, "SecretKey", "") == e.name + "_SECRET_KEY" && e.name != "GCP"
  }

  /** The key accepting the same placeholders create_secret_payload substitutes. */
  function GcpKey(e: Entry, env: Env): Option<string> {
    var secret := Get(e.fields, "SecretKey", "");
    var key := if secret in {e.name + "_SECRET_KEY", "GCP_SECRET_KEY"} then EnvOr(env, "GCP_SECRETKEY", "") else secret;
    if key == "" then None else Some(key)
  }

  /**
   * get_gcp_credentials_from_workflow: the first Cloud Functions server needs
   * a Namespace and a SecretKey; the key is resolved as written.
   */
  function GcpGate(servers: seq<Entry>, env: Env): (r: Result<GcpAuth, Fault>)
    ensures r.Ok? <==> GcpServer(servers).Some? && Get(GcpServer(servers).value.fields, "Namespace", "") != ""
                       && Get(GcpServer(servers).value.fields, "SecretKey", "") != ""
    ensures r.Ok? ==> r.value.project == Get(GcpServer(servers).value.fields, "Namespace", "")
                      && r.value.key == GcpKeyAsWritten(GcpServer(servers).value, env)
    ensures r.Err? ==> r.error == NoPlatformServer || r.error.MissingField?
  {
    match GcpServer(servers)
    case None => Err(NoPlatformServer)
    case Some(e) =>
      var project := Get(e.fields, "Namespace", "");
      if project == "" then Err(MissingField(e.name, "Namespace"))
      else if Get(e.fields, "SecretKey", "") == "" then Err(MissingField(e.name, "SecretKey"))
      else Ok(GcpAuth(project, GcpKeyAsWritten(e, env)))
  }

  // ---------------------------------------------------------------------------
  // The checks read the same values before and after create_secret_payload
  // has rewritten the shared ComputeServers.

  lemma {:induction false} LookupSubstituted(es: seq<Entry>, c: Credentials, name: string)
    ensures Lookup(SubstituteServers(es, c), name) ==
      (if Lookup(es, name).Some? then Some(SubstituteServer(Lookup(es, name).value, c)) else None)
    decreases |es|
  {
    if es != [] {
      assert SubstituteServers(es, c)[1..] == SubstituteServers(es[1..], c);
      SubstituteKeepsType(es[0], c);
      LookupSubstituted(es[1..], c, name);
    }
  }

  /** The routing of every action is the same on the rewritten servers. */
  lemma {:induction false} SelectedSubstituted(actions: seq<Action>, es: seq<Entry>, c: Credentials, p: Platform)
    ensures Selected(actions, SubstituteServers(es, c), p) == Selected(actions, es, p)
    decreases |actions|
  {
    if actions != [] {
      SelectedSubstituted(actions[..|actions| - 1], es, c, p);
      var name := actions[|actions| - 1].faasServer;
      LookupSubstituted(es, c, name);
      if Lookup(es, name).Some? {
        SubstituteKeepsType(Lookup(es, name).value, c);
      }
    }
  }

  /** Fields other than the credential slots of the server's exact FaaSType are never rewritten. */
  lemma SubstituteKeepsField(e: Entry, c: Credentials, field: string)
    requires ServerSlot(e.name, Get(e.fields, "FaaSType", ""), field, c).None?
    ensures Get(SubstituteServer(e, c).fields, field, "") == Get(e.fields, field, "")
    ensures (field in SubstituteServer(e, c).fields) == (field in e.fields)
  {
    SubstituteServerBySlot(e, c);
  }

  /** Rewriting an OpenWhisk server changes none of the three settings the lookup reads. */
  lemma OwConfigSubstituted(e: Entry, c: Credentials)
    requires "FaaSType" in e.fields && Lower(e.fields["FaaSType"]) in Aliases(OpenWhisk)
    ensures OwConfigOf(SubstituteServer(e, c)) == OwConfigOf(e)
  {
    var t := e.fields["FaaSType"];
    assert t !in {"CloudFunctions", "GoogleCloud"} by {
      assert Lower("CloudFunctions") == "cloudfunctions";
      assert Lower("GoogleCloud") == "googlecloud";
    }
    SubstituteKeepsField(e, c, "Endpoint");
    SubstituteKeepsField(e, c, "Namespace");
    SubstituteKeepsField(e, c, "SSL");
  }

  lemma {:induction false} OwServerSubstituted(es: seq<Entry>, c: Credentials)
    ensures OwServer(SubstituteServers(es, c)) == OwServer(es)
    decreases |es|
  {
    if es != [] {
      var e := es[0];
      assert SubstituteServers(es, c)[1..] == SubstituteServers(es[1..], c);
      SubstituteKeepsType(e, c);
      if "FaaSType" in e.fields && Lower(e.fields["FaaSType"]) in Aliases(OpenWhisk) {
        OwConfigSubstituted(e, c);
      } else {
        OwServerSubstituted(es[1..], c);
      }
    }
  }

  lemma {:induction false} OwServerAsWrittenSubstituted(es: seq<Entry>, c: Credentials)
    ensures OwServerAsWritten(SubstituteServers(es, c)) == OwServerAsWritten(es)
    decreases |es|
  {
    if es != [] {
      var e := es[0];
      assert SubstituteServers(es, c)[1..] == SubstituteServers(es[1..], c);
      SubstituteKeepsType(e, c);
      if "FaaSType" in e.fields && Lower(e.fields["FaaSType"]) == "openwhisk" {
        OwConfigSubstituted(e, c);
      } else {
        OwServerAsWrittenSubstituted(es[1..], c);
      }
    }
  }

  lemma {:induction false} GcpServerSubstituted(es: seq<Entry>, c: Credentials)
    ensures GcpServer(SubstituteServers(es, c)) ==
      (if GcpServer(es).Some? then Some(SubstituteServer(GcpServer(es).value, c)) else None)
    decreases |es|
  {
    if es != [] {
      assert SubstituteServers(es, c)[1..] == SubstituteServers(es[1..], c);
      SubstituteKeepsType(es[0], c);
      GcpServerSubstituted(es[1..], c);
    }
  }

  /**
   * Rewriting the Cloud Functions server the check uses changes none of what
   * the check reads, provided the credentials come from the same environment
   * and the project id from that server.
   */
  lemma GcpEntrySubstituted(e: Entry, c: Credentials, env: Env)
    requires IsGcpServer(e)
    requires c.gcpProjectId == Get(e.fields, "Namespace", "")
    requires c.gcpServiceAccountKey == EnvOr(env, "GCP_SECRETKEY", "")
    ensures Get(SubstituteServer(e, c).fields, "Namespace", "") == Get(e.fields, "Namespace", "")
    ensures (Get(SubstituteServer(e, c).fields, "SecretKey", "") == "") == (Get(e.fields, "SecretKey", "") == "")
    ensures GcpKey(SubstituteServer(e, c), env) == GcpKey(e, env)
    ensures !NamedKeyPlaceholder(e) ==> GcpKeyAsWritten(SubstituteServer(e, c), env) == GcpKeyAsWritten(e, env)
  {
    GcpSlotsSubstituted(e, c);
  }

  /** The two settings of a Cloud Functions server the payload may rewrite. */
  lemma GcpSlotsSubstituted(e: Entry, c: Credentials)
    requires IsGcpServer(e)
    requires c.gcpProjectId == Get(e.fields, "Namespace", "")
    ensures SubstituteServer(e, c).name == e.name
    ensures Get(SubstituteServer(e, c).fields, "Namespace", "") == Get(e.fields, "Namespace", "")
    ensures var secret, secret1 := Get(e.fields, "SecretKey", ""), Get(SubstituteServer(e, c).fields, "SecretKey", "");
      secret1 == secret || (secret in {e.name + "_SECRET_KEY", "GCP_SECRET_KEY"} && secret1 == c.gcpServiceAccountKey != "")
  {
    SubstituteServerBySlot(e, c);
    assert Get(e.fields, "FaaSType", "") != "Lambda" by {
      assert Lower("Lambda") == "lambda";
    }
  }

  /**
   * Whether or not the payload has been built before it, the Cloud Functions
   * check passes or fails alike and yields the same project; the corrected
   * key is the same too, and so is the key as written unless the server
   * uses its own "<server>_SECRET_KEY" placeholder.
   */
  lemma GcpGateSubstituted(env: Env, d: Data)
    requires CredentialsFrom(env, d).Ok?
    ensures var g, g1 := GcpGate(Servers(d), env), GcpGate(SubstituteServers(Servers(d), CredentialsFrom(env, d).value), env);
      g1.Ok? == g.Ok? && (g.Ok? ==> g1.value.project == g.value.project) && (g.Err? ==> g1 == g)
    ensures var e, e1 := GcpServer(Servers(d)), GcpServer(SubstituteServers(Servers(d), CredentialsFrom(env, d).value));
      e.Some? ==> e1.Some? && GcpKey(e1.value, env) == GcpKey(e.value, env)
    ensures GcpServer(Servers(d)).Some? && !NamedKeyPlaceholder(GcpServer(Servers(d)).value) ==>
      GcpGate(SubstituteServers(Servers(d), CredentialsFrom(env, d).value), env) == GcpGate(Servers(d), env)
  {
    var c := CredentialsFrom(env, d).value;
    var es := Servers(d);
    GcpServerSubstituted(es, c);
    GcpProjectIdOfServer(es);
    if GcpServer(es).Some? {
      GcpEntrySubstituted(GcpServer(es).value, c, env);
    }
  }
}
