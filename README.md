# FaaSr workflow deployment scripts, modelled in Dafny

FaaSr deploys a workflow: named actions bound to compute servers, on AWS
Lambda, GitHub Actions, OpenWhisk or Google Cloud Functions, with data
stores. The workflow is a JSON document. Four Python scripts drive the
deployment, and this project models their decision logic and proves what
they promise:

- `scripts/register_workflow.py` registers a workflow. It validates the S3
  data stores. It substitutes credential placeholders from the environment
  into a secret payload. It routes each action to its platform by
  `FaaSType`. It then deploys each platform's actions one by one, and the
  first failure aborts the run. Deploying means sizing a Lambda and polling
  its state, creating or updating a GitHub workflow file, an OpenWhisk
  action or a Cloud Function. `MockFaaSrPayload` is a two-layer overlay
  map.
- `scripts/sync_secrets.py` chooses the secrets to copy from the CI
  environment. It syncs them to AWS Secrets Manager and/or Google Secret
  Manager, and maps the outcomes to an exit code.
- `scripts/migration_adapter.py` is the scheduler adapter.
  `FaaSrPayloadAdapter` overwrites credentials in a workflow, keeps an
  `overwritten` view of the invocation fields and derives the payload URL.
  `migrate_invoke_workflow_to_scheduler` checks `FunctionInvoke` and hands
  the adapted workflow to the scheduler.
- `scripts/deploy_terraform.py` is the Terraform driver. It parses the
  GitHub remote into `owner/repo`, writes `terraform.tfvars`, builds the
  terraform commands and chooses between destroy, plan and plan-then-apply.

Every SDK, CLI and HTTP call is a parameter of the model. So are the
environment (a map), whether the SDKs `sync_secrets.py` imports are installed, the user's answer (or end of file at the prompt) and the scheduler. Where a call is
made repeatedly, the parameter is an oracle indexed by action or attempt,
and the world each platform routine meets is indexed by the routine's
position in `main`'s loop. A process exit is a result value.

The operations follow the code as written. Where verification showed the
code to differ from its evident intent, the corrected definition is proved
beside it and the difference is listed under "## Findings"; the routines,
`main` and the Terraform driver still use the definitions as written.

Modules:

| file | module | contents |
|---|---|---|
| basics.dfy | Basics | Option, Result, environment lookups |
| text.dfy | Text | the Python string operations used (lower, strip, replace, basename, stem) |
| workflow.dfy | WorkflowModel | JSON values, server/store entries, actions, platforms, faults |
| routing.dfy | Routing | FaaSType aliases and the per-platform action filter |
| secret_payload.dfy | SecretPayload | `create_secret_payload` |
| gates.dfy | Gates | the credential checks before each platform deploy |
| deployment.dfy | Deployment | deploying actions in order until the first failure |
| lambda_deploy.dfy | LambdaDeploy | Lambda sizing, the status polling, the update/create branch |
| platform_steps.dfy | PlatformSteps | name derivation, the GitHub, OpenWhisk and GCP steps |
| s3_check.dfy | S3Check | `validate_s3_datastores` |
| mock_payload.dfy | MockPayload | `MockFaaSrPayload` |
| registration.dfy | Registration | the `deploy_to_*` routines and `main` |
| secret_sync.dfy | SecretSync | `sync_secrets.py` |
| migration_adapter.dfy | MigrationAdapter | `migration_adapter.py` |
| terraform_driver.dfy | TerraformDriver | `deploy_terraform.py` |

## Model

| member | source | states |
|---|---|---|
| WorkflowModel.Lookup | scripts/register_workflow.py:377-383 | a server found by name is in the table under that name; no result means no entry has that name |
| Routing.Route | scripts/register_workflow.py:958-969 | a lower-cased FaaSType routes to a platform exactly when it is one of that platform's aliases, so the four alias sets dispatch disjointly |
| Routing.CollectFaaSTypes | scripts/register_workflow.py:945-953 | the collected set holds exactly the lower-cased FaaSType of some server that has one, each once |
| Routing.Selected | scripts/register_workflow.py:515-521 | the filter fails only with an unknown server or a server without FaaSType |
| Routing.FilterActions | scripts/register_workflow.py:376-383 | the filter loop computes the selection: the same actions in order, or the same first error |
| Routing.SelectedKeepsFirstError | scripts/register_workflow.py:515-521 | once a prefix of the actions hits an error, the whole filter reports that same error |
| Routing.SelectedOkIff | scripts/register_workflow.py:729-735 | the filter succeeds exactly when every action names a known server with a FaaSType |
| Routing.SelectedMembers | scripts/register_workflow.py:816-826 | a successful filter keeps exactly the actions whose server routes to the platform |
| Routing.SelectionsDisjoint | scripts/register_workflow.py:958-969 | no action is deployed by two platforms |
| SecretPayload.CredentialMap | scripts/register_workflow.py:295-305 | the payload's credential part has exactly the nine credential keys |
| SecretPayload.CredentialsFrom | scripts/register_workflow.py:178-305 | the credentials read from the environment, or the missing GH_PAT error (characterised by SecretPayload.SubstitutionIdempotent and SecretPayload.Workflow.CreateSecretPayload) |
| SecretPayload.SubstituteServer | scripts/register_workflow.py:316-346 | one server with its placeholders replaced (its meaning is SecretPayload.SubstituteServerBySlot, SecretPayload.SubstituteKeepsType and SecretPayload.SubstituteServerIdempotent) |
| SecretPayload.SubstituteStore | scripts/register_workflow.py:349-357 | one store with its placeholders replaced (its meaning is SecretPayload.SubstituteStoreOnlyMinio and SecretPayload.SubstituteStoreIdempotent) |
| SecretPayload.Substituted | scripts/register_workflow.py:310-357 | the document after in-place substitution (its meaning is SecretPayload.ServersOfSubstituted and SecretPayload.SubstitutionIdempotent) |
| SecretPayload.Payload | scripts/register_workflow.py:307-313 | the payload dictionary (its meaning is SecretPayload.PayloadKeys and SecretPayload.OverlayUpdate) |
| SecretPayload.SubstituteServerBySlot | scripts/register_workflow.py:316-346 | substitution keeps the server's name and keys; each field's new value is what its placeholder slot allows |
| SecretPayload.SubstituteStoreOnlyMinio | scripts/register_workflow.py:349-357 | only `My_Minio_Bucket` changes; a changed field held its exact placeholder and now holds a non-empty MinIO credential |
| SecretPayload.SubstituteKeepsType | scripts/register_workflow.py:316-346 | substitution never changes a server's FaaSType, name or sizes, so routing is unaffected |
| SecretPayload.SubstituteServerIdempotent | scripts/register_workflow.py:316-346 | substituting a server twice equals substituting it once |
| SecretPayload.SubstituteStoreIdempotent | scripts/register_workflow.py:349-357 | substituting a store twice equals substituting it once |
| SecretPayload.GcpProjectIdStable | scripts/register_workflow.py:286-292 | the GCP project id read from substituted servers is the one read before |
| SecretPayload.ServersOfSubstituted | scripts/register_workflow.py:310-357 | in-place substitution changes only the ComputeServers and DataStores tables, entry by entry |
| SecretPayload.SubstitutionIdempotent | scripts/register_workflow.py:280-359 | on the substituted workflow, the same credentials are read, substitution changes nothing more and the payload is the same |
| SecretPayload.PayloadKeys | scripts/register_workflow.py:307-313 | the payload holds the nine credential keys and every workflow key but `_workflow_file`; on a collision the workflow value wins |
| SecretPayload.Workflow.CreateSecretPayload | scripts/register_workflow.py:280-359 | without GH_PAT, fails and changes nothing; otherwise the document is substituted in place and the payload is returned |
| SecretPayload.OverlayUpdate | scripts/register_workflow.py:307-313 | writing a non-file key after the overlay equals writing it into the workflow before it |
| SecretPayload.FindGcpProjectId | scripts/register_workflow.py:286-292 | the loop finds the first GCP server's Namespace, or "" |
| SecretPayload.SubstituteEach | scripts/register_workflow.py:316-357 | the loop over servers or stores substitutes each entry, in order |
| Gates.AwsGate | scripts/register_workflow.py:186-196 | the AWS check passes exactly when the access key, secret key and role ARN are set; a failure names a missing variable |
| Gates.OwConfigOf | scripts/register_workflow.py:707-718 | the OpenWhisk config exists exactly when Endpoint, Namespace and SSL are present, and then holds the Endpoint and Namespace values; SSL is true only for "true" in any case |
| Gates.OwServerAsWritten | scripts/register_workflow.py:707-718 | as written, the routines use it: the first server whose lower-cased FaaSType is exactly `openwhisk` gives its config; a server without FaaSType met first is a missing-FaaSType error; none found is NoPlatformServer (defined by recursion; its meaning is stated by Gates.OwAliasRejected and Gates.OwServerAsWrittenSubstituted) |
| Gates.OwAliasRejected | scripts/register_workflow.py:707-718 | a server whose type is any OpenWhisk alias other than "openwhisk" (such as "ow") is selected for OpenWhisk, but the as-written lookup then finds no OpenWhisk server |
| Gates.OwServer | scripts/register_workflow.py:707-718 | corrected half, not used by the routines: as Gates.OwServerAsWritten, but every OpenWhisk alias is accepted (its property is Gates.OwServerFound) |
| Gates.OwServerFound | scripts/register_workflow.py:729-735 | corrected half: whenever an action routes to OpenWhisk, the lookup accepting every alias finds a server |
| Gates.GcpServer | scripts/register_workflow.py:200-210 | the first server of a GCP type: the result has a GCP type and every server before it does not; none exactly when no server has a GCP type |
| Gates.GcpProjectIdOfServer | scripts/register_workflow.py:213-216 | the payload's project id is the found GCP server's Namespace |
| Gates.GcpKeyAsWritten | scripts/register_workflow.py:219-228 | as written, the routines use it: the SecretKey, replaced by GCP_SECRETKEY only when it is the literal `GCP_SECRET_KEY`; an empty key means none (its property is Gates.GcpKeyDependsOnOrder) |
| Gates.GcpKeyDependsOnOrder | scripts/register_workflow.py:219-228 | for a Cloud Functions server not named "GCP" whose SecretKey is "<server>_SECRET_KEY", the as-written key lookup returns that literal placeholder before substitution and the environment's key after it |
| Gates.GcpKey | scripts/register_workflow.py:219-228 | corrected half, not used by the routines: both `<server>_SECRET_KEY` and `GCP_SECRET_KEY` are read from GCP_SECRETKEY (its property is in Gates.GcpEntrySubstituted and Gates.GcpGateSubstituted) |
| Gates.GcpGate | scripts/register_workflow.py:198-247 | the GCP check passes exactly when a GCP server exists with a non-empty Namespace and SecretKey; the project is that Namespace and the key is the as-written resolution of its SecretKey; a failure is NoPlatformServer or a missing field |
| Gates.LookupSubstituted | scripts/register_workflow.py:344-346 | looking a server up after substitution finds the substituted form of the same server |
| Gates.SelectedSubstituted | scripts/register_workflow.py:344-346 | substituting credentials in place never changes which actions a platform selects |
| Gates.SubstituteKeepsField | scripts/register_workflow.py:316-346 | a field without a placeholder slot keeps its presence and value |
| Gates.OwConfigSubstituted | scripts/register_workflow.py:316-346 | substitution changes none of Endpoint, Namespace and SSL of an OpenWhisk server |
| Gates.OwServerSubstituted | scripts/register_workflow.py:707-718 | the corrected OpenWhisk lookup gives the same answer before and after substitution |
| Gates.OwServerAsWrittenSubstituted | scripts/register_workflow.py:707-718 | the as-written OpenWhisk lookup gives the same answer before and after substitution |
| Gates.GcpServerSubstituted | scripts/register_workflow.py:200-210 | the GCP server found after substitution is the substituted form of the one found before |
| Gates.GcpEntrySubstituted | scripts/register_workflow.py:219-228 | substitution keeps a GCP server's Namespace, the emptiness of its SecretKey and the corrected key; the as-written key too, unless the SecretKey is the server's own `<server>_SECRET_KEY` placeholder |
| Gates.GcpGateSubstituted | scripts/register_workflow.py:198-247 | whether or not the payload was built before it, the GCP check as written passes or fails alike, with the same project, the same error and the same corrected key; the whole check, key included, is the same unless the server uses its own `<server>_SECRET_KEY` placeholder |
| Deployment.Attempted | scripts/register_workflow.py:761-797 | the steps taken are those of a prefix of the actions, in order; every step but the last succeeded; fewer than all actions are attempted only when the last attempted one failed |
| Deployment.Outcome | scripts/register_workflow.py:528-704 | a platform run holds exactly the attempted steps; an aborted run ends with a failed step and reports that step's fault; a finished run holds only successful steps |
| Deployment.AttemptedUpTo | scripts/register_workflow.py:594-704 | when the first k actions succeed, either all are attempted or exactly k+1 are, the last one failing |
| Deployment.OutcomeFinishedIff | scripts/register_workflow.py:594-704 | a platform run finishes exactly when every action's step succeeds, and then every action was attempted |
| Deployment.DeployEach | scripts/register_workflow.py:769-793 | the per-action loop returns the run specified by Outcome; an aborted run ends with its failed step and reports its fault |
| LambdaDeploy.Resolve | scripts/register_workflow.py:543-559 | memory and runtime come from the action, else the server, else the default |
| LambdaDeploy.ClampMemory | scripts/register_workflow.py:562-570 | memory ends in [128, 10240]; in range it is unchanged, out of range it is the nearer bound |
| LambdaDeploy.ClampTimeout | scripts/register_workflow.py:572-578 | timeout ends in [1, 900]; in range it is unchanged, out of range it is the nearer bound |
| LambdaDeploy.Clamp | scripts/register_workflow.py:562-578 | the clamped settings are in range; a warning is raised exactly for a value out of range, and a value without a warning is unchanged |
| LambdaDeploy.Initial | scripts/register_workflow.py:650-651 | the create_function settings: memory is max(128, m) (at least both, and one of them), timeout is min(300, t) (at most both, and one of them) |
| LambdaDeploy.InitialCreateSettings | scripts/register_workflow.py:650-651 | on clamped settings, the create call keeps the memory and uses a timeout in [1, 300] no longer than the final one, equal to it exactly when it is at most 300 |
| LambdaDeploy.AwaitSettled | scripts/register_workflow.py:605-627 | the poll settles only on a ready reply and fails only on a broken one, within 60 queries, every earlier reply pending; it times out exactly when all 60 are pending |
| LambdaDeploy.Wait | scripts/register_workflow.py:657-681 | the status polling from one attempt on (its meaning is the contract of LambdaDeploy.AwaitSettled and LambdaDeploy.NeverActiveTimesOut) |
| LambdaDeploy.NeverActiveTimesOut | scripts/register_workflow.py:657-681 | a function that never becomes Active or Failed times out |
| LambdaDeploy.CreatePath | scripts/register_workflow.py:638-694 | the create branch: create_function with the initial settings, wait for Active, then configure with the final settings (its meaning is in LambdaDeploy.LambdaBranch) |
| LambdaDeploy.LambdaStep | scripts/register_workflow.py:594-704 | one Lambda deployment: update, or create on not-found (its meaning is LambdaDeploy.LambdaBranch) |
| LambdaDeploy.LambdaBranch | scripts/register_workflow.py:594-694 | a missing function is created or fails; a found one whose updates succeed and settle is updated; a created function was created with the initial settings, became Active and was configured with the final ones; an updated one settled and was configured with the final ones; a failed create call fails the step; a probe error fails |
| PlatformSteps.PrefixedName | scripts/register_workflow.py:408 | the name is the workflow name, a dash, then the action name |
| PlatformSteps.PrefixedNameInjective | scripts/register_workflow.py:408 | two actions of one workflow never share a prefixed name |
| PlatformSteps.GcpFunctionName | scripts/register_workflow.py:838 | the GCP name has the prefixed length, no underscore and no upper-case letter |
| PlatformSteps.GcpFunctionNameCollides | scripts/register_workflow.py:838 | distinct action names can map to one GCP function name |
| PlatformSteps.GcpFunctionPath | scripts/register_workflow.py:847-848 | the path starts with the project and region and ends with the function name |
| PlatformSteps.PayloadRepoVariable | scripts/register_workflow.py:399 | the variable is the upper-cased workflow name followed by `_PAYLOAD_REPO` |
| PlatformSteps.PayloadRepoValue | scripts/register_workflow.py:399 | the value is the repository, a slash, then ends with the workflow file |
| PlatformSteps.WorkflowPath | scripts/register_workflow.py:442 | the workflow file lives under `.github/workflows/` with extension `.yml` |
| PlatformSteps.Image | scripts/register_workflow.py:536-538 | an action's container is used when listed and non-empty, else the default where the platform falls back |
| PlatformSteps.WorkflowText | scripts/register_workflow.py:414-439 | the whole generated workflow file: it starts with the name line and the fixed trigger text, and ends with the container line and the fixed run text |
| PlatformSteps.WorkflowTextInjective | scripts/register_workflow.py:414-439 | two actions whose prefixed names have no line break get the same file only when the names and images are the same |
| PlatformSteps.FileStep | scripts/register_workflow.py:441-480 | writing one workflow file: the step is about that path, it is unchanged exactly when the file exists with the same stripped content, and a missing file is created or fails |
| PlatformSteps.GitHubStep | scripts/register_workflow.py:404-480 | one action's workflow file at .github/workflows/<workflow>-<action>.yml, left alone exactly when the stored text already holds that name and the action's image up to surrounding whitespace |
| PlatformSteps.FileStepUnchangedIff | scripts/register_workflow.py:441-480 | an existing workflow file is left alone exactly when its stripped content equals the desired one, and then no update is attempted |
| PlatformSteps.FileStepMissingCreates | scripts/register_workflow.py:441-480 | a missing workflow file is created, or the step fails when the create fails |
| PlatformSteps.OwStep | scripts/register_workflow.py:769-793 | the OpenWhisk step succeeds exactly when the wsk command does; it updates an existing action and creates a new one |
| PlatformSteps.GcpStep | scripts/register_workflow.py:877-908 | the Cloud Functions step (its meaning is PlatformSteps.GcpStepBranch) |
| PlatformSteps.GcpStepBranch | scripts/register_workflow.py:877-908 | a found function is updated exactly when the update succeeds; a missing one is never reported as updated |
| PlatformSteps.GcpRegion | scripts/register_workflow.py:816-826 | the Region (default us-central1) of the first server named by the last selected action; us-central1 when no action is selected or no server has that name |
| PlatformSteps.LambdaRegion | scripts/register_workflow.py:493-498 | the Region (default us-east-1) of the first server whose FaaSType is a Lambda spelling; us-east-1 when there is none |
| S3Check.StoreRegion | scripts/register_workflow.py:132-134 | the region is never empty and is the store's own when it has one |
| S3Check.CheckStore | scripts/register_workflow.py:124-167 | a store fails exactly when its endpoint does not start with http; a placeholder store is skipped; otherwise it is probed by name and region |
| S3Check.Checked | scripts/register_workflow.py:109-176 | the whole validation (its meaning is S3Check.CheckedKeepsFirstError, S3Check.CheckedOkIff and S3Check.CheckedProbes) |
| S3Check.CheckedKeepsFirstError | scripts/register_workflow.py:109-176 | the first bad store decides the error |
| S3Check.Unskipped | scripts/register_workflow.py:136-144 | the stores checked are exactly the non-placeholder stores |
| S3Check.CheckedOkIff | scripts/register_workflow.py:109-176 | validation passes exactly when no store has a bad endpoint |
| S3Check.CheckedProbes | scripts/register_workflow.py:165-167 | one probe per unskipped store, in order, with its name, endpoint and bucket |
| S3Check.ValidateStores | scripts/register_workflow.py:109-176 | the loop computes the specified validation |
| MockPayload.MockFaaSrPayload.View | scripts/register_workflow.py:67-87 | the visible map has the keys of both layers, overwritten values winning |
| MockPayload.MockFaaSrPayload.constructor | scripts/register_workflow.py:67-70 | a new overlay shows the workflow unchanged |
| MockPayload.MockFaaSrPayload.GetItem | scripts/register_workflow.py:72-77 | a key is found in the overwritten layer first, then the base; neither raises KeyError |
| MockPayload.MockFaaSrPayload.Get | scripts/register_workflow.py:82-87 | as GetItem, with the default when the key is in neither layer |
| MockPayload.MockFaaSrPayload.SetItem | scripts/register_workflow.py:79-80 | a write goes to the overwritten layer only and then reads back; the base is never modified |
| Registration.AfterPayload | scripts/register_workflow.py:280-359 | the document after create_secret_payload: substituted when GH_PAT is set, else unchanged (its meaning is Registration.AfterPayloadStable) |
| Registration.AwsRun | scripts/register_workflow.py:488-704 | deploy_to_aws as written, on the document it starts from: AWS variables, then the payload, then the Lambda actions (its properties are Registration.AwsRunGates and Registration.AwsRunStable) |
| Registration.AwsData | scripts/register_workflow.py:488-513 | the document deploy_to_aws leaves: substituted once the AWS variables are set and the payload is built |
| Registration.GitHubRun | scripts/register_workflow.py:361-486 | deploy_to_github as written: GH_PAT and GITHUB_REPOSITORY, the actions, the repository, the payload, then the files (its property is Registration.GitHubRunStable) |
| Registration.GitHubData | scripts/register_workflow.py:361-400 | the document deploy_to_github leaves: substituted only when it reaches the payload |
| Registration.OwRun | scripts/register_workflow.py:720-797 | deploy_to_ow as written: the server lookup that accepts only `openwhisk`, then the actions (its properties are Registration.OwRunStable and Registration.OwRunAliasAborts) |
| Registration.GcpRun | scripts/register_workflow.py:799-927 | deploy_to_gcp as written: the check with the as-written key, the client, the payload, then the actions (its property is Registration.GcpRunStable) |
| Registration.GcpData | scripts/register_workflow.py:799-813 | the document deploy_to_gcp leaves: substituted once the check and the client succeed |
| Registration.PlatformRun | scripts/register_workflow.py:958-969 | the routine main calls for a platform (its properties are Registration.RunsStable and Registration.OrderIrrelevant) |
| Registration.PlatformData | scripts/register_workflow.py:958-969 | a platform routine leaves the workflow as it was or substituted with the environment's credentials |
| Registration.AwsRunStable | scripts/register_workflow.py:488-704 | the AWS run does not depend on whether an earlier platform substituted the workflow |
| Registration.GitHubRunStable | scripts/register_workflow.py:361-486 | the GitHub run does not depend on whether an earlier platform substituted the workflow |
| Registration.AfterPayloadStable | scripts/register_workflow.py:280-359 | building the payload on a document already substituted changes nothing more |
| Registration.OwRunStable | scripts/register_workflow.py:720-797 | the OpenWhisk run as written, with its `openwhisk`-only lookup, does not depend on whether an earlier platform substituted the workflow |
| Registration.OwRunAliasAborts | scripts/register_workflow.py:707-735 | a workflow whose one server has another OpenWhisk alias (such as `ow`) routes its action to OpenWhisk, yet the OpenWhisk run aborts with no server found |
| Registration.GcpRunStable | scripts/register_workflow.py:799-927 | the GCP run as written does not depend on whether an earlier platform substituted the workflow, unless the first GCP server's SecretKey is its own `<server>_SECRET_KEY` placeholder (then Gates.GcpKeyDependsOnOrder applies) |
| Registration.RunsStable | scripts/register_workflow.py:958-969 | every platform's run as written, and the document it leaves, are the same on a document another routine already substituted, with the Cloud Functions exception of Registration.GcpRunStable |
| Registration.AwsRunGates | scripts/register_workflow.py:488-513 | missing AWS credentials or GH_PAT abort before any action and leave the workflow unchanged |
| Registration.DataAfter | scripts/register_workflow.py:958-969 | the shared document after the routines of the given runs have run in turn, the k-th meeting the k-th world (its meaning is Registration.DataAfterRewritten) |
| Registration.DataAfterRewritten | scripts/register_workflow.py:958-969 | however many routines have run, the document is as loaded or substituted once with the environment's credentials |
| Registration.OrderIrrelevant | scripts/register_workflow.py:958-969 | unless the first GCP server uses its own key placeholder, a routine makes the same run after any earlier routines as on the document as loaded, so the set's iteration order does not matter |
| Registration.Loop | scripts/register_workflow.py:958-969 | main's loop over the FaaSTypes in a given order: unrecognised types skipped, the first aborted run stops it (its meaning is Registration.LoopRuns) |
| Registration.LoopExtends | scripts/register_workflow.py:958-969 | the loop only appends runs after those already made |
| Registration.LoopFollows | scripts/register_workflow.py:958-969 | each run the loop adds is the routine's run after the runs before it |
| Registration.LoopFinishes | scripts/register_workflow.py:958-969 | every added run but the last finishes, and the loop succeeds exactly when all of them finish |
| Registration.LoopPlatforms | scripts/register_workflow.py:958-969 | the added runs are for the recognised types, in order, and all of them when the loop succeeds |
| Registration.LoopRuns | scripts/register_workflow.py:958-969 | the i-th run is its platform's routine on the document the earlier runs left, meeting the i-th world; the runs are for the recognised types in order; all but the last finish; success exactly when every run finishes, and then every recognised type has run |
| Registration.DeployToAws | scripts/register_workflow.py:488-704 | the routine returns the specified AWS run and leaves the specified workflow |
| Registration.DeployToGitHub | scripts/register_workflow.py:361-486 | the routine returns the specified GitHub run and leaves the specified workflow |
| Registration.DeployToOw | scripts/register_workflow.py:720-797 | the routine returns the specified OpenWhisk run, with the as-written server lookup, and changes nothing |
| Registration.DeployToGcp | scripts/register_workflow.py:799-927 | the routine returns the specified GCP run and leaves the specified workflow |
| Registration.Dispatch | scripts/register_workflow.py:958-969 | each platform is dispatched to its own routine |
| Registration.Prechecked | scripts/register_workflow.py:929-953 | the checks before deployment: the DAG check, the S3 validation and at least one FaaSType |
| Registration.Register | scripts/register_workflow.py:929-969 | a schema failure exits 1 and changes nothing; after `_workflow_file` is recorded, a failed check exits 1 with no run; otherwise the types are visited once each in the set's order, the exit is 0 exactly when the loop succeeds, the runs are the loop's, and the document is the one those runs leave; the exit is 0 or 1 |
| Registration.IterationOrder | scripts/register_workflow.py:958 | the order a set is iterated in: each type of the set exactly once |
| Registration.DeployPlatforms | scripts/register_workflow.py:957-969 | the loop over the types in the given order returns the outcome and runs of Registration.Loop, each routine dispatched on the document the earlier ones left, and leaves that document |
| SecretSync.ServerSecrets | scripts/sync_secrets.py:13-59 | the secrets of the `--server` choices, in order (its meaning is SecretSync.ServerSecretsAppend and SecretSync.ServerSecretsOne) |
| SecretSync.DataServerSecrets | scripts/sync_secrets.py:62-67 | a non-empty data server adds its stripped, upper-cased ACCESSKEY then SECRETKEY names; an empty one adds nothing |
| SecretSync.SecretsToSync | scripts/sync_secrets.py:51-69 | the server secrets followed by the data-server pair (the list SecretSync.GetSecretsToSync is proved to build) |
| SecretSync.ServerSecretsAppend | scripts/sync_secrets.py:56-59 | the server secrets of two lists concatenate, so `--server` order is kept |
| SecretSync.ServerSecretsOne | scripts/sync_secrets.py:13-19 | an unknown server adds nothing and a repeated one is repeated |
| SecretSync.GetSecretsToSync | scripts/sync_secrets.py:51-69 | the loop computes the specified list, and a data server's SECRETKEY comes last |
| SecretSync.AwsSync | scripts/sync_secrets.py:90-120 | a missing, empty or `***` secret is skipped; otherwise the id is prefix+name; the secret is updated exactly when describe and put succeed, and created exactly when creation succeeds after describe, or put following a successful describe, reports it not found; anything else fails |
| SecretSync.GcpSync | scripts/sync_secrets.py:148-209 | a missing, empty or `***` secret is skipped; otherwise the id is prefix+name, an update is a 200 probe then an accepted version, a create is a 404 probe then accepted create and version |
| SecretSync.SyncToAws | scripts/sync_secrets.py:72-122 | without boto3 it returns false and syncs nothing; otherwise every secret is attempted, and the result is true exactly when none failed |
| SecretSync.SyncToGcp | scripts/sync_secrets.py:125-211 | without requests it returns false and syncs nothing; otherwise every secret is attempted, and the result is true exactly when none failed |
| SecretSync.SyncMain | scripts/sync_secrets.py:214-295 | the exit status is the one the script's early exits and final verdict determine; AWS is synced only when chosen, secrets exist, the region is set and boto3 imports, GCP only when chosen, AWS did not stop the run, the project and key are set, authentication succeeded and requests imports, and each provider's log records every secret in order |
| SecretSync.ExitStatus | scripts/sync_secrets.py:214-295 | main's exit status as a function of the flags, environment, installed SDKs and provider replies (its meaning is SecretSync.ExitStatusMeaning; SecretSync.SyncMain is proved to exit with it) |
| SecretSync.ExitStatusMeaning | scripts/sync_secrets.py:214-295 | the status is 0 or 1; no provider exits 1; no secrets exits 0; otherwise exit 0 exactly when each selected provider is configured, its SDK imports, and it synced everything |
| SecretSync.MissingSdkFails | scripts/sync_secrets.py:72-79 | a selected provider whose SDK cannot be imported makes the script exit 1 whenever the secret list is non-empty, even if every secret would be skipped |
| MigrationAdapter.FaaSrPayload.constructor | scripts/migration_adapter.py:15-17 | the payload wraps the given document |
| MigrationAdapter.FaaSrPayload.GetItem | scripts/migration_adapter.py:19-20 | a value is returned exactly for a present key, and it is that key's value |
| MigrationAdapter.FaaSrPayload.SetItem | scripts/migration_adapter.py:22-23 | the key is set and nothing else changes |
| MigrationAdapter.FaaSrPayload.Contains | scripts/migration_adapter.py:25-26 | true exactly for a present key |
| MigrationAdapter.FaaSrPayload.Get | scripts/migration_adapter.py:28-29 | a present key's value, else the default |
| MigrationAdapter.Overwrite | scripts/migration_adapter.py:59-73 | a non-empty credential overwrites the field whatever it held; an empty one changes nothing |
| MigrationAdapter.AdaptServer | scripts/migration_adapter.py:59-73 | _setup_credentials on one server by its lower-cased FaaSType (its meaning is MigrationAdapter.AdaptServerByField) |
| MigrationAdapter.AdaptStore | scripts/migration_adapter.py:76-82 | _setup_credentials on one store (its meaning is MigrationAdapter.AdaptStoreOnlyMinio) |
| MigrationAdapter.AdaptServerByField | scripts/migration_adapter.py:59-73 | the server's name is kept; a field with a non-empty credential for its type is that credential, every other field keeps its presence and value |
| MigrationAdapter.AdaptStoreOnlyMinio | scripts/migration_adapter.py:76-82 | only `My_Minio_Bucket` changes, and only with non-empty MinIO credentials |
| MigrationAdapter.AdaptEach | scripts/migration_adapter.py:59-82 | the loop adapts every entry, in order |
| MigrationAdapter.Adapted | scripts/migration_adapter.py:47-82 | the document after _setup_credentials: each present table with every entry adapted (MigrationAdapter.AdaptDocument is proved to compute it) |
| MigrationAdapter.AdaptDocument | scripts/migration_adapter.py:47-82 | the server loop and then the store loop produce the adapted document; a missing table is left absent |
| MigrationAdapter.Overwritten | scripts/migration_adapter.py:84-96 | the overwritten keys are the four invocation keys plus every key except the three excluded; document values win over the defaults Null, "", "" and "default" |
| MigrationAdapter.FirstGitHubServer | scripts/migration_adapter.py:105-108 | the first server of a GitHub alias type: it has such a type and no server before it does; none exactly when no server has one |
| MigrationAdapter.PayloadUrl | scripts/migration_adapter.py:98-119 | "unknown" without a path; the file's basename without a GitHub server; with one, UserName, ActionRepoName and Branch of the first GitHub server (defaults "unknown", "unknown", "main") joined by slashes with the basename, so the URL names that basename |
| MigrationAdapter.FaaSrPayloadAdapter.constructor | scripts/migration_adapter.py:38-45 | the adapter holds the adapted workflow, its overwritten view and URL, and the two maps agree |
| MigrationAdapter.FaaSrPayloadAdapter.GetItem | scripts/migration_adapter.py:121-123 | reads the document only: a value exactly for a present key |
| MigrationAdapter.FaaSrPayloadAdapter.Contains | scripts/migration_adapter.py:132-134 | membership in the document only |
| MigrationAdapter.FaaSrPayloadAdapter.Get | scripts/migration_adapter.py:136-138 | the document's value, else the default |
| MigrationAdapter.FaaSrPayloadAdapter.GetCompleteWorkflow | scripts/migration_adapter.py:140-142 | the whole document, which agrees with the overwritten view |
| MigrationAdapter.FaaSrPayloadAdapter.SetItem | scripts/migration_adapter.py:125-130 | the document always changes, the overwritten view too unless the key is excluded, the URL never; the two maps keep agreeing |
| MigrationAdapter.Truthy | scripts/migration_adapter.py:166-173 | Python truthiness of the function name and of FunctionInvoke: None, empty and zero are false |
| MigrationAdapter.Migrate | scripts/migration_adapter.py:145-195 | a given function name replaces FunctionInvoke; no FunctionInvoke fails first; success exactly when it names a listed action and the scheduler accepts the adapted workflow, and the result is that name |
| TerraformDriver.ParseRemoteAsWritten | scripts/deploy_terraform.py:36-55 | a remote without `github.com`, or under another prefix, gives no repository |
| TerraformDriver.ParseRemoteMangles | scripts/deploy_terraform.py:44-45 | the as-written parse of `https://github.com/acme/.github.git` gives `acme/hub` |
| TerraformDriver.AsWrittenAfterPrefix | scripts/deploy_terraform.py:44-47 | after either prefix, the as-written parse removes every `.git` in the rest |
| TerraformDriver.ParseRemote | scripts/deploy_terraform.py:43-55 | the corrected parse gives no repository for a non-GitHub remote |
| TerraformDriver.DropGitSuffix | scripts/deploy_terraform.py:44-47 | only a trailing `.git` is removed |
| TerraformDriver.ParseAfterPrefix | scripts/deploy_terraform.py:44-47 | after either prefix, the corrected parse gives the rest without its trailing `.git` |
| TerraformDriver.ParseRemoteRoundTrip | scripts/deploy_terraform.py:36-55 | the HTTPS and SSH remotes of a path, with or without `.git`, parse back to that path |
| TerraformDriver.ParseRemoteKeepsName | scripts/deploy_terraform.py:44-45 | the corrected parse of `https://github.com/<owner>/.github.git` gives `<owner>/.github`, for any owner |
| TerraformDriver.Repository | scripts/deploy_terraform.py:61-63 | a detected repository wins, else GITHUB_REPOSITORY, else `unknown/unknown` |
| TerraformDriver.TfvarsFor | scripts/deploy_terraform.py:57-95 | generate_tfvars on the git output: the repository is Repository of the as-written parse, then the settings and the three tags (its meaning is the Tfvars lemmas) |
| TerraformDriver.ValueOf | scripts/deploy_terraform.py:76-85 | the first setting of a name, or none when no setting has it |
| TerraformDriver.SettingsFor | scripts/deploy_terraform.py:76-85 | the first three lines are always the file path, the given repository and the region |
| TerraformDriver.TfvarsTokenLine | scripts/deploy_terraform.py:82-83 | a `github_token` line appears exactly when PAT is non-empty, holding PAT |
| TerraformDriver.TfvarsRoleLine | scripts/deploy_terraform.py:84-85 | an `aws_lambda_role_arn` line appears exactly when the role is non-empty, holding the role |
| TerraformDriver.TfvarsRepositoryLine | scripts/deploy_terraform.py:61-80 | the `github_repository` line holds the repository the settings were built with |
| TerraformDriver.TfvarsRepositoryMangled | scripts/deploy_terraform.py:36-80 | the tfvars of the remote `https://github.com/acme/.github.git` record `github_repository` as `acme/hub` |
| TerraformDriver.TfvarsWorkflowTag | scripts/deploy_terraform.py:88-95 | the Workflow tag is the workflow file's stem, between the Project and ManagedBy tags |
| TerraformDriver.Render | scripts/deploy_terraform.py:76-95 | the text of terraform.tfvars (GenerateTfvars is proved to write it) |
| TerraformDriver.GenerateTfvars | scripts/deploy_terraform.py:57-103 | the text accumulated with `+=` renders the specified settings and tags |
| TerraformDriver.CommandAsWritten | scripts/deploy_terraform.py:114-116 | `terraform` then the command, with `-auto-approve` last exactly when requested and `apply` is in the command |
| TerraformDriver.DestroyNotAutoApproved | scripts/deploy_terraform.py:173-175 | as written, `--destroy --auto-approve` runs `terraform destroy` without `-auto-approve` |
| TerraformDriver.Command | scripts/deploy_terraform.py:114-116 | corrected half, not used by the driver: the command also auto-approves destroy |
| TerraformDriver.CommandAutoApproves | scripts/deploy_terraform.py:114-116 | with the correction, apply and destroy both end in `-auto-approve` under `--auto-approve`, and the corrected command differs from the one as written exactly for destroy with `--auto-approve` |
| TerraformDriver.BuildCommand | scripts/deploy_terraform.py:105-116 | the list built by appending is the command as written |
| TerraformDriver.OwHandlerCompletes | scripts/deploy_terraform.py:131-141 | handle_openwhisk_deployment returns without KeyError: FunctionList is present and a table, and each function's server is in ComputeServers with a FaaSType |
| TerraformDriver.OwFunctions | scripts/deploy_terraform.py:136-146 | the names reported are exactly those of the functions whose server's lower-cased FaaSType is `openwhisk`, at most one per function |
| TerraformDriver.HandleOpenWhisk | scripts/deploy_terraform.py:131-146 | the handler's loop completes exactly when TerraformDriver.OwHandlerCompletes holds, and then lists the OpenWhisk functions |
| TerraformDriver.Expected | scripts/deploy_terraform.py:149-211 | main after the tfvars: the commands run and the exit status, with the commands as written and end of file at the prompt ending in status 1 (its meaning is the lemmas below) |
| TerraformDriver.ApplyOnlyAfterPlan | scripts/deploy_terraform.py:179-193 | every apply follows a successful plan, never under destroy or plan-only, and only when auto-approved or confirmed |
| TerraformDriver.DestroyTakesPrecedence | scripts/deploy_terraform.py:173-178 | with destroy, neither plan nor apply runs, whatever plan-only says, and no command carries `-auto-approve` |
| TerraformDriver.ExitZeroIff | scripts/deploy_terraform.py:131-211 | exit 0 exactly when the directory and workflow are there, init succeeded or was not needed, and the chosen operation succeeded or the apply was declined by a line read at the prompt (end of file there exits 1); after a successful apply, only when the OpenWhisk handler completes |
| TerraformDriver.ClosedStdinFails | scripts/deploy_terraform.py:181-191 | without --auto-approve and with stdin closed, a successful plan is followed by status 1 and no apply |
| TerraformDriver.ActionListDeploymentFails | scripts/deploy_terraform.py:131-206 | a workflow without FunctionList (functions listed under ActionList, as the other scripts read them) exits 1 after plan, apply and output all succeeded |
| TerraformDriver.TerraformMain | scripts/deploy_terraform.py:149-211 | the driver, with `success` assigned across branches, runs the commands as written and exits as specified, the EOFError at the prompt and the OpenWhisk handler's KeyError included |

## Left out

- `scripts/deploy_functions.py` is not part of this model: it is Docker, ECR, layer and template plumbing.
- `parse_arguments`, `read_workflow_file`, JSON parsing and file reading: the document and the flags are parameters. A read or parse error exits 1 in every script.
- `validate_workflow_with_faasr_backend` (schema and DAG checks): a pass/fail input of `Registration.Register`. A missing or ill-typed table is treated as absent.
- All boto3, PyGithub, Cloud Functions, `requests`, `wsk`, `git` and `terraform` calls: their results are oracle parameters. Timing (`time.sleep`, operation timeouts) is left out; only the attempt count is modelled.
- `set_github_variable` and `ensure_github_secrets_and_vars`: failures are only printed, so the variable write is not part of a step's outcome.
- `wsk property set` commands: their failures are ignored by the source.
- Temporary key files and `GOOGLE_APPLICATION_CREDENTIALS`: file effects only.
- Printed messages, logging and payload-size warnings.
- The `int()` conversion of MaxMemory and MaxRuntime: sizes are integers in the model.
- Text: case mapping and `strip` cover ASCII only.
- GCP region and path are computed, but the run records only the function name. The Lambda and GCP image is not part of the step outcome.
- `os.path.abspath`: the absolute path is a parameter of `TerraformDriver.GenerateTfvars`. The git subprocess output is a parameter of the remote parse, and `input()` is the answer parameter: the line read, or None when stdin is at end of file, where `input()` raises EOFError and the process exits with status 1.
- Writing `terraform.tfvars`, `os.chdir`, the `terraform output` result and the advice `handle_openwhisk_deployment` prints. Its KeyErrors, which end the process with status 1, are modelled.
- TerraformDriver.HandleOpenWhisk: FunctionList entries are read with the ActionList entry shape, which always has a FaaSServer, so a function without FaaSServer (a KeyError in the source) is not represented. A ComputeServers value that is not a table is treated as an empty one, which gives the same exit.
- TerraformDriver.GenerateTfvars: values are inserted unescaped, as in the source; the model does not state what the text means to Terraform.
- MigrationAdapter.Migrate: a missing ActionList raises KeyError in the source; it is modelled as NotInActionList, which exits 1 in the same way.
- MigrationAdapter.FaaSrPayloadAdapter.constructor: the source's shallow `.copy()` also mutates the caller's nested server dicts; the caller discards them, and the model does not capture that aliasing.
- MigrationAdapter.Migrate: the scheduler's `trigger_func` is a pass/fail oracle.
- SecretPayload.Workflow.CreateSecretPayload: the nested tables of the payload are shared with the workflow in the source; the model stores the substituted workflow and returns an equal payload value, without aliasing.
- The platforms are deployed in the iteration order of a Python set, which is unspecified; `Registration.Register` takes any order that visits each type once (`Registration.IterationOrder`).
- Registration.GcpRunStable: holds only when the first GCP server's SecretKey is not its own `<server>_SECRET_KEY` placeholder; with that placeholder the run depends on the platform order, as `Gates.GcpKeyDependsOnOrder` shows.
- Registration.RunsStable: the same exception for the Cloud Functions routine.
- Registration.OrderIrrelevant: the same exception; the order-dependent case is stated by `Gates.GcpKeyDependsOnOrder`.
- Gates.GcpGateSubstituted: the whole check as written is the same only without the `<server>_SECRET_KEY` placeholder; with it, only the outcome, project and corrected key are the same.
- Registration.Register: the `_workflow_file` path is kept as a string, where "" stands for None.

## Findings

| source | as written | input that shows it | evidently intended | confidence | as-written member | corrected member |
|---|---|---|---|---|---|---|
| scripts/deploy_terraform.py:44-47 | `.replace('.git', '')` removes every `.git` in the remote | `https://github.com/acme/.github.git` gives `acme/hub` | drop the prefix and one trailing `.git`, giving `acme/.github` | not executed | TerraformDriver.ParseRemoteAsWritten, TerraformDriver.ParseRemoteMangles | TerraformDriver.ParseRemote, TerraformDriver.ParseRemoteKeepsName |
| scripts/deploy_terraform.py:114-116 | `-auto-approve` is added only when `apply` is in the command | `--destroy --auto-approve` runs `terraform destroy`, which then asks for confirmation | destroy is auto-approved too when `--auto-approve` is given | not executed | TerraformDriver.CommandAsWritten, TerraformDriver.DestroyNotAutoApproved | TerraformDriver.Command, TerraformDriver.CommandAutoApproves |
| scripts/register_workflow.py:707-718 | the OpenWhisk server must have FaaSType exactly `openwhisk` | a server of type `ow` routes its actions to OpenWhisk, and then no server is found and the run exits 1 | accept every OpenWhisk alias, as the routing does | not executed | Gates.OwServerAsWritten, Gates.OwAliasRejected | Gates.OwServer, Gates.OwServerFound |
| scripts/register_workflow.py:219-228 | only `GCP_SECRET_KEY` is resolved from the environment | SecretKey `My_GCP_SECRET_KEY` stays a literal placeholder unless an earlier platform ran create_secret_payload | resolve `<server>_SECRET_KEY` too, so the key does not depend on platform order | not executed | Gates.GcpKeyAsWritten, Gates.GcpKeyDependsOnOrder | Gates.GcpKey, Gates.GcpGateSubstituted |
