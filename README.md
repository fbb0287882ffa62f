# Zadig job controller, role bookkeeping and admin handlers in Dafny

This project models six parts of Zadig, the cloud-native CI/CD platform:

- **The freestyle job controller** (`FreestyleJob`, `FreestyleJobProperties`). `FreestyleJobCtl` drives one `JobTask` through prepare, dispatch, wait and complete.
  - The task record is a class. The controller's methods update its `status`, `error` and `spec` in place.
  - Every backend call is an oracle whose answer comes from an `Answers` value. This covers the Kubernetes clients, MongoDB, the step controller and the completion watchers.
  - Every call is appended to a `Recorder` trace. The order of calls is therefore part of the observable state.
  - Each phase method is proved equal to a pure phase function (`PrepareSpec`, `ClusterDispatchSpec`, `VMWaitSpec`, ...). Sequencing, error precedence and "cleanup is always scheduled" are proved about those functions.
  - The docker-host rewrite and `BuildJobExcutorContext` are pure functions.
- **The job runner** (`JobRunner`).
  - `runJob` sets the task running, fills in defaults, runs a freestyle controller unless the type is "deploy", and always stamps the end time and acks.
  - `Pool` drains its job list sequentially. Each job is handed out once, in order.
- **The role service** (`RoleService`). It runs over an abstract relational store of roles, bindings, user-role rows and the action table.
  - The process-wide `ActionMap` verb→ID cache is a field of the service object. It is filled read-through, and it is not rolled back with a failing transaction.
  - A role's actions are grouped by resource into deduplicated, sorted verb lists.
- **The role HTTP handlers** (`RoleHandler`). These are modelled as decision rules: parameter checks, the project-admin authorization predicate and the licence-gated verb set. Each handler fills a fresh response `Context` step by step, and the result is proved equal to a response function.
  - The `CreateRole` gate, as written, tests `VerbGetProductionService` four times. So the create, edit and delete production-service verbs are not gated. The model keeps this.
  - The `UpdateRole` licence gate is commented out in the source, so the model has none.
- **The project-management handlers** (`ProjectManagement`). The model covers:
  - system-admin gating;
  - the Meego licence gate;
  - in-place credential redaction of the listed records, over an array;
  - dispatch on the validator type;
  - substitution of `{{.system.username}}` in JQL.
- **The workflow v4 service** (`WorkflowV4`). It runs over a `WorkflowStore` class that holds the documents, the next ID and the task counters.
  - Create rejects duplicate names.
  - Jobs are instantiated by a nested stage/job loop. Instantiation is an input function.
  - Update carries over the stored ID and instantiates against the stored workflow.
  - Delete also removes the `WorkflowTaskV4:<name>` counter.
  - List puts the legacy workflows first and projects each v4 workflow's stage names.

Supporting modules:

- `Results`: option, result and outcome types.
- `GoStrings`: Go's `strings` functions over `seq<char>`, with `ReplaceAll` proved to be split-then-join.
- `Licence`: the "professional or enterprise, status normal" test.
- `InternalHandler`: the caller's authorization resources.

Source paths below are relative to the repository root.

## Model

| member | source | states |
|---|---|---|
| FreestyleJob.ClearPlaceholders | pkg/microservice/aslan/core/common/service/workflowcontroller/jobcontroller/job_freestyle.go:111-115 | every env keeps its key and credential flag; a value starting with `{{.job` and ending with `}}` becomes "", every other env is unchanged |
| FreestyleJob.Prepared | pkg/microservice/aslan/core/common/service/workflowcontroller/jobcontroller/job_freestyle.go:111-127 | placeholders are cleared; a timeout ≤ 0 becomes 600, an empty resource request MinRequest, an empty cluster ID LocalClusterID; set values and all other properties are kept |
| FreestyleJob.PreparedIsIdempotent | pkg/microservice/aslan/core/common/service/workflowcontroller/jobcontroller/job_freestyle.go:111-127 | preparing prepared properties changes nothing |
| FreestyleJob.RewriteDockerHost | pkg/microservice/aslan/core/common/service/workflowcontroller/jobcontroller/job_freestyle.go:166-187 | remote cluster with the namespace in the host: its first occurrence is replaced by `koderover-agent` and the rest of the host is kept; remote without it but with `.dind`: `.koderover-agent` is inserted right after the first `.dind`; local without the namespace: `.<namespace>` is inserted there; local with it: ""; any other host is returned unchanged |
| FreestyleJob.InsertedAfter | pkg/microservice/aslan/core/common/service/workflowcontroller/jobcontroller/job_freestyle.go:175-184 | replacing the first occurrence of a pattern by the pattern plus a suffix inserts the suffix right after that occurrence and keeps both sides |
| FreestyleJob.SplitEnvsSelects | pkg/microservice/aslan/core/common/service/workflowcontroller/jobcontroller/job_freestyle.go:419-425 | the plain list is the `KEY=VALUE` lines of the non-credential envs and the secret list those of the credential envs, each in original order |
| FreestyleJob.SelectKeeps | pkg/microservice/aslan/core/common/service/workflowcontroller/jobcontroller/job_freestyle.go:419-425 | each selected env is one of the inputs and has the selected credential flag |
| FreestyleJob.EnvLineRoundTrip | pkg/microservice/aslan/core/common/service/workflowcontroller/jobcontroller/job_freestyle.go:421-424 | a `KEY=VALUE` line splits back at its first `=` into key and value when the key has no `=` |
| FreestyleJob.EnvsRoundTrip | pkg/microservice/aslan/core/common/service/workflowcontroller/jobcontroller/job_freestyle.go:419-425 | parsing the plain and secret lists gives back the (key, value) pairs of the plain and credential envs |
| FreestyleJob.BuildJobExecutorContext | pkg/microservice/aslan/core/common/service/workflowcontroller/jobcontroller/job_freestyle.go:417-454 | the plain list is the `KEY=VALUE` lines of the non-credential envs and the secret list those of the credential envs, in order; outputs are the output names in order; the cache is set iff the job runs on VM and then holds the job's cache-enable flag, dir type and user dir; the config-map name is the K8s job name; name, steps, paths and workflow fields are copied |
| FreestyleJob.VMOutputResult | pkg/microservice/aslan/core/common/service/workflowcontroller/jobcontroller/job_freestyle.go:403-415 | the output read succeeds iff the VM record is found; a missing record is "vm job not found" |
| FreestyleJob.JobInfoOf | pkg/microservice/aslan/core/common/service/workflowcontroller/jobcontroller/job_freestyle.go:456-468 | the saved job info carries the task's start, end and status, and its duration is end minus start |
| FreestyleJob.FreestyleJobCtl.Prepare | pkg/microservice/aslan/core/common/service/workflowcontroller/jobcontroller/job_freestyle.go:110-135 | the task state and call trace after prepare are those of `PrepareSpec` |
| FreestyleJob.FreestyleJobCtl.ClearEnvPlaceholders | pkg/microservice/aslan/core/common/service/workflowcontroller/jobcontroller/job_freestyle.go:111-115 | the env loop leaves the task's envs equal to `ClearPlaceholders` of the old envs and changes nothing else |
| FreestyleJob.FreestyleJobCtl.Dispatch | pkg/microservice/aslan/core/common/service/workflowcontroller/jobcontroller/job_freestyle.go:137-257 | the state and trace after `run` are those of `ClusterDispatchSpec` |
| FreestyleJob.FreestyleJobCtl.ResolveTarget | pkg/microservice/aslan/core/common/service/workflowcontroller/jobcontroller/job_freestyle.go:140-159 | state and trace of the cluster-client lookup are those of `ClusterTargetSpec` |
| FreestyleJob.FreestyleJobCtl.CreateResources | pkg/microservice/aslan/core/common/service/workflowcontroller/jobcontroller/job_freestyle.go:166-223 | state and trace of the docker-host rewrite, marshal, config-map and job-build steps are those of `ClusterResourcesSpec` |
| FreestyleJob.FreestyleJobCtl.CreateKubeJob | pkg/microservice/aslan/core/common/service/workflowcontroller/jobcontroller/job_freestyle.go:227-256 | state and trace of the stale-job delete, secrets, job creation and informer setup are those of `KubeJobSpec` |
| FreestyleJob.FreestyleJobCtl.DispatchVM | pkg/microservice/aslan/core/common/service/workflowcontroller/jobcontroller/job_freestyle.go:259-292 | state, trace, success and returned record ID are those of `VMDispatchSpec` |
| FreestyleJob.FreestyleJobCtl.Wait | pkg/microservice/aslan/core/common/service/workflowcontroller/jobcontroller/job_freestyle.go:294-307 | state and trace are those of `ClusterWaitSpec` |
| FreestyleJob.FreestyleJobCtl.VMWait | pkg/microservice/aslan/core/common/service/workflowcontroller/jobcontroller/job_freestyle.go:309-340 | state and trace are those of `VMWaitSpec` |
| FreestyleJob.FreestyleJobCtl.Complete | pkg/microservice/aslan/core/common/service/workflowcontroller/jobcontroller/job_freestyle.go:342-378 | state and trace are those of `ClusterCompleteSpec` |
| FreestyleJob.FreestyleJobCtl.ReadVMJobOutputs | pkg/microservice/aslan/core/common/service/workflowcontroller/jobcontroller/job_freestyle.go:403-415 | returns `VMOutputResult`; finds the record and writes its outputs under the job key only when it is found |
| FreestyleJob.FreestyleJobCtl.VMComplete | pkg/microservice/aslan/core/common/service/workflowcontroller/jobcontroller/job_freestyle.go:380-401 | state and trace are those of `VMCompleteSpec` |
| FreestyleJob.FreestyleJobCtl.Run | pkg/microservice/aslan/core/common/service/workflowcontroller/jobcontroller/job_freestyle.go:87-108 | state and trace of a whole run are those of `RunSpec` |
| FreestyleJob.FreestyleJobCtl.RunOnVM | pkg/microservice/aslan/core/common/service/workflowcontroller/jobcontroller/job_freestyle.go:93-100 | state and trace of the VM branch are those of `VMPathSpec` |
| FreestyleJob.FreestyleJobCtl.RunOnCluster | pkg/microservice/aslan/core/common/service/workflowcontroller/jobcontroller/job_freestyle.go:101-107 | state and trace of the cluster branch are those of `ClusterPathSpec` |
| FreestyleJob.FreestyleJobCtl.SaveInfo | pkg/microservice/aslan/core/common/service/workflowcontroller/jobcontroller/job_freestyle.go:456-468 | appends one save of `JobInfoOf` the task and returns the store's answer |
| FreestyleJobProperties.RunOnlyAppends | pkg/microservice/aslan/core/common/service/workflowcontroller/jobcontroller/job_freestyle.go:87-108 | a run leaves earlier calls alone and appends the same calls whatever came before |
| FreestyleJobProperties.PrepareFailureCreatesNothing | pkg/microservice/aslan/core/common/service/workflowcontroller/jobcontroller/job_freestyle.go:88-90 | when the step preparation fails, it is the only call, there is no ack, the run fails and the task is Failed with that error |
| FreestyleJobProperties.OneBackendPath | pkg/microservice/aslan/core/common/service/workflowcontroller/jobcontroller/job_freestyle.go:93-107 | a VM job makes no cluster-only call and any other job no VM-only call |
| FreestyleJobProperties.CleanupExactlyWhenDispatched | pkg/microservice/aslan/core/common/service/workflowcontroller/jobcontroller/job_freestyle.go:87-108 | a dispatched run schedules cleanup exactly once, as its last call; a run that fails to dispatch makes no wait and no cleanup call |
| FreestyleJobProperties.VMPathCleanup | pkg/microservice/aslan/core/common/service/workflowcontroller/jobcontroller/job_freestyle.go:93-100 | the same for the VM branch |
| FreestyleJobProperties.ClusterPathCleanup | pkg/microservice/aslan/core/common/service/workflowcontroller/jobcontroller/job_freestyle.go:101-107 | the same for the cluster branch |
| FreestyleJobProperties.VMPathAdds | pkg/microservice/aslan/core/common/service/workflowcontroller/jobcontroller/job_freestyle.go:93-100 | the VM branch adds no cluster-only call |
| FreestyleJobProperties.ClusterPathAdds | pkg/microservice/aslan/core/common/service/workflowcontroller/jobcontroller/job_freestyle.go:101-107 | the cluster branch adds no VM-only call |
| FreestyleJobProperties.ClusterDispatchAdds | pkg/microservice/aslan/core/common/service/workflowcontroller/jobcontroller/job_freestyle.go:137-257 | cluster dispatch adds only cluster calls, none of them a wait or a cleanup |
| FreestyleJobProperties.ClusterResourcesAdds | pkg/microservice/aslan/core/common/service/workflowcontroller/jobcontroller/job_freestyle.go:166-243 | the resource-creation steps add only cluster calls, none of them a wait or a cleanup |
| FreestyleJobProperties.KubeJobAdds | pkg/microservice/aslan/core/common/service/workflowcontroller/jobcontroller/job_freestyle.go:227-256 | the job-creation steps add only cluster calls, none of them a wait or a cleanup |
| FreestyleJobProperties.VMDispatchAdds | pkg/microservice/aslan/core/common/service/workflowcontroller/jobcontroller/job_freestyle.go:259-292 | VM dispatch adds only VM calls, none of them a wait or a cleanup |
| FreestyleJobProperties.ClusterCallsInOrder | pkg/microservice/aslan/core/common/service/workflowcontroller/jobcontroller/job_freestyle.go:189-256 | the stale config map is deleted before the new one is created, and the stale job before secrets and the job; the calls made are a prefix of that order, which stops at the first failing step; a failed create or delete marks the task Failed, while a failure to open the informer after the job exists leaves status and error as they were |
| FreestyleJobProperties.VMJobInfoErrorIsSilent | pkg/microservice/aslan/core/common/service/workflowcontroller/jobcontroller/job_freestyle.go:267-270 | a job-info conversion error fails the dispatch with no call and no change to status or error |
| FreestyleJobProperties.VMRecordContents | pkg/microservice/aslan/core/common/service/workflowcontroller/jobcontroller/job_freestyle.go:259-292 | the one call persists a record with status Created, the job's VM labels, its executor context and the run's project, task and job name; dispatch succeeds iff the store does, returning the record ID; otherwise the task is Failed |
| FreestyleJobProperties.ClusterWaitFacts | pkg/microservice/aslan/core/common/service/workflowcontroller/jobcontroller/job_freestyle.go:294-307 | the extra ack and the end-wait happen iff the start-wait returned Running; otherwise the start status and error stand; after the end-wait its status and error stand; the spec is unchanged |
| FreestyleJobProperties.VMWaitFacts | pkg/microservice/aslan/core/common/service/workflowcontroller/jobcontroller/job_freestyle.go:309-340 | Cancelled or Timeout is written back to the record; a failed write-back overwrites the error but not the status |
| FreestyleJobProperties.ClusterCompleteCleanup | pkg/microservice/aslan/core/common/service/workflowcontroller/jobcontroller/job_freestyle.go:342-378 | on every exit the cleanup of the job's label in its namespace is scheduled exactly once, as the last call |
| FreestyleJobProperties.ClusterCompleteFacts | pkg/microservice/aslan/core/common/service/workflowcontroller/jobcontroller/job_freestyle.go:342-378 | an output-read failure sets Failed; a log-save failure sets the error only if it is empty and skips the summary; a summary failure overwrites the error; all passing changes nothing |
| FreestyleJobProperties.VMCompleteCleanup | pkg/microservice/aslan/core/common/service/workflowcontroller/jobcontroller/job_freestyle.go:380-401 | on every exit the record's cleanup with the final status is scheduled exactly once, as the last call |
| FreestyleJobProperties.VMCompleteFacts | pkg/microservice/aslan/core/common/service/workflowcontroller/jobcontroller/job_freestyle.go:380-415 | the summary always runs; a missing record sets Failed with "vm job not found"; a found record's outputs are written; a summary failure overwrites the error |
| JobRunner.WithDefaults | pkg/microservice/aslan/core/workflow/service/jobcontroller/job.go:37-48 | timeout 600, MinRequest and LocalClusterID are filled in where unset, and set values are kept |
| JobRunner.WithDefaultsIsIdempotent | pkg/microservice/aslan/core/workflow/service/jobcontroller/job.go:37-48 | filling defaults twice is filling them once |
| JobRunner.RunnerAndPrepareAgreeOnDefaults | pkg/microservice/aslan/core/workflow/service/jobcontroller/job.go:37-48 | the runner's defaults are the same as the controller's `prepare` defaults |
| JobRunner.RunJobAcksLast | pkg/microservice/aslan/core/workflow/service/jobcontroller/job.go:50-62 | every run ends with the deferred ack; a "deploy" task makes no other call and stays Running; any other task makes exactly the controller's calls before it |
| JobRunner.RunJob | pkg/microservice/aslan/core/workflow/service/jobcontroller/job.go:34-63 | the task is Running from the start time on; its properties carry the defaults; the end time is stamped, the start and finish lines are logged and ack is called on every exit; "deploy" ends in the nil-controller fault |
| JobRunner.FirstDeploy | pkg/microservice/aslan/core/workflow/service/jobcontroller/job.go:55-58 | the index of the first "deploy" task, or the length of the list when there is none |
| JobRunner.RunJobOnlyAppends | pkg/microservice/aslan/core/workflow/service/jobcontroller/job.go:34-63 | `runJob` only appends to the call trace, and the state it leaves does not depend on the calls before it |
| JobRunner.DrainLeavesLaterTasks | pkg/microservice/aslan/core/workflow/service/jobcontroller/job.go:105-107 | after the first n hand-outs every later task is as it was |
| JobRunner.DrainRunsEachTaskOnce | pkg/microservice/aslan/core/workflow/service/jobcontroller/job.go:105-121 | after the first n hand-outs each of those tasks holds the state of its own `runJob`, its start and end time and its properties with defaults, and is not touched again |
| JobRunner.DrainLogsEachRun | pkg/microservice/aslan/core/workflow/service/jobcontroller/job.go:49-107 | the log of the first n hand-outs is, task by task in list order, a start line with Running and a finish line with the status that task ends with |
| JobRunner.LoggedRunsExtend | pkg/microservice/aslan/core/workflow/service/jobcontroller/job.go:49-52 | one more logged run extends the log of the runs so far by that task's start and finish lines with its final status |
| JobRunner.DrainTraceIsEachRunInTurn | pkg/microservice/aslan/core/workflow/service/jobcontroller/job.go:105-121 | the call trace of the first n hand-outs is each task's own calls, in list order |
| JobRunner.Pool.Run | pkg/microservice/aslan/core/workflow/service/jobcontroller/job.go:99-113 | with concurrency > 0 or an empty list and no task listed twice, every task is registered; the tasks up to and including the first "deploy" are handed out once each, in order, and their states, times, calls and log lines are those of the drain; later tasks are untouched; Run returns normally iff no task is "deploy" |
| JobRunner.Pool.Dispatch | pkg/microservice/aslan/core/workflow/service/jobcontroller/job.go:104-107 | the send loop hands out tasks in order until the first "deploy", whose fault ends it; the pool's tasks, trace and log are those of the drain of the handed-out tasks |
| JobRunner.Pool.Turn | pkg/microservice/aslan/core/workflow/service/jobcontroller/job.go:106-121 | one hand-out extends the drain of the tasks before it by one task |
| JobRunner.Pool.Work | pkg/microservice/aslan/core/workflow/service/jobcontroller/job.go:116-121 | one hand-out: the task's state and the trace are those of `runJob` from its old state, its times are the clock readings, its properties get the defaults, its start and finish lines (the latter with its final status) are logged, no other task changes, and `wg.Done` is counted unless `runJob` faults |
| RoleService.RequestRoleType | pkg/microservice/user/core/service/permission/role.go:54-58 | the role is a system role iff the request type is "system", otherwise custom |
| RoleService.ConvertDBRoleType | pkg/microservice/user/core/service/permission/role.go:277-282 | the stored type reads "system" iff it is RoleTypeSystem, otherwise "custom" |
| RoleService.RoleTypeRoundTrip | pkg/microservice/user/core/service/permission/role.go:54-58 | "system" and "custom" survive storing and reading back, and so do the two stored types |
| RoleService.FindRole | pkg/microservice/user/core/service/permission/role.go:99-104 | the index of a role with that name and namespace, or -1 iff there is none |
| RoleService.Visible | pkg/microservice/user/core/service/permission/role.go:71-76 | a failing lookup query finds no verb; a working one sees the whole action table |
| RoleService.FindAction | pkg/microservice/user/core/service/permission/role.go:71-76 | an action of the table with that verb, or none iff no action has it |
| RoleService.RolesIn | pkg/microservice/user/core/service/permission/role.go:146 | exactly the roles of the namespace |
| RoleService.RolesOfUser | pkg/microservice/user/core/service/permission/role.go:167 | exactly the roles of the namespace bound to the user |
| RoleService.ActionsOfRole | pkg/microservice/user/core/service/permission/role.go:194 | exactly the actions whose IDs are bound to the role |
| RoleService.Views | pkg/microservice/user/core/service/permission/role.go:152-161 | one view per role, in order, with the type converted |
| RoleService.ListAnswer | pkg/microservice/user/core/service/permission/role.go:145-164 | a list fails iff the store fails with something other than "record not found", which yields an empty list |
| RoleService.ResolveOnlyAddsToCache | pkg/microservice/user/core/service/permission/role.go:67-80 | resolving verbs never removes or overwrites a cache entry |
| RoleService.ResolveResult | pkg/microservice/user/core/service/permission/role.go:67-80 | resolving succeeds iff every verb is cached or in the table; then the ID list has the verbs' length and order and each ID is the cache entry of its verb |
| RoleService.ResolveFailureKeepsEarlierEntries | pkg/microservice/user/core/service/permission/role.go:67-80 | an unknown verb fails the resolution, and the verbs before it stay cached |
| RoleService.ResolveCachedIgnoresTable | pkg/microservice/user/core/service/permission/role.go:70 | cached verbs are never looked up again: the table does not matter and the cache is unchanged |
| RoleService.ResolveWithFailingLookup | pkg/microservice/user/core/service/permission/role.go:69-76 | while the action lookup query fails, resolution succeeds iff every verb is already cached |
| RoleService.ResolveIsStable | pkg/microservice/user/core/service/permission/role.go:67-80 | after a successful resolution, resolving the same verbs again gives the same IDs against any table |
| RoleService.LeastExists | pkg/microservice/user/core/service/permission/role.go:214 | a non-empty verb set has a least element, which is what a sorted listing starts from |
| RoleService.SortedList | pkg/microservice/user/core/service/permission/role.go:214 | the listing of a verb set is strictly sorted and holds exactly its members |
| RoleService.Grouped | pkg/microservice/user/core/service/permission/role.go:200-208 | the resources are exactly those of the actions, and each resource's set holds exactly its actions' verbs |
| RoleService.GroupActions | pkg/microservice/user/core/service/permission/role.go:200-208 | the grouping loop builds `Grouped` of the role's actions |
| RoleService.ListedOneMore | pkg/microservice/user/core/service/permission/role.go:210-216 | listing one more resource with its sorted verbs keeps the listing invariant |
| RoleService.ListGroups | pkg/microservice/user/core/service/permission/role.go:210-216 | one entry per resource, no resource twice, each with exactly its verbs, sorted and without duplicates |
| RoleService.RoleService.ResolveActionIDs | pkg/microservice/user/core/service/permission/role.go:67-80 | the ID list and the new cache are those of `Resolve` on the old cache, against the action table or, when the lookup query fails, against none |
| RoleService.RoleService.CreateRole | pkg/microservice/user/core/service/permission/role.go:45-92 | succeeds iff the insert, every verb's lookup and the binding succeed; then the role with the mapped type and exactly the resolved ID list are committed; otherwise nothing is, while verbs resolved before the failure stay cached |
| RoleService.RoleService.UpdateRole | pkg/microservice/user/core/service/permission/role.go:95-143 | a failing role query or a missing role is an error with the source's message; on success the role's bindings are replaced by exactly the new list and only its description changes, unless that update fails, which is ignored; any other failure commits nothing |
| RoleService.RoleService.ListRolesByNamespace | pkg/microservice/user/core/service/permission/role.go:145-164 | fails iff the store fails other than "not found"; otherwise lists exactly the views of the namespace's roles |
| RoleService.RoleService.ListRolesByNamespaceAndUserID | pkg/microservice/user/core/service/permission/role.go:166-185 | the same for the namespace's roles bound to the user |
| RoleService.RoleService.GetRole | pkg/microservice/user/core/service/permission/role.go:187-228 | a failing role query is an error with its message; succeeds iff the role query works, the role exists and its actions can be listed; then it carries the role's fields, the converted type and the role's actions grouped by resource |
| RoleService.RoleService.DeleteRole | pkg/microservice/user/core/service/permission/role.go:230-237 | on success exactly the roles with that name and namespace are gone; on failure nothing changes |
| RoleService.RoleService.CreateDefaultRolesForNamespace | pkg/microservice/user/core/service/permission/role.go:239-266 | on success exactly the system roles project-admin, read-only and read-project-only are added to the namespace; on failure nothing changes |
| RoleService.Without | pkg/microservice/user/core/service/permission/role.go:231 | exactly the roles that do not have that name and namespace |
| RoleHandler.NamesPremiumVerb | pkg/microservice/user/core/handler/permission/role.go:92-101 | true iff the request names a verb of the gated set |
| RoleHandler.ProductionServiceWritesAreNotGated | pkg/microservice/user/core/handler/permission/role.go:96-97 | a request naming only the create, edit and delete production-service verbs passes the gate |
| RoleHandler.CreateRoleDecision | pkg/microservice/user/core/handler/permission/role.go:36-108 | the service is called iff the body reads, auth info exists, the namespace is set, the caller is authorized, the licence answers, and it is premium-normal or no gated verb is named; UnAuthorized is set iff auth info fails or the caller is not authorized, and never with a call |
| RoleHandler.UpdateRoleDecision | pkg/microservice/user/core/handler/permission/role.go:110-184 | the service is called iff the body reads, auth info exists, the namespace is set and the caller is authorized; the name is the path parameter |
| RoleHandler.UpdateIsNotLicenceGated | pkg/microservice/user/core/handler/permission/role.go:160-183 | an authorized update is called even with a gated verb and a licence that makes the same create fail with ErrLicenseInvalid |
| RoleHandler.ListRolesDecision | pkg/microservice/user/core/handler/permission/role.go:186-201 | no call iff the namespace is empty; otherwise by namespace when uid is empty and by namespace and user otherwise; never unauthorized |
| RoleHandler.DeleteChecksNamespaceFirst | pkg/microservice/user/core/handler/permission/role.go:216-232 | delete checks the namespace before auth info, create after it |
| RoleHandler.UnauthorisedCallersReachNothing | pkg/microservice/user/core/handler/permission/role.go:70-82 | an unauthorized caller reaches no create, update or delete call and is marked UnAuthorized |
| RoleHandler.WildcardNeedsSystemAdmin | pkg/microservice/user/core/handler/permission/role.go:70-74 | the "*" namespace is authorized iff the caller is system admin |
| RoleHandler.Context.CheckProjectAdmin | pkg/microservice/user/core/handler/permission/role.go:70-82 | returns the authorization predicate and sets UnAuthorized when it fails |
| RoleHandler.CreateRole | pkg/microservice/user/core/handler/permission/role.go:36-108 | the filled response is `CreateRoleResponse` |
| RoleHandler.UpdateRole | pkg/microservice/user/core/handler/permission/role.go:110-184 | the filled response is `UpdateRoleResponse` |
| RoleHandler.ListRoles | pkg/microservice/user/core/handler/permission/role.go:186-201 | the filled response is `ListRolesResponse` |
| RoleHandler.GetRole | pkg/microservice/user/core/handler/permission/role.go:203-214 | the filled response is `GetRoleResponse` |
| RoleHandler.DeleteRole | pkg/microservice/user/core/handler/permission/role.go:216-252 | the filled response is `DeleteRoleResponse` |
| ProjectManagement.Redacted | pkg/microservice/aslan/core/system/handler/project_management.go:74-81 | the six credential fields are "" and the identity and host fields are kept |
| ProjectManagement.RedactionHidesExactlyTheCredentials | pkg/microservice/aslan/core/system/handler/project_management.go:74-81 | two records redact alike iff they agree on every field except the six credentials |
| ProjectManagement.RedactedIsIdempotent | pkg/microservice/aslan/core/system/handler/project_management.go:74-81 | redacting twice is redacting once |
| ProjectManagement.RedactedList | pkg/microservice/aslan/core/system/handler/project_management.go:73-83 | one redacted record per record, in order |
| ProjectManagement.RedactAll | pkg/microservice/aslan/core/system/handler/project_management.go:74-81 | the loop redacts every record of the array in place |
| ProjectManagement.Validator | pkg/microservice/aslan/core/system/handler/project_management.go:206-213 | Jira records go to the Jira validator, Meego records to the Meego validator, and there is a validator iff the type is one of the two |
| ProjectManagement.ServiceError | pkg/microservice/aslan/core/system/handler/project_management.go:122 | the response has no error iff the service passed |
| ProjectManagement.Context.CheckSystemAdmin | pkg/microservice/aslan/core/system/handler/project_management.go:39-50 | passes iff auth info exists and the caller is system admin; an auth-info failure sets its message; any failure sets UnAuthorized |
| ProjectManagement.CheckBodyAndLicence | pkg/microservice/aslan/core/system/handler/project_management.go:102-120 | passes iff the body binds, the licence answers and a Meego host needs no licence or has a premium-normal one; sets the error of the first failing check |
| ProjectManagement.AuthInfoFailureStopsEveryHandler | pkg/microservice/aslan/core/system/handler/project_management.go:39-44 | without auth info, every handler answers that error with UnAuthorized and no service call |
| ProjectManagement.NonAdminsReachOnlyTheProjectList | pkg/microservice/aslan/core/system/handler/project_management.go:47-50 | a non-admin gets UnAuthorized and no call from list, create, update, delete and validate; the per-project list still calls the service |
| ProjectManagement.CreateLicenceGate | pkg/microservice/aslan/core/system/handler/project_management.go:108-120 | a licence lookup error aborts create even without a Meego host; a Meego host with a licence that is not premium-normal yields ErrLicenseInvalid; create is called iff every check passes |
| ProjectManagement.UpdateGateMatchesCreate | pkg/microservice/aslan/core/system/handler/project_management.go:147-159 | update answers as create does, except that it calls update with the path ID |
| ProjectManagement.ValidateDispatch | pkg/microservice/aslan/core/system/handler/project_management.go:206-213 | Jira and Meego records are validated by their own validator; any other type yields "invalid type" with no call |
| ProjectManagement.ProjectListIsRedacted | pkg/microservice/aslan/core/system/handler/project_management.go:73-83 | the per-project list is the redacted service list, in order, with the service's error |
| ProjectManagement.UsernameSubstitution | pkg/microservice/aslan/core/system/handler/project_management.go:242 | every `{{.system.username}}` in the JQL is replaced by the user name: the JQL split at the variable, rejoined with the name; a JQL without it is unchanged |
| ProjectManagement.List | pkg/microservice/aslan/core/system/handler/project_management.go:35-53 | the filled response is `ListResponse` |
| ProjectManagement.ListForProject | pkg/microservice/aslan/core/system/handler/project_management.go:62-84 | the filled response is `ListForProjectResponse` |
| ProjectManagement.Create | pkg/microservice/aslan/core/system/handler/project_management.go:86-123 | the filled response is `CreateResponse` |
| ProjectManagement.Update | pkg/microservice/aslan/core/system/handler/project_management.go:125-162 | the filled response is `UpdateResponse` |
| ProjectManagement.Delete | pkg/microservice/aslan/core/system/handler/project_management.go:164-182 | the filled response is `DeleteResponse` |
| ProjectManagement.Validate | pkg/microservice/aslan/core/system/handler/project_management.go:184-214 | the filled response is `ValidateResponse` |
| ProjectManagement.SearchWithJQL | pkg/microservice/aslan/core/system/handler/project_management.go:236-243 | the filled response is `SearchWithJQLResponse` |
| WorkflowV4.FindByName | pkg/microservice/aslan/core/workflow/service/workflow/workflow_v4.go:33 | the index of the first workflow with that name, or -1 iff there is none |
| WorkflowV4.FindAnswer | pkg/microservice/aslan/core/workflow/service/workflow/workflow_v4.go:62 | the find succeeds iff the store answers and a workflow has the name, and then points at one |
| WorkflowV4.RemoveID | pkg/microservice/aslan/core/workflow/service/workflow/workflow_v4.go:106 | exactly the documents with another ID remain |
| WorkflowV4.ReplaceID | pkg/microservice/aslan/core/workflow/service/workflow/workflow_v4.go:81-84 | every document with the ID is replaced and every other one is kept in place |
| WorkflowV4.InstantiateFrom | pkg/microservice/aslan/core/workflow/service/workflow/workflow_v4.go:44-51 | instantiation keeps the stage and job shape and changes nothing but the jobs |
| WorkflowV4.InstantiateAgainstFixed | pkg/microservice/aslan/core/workflow/service/workflow/workflow_v4.go:72-79 | against a fixed workflow, instantiation succeeds iff every remaining job does, and each remaining job becomes its instantiation while earlier jobs are kept |
| WorkflowV4.NoJobsNothingToInstantiate | pkg/microservice/aslan/core/workflow/service/workflow/workflow_v4.go:44-51 | a workflow without jobs instantiates to itself |
| WorkflowV4.InstantiateJobs | pkg/microservice/aslan/core/workflow/service/workflow/workflow_v4.go:44-51 | the nested stage/job loop computes `InstantiateFrom` from the first job |
| WorkflowV4.InstantiateStage | pkg/microservice/aslan/core/workflow/service/workflow/workflow_v4.go:45-50 | the inner loop over one stage's jobs either fails as `InstantiateFrom` does or leaves the rest of the work unchanged |
| WorkflowV4.CreateRejectsDuplicates | pkg/microservice/aslan/core/workflow/service/workflow/workflow_v4.go:33-37 | a create whose name exists fails with ErrUpsertWorkflow and stores nothing |
| WorkflowV4.CreateOutcome | pkg/microservice/aslan/core/workflow/service/workflow/workflow_v4.go:32-59 | a create either fails and stores nothing, or appends the workflow under a fresh ID, created and updated by the user at the given time, with its shape kept; an instantiation failure stores nothing |
| WorkflowV4.CreateKeepsStoreValid | pkg/microservice/aslan/core/workflow/service/workflow/workflow_v4.go:32-59 | create keeps IDs distinct and below the next ID, and keeps names unique while the find answers |
| WorkflowV4.UpdateOutcome | pkg/microservice/aslan/core/workflow/service/workflow/workflow_v4.go:61-89 | a missing workflow yields ErrFindWorkflow and no change; a successful update replaces only the found document by the input with the stored ID, the user as updater and update time now, and nothing else of the input changed except that each job is instantiated against the stored workflow |
| WorkflowV4.UpdateKeepsStoreValid | pkg/microservice/aslan/core/workflow/service/workflow/workflow_v4.go:61-89 | update keeps IDs distinct and below the next ID |
| WorkflowV4.DeleteOutcome | pkg/microservice/aslan/core/workflow/service/workflow/workflow_v4.go:100-115 | a missing workflow or a failed delete yields ErrDeleteWorkflow and no change; otherwise the document is gone, the others stay, and the `WorkflowTaskV4:` counter is removed unless removing it fails, which is not an error |
| WorkflowV4.DeleteKeepsStoreValid | pkg/microservice/aslan/core/workflow/service/workflow/workflow_v4.go:100-115 | delete keeps IDs distinct and below the next ID |
| WorkflowV4.RemoveIDKeepsValid | pkg/microservice/aslan/core/workflow/service/workflow/workflow_v4.go:106 | removing by ID keeps the store valid |
| WorkflowV4.WorkflowStore.Find | pkg/microservice/aslan/core/workflow/service/workflow/workflow_v4.go:33 | the lookup loop returns `FindAnswer` |
| WorkflowV4.WorkflowStore.Insert | pkg/microservice/aslan/core/workflow/service/workflow/workflow_v4.go:53 | the document is appended under the next ID |
| WorkflowV4.WorkflowStore.Update | pkg/microservice/aslan/core/workflow/service/workflow/workflow_v4.go:81-84 | the documents become `ReplaceID` of the old ones |
| WorkflowV4.WorkflowStore.DeleteByID | pkg/microservice/aslan/core/workflow/service/workflow/workflow_v4.go:106 | the documents become `RemoveID` of the old ones |
| WorkflowV4.WorkflowStore.DeleteCounter | pkg/microservice/aslan/core/workflow/service/workflow/workflow_v4.go:111 | only that counter is removed |
| WorkflowV4.CreateWorkflowV4 | pkg/microservice/aslan/core/workflow/service/workflow/workflow_v4.go:32-59 | the new store and error are those of `CreateSpec` |
| WorkflowV4.UpdateWorkflowV4 | pkg/microservice/aslan/core/workflow/service/workflow/workflow_v4.go:61-89 | the new store and error are those of `UpdateSpec` |
| WorkflowV4.DeleteWorkflowV4 | pkg/microservice/aslan/core/workflow/service/workflow/workflow_v4.go:100-115 | the new store and error are those of `DeleteSpec` |
| WorkflowV4.StageNames | pkg/microservice/aslan/core/workflow/service/workflow/workflow_v4.go:134-137 | the stage names, in order |
| WorkflowV4.ListWorkflowV4 | pkg/microservice/aslan/core/workflow/service/workflow/workflow_v4.go:117-147 | on either list error nothing and 0; otherwise the legacy workflows first, then one "common_workflow" entry per v4 workflow in order with its name, project, create time and stage names, and the v4 total |

## Left out

- Concurrency is not modelled. This covers the pool's goroutines, unbuffered channel and `WaitGroup`, and the detached cleanup goroutine. Pool draining is one sequential loop. A scheduled cleanup is a call in the trace.
- JobRunner.Pool.Run: with concurrency ≤ 0 and a non-empty list the source blocks forever on the first send. The model requires `concurrency > 0` or an empty list.
- JobRunner.Pool.Run: requires that no task is listed twice. The same task listed twice would be run by two workers at once, a data race the model does not capture.
- JobRunner.RunJob: a "deploy" task leaves the controller nil, so `jobCtl.Run` panics after the deferred block. The model returns an explicit `NilControllerFault` instead, and the pool stops draining on it.
- Time is an input. `time.Now()` stamps are parameters, and the `time.After` timeouts are only passed on to the watchers.
- These are oracles with one answer per call, and their bodies are not modelled:
  - the Kubernetes clients, informers and `yaml.Marshal`;
  - the MongoDB collections;
  - the step controller's prepare and summarize;
  - the four wait functions;
  - `getBaseImage`, `getMatchedRegistries` and `dockerhost.GetBestHost`.
- FreestyleJob.FreestyleJobCtl.LogError: the body of `logError` is not part of this model. It is modelled as setting status Failed with the message.
- FreestyleJob.FreestyleJobCtl.DispatchVM: the run context is never nil in the model, so the VM record always carries the run's project, workflow and task.
- Logging is not modelled. That covers `zap` messages, except the `runJob` start and finish lines, and the operation-log inserts of the role handlers.
- Constants defined outside these files take stand-in values; only their distinctness matters. This covers the verb names, role-type numbers, `LocalClusterID`, `MinRequest` and the status strings.
- WorkflowV4.CreateSpec: the duplicate-name message is the source's message rendered in English.
- The ORM functions' bodies are not part of this model. `orm.*` is an abstract relational store. Each call may fail through one `DbFaults` entry per call site. A failing `GetActionByVerb` fails every lookup of that request.
- Transactions are modelled by committing nothing on failure, not by begin/rollback state.
- `DeleteAllRolesInNamespace` and `FindWorkflowV4` are single store calls with error wrapping and are not modelled separately.
- gin binding and raw-data reading are modelled as results handed to the handler. The licence HTTP call is an input. The Jira and Meego service calls are recorded, not executed.
- `ListJiraProjects`, `SearchJiraIssues`, `GetJiraTypes`, `GetJiraAllStatus`, `HandleJiraEvent` and `HandleMeegoEvent` pass their parameters straight to the service and are not modelled.
- WorkflowV4.CreateWorkflowV4: Go mutates the caller's workflow struct even when the create fails. The model takes the workflow as a value, so that mutation is not visible.
- ProjectManagement.RedactAll: Go clears the fields through shared pointers. The model redacts an array of values in place, so aliasing of the records is not modelled.
- WorkflowV4.ListWorkflowV4: paging and the project filter are done by the store. The page and total are inputs, and so is the legacy list.
- Every operation of the role service is over the whole store. The per-call `repository.DB` handle and gorm's SQL are not modelled.
