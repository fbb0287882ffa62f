/** The freestyle job lifecycle controller of
    `workflowcontroller/jobcontroller/job_freestyle.go`.

    One `FreestyleJobCtl` drives one `JobTask` through prepare -> dispatch ->
    wait -> complete. The task record is a class whose `status`, `error` and
    `spec` the controller's methods update in place. Every backend call
    (Kubernetes, MongoDB, the step controller, the completion watchers) is an
    oracle: its answer comes from the `Answers` value the controller is built
    with, and the call itself is appended to a `Recorder`, so that the order of
    calls is part of the observable state. Each phase method is proved equal to
    a pure phase function (`PrepareSpec`, `ClusterDispatchSpec`, ...), and the
    sequencing, error-precedence and cleanup properties are proved about those
    functions. */
module FreestyleJob {
  import opened Results
  import opened GoStrings

  // Constants of the package and of `setting` / `config`.
  const DindServer := "dind"
  const KoderoverAgentNamespace := "koderover-agent"
  const AttachedClusterNamespace := "koderover-agent"
  const LocalClusterID := "0123456789abcdef12345678"
  const MinRequest := "low"
  const JobVMInfrastructure := "vm"
  const DefaultTimeout := 600
  /** Prefix and suffix of an unresolved `{{.job...}}` placeholder. */
  const PlaceholderPrefix := "{{.job"
  const PlaceholderSuffix := "}}"
  /** `config.StatusCancel`, the word the cancelled write-back error message uses. */
  const CancelWord := "cancel"
  const TimeoutWord := "timeout"

  datatype Status = Unset | Created | Running | Passed | Failed | Cancelled | Timeout

  datatype KeyVal = KeyVal(key: string, value: string, isCredential: bool)

  /** `JobTaskFreestyleSpec.Properties`: the fields the controller reads or writes. */
  datatype Properties = Properties(
    timeout: int,
    resourceRequest: string,
    clusterID: string,
    namespace: string,
    dockerHost: string,
    registries: seq<string>,
    envs: seq<KeyVal>,
    paths: string,
    cacheEnable: bool,
    cacheDirType: string,
    cacheUserDir: string)

  datatype StepTask = StepTask(name: string, stepType: string)

  datatype FreestyleSpec = FreestyleSpec(properties: Properties, steps: seq<StepTask>)

  datatype Output = Output(name: string)

  /** The run-wide context every job of one workflow run reads. */
  datatype WorkflowTaskCtx = WorkflowTaskCtx(
    workflowName: string,
    workflowDisplayName: string,
    projectName: string,
    taskID: int,
    workspace: string)

  datatype CacheConfig = CacheConfig(cacheEnable: bool, cacheDirType: string, cacheUserDir: string)

  /** What the executor receives: plain and secret `KEY=VALUE` lines, the outputs to capture, ... */
  datatype JobContext = JobContext(
    name: string,
    envs: seq<string>,
    secretEnvs: seq<string>,
    workflowName: string,
    workspace: string,
    taskID: int,
    outputs: seq<string>,
    steps: seq<StepTask>,
    paths: string,
    configMapName: string,
    cache: Option<CacheConfig>)

  /** The label pair cluster objects of one job are matched by. */
  datatype JobLabel = JobLabel(jobType: string, jobName: string)

  /** The record a VM job is persisted as (the serialised context kept as its value). */
  datatype VMJob = VMJob(
    projectName: string,
    workflowName: string,
    taskID: int,
    jobName: string,
    jobType: string,
    jobOriginName: string,
    jobCtx: JobContext,
    vmLabels: seq<string>,
    status: Status)

  datatype JobInfo = JobInfo(
    jobType: string,
    workflowName: string,
    workflowDisplayName: string,
    taskID: int,
    productName: string,
    startTime: int,
    endTime: int,
    duration: int,
    status: Status)

  /** The properties `runJob` defaults (the task record's own `Properties`). */
  datatype JobProperties = JobProperties(timeout: int, resourceRequest: string, clusterID: string)

  /** A call into the world outside the controller, in the order it was made. */
  datatype Event =
    | PrepareSteps(jobName: string)
    | Ack
    | GetK8sClients(clusterID: string)
    | DeleteConfigMap(namespace: string, jobLabel: JobLabel)
    | CreateConfigMap(namespace: string, name: string, jobLabel: JobLabel, data: JobContext)
    | DeleteJob(namespace: string, jobLabel: JobLabel)
    | CreateSecrets(namespace: string, registries: seq<string>)
    | CreateJob(namespace: string, name: string)
    | GetKubeClientSet(clusterID: string)
    | NewInformer(clusterID: string, namespace: string)
    | WaitJobStart(namespace: string, name: string, timeout: int)
    | WaitJobEnd(namespace: string, name: string)
    | ReadOutputs(namespace: string, jobName: string)
    | SaveContainerLog(namespace: string, clusterID: string, jobName: string)
    | CleanupCluster(namespace: string, jobLabel: JobLabel)
    | CreateVMJob(record: VMJob)
    | WaitVMJobStart(id: string, timeout: int)
    | WaitVMJobEnd(id: string)
    | UpdateVMJobStatus(id: string, status: Status)
    | FindVMJob(id: string)
    | WriteOutputs(jobKey: string, outputs: seq<string>)
    | CleanupVMJob(id: string, status: Status)
    | SummarizeSteps(jobName: string)
    | SaveJobInfo(info: JobInfo)

  /** A status with the error the start-watcher returned beside it. */
  datatype WaitStart = WaitStart(status: Status, err: Outcome)

  /** What `getVMJobOutputFromJobDB`'s lookup finds. */
  datatype FindAnswer = FindFailed(error: string) | NotFound | Found(outputs: seq<string>)

  /** One answer per backend call; each call is made at most once per run. */
  datatype Answers = Answers(
    prepareSteps: Outcome,
    k8sClients: Outcome,
    podNamespace: string,
    aslanNamespace: string,
    bestHost: string,
    marshal: Outcome,
    deleteConfigMap: Outcome,
    createConfigMap: Outcome,
    matchedRegistries: seq<string>,
    buildJob: Outcome,
    deleteJob: Outcome,
    createSecrets: Outcome,
    createJob: Outcome,
    kubeClientSet: Outcome,
    informer: Outcome,
    jobInfo: Result<string>,
    createVMJob: Result<string>,
    waitStart: WaitStart,
    waitEnd: (Status, string),
    updateVMStatus: Outcome,
    outputs: Outcome,
    saveLog: Outcome,
    summarize: Outcome,
    findVMJob: FindAnswer,
    saveInfo: Outcome)

  /** `commonmodels.JobTask`: identity fixed at creation, the rest updated in place. */
  class JobTask {
    const name: string
    const key: string
    const jobType: string
    const k8sJobName: string
    const infrastructure: string
    const outputs: seq<Output>
    const vmLabels: seq<string>
    var status: Status
    var error: string
    var startTime: int
    var endTime: int
    var spec: FreestyleSpec
    var properties: JobProperties

    constructor (name: string, key: string, jobType: string, k8sJobName: string, infrastructure: string,
                 outputs: seq<Output>, vmLabels: seq<string>, spec: FreestyleSpec, properties: JobProperties)
      ensures this.name == name && this.key == key && this.jobType == jobType
      ensures this.k8sJobName == k8sJobName && this.infrastructure == infrastructure
      ensures this.outputs == outputs && this.vmLabels == vmLabels
      ensures this.spec == spec && this.properties == properties
      ensures status == Unset && error == "" && startTime == 0 && endTime == 0
    {
      this.name, this.key, this.jobType, this.k8sJobName := name, key, jobType, k8sJobName;
      this.infrastructure, this.outputs, this.vmLabels := infrastructure, outputs, vmLabels;
      this.spec, this.properties := spec, properties;
      status, error, startTime, endTime := Unset, "", 0, 0;
    }
  }

  /** The outside world as seen from the job: every backend call and every `ack()`. */
  class Recorder {
    var events: seq<Event>

    constructor ()
      ensures events == []
    {
      events := [];
    }

    method Emit(e: Event)
      modifies this
      ensures events == old(events) + [e]
    {
      events := events + [e];
    }
  }

  // ---------------------------------------------------------------------------
  // Pure transformations

  predicate IsPlaceholder(v: string) {
    HasPrefix(v, PlaceholderPrefix) && HasSuffix(v, PlaceholderSuffix)
  }

  /** prepare's env loop: unresolved `{{.job...}}` values become "", nothing else changes. */
  function ClearPlaceholders(envs: seq<KeyVal>): (r: seq<KeyVal>)
    ensures |r| == |envs|
    ensures forall i :: 0 <= i < |envs| ==>
      && r[i].key == envs[i].key && r[i].isCredential == envs[i].isCredential
      && (IsPlaceholder(envs[i].value) ==> r[i].value == "")
      && (!IsPlaceholder(envs[i].value) ==> r[i] == envs[i])
  {
    seq(|envs|, i requires 0 <= i < |envs| =>
      if IsPlaceholder(envs[i].value) then envs[i].(value := "") else envs[i])
  }

  /** The envs with the first `n` cleared, as the env loop leaves them after `n` rounds. */
  function ClearedUpTo(envs: seq<KeyVal>, n: nat): seq<KeyVal> {
    seq(|envs|, i requires 0 <= i < |envs| =>
      if i < n && IsPlaceholder(envs[i].value) then envs[i].(value := "") else envs[i])
  }

  /** The properties after prepare: placeholders cleared, defaults filled in where unset. */
  function Prepared(p: Properties): (r: Properties)
    ensures r.envs == ClearPlaceholders(p.envs)
    ensures r.timeout > 0 && (p.timeout > 0 ==> r.timeout == p.timeout)
    ensures p.timeout <= 0 ==> r.timeout == DefaultTimeout
    ensures r.resourceRequest != "" && (p.resourceRequest != "" ==> r.resourceRequest == p.resourceRequest)
    ensures p.resourceRequest == "" ==> r.resourceRequest == MinRequest
    ensures r.clusterID != "" && (p.clusterID != "" ==> r.clusterID == p.clusterID)
    ensures p.clusterID == "" ==> r.clusterID == LocalClusterID
    ensures r.(envs := p.envs, timeout := p.timeout, resourceRequest := p.resourceRequest, clusterID := p.clusterID) == p
  {
    p.(envs := ClearPlaceholders(p.envs),
       timeout := if p.timeout <= 0 then DefaultTimeout else p.timeout,
       resourceRequest := if p.resourceRequest == "" then MinRequest else p.resourceRequest,
       clusterID := if p.clusterID == "" then LocalClusterID else p.clusterID)
  }

  /** Preparing twice changes nothing more than preparing once. */
  lemma PreparedIsIdempotent(p: Properties)
    ensures Prepared(Prepared(p)) == Prepared(p)
  {
    var q := Prepared(p);
    forall i | 0 <= i < |q.envs| ensures ClearPlaceholders(q.envs)[i] == q.envs[i] {
      if IsPlaceholder(p.envs[i].value) {
        assert q.envs[i].value == "";
        assert !HasPrefix("", PlaceholderPrefix);
      }
    }
    assert ClearPlaceholders(q.envs) == q.envs;
  }

  predicate IsRemoteCluster(clusterID: string) {
    clusterID != "" && clusterID != LocalClusterID
  }

  /** The docker-host address rewrite of `run`, given the address `GetBestHost`
      chose and the system namespace. */
  function RewriteDockerHost(clusterID: string, host: string, ns: string): (r: string)
    ensures IsRemoteCluster(clusterID) && Contains(host, ns) ==>
      var i := Index(host, ns);
      r == host[..i] + KoderoverAgentNamespace + host[i + |ns|..]
    ensures IsRemoteCluster(clusterID) && !Contains(host, ns) && Contains(host, "." + DindServer) ==>
      var i := Index(host, "." + DindServer) + |"." + DindServer|;
      r == host[..i] + "." + KoderoverAgentNamespace + host[i..]
    ensures !IsRemoteCluster(clusterID) && !Contains(host, ns) && Contains(host, "." + DindServer) ==>
      var i := Index(host, "." + DindServer) + |"." + DindServer|;
      r == host[..i] + "." + ns + host[i..]
    ensures !IsRemoteCluster(clusterID) && Contains(host, ns) ==> r == ""
    ensures !Contains(host, ns) && !Contains(host, "." + DindServer) ==> r == host
  {
    var dind := "." + DindServer;
    if IsRemoteCluster(clusterID) then
      if Contains(host, ns) then
        Replace1(host, ns, KoderoverAgentNamespace)
      else
        InsertedAfter(host, dind, "." + KoderoverAgentNamespace);
        Replace1(host, dind, dind + "." + KoderoverAgentNamespace)
    else if !Contains(host, ns) then
      InsertedAfter(host, dind, "." + ns);
      Replace1(host, dind, dind + "." + ns)
    else ""
  }

  /** Replacing the first `pat` by `pat + ins` inserts `ins` right after it. */
  lemma InsertedAfter(s: string, pat: string, ins: string)
    ensures Contains(s, pat) ==>
      var i := Index(s, pat) + |pat|;
      Replace1(s, pat, pat + ins) == s[..i] + ins + s[i..]
  {
    if Contains(s, pat) {
      var j := Index(s, pat);
      var i := j + |pat|;
      assert s[..j] + pat == s[..i];
      calc {
        Replace1(s, pat, pat + ins);
        s[..j] + (pat + ins) + s[i..];
        s[..i] + ins + s[i..];
      }
    }
  }

  /** One env as the executor receives it: the key and the value joined by `=`. */
  function EnvLine(e: KeyVal): string {
    e.key + "=" + e.value
  }

  /** The env loop of BuildJobExcutorContext: (plain lines, secret lines). */
  function SplitEnvs(envs: seq<KeyVal>): (r: (seq<string>, seq<string>))
    ensures |r.0| + |r.1| == |envs|
  {
    if envs == [] then ([], [])
    else
      var rest := SplitEnvs(envs[1..]);
      if envs[0].isCredential then (rest.0, [EnvLine(envs[0])] + rest.1)
      else ([EnvLine(envs[0])] + rest.0, rest.1)
  }

  /** Reference definition: the envs whose credential flag is `credential`, in order. */
  function Select(envs: seq<KeyVal>, credential: bool): seq<KeyVal> {
    if envs == [] then []
    else if envs[0].isCredential == credential then [envs[0]] + Select(envs[1..], credential)
    else Select(envs[1..], credential)
  }

  function Lines(envs: seq<KeyVal>): (r: seq<string>)
    ensures |r| == |envs| && forall i :: 0 <= i < |envs| ==> r[i] == EnvLine(envs[i])
  {
    seq(|envs|, i requires 0 <= i < |envs| => EnvLine(envs[i]))
  }

  /** Plain envs go to the first list, credentials to the second, each in the original order. */
  lemma {:induction false} SplitEnvsSelects(envs: seq<KeyVal>)
    ensures SplitEnvs(envs).0 == Lines(Select(envs, false))
    ensures SplitEnvs(envs).1 == Lines(Select(envs, true))
  {
    if envs != [] {
      SplitEnvsSelects(envs[1..]);
    }
  }

  /** The executor's reading of one `KEY=VALUE` line: split at the first `=`. */
  function ParseEnvLine(line: string): (r: (string, string)) {
    var i := Index(line, "=");
    if i < 0 then (line, "") else (line[..i], line[i + 1..])
  }

  /** A line built from a key without `=` reads back as that key and value. */
  lemma EnvLineRoundTrip(e: KeyVal)
    requires !Contains(e.key, "=")
    ensures ParseEnvLine(EnvLine(e)) == (e.key, e.value)
  {
    var line := EnvLine(e);
    assert OccursAt(line, "=", |e.key|);
    var r := Index(line, "=");
    if r < |e.key| {
      assert line[r..r + 1] == e.key[r..r + 1];
      assert OccursAt(e.key, "=", r);
    }
    assert r == |e.key|;
    assert line[..r] == e.key;
    assert line[r + 1..] == e.value;
  }

  function Pairs(envs: seq<KeyVal>): seq<(string, string)> {
    seq(|envs|, i requires 0 <= i < |envs| => (envs[i].key, envs[i].value))
  }

  function ParseLines(lines: seq<string>): seq<(string, string)> {
    seq(|lines|, i requires 0 <= i < |lines| => ParseEnvLine(lines[i]))
  }

  /** Reading back the lines of envs whose keys hold no `=` gives their pairs. */
  lemma LinesRoundTrip(envs: seq<KeyVal>)
    requires forall e :: e in envs ==> !Contains(e.key, "=")
    ensures ParseLines(Lines(envs)) == Pairs(envs)
  {
    forall i | 0 <= i < |envs| ensures ParseEnvLine(EnvLine(envs[i])) == (envs[i].key, envs[i].value) {
      EnvLineRoundTrip(envs[i]);
    }
  }

  /** Round trip of the execution context: reading the two env lists back gives
      the plain and the secret key/value pairs, each in order, kept apart. */
  lemma EnvsRoundTrip(envs: seq<KeyVal>)
    requires forall e :: e in envs ==> !Contains(e.key, "=")
    ensures ParseLines(SplitEnvs(envs).0) == Pairs(Select(envs, false))
    ensures ParseLines(SplitEnvs(envs).1) == Pairs(Select(envs, true))
  {
    SplitEnvsSelects(envs);
    SelectKeeps(envs, false);
    SelectKeeps(envs, true);
    LinesRoundTrip(Select(envs, false));
    LinesRoundTrip(Select(envs, true));
  }

  /** Every selected env comes from `envs` and has the requested flag. */
  lemma {:induction false} SelectKeeps(envs: seq<KeyVal>, credential: bool)
    ensures forall e :: e in Select(envs, credential) ==> e in envs && e.isCredential == credential
  {
    if envs != [] {
      SelectKeeps(envs[1..], credential);
    }
  }

  /** BuildJobExcutorContext. */
  function BuildJobExecutorContext(spec: FreestyleSpec, job: JobTask, wctx: WorkflowTaskCtx): (r: JobContext)
    ensures |r.envs| + |r.secretEnvs| == |spec.properties.envs|
    ensures r.envs == Lines(Select(spec.properties.envs, false)) && r.secretEnvs == Lines(Select(spec.properties.envs, true))
    ensures |r.outputs| == |job.outputs| && forall k :: 0 <= k < |job.outputs| ==> r.outputs[k] == job.outputs[k].name
    ensures r.cache.Some? <==> job.infrastructure == JobVMInfrastructure
    ensures var p := spec.properties;
      r.cache.Some? ==> r.cache.value == CacheConfig(p.cacheEnable, p.cacheDirType, p.cacheUserDir)
    ensures r.configMapName == job.k8sJobName && r.name == job.name
    ensures r.steps == spec.steps && r.paths == spec.properties.paths
    ensures r.workflowName == wctx.workflowName && r.workspace == wctx.workspace && r.taskID == wctx.taskID
  {
    SplitEnvsSelects(spec.properties.envs);
    var envs := SplitEnvs(spec.properties.envs);
    var p := spec.properties;
    JobContext(
      job.name, envs.0, envs.1, wctx.workflowName, wctx.workspace, wctx.taskID,
      seq(|job.outputs|, k requires 0 <= k < |job.outputs| => job.outputs[k].name),
      spec.steps, p.paths, job.k8sJobName,
      if job.infrastructure == JobVMInfrastructure
      then Some(CacheConfig(p.cacheEnable, p.cacheDirType, p.cacheUserDir))
      else None)
  }

  // ---------------------------------------------------------------------------
  // Phase functions: the state each phase leaves the job in, and the trace of
  // calls after it (the trace before the phase is the parameter `t`).

  datatype JobState = JobState(status: Status, error: string, spec: FreestyleSpec)

  /** `ok` is true when the phase returned a nil error. */
  datatype Phase = Phase(st: JobState, events: seq<Event>, ok: bool)

  function WithProps(st: JobState, p: Properties): JobState {
    st.(spec := st.spec.(properties := p))
  }

  /** logError: the job is marked Failed with the message. */
  function Logged(st: JobState, msg: string): JobState {
    st.(status := Failed, error := msg)
  }

  /** `prepare`. */
  function PrepareSpec(job: JobTask, st: JobState, a: Answers, t: seq<Event>): Phase {
    var st1 := WithProps(st, Prepared(st.spec.properties));
    var t1 := t + [PrepareSteps(job.name)];
    if a.prepareSteps.Fail? then Phase(Logged(st1, a.prepareSteps.error), t1, false)
    else Phase(st1, t1 + [Ack], true)
  }

  /** `run`, first part: the target namespace, the clients of an attached
      cluster, and the docker host the build containers talk to. */
  function ClusterTargetSpec(st: JobState, a: Answers, t: seq<Event>): Phase {
    var p0 := st.spec.properties;
    if p0.clusterID == LocalClusterID then
      var p1 := p0.(namespace := a.podNamespace);
      Phase(WithProps(st, p1.(dockerHost := RewriteDockerHost(p1.clusterID, a.bestHost, a.aslanNamespace))), t, true)
    else
      var p1 := p0.(namespace := AttachedClusterNamespace);
      var t1 := t + [GetK8sClients(p0.clusterID)];
      if a.k8sClients.Fail? then Phase(Logged(WithProps(st, p1), a.k8sClients.error), t1, false)
      else Phase(WithProps(st, p1.(dockerHost := RewriteDockerHost(p1.clusterID, a.bestHost, a.aslanNamespace))), t1, true)
  }

  /** `run`, second part: the config map holding the execution context, then the job. */
  function ClusterResourcesSpec(job: JobTask, wctx: WorkflowTaskCtx, st: JobState, a: Answers, t: seq<Event>): Phase {
    var ctx := BuildJobExecutorContext(st.spec, job, wctx);
    var p := st.spec.properties;
    var jobLabel := JobLabel(job.jobType, job.k8sJobName);
    if a.marshal.Fail? then Phase(Logged(st, "cannot Jobexcutor.Context data: " + a.marshal.error), t, false)
    else
      var t1 := t + [DeleteConfigMap(p.namespace, jobLabel)];
      if a.deleteConfigMap.Fail? then Phase(Logged(st, a.deleteConfigMap.error), t1, false)
      else
        var t2 := t1 + [CreateConfigMap(p.namespace, job.k8sJobName, jobLabel, ctx)];
        if a.createConfigMap.Fail? then Phase(Logged(st, "createJobConfigMap error: " + a.createConfigMap.error), t2, false)
        else
          var st1 := WithProps(st, p.(registries := a.matchedRegistries));
          if a.buildJob.Fail? then Phase(Logged(st1, "create job context error: " + a.buildJob.error), t2, false)
          else KubeJobSpec(job, p.namespace, p.clusterID, st1, a, t2)
  }

  /** `run`, last part: a stale job is deleted, registry secrets and the job are
      created, then the watcher's clients are opened; the first failure stops it. */
  function KubeJobSpec(job: JobTask, ns: string, clusterID: string, st: JobState, a: Answers, t: seq<Event>): Phase {
    var t1 := t + [DeleteJob(ns, JobLabel(job.jobType, job.k8sJobName))];
    if a.deleteJob.Fail? then Phase(Logged(st, "delete job error: " + a.deleteJob.error), t1, false)
    else
      var t2 := t1 + [CreateSecrets(ns, a.matchedRegistries)];
      if a.createSecrets.Fail? then Phase(Logged(st, "create secret error: " + a.createSecrets.error), t2, false)
      else
        var t3 := t2 + [CreateJob(ns, job.k8sJobName)];
        if a.createJob.Fail? then Phase(Logged(st, "create job error: " + a.createJob.error), t3, false)
        else
          var t4 := t3 + [GetKubeClientSet(clusterID)];
          if a.kubeClientSet.Fail? then Phase(st, t4, false)
          else Phase(st, t4 + [NewInformer(clusterID, ns)], a.informer.Pass?)
  }

  /** `run`: the cluster dispatch. */
  function ClusterDispatchSpec(job: JobTask, wctx: WorkflowTaskCtx, st: JobState, a: Answers, t: seq<Event>): Phase {
    var target := ClusterTargetSpec(st, a, t);
    if !target.ok then target
    else ClusterResourcesSpec(job, wctx, target.st, a, target.events)
  }

  /** `runVMJob`: the VM dispatch; the second component is the record ID. */
  function VMDispatchSpec(job: JobTask, wctx: WorkflowTaskCtx, st: JobState, a: Answers, t: seq<Event>): (Phase, string) {
    var ctx := BuildJobExecutorContext(st.spec, job, wctx);
    if a.marshal.Fail? then (Phase(Logged(st, "cannot Jobexcutor.Context data: " + a.marshal.error), t, false), "")
    else if a.jobInfo.Err? then (Phase(st, t, false), "")
    else
      var record := VMJob(wctx.projectName, wctx.workflowName, wctx.taskID, job.name, job.jobType,
                          a.jobInfo.value, ctx, job.vmLabels, Created);
      var t1 := t + [CreateVMJob(record)];
      if a.createVMJob.Err? then (Phase(Logged(st, "create vm job error: " + a.createVMJob.error), t1, false), "")
      else (Phase(st, t1, true), a.createVMJob.value)
  }

  /** The status and error the start-watcher leaves. */
  function AfterStart(st: JobState, a: Answers): JobState {
    st.(status := a.waitStart.status, error := if a.waitStart.err.Fail? then a.waitStart.err.error else st.error)
  }

  /** `wait`. */
  function ClusterWaitSpec(job: JobTask, st: JobState, a: Answers, t: seq<Event>): Phase {
    var p := st.spec.properties;
    var st1 := AfterStart(st, a);
    var t1 := t + [WaitJobStart(p.namespace, job.k8sJobName, p.timeout)];
    if st1.status != Running then Phase(st1, t1, true)
    else Phase(st1.(status := a.waitEnd.0, error := a.waitEnd.1), t1 + [Ack] + [WaitJobEnd(p.namespace, job.k8sJobName)], true)
  }

  /** `vmJobWait`. */
  function VMWaitSpec(id: string, st: JobState, a: Answers, t: seq<Event>): Phase {
    var st1 := AfterStart(st, a);
    var t1 := t + [WaitVMJobStart(id, st.spec.properties.timeout)];
    if st1.status != Running then Phase(st1, t1, true)
    else
      var st2 := st1.(status := a.waitEnd.0, error := a.waitEnd.1);
      var t2 := t1 + [Ack] + [WaitVMJobEnd(id)];
      if st2.status == Cancelled || st2.status == Timeout then
        var t3 := t2 + [UpdateVMJobStatus(id, st2.status)];
        var word := if st2.status == Cancelled then CancelWord else TimeoutWord;
        if a.updateVMStatus.Fail? then
          Phase(st2.(error := "update vm job status " + word + " error: " + a.updateVMStatus.error), t3, true)
        else Phase(st2, t3, true)
      else Phase(st2, t2, true)
  }

  /** `complete`; the cleanup of the job and its config map is deferred to the end. */
  function ClusterCompleteSpec(job: JobTask, st: JobState, a: Answers, t: seq<Event>): Phase {
    var p := st.spec.properties;
    var cleanup := CleanupCluster(p.namespace, JobLabel(job.jobType, job.k8sJobName));
    var st1 := if a.outputs.Fail? then st.(status := Failed, error := "get job outputs: " + a.outputs.error) else st;
    var t1 := t + [ReadOutputs(p.namespace, job.name)] + [SaveContainerLog(p.namespace, p.clusterID, job.name)];
    if a.saveLog.Fail? then
      Phase(st1.(error := if st1.error == "" then a.saveLog.error else st1.error), t1 + [cleanup], true)
    else
      var t2 := t1 + [SummarizeSteps(job.name)];
      if a.summarize.Fail? then Phase(st1.(error := a.summarize.error), t2 + [cleanup], true)
      else Phase(st1, t2 + [cleanup], true)
  }

  /** getVMJobOutputFromJobDB: nil when the record was found (and its outputs written). */
  function VMOutputResult(a: Answers): (r: Outcome)
    ensures a.findVMJob.NotFound? ==> r == Fail("vm job not found")
    ensures r.Pass? <==> a.findVMJob.Found?
  {
    match a.findVMJob
    case FindFailed(e) => Fail(e)
    case NotFound => Fail("vm job not found")
    case Found(_) => Pass
  }

  /** The calls getVMJobOutputFromJobDB makes: the lookup, and the write of what it found. */
  function VMOutputEvents(job: JobTask, id: string, a: Answers, t: seq<Event>): seq<Event> {
    if a.findVMJob.Found? then t + [FindVMJob(id)] + [WriteOutputs(job.key, a.findVMJob.outputs)]
    else t + [FindVMJob(id)]
  }

  /** `vmComplete`; the deletion of the record is deferred to the end. */
  function VMCompleteSpec(job: JobTask, id: string, st: JobState, a: Answers, t: seq<Event>): Phase {
    var out := VMOutputResult(a);
    var st1 := if out.Fail? then st.(status := Failed, error := "get job outputs from job db error: " + out.error) else st;
    var st2 := if a.summarize.Fail? then st1.(error := a.summarize.error) else st1;
    Phase(st2, VMOutputEvents(job, id, a, t) + [SummarizeSteps(job.name)] + [CleanupVMJob(id, st2.status)], true)
  }

  /** The VM branch of `Run`: dispatch, and when that succeeded wait and complete. */
  function VMPathSpec(job: JobTask, wctx: WorkflowTaskCtx, st: JobState, a: Answers, t: seq<Event>): Phase {
    var (d, id) := VMDispatchSpec(job, wctx, st, a, t);
    if !d.ok then d
    else
      var w := VMWaitSpec(id, d.st, a, d.events);
      VMCompleteSpec(job, id, w.st, a, w.events)
  }

  /** The cluster branch of `Run`. */
  function ClusterPathSpec(job: JobTask, wctx: WorkflowTaskCtx, st: JobState, a: Answers, t: seq<Event>): Phase {
    var d := ClusterDispatchSpec(job, wctx, st, a, t);
    if !d.ok then d
    else
      var w := ClusterWaitSpec(job, d.st, a, d.events);
      ClusterCompleteSpec(job, w.st, a, w.events)
  }

  /** `Run`: prepare, then exactly one backend path. */
  function RunSpec(job: JobTask, wctx: WorkflowTaskCtx, st: JobState, a: Answers, t: seq<Event>): Phase {
    var pr := PrepareSpec(job, st, a, t);
    if !pr.ok then pr
    else if job.infrastructure == JobVMInfrastructure then VMPathSpec(job, wctx, pr.st, a, pr.events)
    else ClusterPathSpec(job, wctx, pr.st, a, pr.events)
  }

  function JobInfoOf(job: JobTask, wctx: WorkflowTaskCtx): (r: JobInfo)
    reads job
    ensures r.duration == r.endTime - r.startTime
    ensures r.startTime == job.startTime && r.endTime == job.endTime && r.status == job.status
  {
    JobInfo(job.jobType, wctx.workflowName, wctx.workflowDisplayName, wctx.taskID, wctx.projectName,
            job.startTime, job.endTime, job.endTime - job.startTime, job.status)
  }

  // ---------------------------------------------------------------------------
  // The controller

  class FreestyleJobCtl {
    const job: JobTask
    const workflowCtx: WorkflowTaskCtx
    const rec: Recorder
    const answers: Answers

    /** NewFreestyleJobCtl. */
    constructor (job: JobTask, workflowCtx: WorkflowTaskCtx, rec: Recorder, answers: Answers)
      ensures this.job == job && this.workflowCtx == workflowCtx && this.rec == rec && this.answers == answers
    {
      this.job, this.workflowCtx, this.rec, this.answers := job, workflowCtx, rec, answers;
    }

    function State(): JobState
      reads job
    {
      JobState(job.status, job.error, job.spec)
    }

    method LogError(msg: string)
      modifies job`status, job`error, job`spec
      ensures State() == Logged(old(State()), msg)
    {
      job.status, job.error := Failed, msg;
    }

    method SetProperties(p: Properties)
      modifies job`status, job`error, job`spec
      ensures State() == WithProps(old(State()), p)
    {
      job.spec := job.spec.(properties := p);
    }

    method Prepare() returns (ok: bool)
      modifies job`status, job`error, job`spec, rec
      ensures var ph := PrepareSpec(job, old(State()), answers, old(rec.events));
        State() == ph.st && rec.events == ph.events && ok == ph.ok
    {
      ClearEnvPlaceholders();
      var p := job.spec.properties;
      if p.timeout <= 0 {
        p := p.(timeout := DefaultTimeout);
      }
      if p.resourceRequest == "" {
        p := p.(resourceRequest := MinRequest);
      }
      if p.clusterID == "" {
        p := p.(clusterID := LocalClusterID);
      }
      SetProperties(p);
      rec.Emit(PrepareSteps(job.name));
      if answers.prepareSteps.Fail? {
        LogError(answers.prepareSteps.error);
        return false;
      }
      rec.Emit(Ack);
      return true;
    }

    /** prepare's env loop, which rewrites each env of the spec in place. */
    method ClearEnvPlaceholders()
      modifies job`status, job`error, job`spec
      ensures State() == WithProps(old(State()), old(job.spec.properties).(envs := ClearPlaceholders(old(job.spec.properties.envs))))
    {
      ghost var envs0 := job.spec.properties.envs;
      var i := 0;
      while i < |job.spec.properties.envs|
        invariant 0 <= i <= |envs0| == |job.spec.properties.envs|
        invariant job.spec.properties.envs == ClearedUpTo(envs0, i)
        invariant State() == WithProps(old(State()), old(job.spec.properties).(envs := job.spec.properties.envs))
      {
        var env := job.spec.properties.envs[i];
        if HasPrefix(env.value, PlaceholderPrefix) && HasSuffix(env.value, PlaceholderSuffix) {
          SetProperties(job.spec.properties.(envs := job.spec.properties.envs[i := env.(value := "")]));
        }
        assert job.spec.properties.envs == ClearedUpTo(envs0, i + 1);
        i := i + 1;
      }
      assert ClearedUpTo(envs0, i) == ClearPlaceholders(envs0);
    }

    /** Go's `run`: cluster dispatch. */
    method Dispatch() returns (ok: bool)
      modifies job`status, job`error, job`spec, rec
      ensures var ph := ClusterDispatchSpec(job, workflowCtx, old(State()), answers, old(rec.events));
        State() == ph.st && rec.events == ph.events && ok == ph.ok
    {
      ok := ResolveTarget();
      if !ok {
        return;
      }
      ok := CreateResources();
    }

    method ResolveTarget() returns (ok: bool)
      modifies job`status, job`error, job`spec, rec
      ensures var ph := ClusterTargetSpec(old(State()), answers, old(rec.events));
        State() == ph.st && rec.events == ph.events && ok == ph.ok
    {
      var p := job.spec.properties;
      if p.clusterID == LocalClusterID {
        p := p.(namespace := answers.podNamespace);
        SetProperties(p);
      } else {
        p := p.(namespace := AttachedClusterNamespace);
        SetProperties(p);
        rec.Emit(GetK8sClients(p.clusterID));
        if answers.k8sClients.Fail? {
          LogError(answers.k8sClients.error);
          return false;
        }
      }
      SetProperties(p.(dockerHost := RewriteDockerHost(p.clusterID, answers.bestHost, answers.aslanNamespace)));
      return true;
    }

    method CreateResources() returns (ok: bool)
      modifies job`status, job`error, job`spec, rec
      ensures var ph := ClusterResourcesSpec(job, workflowCtx, old(State()), answers, old(rec.events));
        State() == ph.st && rec.events == ph.events && ok == ph.ok
    {
      var p := job.spec.properties;
      var ctx := BuildJobExecutorContext(job.spec, job, workflowCtx);
      if answers.marshal.Fail? {
        LogError("cannot Jobexcutor.Context data: " + answers.marshal.error);
        return false;
      }
      var jobLabel := JobLabel(job.jobType, job.k8sJobName);
      rec.Emit(DeleteConfigMap(p.namespace, jobLabel));
      if answers.deleteConfigMap.Fail? {
        LogError(answers.deleteConfigMap.error);
        return false;
      }
      rec.Emit(CreateConfigMap(p.namespace, job.k8sJobName, jobLabel, ctx));
      if answers.createConfigMap.Fail? {
        LogError("createJobConfigMap error: " + answers.createConfigMap.error);
        return false;
      }
      SetProperties(p.(registries := answers.matchedRegistries));
      if answers.buildJob.Fail? {
        LogError("create job context error: " + answers.buildJob.error);
        return false;
      }
      ok := CreateKubeJob(p.namespace, p.clusterID);
    }

    method CreateKubeJob(ns: string, clusterID: string) returns (ok: bool)
      modifies job`status, job`error, job`spec, rec
      ensures var ph := KubeJobSpec(job, ns, clusterID, old(State()), answers, old(rec.events));
        State() == ph.st && rec.events == ph.events && ok == ph.ok
    {
      rec.Emit(DeleteJob(ns, JobLabel(job.jobType, job.k8sJobName)));
      if answers.deleteJob.Fail? {
        LogError("delete job error: " + answers.deleteJob.error);
        return false;
      }
      rec.Emit(CreateSecrets(ns, answers.matchedRegistries));
      if answers.createSecrets.Fail? {
        LogError("create secret error: " + answers.createSecrets.error);
        return false;
      }
      rec.Emit(CreateJob(ns, job.k8sJobName));
      if answers.createJob.Fail? {
        LogError("create job error: " + answers.createJob.error);
        return false;
      }
      rec.Emit(GetKubeClientSet(clusterID));
      if answers.kubeClientSet.Fail? {
        return false;
      }
      rec.Emit(NewInformer(clusterID, ns));
      return answers.informer.Pass?;
    }

    /** `runVMJob`. */
    method DispatchVM() returns (ok: bool, jobID: string)
      modifies job`status, job`error, job`spec, rec
      ensures var r := VMDispatchSpec(job, workflowCtx, old(State()), answers, old(rec.events));
        State() == r.0.st && rec.events == r.0.events && ok == r.0.ok && jobID == r.1
    {
      var ctx := BuildJobExecutorContext(job.spec, job, workflowCtx);
      if answers.marshal.Fail? {
        LogError("cannot Jobexcutor.Context data: " + answers.marshal.error);
        return false, "";
      }
      if answers.jobInfo.Err? {
        return false, "";
      }
      var record := VMJob(workflowCtx.projectName, workflowCtx.workflowName, workflowCtx.taskID, job.name,
                          job.jobType, answers.jobInfo.value, ctx, job.vmLabels, Created);
      rec.Emit(CreateVMJob(record));
      if answers.createVMJob.Err? {
        LogError("create vm job error: " + answers.createVMJob.error);
        return false, "";
      }
      return true, answers.createVMJob.value;
    }

    method Wait()
      modifies job`status, job`error, job`spec, rec
      ensures var ph := ClusterWaitSpec(job, old(State()), answers, old(rec.events));
        State() == ph.st && rec.events == ph.events
    {
      var p := job.spec.properties;
      rec.Emit(WaitJobStart(p.namespace, job.k8sJobName, p.timeout));
      job.status := answers.waitStart.status;
      if answers.waitStart.err.Fail? {
        job.error := answers.waitStart.err.error;
      }
      if job.status == Running {
        rec.Emit(Ack);
      } else {
        return;
      }
      rec.Emit(WaitJobEnd(p.namespace, job.k8sJobName));
      job.status, job.error := answers.waitEnd.0, answers.waitEnd.1;
    }

    method VMWait(jobID: string)
      modifies job`status, job`error, job`spec, rec
      ensures var ph := VMWaitSpec(jobID, old(State()), answers, old(rec.events));
        State() == ph.st && rec.events == ph.events
    {
      rec.Emit(WaitVMJobStart(jobID, job.spec.properties.timeout));
      job.status := answers.waitStart.status;
      if answers.waitStart.err.Fail? {
        job.error := answers.waitStart.err.error;
      }
      if job.status == Running {
        rec.Emit(Ack);
      } else {
        return;
      }
      rec.Emit(WaitVMJobEnd(jobID));
      job.status, job.error := answers.waitEnd.0, answers.waitEnd.1;
      match job.status {
        case Cancelled =>
          rec.Emit(UpdateVMJobStatus(jobID, Cancelled));
          if answers.updateVMStatus.Fail? {
            job.error := "update vm job status " + CancelWord + " error: " + answers.updateVMStatus.error;
          }
        case Timeout =>
          rec.Emit(UpdateVMJobStatus(jobID, Timeout));
          if answers.updateVMStatus.Fail? {
            job.error := "update vm job status " + TimeoutWord + " error: " + answers.updateVMStatus.error;
          }
        case _ =>
      }
    }

    method Complete()
      modifies job`status, job`error, job`spec, rec
      ensures var ph := ClusterCompleteSpec(job, old(State()), answers, old(rec.events));
        State() == ph.st && rec.events == ph.events
    {
      var p := job.spec.properties;
      var jobLabel := JobLabel(job.jobType, job.k8sJobName);
      rec.Emit(ReadOutputs(p.namespace, job.name));
      if answers.outputs.Fail? {
        job.status, job.error := Failed, "get job outputs: " + answers.outputs.error;
      }
      rec.Emit(SaveContainerLog(p.namespace, p.clusterID, job.name));
      if answers.saveLog.Fail? {
        if job.error == "" {
          job.error := answers.saveLog.error;
        }
      } else {
        rec.Emit(SummarizeSteps(job.name));
        if answers.summarize.Fail? {
          job.error := answers.summarize.error;
        }
      }
      // the deferred, detached cleanup of the job and its config map
      rec.Emit(CleanupCluster(p.namespace, jobLabel));
    }

    /** getVMJobOutputFromJobDB. */
    method ReadVMJobOutputs(jobID: string) returns (err: Outcome)
      modifies rec
      ensures err == VMOutputResult(answers)
      ensures rec.events == VMOutputEvents(job, jobID, answers, old(rec.events))
    {
      rec.Emit(FindVMJob(jobID));
      match answers.findVMJob {
        case FindFailed(e) => return Fail(e);
        case NotFound => return Fail("vm job not found");
        case Found(outputs) =>
          rec.Emit(WriteOutputs(job.key, outputs));
          return Pass;
      }
    }

    method VMComplete(jobID: string)
      modifies job`status, job`error, job`spec, rec
      ensures var ph := VMCompleteSpec(job, jobID, old(State()), answers, old(rec.events));
        State() == ph.st && rec.events == ph.events
    {
      var err := ReadVMJobOutputs(jobID);
      if err.Fail? {
        job.status, job.error := Failed, "get job outputs from job db error: " + err.error;
      }
      rec.Emit(SummarizeSteps(job.name));
      if answers.summarize.Fail? {
        job.error := answers.summarize.error;
      }
      // the deferred, detached deletion of the record
      rec.Emit(CleanupVMJob(jobID, job.status));
    }

    method Run()
      modifies job`status, job`error, job`spec, rec
      ensures var ph := RunSpec(job, workflowCtx, old(State()), answers, old(rec.events));
        State() == ph.st && rec.events == ph.events
    {
      var ok := Prepare();
      if !ok {
        return;
      }
      if job.infrastructure == JobVMInfrastructure {
        RunOnVM();
      } else {
        RunOnCluster();
      }
    }

    method RunOnVM()
      modifies job`status, job`error, job`spec, rec
      ensures var ph := VMPathSpec(job, workflowCtx, old(State()), answers, old(rec.events));
        State() == ph.st && rec.events == ph.events
    {
      var ok, jobID := DispatchVM();
      if !ok {
        return;
      }
      VMWait(jobID);
      VMComplete(jobID);
    }

    method RunOnCluster()
      modifies job`status, job`error, job`spec, rec
      ensures var ph := ClusterPathSpec(job, workflowCtx, old(State()), answers, old(rec.events));
        State() == ph.st && rec.events == ph.events
    {
      var ok := Dispatch();
      if !ok {
        return;
      }
      Wait();
      Complete();
    }

    method SaveInfo() returns (err: Outcome)
      modifies rec
      ensures rec.events == old(rec.events) + [SaveJobInfo(JobInfoOf(job, workflowCtx))]
      ensures err == answers.saveInfo
    {
      rec.Emit(SaveJobInfo(JobInfoOf(job, workflowCtx)));
      return answers.saveInfo;
    }
  }
}
