/** What the freestyle job lifecycle promises, proved about the phase
    functions the controller's methods are verified against. */
module FreestyleJobProperties {
  import opened Results
  import opened FreestyleJob

  /** Calls only the cluster path makes. */
  predicate ClusterOnly(e: Event) {
    || e.GetK8sClients? || e.DeleteConfigMap? || e.CreateConfigMap? || e.DeleteJob?
    || e.CreateSecrets? || e.CreateJob? || e.GetKubeClientSet? || e.NewInformer?
    || e.WaitJobStart? || e.WaitJobEnd? || e.ReadOutputs? || e.SaveContainerLog? || e.CleanupCluster?
  }

  /** Calls only the VM path makes. */
  predicate VMOnly(e: Event) {
    || e.CreateVMJob? || e.WaitVMJobStart? || e.WaitVMJobEnd? || e.UpdateVMJobStatus?
    || e.FindVMJob? || e.WriteOutputs? || e.CleanupVMJob?
  }

  predicate IsWait(e: Event) {
    e.WaitJobStart? || e.WaitJobEnd? || e.WaitVMJobStart? || e.WaitVMJobEnd?
  }

  predicate IsCleanup(e: Event) {
    e.CleanupCluster? || e.CleanupVMJob?
  }

  /** Cleanup is scheduled once, as the last call. */
  predicate CleanupLastAndOnce(events: seq<Event>) {
    |events| > 0 && IsCleanup(events[|events| - 1])
    && forall i :: 0 <= i < |events| - 1 ==> !IsCleanup(events[i])
  }

  /** A run only appends to the trace it starts from: what it records does not
      depend on what was recorded before. */
  lemma RunOnlyAppends(job: JobTask, wctx: WorkflowTaskCtx, st: JobState, a: Answers, t: seq<Event>)
    ensures RunSpec(job, wctx, st, a, t) == RunSpec(job, wctx, st, a, []).(events := t + RunSpec(job, wctx, st, a, []).events)
  {
    var pr := PrepareSpec(job, st, a, t);
    var pr0 := PrepareSpec(job, st, a, []);
    AppendAssoc3(t, [], [PrepareSteps(job.name)], [Ack], []);
    assert pr == pr0.(events := t + pr0.events);
    if pr.ok {
      if job.infrastructure == JobVMInfrastructure {
        VMPathOnlyAppends(job, wctx, pr.st, a, t, pr0.events);
      } else {
        ClusterPathOnlyAppends(job, wctx, pr.st, a, t, pr0.events);
      }
    }
  }

  lemma VMPathOnlyAppends(job: JobTask, wctx: WorkflowTaskCtx, st: JobState, a: Answers, t: seq<Event>, u: seq<Event>)
    ensures VMPathSpec(job, wctx, st, a, t + u) == VMPathSpec(job, wctx, st, a, u).(events := t + VMPathSpec(job, wctx, st, a, u).events)
  {
    var ctx := BuildJobExecutorContext(st.spec, job, wctx);
    var (d, id) := VMDispatchSpec(job, wctx, st, a, t + u);
    var (d0, id0) := VMDispatchSpec(job, wctx, st, a, u);
    if a.marshal.Pass? && a.jobInfo.Ok? {
      var record := VMJob(wctx.projectName, wctx.workflowName, wctx.taskID, job.name, job.jobType,
                          a.jobInfo.value, ctx, job.vmLabels, Created);
      assert t + u + [CreateVMJob(record)] == t + (u + [CreateVMJob(record)]);
    }
    assert d == d0.(events := t + d0.events) && id == id0;
    if d.ok {
      var w := VMWaitSpec(id, d.st, a, d.events);
      var w0 := VMWaitSpec(id, d.st, a, d0.events);
      AppendAssoc3(t, d0.events, [WaitVMJobStart(id, d.st.spec.properties.timeout)], [Ack], [WaitVMJobEnd(id)]);
      AppendAssoc(t, d0.events + [WaitVMJobStart(id, d.st.spec.properties.timeout)] + [Ack] + [WaitVMJobEnd(id)],
                  [UpdateVMJobStatus(id, a.waitEnd.0)]);
      assert w == w0.(events := t + w0.events);
      var out := VMOutputEvents(job, id, a, w.events);
      var out0 := VMOutputEvents(job, id, a, w0.events);
      AppendAssoc(t, w0.events, [FindVMJob(id)]);
      if a.findVMJob.Found? {
        AppendAssoc(t, w0.events + [FindVMJob(id)], [WriteOutputs(job.key, a.findVMJob.outputs)]);
      }
      assert out == t + out0;
      var c0 := VMCompleteSpec(job, id, w.st, a, w0.events);
      AppendAssoc3(t, out0, [SummarizeSteps(job.name)], [CleanupVMJob(id, c0.st.status)], []);
    }
  }

  lemma ClusterPathOnlyAppends(job: JobTask, wctx: WorkflowTaskCtx, st: JobState, a: Answers, t: seq<Event>, u: seq<Event>)
    ensures ClusterPathSpec(job, wctx, st, a, t + u) == ClusterPathSpec(job, wctx, st, a, u).(events := t + ClusterPathSpec(job, wctx, st, a, u).events)
  {
    var d := ClusterDispatchSpec(job, wctx, st, a, t + u);
    var d0 := ClusterDispatchSpec(job, wctx, st, a, u);
    ClusterDispatchOnlyAppends(job, wctx, st, a, t, u);
    if d.ok {
      var p := d.st.spec.properties;
      var w := ClusterWaitSpec(job, d.st, a, d.events);
      var w0 := ClusterWaitSpec(job, d.st, a, d0.events);
      AppendAssoc3(t, d0.events, [WaitJobStart(p.namespace, job.k8sJobName, p.timeout)], [Ack], [WaitJobEnd(p.namespace, job.k8sJobName)]);
      assert w == w0.(events := t + w0.events);
      var q := w.st.spec.properties;
      var cleanup := CleanupCluster(q.namespace, JobLabel(job.jobType, job.k8sJobName));
      AppendAssoc3(t, w0.events, [ReadOutputs(q.namespace, job.name)], [SaveContainerLog(q.namespace, q.clusterID, job.name)], [cleanup]);
      AppendAssoc3(t, w0.events + [ReadOutputs(q.namespace, job.name)], [SaveContainerLog(q.namespace, q.clusterID, job.name)],
                   [SummarizeSteps(job.name)], [cleanup]);
    }
  }

  lemma ClusterDispatchOnlyAppends(job: JobTask, wctx: WorkflowTaskCtx, st: JobState, a: Answers, t: seq<Event>, u: seq<Event>)
    ensures ClusterDispatchSpec(job, wctx, st, a, t + u) == ClusterDispatchSpec(job, wctx, st, a, u).(events := t + ClusterDispatchSpec(job, wctx, st, a, u).events)
  {
    var p0 := st.spec.properties;
    AppendAssoc(t, u, [GetK8sClients(p0.clusterID)]);
    var target := ClusterTargetSpec(st, a, t + u);
    var target0 := ClusterTargetSpec(st, a, u);
    assert target == target0.(events := t + target0.events);
    if target.ok {
      ClusterResourcesOnlyAppends(job, wctx, target.st, a, t, target0.events);
    }
  }

  lemma ClusterResourcesOnlyAppends(job: JobTask, wctx: WorkflowTaskCtx, st: JobState, a: Answers, t: seq<Event>, u: seq<Event>)
    ensures ClusterResourcesSpec(job, wctx, st, a, t + u) == ClusterResourcesSpec(job, wctx, st, a, u).(events := t + ClusterResourcesSpec(job, wctx, st, a, u).events)
  {
    var p := st.spec.properties;
    var jobLabel := JobLabel(job.jobType, job.k8sJobName);
    var ctx := BuildJobExecutorContext(st.spec, job, wctx);
    AppendAssoc3(t, u, [DeleteConfigMap(p.namespace, jobLabel)], [CreateConfigMap(p.namespace, job.k8sJobName, jobLabel, ctx)], []);
    if a.marshal.Pass? && a.deleteConfigMap.Pass? && a.createConfigMap.Pass? && a.buildJob.Pass? {
      var v2 := u + [DeleteConfigMap(p.namespace, jobLabel)] + [CreateConfigMap(p.namespace, job.k8sJobName, jobLabel, ctx)];
      KubeJobOnlyAppends(job, p.namespace, p.clusterID, WithProps(st, p.(registries := a.matchedRegistries)), a, t, v2);
    }
  }

  lemma KubeJobOnlyAppends(job: JobTask, ns: string, clusterID: string, st: JobState, a: Answers, t: seq<Event>, u: seq<Event>)
    ensures KubeJobSpec(job, ns, clusterID, st, a, t + u) == KubeJobSpec(job, ns, clusterID, st, a, u).(events := t + KubeJobSpec(job, ns, clusterID, st, a, u).events)
  {
    var jobLabel := JobLabel(job.jobType, job.k8sJobName);
    AppendAssoc3(t, u, [DeleteJob(ns, jobLabel)], [CreateSecrets(ns, a.matchedRegistries)], [CreateJob(ns, job.k8sJobName)]);
    var v3 := u + [DeleteJob(ns, jobLabel)] + [CreateSecrets(ns, a.matchedRegistries)] + [CreateJob(ns, job.k8sJobName)];
    AppendAssoc3(t, v3, [GetKubeClientSet(clusterID)], [NewInformer(clusterID, ns)], []);
  }

  /** `t + u + x == t + (u + x)`, and the same for shorter prefixes of x ++ y ++ z. */
  lemma AppendAssoc3(t: seq<Event>, u: seq<Event>, x: seq<Event>, y: seq<Event>, z: seq<Event>)
    ensures t + u + x == t + (u + x)
    ensures t + u + x + y == t + (u + x + y)
    ensures t + u + x + y + z == t + (u + x + y + z)
  {
  }

  lemma AppendAssoc(t: seq<Event>, u: seq<Event>, x: seq<Event>)
    ensures t + u + x == t + (u + x)
  {
  }

  /** A cleanup appended to a trace without one is the single, last cleanup. */
  lemma CleanupAppended(u: seq<Event>, c: Event)
    requires forall e :: e in u ==> !IsCleanup(e)
    requires IsCleanup(c)
    ensures CleanupLastAndOnce(u + [c])
  {
    forall i | 0 <= i < |u| ensures !IsCleanup((u + [c])[i]) {
      assert (u + [c])[i] == u[i];
    }
  }

  /** A failing `prepare` creates nothing: the step preparation is the only call,
      nothing is acknowledged, and the job is Failed with that error. */
  lemma PrepareFailureCreatesNothing(job: JobTask, wctx: WorkflowTaskCtx, st: JobState, a: Answers)
    requires a.prepareSteps.Fail?
    ensures var ph := RunSpec(job, wctx, st, a, []);
      && ph.events == [PrepareSteps(job.name)] && !ph.ok
      && ph.st.status == Failed && ph.st.error == a.prepareSteps.error
  {
  }

  /** Exactly one backend: a VM job makes no cluster call, any other job no VM call. */
  lemma OneBackendPath(job: JobTask, wctx: WorkflowTaskCtx, st: JobState, a: Answers)
    ensures var ph := RunSpec(job, wctx, st, a, []);
      && (job.infrastructure == JobVMInfrastructure ==> forall e :: e in ph.events ==> !ClusterOnly(e))
      && (job.infrastructure != JobVMInfrastructure ==> forall e :: e in ph.events ==> !VMOnly(e))
  {
    var pr := PrepareSpec(job, st, a, []);
    if pr.ok {
      if job.infrastructure == JobVMInfrastructure {
        VMPathAdds(job, wctx, pr.st, a, pr.events);
      } else {
        ClusterPathAdds(job, wctx, pr.st, a, pr.events);
      }
    }
  }

  /** Wait and complete run only after a successful dispatch, and then the
      cleanup is scheduled exactly once, as the run's last call. */
  lemma CleanupExactlyWhenDispatched(job: JobTask, wctx: WorkflowTaskCtx, st: JobState, a: Answers)
    ensures var ph := RunSpec(job, wctx, st, a, []);
      && (ph.ok ==> CleanupLastAndOnce(ph.events))
      && (!ph.ok ==> forall e :: e in ph.events ==> !IsWait(e) && !IsCleanup(e))
  {
    var pr := PrepareSpec(job, st, a, []);
    if pr.ok {
      if job.infrastructure == JobVMInfrastructure {
        VMPathCleanup(job, wctx, pr.st, a, pr.events);
      } else {
        ClusterPathCleanup(job, wctx, pr.st, a, pr.events);
      }
    }
  }

  lemma VMPathCleanup(job: JobTask, wctx: WorkflowTaskCtx, st: JobState, a: Answers, t: seq<Event>)
    requires forall e :: e in t ==> !IsWait(e) && !IsCleanup(e)
    ensures var ph := VMPathSpec(job, wctx, st, a, t);
      && (ph.ok ==> CleanupLastAndOnce(ph.events))
      && (!ph.ok ==> forall e :: e in ph.events ==> !IsWait(e) && !IsCleanup(e))
  {
    var (d, id) := VMDispatchSpec(job, wctx, st, a, t);
    VMDispatchAdds(job, wctx, st, a, t);
    if d.ok {
      var w := VMWaitSpec(id, d.st, a, d.events);
      VMWaitAdds(id, d.st, a, d.events);
      VMCompleteCleanup(job, id, w.st, a, w.events);
    }
  }

  lemma ClusterPathCleanup(job: JobTask, wctx: WorkflowTaskCtx, st: JobState, a: Answers, t: seq<Event>)
    requires forall e :: e in t ==> !IsWait(e) && !IsCleanup(e)
    ensures var ph := ClusterPathSpec(job, wctx, st, a, t);
      && (ph.ok ==> CleanupLastAndOnce(ph.events))
      && (!ph.ok ==> forall e :: e in ph.events ==> !IsWait(e) && !IsCleanup(e))
  {
    var d := ClusterDispatchSpec(job, wctx, st, a, t);
    ClusterDispatchAdds(job, wctx, st, a, t);
    if d.ok {
      var w := ClusterWaitSpec(job, d.st, a, d.events);
      ClusterWaitAdds(job, d.st, a, d.events);
      ClusterCompleteCleanup(job, w.st, a, w.events);
    }
  }

  lemma VMPathAdds(job: JobTask, wctx: WorkflowTaskCtx, st: JobState, a: Answers, t: seq<Event>)
    ensures forall e :: e in VMPathSpec(job, wctx, st, a, t).events ==> e in t || !ClusterOnly(e)
  {
    var (d, id) := VMDispatchSpec(job, wctx, st, a, t);
    VMDispatchAdds(job, wctx, st, a, t);
    if d.ok {
      var w := VMWaitSpec(id, d.st, a, d.events);
      VMWaitAdds(id, d.st, a, d.events);
      var c := VMCompleteSpec(job, id, w.st, a, w.events);
      VMCompleteAdds(job, id, w.st, a, w.events);
      forall e | e in c.events ensures e in t || !ClusterOnly(e) {
        if e in w.events && e in d.events {
          assert e in t || VMOnly(e);
        }
      }
    }
  }

  lemma ClusterPathAdds(job: JobTask, wctx: WorkflowTaskCtx, st: JobState, a: Answers, t: seq<Event>)
    ensures forall e :: e in ClusterPathSpec(job, wctx, st, a, t).events ==> e in t || !VMOnly(e)
  {
    var d := ClusterDispatchSpec(job, wctx, st, a, t);
    ClusterDispatchAdds(job, wctx, st, a, t);
    if d.ok {
      var w := ClusterWaitSpec(job, d.st, a, d.events);
      ClusterWaitAdds(job, d.st, a, d.events);
      var c := ClusterCompleteSpec(job, w.st, a, w.events);
      ClusterCompleteAdds(job, w.st, a, w.events);
      forall e | e in c.events ensures e in t || !VMOnly(e) {
        if e in w.events && e in d.events {
          assert e in t || ClusterOnly(e);
        }
      }
    }
  }

  /** The cluster dispatch adds only cluster calls, and neither a wait nor a cleanup. */
  lemma ClusterDispatchAdds(job: JobTask, wctx: WorkflowTaskCtx, st: JobState, a: Answers, t: seq<Event>)
    ensures forall e :: e in ClusterDispatchSpec(job, wctx, st, a, t).events ==>
      e in t || (ClusterOnly(e) && !IsWait(e) && !IsCleanup(e))
  {
    var target := ClusterTargetSpec(st, a, t);
    ClusterTargetAdds(st, a, t);
    if target.ok {
      ClusterResourcesAdds(job, wctx, target.st, a, target.events);
    }
  }

  lemma ClusterTargetAdds(st: JobState, a: Answers, t: seq<Event>)
    ensures forall e :: e in ClusterTargetSpec(st, a, t).events ==> e in t || e.GetK8sClients?
  {
  }

  lemma ClusterResourcesAdds(job: JobTask, wctx: WorkflowTaskCtx, st: JobState, a: Answers, t: seq<Event>)
    ensures forall e :: e in ClusterResourcesSpec(job, wctx, st, a, t).events ==>
      e in t || (ClusterOnly(e) && !IsWait(e) && !IsCleanup(e))
  {
    var p := st.spec.properties;
    var jobLabel := JobLabel(job.jobType, job.k8sJobName);
    var ctx := BuildJobExecutorContext(st.spec, job, wctx);
    var t1 := t + [DeleteConfigMap(p.namespace, jobLabel)];
    var t2 := t1 + [CreateConfigMap(p.namespace, job.k8sJobName, jobLabel, ctx)];
    if a.marshal.Pass? && a.deleteConfigMap.Pass? && a.createConfigMap.Pass? && a.buildJob.Pass? {
      var st1 := WithProps(st, p.(registries := a.matchedRegistries));
      var k := KubeJobSpec(job, p.namespace, p.clusterID, st1, a, t2);
      assert ClusterResourcesSpec(job, wctx, st, a, t).events == k.events;
      KubeJobAdds(job, p.namespace, p.clusterID, st1, a, t2);
      forall e | e in k.events ensures e in t || (ClusterOnly(e) && !IsWait(e) && !IsCleanup(e)) {
        if e in t2 && e !in t1 {
          assert e == CreateConfigMap(p.namespace, job.k8sJobName, jobLabel, ctx);
        } else if e in t1 && e !in t {
          assert e == DeleteConfigMap(p.namespace, jobLabel);
        }
      }
    }
  }

  lemma KubeJobAdds(job: JobTask, ns: string, clusterID: string, st: JobState, a: Answers, t: seq<Event>)
    ensures forall e :: e in KubeJobSpec(job, ns, clusterID, st, a, t).events ==>
      e in t || (ClusterOnly(e) && !IsWait(e) && !IsCleanup(e))
  {
  }

  lemma VMDispatchAdds(job: JobTask, wctx: WorkflowTaskCtx, st: JobState, a: Answers, t: seq<Event>)
    ensures forall e :: e in VMDispatchSpec(job, wctx, st, a, t).0.events ==>
      e in t || (VMOnly(e) && !IsWait(e) && !IsCleanup(e))
  {
  }

  lemma ClusterWaitAdds(job: JobTask, st: JobState, a: Answers, t: seq<Event>)
    ensures forall e :: e in ClusterWaitSpec(job, st, a, t).events ==>
      e in t || e == Ack || (ClusterOnly(e) && !IsCleanup(e))
  {
  }

  lemma VMWaitAdds(id: string, st: JobState, a: Answers, t: seq<Event>)
    ensures forall e :: e in VMWaitSpec(id, st, a, t).events ==>
      e in t || e == Ack || (VMOnly(e) && !IsCleanup(e))
  {
  }

  lemma ClusterCompleteAdds(job: JobTask, st: JobState, a: Answers, t: seq<Event>)
    ensures forall e :: e in ClusterCompleteSpec(job, st, a, t).events ==> e in t || e.SummarizeSteps? || ClusterOnly(e)
  {
  }

  lemma VMCompleteAdds(job: JobTask, id: string, st: JobState, a: Answers, t: seq<Event>)
    ensures forall e :: e in VMCompleteSpec(job, id, st, a, t).events ==> e in t || e.SummarizeSteps? || VMOnly(e)
  {
  }

  /** The calls the cluster dispatch makes after the namespace is settled, in their fixed order. */
  function ClusterCalls(job: JobTask, p: Properties, ctx: JobContext, registries: seq<string>): seq<Event> {
    var jobLabel := JobLabel(job.jobType, job.k8sJobName);
    [DeleteConfigMap(p.namespace, jobLabel), CreateConfigMap(p.namespace, job.k8sJobName, jobLabel, ctx),
     DeleteJob(p.namespace, jobLabel), CreateSecrets(p.namespace, registries), CreateJob(p.namespace, job.k8sJobName),
     GetKubeClientSet(p.clusterID), NewInformer(p.clusterID, p.namespace)]
  }

  /** Every step that creates or deletes something succeeded. */
  predicate CreationPasses(a: Answers) {
    && a.marshal.Pass? && a.deleteConfigMap.Pass? && a.createConfigMap.Pass? && a.buildJob.Pass?
    && a.deleteJob.Pass? && a.createSecrets.Pass? && a.createJob.Pass?
  }

  /** The cluster calls are always a prefix of the fixed order: the dispatch
      stops at the first failure and makes them all only when it can wait. A
      failed create or delete marks the job Failed; a failure to open the
      watcher's clients leaves the job's status and error as they were. */
  lemma ClusterCallsInOrder(job: JobTask, wctx: WorkflowTaskCtx, st: JobState, a: Answers)
    requires st.status != Failed
    ensures var ph := ClusterResourcesSpec(job, wctx, st, a, []);
      var calls := ClusterCalls(job, st.spec.properties, BuildJobExecutorContext(st.spec, job, wctx), a.matchedRegistries);
      && |ph.events| <= |calls| && ph.events == calls[..|ph.events|]
      && (ph.ok <==> CreationPasses(a) && a.kubeClientSet.Pass? && a.informer.Pass?)
      && (ph.ok ==> ph.events == calls)
      && (ph.st.status == Failed <==> !CreationPasses(a))
      && (CreationPasses(a) ==> ph.st.status == st.status && ph.st.error == st.error)
  {
    var p := st.spec.properties;
    var calls := ClusterCalls(job, p, BuildJobExecutorContext(st.spec, job, wctx), a.matchedRegistries);
    var ph := ClusterResourcesSpec(job, wctx, st, a, []);
    assert ph.events == calls[..|ph.events|];
  }

  /** A VM job whose job info cannot be read stops without a call and without marking the job. */
  lemma VMJobInfoErrorIsSilent(job: JobTask, wctx: WorkflowTaskCtx, st: JobState, a: Answers, t: seq<Event>)
    requires a.marshal.Pass? && a.jobInfo.Err?
    ensures var r := VMDispatchSpec(job, wctx, st, a, t);
      r.0 == Phase(st, t, false)
  {
  }

  /** The VM record carries the run's identity, the execution context and the
      job's VM labels, starts as Created, and its ID is what the path waits on. */
  lemma VMRecordContents(job: JobTask, wctx: WorkflowTaskCtx, st: JobState, a: Answers, t: seq<Event>)
    requires a.marshal.Pass? && a.jobInfo.Ok?
    ensures var r := VMDispatchSpec(job, wctx, st, a, t);
      && |r.0.events| == |t| + 1 && r.0.events[..|t|] == t
      && var record := r.0.events[|t|].record;
      && r.0.events[|t|].CreateVMJob?
      && record.status == Created && record.vmLabels == job.vmLabels
      && record.jobCtx == BuildJobExecutorContext(st.spec, job, wctx)
      && record.projectName == wctx.projectName && record.taskID == wctx.taskID && record.jobName == job.name
      && (r.0.ok <==> a.createVMJob.Ok?)
      && (r.0.ok ==> r.1 == a.createVMJob.value && r.0.st == st)
      && (!r.0.ok ==> r.0.st.status == Failed)
  {
  }

  /** The end-watcher and the second ack happen only after a Running start; the
      end result then replaces whatever the start left. */
  lemma ClusterWaitFacts(job: JobTask, st: JobState, a: Answers, t: seq<Event>)
    requires Ack !in t
    ensures var ph := ClusterWaitSpec(job, st, a, t);
      && (Ack in ph.events <==> a.waitStart.status == Running)
      && (a.waitStart.status != Running ==> ph.st == AfterStart(st, a))
      && (a.waitStart.status == Running ==> ph.st.status == a.waitEnd.0 && ph.st.error == a.waitEnd.1)
      && ph.st.spec == st.spec
  {
  }

  /** A Cancelled or Timeout end is written back to the record; a failed
      write-back replaces the error but never the status. */
  lemma VMWaitFacts(id: string, st: JobState, a: Answers, t: seq<Event>)
    requires forall e :: e in t ==> !e.UpdateVMJobStatus?
    ensures var ph := VMWaitSpec(id, st, a, t);
      var ended := a.waitStart.status == Running;
      && ph.st.status == (if ended then a.waitEnd.0 else a.waitStart.status)
      && (UpdateVMJobStatus(id, a.waitEnd.0) in ph.events <==> ended && a.waitEnd.0 in {Cancelled, Timeout})
      && (forall e :: e in ph.events && e.UpdateVMJobStatus? ==> e == UpdateVMJobStatus(id, a.waitEnd.0))
      && (ended && a.waitEnd.0 in {Cancelled, Timeout} && a.updateVMStatus.Fail? ==>
            ph.st.error == "update vm job status " + (if a.waitEnd.0 == Cancelled then CancelWord else TimeoutWord)
                           + " error: " + a.updateVMStatus.error)
      && (ended && (a.waitEnd.0 !in {Cancelled, Timeout} || a.updateVMStatus.Pass?) ==> ph.st.error == a.waitEnd.1)
      && ph.st.spec == st.spec
  {
  }

  /** `complete` schedules the cleanup of the job and its config map once, as its last call. */
  lemma ClusterCompleteCleanup(job: JobTask, st: JobState, a: Answers, t: seq<Event>)
    requires forall e :: e in t ==> !IsCleanup(e)
    ensures var ph := ClusterCompleteSpec(job, st, a, t);
      && CleanupLastAndOnce(ph.events)
      && ph.events[|ph.events| - 1] == CleanupCluster(st.spec.properties.namespace, JobLabel(job.jobType, job.k8sJobName))
  {
    var p := st.spec.properties;
    var t1 := t + [ReadOutputs(p.namespace, job.name)] + [SaveContainerLog(p.namespace, p.clusterID, job.name)];
    var cleanup := CleanupCluster(p.namespace, JobLabel(job.jobType, job.k8sJobName));
    CleanupAppended(t1, cleanup);
    CleanupAppended(t1 + [SummarizeSteps(job.name)], cleanup);
  }

  /** `complete`: an outputs error marks the job Failed and no later error hides
      it; a log error skips the summaries and fills in the error only when it was
      empty; a summary error replaces it. */
  lemma ClusterCompleteFacts(job: JobTask, st: JobState, a: Answers, t: seq<Event>)
    requires SummarizeSteps(job.name) !in t
    ensures var ph := ClusterCompleteSpec(job, st, a, t);
      && ph.st.status == (if a.outputs.Fail? then Failed else st.status)
      && (SummarizeSteps(job.name) in ph.events <==> a.saveLog.Pass?)
      && (a.outputs.Fail? && (a.saveLog.Fail? || a.summarize.Pass?) ==> ph.st.error == "get job outputs: " + a.outputs.error)
      && (a.outputs.Pass? && a.saveLog.Fail? ==> ph.st.error == (if st.error == "" then a.saveLog.error else st.error))
      && (a.saveLog.Pass? && a.summarize.Fail? ==> ph.st.error == a.summarize.error)
      && (a.outputs.Pass? && a.saveLog.Pass? && a.summarize.Pass? ==> ph.st == st)
  {
  }

  /** `vmComplete` schedules the deletion of the record once, as its last call,
      with the job's final status. */
  lemma VMCompleteCleanup(job: JobTask, id: string, st: JobState, a: Answers, t: seq<Event>)
    requires forall e :: e in t ==> !IsCleanup(e)
    ensures var ph := VMCompleteSpec(job, id, st, a, t);
      && CleanupLastAndOnce(ph.events)
      && ph.events[|ph.events| - 1] == CleanupVMJob(id, ph.st.status)
  {
    var ph := VMCompleteSpec(job, id, st, a, t);
    CleanupAppended(VMOutputEvents(job, id, a, t) + [SummarizeSteps(job.name)], CleanupVMJob(id, ph.st.status));
  }

  /** `vmComplete`: the outputs come from the record (a missing record marks the
      job Failed), and the summaries always run. */
  lemma VMCompleteFacts(job: JobTask, id: string, st: JobState, a: Answers, t: seq<Event>)
    ensures var ph := VMCompleteSpec(job, id, st, a, t);
      && SummarizeSteps(job.name) in ph.events
      && ph.st.status == (if a.findVMJob.Found? then st.status else Failed)
      && (a.findVMJob.Found? ==> WriteOutputs(job.key, a.findVMJob.outputs) in ph.events)
      && (a.findVMJob.NotFound? && a.summarize.Pass? ==> ph.st.error == "get job outputs from job db error: vm job not found")
      && (a.summarize.Fail? ==> ph.st.error == a.summarize.error)
  {
  }
}
