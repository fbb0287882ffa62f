/** The job runner of `workflow/service/jobcontroller/job.go`: `runJob`, which
    marks a task running, fills in its default properties, hands it to the
    controller for its type and, in a deferred block, stamps the end time and
    acknowledges; and `Pool`, which drains a list of tasks through `runJob`.

    The two `time.Now()` readings of `runJob` are parameters. The logger's two
    lines per job are kept in a `RunLog`, apart from the backend calls and
    `ack()` invocations the `Recorder` holds. The worker goroutines of `Pool`
    are modelled as one sequential drain of the list. */
module JobRunner {
  import opened FreestyleJob
  import FreestyleJobProperties

  /** The one job type `runJob` creates no controller for. */
  const DeployJobType := "deploy"

  /** How `runJob` ends: it returns, or `jobCtl.Run` is called on a nil
      controller, which panics after the deferred block has run. */
  datatype RunOutcome = Returned | NilControllerFault

  /** The two lines the runner logs per job. */
  datatype LogLine = JobStarted(jobName: string, status: Status) | JobFinished(jobName: string, status: Status)

  class RunLog {
    var lines: seq<LogLine>

    constructor ()
      ensures lines == []
    {
      lines := [];
    }

    method Append(line: LogLine)
      modifies this
      ensures lines == old(lines) + [line]
    {
      lines := lines + [line];
    }
  }

  /** The task's own properties with `runJob`'s defaults filled in: each one is
      set afterwards, and one that was already set is kept. */
  function WithDefaults(p: JobProperties): (r: JobProperties)
    ensures r.timeout > 0 && r.resourceRequest != "" && r.clusterID != ""
    ensures p.timeout > 0 ==> r.timeout == p.timeout
    ensures p.timeout <= 0 ==> r.timeout == DefaultTimeout
    ensures p.resourceRequest != "" ==> r.resourceRequest == p.resourceRequest
    ensures p.resourceRequest == "" ==> r.resourceRequest == MinRequest
    ensures p.clusterID != "" ==> r.clusterID == p.clusterID
    ensures p.clusterID == "" ==> r.clusterID == LocalClusterID
  {
    JobProperties(
      if p.timeout <= 0 then DefaultTimeout else p.timeout,
      if p.resourceRequest == "" then MinRequest else p.resourceRequest,
      if p.clusterID == "" then LocalClusterID else p.clusterID)
  }

  /** Filling in the defaults twice is filling them in once. */
  lemma WithDefaultsIsIdempotent(p: JobProperties)
    ensures WithDefaults(WithDefaults(p)) == WithDefaults(p)
  {
  }

  /** The runner fills in the same defaults as the controller's `prepare`. */
  lemma RunnerAndPrepareAgreeOnDefaults(p: Properties)
    ensures var r := WithDefaults(JobProperties(p.timeout, p.resourceRequest, p.clusterID));
      var q := Prepared(p);
      r == JobProperties(q.timeout, q.resourceRequest, q.clusterID)
  {
  }

  /** The controller's state and trace after `runJob`; `ok` is false exactly
      when the run ends in a nil-controller fault. */
  function RunJobSpec(job: JobTask, wctx: WorkflowTaskCtx, st: JobState, a: Answers, t: seq<Event>): Phase {
    var running := st.(status := Running);
    if job.jobType == DeployJobType then
      Phase(running, t + [Ack], false)
    else
      var ph := RunSpec(job, wctx, running, a, t);
      Phase(ph.st, ph.events + [Ack], true)
  }

  /** Every run ends in the deferred `ack()`; a "deploy" task makes no backend
      call at all, any other runs the freestyle controller from status Running. */
  lemma RunJobAcksLast(job: JobTask, wctx: WorkflowTaskCtx, st: JobState, a: Answers)
    ensures var ph := RunJobSpec(job, wctx, st, a, []);
      && |ph.events| >= 1 && ph.events[|ph.events| - 1] == Ack
      && (ph.ok <==> job.jobType != DeployJobType)
      && (!ph.ok ==> ph.events == [Ack] && ph.st == st.(status := Running))
      && (ph.ok ==> ph.events[..|ph.events| - 1] == RunSpec(job, wctx, st.(status := Running), a, []).events)
  {
    var ph := RunJobSpec(job, wctx, st, a, []);
    if ph.ok {
      var run := RunSpec(job, wctx, st.(status := Running), a, []);
      assert ph.events == run.events + [Ack];
      assert ph.events[..|ph.events| - 1] == run.events;
    }
  }

  /** runJob: the job is running from `startTime` on, its properties carry the
      defaults, and on every exit the deferred block has stamped `endTime`,
      logged the final status and called `ack()`. */
  method RunJob(job: JobTask, wctx: WorkflowTaskCtx, rec: Recorder, log: RunLog, a: Answers, startClock: int, endClock: int)
      returns (outcome: RunOutcome)
    modifies job, rec, log
    ensures job.startTime == startClock && job.endTime == endClock
    ensures job.properties == WithDefaults(old(job.properties))
    ensures outcome == (if job.jobType == DeployJobType then NilControllerFault else Returned)
    ensures var ph := RunJobSpec(job, wctx, old(JobState(job.status, job.error, job.spec)), a, old(rec.events));
      JobState(job.status, job.error, job.spec) == ph.st && rec.events == ph.events
    ensures log.lines == old(log.lines) + [JobStarted(job.name, Running), JobFinished(job.name, job.status)]
  {
    job.status := Running;
    job.startTime := startClock;
    job.properties := WithDefaults(job.properties);
    log.Append(JobStarted(job.name, job.status));
    if job.jobType == DeployJobType {
      outcome := NilControllerFault;
    } else {
      var ctl := new FreestyleJobCtl(job, wctx, rec, a);
      ctl.Run();
      outcome := Returned;
    }
    // the deferred block
    job.endTime := endClock;
    log.Append(JobFinished(job.name, job.status));
    rec.Emit(Ack);
  }

  /** The index of the first "deploy" task, or |jobs| when there is none. */
  function FirstDeploy(jobs: seq<JobTask>): (r: nat)
    ensures r <= |jobs|
    ensures forall k :: 0 <= k < r ==> jobs[k].jobType != DeployJobType
    ensures r < |jobs| ==> jobs[r].jobType == DeployJobType
  {
    if |jobs| == 0 then 0
    else if jobs[0].jobType == DeployJobType then 0
    else 1 + FirstDeploy(jobs[1..])
  }

  /** What a drain can change of one task: its state, its two time stamps and
      its properties. */
  datatype TaskView = TaskView(st: JobState, startTime: int, endTime: int, properties: JobProperties)

  ghost function View(job: JobTask): TaskView
    reads job
  {
    TaskView(JobState(job.status, job.error, job.spec), job.startTime, job.endTime, job.properties)
  }

  /** The tasks' views, in list order. */
  ghost function Views(jobs: seq<JobTask>): (r: seq<TaskView>)
    reads set j | j in jobs
    ensures |r| == |jobs|
    ensures forall k :: 0 <= k < |jobs| ==> r[k] == View(jobs[k])
  {
    seq(|jobs|, k requires 0 <= k < |jobs| reads set j | j in jobs => View(jobs[k]))
  }

  /** No task appears twice in the list. */
  predicate Distinct(jobs: seq<JobTask>) {
    forall a, b :: 0 <= a < b < |jobs| ==> jobs[a] != jobs[b]
  }

  /** The tasks' views, the backend trace and the runner's log lines. */
  datatype Drained = Drained(views: seq<TaskView>, events: seq<Event>, lines: seq<LogLine>)

  /** runJob only appends to the trace it starts from, and the state it
      leaves does not depend on that trace. */
  lemma RunJobOnlyAppends(job: JobTask, wctx: WorkflowTaskCtx, st: JobState, a: Answers, t: seq<Event>)
    ensures var own := RunJobSpec(job, wctx, st, a, []);
      RunJobSpec(job, wctx, st, a, t) == own.(events := t + own.events)
  {
    if job.jobType != DeployJobType {
      FreestyleJobProperties.RunOnlyAppends(job, wctx, st.(status := Running), a, t);
      var run0 := RunSpec(job, wctx, st.(status := Running), a, []);
      assert (t + run0.events) + [Ack] == t + (run0.events + [Ack]);
    }
  }

  /** Each task's own run: `runJob` from the state in `views`, on an empty
      trace. By `RunJobOnlyAppends` a run after others records the same calls
      after theirs and leaves the same state. */
  function OwnRuns(jobs: seq<JobTask>, wctx: WorkflowTaskCtx, answers: seq<Answers>, views: seq<TaskView>): (r: seq<Phase>)
    requires |answers| == |jobs| && |views| == |jobs|
    ensures |r| == |jobs|
  {
    seq(|jobs|, k requires 0 <= k < |jobs| => RunJobSpec(jobs[k], wctx, views[k].st, answers[k], []))
  }

  /** The runs of tasks `0 .. n-1`, in list order, from `d`: task `k` takes
      the state its own run `own[k]` leaves and the clock readings
      `clock[k]`, its properties get their defaults, its calls follow those
      before it, and the log gains its start and finish lines. */
  function Drain(jobs: seq<JobTask>, own: seq<Phase>, clock: seq<(int, int)>, d: Drained, n: nat): (r: Drained)
    requires n <= |jobs| && |own| == |jobs| && |clock| == |jobs| && |d.views| == |jobs|
    ensures |r.views| == |jobs|
  {
    if n == 0 then d
    else
      var p := Drain(jobs, own, clock, d, n - 1);
      var k := n - 1;
      Drained(p.views[k := TaskView(own[k].st, clock[k].0, clock[k].1, WithDefaults(p.views[k].properties))],
              p.events + own[k].events,
              p.lines + [JobStarted(jobs[k].name, Running), JobFinished(jobs[k].name, own[k].st.status)])
  }

  /** A drain of the first `n` tasks leaves every later task as it was. */
  lemma {:induction false} DrainLeavesLaterTasks(jobs: seq<JobTask>, own: seq<Phase>, clock: seq<(int, int)>, d: Drained, n: nat, k: nat)
    requires n <= k < |jobs| && |own| == |jobs| && |clock| == |jobs| && |d.views| == |jobs|
    ensures Drain(jobs, own, clock, d, n).views[k] == d.views[k]
  {
    if n > 0 {
      DrainLeavesLaterTasks(jobs, own, clock, d, n - 1, k);
    }
  }

  /** In a drain of the first `n` tasks, task `k < n` ran once: it holds the
      state its own run leaves, the clock readings `clock[k]` and its prior
      properties with the defaults filled in; later runs leave it alone. */
  lemma {:induction false} DrainRunsEachTaskOnce(jobs: seq<JobTask>, own: seq<Phase>, clock: seq<(int, int)>, d: Drained, n: nat, k: nat)
    requires k < n <= |jobs| && |own| == |jobs| && |clock| == |jobs| && |d.views| == |jobs|
    ensures Drain(jobs, own, clock, d, n).views[k] == TaskView(own[k].st, clock[k].0, clock[k].1, WithDefaults(d.views[k].properties))
  {
    if n == k + 1 {
      DrainLeavesLaterTasks(jobs, own, clock, d, k, k);
    } else {
      DrainRunsEachTaskOnce(jobs, own, clock, d, n - 1, k);
    }
  }

  /** `lines` is `prior` followed, per task `k < n` in list order, by a start
      line with status Running and a finish line with the status in
      `views[k]`. */
  predicate LoggedRuns(lines: seq<LogLine>, prior: seq<LogLine>, jobs: seq<JobTask>, views: seq<TaskView>, n: nat)
    requires n <= |jobs| && |views| == |jobs|
  {
    && |lines| == |prior| + 2 * n && lines[..|prior|] == prior
    && forall k :: 0 <= k < n ==>
         && lines[|prior| + 2 * k] == JobStarted(jobs[k].name, Running)
         && lines[|prior| + 2 * k + 1] == JobFinished(jobs[k].name, views[k].st.status)
  }

  /** The log of a drain of the first `n` tasks logs each run, in list order,
      with the status that task ends with. */
  lemma {:induction false} DrainLogsEachRun(jobs: seq<JobTask>, own: seq<Phase>, clock: seq<(int, int)>, d: Drained, n: nat)
    requires n <= |jobs| && |own| == |jobs| && |clock| == |jobs| && |d.views| == |jobs|
    ensures var r := Drain(jobs, own, clock, d, n);
      LoggedRuns(r.lines, d.lines, jobs, r.views, n)
  {
    if n > 0 {
      DrainLogsEachRun(jobs, own, clock, d, n - 1);
      var p := Drain(jobs, own, clock, d, n - 1);
      var r := Drain(jobs, own, clock, d, n);
      var k := n - 1;
      var v := TaskView(own[k].st, clock[k].0, clock[k].1, WithDefaults(p.views[k].properties));
      LoggedRunsExtend(p.lines, r.lines, d.lines, jobs, p.views, v, n - 1);
    }
  }

  /** One more run logged after `n` runs. */
  lemma LoggedRunsExtend(before: seq<LogLine>, after: seq<LogLine>, prior: seq<LogLine>, jobs: seq<JobTask>,
                         views: seq<TaskView>, v: TaskView, n: nat)
    requires n < |jobs| && |views| == |jobs| && LoggedRuns(before, prior, jobs, views, n)
    requires after == before + [JobStarted(jobs[n].name, Running), JobFinished(jobs[n].name, v.st.status)]
    ensures LoggedRuns(after, prior, jobs, views[n := v], n + 1)
  {
    forall k | 0 <= k < n
      ensures after[|prior| + 2 * k] == JobStarted(jobs[k].name, Running)
      ensures after[|prior| + 2 * k + 1] == JobFinished(jobs[k].name, views[n := v][k].st.status)
    {
      assert views[n := v][k] == views[k];
    }
    assert after[..|prior|] == before[..|prior|];
  }

  /** The calls of runs `0 .. n-1`, one run's after the other's. */
  function RunsEvents(own: seq<Phase>, n: nat): seq<Event>
    requires n <= |own|
  {
    if n == 0 then [] else RunsEvents(own, n - 1) + own[n - 1].events
  }

  /** The trace of a drain of the first `n` tasks is the prior trace followed
      by each task's own calls, in list order. */
  lemma {:induction false} DrainTraceIsEachRunInTurn(jobs: seq<JobTask>, own: seq<Phase>, clock: seq<(int, int)>, d: Drained, n: nat)
    requires n <= |jobs| && |own| == |jobs| && |clock| == |jobs| && |d.views| == |jobs|
    ensures Drain(jobs, own, clock, d, n).events == d.events + RunsEvents(own, n)
  {
    if n > 0 {
      DrainTraceIsEachRunInTurn(jobs, own, clock, d, n - 1);
      FreestyleJobProperties.AppendAssoc(d.events, RunsEvents(own, n - 1), own[n - 1].events);
    }
  }

  /** Pool: a worker group that runs every task of its list. */
  class Pool {
    const jobs: seq<JobTask>
    const workflowCtx: WorkflowTaskCtx
    const concurrency: int
    const rec: Recorder
    const log: RunLog
    /** The backend's answers for each task, in list order. */
    const answers: seq<Answers>
    /** The WaitGroup counter: tasks registered and not yet done. */
    var pending: int
    /** The tasks handed to the workers so far. */
    var handedOut: nat

    /** NewPool. */
    constructor (jobs: seq<JobTask>, workflowCtx: WorkflowTaskCtx, concurrency: int, rec: Recorder, log: RunLog, answers: seq<Answers>)
      ensures this.jobs == jobs && this.workflowCtx == workflowCtx && this.concurrency == concurrency
      ensures this.rec == rec && this.log == log && this.answers == answers
      ensures pending == 0 && handedOut == 0
    {
      this.jobs, this.workflowCtx, this.concurrency := jobs, workflowCtx, concurrency;
      this.rec, this.log, this.answers := rec, log, answers;
      pending, handedOut := 0, 0;
    }

    /** The tasks, the trace and the log, together. */
    ghost function Observed(): Drained
      reads set j | j in jobs
      reads rec, log
    {
      Drained(Views(jobs), rec.events, log.lines)
    }

    /** The drain of the first `n` tasks from `d`, each task run from its
        view in `d`. */
    ghost function DrainFrom(clock: seq<(int, int)>, d: Drained, n: nat): Drained
      requires n <= |jobs| && |answers| == |jobs| && |clock| == |jobs| && |d.views| == |jobs|
    {
      Drain(jobs, OwnRuns(jobs, workflowCtx, answers, d.views), clock, d, n)
    }

    /** The number of tasks a drain hands out: up to and including the first
        "deploy" task, or all of them. */
    function HandedOut(): (r: nat)
      ensures r <= |jobs|
    {
      if FirstDeploy(jobs) < |jobs| then FirstDeploy(jobs) + 1 else |jobs|
    }

    /** Run: registers every task, hands each one out once, in order, and
        returns when all are done; a "deploy" task ends the drain with the
        nil-controller fault after its deferred block. The tasks, the trace
        and the log end as the drain of the tasks that were handed out, each
        run from the state the task had when `Run` was called. */
    method Run(clock: seq<(int, int)>) returns (outcome: RunOutcome)
      requires concurrency > 0 || |jobs| == 0
      requires |answers| == |jobs| && |clock| == |jobs|
      requires Distinct(jobs)
      modifies this, rec, log, set j | j in jobs
      ensures var f := FirstDeploy(jobs);
        && (outcome == Returned <==> f == |jobs|)
        && (f == |jobs| ==> handedOut == old(handedOut) + |jobs| && pending == old(pending))
        && (f < |jobs| ==> handedOut == old(handedOut) + f + 1 && pending == old(pending) + |jobs| - f)
      ensures Observed() == DrainFrom(clock, old(Observed()), HandedOut())
    {
      pending := pending + |jobs|;
      assert Observed() == old(Observed());
      outcome := Dispatch(clock);
    }

    /** The sends of `Run`, with the workers' turns they start: task after
        task until the list is done or a run ends in the nil-controller
        fault. */
    method Dispatch(clock: seq<(int, int)>) returns (outcome: RunOutcome)
      requires |answers| == |jobs| && |clock| == |jobs|
      requires Distinct(jobs)
      modifies this, rec, log, set j | j in jobs
      ensures outcome == Returned <==> FirstDeploy(jobs) == |jobs|
      ensures handedOut == old(handedOut) + HandedOut()
      ensures pending == old(pending) - FirstDeploy(jobs)
      ensures Observed() == DrainFrom(clock, old(Observed()), HandedOut())
    {
      ghost var d0 := Observed();
      ghost var own := OwnRuns(jobs, workflowCtx, answers, d0.views);
      var i := 0;
      outcome := Returned;
      while i < |jobs|
        invariant 0 <= i <= |jobs| && i <= FirstDeploy(jobs)
        invariant outcome == Returned
        invariant handedOut == old(handedOut) + i && pending == old(pending) - i
        invariant Observed() == Drain(jobs, own, clock, d0, i)
      {
        outcome := Turn(i, clock, own, d0);
        if outcome == NilControllerFault {
          assert i == FirstDeploy(jobs);
          return;
        }
        i := i + 1;
      }
    }

    /** The drain's step `i`: one `Work` extends the drain of the tasks before
        task `i` by that task's own run. */
    method Turn(i: nat, clock: seq<(int, int)>, ghost own: seq<Phase>, ghost d0: Drained) returns (outcome: RunOutcome)
      requires i < |jobs| && |answers| == |jobs| && |clock| == |jobs| && |d0.views| == |jobs|
      requires Distinct(jobs)
      requires own == OwnRuns(jobs, workflowCtx, answers, d0.views)
      requires Observed() == Drain(jobs, own, clock, d0, i)
      modifies this, rec, log, jobs[i]
      ensures handedOut == old(handedOut) + 1
      ensures outcome == (if jobs[i].jobType == DeployJobType then NilControllerFault else Returned)
      ensures pending == (if outcome == Returned then old(pending) - 1 else old(pending))
      ensures Observed() == Drain(jobs, own, clock, d0, i + 1)
    {
      DrainLeavesLaterTasks(jobs, own, clock, d0, i, i);
      outcome := Work(i, clock[i]);
    }

    /** One turn of a worker's loop: the task is received, run by `runJob`
        and marked done, unless the run ended in the nil-controller fault.
        Its run records the same calls and leaves the same state as its own
        run on an empty trace, and every other task is left alone. */
    method Work(i: nat, clock: (int, int)) returns (outcome: RunOutcome)
      requires i < |jobs| && |answers| == |jobs|
      requires Distinct(jobs)
      modifies this, rec, log, jobs[i]
      ensures handedOut == old(handedOut) + 1
      ensures outcome == (if jobs[i].jobType == DeployJobType then NilControllerFault else Returned)
      ensures pending == (if outcome == Returned then old(pending) - 1 else old(pending))
      ensures jobs[i].startTime == clock.0 && jobs[i].endTime == clock.1
      ensures jobs[i].properties == WithDefaults(old(jobs[i].properties))
      ensures var ph := RunJobSpec(jobs[i], workflowCtx, old(JobState(jobs[i].status, jobs[i].error, jobs[i].spec)), answers[i], old(rec.events));
        JobState(jobs[i].status, jobs[i].error, jobs[i].spec) == ph.st && rec.events == ph.events
      ensures var own := RunJobSpec(jobs[i], workflowCtx, old(JobState(jobs[i].status, jobs[i].error, jobs[i].spec)), answers[i], []);
        JobState(jobs[i].status, jobs[i].error, jobs[i].spec) == own.st && rec.events == old(rec.events) + own.events
      ensures log.lines == old(log.lines) + [JobStarted(jobs[i].name, Running), JobFinished(jobs[i].name, jobs[i].status)]
      ensures Views(jobs) == old(Views(jobs))[i := View(jobs[i])]
    {
      ghost var before := Views(jobs);
      ghost var st := JobState(jobs[i].status, jobs[i].error, jobs[i].spec);
      RunJobOnlyAppends(jobs[i], workflowCtx, st, answers[i], rec.events);
      handedOut := handedOut + 1;
      outcome := RunJob(jobs[i], workflowCtx, rec, log, answers[i], clock.0, clock.1);
      if outcome == Returned {
        pending := pending - 1;
      }
      forall k | 0 <= k < |jobs|
        ensures Views(jobs)[k] == before[i := View(jobs[i])][k]
      {
        if k != i {
          assert jobs[k] != jobs[i];
        }
      }
    }
  }
}
