/** The custom-workflow (v4) service of
    `aslan/core/workflow/service/workflow/workflow_v4.go`: create, update,
    delete and list over the workflow collection and the task counters.

    The collection is a `WorkflowStore`: its documents in insertion order, the
    next document ID it hands out and the names of the counters that exist.
    Looking a workflow up by name finds the first document with that name;
    updating and deleting go by document ID, as the service does. Each
    database statement's failure, the clock and each job's instantiation are
    inputs. Every operation is a method on the store, proved to leave it as
    its `...Spec` function says; the service's rules are proved about those
    functions. */
module WorkflowV4 {
  import opened Results

  /** The prefix of a workflow's task counter name. */
  const CounterPrefix := "WorkflowTaskV4:"

  /** The type the list gives every v4 workflow. */
  const CommonWorkflowType := "common_workflow"

  /** The error a find reports when no document has the name. */
  const NoDocuments := "mongo: no documents in result"

  /** A job of a stage; its type-specific content is opaque here. */
  datatype Job = Job(name: string, jobType: string, spec: string)

  datatype Stage = Stage(name: string, jobs: seq<Job>)

  datatype WorkflowV4 = WorkflowV4(
    id: nat,
    name: string,
    project: string,
    stages: seq<Stage>,
    createdBy: string,
    updatedBy: string,
    createTime: int,
    updateTime: int)

  /** An entry of the workflow list (the legacy `Workflow` view). */
  datatype WorkflowEntry = WorkflowEntry(
    name: string,
    projectName: string,
    enabledStages: seq<string>,
    createTime: int,
    workflowType: string)

  /** The service's errors, each with its description. */
  datatype ServiceError =
    | ErrUpsertWorkflow(desc: string)
    | ErrFindWorkflow(desc: string)
    | ErrDeleteWorkflow(desc: string)

  /** The answers of the database statements an operation makes. */
  datatype Faults = Faults(find: Outcome, write: Outcome, counter: Outcome)

  /** `jobctl.Instantiate`: the job after instantiation against a workflow, or an error. */
  type Instantiator = (Job, WorkflowV4) -> Result<Job>

  datatype StoreState = StoreState(docs: seq<WorkflowV4>, nextID: nat, counters: set<string>)

  /** Every document has its own ID, below the next one to be handed out. */
  predicate Valid(s: StoreState) {
    && (forall d :: d in s.docs ==> d.id < s.nextID)
    && IdsDistinct(s.docs)
  }

  predicate IdsDistinct(docs: seq<WorkflowV4>) {
    forall k, l :: 0 <= k < l < |docs| ==> docs[k].id != docs[l].id
  }

  /** No two documents share a name. */
  predicate NamesUnique(docs: seq<WorkflowV4>) {
    forall k, l :: 0 <= k < l < |docs| ==> docs[k].name != docs[l].name
  }

  // ---------------------------------------------------------------------------
  // The collection's statements

  /** The position of the first document named `name`, or -1. */
  function FindByName(docs: seq<WorkflowV4>, name: string): (r: int)
    ensures -1 <= r < |docs|
    ensures r >= 0 ==> docs[r].name == name && forall k :: 0 <= k < r ==> docs[k].name != name
    ensures r == -1 <==> forall k :: 0 <= k < |docs| ==> docs[k].name != name
  {
    if |docs| == 0 then -1
    else if docs[0].name == name then 0
    else var r := FindByName(docs[1..], name); if r == -1 then -1 else r + 1
  }

  /** What `Find(name)` answers: the position found, or an error when the
      statement fails or no document has the name. */
  function FindAnswer(docs: seq<WorkflowV4>, name: string, fault: Outcome): (r: Result<nat>)
    ensures r.Ok? <==> fault.Pass? && exists k :: 0 <= k < |docs| && docs[k].name == name
    ensures r.Ok? ==> r.value < |docs| && docs[r.value].name == name
  {
    if fault.Fail? then Err(fault.error)
    else
      var k := FindByName(docs, name);
      if k == -1 then Err(NoDocuments) else Ok(k)
  }

  /** `DeleteByID`: the documents without those with that ID. */
  function RemoveID(docs: seq<WorkflowV4>, id: nat): (r: seq<WorkflowV4>)
    ensures forall d :: d in r <==> d in docs && d.id != id
    ensures |r| <= |docs|
  {
    if |docs| == 0 then []
    else (if docs[0].id == id then [] else [docs[0]]) + RemoveID(docs[1..], id)
  }

  /** `Update(id, w)`: every document with that ID replaced by `w`. */
  function ReplaceID(docs: seq<WorkflowV4>, id: nat, w: WorkflowV4): (r: seq<WorkflowV4>)
    ensures |r| == |docs|
    ensures forall k :: 0 <= k < |docs| ==> r[k] == (if docs[k].id == id then w else docs[k])
  {
    seq(|docs|, k requires 0 <= k < |docs| => if docs[k].id == id then w else docs[k])
  }

  // ---------------------------------------------------------------------------
  // Job instantiation

  /** Stage `i` and job `j` name a position of `wf`, or the place just past a stage's last job. */
  predicate AtOrPast(wf: WorkflowV4, i: nat, j: nat) {
    i <= |wf.stages| && (i < |wf.stages| ==> j <= |wf.stages[i].jobs|)
  }

  /** The same stages, with the same names and the same number of jobs each. */
  predicate SameShape(a: WorkflowV4, b: WorkflowV4) {
    && |a.stages| == |b.stages|
    && forall p :: 0 <= p < |a.stages| ==> a.stages[p].name == b.stages[p].name && |a.stages[p].jobs| == |b.stages[p].jobs|
  }

  function WithJob(wf: WorkflowV4, i: nat, j: nat, job: Job): (r: WorkflowV4)
    requires i < |wf.stages| && j < |wf.stages[i].jobs|
  {
    wf.(stages := wf.stages[i := wf.stages[i].(jobs := wf.stages[i].jobs[j := job])])
  }

  /** The nested instantiation loop from stage `i`, job `j` on: each job is
      instantiated in order against `against`, or, when that is None, against
      the workflow as instantiated so far, and replaced by the result; the
      first failure ends the loop. */
  function InstantiateFrom(wf: WorkflowV4, i: nat, j: nat, against: Option<WorkflowV4>, inst: Instantiator): (r: Result<WorkflowV4>)
    requires AtOrPast(wf, i, j)
    ensures r.Ok? ==> SameShape(r.value, wf) && r.value.(stages := wf.stages) == wf
    decreases |wf.stages| - i, if i < |wf.stages| then |wf.stages[i].jobs| - j else 0
  {
    if i == |wf.stages| then Ok(wf)
    else if j == |wf.stages[i].jobs| then InstantiateFrom(wf, i + 1, 0, against, inst)
    else
      var context := if against.Some? then against.value else wf;
      match inst(wf.stages[i].jobs[j], context)
      case Err(e) => Err(e)
      case Ok(job) => InstantiateFrom(WithJob(wf, i, j, job), i, j + 1, against, inst)
  }

  /** Position (p, q) comes at or after position (i, j) in loop order. */
  predicate NotBefore(i: nat, j: nat, p: nat, q: nat) {
    p > i || (p == i && q >= j)
  }

  /** Instantiated against a fixed workflow, the loop from (i, j) on succeeds
      exactly when every job from there on instantiates, and then each of
      those jobs is replaced by its own instantiation and every earlier job
      is left alone. */
  lemma {:induction false} InstantiateAgainstFixed(wf: WorkflowV4, i: nat, j: nat, c: WorkflowV4, inst: Instantiator)
    requires AtOrPast(wf, i, j)
    ensures var r := InstantiateFrom(wf, i, j, Some(c), inst);
      && (r.Ok? <==> forall p, q :: 0 <= p < |wf.stages| && 0 <= q < |wf.stages[p].jobs| && NotBefore(i, j, p, q) ==>
                       inst(wf.stages[p].jobs[q], c).Ok?)
      && (r.Ok? ==> forall p, q :: 0 <= p < |wf.stages| && 0 <= q < |wf.stages[p].jobs| ==>
                      r.value.stages[p].jobs[q] ==
                        if NotBefore(i, j, p, q) then inst(wf.stages[p].jobs[q], c).value else wf.stages[p].jobs[q])
    decreases |wf.stages| - i, if i < |wf.stages| then |wf.stages[i].jobs| - j else 0
  {
    if i == |wf.stages| {
    } else if j == |wf.stages[i].jobs| {
      InstantiateAgainstFixed(wf, i + 1, 0, c, inst);
    } else {
      var a := inst(wf.stages[i].jobs[j], c);
      if a.Ok? {
        var next := WithJob(wf, i, j, a.value);
        InstantiateAgainstFixed(next, i, j + 1, c, inst);
        assert forall p, q :: 0 <= p < |wf.stages| && 0 <= q < |wf.stages[p].jobs| && !(p == i && q == j) ==>
          next.stages[p].jobs[q] == wf.stages[p].jobs[q];
      }
    }
  }

  /** A workflow without jobs has nothing to instantiate and comes back as it is. */
  lemma {:induction false} NoJobsNothingToInstantiate(wf: WorkflowV4, i: nat, against: Option<WorkflowV4>, inst: Instantiator)
    requires i <= |wf.stages|
    requires forall p :: 0 <= p < |wf.stages| ==> |wf.stages[p].jobs| == 0
    ensures InstantiateFrom(wf, i, 0, against, inst) == Ok(wf)
    decreases |wf.stages| - i
  {
    if i < |wf.stages| {
      NoJobsNothingToInstantiate(wf, i + 1, against, inst);
    }
  }

  /** One turn of the inner loop: a job that instantiates is replaced, and the
      loop goes on from the next job. */
  lemma InstantiateStep(wf: WorkflowV4, i: nat, j: nat, against: Option<WorkflowV4>, inst: Instantiator)
    requires i < |wf.stages| && j < |wf.stages[i].jobs|
    requires inst(wf.stages[i].jobs[j], if against.Some? then against.value else wf).Ok?
    ensures var next := WithJob(wf, i, j, inst(wf.stages[i].jobs[j], if against.Some? then against.value else wf).value);
      && SameShape(next, wf) && j + 1 <= |next.stages[i].jobs|
      && InstantiateFrom(wf, i, j, against, inst) == InstantiateFrom(next, i, j + 1, against, inst)
  {
  }

  /** The nested loop over stages and jobs. */
  method InstantiateJobs(wf: WorkflowV4, against: Option<WorkflowV4>, inst: Instantiator) returns (r: Result<WorkflowV4>)
    ensures r == InstantiateFrom(wf, 0, 0, against, inst)
  {
    var cur := wf;
    var i := 0;
    while i < |cur.stages|
      invariant SameShape(cur, wf) && i <= |cur.stages|
      invariant InstantiateFrom(wf, 0, 0, against, inst) == InstantiateFrom(cur, i, 0, against, inst)
    {
      var next := InstantiateStage(cur, i, against, inst);
      if next.Err? {
        return next;
      }
      cur := next.value;
      i := i + 1;
    }
    return Ok(cur);
  }

  /** The inner loop, over the jobs of stage `i`. */
  method InstantiateStage(wf: WorkflowV4, i: nat, against: Option<WorkflowV4>, inst: Instantiator) returns (r: Result<WorkflowV4>)
    requires i < |wf.stages|
    ensures r.Err? ==> r == InstantiateFrom(wf, i, 0, against, inst)
    ensures r.Ok? ==> SameShape(r.value, wf) && InstantiateFrom(wf, i, 0, against, inst) == InstantiateFrom(r.value, i + 1, 0, against, inst)
  {
    var cur := wf;
    var j := 0;
    while j < |cur.stages[i].jobs|
      invariant SameShape(cur, wf) && j <= |cur.stages[i].jobs|
      invariant InstantiateFrom(wf, i, 0, against, inst) == InstantiateFrom(cur, i, j, against, inst)
    {
      var context := if against.Some? then against.value else cur;
      var a := inst(cur.stages[i].jobs[j], context);
      if a.Err? {
        return Err(a.error);
      }
      InstantiateStep(cur, i, j, against, inst);
      cur := WithJob(cur, i, j, a.value);
      j := j + 1;
    }
    return Ok(cur);
  }

  // ---------------------------------------------------------------------------
  // The operations, as functions of the store

  datatype Change = Change(state: StoreState, err: Option<ServiceError>)

  function CreateSpec(s: StoreState, user: string, wf: WorkflowV4, now: int, inst: Instantiator, f: Faults): Change {
    if FindAnswer(s.docs, wf.name, f.find).Ok? then
      Change(s, Some(ErrUpsertWorkflow("workflow v4 [" + wf.name + "] already exists in project [" + wf.project + "]")))
    else
      var stamped := wf.(createdBy := user, updatedBy := user, createTime := now, updateTime := now);
      match InstantiateFrom(stamped, 0, 0, None, inst)
      case Err(e) => Change(s, Some(ErrUpsertWorkflow(e)))
      case Ok(w) =>
        if f.write.Fail? then Change(s, Some(ErrUpsertWorkflow(f.write.error)))
        else Change(s.(docs := s.docs + [w.(id := s.nextID)], nextID := s.nextID + 1), None)
  }

  function UpdateSpec(s: StoreState, name: string, user: string, input: WorkflowV4, now: int, inst: Instantiator, f: Faults): Change {
    match FindAnswer(s.docs, name, f.find)
    case Err(e) => Change(s, Some(ErrFindWorkflow(e)))
    case Ok(k) =>
      var stored := s.docs[k];
      var stamped := input.(updatedBy := user, updateTime := now, id := stored.id);
      match InstantiateFrom(stamped, 0, 0, Some(stored), inst)
      case Err(e) => Change(s, Some(ErrUpsertWorkflow(e)))
      case Ok(w) =>
        if f.write.Fail? then Change(s, Some(ErrUpsertWorkflow(f.write.error)))
        else Change(s.(docs := ReplaceID(s.docs, stored.id, w)), None)
  }

  function DeleteSpec(s: StoreState, name: string, f: Faults): Change {
    match FindAnswer(s.docs, name, f.find)
    case Err(e) => Change(s, Some(ErrDeleteWorkflow(e)))
    case Ok(k) =>
      if f.write.Fail? then Change(s, Some(ErrDeleteWorkflow(f.write.error)))
      else
        var docs := RemoveID(s.docs, s.docs[k].id);
        var counters := if f.counter.Fail? then s.counters else s.counters - {CounterPrefix + name};
        Change(StoreState(docs, s.nextID, counters), None)
  }

  // ---------------------------------------------------------------------------
  // Properties of the operations

  /** A create whose name is found fails with ErrUpsertWorkflow and stores nothing. */
  lemma CreateRejectsDuplicates(s: StoreState, user: string, wf: WorkflowV4, now: int, inst: Instantiator, f: Faults)
    requires f.find.Pass? && exists k :: 0 <= k < |s.docs| && s.docs[k].name == wf.name
    ensures var c := CreateSpec(s, user, wf, now, inst, f);
      c.state == s && c.err.Some? && c.err.value.ErrUpsertWorkflow?
  {
  }

  /** A create either stores nothing and reports an error, or appends the
      instantiated workflow under a fresh ID with its creator and last
      updater both the user; an instantiation failure always stores nothing. */
  lemma CreateOutcome(s: StoreState, user: string, wf: WorkflowV4, now: int, inst: Instantiator, f: Faults)
    ensures var c := CreateSpec(s, user, wf, now, inst, f);
      && (c.err.Some? <==> c.state == s)
      && (c.err.None? ==>
            && c.state.docs[..|s.docs|] == s.docs && |c.state.docs| == |s.docs| + 1
            && var w := c.state.docs[|s.docs|];
            && w.id == s.nextID && w.name == wf.name && w.project == wf.project
            && w.createdBy == user && w.updatedBy == user && w.createTime == now && w.updateTime == now
            && SameShape(w, wf))
      && (FindAnswer(s.docs, wf.name, f.find).Err? && InstantiateFrom(wf.(createdBy := user, updatedBy := user, createTime := now, updateTime := now), 0, 0, None, inst).Err? ==>
            c.state == s && c.err.value.ErrUpsertWorkflow?)
  {
    var c := CreateSpec(s, user, wf, now, inst, f);
    if c.err.None? {
      assert c.state.docs[..|s.docs|] == s.docs;
    }
  }

  /** Create keeps the IDs unique, and, while the find answers, the names too. */
  lemma CreateKeepsStoreValid(s: StoreState, user: string, wf: WorkflowV4, now: int, inst: Instantiator, f: Faults)
    requires Valid(s)
    ensures Valid(CreateSpec(s, user, wf, now, inst, f).state)
    ensures f.find.Pass? && NamesUnique(s.docs) ==> NamesUnique(CreateSpec(s, user, wf, now, inst, f).state.docs)
  {
    var c := CreateSpec(s, user, wf, now, inst, f);
    if c.err.None? && f.find.Pass? && NamesUnique(s.docs) {
      assert forall k :: 0 <= k < |s.docs| ==> s.docs[k].name != wf.name;
      assert forall k :: 0 <= k < |s.docs| ==> c.state.docs[k] == s.docs[k];
    }
  }

  /** An update of a missing workflow fails with ErrFindWorkflow; a
      successful one replaces the stored document by the input, which keeps
      the stored ID and has the user as its last updater, and each of whose
      jobs is instantiated against the stored workflow, not the input. */
  lemma UpdateOutcome(s: StoreState, name: string, user: string, input: WorkflowV4, now: int, inst: Instantiator, f: Faults)
    requires Valid(s)
    ensures var c := UpdateSpec(s, name, user, input, now, inst, f);
      && (c.err.Some? ==> c.state == s)
      && (f.find.Pass? && (forall k :: 0 <= k < |s.docs| ==> s.docs[k].name != name) ==>
            c == Change(s, Some(ErrFindWorkflow(NoDocuments))))
      && (c.err.None? ==>
            var k := FindByName(s.docs, name);
            && 0 <= k < |s.docs|
            && c.state.nextID == s.nextID && c.state.counters == s.counters && |c.state.docs| == |s.docs|
            && (forall l :: 0 <= l < |s.docs| && l != k ==> c.state.docs[l] == s.docs[l])
            && var w := c.state.docs[k];
            && w.id == s.docs[k].id && w.updatedBy == user && w.updateTime == now
            && w.name == input.name && w.createdBy == input.createdBy && SameShape(w, input)
            && w.(stages := input.stages) == input.(updatedBy := user, updateTime := now, id := s.docs[k].id)
            && forall p, q :: 0 <= p < |input.stages| && 0 <= q < |input.stages[p].jobs| ==>
                 inst(input.stages[p].jobs[q], s.docs[k]) == Ok(w.stages[p].jobs[q]))
  {
    var c := UpdateSpec(s, name, user, input, now, inst, f);
    if c.err.None? {
      var k := FindByName(s.docs, name);
      var stamped := input.(updatedBy := user, updateTime := now, id := s.docs[k].id);
      InstantiateAgainstFixed(stamped, 0, 0, s.docs[k], inst);
    }
  }

  /** Update keeps the IDs unique. */
  lemma UpdateKeepsStoreValid(s: StoreState, name: string, user: string, input: WorkflowV4, now: int, inst: Instantiator, f: Faults)
    requires Valid(s)
    ensures Valid(UpdateSpec(s, name, user, input, now, inst, f).state)
  {
  }

  /** A delete of a missing workflow, or one whose delete statement fails,
      reports ErrDeleteWorkflow and changes nothing; otherwise the document
      is gone and, unless removing it fails (which is only logged), so is
      the workflow's task counter. */
  lemma DeleteOutcome(s: StoreState, name: string, f: Faults)
    requires Valid(s)
    ensures var c := DeleteSpec(s, name, f);
      && (c.err.Some? <==> FindAnswer(s.docs, name, f.find).Err? || f.write.Fail?)
      && (c.err.Some? ==> c.err.value.ErrDeleteWorkflow? && c.state == s)
      && (c.err.None? ==>
            var k := FindByName(s.docs, name);
            && 0 <= k < |s.docs|
            && s.docs[k] !in c.state.docs
            && (forall d :: d in s.docs && d != s.docs[k] ==> d in c.state.docs)
            && (forall d :: d in c.state.docs ==> d in s.docs)
            && (f.counter.Pass? ==> CounterPrefix + name !in c.state.counters)
            && c.state.counters - {CounterPrefix + name} == s.counters - {CounterPrefix + name})
  {
    var c := DeleteSpec(s, name, f);
    if c.err.None? {
      var k := FindByName(s.docs, name);
      forall d | d in s.docs && d != s.docs[k] ensures d in c.state.docs {
        var l :| 0 <= l < |s.docs| && s.docs[l] == d;
        assert l != k;
      }
    }
  }

  /** Delete keeps the IDs unique. */
  lemma DeleteKeepsStoreValid(s: StoreState, name: string, f: Faults)
    requires Valid(s)
    ensures Valid(DeleteSpec(s, name, f).state)
  {
    var c := DeleteSpec(s, name, f);
    if c.err.None? {
      RemoveIDKeepsValid(s, s.docs[FindByName(s.docs, name)].id);
    }
  }

  lemma {:induction false} RemoveIDKeepsValid(s: StoreState, id: nat)
    requires Valid(s)
    ensures Valid(s.(docs := RemoveID(s.docs, id)))
  {
    RemoveIDKeepsIdsDistinct(s.docs, id);
  }

  lemma {:induction false} RemoveIDKeepsIdsDistinct(docs: seq<WorkflowV4>, id: nat)
    requires IdsDistinct(docs)
    ensures IdsDistinct(RemoveID(docs, id))
    decreases |docs|
  {
    if |docs| > 0 {
      var tail := docs[1..];
      assert IdsDistinct(tail) by {
        forall k, l | 0 <= k < l < |tail| ensures tail[k].id != tail[l].id {
          assert tail[k] == docs[k + 1] && tail[l] == docs[l + 1];
        }
      }
      RemoveIDKeepsIdsDistinct(tail, id);
      if docs[0].id != id {
        forall d | d in RemoveID(tail, id) ensures d.id != docs[0].id {
          var l :| 0 <= l < |tail| && tail[l] == d;
          assert docs[l + 1] == d;
        }
        ConsKeepsIdsDistinct(docs[0], RemoveID(tail, id));
      }
    }
  }

  lemma ConsKeepsIdsDistinct(h: WorkflowV4, t: seq<WorkflowV4>)
    requires IdsDistinct(t) && forall d :: d in t ==> d.id != h.id
    ensures IdsDistinct([h] + t)
  {
    var u := [h] + t;
    forall k, l | 0 <= k < l < |u| ensures u[k].id != u[l].id {
      assert u[l] == t[l - 1];
      if k > 0 {
        assert u[k] == t[k - 1];
      }
    }
  }

  // ---------------------------------------------------------------------------
  // The store and the service

  class WorkflowStore {
    var docs: seq<WorkflowV4>
    var nextID: nat
    var counters: set<string>

    constructor ()
      ensures docs == [] && nextID == 0 && counters == {}
    {
      docs, nextID, counters := [], 0, {};
    }

    function State(): StoreState
      reads this
    {
      StoreState(docs, nextID, counters)
    }

    method Find(name: string, fault: Outcome) returns (r: Result<nat>)
      ensures r == FindAnswer(docs, name, fault)
    {
      if fault.Fail? {
        return Err(fault.error);
      }
      var k := 0;
      while k < |docs|
        invariant k <= |docs|
        invariant forall l :: 0 <= l < k ==> docs[l].name != name
      {
        if docs[k].name == name {
          return Ok(k);
        }
        k := k + 1;
      }
      return Err(NoDocuments);
    }

    /** Inserts `w` under the next ID. */
    method Insert(w: WorkflowV4)
      modifies this
      ensures docs == old(docs) + [w.(id := old(nextID))] && nextID == old(nextID) + 1 && counters == old(counters)
    {
      docs := docs + [w.(id := nextID)];
      nextID := nextID + 1;
    }

    method Update(id: nat, w: WorkflowV4)
      modifies this
      ensures docs == ReplaceID(old(docs), id, w) && nextID == old(nextID) && counters == old(counters)
    {
      docs := ReplaceID(docs, id, w);
    }

    method DeleteByID(id: nat)
      modifies this
      ensures docs == RemoveID(old(docs), id) && nextID == old(nextID) && counters == old(counters)
    {
      docs := RemoveID(docs, id);
    }

    method DeleteCounter(counterName: string)
      modifies this
      ensures docs == old(docs) && nextID == old(nextID) && counters == old(counters) - {counterName}
    {
      counters := counters - {counterName};
    }
  }

  /** CreateWorkflowV4. */
  method CreateWorkflowV4(store: WorkflowStore, user: string, wf: WorkflowV4, now: int, inst: Instantiator, f: Faults)
      returns (err: Option<ServiceError>)
    modifies store
    ensures var c := CreateSpec(old(store.State()), user, wf, now, inst, f);
      store.State() == c.state && err == c.err
  {
    var found := store.Find(wf.name, f.find);
    if found.Ok? {
      return Some(ErrUpsertWorkflow("workflow v4 [" + wf.name + "] already exists in project [" + wf.project + "]"));
    }
    var workflow := wf.(createdBy := user, updatedBy := user, createTime := now, updateTime := now);
    var instantiated := InstantiateJobs(workflow, None, inst);
    if instantiated.Err? {
      return Some(ErrUpsertWorkflow(instantiated.error));
    }
    if f.write.Fail? {
      return Some(ErrUpsertWorkflow(f.write.error));
    }
    store.Insert(instantiated.value);
    return None;
  }

  /** UpdateWorkflowV4. */
  method UpdateWorkflowV4(store: WorkflowStore, name: string, user: string, input: WorkflowV4, now: int, inst: Instantiator, f: Faults)
      returns (err: Option<ServiceError>)
    modifies store
    ensures var c := UpdateSpec(old(store.State()), name, user, input, now, inst, f);
      store.State() == c.state && err == c.err
  {
    var found := store.Find(name, f.find);
    if found.Err? {
      return Some(ErrFindWorkflow(found.error));
    }
    var workflow := store.docs[found.value];
    var inputWorkflow := input.(updatedBy := user, updateTime := now, id := workflow.id);
    var instantiated := InstantiateJobs(inputWorkflow, Some(workflow), inst);
    if instantiated.Err? {
      return Some(ErrUpsertWorkflow(instantiated.error));
    }
    if f.write.Fail? {
      return Some(ErrUpsertWorkflow(f.write.error));
    }
    store.Update(workflow.id, instantiated.value);
    return None;
  }

  /** DeleteWorkflowV4. */
  method DeleteWorkflowV4(store: WorkflowStore, name: string, f: Faults) returns (err: Option<ServiceError>)
    modifies store
    ensures var c := DeleteSpec(old(store.State()), name, f);
      store.State() == c.state && err == c.err
  {
    var found := store.Find(name, f.find);
    if found.Err? {
      return Some(ErrDeleteWorkflow(found.error));
    }
    if f.write.Fail? {
      return Some(ErrDeleteWorkflow(f.write.error));
    }
    store.DeleteByID(store.docs[found.value].id);
    if f.counter.Pass? {
      store.DeleteCounter(CounterPrefix + name);
    }
    return None;
  }

  // ---------------------------------------------------------------------------
  // The list

  /** The names of a workflow's stages, in order. */
  method StageNames(stages: seq<Stage>) returns (names: seq<string>)
    ensures |names| == |stages| && forall k :: 0 <= k < |stages| ==> names[k] == stages[k].name
  {
    names := [];
    for k := 0 to |stages|
      invariant |names| == k && forall l :: 0 <= l < k ==> names[l] == stages[l].name
    {
      names := names + [stages[k].name];
    }
  }

  /** ListWorkflowV4, given the answers of the v4 list query (a page of the
      project's workflows and the total) and of the legacy list: the legacy
      workflows first, then one entry per v4 workflow in order, and the v4
      total; on either error, nothing and 0. */
  method ListWorkflowV4(v4: Result<(seq<WorkflowV4>, int)>, legacy: Result<seq<WorkflowEntry>>)
      returns (resp: seq<WorkflowEntry>, total: int, err: Option<string>)
    ensures v4.Err? ==> resp == [] && total == 0 && err == Some(v4.error)
    ensures v4.Ok? && legacy.Err? ==> resp == [] && total == 0 && err == Some(legacy.error)
    ensures v4.Ok? && legacy.Ok? ==>
      && err.None? && total == v4.value.1
      && |resp| == |legacy.value| + |v4.value.0|
      && resp[..|legacy.value|] == legacy.value
      && forall k :: 0 <= k < |v4.value.0| ==>
           var w, e := v4.value.0[k], resp[|legacy.value| + k];
           && e.name == w.name && e.projectName == w.project && e.createTime == w.createTime
           && e.workflowType == CommonWorkflowType
           && |e.enabledStages| == |w.stages|
           && forall p :: 0 <= p < |w.stages| ==> e.enabledStages[p] == w.stages[p].name
  {
    resp := [];
    if v4.Err? {
      return resp, 0, Some(v4.error);
    }
    var (list, count) := v4.value;
    if legacy.Err? {
      return resp, 0, Some(legacy.error);
    }
    resp := resp + legacy.value;
    for k := 0 to |list|
      invariant |resp| == |legacy.value| + k && resp[..|legacy.value|] == legacy.value
      invariant forall l :: 0 <= l < k ==>
        var w, e := list[l], resp[|legacy.value| + l];
        && e.name == w.name && e.projectName == w.project && e.createTime == w.createTime
        && e.workflowType == CommonWorkflowType
        && |e.enabledStages| == |w.stages|
        && forall p :: 0 <= p < |w.stages| ==> e.enabledStages[p] == w.stages[p].name
    {
      var stages := StageNames(list[k].stages);
      resp := resp + [WorkflowEntry(list[k].name, list[k].project, stages, list[k].createTime, CommonWorkflowType)];
    }
    return resp, count, None;
  }
}
