/** The role service of `user/core/service/permission/role.go`, over an
    abstract relational store.

    The store (`RoleStore`) holds the role table, the role-action bindings,
    the user-role bindings and the action table. A transaction is modelled by
    working on copies of the tables and writing them back on commit, so a
    rollback leaves the store as it was. The package-level `ActionMap` cache
    lives outside any transaction: it is the `actionMap` field of
    `RoleService`, and entries added before a rollback stay. Database failures
    other than "no such row" are injected through `DbFaults`. */
module RoleService {
  import opened Results

  /** Role type codes of the `setting` package (only their distinctness matters). */
  const RoleTypeSystem := 1
  const RoleTypeCustom := 2
  const ResourceTypeSystem := "system"
  const ResourceTypeCustom := "custom"

  /** The names of the three roles every new project gets. */
  const ProjectAdminRole := "project-admin"
  const ReadOnlyRole := "read-only"
  const ReadProjectOnlyRole := "read-project-only"

  /** A row of the role table. */
  datatype Role = Role(id: nat, name: string, namespace: string, description: string, roleType: int)

  /** A row of the action table: a verb on a resource. */
  datatype Action = Action(id: nat, verb: string, resource: string)

  /** A user's membership of a role. */
  datatype UserRole = UserRole(uid: string, roleID: nat)

  datatype CreateRoleReq = CreateRoleReq(name: string, actions: seq<string>, namespace: string, desc: string, roleType: string)

  /** `types.Role`: a role as the API returns it. */
  datatype RoleView = RoleView(id: nat, name: string, namespace: string, description: string, roleType: string)

  datatype ResourceActions = ResourceActions(resource: string, verbs: seq<string>)

  /** `types.DetailedRole`. */
  datatype DetailedRole = DetailedRole(
    id: nat,
    name: string,
    namespace: string,
    description: string,
    roleType: string,
    resourceActions: seq<ResourceActions>)

  /** The errors a list query can come back with. */
  datatype DbError = RecordNotFound | DbFailure(message: string)

  /** The answer of each statement that can fail for reasons the model does not see. */
  datatype DbFaults = DbFaults(
    createRole: Outcome,
    bindActions: Outcome,
    deleteBindings: Outcome,
    updateRoleInfo: Outcome,
    listActions: Outcome,
    deleteRole: Outcome,
    bulkCreateRoles: Outcome,
    getRole: Outcome,     // orm.GetRole fails for a reason other than "no such row"
    getAction: Outcome)   // every orm.GetActionByVerb of the call fails

  // ---------------------------------------------------------------------------
  // Role types

  /** The role type a create request asks for: "system" or, for anything else, custom. */
  function RequestRoleType(t: string): (r: int)
    ensures r == RoleTypeSystem <==> t == ResourceTypeSystem
    ensures r == RoleTypeSystem || r == RoleTypeCustom
  {
    if t == ResourceTypeSystem then RoleTypeSystem else RoleTypeCustom
  }

  /** convertDBRoleType: the system code back to "system", every other code to "custom". */
  function ConvertDBRoleType(tid: int): (r: string)
    ensures r == ResourceTypeSystem <==> tid == RoleTypeSystem
    ensures r == ResourceTypeSystem || r == ResourceTypeCustom
  {
    if tid == RoleTypeSystem then ResourceTypeSystem else ResourceTypeCustom
  }

  /** "system" and "custom" survive the trip through the role table, and so do
      the two codes the other way round. */
  lemma RoleTypeRoundTrip(t: string, tid: int)
    ensures t == ResourceTypeSystem || t == ResourceTypeCustom ==> ConvertDBRoleType(RequestRoleType(t)) == t
    ensures tid == RoleTypeSystem || tid == RoleTypeCustom ==> RequestRoleType(ConvertDBRoleType(tid)) == tid
  {
  }

  // ---------------------------------------------------------------------------
  // Table lookups

  /** The position of the first role named `name` in namespace `ns`, or -1. */
  function FindRole(roles: seq<Role>, name: string, ns: string): (r: int)
    ensures -1 <= r < |roles|
    ensures r >= 0 ==> roles[r].name == name && roles[r].namespace == ns
    ensures r == -1 <==> forall k :: 0 <= k < |roles| ==> !(roles[k].name == name && roles[k].namespace == ns)
  {
    if |roles| == 0 then -1
    else if roles[|roles| - 1].name == name && roles[|roles| - 1].namespace == ns && FindRole(roles[..|roles| - 1], name, ns) == -1 then |roles| - 1
    else FindRole(roles[..|roles| - 1], name, ns)
  }

  /** orm.GetActionByVerb: the first action row with that verb. */
  function FindAction(table: seq<Action>, verb: string): (r: Option<Action>)
    ensures r.Some? ==> r.value in table && r.value.verb == verb
    ensures r.None? <==> forall k :: 0 <= k < |table| ==> table[k].verb != verb
  {
    if |table| == 0 then None
    else if table[0].verb == verb then Some(table[0])
    else FindAction(table[1..], verb)
  }

  /** The roles of namespace `ns`, in table order. */
  function RolesIn(roles: seq<Role>, ns: string): (r: seq<Role>)
    ensures forall x :: x in r <==> x in roles && x.namespace == ns
  {
    if |roles| == 0 then []
    else (if roles[0].namespace == ns then [roles[0]] else []) + RolesIn(roles[1..], ns)
  }

  /** The roles of namespace `ns` user `uid` is bound to, in table order. */
  function RolesOfUser(roles: seq<Role>, userRoles: seq<UserRole>, uid: string, ns: string): (r: seq<Role>)
    ensures forall x :: x in r <==> x in roles && x.namespace == ns && UserRole(uid, x.id) in userRoles
  {
    if |roles| == 0 then []
    else
      var head := if roles[0].namespace == ns && UserRole(uid, roles[0].id) in userRoles then [roles[0]] else [];
      head + RolesOfUser(roles[1..], userRoles, uid, ns)
  }

  /** orm.ListActionByRole: the action rows bound to a role, in table order. */
  function ActionsOfRole(table: seq<Action>, bound: seq<nat>): (r: seq<Action>)
    ensures forall a :: a in r <==> a in table && a.id in bound
  {
    if |table| == 0 then []
    else (if table[0].id in bound then [table[0]] else []) + ActionsOfRole(table[1..], bound)
  }

  function View(role: Role): RoleView {
    RoleView(role.id, role.name, role.namespace, role.description, ConvertDBRoleType(role.roleType))
  }

  function Views(roles: seq<Role>): (r: seq<RoleView>)
    ensures |r| == |roles| && forall k :: 0 <= k < |roles| ==> r[k] == View(roles[k])
  {
    if |roles| == 0 then [] else [View(roles[0])] + Views(roles[1..])
  }

  /** The answer of a list query: a failure other than "record not found" is
      an error; "record not found" is an empty list. */
  function ListAnswer(rows: seq<Role>, fault: Option<DbError>, what: string): (r: Result<seq<RoleView>>)
    ensures r.Err? <==> fault.Some? && fault.value.DbFailure?
    ensures fault == Some(RecordNotFound) ==> r == Ok([])
    ensures fault.None? ==> r == Ok(Views(rows))
  {
    match fault
    case Some(DbFailure(m)) => Err("failed to list roles in project: " + what + ", error: " + m)
    case Some(RecordNotFound) => Ok([])
    case None => Ok(Views(rows))
  }

  // ---------------------------------------------------------------------------
  // The action cache

  /** `ids` in front of a resolution's ID list; an error stays as it is. */
  function Prefixed(ids: seq<nat>, r: (Result<seq<nat>>, map<string, nat>)): (Result<seq<nat>>, map<string, nat>) {
    (if r.0.Ok? then Ok(ids + r.0.value) else r.0, r.1)
  }

  lemma PrefixedNothing(r: (Result<seq<nat>>, map<string, nat>))
    ensures Prefixed([], r) == r
  {
    if r.0.Ok? {
      assert [] + r.0.value == r.0.value;
    }
  }

  lemma PrefixedTwice(ids: seq<nat>, id: nat, r: (Result<seq<nat>>, map<string, nat>))
    ensures Prefixed(ids, Prefixed([id], r)) == Prefixed(ids + [id], r)
  {
    if r.0.Ok? {
      assert ids + ([id] + r.0.value) == ids + [id] + r.0.value;
    }
  }

  /** The action rows a GetActionByVerb query sees: all of them, or none when
      the query itself fails, which the source reports exactly as a missing verb. */
  function Visible(table: seq<Action>, lookup: Outcome): (r: seq<Action>)
    ensures lookup.Pass? ==> r == table
    ensures lookup.Fail? ==> forall v :: FindAction(r, v).None?
  {
    if lookup.Pass? then table else []
  }

  /** The action loop of Create/UpdateRole, left to right: a cached verb takes
      its cached ID, any other is looked up and cached; the first verb that is
      found nowhere stops the loop with an error. Gives the ID list and the
      cache afterwards. */
  function Resolve(cache: map<string, nat>, table: seq<Action>, verbs: seq<string>): (Result<seq<nat>>, map<string, nat>)
    decreases |verbs|
  {
    if |verbs| == 0 then (Ok([]), cache)
    else
      var v := verbs[0];
      if v in cache then Prefixed([cache[v]], Resolve(cache, table, verbs[1..]))
      else match FindAction(table, v)
        case None => (Err("failed to find verb: " + v + " in request, action might not exist"), cache)
        case Some(a) => Prefixed([a.id], Resolve(cache[v := a.id], table, verbs[1..]))
  }

  /** The cache only grows: no cached entry is removed or overwritten. */
  lemma {:induction false} ResolveOnlyAddsToCache(cache: map<string, nat>, table: seq<Action>, verbs: seq<string>)
    ensures var c := Resolve(cache, table, verbs).1;
      forall k :: k in cache ==> k in c && c[k] == cache[k]
    decreases |verbs|
  {
    if |verbs| > 0 {
      var v := verbs[0];
      if v in cache {
        ResolveOnlyAddsToCache(cache, table, verbs[1..]);
      } else if FindAction(table, v).Some? {
        var grown := cache[v := FindAction(table, v).value.id];
        ResolveOnlyAddsToCache(grown, table, verbs[1..]);
        assert Resolve(cache, table, verbs).1 == Resolve(grown, table, verbs[1..]).1;
        assert forall k :: k in cache ==> k in grown && grown[k] == cache[k];
      }
    }
  }

  /** Resolution succeeds exactly when every verb is cached or in the action
      table; the IDs then follow the verbs one for one, in order, each being
      the verb's entry in the resulting cache. */
  lemma {:induction false} ResolveResult(cache: map<string, nat>, table: seq<Action>, verbs: seq<string>)
    ensures var r := Resolve(cache, table, verbs);
      && (r.0.Ok? <==> forall k :: 0 <= k < |verbs| ==> verbs[k] in cache || FindAction(table, verbs[k]).Some?)
      && (r.0.Ok? ==> |r.0.value| == |verbs| && forall k :: 0 <= k < |verbs| ==> verbs[k] in r.1 && r.0.value[k] == r.1[verbs[k]])
    decreases |verbs|
  {
    if |verbs| > 0 {
      var v := verbs[0];
      var c1 := if v in cache then cache else if FindAction(table, v).Some? then cache[v := FindAction(table, v).value.id] else cache;
      if v in cache || FindAction(table, v).Some? {
        ResolveResult(c1, table, verbs[1..]);
        ResolveOnlyAddsToCache(c1, table, verbs[1..]);
        var r := Resolve(cache, table, verbs);
        var rest := Resolve(c1, table, verbs[1..]);
        assert r.1 == rest.1;
        assert forall k :: 1 <= k < |verbs| ==> verbs[k] == verbs[1..][k - 1];
        assert (forall k :: 0 <= k < |verbs| ==> verbs[k] in cache || FindAction(table, verbs[k]).Some?)
          <==> (forall k :: 0 <= k < |verbs[1..]| ==> verbs[1..][k] in c1 || FindAction(table, verbs[1..][k]).Some?);
      }
    }
  }

  /** A failure leaves the cache holding every verb before the one that could
      not be found: entries added before the rollback stay. */
  lemma {:induction false} ResolveFailureKeepsEarlierEntries(cache: map<string, nat>, table: seq<Action>, verbs: seq<string>, n: nat)
    requires n < |verbs| && verbs[n] !in cache && FindAction(table, verbs[n]).None?
    requires forall k :: 0 <= k < n ==> verbs[k] in cache || FindAction(table, verbs[k]).Some?
    ensures Resolve(cache, table, verbs).0.Err?
    ensures forall k :: 0 <= k < n ==> verbs[k] in Resolve(cache, table, verbs).1
    decreases n
  {
    var v := verbs[0];
    if n > 0 {
      var c1 := if v in cache then cache else cache[v := FindAction(table, v).value.id];
      assert forall k :: 0 <= k < n - 1 ==> verbs[1..][k] == verbs[k + 1];
      ResolveFailureKeepsEarlierEntries(c1, table, verbs[1..], n - 1);
      ResolveOnlyAddsToCache(c1, table, verbs[1..]);
    }
  }

  /** Cached verbs are never looked up again: when every verb is cached the
      action table plays no part, and the cache is left as it was. */
  lemma {:induction false} ResolveCachedIgnoresTable(cache: map<string, nat>, table: seq<Action>, other: seq<Action>, verbs: seq<string>)
    requires forall k :: 0 <= k < |verbs| ==> verbs[k] in cache
    ensures Resolve(cache, table, verbs) == Resolve(cache, other, verbs)
    ensures Resolve(cache, table, verbs).1 == cache
    decreases |verbs|
  {
    if |verbs| > 0 {
      assert forall k :: 0 <= k < |verbs| - 1 ==> verbs[1..][k] == verbs[k + 1];
      ResolveCachedIgnoresTable(cache, table, other, verbs[1..]);
    }
  }

  /** While the action lookup fails, the loop gets through exactly the requests
      whose verbs are all cached already. */
  lemma ResolveWithFailingLookup(cache: map<string, nat>, table: seq<Action>, verbs: seq<string>, e: string)
    ensures Resolve(cache, Visible(table, Fail(e)), verbs).0.Ok? <==> forall k :: 0 <= k < |verbs| ==> verbs[k] in cache
  {
    ResolveResult(cache, Visible(table, Fail(e)), verbs);
  }

  /** Resolving the verbs a cache was filled from again, against any table,
      gives the same IDs and leaves the cache as it is. */
  lemma ResolveIsStable(cache: map<string, nat>, table: seq<Action>, other: seq<Action>, verbs: seq<string>)
    requires Resolve(cache, table, verbs).0.Ok?
    ensures var r := Resolve(cache, table, verbs);
      Resolve(r.1, other, verbs) == (r.0, r.1)
  {
    var r := Resolve(cache, table, verbs);
    ResolveResult(cache, table, verbs);
    ResolveCachedIgnoresTable(r.1, other, other, verbs);
    ResolveResult(r.1, other, verbs);
    var again := Resolve(r.1, other, verbs);
    assert again.1 == r.1;
    assert again.0.value == r.0.value;
  }

  // ---------------------------------------------------------------------------
  // Sorted verb lists (`sets.String.List`)

  /** Go's byte-wise string order (on code points, which orders UTF-8 the same way). */
  predicate Below(a: string, b: string)
    decreases |a|
  {
    |a| == 0 || (|b| > 0 && (a[0] < b[0] || (a[0] == b[0] && Below(a[1..], b[1..]))))
  }

  lemma {:induction false} BelowTotal(a: string, b: string)
    ensures Below(a, b) || Below(b, a)
    decreases |a|
  {
    if |a| > 0 && |b| > 0 && a[0] == b[0] {
      BelowTotal(a[1..], b[1..]);
    }
  }

  lemma {:induction false} BelowTransitive(a: string, b: string, c: string)
    requires Below(a, b) && Below(b, c)
    ensures Below(a, c)
    decreases |a|
  {
    if |a| > 0 && a[0] == b[0] && b[0] == c[0] {
      BelowTransitive(a[1..], b[1..], c[1..]);
    }
  }

  predicate StrictlySorted(s: seq<string>) {
    forall i, j :: 0 <= i < j < |s| ==> Below(s[i], s[j]) && s[i] != s[j]
  }

  predicate IsLeast(m: string, s: set<string>) {
    m in s && forall x :: x in s ==> Below(m, x)
  }

  /** Every non-empty finite set of strings has a least element. */
  lemma {:induction false} LeastExists(s: set<string>)
    requires s != {}
    ensures exists m :: IsLeast(m, s)
    decreases |s|
  {
    var x :| x in s;
    if s != {x} {
      LeastExists(s - {x});
      var m :| IsLeast(m, s - {x});
      BelowTotal(x, m);
      if Below(x, m) {
        forall y | y in s ensures Below(x, y) {
          if y != x {
            BelowTransitive(x, m, y);
          } else {
            BelowTotal(x, x);
          }
        }
        assert IsLeast(x, s);
      } else {
        assert IsLeast(m, s);
      }
    } else {
      assert Below(x, x) by { BelowTotal(x, x); }
      assert IsLeast(x, s);
    }
  }

  /** sets.String.List: the members of `s`, once each, in ascending order. */
  method SortedList(s: set<string>) returns (r: seq<string>)
    ensures StrictlySorted(r)
    ensures forall x :: x in r <==> x in s
  {
    r := [];
    var remaining := s;
    while remaining != {}
      invariant StrictlySorted(r)
      invariant forall x :: x in s <==> x in r || x in remaining
      invariant forall i, x :: 0 <= i < |r| && x in remaining ==> Below(r[i], x) && r[i] != x
      decreases |remaining|
    {
      LeastExists(remaining);
      var m :| IsLeast(m, remaining);
      r := r + [m];
      remaining := remaining - {m};
    }
  }

  // ---------------------------------------------------------------------------
  // Grouping actions by resource

  /** The verbs of each resource in `actions`. */
  function Grouped(actions: seq<Action>): (g: map<string, set<string>>)
    ensures forall res :: res in g <==> exists a :: a in actions && a.resource == res
    ensures forall res, v :: res in g ==> (v in g[res] <==> exists a :: a in actions && a.resource == res && a.verb == v)
  {
    if |actions| == 0 then map[]
    else
      var g := Grouped(actions[..|actions| - 1]);
      var a := actions[|actions| - 1];
      assert forall x :: x in actions <==> x in actions[..|actions| - 1] || x == a;
      g[a.resource := (if a.resource in g then g[a.resource] else {}) + {a.verb}]
  }

  /** One entry per resource, each with the deduplicated, sorted verbs of that resource. */
  ghost predicate GroupsAs(list: seq<ResourceActions>, g: map<string, set<string>>) {
    && (forall i, j :: 0 <= i < j < |list| ==> list[i].resource != list[j].resource)
    && (forall i :: 0 <= i < |list| ==> list[i].resource in g)
    && (forall res :: res in g ==> exists i :: 0 <= i < |list| && list[i].resource == res)
    && (forall i :: 0 <= i < |list| ==>
          StrictlySorted(list[i].verbs) && forall v :: v in list[i].verbs <==> v in g[list[i].resource])
  }

  // ---------------------------------------------------------------------------
  // The store and the service

  class RoleStore {
    var roles: seq<Role>
    var bindings: map<nat, seq<nat>>
    var userRoles: seq<UserRole>
    const actions: seq<Action>
    /** The ID the next inserted role gets. */
    var nextRoleID: nat

    constructor (actions: seq<Action>)
      ensures this.actions == actions
      ensures roles == [] && bindings == map[] && userRoles == [] && nextRoleID == 0
    {
      this.actions := actions;
      roles, bindings, userRoles, nextRoleID := [], map[], [], 0;
    }
  }

  class RoleService {
    /** ActionMap: verb -> action ID, filled on first use and never expired. */
    var actionMap: map<string, nat>
    const store: RoleStore

    constructor (store: RoleStore)
      ensures this.store == store && actionMap == map[]
    {
      this.store := store;
      actionMap := map[];
    }

    /** The action loop shared by CreateRole and UpdateRole. */
    method ResolveActionIDs(verbs: seq<string>, lookup: Outcome) returns (r: Result<seq<nat>>)
      modifies this`actionMap
      ensures (r, actionMap) == Resolve(old(actionMap), Visible(store.actions, lookup), verbs)
    {
      ghost var cache0 := actionMap;
      ghost var table := Visible(store.actions, lookup);
      var ids: seq<nat> := [];
      var i := 0;
      assert verbs[0..] == verbs;
      PrefixedNothing(Resolve(cache0, table, verbs));
      while i < |verbs|
        invariant 0 <= i <= |verbs|
        invariant Resolve(cache0, table, verbs) == Prefixed(ids, Resolve(actionMap, table, verbs[i..]))
      {
        var v := verbs[i];
        assert verbs[i..][0] == v && verbs[i..][1..] == verbs[i + 1..];
        ghost var before := actionMap;
        if v !in actionMap {
          var act := if lookup.Pass? then FindAction(store.actions, v) else None;
          if act.None? {
            return Err("failed to find verb: " + v + " in request, action might not exist");
          }
          actionMap := actionMap[v := act.value.id];
        }
        assert Resolve(before, table, verbs[i..]) == Prefixed([actionMap[v]], Resolve(actionMap, table, verbs[i + 1..]));
        PrefixedTwice(ids, actionMap[v], Resolve(actionMap, table, verbs[i + 1..]));
        ids := ids + [actionMap[v]];
        i := i + 1;
      }
      assert verbs[i..] == [];
      assert ids + [] == ids;
      return Ok(ids);
    }

    /** CreateRole: inserts the role and binds its actions in one transaction. */
    method CreateRole(ns: string, req: CreateRoleReq, f: DbFaults) returns (err: Outcome)
      modifies this`actionMap, store`roles, store`bindings, store`nextRoleID
      ensures var id := old(store.nextRoleID);
        var res := Resolve(old(actionMap), Visible(store.actions, f.getAction), req.actions);
        && actionMap == (if f.createRole.Pass? then res.1 else old(actionMap))
        && (err.Pass? <==> f.createRole.Pass? && res.0.Ok? && f.bindActions.Pass?)
        && (err.Pass? ==>
              && store.roles == old(store.roles) + [Role(id, req.name, ns, req.desc, RequestRoleType(req.roleType))]
              && store.bindings == old(store.bindings)[id := res.0.value]
              && store.nextRoleID == id + 1)
        && (err.Fail? ==>
              store.roles == old(store.roles) && store.bindings == old(store.bindings) && store.nextRoleID == old(store.nextRoleID))
    {
      var id := store.nextRoleID;
      var role := Role(id, req.name, ns, req.desc, RequestRoleType(req.roleType));
      if f.createRole.Fail? {
        return Fail("failed to create role, error: " + f.createRole.error);
      }
      var txRoles := store.roles + [role];
      var ids := ResolveActionIDs(req.actions, f.getAction);
      if ids.Err? {
        return Fail(ids.error);
      }
      if f.bindActions.Fail? {
        return Fail("failed to create action binding for role: " + role.name + " in namespace: " + role.namespace
          + ", the error is: " + f.bindActions.error);
      }
      // commit
      store.roles, store.bindings, store.nextRoleID := txRoles, store.bindings[id := ids.value], id + 1;
      return Pass;
    }

    /** UpdateRole: replaces every binding of an existing role by the new list;
        of the role itself only the description changes, and a failure to change
        it is ignored. */
    method UpdateRole(ns: string, req: CreateRoleReq, f: DbFaults) returns (err: Outcome)
      modifies this`actionMap, store`roles, store`bindings
      ensures var k := FindRole(old(store.roles), req.name, ns);
        var res := Resolve(old(actionMap), Visible(store.actions, f.getAction), req.actions);
        && (f.getRole.Fail? ==> err == Fail("failed to find role: [" + req.namespace + "] in namespace [" + ns + "], error: " + f.getRole.error))
        && (f.getRole.Pass? && k == -1 ==> err == Fail("failed to find role: [" + req.namespace + "] in namespace [" + ns + "], error: record not found"))
        && actionMap == (if f.getRole.Pass? && k >= 0 && f.deleteBindings.Pass? then res.1 else old(actionMap))
        && (err.Pass? <==> f.getRole.Pass? && k >= 0 && f.deleteBindings.Pass? && res.0.Ok? && f.bindActions.Pass?)
        && (err.Pass? ==>
              && store.bindings == old(store.bindings)[old(store.roles)[k].id := res.0.value]
              && store.roles == (if f.updateRoleInfo.Pass?
                                 then old(store.roles)[k := old(store.roles)[k].(description := req.desc)]
                                 else old(store.roles)))
        && (err.Fail? ==> store.roles == old(store.roles) && store.bindings == old(store.bindings))
    {
      if f.getRole.Fail? {
        return Fail("failed to find role: [" + req.namespace + "] in namespace [" + ns + "], error: " + f.getRole.error);
      }
      var k := FindRole(store.roles, req.name, ns);
      if k < 0 {
        return Fail("failed to find role: [" + req.namespace + "] in namespace [" + ns + "], error: record not found");
      }
      var roleInfo := store.roles[k];
      if f.deleteBindings.Fail? {
        return Fail("update role-action binding failed, error: " + f.deleteBindings.error);
      }
      var ids := ResolveActionIDs(req.actions, f.getAction);
      if ids.Err? {
        return Fail(ids.error);
      }
      if f.bindActions.Fail? {
        return Fail("failed to create action binding for role: " + roleInfo.name + " in namespace: " + roleInfo.namespace
          + ", the error is: " + f.bindActions.error);
      }
      var txRoles := store.roles;
      if f.updateRoleInfo.Pass? {
        txRoles := txRoles[k := roleInfo.(description := req.desc)];
      }
      // commit
      store.roles, store.bindings := txRoles, store.bindings[roleInfo.id := ids.value];
      return Pass;
    }

    /** ListRolesByNamespace: the roles of the project, in table order. */
    function ListRolesByNamespace(projectName: string, fault: Option<DbError>): (r: Result<seq<RoleView>>)
      reads store
      ensures r.Err? <==> fault.Some? && fault.value.DbFailure?
      ensures fault.None? ==> r.Ok? && forall v :: v in r.value <==> exists role :: role in store.roles && role.namespace == projectName && v == View(role)
    {
      var rows := RolesIn(store.roles, projectName);
      assert forall v :: v in Views(rows) <==> exists role :: role in rows && v == View(role) by {
        forall v | v in Views(rows) ensures exists role :: role in rows && v == View(role) {
          var k :| 0 <= k < |Views(rows)| && Views(rows)[k] == v;
          assert rows[k] in rows;
        }
      }
      ListAnswer(rows, fault, projectName)
    }

    /** ListRolesByNamespaceAndUserID: the project's roles the user is bound to. */
    function ListRolesByNamespaceAndUserID(projectName: string, uid: string, fault: Option<DbError>): (r: Result<seq<RoleView>>)
      reads store
      ensures r.Err? <==> fault.Some? && fault.value.DbFailure?
      ensures fault.None? ==> r.Ok? && forall v :: v in r.value <==>
        exists role :: role in store.roles && role.namespace == projectName && UserRole(uid, role.id) in store.userRoles && v == View(role)
    {
      var rows := RolesOfUser(store.roles, store.userRoles, uid, projectName);
      assert forall v :: v in Views(rows) <==> exists role :: role in rows && v == View(role) by {
        forall v | v in Views(rows) ensures exists role :: role in rows && v == View(role) {
          var k :| 0 <= k < |Views(rows)| && Views(rows)[k] == v;
          assert rows[k] in rows;
        }
      }
      ListAnswer(rows, fault, projectName)
    }

    /** GetRole: the role with its actions grouped by resource. */
    method GetRole(ns: string, name: string, f: DbFaults) returns (r: Result<DetailedRole>)
      ensures var k := FindRole(store.roles, name, ns);
        && (f.getRole.Fail? ==> r == Err("failed to find role: " + name + " under namespace: " + ns + ", error: " + f.getRole.error))
        && (r.Ok? <==> f.getRole.Pass? && k >= 0 && f.listActions.Pass?)
        && (r.Ok? ==>
              var role := store.roles[k];
              var acts := ActionsOfRole(store.actions, if role.id in store.bindings then store.bindings[role.id] else []);
              && r.value.id == role.id && r.value.name == role.name && r.value.namespace == role.namespace
              && r.value.description == role.description && r.value.roleType == ConvertDBRoleType(role.roleType)
              && GroupsAs(r.value.resourceActions, Grouped(acts)))
    {
      if f.getRole.Fail? {
        return Err("failed to find role: " + name + " under namespace: " + ns + ", error: " + f.getRole.error);
      }
      var k := FindRole(store.roles, name, ns);
      if k < 0 {
        return Err("failed to find role: " + name + " under namespace: " + ns + ", error: record not found");
      }
      var role := store.roles[k];
      if f.listActions.Fail? {
        return Err("failed to find action for role: " + name + " under namespace: " + ns + ", error: " + f.listActions.error);
      }
      var actionList := ActionsOfRole(store.actions, if role.id in store.bindings then store.bindings[role.id] else []);
      var groups := GroupActions(actionList);
      var list := ListGroups(groups);
      return Ok(DetailedRole(role.id, role.name, role.namespace, role.description, ConvertDBRoleType(role.roleType), list));
    }

    /** DeleteRole: removes the role rows with that name in the namespace. */
    method DeleteRole(name: string, projectName: string, f: DbFaults) returns (err: Outcome)
      modifies store`roles
      ensures err.Pass? <==> f.deleteRole.Pass?
      ensures err.Pass? ==> forall x :: x in store.roles <==> x in old(store.roles) && !(x.name == name && x.namespace == projectName)
      ensures err.Fail? ==> store.roles == old(store.roles)
    {
      if f.deleteRole.Fail? {
        return Fail("failed to delete role: " + name + " under namespace " + projectName + ", error: " + f.deleteRole.error);
      }
      store.roles := Without(store.roles, name, projectName);
      return Pass;
    }

    /** CreateDefaultRolesForNamespace: the three system roles of a new project, in one insert. */
    method CreateDefaultRolesForNamespace(namespace: string, f: DbFaults) returns (err: Outcome)
      modifies store`roles, store`nextRoleID
      ensures err.Pass? <==> f.bulkCreateRoles.Pass?
      ensures var id := old(store.nextRoleID);
        err.Pass? ==>
          && store.roles == old(store.roles) + [
               Role(id, ProjectAdminRole, namespace, "", RoleTypeSystem),
               Role(id + 1, ReadOnlyRole, namespace, "", RoleTypeSystem),
               Role(id + 2, ReadProjectOnlyRole, namespace, "", RoleTypeSystem)]
          && store.nextRoleID == id + 3
      ensures err.Fail? ==> store.roles == old(store.roles) && store.nextRoleID == old(store.nextRoleID)
    {
      if f.bulkCreateRoles.Fail? {
        return Fail("failed to create system default role for project: " + namespace + ", error: " + f.bulkCreateRoles.error);
      }
      var id := store.nextRoleID;
      store.roles := store.roles + [
        Role(id, ProjectAdminRole, namespace, "", RoleTypeSystem),
        Role(id + 1, ReadOnlyRole, namespace, "", RoleTypeSystem),
        Role(id + 2, ReadProjectOnlyRole, namespace, "", RoleTypeSystem)];
      store.nextRoleID := id + 3;
      return Pass;
    }
  }

  /** The roles left after deleting `name` in `ns`. */
  function Without(roles: seq<Role>, name: string, ns: string): (r: seq<Role>)
    ensures forall x :: x in r <==> x in roles && !(x.name == name && x.namespace == ns)
  {
    if |roles| == 0 then []
    else (if roles[0].name == name && roles[0].namespace == ns then [] else [roles[0]]) + Without(roles[1..], name, ns)
  }

  /** GetRole's first loop: a set of verbs per resource. */
  method GroupActions(actions: seq<Action>) returns (groups: map<string, set<string>>)
    ensures groups == Grouped(actions)
  {
    groups := map[];
    var i := 0;
    while i < |actions|
      invariant 0 <= i <= |actions|
      invariant groups == Grouped(actions[..i])
    {
      var a := actions[i];
      if a.resource !in groups {
        groups := groups[a.resource := {}];
      }
      groups := groups[a.resource := groups[a.resource] + {a.verb}];
      assert actions[..i + 1][..i] == actions[..i];
      i := i + 1;
    }
    assert actions[..i] == actions;
  }

  /** The entries listed so far: one per resource no longer remaining, each
      with its verbs sorted. */
  ghost predicate ListedSoFar(list: seq<ResourceActions>, groups: map<string, set<string>>, remaining: set<string>) {
    && remaining <= groups.Keys
    && (forall i :: 0 <= i < |list| ==> list[i].resource in groups && list[i].resource !in remaining)
    && (forall res :: res in groups ==> res in remaining || exists i :: 0 <= i < |list| && list[i].resource == res)
    && (forall i, j :: 0 <= i < j < |list| ==> list[i].resource != list[j].resource)
    && (forall i :: 0 <= i < |list| ==>
          StrictlySorted(list[i].verbs) && forall v :: v in list[i].verbs <==> v in groups[list[i].resource])
  }

  lemma ListedOneMore(list: seq<ResourceActions>, groups: map<string, set<string>>, remaining: set<string>, res: string, verbs: seq<string>)
    requires ListedSoFar(list, groups, remaining) && res in remaining
    requires StrictlySorted(verbs) && forall v :: v in verbs <==> v in groups[res]
    ensures ListedSoFar(list + [ResourceActions(res, verbs)], groups, remaining - {res})
  {
    var after := list + [ResourceActions(res, verbs)];
    forall r | r in groups && r !in remaining - {res}
      ensures exists i :: 0 <= i < |after| && after[i].resource == r
    {
      if r == res {
        assert after[|after| - 1].resource == r;
      } else {
        var i :| 0 <= i < |list| && list[i].resource == r;
        assert after[i].resource == r;
      }
    }
  }

  /** GetRole's second loop: one entry per resource, in map order, each with
      its verbs as a sorted list. */
  method ListGroups(groups: map<string, set<string>>) returns (list: seq<ResourceActions>)
    ensures GroupsAs(list, groups)
  {
    list := [];
    var remaining := groups.Keys;
    while remaining != {}
      invariant ListedSoFar(list, groups, remaining)
      decreases |remaining|
    {
      var res :| res in remaining;
      var verbs := SortedList(groups[res]);
      ListedOneMore(list, groups, remaining, res, verbs);
      list := list + [ResourceActions(res, verbs)];
      remaining := remaining - {res};
    }
  }
}
