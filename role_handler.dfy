/** The decision rules of the role HTTP handlers of
    `user/core/handler/permission/role.go`: which request reaches the role
    service, which is refused as unauthorised, and which fails a parameter or
    licence check.

    Each handler fills in a fresh `Context` step by step, with the same early
    returns as the handler, and is proved to leave it as its `...Response` function
    says. The request's body, its query and path parameters, the
    authorisation info the handler generates, the licence status and the
    service's own answer are all inputs; the service call the handler makes is
    recorded in the context. */
module RoleHandler {
  import opened Results
  import opened Licence
  import opened RoleService
  import opened InternalHandler

  // Verbs of the permission package (only their distinctness matters).
  const VerbCreateReleasePlan := "create_release_plan"
  const VerbDeleteReleasePlan := "delete_release_plan"
  const VerbEditReleasePlan := "edit_release_plan"
  const VerbGetReleasePlan := "get_release_plan"
  const VerbEditDataCenterInsightConfig := "edit_data_center_insight_config"
  const VerbGetProductionService := "get_production_service"
  const VerbCreateProductionService := "create_production_service"
  const VerbEditProductionService := "edit_production_service"
  const VerbDeleteProductionService := "delete_production_service"
  const VerbGetProductionEnv := "get_production_env"
  const VerbCreateProductionEnv := "create_production_env"
  const VerbConfigProductionEnv := "config_production_env"
  const VerbEditProductionEnv := "edit_production_env"
  const VerbDeleteProductionEnv := "delete_production_env"
  const VerbDebugProductionEnvPod := "debug_production_env_pod"
  const VerbGetDelivery := "get_delivery"
  const VerbCreateDelivery := "create_delivery"
  const VerbDeleteDelivery := "delete_delivery"

  /** The project name that stands for every project. */
  const AllProjects := "*"

  datatype HandlerError =
    | InvalidParam(desc: string)
    | BadBody(message: string)
    | AuthInfoFailed(message: string)
    | LicenceCheckFailed(message: string)
    | LicenseInvalid
    | ServiceFailed(message: string)

  /** A call into the role service. */
  datatype ServiceCall =
    | CallCreateRole(ns: string, req: CreateRoleReq)
    | CallUpdateRole(ns: string, req: CreateRoleReq)
    | CallListRolesByNamespace(ns: string)
    | CallListRolesByNamespaceAndUserID(ns: string, uid: string)
    | CallGetRole(ns: string, name: string)
    | CallDeleteRole(name: string, ns: string)

  /** What a request carries, and what generating its authorisation info gives. */
  datatype Request = Request(
    rawData: Outcome,
    body: Result<CreateRoleReq>,
    authInfo: Result<Resources>,
    namespace: string,
    name: string,
    uid: string)

  /** What the handler leaves in its context. */
  datatype Response = Response(err: Option<HandlerError>, unAuthorized: bool, call: Option<ServiceCall>)

  class Context {
    var err: Option<HandlerError>
    var unAuthorized: bool
    var calls: seq<ServiceCall>

    constructor ()
      ensures err == None && !unAuthorized && calls == []
    {
      err, unAuthorized, calls := None, false, [];
    }

    function Snapshot(): Response
      reads this
    {
      Response(err, unAuthorized, if |calls| == 0 then None else Some(calls[0]))
    }

    /** Calls the service and keeps its error. */
    method Call(call: ServiceCall, answer: Outcome)
      modifies this
      ensures calls == old(calls) + [call] && unAuthorized == old(unAuthorized)
      ensures err == (if answer.Fail? then Some(ServiceFailed(answer.error)) else None)
    {
      calls := calls + [call];
      err := if answer.Fail? then Some(ServiceFailed(answer.error)) else None;
    }

    /** The handlers' authorisation check, with its early returns; true when the
        handler may go on. */
    method CheckProjectAdmin(res: Resources, projectName: string) returns (ok: bool)
      modifies this
      ensures ok == Authorized(res, projectName)
      ensures unAuthorized == (old(unAuthorized) || !ok)
      ensures err == old(err) && calls == old(calls)
    {
      if !res.isSystemAdmin {
        if projectName == AllProjects {
          unAuthorized := true;
          return false;
        }
        if projectName !in res.projectAuthInfo {
          unAuthorized := true;
          return false;
        } else if !res.projectAuthInfo[projectName].isProjectAdmin {
          unAuthorized := true;
          return false;
        }
      }
      return true;
    }
  }

  // ---------------------------------------------------------------------------
  // Decision rules

  /** A system admin, or the admin of that one project ("*" names no single project). */
  predicate Authorized(res: Resources, projectName: string) {
    || res.isSystemAdmin
    || (projectName != AllProjects && projectName in res.projectAuthInfo && res.projectAuthInfo[projectName].isProjectAdmin)
  }

  /** The verbs a role can only be given under a premium licence, as a set. */
  const PremiumVerbs: set<string> := {
    VerbCreateReleasePlan, VerbDeleteReleasePlan, VerbEditReleasePlan, VerbGetReleasePlan,
    VerbEditDataCenterInsightConfig, VerbGetProductionService,
    VerbGetProductionEnv, VerbCreateProductionEnv, VerbConfigProductionEnv, VerbEditProductionEnv,
    VerbDeleteProductionEnv, VerbDebugProductionEnvPod,
    VerbGetDelivery, VerbCreateDelivery, VerbDeleteDelivery}

  /** CreateRole's verb test, check by check as the handler makes it (the
      get-production-service check four times over): true when the request
      names a verb that needs a premium licence. */
  function NamesPremiumVerb(actions: seq<string>): (r: bool)
    ensures r <==> exists a :: a in actions && a in PremiumVerbs
  {
    var actionSet := set a | a in actions;
    || VerbCreateReleasePlan in actionSet || VerbDeleteReleasePlan in actionSet
    || VerbEditReleasePlan in actionSet || VerbGetReleasePlan in actionSet
    || VerbEditDataCenterInsightConfig in actionSet
    || VerbGetProductionService in actionSet || VerbGetProductionService in actionSet
    || VerbGetProductionService in actionSet || VerbGetProductionService in actionSet
    || VerbGetProductionEnv in actionSet || VerbCreateProductionEnv in actionSet
    || VerbConfigProductionEnv in actionSet || VerbEditProductionEnv in actionSet
    || VerbDeleteProductionEnv in actionSet || VerbDebugProductionEnvPod in actionSet
    || VerbGetDelivery in actionSet || VerbCreateDelivery in actionSet || VerbDeleteDelivery in actionSet
  }

  /** Because the get-production-service check is repeated where the create,
      edit and delete checks belong, those three verbs pass the gate under any
      licence. */
  lemma ProductionServiceWritesAreNotGated(actions: seq<string>)
    requires forall a :: a in actions ==>
      a == VerbCreateProductionService || a == VerbEditProductionService || a == VerbDeleteProductionService
    ensures !NamesPremiumVerb(actions)
  {
  }

  function CreateRoleResponse(req: Request, licence: Result<LicenceStatus>, answer: Outcome): Response {
    if req.rawData.Fail? then Response(Some(InvalidParam(req.rawData.error)), false, None)
    else if req.body.Err? then Response(Some(BadBody(req.body.error)), false, None)
    else if req.authInfo.Err? then
      Response(Some(AuthInfoFailed("failed to generate user authorization info, error: " + req.authInfo.error)), true, None)
    else if req.namespace == "" then Response(Some(InvalidParam("namespace is empty")), false, None)
    else if !Authorized(req.authInfo.value, req.namespace) then Response(None, true, None)
    else if licence.Err? then
      Response(Some(LicenceCheckFailed("failed to validate zadig license status, error: " + licence.error)), false, None)
    else if !IsPremiumNormal(licence.value) && NamesPremiumVerb(req.body.value.actions) then
      Response(Some(LicenseInvalid), false, None)
    else
      Response(if answer.Fail? then Some(ServiceFailed(answer.error)) else None, false,
               Some(CallCreateRole(req.namespace, req.body.value)))
  }

  function UpdateRoleResponse(req: Request, answer: Outcome): Response {
    if req.rawData.Fail? then Response(Some(InvalidParam(req.rawData.error)), false, None)
    else if req.body.Err? then Response(Some(BadBody(req.body.error)), false, None)
    else if req.authInfo.Err? then
      Response(Some(AuthInfoFailed("failed to generate user authorization info, error: " + req.authInfo.error)), true, None)
    else if req.namespace == "" then Response(Some(InvalidParam("namespace is empty")), false, None)
    else if !Authorized(req.authInfo.value, req.namespace) then Response(None, true, None)
    else
      Response(if answer.Fail? then Some(ServiceFailed(answer.error)) else None, false,
               Some(CallUpdateRole(req.namespace, req.body.value.(name := req.name))))
  }

  function ListRolesResponse(req: Request, answer: Outcome): Response {
    if req.namespace == "" then Response(Some(InvalidParam("args namespace can't be empty")), false, None)
    else
      var call := if req.uid == "" then CallListRolesByNamespace(req.namespace)
                  else CallListRolesByNamespaceAndUserID(req.namespace, req.uid);
      Response(if answer.Fail? then Some(ServiceFailed(answer.error)) else None, false, Some(call))
  }

  function GetRoleResponse(req: Request, answer: Outcome): Response {
    if req.namespace == "" then Response(Some(InvalidParam("args namespace can't be empty")), false, None)
    else Response(if answer.Fail? then Some(ServiceFailed(answer.error)) else None, false, Some(CallGetRole(req.namespace, req.name)))
  }

  function DeleteRoleResponse(req: Request, answer: Outcome): Response {
    if req.namespace == "" then Response(Some(InvalidParam("args namespace can't be empty")), false, None)
    else if req.authInfo.Err? then
      Response(Some(AuthInfoFailed("failed to generate user authorization info, error: " + req.authInfo.error)), true, None)
    else if !Authorized(req.authInfo.value, req.namespace) then Response(None, true, None)
    else
      Response(if answer.Fail? then Some(ServiceFailed(answer.error)) else None, false, Some(CallDeleteRole(req.name, req.namespace)))
  }

  // ---------------------------------------------------------------------------
  // Properties of the rules

  /** A create request reaches the service exactly when its body is read, the
      authorisation info is generated, the namespace is given, the caller is
      its admin and the licence answers and, unless it is premium and normal,
      no premium verb is asked for; it is refused as unauthorised exactly when
      the authorisation info fails or the caller is not the admin. */
  lemma CreateRoleDecision(req: Request, licence: Result<LicenceStatus>, answer: Outcome)
    ensures var r := CreateRoleResponse(req, licence, answer);
      && (r.call.Some? <==>
            && req.rawData.Pass? && req.body.Ok? && req.authInfo.Ok? && req.namespace != ""
            && Authorized(req.authInfo.value, req.namespace) && licence.Ok?
            && (IsPremiumNormal(licence.value) || forall a :: a in req.body.value.actions ==> a !in PremiumVerbs))
      && (r.call.Some? ==> r.call.value == CallCreateRole(req.namespace, req.body.value) && (r.err.None? <==> answer.Pass?))
      && (r.unAuthorized <==>
            req.rawData.Pass? && req.body.Ok?
            && (req.authInfo.Err? || (req.namespace != "" && !Authorized(req.authInfo.value, req.namespace))))
      && (r.unAuthorized ==> r.call.None?)
  {
  }

  /** An update reaches the service under the same checks as a create but with
      no licence gate, and the role it updates is the one named in the path,
      whatever the body says. */
  lemma UpdateRoleDecision(req: Request, answer: Outcome)
    ensures var r := UpdateRoleResponse(req, answer);
      && (r.call.Some? <==>
            req.rawData.Pass? && req.body.Ok? && req.authInfo.Ok? && req.namespace != "" && Authorized(req.authInfo.value, req.namespace))
      && (r.call.Some? ==>
            r.call.value.CallUpdateRole? && r.call.value.req.name == req.name && r.call.value.req.actions == req.body.value.actions)
  {
  }

  /** With the same request, a create the licence gate lets through is an
      update that goes through too: the update applies no verb gate. */
  lemma UpdateIsNotLicenceGated(req: Request, licence: Result<LicenceStatus>, answer: Outcome)
    requires req.rawData.Pass? && req.body.Ok? && req.authInfo.Ok? && req.namespace != ""
    requires Authorized(req.authInfo.value, req.namespace)
    ensures UpdateRoleResponse(req, answer).call.Some?
    ensures licence.Ok? && !IsPremiumNormal(licence.value) && NamesPremiumVerb(req.body.value.actions) ==>
      CreateRoleResponse(req, licence, answer).err == Some(LicenseInvalid)
  {
  }

  /** ListRoles asks for the project's roles, or only the user's when a uid is given. */
  lemma ListRolesDecision(req: Request, answer: Outcome)
    ensures var r := ListRolesResponse(req, answer);
      && (r.call.None? <==> req.namespace == "")
      && (req.namespace != "" && req.uid == "" ==> r.call == Some(CallListRolesByNamespace(req.namespace)))
      && (req.namespace != "" && req.uid != "" ==> r.call == Some(CallListRolesByNamespaceAndUserID(req.namespace, req.uid)))
      && !r.unAuthorized
  {
  }

  /** DeleteRole checks the namespace before the authorisation info, the other
      way round from CreateRole: a request failing both gets a different answer. */
  lemma DeleteChecksNamespaceFirst(req: Request, licence: Result<LicenceStatus>, answer: Outcome)
    requires req.rawData.Pass? && req.body.Ok? && req.authInfo.Err? && req.namespace == ""
    ensures DeleteRoleResponse(req, answer) == Response(Some(InvalidParam("args namespace can't be empty")), false, None)
    ensures CreateRoleResponse(req, licence, answer).unAuthorized
    ensures CreateRoleResponse(req, licence, answer).err.value.AuthInfoFailed?
  {
  }

  /** Every handler that checks authorisation refuses a caller who is neither a
      system admin nor the project's admin, and then calls no service. */
  lemma UnauthorisedCallersReachNothing(req: Request, licence: Result<LicenceStatus>, answer: Outcome)
    requires req.authInfo.Ok? && !Authorized(req.authInfo.value, req.namespace)
    ensures CreateRoleResponse(req, licence, answer).call.None?
    ensures UpdateRoleResponse(req, answer).call.None?
    ensures DeleteRoleResponse(req, answer).call.None?
    ensures req.namespace != "" && req.rawData.Pass? && req.body.Ok? ==>
      CreateRoleResponse(req, licence, answer).unAuthorized && UpdateRoleResponse(req, answer).unAuthorized
    ensures req.namespace != "" ==> DeleteRoleResponse(req, answer).unAuthorized
  {
  }

  /** The wildcard project is never administered by a project admin: only a
      system admin passes for "*". */
  lemma WildcardNeedsSystemAdmin(res: Resources)
    ensures Authorized(res, AllProjects) <==> res.isSystemAdmin
  {
  }

  // ---------------------------------------------------------------------------
  // The handlers

  method CreateRole(req: Request, licence: Result<LicenceStatus>, answer: Outcome) returns (ctx: Context)
    ensures ctx.Snapshot() == CreateRoleResponse(req, licence, answer)
  {
    ctx := new Context();
    if req.rawData.Fail? {
      ctx.err := Some(InvalidParam(req.rawData.error));
      return;
    }
    if req.body.Err? {
      ctx.err := Some(BadBody(req.body.error));
      return;
    }
    if req.authInfo.Err? {
      ctx.unAuthorized := true;
      ctx.err := Some(AuthInfoFailed("failed to generate user authorization info, error: " + req.authInfo.error));
      return;
    }
    if req.namespace == "" {
      ctx.err := Some(InvalidParam("namespace is empty"));
      return;
    }
    var ok := ctx.CheckProjectAdmin(req.authInfo.value, req.namespace);
    if !ok {
      return;
    }
    if licence.Err? {
      ctx.err := Some(LicenceCheckFailed("failed to validate zadig license status, error: " + licence.error));
      return;
    }
    if !IsPremiumNormal(licence.value) {
      if NamesPremiumVerb(req.body.value.actions) {
        ctx.err := Some(LicenseInvalid);
        return;
      }
    }
    ctx.Call(CallCreateRole(req.namespace, req.body.value), answer);
  }

  method UpdateRole(req: Request, answer: Outcome) returns (ctx: Context)
    ensures ctx.Snapshot() == UpdateRoleResponse(req, answer)
  {
    ctx := new Context();
    if req.rawData.Fail? {
      ctx.err := Some(InvalidParam(req.rawData.error));
      return;
    }
    if req.body.Err? {
      ctx.err := Some(BadBody(req.body.error));
      return;
    }
    var args := req.body.value;
    if req.authInfo.Err? {
      ctx.unAuthorized := true;
      ctx.err := Some(AuthInfoFailed("failed to generate user authorization info, error: " + req.authInfo.error));
      return;
    }
    if req.namespace == "" {
      ctx.err := Some(InvalidParam("namespace is empty"));
      return;
    }
    args := args.(name := req.name);
    var ok := ctx.CheckProjectAdmin(req.authInfo.value, req.namespace);
    if !ok {
      return;
    }
    ctx.Call(CallUpdateRole(req.namespace, args), answer);
  }

  method ListRoles(req: Request, answer: Outcome) returns (ctx: Context)
    ensures ctx.Snapshot() == ListRolesResponse(req, answer)
  {
    ctx := new Context();
    if req.namespace == "" {
      ctx.err := Some(InvalidParam("args namespace can't be empty"));
      return;
    }
    if req.uid == "" {
      ctx.Call(CallListRolesByNamespace(req.namespace), answer);
    } else {
      ctx.Call(CallListRolesByNamespaceAndUserID(req.namespace, req.uid), answer);
    }
  }

  method GetRole(req: Request, answer: Outcome) returns (ctx: Context)
    ensures ctx.Snapshot() == GetRoleResponse(req, answer)
  {
    ctx := new Context();
    if req.namespace == "" {
      ctx.err := Some(InvalidParam("args namespace can't be empty"));
      return;
    }
    ctx.Call(CallGetRole(req.namespace, req.name), answer);
  }

  method DeleteRole(req: Request, answer: Outcome) returns (ctx: Context)
    ensures ctx.Snapshot() == DeleteRoleResponse(req, answer)
  {
    ctx := new Context();
    if req.namespace == "" {
      ctx.err := Some(InvalidParam("args namespace can't be empty"));
      return;
    }
    if req.authInfo.Err? {
      ctx.unAuthorized := true;
      ctx.err := Some(AuthInfoFailed("failed to generate user authorization info, error: " + req.authInfo.error));
      return;
    }
    var ok := ctx.CheckProjectAdmin(req.authInfo.value, req.namespace);
    if !ok {
      return;
    }
    ctx.Call(CallDeleteRole(req.name, req.namespace), answer);
  }
}
