/** The project-management handlers of
    `aslan/core/system/handler/project_management.go`: the system-admin gate
    in front of the list, create, update, delete and validate handlers, the
    licence gate in front of a Meego integration, the credential redaction of
    the per-project list, the validator dispatch on the integration type and
    the user-name substitution in a JQL query.

    As with the role handlers, each handler fills in a fresh `Context` with
    the handler's own early returns and is proved to leave it as its
    `...Response` function says. The request body, the authorisation info,
    the licence status and the service's answers are inputs; the service call
    made is recorded in the context. */
module ProjectManagement {
  import opened Results
  import opened Licence
  import opened GoStrings
  import opened InternalHandler

  /** The integration types of the `setting` package (only their distinctness matters). */
  const PMJira := "jira"
  const PMMeego := "meego"

  /** The one variable a JQL query may use. */
  const UsernameVariable := "{{.system.username}}"

  /** `models.ProjectManagement`: one Jira or Meego integration. */
  datatype ProjectManagement = ProjectManagement(
    id: string,
    pmType: string,
    jiraHost: string,
    jiraUser: string,
    jiraToken: string,
    jiraAuthType: string,
    meegoHost: string,
    meegoPluginID: string,
    meegoPluginSecret: string,
    meegoUserKey: string)

  datatype HandlerError =
    | AuthInfoFailed(message: string)
    | BadBody(message: string)
    | LicenceCheckFailed(message: string)
    | LicenseInvalid
    | InvalidType(desc: string)
    | ServiceFailed(message: string)

  /** A call into the project-management service. */
  datatype ServiceCall =
    | CallList
    | CallCreate(pm: ProjectManagement)
    | CallUpdate(id: string, pm: ProjectManagement)
    | CallDelete(id: string)
    | CallValidateJira(pm: ProjectManagement)
    | CallValidateMeego(pm: ProjectManagement)
    | CallSearchWithJQL(id: string, project: string, jql: string, summary: string)

  /** What a request carries, and what generating its authorisation info gives. */
  datatype Request = Request(
    body: Result<ProjectManagement>,
    authInfo: Result<Resources>,
    id: string)

  /** The service's answer to a list query: the items and the error, both returned. */
  datatype Listed = Listed(items: seq<ProjectManagement>, err: Outcome)

  /** What the handler leaves in its context. */
  datatype Response = Response(
    err: Option<HandlerError>,
    unAuthorized: bool,
    call: Option<ServiceCall>,
    resp: Option<seq<ProjectManagement>>)

  class Context {
    var err: Option<HandlerError>
    var unAuthorized: bool
    var calls: seq<ServiceCall>
    var resp: Option<seq<ProjectManagement>>

    constructor ()
      ensures err == None && !unAuthorized && calls == [] && resp == None
    {
      err, unAuthorized, calls, resp := None, false, [], None;
    }

    function Snapshot(): Response
      reads this
    {
      Response(err, unAuthorized, if |calls| == 0 then None else Some(calls[0]), resp)
    }

    /** Calls the service and keeps its error. */
    method Call(call: ServiceCall, answer: Outcome)
      modifies this
      ensures calls == old(calls) + [call] && unAuthorized == old(unAuthorized) && resp == old(resp)
      ensures err == ServiceError(answer)
    {
      calls := calls + [call];
      err := ServiceError(answer);
    }

    /** The two checks every admin handler opens with; true when it may go on. */
    method CheckSystemAdmin(authInfo: Result<Resources>) returns (ok: bool)
      modifies this
      ensures ok <==> authInfo.Ok? && authInfo.value.isSystemAdmin
      ensures unAuthorized == (old(unAuthorized) || !ok)
      ensures err == (if authInfo.Err? then Some(AuthInfoFailure(authInfo.error)) else old(err))
      ensures calls == old(calls) && resp == old(resp)
    {
      if authInfo.Err? {
        err := Some(AuthInfoFailure(authInfo.error));
        unAuthorized := true;
        return false;
      }
      if !authInfo.value.isSystemAdmin {
        unAuthorized := true;
        return false;
      }
      return true;
    }
  }

  function ServiceError(answer: Outcome): (r: Option<HandlerError>)
    ensures r.None? <==> answer.Pass?
  {
    if answer.Fail? then Some(ServiceFailed(answer.error)) else None
  }

  function AuthInfoFailure(e: string): HandlerError {
    AuthInfoFailed("authorization Info Generation failed: err " + e)
  }

  // ---------------------------------------------------------------------------
  // Redaction

  /** An integration with its six credential fields cleared. */
  function Redacted(pm: ProjectManagement): (r: ProjectManagement)
    ensures r.jiraToken == "" && r.jiraUser == "" && r.jiraAuthType == ""
    ensures r.meegoPluginID == "" && r.meegoPluginSecret == "" && r.meegoUserKey == ""
    ensures r.id == pm.id && r.pmType == pm.pmType && r.jiraHost == pm.jiraHost && r.meegoHost == pm.meegoHost
  {
    pm.(jiraToken := "", jiraUser := "", jiraAuthType := "",
        meegoPluginID := "", meegoPluginSecret := "", meegoUserKey := "")
  }

  /** Two integrations look the same once redacted exactly when they agree on
      every field that is not a credential: the redacted list gives away no
      credential. */
  lemma RedactionHidesExactlyTheCredentials(p: ProjectManagement, q: ProjectManagement)
    ensures Redacted(p) == Redacted(q) <==>
      p.id == q.id && p.pmType == q.pmType && p.jiraHost == q.jiraHost && p.meegoHost == q.meegoHost
  {
  }

  lemma RedactedIsIdempotent(p: ProjectManagement)
    ensures Redacted(Redacted(p)) == Redacted(p)
  {
  }

  function RedactedList(pms: seq<ProjectManagement>): (r: seq<ProjectManagement>)
    ensures |r| == |pms| && forall k :: 0 <= k < |pms| ==> r[k] == Redacted(pms[k])
  {
    seq(|pms|, k requires 0 <= k < |pms| => Redacted(pms[k]))
  }

  /** The redaction loop: every item is redacted in place, in order. */
  method RedactAll(pms: array<ProjectManagement>)
    modifies pms
    ensures pms[..] == RedactedList(old(pms[..]))
  {
    var i := 0;
    while i < pms.Length
      invariant 0 <= i <= pms.Length
      invariant forall k :: 0 <= k < i ==> pms[k] == Redacted(old(pms[k]))
      invariant forall k :: i <= k < pms.Length ==> pms[k] == old(pms[k])
    {
      pms[i] := Redacted(pms[i]);
      i := i + 1;
    }
  }

  // ---------------------------------------------------------------------------
  // Decision rules

  /** The licence gate of create and update: a Meego integration needs a
      professional or enterprise licence in normal standing. */
  predicate LicencePermits(pm: ProjectManagement, licence: LicenceStatus) {
    pm.meegoHost == "" || IsPremiumNormal(licence)
  }

  function ListResponse(req: Request, listed: Listed): Response {
    if req.authInfo.Err? then Response(Some(AuthInfoFailure(req.authInfo.error)), true, None, None)
    else if !req.authInfo.value.isSystemAdmin then Response(None, true, None, None)
    else Response(ServiceError(listed.err), false, Some(CallList), Some(listed.items))
  }

  function ListForProjectResponse(req: Request, listed: Listed): Response {
    if req.authInfo.Err? then Response(Some(AuthInfoFailure(req.authInfo.error)), true, None, None)
    else Response(ServiceError(listed.err), false, Some(CallList), Some(RedactedList(listed.items)))
  }

  /** Create and update share their checks; `call` is the call they make. */
  function GatedResponse(req: Request, licence: Result<LicenceStatus>, call: ServiceCall, answer: Outcome): Response {
    if req.authInfo.Err? then Response(Some(AuthInfoFailure(req.authInfo.error)), true, None, None)
    else if !req.authInfo.value.isSystemAdmin then Response(None, true, None, None)
    else if req.body.Err? then Response(Some(BadBody(req.body.error)), false, None, None)
    else if licence.Err? then
      Response(Some(LicenceCheckFailed("failed to validate zadig license status, error: " + licence.error)), false, None, None)
    else if !LicencePermits(req.body.value, licence.value) then Response(Some(LicenseInvalid), false, None, None)
    else Response(ServiceError(answer), false, Some(call), None)
  }

  function CreateResponse(req: Request, licence: Result<LicenceStatus>, answer: Outcome): Response {
    GatedResponse(req, licence, CallCreate(if req.body.Ok? then req.body.value else EmptyProjectManagement), answer)
  }

  function UpdateResponse(req: Request, licence: Result<LicenceStatus>, answer: Outcome): Response {
    GatedResponse(req, licence, CallUpdate(req.id, if req.body.Ok? then req.body.value else EmptyProjectManagement), answer)
  }

  const EmptyProjectManagement := ProjectManagement("", "", "", "", "", "", "", "", "", "")

  function DeleteResponse(req: Request, answer: Outcome): Response {
    if req.authInfo.Err? then Response(Some(AuthInfoFailure(req.authInfo.error)), true, None, None)
    else if !req.authInfo.value.isSystemAdmin then Response(None, true, None, None)
    else Response(ServiceError(answer), false, Some(CallDelete(req.id)), None)
  }

  /** The validator for an integration type, or none for an unknown type. */
  function Validator(pm: ProjectManagement): (r: Option<ServiceCall>)
    ensures r.Some? <==> pm.pmType == PMJira || pm.pmType == PMMeego
    ensures pm.pmType == PMJira ==> r == Some(CallValidateJira(pm))
    ensures pm.pmType == PMMeego ==> r == Some(CallValidateMeego(pm))
  {
    if pm.pmType == PMJira then Some(CallValidateJira(pm))
    else if pm.pmType == PMMeego then Some(CallValidateMeego(pm))
    else None
  }

  function ValidateResponse(req: Request, answer: Outcome): Response {
    if req.authInfo.Err? then Response(Some(AuthInfoFailure(req.authInfo.error)), true, None, None)
    else if !req.authInfo.value.isSystemAdmin then Response(None, true, None, None)
    else if req.body.Err? then Response(Some(BadBody(req.body.error)), false, None, None)
    else match Validator(req.body.value)
      case None => Response(Some(InvalidType("invalid type")), false, None, None)
      case Some(call) => Response(ServiceError(answer), false, Some(call), None)
  }

  /** The query the JQL search hands to the service: every occurrence of the
      user-name variable replaced by the caller's user name. */
  function SubstituteUsername(jql: string, userName: string): string {
    ReplaceAll(jql, UsernameVariable, userName)
  }

  function SearchWithJQLResponse(id: string, project: string, jql: string, summary: string, userName: string, answer: Outcome): Response {
    Response(ServiceError(answer), false, Some(CallSearchWithJQL(id, project, SubstituteUsername(jql, userName), summary)), None)
  }

  // ---------------------------------------------------------------------------
  // Properties of the rules

  /** When the authorisation info cannot be generated, every handler that asks
      for it marks the caller unauthorised, reports why and calls nothing. */
  lemma AuthInfoFailureStopsEveryHandler(req: Request, licence: Result<LicenceStatus>, listed: Listed, answer: Outcome)
    requires req.authInfo.Err?
    ensures var expected := Response(Some(AuthInfoFailure(req.authInfo.error)), true, None, None);
      && ListResponse(req, listed) == expected
      && ListForProjectResponse(req, listed) == expected
      && CreateResponse(req, licence, answer) == expected
      && UpdateResponse(req, licence, answer) == expected
      && DeleteResponse(req, answer) == expected
      && ValidateResponse(req, answer) == expected
  {
  }

  /** A caller who is not a system admin is refused by list, create, update,
      delete and validate without an error, whatever the body and licence; the
      per-project list has no such check and serves them. */
  lemma NonAdminsReachOnlyTheProjectList(req: Request, licence: Result<LicenceStatus>, listed: Listed, answer: Outcome)
    requires req.authInfo.Ok? && !req.authInfo.value.isSystemAdmin
    ensures var refused := Response(None, true, None, None);
      && ListResponse(req, listed) == refused
      && CreateResponse(req, licence, answer) == refused
      && UpdateResponse(req, licence, answer) == refused
      && DeleteResponse(req, answer) == refused
      && ValidateResponse(req, answer) == refused
    ensures ListForProjectResponse(req, listed).call == Some(CallList)
  {
  }

  /** A create reaches the service exactly when the caller is a system admin,
      the body is read, the licence answers and, for a Meego integration, is
      premium and normal. A licence error aborts even when no Meego host is
      given; a refused Meego integration gets ErrLicenseInvalid. */
  lemma CreateLicenceGate(req: Request, licence: Result<LicenceStatus>, answer: Outcome)
    ensures var r := CreateResponse(req, licence, answer);
      && (r.call.Some? <==>
            req.authInfo.Ok? && req.authInfo.value.isSystemAdmin && req.body.Ok? && licence.Ok?
            && (req.body.value.meegoHost == "" || IsPremiumNormal(licence.value)))
      && (r.call.Some? ==> r.call.value == CallCreate(req.body.value) && (r.err.None? <==> answer.Pass?))
      && (req.authInfo.Ok? && req.authInfo.value.isSystemAdmin && req.body.Ok? && licence.Err? ==>
            r.err.Some? && r.err.value.LicenceCheckFailed? && !r.unAuthorized)
      && (req.authInfo.Ok? && req.authInfo.value.isSystemAdmin && req.body.Ok? && licence.Ok?
            && req.body.value.meegoHost != "" && !IsPremiumNormal(licence.value) ==>
            r == Response(Some(LicenseInvalid), false, None, None))
  {
  }

  /** An update passes the same gate as a create of the same body, and
      updates the integration named in the path. */
  lemma UpdateGateMatchesCreate(req: Request, licence: Result<LicenceStatus>, answer: Outcome)
    ensures var u := UpdateResponse(req, licence, answer);
      var c := CreateResponse(req, licence, answer);
      && u.err == c.err && u.unAuthorized == c.unAuthorized && (u.call.Some? <==> c.call.Some?)
      && (u.call.Some? ==> u.call.value == CallUpdate(req.id, req.body.value))
  {
  }

  /** A system admin's validation request goes to the Jira validator for the
      Jira type and to the Meego validator for the Meego type; any other type
      is answered "invalid type" without a call. */
  lemma ValidateDispatch(req: Request, answer: Outcome)
    requires req.authInfo.Ok? && req.authInfo.value.isSystemAdmin && req.body.Ok?
    ensures var r := ValidateResponse(req, answer);
      && (req.body.value.pmType == PMJira ==> r.call == Some(CallValidateJira(req.body.value)))
      && (req.body.value.pmType == PMMeego ==> r.call == Some(CallValidateMeego(req.body.value)))
      && (req.body.value.pmType != PMJira && req.body.value.pmType != PMMeego ==>
            r == Response(Some(InvalidType("invalid type")), false, None, None))
  {
  }

  /** The per-project list hands back the service's items with every
      credential cleared and everything else as it was, for any caller whose
      authorisation info is generated; the admin list hands back the items
      as they are. */
  lemma ProjectListIsRedacted(req: Request, listed: Listed)
    requires req.authInfo.Ok?
    ensures var r := ListForProjectResponse(req, listed);
      && r.resp.Some? && |r.resp.value| == |listed.items|
      && (forall k :: 0 <= k < |listed.items| ==>
            var p, q := r.resp.value[k], listed.items[k];
            && p.jiraToken == "" && p.jiraUser == "" && p.jiraAuthType == ""
            && p.meegoPluginID == "" && p.meegoPluginSecret == "" && p.meegoUserKey == ""
            && p.id == q.id && p.pmType == q.pmType && p.jiraHost == q.jiraHost && p.meegoHost == q.meegoHost)
      && (r.err.None? <==> listed.err.Pass?)
    ensures req.authInfo.value.isSystemAdmin ==> ListResponse(req, listed).resp == Some(listed.items)
  {
  }

  /** The JQL query is cut at every occurrence of the variable and glued back
      with the user name; a query without the variable is passed on as it is. */
  lemma UsernameSubstitution(jql: string, userName: string)
    ensures SubstituteUsername(jql, userName) == Join(Split(jql, UsernameVariable), userName)
    ensures !Contains(jql, UsernameVariable) ==> SubstituteUsername(jql, userName) == jql
  {
    ReplaceAllSplitsAtEveryOccurrence(jql, UsernameVariable, userName);
    if !Contains(jql, UsernameVariable) {
      ReplaceAllWithoutOccurrence(jql, UsernameVariable, userName);
    }
  }

  // ---------------------------------------------------------------------------
  // The handlers

  method List(req: Request, listed: Listed) returns (ctx: Context)
    ensures ctx.Snapshot() == ListResponse(req, listed)
  {
    ctx := new Context();
    var ok := ctx.CheckSystemAdmin(req.authInfo);
    if !ok {
      return;
    }
    ctx.Call(CallList, listed.err);
    ctx.resp := Some(listed.items);
  }

  method ListForProject(req: Request, listed: Listed) returns (ctx: Context)
    ensures ctx.Snapshot() == ListForProjectResponse(req, listed)
  {
    ctx := new Context();
    if req.authInfo.Err? {
      ctx.err := Some(AuthInfoFailure(req.authInfo.error));
      ctx.unAuthorized := true;
      return;
    }
    var pms := new ProjectManagement[|listed.items|](k requires 0 <= k < |listed.items| => listed.items[k]);
    assert pms[..] == listed.items;
    RedactAll(pms);
    ctx.Call(CallList, listed.err);
    ctx.resp := Some(pms[..]);
  }

  method Create(req: Request, licence: Result<LicenceStatus>, answer: Outcome) returns (ctx: Context)
    ensures ctx.Snapshot() == CreateResponse(req, licence, answer)
  {
    ctx := new Context();
    var ok := ctx.CheckSystemAdmin(req.authInfo);
    if !ok {
      return;
    }
    ok := CheckBodyAndLicence(ctx, req.body, licence);
    if !ok {
      return;
    }
    ctx.Call(CallCreate(req.body.value), answer);
  }

  method Update(req: Request, licence: Result<LicenceStatus>, answer: Outcome) returns (ctx: Context)
    ensures ctx.Snapshot() == UpdateResponse(req, licence, answer)
  {
    ctx := new Context();
    var ok := ctx.CheckSystemAdmin(req.authInfo);
    if !ok {
      return;
    }
    ok := CheckBodyAndLicence(ctx, req.body, licence);
    if !ok {
      return;
    }
    ctx.Call(CallUpdate(req.id, req.body.value), answer);
  }

  /** The body and licence checks of create and update; true when the handler may go on. */
  method CheckBodyAndLicence(ctx: Context, body: Result<ProjectManagement>, licence: Result<LicenceStatus>) returns (ok: bool)
    modifies ctx
    ensures ok <==> body.Ok? && licence.Ok? && LicencePermits(body.value, licence.value)
    ensures ctx.err == (
      if body.Err? then Some(BadBody(body.error))
      else if licence.Err? then Some(LicenceCheckFailed("failed to validate zadig license status, error: " + licence.error))
      else if !LicencePermits(body.value, licence.value) then Some(LicenseInvalid)
      else old(ctx.err))
    ensures ctx.unAuthorized == old(ctx.unAuthorized) && ctx.calls == old(ctx.calls) && ctx.resp == old(ctx.resp)
  {
    if body.Err? {
      ctx.err := Some(BadBody(body.error));
      return false;
    }
    if licence.Err? {
      ctx.err := Some(LicenceCheckFailed("failed to validate zadig license status, error: " + licence.error));
      return false;
    }
    if body.value.meegoHost != "" {
      if !IsPremiumNormal(licence.value) {
        ctx.err := Some(LicenseInvalid);
        return false;
      }
    }
    return true;
  }

  method Delete(req: Request, answer: Outcome) returns (ctx: Context)
    ensures ctx.Snapshot() == DeleteResponse(req, answer)
  {
    ctx := new Context();
    var ok := ctx.CheckSystemAdmin(req.authInfo);
    if !ok {
      return;
    }
    ctx.Call(CallDelete(req.id), answer);
  }

  method Validate(req: Request, answer: Outcome) returns (ctx: Context)
    ensures ctx.Snapshot() == ValidateResponse(req, answer)
  {
    ctx := new Context();
    var ok := ctx.CheckSystemAdmin(req.authInfo);
    if !ok {
      return;
    }
    if req.body.Err? {
      ctx.err := Some(BadBody(req.body.error));
      return;
    }
    var pm := req.body.value;
    if pm.pmType == PMJira {
      ctx.Call(CallValidateJira(pm), answer);
    } else if pm.pmType == PMMeego {
      ctx.Call(CallValidateMeego(pm), answer);
    } else {
      ctx.err := Some(InvalidType("invalid type"));
    }
  }

  /** The JQL search: no authorisation check, and the query is passed on with
      the user name substituted. */
  method SearchWithJQL(id: string, project: string, jql: string, summary: string, userName: string, answer: Outcome)
      returns (ctx: Context)
    ensures ctx.Snapshot() == SearchWithJQLResponse(id, project, jql, summary, userName, answer)
  {
    ctx := new Context();
    ctx.Call(CallSearchWithJQL(id, project, ReplaceAll(jql, UsernameVariable, userName), summary), answer);
  }
}
