/** What the shared handler package gives every authorised HTTP handler: the
    caller's authorisation info (`ctx.Resources`). Generating it is not
    modelled; its outcome is an input of each handler. */
module InternalHandler {
  datatype ProjectAuth = ProjectAuth(isProjectAdmin: bool)

  /** The caller's authorisation info: system admin or not, and per project
      whether the caller is its admin. */
  datatype Resources = Resources(isSystemAdmin: bool, projectAuthInfo: map<string, ProjectAuth>)
}
