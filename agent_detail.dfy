/** The six detail handlers of the agent-detail router, as written.

    `get_agent_info`, `get_agent_mitre` and `get_agent_ransomware` (pattern A)
    deny a disabled user, let an admin straight through, and otherwise ask the
    external permission check about the user's groups. `get_agent_cve`,
    `get_agent_ioc` and `get_agent_compliance` (pattern B) never look at the
    disabled flag, give an admin no group list at all (`None`) and deny
    whenever that list is falsy, so they deny every admin. In neither pattern
    is the requested agent compared with the user's groups. */
module AgentDetail {
  import opened Access

  datatype Endpoint =
    | AgentInfo | AgentMitre | AgentRansomware
    | AgentCve | AgentIoc | AgentCompliance

  /** The endpoints that follow pattern A. */
  predicate ChecksPermission(e: Endpoint) {
    e.AgentInfo? || e.AgentMitre? || e.AgentRansomware?
  }

  /** The caller-supplied query parameters; each endpoint reads only some. */
  datatype Request = Request(agentName: string, agentId: string, startTime: string, endTime: string)

  datatype Window = Unbounded | Between(startTime: string, endTime: string)

  /** The arguments of the single controller call a handler delegates to. */
  datatype Query = Query(endpoint: Endpoint, agentKey: string, window: Window)

  /** A successful response: the data the controller returned for `query`. */
  datatype Served<+D> = Served(query: Query, data: D)

  /** Pattern A keys the controller call on the agent name, pattern B on the
      agent id; only the agent-info call takes no time window. */
  function QueryFor(e: Endpoint, req: Request): Query {
    match e
    case AgentInfo => Query(e, req.agentName, Unbounded)
    case AgentMitre => Query(e, req.agentName, Between(req.startTime, req.endTime))
    case AgentRansomware => Query(e, req.agentName, Between(req.startTime, req.endTime))
    case _ => Query(e, req.agentId, Between(req.startTime, req.endTime))
  }

  /** The awaited controller call, with its result tagged by its arguments. */
  function Serve<D>(fetch: Query -> Call<D>, q: Query): Call<Served<D>> {
    match fetch(q)
    case Returned(d) => Returned(Served(q, d))
    case Raised(err) => Raised(err)
  }

  /** The truthiness test on what `check_user_permission` returned. */
  function PermissionVerdict(u: User, groups: seq<string>, check: (User, seq<string>) -> Call<bool>): Gate {
    match check(u, groups)
    case Raised(err) => Stop(err)
    case Returned(permissionError) =>
      if permissionError then Stop(PermissionError(PermissionDenied)) else Pass
  }

  /** The checks of pattern A; note that the request is not among the inputs. */
  function GateA(u: User, groupsOf: int -> Call<seq<string>>, check: (User, seq<string>) -> Call<bool>): Gate {
    if u.disabled then Stop(PermissionError("User account is disabled"))
    else if IsAdmin(u) then Pass
    else
      match groupsOf(u.id)
      case Raised(err) => Stop(err)
      case Returned(groups) => PermissionVerdict(u, groups, check)
  }

  /** `group_names` of pattern B: `None` for an admin, else the looked-up list. */
  function GroupNames(u: User, groupsOf: int -> Call<seq<string>>): Call<Option<seq<string>>> {
    if IsAdmin(u) then Returned(None)
    else
      match groupsOf(u.id)
      case Raised(err) => Raised(err)
      case Returned(groups) => Returned(Some(groups))
  }

  /** Python's `not group_names`: true of `None` and of the empty list. */
  predicate Falsy(groupNames: Option<seq<string>>) {
    groupNames.None? || groupNames.value == []
  }

  /** The check of pattern B; neither the disabled flag nor the request is read. */
  function GateB(u: User, groupsOf: int -> Call<seq<string>>): Gate {
    match GroupNames(u, groupsOf)
    case Raised(err) => Stop(err)
    case Returned(groupNames) =>
      if Falsy(groupNames) then Stop(PermissionError(PermissionDenied)) else Pass
  }

  function GateFor(e: Endpoint, u: User, groupsOf: int -> Call<seq<string>>, check: (User, seq<string>) -> Call<bool>): Gate {
    if ChecksPermission(e) then GateA(u, groupsOf, check) else GateB(u, groupsOf)
  }

  /** One request to endpoint `e`. The external calls are parameters:
      `groupsOf` is `UserModel.get_user_groups`, `check` is
      `AgentController.check_user_permission` and `fetch` the controller call
      that loads the data. A response is only ever the untouched result of the
      one controller call the endpoint makes for the caller's own parameters. */
  function Handle<D>(e: Endpoint, u: User, req: Request,
                     groupsOf: int -> Call<seq<string>>,
                     check: (User, seq<string>) -> Call<bool>,
                     fetch: Query -> Call<D>): (r: Outcome<Served<D>>)
    ensures r.Allowed? <==> GateFor(e, u, groupsOf, check).Pass? && fetch(QueryFor(e, req)).Returned?
    ensures r.Allowed? ==> r.content.query == QueryFor(e, req) && fetch(r.content.query) == Returned(r.content.data)
    ensures r.Allowed? ==> r.content.query.agentKey == (if ChecksPermission(e) then req.agentName else req.agentId)
    ensures GateFor(e, u, groupsOf, check).Stop? ==> r == Surface(Raised(GateFor(e, u, groupsOf, check).error))
    ensures r.Denied? ==> r.message == PermissionDenied
    ensures r.Unauthorized? ==> r.message == AuthenticationRequired
  {
    Surface(Proceed(GateFor(e, u, groupsOf, check), Serve(fetch, QueryFor(e, req))))
  }

  // ---------------------------------------------------------------- pattern A

  /** A disabled user is denied on every pattern-A endpoint, whatever their
      role, groups or request, and nothing external is consulted. */
  lemma DisabledDeniedA<D>(e: Endpoint, u: User, req: Request,
                           groupsOf: int -> Call<seq<string>>,
                           check: (User, seq<string>) -> Call<bool>,
                           fetch: Query -> Call<D>)
    requires ChecksPermission(e) && u.disabled
    ensures Handle(e, u, req, groupsOf, check, fetch) == Denied(PermissionDenied)
  {
  }

  /** An enabled admin on a pattern-A endpoint gets the controller's answer
      for the requested agent name; the group lookup and the permission check
      make no difference. */
  lemma AdminAllowedA<D>(e: Endpoint, u: User, req: Request,
                         groupsOf1: int -> Call<seq<string>>, check1: (User, seq<string>) -> Call<bool>,
                         groupsOf2: int -> Call<seq<string>>, check2: (User, seq<string>) -> Call<bool>,
                         fetch: Query -> Call<D>)
    requires ChecksPermission(e) && !u.disabled && IsAdmin(u)
    ensures Handle(e, u, req, groupsOf1, check1, fetch) == Handle(e, u, req, groupsOf2, check2, fetch)
    ensures QueryFor(e, req).agentKey == req.agentName
    ensures Handle(e, u, req, groupsOf1, check1, fetch) == Surface(Serve(fetch, QueryFor(e, req)))
  {
  }

  /** For an enabled non-admin on a pattern-A endpoint whose group lookup and
      permission check both return, the outcome is a denial exactly when the
      check's result is truthy, and otherwise the controller's answer for the
      requested agent name. */
  lemma PermissionCheckA<D>(e: Endpoint, u: User, req: Request,
                            groupsOf: int -> Call<seq<string>>,
                            check: (User, seq<string>) -> Call<bool>,
                            fetch: Query -> Call<D>,
                            groups: seq<string>, permissionError: bool)
    requires ChecksPermission(e) && !u.disabled && !IsAdmin(u)
    requires groupsOf(u.id) == Returned(groups) && check(u, groups) == Returned(permissionError)
    ensures permissionError ==> Handle(e, u, req, groupsOf, check, fetch) == Denied(PermissionDenied)
    ensures !permissionError ==> Handle(e, u, req, groupsOf, check, fetch) == Surface(Serve(fetch, QueryFor(e, req)))
  {
  }

  /** On every endpoint the checks ignore the request: whether the handler
      reaches its controller call is the same for any two requests, so a
      caller may ask for any agent name (pattern A) or id (pattern B) that
      the permission check never saw. */
  lemma RequestNeverChecked<D>(e: Endpoint, u: User, req1: Request, req2: Request,
                               groupsOf: int -> Call<seq<string>>,
                               check: (User, seq<string>) -> Call<bool>,
                               fetch: Query -> Call<D>)
    requires fetch(QueryFor(e, req1)).Returned? && fetch(QueryFor(e, req2)).Returned?
    ensures Handle(e, u, req1, groupsOf, check, fetch).Allowed? == Handle(e, u, req2, groupsOf, check, fetch).Allowed?
  {
  }

  // ---------------------------------------------------------------- pattern B

  /** Every admin is denied on the pattern-B endpoints: `group_names = None`
      makes `not group_names` true. */
  lemma AdminDeniedB<D>(e: Endpoint, u: User, req: Request,
                        groupsOf: int -> Call<seq<string>>,
                        check: (User, seq<string>) -> Call<bool>,
                        fetch: Query -> Call<D>)
    requires !ChecksPermission(e) && IsAdmin(u)
    ensures Handle(e, u, req, groupsOf, check, fetch) == Denied(PermissionDenied)
  {
  }

  /** A non-admin whose group lookup returns is denied on a pattern-B
      endpoint exactly when the list is empty, and otherwise gets the
      controller's answer for the requested agent id. */
  lemma GroupsDecideB<D>(e: Endpoint, u: User, req: Request,
                         groupsOf: int -> Call<seq<string>>,
                         check: (User, seq<string>) -> Call<bool>,
                         fetch: Query -> Call<D>,
                         groups: seq<string>)
    requires !ChecksPermission(e) && !IsAdmin(u) && groupsOf(u.id) == Returned(groups)
    ensures groups == [] ==> Handle(e, u, req, groupsOf, check, fetch) == Denied(PermissionDenied)
    ensures groups != [] ==> Handle(e, u, req, groupsOf, check, fetch) == Surface(Serve(fetch, QueryFor(e, req)))
    ensures QueryFor(e, req).agentKey == req.agentId
  {
  }

  /** Pattern B never reads the disabled flag and never calls the permission
      check: flipping the one or replacing the other changes nothing. */
  lemma DisabledIgnoredB<D>(e: Endpoint, u: User, req: Request,
                            groupsOf: int -> Call<seq<string>>,
                            check1: (User, seq<string>) -> Call<bool>,
                            check2: (User, seq<string>) -> Call<bool>,
                            fetch: Query -> Call<D>, disabled: bool)
    requires !ChecksPermission(e)
    ensures Handle(e, u, req, groupsOf, check1, fetch) == Handle(e, u.(disabled := disabled), req, groupsOf, check2, fetch)
  {
  }

  // ------------------------------------------------------------ error mapping

  /** Whatever an external call raises before the checks are done reaches the
      client through the `except` chain alone: a `PermissionError` with any
      message as "Permission denied", an `UnauthorizedError` as
      "Authentication required", anything else as an internal error. */
  lemma LookupFailureSurfaces<D>(e: Endpoint, u: User, req: Request,
                                 groupsOf: int -> Call<seq<string>>,
                                 check: (User, seq<string>) -> Call<bool>,
                                 fetch: Query -> Call<D>, err: Error)
    requires !IsAdmin(u) && groupsOf(u.id) == Raised(err)
    requires ChecksPermission(e) ==> !u.disabled
    ensures Handle(e, u, req, groupsOf, check, fetch) == Surface(Raised(err))
    ensures err.PermissionError? ==> Handle(e, u, req, groupsOf, check, fetch) == Denied(PermissionDenied)
    ensures err.UnauthorizedError? ==> Handle(e, u, req, groupsOf, check, fetch) == Unauthorized(AuthenticationRequired)
  {
  }

  /** The same holds when the permission check of pattern A raises instead of
      returning: its error, whatever its message, reaches the client only
      through the `except` chain. */
  lemma CheckFailureSurfaces<D>(e: Endpoint, u: User, req: Request,
                                groupsOf: int -> Call<seq<string>>,
                                check: (User, seq<string>) -> Call<bool>,
                                fetch: Query -> Call<D>, groups: seq<string>, err: Error)
    requires ChecksPermission(e) && !u.disabled && !IsAdmin(u)
    requires groupsOf(u.id) == Returned(groups) && check(u, groups) == Raised(err)
    ensures Handle(e, u, req, groupsOf, check, fetch) == Surface(Raised(err))
    ensures err.PermissionError? ==> Handle(e, u, req, groupsOf, check, fetch) == Denied(PermissionDenied)
    ensures err.UnauthorizedError? ==> Handle(e, u, req, groupsOf, check, fetch) == Unauthorized(AuthenticationRequired)
    ensures err.OtherError? ==> Handle(e, u, req, groupsOf, check, fetch) == Internal
  {
  }

  /** A controller call that fails with anything but the two recognised
      classes makes the handler fail with an internal error; it is never
      turned into a response or a denial. */
  lemma FetchFailureInternal<D>(e: Endpoint, u: User, req: Request,
                                groupsOf: int -> Call<seq<string>>,
                                check: (User, seq<string>) -> Call<bool>,
                                fetch: Query -> Call<D>, message: string)
    requires fetch(QueryFor(e, req)) == Raised(OtherError(message))
    ensures GateFor(e, u, groupsOf, check).Stop? ==> Handle(e, u, req, groupsOf, check, fetch) == Surface(Raised(GateFor(e, u, groupsOf, check).error))
    ensures GateFor(e, u, groupsOf, check).Pass? ==> Handle(e, u, req, groupsOf, check, fetch) == Internal
  {
  }
}
