/** The agent-detail handlers as they are evidently meant to behave, beside
    the as-written model in `AgentDetail`:

    - the requested agent must belong to one of the caller's groups, which
      the source itself flags as missing on pattern A; pattern A names the
      agent, so the name is first resolved to the agent's id, while pattern B
      passes the id itself;
    - an admin is let through on every endpoint, pattern B included;
    - a disabled user is denied on every endpoint, pattern B included.

    Two lookups of the agent directory are parameters: `members` gives the
    ids of the agents of a group, and `nameToId` resolves an agent name to
    the id of the agent it names, if any. A name is never compared with the
    member lists itself. */
module Scoped {
  import opened Access
  import AgentDetail

  /** The ids of every agent of the given groups, group by group. */
  function AgentsInGroups(groups: seq<string>, members: string -> seq<string>): seq<string>
    decreases |groups|
  {
    if groups == [] then [] else members(groups[0]) + AgentsInGroups(groups[1..], members)
  }

  /** An agent is in the scope of a group list exactly when one of the
      groups lists it. */
  lemma {:induction false} InAgentsInGroups(groups: seq<string>, members: string -> seq<string>, agent: string)
    ensures agent in AgentsInGroups(groups, members) <==> exists i :: 0 <= i < |groups| && agent in members(groups[i])
    decreases |groups|
  {
    if groups != [] {
      var rest := groups[1..];
      InAgentsInGroups(rest, members, agent);
      if agent in AgentsInGroups(rest, members) {
        var j :| 0 <= j < |rest| && agent in members(rest[j]);
        assert agent in members(groups[j + 1]);
      }
      if i :| 0 <= i < |groups| && agent in members(groups[i]) {
        if i > 0 {
          assert agent in members(rest[i - 1]);
        }
      }
    }
  }

  /** The id of the agent whose data the request asks for: pattern A names
      the agent, so its name goes through the directory; pattern B passes
      the id itself. */
  function RequestedAgent(e: AgentDetail.Endpoint, req: AgentDetail.Request,
                          nameToId: string -> Option<string>): Option<string> {
    if AgentDetail.ChecksPermission(e) then nameToId(req.agentName) else Some(req.agentId)
  }

  /** The corrected checks; `agent` is the resolved id of the requested agent. */
  function Gate(e: AgentDetail.Endpoint, u: User, agent: Option<string>,
                groupsOf: int -> Call<seq<string>>,
                check: (User, seq<string>) -> Call<bool>,
                members: string -> seq<string>): Gate
  {
    if u.disabled then Stop(PermissionError("User account is disabled"))
    else if IsAdmin(u) then Pass
    else
      match groupsOf(u.id)
      case Raised(err) => Stop(err)
      case Returned(groups) =>
        var verdict := if AgentDetail.ChecksPermission(e) then AgentDetail.PermissionVerdict(u, groups, check) else Pass;
        if verdict.Stop? then verdict
        else if agent.None? || agent.value !in AgentsInGroups(groups, members) then Stop(PermissionError(PermissionDenied))
        else Pass
  }

  /** One request to endpoint `e` under the corrected checks. The controller
      call keeps the caller's parameters, as in the as-written handler. */
  function Handle<D>(e: AgentDetail.Endpoint, u: User, req: AgentDetail.Request,
                     groupsOf: int -> Call<seq<string>>,
                     check: (User, seq<string>) -> Call<bool>,
                     members: string -> seq<string>,
                     nameToId: string -> Option<string>,
                     fetch: AgentDetail.Query -> Call<D>): (r: Outcome<AgentDetail.Served<D>>)
    ensures r.Allowed? ==> !u.disabled
    ensures r.Allowed? ==> r.content.query == AgentDetail.QueryFor(e, req) && fetch(r.content.query) == Returned(r.content.data)
    ensures r.Allowed? && !IsAdmin(u) ==>
              && groupsOf(u.id).Returned?
              && RequestedAgent(e, req, nameToId).Some?
              && RequestedAgent(e, req, nameToId).value in AgentsInGroups(groupsOf(u.id).value, members)
  {
    var q := AgentDetail.QueryFor(e, req);
    Surface(Proceed(Gate(e, u, RequestedAgent(e, req, nameToId), groupsOf, check, members), AgentDetail.Serve(fetch, q)))
  }

  /** A non-admin is only answered when the requested agent resolves to an id
      that one of their own groups lists: on pattern A the requested name must
      resolve, through the directory, to such an id; on pattern B the id
      itself must be listed. The controller is still asked by name on
      pattern A, so which records come back is up to the controller. */
  lemma AllowedOnlyInScope<D>(e: AgentDetail.Endpoint, u: User, req: AgentDetail.Request,
                              groupsOf: int -> Call<seq<string>>,
                              check: (User, seq<string>) -> Call<bool>,
                              members: string -> seq<string>,
                              nameToId: string -> Option<string>,
                              fetch: AgentDetail.Query -> Call<D>,
                              groups: seq<string>)
    requires !IsAdmin(u) && groupsOf(u.id) == Returned(groups)
    requires Handle(e, u, req, groupsOf, check, members, nameToId, fetch).Allowed?
    ensures AgentDetail.ChecksPermission(e) ==> nameToId(req.agentName).Some?
    ensures RequestedAgent(e, req, nameToId).Some?
    ensures exists i :: 0 <= i < |groups| && RequestedAgent(e, req, nameToId).value in members(groups[i])
  {
    InAgentsInGroups(groups, members, RequestedAgent(e, req, nameToId).value);
  }

  /** A name that the directory cannot resolve is denied to a non-admin on
      pattern A, even when some group's member list happens to contain the
      same string. */
  lemma UnresolvedNameDenied<D>(e: AgentDetail.Endpoint, u: User, req: AgentDetail.Request,
                                groupsOf: int -> Call<seq<string>>,
                                check: (User, seq<string>) -> Call<bool>,
                                members: string -> seq<string>,
                                nameToId: string -> Option<string>,
                                fetch: AgentDetail.Query -> Call<D>)
    requires AgentDetail.ChecksPermission(e) && !IsAdmin(u) && nameToId(req.agentName).None?
    ensures !Handle(e, u, req, groupsOf, check, members, nameToId, fetch).Allowed?
  {
  }

  /** A disabled user is denied on all six endpoints. */
  lemma DisabledDenied<D>(e: AgentDetail.Endpoint, u: User, req: AgentDetail.Request,
                          groupsOf: int -> Call<seq<string>>,
                          check: (User, seq<string>) -> Call<bool>,
                          members: string -> seq<string>,
                          nameToId: string -> Option<string>,
                          fetch: AgentDetail.Query -> Call<D>)
    requires u.disabled
    ensures Handle(e, u, req, groupsOf, check, members, nameToId, fetch) == Denied(PermissionDenied)
  {
  }

  /** An enabled admin gets the controller's answer on all six endpoints,
      without any group lookup, permission check or name resolution. */
  lemma AdminAllowed<D>(e: AgentDetail.Endpoint, u: User, req: AgentDetail.Request,
                        groupsOf: int -> Call<seq<string>>,
                        check: (User, seq<string>) -> Call<bool>,
                        members: string -> seq<string>,
                        nameToId: string -> Option<string>,
                        fetch: AgentDetail.Query -> Call<D>)
    requires !u.disabled && IsAdmin(u)
    ensures Handle(e, u, req, groupsOf, check, members, nameToId, fetch) == Surface(AgentDetail.Serve(fetch, AgentDetail.QueryFor(e, req)))
  {
  }

  /** The correction only narrows the as-written handlers: apart from the
      admins that pattern B wrongly turned away, everything the corrected
      handler answers the as-written handler answers identically. */
  lemma NarrowsAsWritten<D>(e: AgentDetail.Endpoint, u: User, req: AgentDetail.Request,
                            groupsOf: int -> Call<seq<string>>,
                            check: (User, seq<string>) -> Call<bool>,
                            members: string -> seq<string>,
                            nameToId: string -> Option<string>,
                            fetch: AgentDetail.Query -> Call<D>)
    requires AgentDetail.ChecksPermission(e) || !IsAdmin(u)
    requires Handle(e, u, req, groupsOf, check, members, nameToId, fetch).Allowed?
    ensures AgentDetail.Handle(e, u, req, groupsOf, check, fetch) == Handle(e, u, req, groupsOf, check, members, nameToId, fetch)
  {
  }

  /** Conversely, for an enabled non-admin asking for an agent whose resolved
      id one of their groups lists, the correction changes nothing. */
  lemma AgreesInScope<D>(e: AgentDetail.Endpoint, u: User, req: AgentDetail.Request,
                         groupsOf: int -> Call<seq<string>>,
                         check: (User, seq<string>) -> Call<bool>,
                         members: string -> seq<string>,
                         nameToId: string -> Option<string>,
                         fetch: AgentDetail.Query -> Call<D>,
                         groups: seq<string>, agent: string, i: int)
    requires !u.disabled && !IsAdmin(u) && groupsOf(u.id) == Returned(groups)
    requires RequestedAgent(e, req, nameToId) == Some(agent)
    requires 0 <= i < |groups| && agent in members(groups[i])
    ensures Handle(e, u, req, groupsOf, check, members, nameToId, fetch) == AgentDetail.Handle(e, u, req, groupsOf, check, fetch)
  {
    InAgentsInGroups(groups, members, agent);
  }

  // ------------------------------------------------------------- witnesses

  const Operator: User := User(7, "operator1", "operator", false)
  const DisabledOperator: User := User(8, "operator2", "operator", true)

  /** Every user owns the single group "plantA" ... */
  const OwnsPlantA: int -> Call<seq<string>> := (id: int) => Returned(["plantA"])
  /** ... whose agents have the ids "001" and "002". */
  const PlantAMembers: string -> seq<string> := (g: string) => if g == "plantA" then ["001", "002"] else []
  /** The directory knows "plc-1", "plc-2" and "plc-9" by the ids "001",
      "002" and "009", and an agent whose name is "001" by the id "777". */
  const Directory: string -> Option<string> :=
    (n: string) =>
      if n == "plc-1" then Some("001")
      else if n == "plc-2" then Some("002")
      else if n == "plc-9" then Some("009")
      else if n == "001" then Some("777")
      else None
  /** The external permission check finds nothing wrong. */
  const NoPermissionError: (User, seq<string>) -> Call<bool> := (u: User, gs: seq<string>) => Returned(false)
  /** The controller answers with the key it was asked about. */
  const EchoKey: AgentDetail.Query -> Call<string> := (q: AgentDetail.Query) => Returned(q.agentKey)

  /** The agents of "plantA", spelled out. */
  lemma PlantAScope()
    ensures AgentsInGroups(["plantA"], PlantAMembers) == ["001", "002"]
  {
    assert AgentsInGroups(["plantA"], PlantAMembers) == ["001", "002"] + AgentsInGroups([], PlantAMembers);
  }

  /** An operator of "plantA" asks for the MITRE data of "plc-9", an agent of
      none of their groups: the as-written handler serves it, the corrected
      one denies it. */
  lemma NameBypass()
    ensures AgentDetail.Handle(AgentDetail.AgentMitre, Operator, AgentDetail.Request("plc-9", "", "t0", "t1"),
                               OwnsPlantA, NoPermissionError, EchoKey)
            == Allowed(AgentDetail.Served(AgentDetail.Query(AgentDetail.AgentMitre, "plc-9", AgentDetail.Between("t0", "t1")), "plc-9"))
    ensures Handle(AgentDetail.AgentMitre, Operator, AgentDetail.Request("plc-9", "", "t0", "t1"),
                   OwnsPlantA, NoPermissionError, PlantAMembers, Directory, EchoKey)
            == Denied(PermissionDenied)
  {
    PlantAScope();
  }

  /** The corrected handler does not mistake a name for an id: the agent
      named "001" has the id "777", so it is denied although "plantA" lists
      the id "001"; the agent named "plc-1" has the id "001" and is served. */
  lemma NameIsNotId()
    ensures Handle(AgentDetail.AgentMitre, Operator, AgentDetail.Request("001", "", "t0", "t1"),
                   OwnsPlantA, NoPermissionError, PlantAMembers, Directory, EchoKey)
            == Denied(PermissionDenied)
    ensures Handle(AgentDetail.AgentMitre, Operator, AgentDetail.Request("plc-1", "", "t0", "t1"),
                   OwnsPlantA, NoPermissionError, PlantAMembers, Directory, EchoKey)
            == Allowed(AgentDetail.Served(AgentDetail.Query(AgentDetail.AgentMitre, "plc-1", AgentDetail.Between("t0", "t1")), "plc-1"))
  {
    PlantAScope();
  }

  /** A disabled operator of "plantA" asks for the CVE data of its own agent
      "001": the as-written handler serves it, the corrected one denies it. */
  lemma DisabledBypass()
    ensures AgentDetail.Handle(AgentDetail.AgentCve, DisabledOperator, AgentDetail.Request("", "001", "t0", "t1"),
                               OwnsPlantA, NoPermissionError, EchoKey)
            == Allowed(AgentDetail.Served(AgentDetail.Query(AgentDetail.AgentCve, "001", AgentDetail.Between("t0", "t1")), "001"))
    ensures Handle(AgentDetail.AgentCve, DisabledOperator, AgentDetail.Request("", "001", "t0", "t1"),
                   OwnsPlantA, NoPermissionError, PlantAMembers, Directory, EchoKey)
            == Denied(PermissionDenied)
  {
  }
}
