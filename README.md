# Authorization decisions of the threat-graph dashboard routes

This project models the access decision that each detail route of the
threat-graph telemetry dashboard makes. The decision runs before the route
fetches anything. Each route checks the authenticated user: the disabled
flag, the role, the username, and the group list or the answer of the
external permission check. It then either delegates one controller call or
raises. Its `try`/`except` chain then maps whatever was raised to the error
the client sees.

- `Access` (access.dfy): the user record, the exception classes the handlers
  tell apart, the results of external calls (`Call`), the pre-fetch verdict
  (`Gate`), what leaves a handler (`Outcome`), and `Surface`, which is the
  `except` chain shared by every handler.
- `AgentDetail` (agent_detail.dfy): the six handlers of
  `app/routes/agent_detail.py`, as written. Pattern A is `agent-info`,
  `agent_mitre` and `agent_ransomware`. Pattern B is `agent_cve`, `agent_ioc`
  and `agent_compliance`.
- `ModbusEvents` (modbus_events.dfy): the read and create
  handlers of `app/routes/modbus_events.py`, as written.
- `Scoped` (scoped_agent_detail.dfy): the corrected agent-detail handlers
  behind the findings below. The requested agent must belong to one of the
  caller's groups, admins pass everywhere, and disabled users are denied
  everywhere. This module also relates the corrected handlers to the
  as-written ones.

The external calls are parameters of the handler functions. The models make
no assumption about what these calls do:
- `UserModel.get_user_groups` is `groupsOf`.
- `AgentController.check_user_permission` is `check`. Its truthy or falsy
  result is a `bool`.
- The `AgentDetailController` calls are `fetch`, applied to a `Query` that
  records the endpoint, the agent key and the time window.
- `ModbusEventController.get_modbus_events` is `fetchEvents`.
- `ModbusEventController.create_modbus_event` is `create`.

Any of these calls may return or raise.

The policy these handlers evidently aim at differs from what they do:
- The disabled check comes first, on every agent-detail endpoint, admins
  included.
- An admin has global scope, on every agent-detail endpoint.
- A non-admin may only see agents of their own groups. A caller-supplied
  agent name is first resolved to the agent's id, and that id is checked
  against the ids the groups list.

The code departs from this in three ways:
- Pattern B never reads the disabled flag.
- Pattern B denies every admin.
- No handler compares the requested agent with the caller's groups.

`AgentDetail` follows the code and `Scoped` follows the policy. The Modbus
handlers never read the disabled flag either. Nothing in their source
suggests that a check was meant, so `ModbusEvents` states this only as the
code's behaviour. Both keep the code's structure, in which a check raises and the
`except` chain maps the exception (`Gate`, `Surface`).

## Model

| member | source | states |
|---|---|---|
| `Access.Surface` | app/routes/agent_detail.py:58-64 | A returned value passes through unchanged. Any `PermissionError`, whatever its message, becomes a denial with "Permission denied". An `UnauthorizedError` becomes "Authentication required". Everything else becomes an internal error. Each of these holds in both directions. |
| `Access.SurfaceHidesMessages` | app/routes/agent_detail.py:113-118 | Two failures of the same class reach the client identically. The message raised inside the handler is dropped. |
| `AgentDetail.Handle` | app/routes/agent_detail.py:45-284 | For each of the six handlers (lines 45-64, 100-118, 147-165, 188-202, 233-247, 270-284), a response comes exactly when the endpoint's checks pass and the controller call returns. The response is the controller's untouched answer for the caller's own parameters: the agent name on pattern A, the agent id on pattern B. When a check stops the handler, its error goes through the `except` chain. Every denial reads "Permission denied", and every authentication failure reads "Authentication required". |
| `AgentDetail.DisabledDeniedA` | app/routes/agent_detail.py:46-47 | On pattern A a disabled user is denied, whatever their role, groups or request. |
| `AgentDetail.AdminAllowedA` | app/routes/agent_detail.py:48-50 | On pattern A an enabled admin gets the controller's answer for the requested agent name. The group lookup and the permission check make no difference. |
| `AgentDetail.PermissionCheckA` | app/routes/agent_detail.py:51-57 | On pattern A, for an enabled non-admin, a truthy permission check means "Permission denied". Otherwise the user gets the controller's answer for the requested name. |
| `AgentDetail.RequestNeverChecked` | app/routes/agent_detail.py:106-111 | On every endpoint, whether the handler reaches its controller call does not depend on the request. Any agent name or id is served once the user-level checks pass. |
| `AgentDetail.AdminDeniedB` | app/routes/agent_detail.py:189-194 | On pattern B every admin is denied, because `group_names = None` is falsy. |
| `AgentDetail.GroupsDecideB` | app/routes/agent_detail.py:191-195 | On pattern B a non-admin is denied exactly when their group list is empty. Otherwise they get the controller's answer for the requested agent id. |
| `AgentDetail.DisabledIgnoredB` | app/routes/agent_detail.py:233-240 | Pattern B's outcome is the same whatever the disabled flag is and whatever the permission check would answer. |
| `AgentDetail.LookupFailureSurfaces` | app/routes/agent_detail.py:197-202 | A failing group lookup reaches the client only through the `except` chain. A permission failure with any message becomes "Permission denied", and an authentication failure becomes "Authentication required". |
| `AgentDetail.CheckFailureSurfaces` | app/routes/agent_detail.py:53-64 | On pattern A, a permission check that raises instead of returning reaches the client only through the `except` chain. A permission failure with any message becomes "Permission denied", an authentication failure becomes "Authentication required", and anything else becomes an internal error. |
| `AgentDetail.FetchFailureInternal` | app/routes/agent_detail.py:62-64 | A controller call that fails with an unrecognised exception gives an internal error once the checks have passed. Before that point, the check's own error decides the outcome. |
| `ModbusEvents.GetEvents` | app/routes/modbus_events.py:41-53 | The read is let through exactly when the role is `admin` or the username is `redteam2`, and then yields the controller's answer through the `except` chain. Everyone else is denied with "Permission denied". |
| `ModbusEvents.PostEvents` | app/routes/modbus_events.py:74-85 | Only the `admin` role may create. A successful create answers "Event created successfully" with exactly the event id the controller produced. A failed create goes through the `except` chain. |
| `ModbusEvents.GetReadsRoleAndName` | app/routes/modbus_events.py:42-46 | The read outcome depends only on the role and the username. |
| `ModbusEvents.PostReadsRoleOnly` | app/routes/modbus_events.py:75-77 | The create outcome depends only on the role. |
| `ModbusEvents.DisabledAdminAllowed` | app/routes/modbus_events.py:42-78 | A disabled admin still reads and creates events. |
| `ModbusEvents.RedTeamReadOnly` | app/routes/modbus_events.py:42-77 | The `redteam2` account, when not an admin, may read but is denied on create. |
| `ModbusEvents.CreateImpliesRead` | app/routes/modbus_events.py:42-76 | Whoever may create events may read them. |
| `ModbusEvents.ReadFailureInternal` | app/routes/modbus_events.py:42-53 | For an admin or the `redteam2` account, a read that fails with neither an authentication nor a permission error gives an internal error. |
| `ModbusEvents.CreateFailureInternal` | app/routes/modbus_events.py:75-85 | For an admin, a create that fails with neither an authentication nor a permission error gives an internal error. |
| `Scoped.InAgentsInGroups` | app/routes/agent_detail.py:51 | An agent id is in the scope of a group list exactly when one of the groups lists it. |
| `Scoped.Handle` | app/routes/agent_detail.py:51-56 | In the corrected handler, a response implies an enabled user and the caller's own query. For a non-admin, it also implies that the requested agent resolves to an id within their groups' agents: the name goes through the directory on pattern A, and the id is taken as given on pattern B. |
| `Scoped.AllowedOnlyInScope` | app/routes/agent_detail.py:51-56 | Under the correction a non-admin is only answered when the requested agent resolves to an id that one of their groups lists. On pattern A the name must resolve through the directory; on pattern B the id itself must be listed. |
| `Scoped.UnresolvedNameDenied` | app/routes/agent_detail.py:51-56 | Under the correction, a pattern-A name that the directory cannot resolve is never served to a non-admin. |
| `Scoped.DisabledDenied` | app/routes/agent_detail.py:188-194 | Under the correction a disabled user is denied on all six endpoints. |
| `Scoped.AdminAllowed` | app/routes/agent_detail.py:189-195 | Under the correction an enabled admin gets the controller's answer on all six endpoints. |
| `Scoped.NarrowsAsWritten` | app/routes/agent_detail.py:45-57 | Apart from the admins that pattern B turned away, the corrected handler only answers requests that the as-written handler answers identically. |
| `Scoped.AgreesInScope` | app/routes/agent_detail.py:100-112 | For an enabled non-admin asking for an agent whose resolved id one of their groups lists, the corrected and the as-written handlers agree. |
| `Scoped.NameBypass` | app/routes/agent_detail.py:51-56 | An operator of group "plantA" (agent ids "001", "002") asks for agent "plc-9", whose id is "009". The as-written MITRE handler serves it and the corrected one denies it. |
| `Scoped.NameIsNotId` | app/routes/agent_detail.py:104-111 | Under the correction, the agent named "001" (id "777") is denied although "plantA" lists the id "001". The agent named "plc-1" (id "001") is served. |
| `Scoped.DisabledBypass` | app/routes/agent_detail.py:188-196 | A disabled operator asks for the CVE data of their own agent. The as-written handler serves it and the corrected one denies it. |

## Findings

| source | as written | input that shows it | evidently intended | confidence | as-written member | corrected member |
|---|---|---|---|---|---|---|
| app/routes/agent_detail.py:51-56 | The agent name is passed to the controller without being checked against the caller's groups. The source's own comment calls this a logic error. Pattern B does the same with the agent id. | A non-admin operator owns "plantA" (agent ids "001", "002"), the permission check finds nothing wrong, and the request names "plc-9" (id "009"). | Only agents of the caller's groups are served, with a name first resolved to the agent's id. | high; not executed | `Scoped.NameBypass` | `Scoped.AllowedOnlyInScope` |
| app/routes/agent_detail.py:189-194 | An admin gets `group_names = None`, and `not group_names` then denies. | Any admin on `agent_cve`, `agent_ioc` or `agent_compliance`. | An admin passes without a group filter, as on pattern A. | medium; not executed | `AgentDetail.AdminDeniedB` | `Scoped.AdminAllowed` |
| app/routes/agent_detail.py:188-195 | Pattern B has no disabled check. | A disabled operator of "plantA" asks for the CVE data of "001". | A disabled account is denied, as on pattern A. | medium; not executed | `Scoped.DisabledBypass` | `Scoped.DisabledDenied` |

## Left out

- Authentication: `AuthController.get_current_user` runs as a route dependency before the handler body. Token verification is therefore not modelled. The handlers receive an already resolved `User`.
- The bodies of `UserModel.get_user_groups`, `AgentController.check_user_permission`, `AgentDetailController.*` and `ModbusEventController.*` are not part of this model. They are uninterpreted parameters that may return or raise.
- The class hierarchy of `UnauthorizedError` and `PermissionError` in the application's error module is not part of this model. The model assumes the two classes are unrelated. Under that assumption, the different order of the two `except` clauses in `app/routes/modbus_events.py` does not matter, and one `Surface` serves every handler.
- The return value of `get_user_groups` is a list (`seq<string>`). A `None` return would be falsy like the empty list, so pattern B treats it the same way. Pattern A only passes the value on to the abstract permission check.
- Building the response objects (`AgentInfoResponse`, `AgentMitre`, ...) and FastAPI's validation of the returned value are not modelled. The model assumes they do not fail.
- Async/await, FastAPI dependency injection, logging calls and the text of `InternalServerError` (which embeds the original exception on some endpoints) are not modelled.
- The response payload shapes and the telemetry rollups are not modelled. They are produced by controllers whose source is not part of this model. The same holds for time-window defaults and validation.
- `app/main.py` (application wiring, logger, CORS, startup) and `app/controllers/manage.py` (thin wrappers over database calls whose source is not part of this model) are not part of this model.
- Scoped.AllowedOnlyInScope: proves that the requested agent resolves to an id in the caller's groups, not that the records served belong to that agent. On pattern A the corrected handler still asks the controller by name, because the controllers take names. The correction therefore assumes that the controller's lookup by name selects the agent `nameToId` returns. Agent names are labels and need not be unique, so this assumption is not checked here.
- `Scoped`: the agent directory's two lookups are modelled as functions that cannot fail: `members` gives the agent ids of a group, and `nameToId` resolves a name. The corrected controller call keeps the caller's name, as the controllers take names.
