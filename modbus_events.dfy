/** The two handlers of the Modbus-events router, as written. Reading events
    is open to the admin role and to one named account; creating an event to
    the admin role alone. Neither handler looks at the disabled flag. */
module ModbusEvents {
  import opened Access

  /** The one non-admin account that may read Modbus events. */
  const RedTeamUsername: string := "redteam2"

  const EventCreated: string := "Event created successfully"

  /** The time window of a read; the timestamps are passed on untouched. */
  datatype EventsRequest = EventsRequest(startTime: string, endTime: string)

  /** The body of a successful create. */
  datatype Created = Created(message: string, eventId: string)

  /** The guard of the read handler. The bare `raise PermissionError` carries
      no message; the `except` chain replaces it anyway. */
  function ReadGate(u: User): Gate {
    if u.userRole != AdminRole && u.username != RedTeamUsername then Stop(PermissionError(""))
    else Pass
  }

  /** The guard of the create handler. */
  function CreateGate(u: User): Gate {
    if u.userRole != AdminRole then Stop(PermissionError("")) else Pass
  }

  /** `get_modbus_events`: `fetchEvents` stands for the controller's read of
      the events between two timestamps. The caller is let through exactly
      when their role is admin or their username is the red-team account, and
      then gets the controller's answer through the `except` chain. */
  function GetEvents<E>(u: User, req: EventsRequest, fetchEvents: (string, string) -> Call<E>): (r: Outcome<E>)
    ensures (u.userRole == AdminRole || u.username == RedTeamUsername) ==> r == Surface(fetchEvents(req.startTime, req.endTime))
    ensures !(u.userRole == AdminRole || u.username == RedTeamUsername) ==> r == Denied(PermissionDenied)
  {
    Surface(Proceed(ReadGate(u), fetchEvents(req.startTime, req.endTime)))
  }

  /** `post_modbus_events`: `create` stands for the controller's insert, which
      returns the new event's id. Only the admin role is let through; its
      response carries the fixed message and exactly the id the controller
      produced. */
  function PostEvents<V>(u: User, event: V, create: V -> Call<string>): (r: Outcome<Created>)
    ensures !IsAdmin(u) ==> r == Denied(PermissionDenied)
    ensures IsAdmin(u) && create(event).Returned? ==> r == Allowed(Created(EventCreated, create(event).value))
    ensures IsAdmin(u) && create(event).Raised? ==> r == Surface(Raised(create(event).error))
  {
    var body := match create(event)
      case Returned(eventId) => Returned(Created(EventCreated, eventId))
      case Raised(err) => Raised(err);
    Surface(Proceed(CreateGate(u), body))
  }

  /** The read handler's outcome depends on the user's role and username
      alone: the id and the disabled flag are never read. */
  lemma GetReadsRoleAndName<E>(u1: User, u2: User, req: EventsRequest, fetchEvents: (string, string) -> Call<E>)
    requires u1.userRole == u2.userRole && u1.username == u2.username
    ensures GetEvents(u1, req, fetchEvents) == GetEvents(u2, req, fetchEvents)
  {
  }

  /** The create handler's outcome depends on the user's role alone. */
  lemma PostReadsRoleOnly<V>(u1: User, u2: User, event: V, create: V -> Call<string>)
    requires u1.userRole == u2.userRole
    ensures PostEvents(u1, event, create) == PostEvents(u2, event, create)
  {
  }

  /** A disabled admin still reads and creates events. */
  lemma DisabledAdminAllowed<E, V>(u: User, req: EventsRequest, fetchEvents: (string, string) -> Call<E>,
                                   event: V, create: V -> Call<string>)
    requires IsAdmin(u) && u.disabled
    requires fetchEvents(req.startTime, req.endTime).Returned? && create(event).Returned?
    ensures GetEvents(u, req, fetchEvents).Allowed?
    ensures PostEvents(u, event, create).Allowed?
  {
  }

  /** The red-team account, when it is not an admin, may read but not create. */
  lemma RedTeamReadOnly<E, V>(u: User, req: EventsRequest, fetchEvents: (string, string) -> Call<E>,
                              event: V, create: V -> Call<string>)
    requires u.username == RedTeamUsername && !IsAdmin(u)
    ensures GetEvents(u, req, fetchEvents) == Surface(fetchEvents(req.startTime, req.endTime))
    ensures PostEvents(u, event, create) == Denied(PermissionDenied)
  {
  }

  /** Whoever is allowed to create events is allowed to read them: a
      successful create implies the read handler passes its guard and returns
      whatever the controller answers. */
  lemma CreateImpliesRead<E, V>(u: User, event: V, create: V -> Call<string>,
                                req: EventsRequest, fetchEvents: (string, string) -> Call<E>)
    requires PostEvents(u, event, create).Allowed?
    ensures GetEvents(u, req, fetchEvents) == Surface(fetchEvents(req.startTime, req.endTime))
  {
  }

  /** A failing read surfaces by class: a non-permission failure of the
      controller gives an internal error, for an admin and for the red-team
      account alike, never a response or a denial. */
  lemma ReadFailureInternal<E>(u: User, req: EventsRequest, fetchEvents: (string, string) -> Call<E>, message: string)
    requires u.userRole == AdminRole || u.username == RedTeamUsername
    requires fetchEvents(req.startTime, req.endTime) == Raised(OtherError(message))
    ensures GetEvents(u, req, fetchEvents) == Internal
  {
  }

  /** A failing create surfaces by class: a non-permission failure of the
      controller gives an admin an internal error, never a response or a
      denial. */
  lemma CreateFailureInternal<V>(u: User, event: V, create: V -> Call<string>, message: string)
    requires IsAdmin(u)
    requires create(event) == Raised(OtherError(message))
    ensures PostEvents(u, event, create) == Internal
  {
  }
}
