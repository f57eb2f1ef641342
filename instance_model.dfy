/** The persisted challenge-instance record: its status enumeration, the
    `{name, port}` container entries and the defaults applied on creation. */
module InstanceModel {
  import opened Wrappers

  datatype Status = RUNNING | STOPPED | PENDING | FAILED | TERMINATED

  /** The string stored for each status. */
  function StatusName(s: Status): string {
    match s
    case RUNNING => "RUNNING"
    case STOPPED => "STOPPED"
    case PENDING => "PENDING"
    case FAILED => "FAILED"
    case TERMINATED => "TERMINATED"
  }

  /** The schema's enum validation: a stored string is accepted only if it is
      one of the five names. */
  function ParseStatus(s: string): (r: Option<Status>)
    ensures r.Some? ==> StatusName(r.value) == s
  {
    if s == "RUNNING" then Some(RUNNING)
    else if s == "STOPPED" then Some(STOPPED)
    else if s == "PENDING" then Some(PENDING)
    else if s == "FAILED" then Some(FAILED)
    else if s == "TERMINATED" then Some(TERMINATED)
    else None
  }

  lemma ParseStatusName(s: Status)
    ensures ParseStatus(StatusName(s)) == Some(s)
  {
  }

  /** A live instance is one still being set up or serving. */
  predicate IsLive(s: Status) {
    s == PENDING || s == RUNNING
  }

  type InstanceId = nat

  /** One `containers` entry: a name and an optional numeric port. */
  datatype ContainerEntry = ContainerEntry(name: string, port: Option<int>)

  datatype Instance = Instance(
    id: InstanceId,
    userId: string,
    ctfId: string,
    expiresAt: int,
    url: Option<string>,
    status: Status,
    containers: seq<ContainerEntry>)

  /** Default lease of a record created without `expiresAt`: two hours, in ms. */
  const DefaultLifetimeMs: int := 2 * 60 * 60 * 1000

  datatype ValidationError = StatusNotInEnum(given: string)

  /** Document creation with the schema's defaults: a missing status becomes
      PENDING, a missing expiry becomes creation time plus two hours, and a
      status outside the enumeration is refused. */
  function NewInstance(id: InstanceId, userId: string, ctfId: string, status: Option<string>,
                       expiresAt: Option<int>, now: int): (r: Result<Instance, ValidationError>)
    ensures status.None? ==> r.Success? && r.value.status == PENDING
    ensures status.Some? ==> (r.Success? <==> ParseStatus(status.value).Some?)
    ensures r.Success? && status.Some? ==> StatusName(r.value.status) == status.value
    ensures r.Success? ==> r.value.expiresAt == (if expiresAt.Some? then expiresAt.value else now + DefaultLifetimeMs)
    ensures r.Success? ==> r.value.id == id && r.value.userId == userId && r.value.ctfId == ctfId
    ensures r.Success? ==> r.value.containers == [] && r.value.url.None?
  {
    var parsed := if status.None? then Some(PENDING) else ParseStatus(status.value);
    if parsed.None? then Failure(StatusNotInEnum(status.value))
    else
      Success(Instance(id, userId, ctfId,
                       if expiresAt.Some? then expiresAt.value else now + DefaultLifetimeMs,
                       None, parsed.value, []))
  }

  /** The reaper's selection (`expiresAt < now` and live). */
  predicate ExpiredLive(inst: Instance, now: int) {
    inst.expiresAt < now && IsLive(inst.status)
  }

  /** A record created with neither status nor expiry is live, and becomes
      reapable as soon as more than two hours have passed since its creation,
      so an abandoned PENDING record does not stay live for ever. */
  lemma AbandonedPendingBecomesReapable(id: InstanceId, userId: string, ctfId: string, createdAt: int, later: int)
    requires later > createdAt + DefaultLifetimeMs
    ensures NewInstance(id, userId, ctfId, None, None, createdAt).Success?
    ensures IsLive(NewInstance(id, userId, ctfId, None, None, createdAt).value.status)
    ensures ExpiredLive(NewInstance(id, userId, ctfId, None, None, createdAt).value, later)
    ensures !ExpiredLive(NewInstance(id, userId, ctfId, None, None, createdAt).value, createdAt + DefaultLifetimeMs)
  {
  }
}
