/** The challenge-instance controller: admission rules for a create request,
    the preparation of the record from the launched containers, the create
    workflow with its port reservation and rollback, the idempotent stop, the
    expiry reaper and flag submission. The instance collection is a map from
    record id to record; the container runtime is a `DockerHost`. */
module CtfController {
  import opened Wrappers
  import opened Text
  import opened AppErrors
  import opened InstanceModel
  import opened DockerUtils

  // ---------------------------------------------------------------------------
  // Replies
  // ---------------------------------------------------------------------------

  /** A JSON body sent with status 200. */
  datatype Body =
    | InstanceView(id: InstanceId, userId: string, ctfId: string, expiresAt: int, status: Status, url: Option<string>)
    | Message(message: string)

  /** How a request handler ends: a 200 reply, an error passed to `next`, or
      an exception that escapes the handler. */
  datatype Reply = Ok(body: Body) | Next(error: AppError) | Throws

  function View(inst: Instance): (b: Body)
    ensures b.InstanceView? && b.id == inst.id && b.status == inst.status && b.url == inst.url
  {
    InstanceView(inst.id, inst.userId, inst.ctfId, inst.expiresAt, inst.status, inst.url)
  }

  const AlreadySolved: string := "ctf already solved"
  const CtfNotFound: string := "Ctf not found"
  const NoSite: string := "Ctf with no site"
  const OtherChallengeActive: string :=
    "You already have an active instance of another challenge. Please stop it before starting a new one."
  const NoPorts: string := "No available ports for CTF instance"
  const NoContainersConfig: string := "No containers config"
  const UrlNotFound: string := "Url not found"
  const UpdateFailed: string := "Error while updating ctf"
  const UnsupportedCount: string := "CTF configuration must contain exactly 2 containers (frontend + backend)"
  const InstanceNotFound: string := "CTF instance not found"
  const AlreadyStopped: string := "CTF instance already stopped"
  const StoppedSuccessfully: string := "CTF instance stopped successfully"
  const FlagRequired: string := "flag required"
  const WrongFlag: string := "Wrong flag"
  const DocNotUpdated: string := "Doc not updated"
  const SolvedBefore: string := "Congratulations! You already solved this CTF"
  /** The success message, with its two spaces. */
  const SolvedNow: string := "Congratulations! You  solved this CTF"

  // ---------------------------------------------------------------------------
  // The `in` tests on launcher and preparation results
  // ---------------------------------------------------------------------------

  /** The own keys of an error literal `{ name, message, statusNumber }`. */
  function ErrorObjectKeys(): set<string> {
    {"name", "message", "statusNumber"}
  }

  /** The own keys of an array of length `n`: its indices and `length`. */
  function ArrayKeys(n: nat): set<string> {
    {"length"} + set i | 0 <= i < n :: NatToString(i)
  }

  /** The keys of what the launcher resolves to: an array on success, an
      error literal on failure. */
  function LaunchResultKeys(r: Result<seq<ContainerInstance>, AppError>): set<string> {
    if r.Success? then ArrayKeys(|r.value|) else ErrorObjectKeys()
  }

  /** The controller's test for a failed launch: `'status' in x && 'message' in x`. */
  predicate LaunchFailureDetected(keys: set<string>) {
    "status" in keys && "message" in keys
  }

  /** The launcher's errors carry `statusNumber`, not `status`, and no array
      index is spelt "status": the controller's failure test never fires, so
      a failed launch is handed to the record preparation as if it had
      succeeded. */
  lemma LaunchErrorNeverDetected(r: Result<seq<ContainerInstance>, AppError>)
    ensures !LaunchFailureDetected(LaunchResultKeys(r))
    ensures r.Failure? ==> "message" in LaunchResultKeys(r)
  {
    if r.Success? {
      forall i | 0 <= i < |r.value|
        ensures NatToString(i) != "status"
      {
        var s := NatToString(i);
        assert '0' <= s[0] <= '9';
      }
    }
  }

  // ---------------------------------------------------------------------------
  // Preparation of the record from the launched containers
  // ---------------------------------------------------------------------------

  /** `c.url` is truthy: present and not the empty string. */
  predicate HasUrl(c: ContainerInstance) {
    c.url.Some? && c.url.value != ""
  }

  /** `workingContainers.find((c) => c.url)?.url`. */
  function FirstUrl(working: seq<ContainerInstance>): Option<string> {
    if working == [] then None
    else if HasUrl(working[0]) then working[0].url
    else FirstUrl(working[1..])
  }

  lemma {:induction false} FirstUrlSpec(working: seq<ContainerInstance>)
    ensures FirstUrl(working).Some? <==> exists i :: 0 <= i < |working| && HasUrl(working[i])
    ensures FirstUrl(working).Some? ==>
              exists k :: 0 <= k < |working| && HasUrl(working[k]) && FirstUrl(working) == working[k].url &&
                          forall j :: 0 <= j < k ==> !HasUrl(working[j])
  {
    if working != [] && !HasUrl(working[0]) {
      FirstUrlSpec(working[1..]);
      if FirstUrl(working).Some? {
        var k :| 0 <= k < |working[1..]| && HasUrl(working[1..][k]) && FirstUrl(working[1..]) == working[1..][k].url &&
                 forall j :: 0 <= j < k ==> !HasUrl(working[1..][j]);
        assert working[k + 1] == working[1..][k];
        forall j | 0 <= j < k + 1
          ensures !HasUrl(working[j])
        {
          if j > 0 {
            assert working[j] == working[1..][j - 1];
          }
        }
      }
      if exists i :: 0 <= i < |working| && HasUrl(working[i]) {
        var i :| 0 <= i < |working| && HasUrl(working[i]);
        assert i > 0 && working[1..][i - 1] == working[i];
      }
    }
  }

  /** `workingContainers.map((c) => ({ name: c.name, port: c.port }))`. */
  function Entries(working: seq<ContainerInstance>): (es: seq<ContainerEntry>)
    ensures |es| == |working|
    ensures forall i :: 0 <= i < |working| ==> es[i] == ContainerEntry(working[i].name, working[i].port)
  {
    if working == [] then [] else [ContainerEntry(working[0].name, working[0].port)] + Entries(working[1..])
  }

  /** The record `ctfInstancePreparation` builds. */
  datatype Prepared = Prepared(
    userId: string, ctfId: string, expiresAt: int, status: Status, url: string, containers: seq<ContainerEntry>)

  /** `ctfInstancePreparation`: the url of the first container that has one,
      status RUNNING and the `{name, port}` entries in launcher order; an
      AppError when no container has a url. */
  function CtfInstancePreparation(working: seq<ContainerInstance>, userId: string, ctfId: string,
                                  expiresAt: int): (r: Result<Prepared, AppError>)
    ensures r.Failure? <==> forall i :: 0 <= i < |working| ==> !HasUrl(working[i])
    ensures r.Failure? ==> r.error == Err(VALIDATION_ERROR, UrlNotFound, INTERNAL_SERVER_ERROR)
    ensures r.Success? ==> && r.value.status == RUNNING && r.value.url != "" && r.value.expiresAt == expiresAt
                           && Some(r.value.url) == FirstUrl(working)
                           && r.value.containers == Entries(working)
                           && r.value.userId == userId && r.value.ctfId == ctfId
  {
    FirstUrlSpec(working);
    var extractedUrl := FirstUrl(working);
    if extractedUrl.None? then Failure(Err(VALIDATION_ERROR, UrlNotFound, INTERNAL_SERVER_ERROR))
    else
      var k :| 0 <= k < |working| && HasUrl(working[k]) && extractedUrl == working[k].url;
      Success(Prepared(userId, ctfId, expiresAt, RUNNING, extractedUrl.value, Entries(working)))
  }

  /** The own keys of what `ctfInstancePreparation` returns. */
  function PreparedKeys(p: Result<Prepared, AppError>): set<string> {
    if p.Success? then {"userId", "ctfId", "expiresAt", "status", "url", "containers"} else ErrorObjectKeys()
  }

  /** `isAppError`: `'message' in obj && !('containers' in obj)`; on what the
      preparation returns it tells the two outcomes apart exactly. */
  function IsAppError(keys: set<string>): (b: bool) {
    "message" in keys && "containers" !in keys
  }

  lemma IsAppErrorExact(p: Result<Prepared, AppError>)
    ensures IsAppError(PreparedKeys(p)) <==> p.Failure?
  {
  }

  /** After a successful launch the url comes from the frontend, which is the
      first entry; the backend never has one. So the preparation fails exactly
      when the frontend configuration is not exposed. */
  lemma LaunchedUrlIsFrontendUrl(cs: seq<ConfigValue>, userId: string, validPort: int, ctfId: string,
                                 ctfInstanceId: string, expiredAt: int, outcomes: LaunchOutcomes, env: ServerEnv)
    requires LaunchSucceeds(cs, outcomes) && validPort != 0
    ensures var e := Launch(cs, userId, validPort, ctfId, ctfInstanceId, expiredAt, outcomes, env);
            && (FirstUrl(e.result.value).Some? <==> cs[1].exposed)
            && (FirstUrl(e.result.value).Some? ==> FirstUrl(e.result.value) == ContainerUrl(e.configs[1], env))
  {
    var e := Launch(cs, userId, validPort, ctfId, ctfInstanceId, expiredAt, outcomes, env);
    LaunchSuccessShape(cs, userId, validPort, ctfId, ctfInstanceId, expiredAt, outcomes, env);
    FrontendWiredSpec(cs[1], ctfInstanceId, e.configs[0].name, cs[0].internalPort, validPort,
                      InstanceLabels(expiredAt, ctfId, userId));
    ContainerUrlSpec(e.configs[1], env);
    ContainerUrlSpec(e.configs[0], env);
    var w := e.result.value;
    assert w[0].url == ContainerUrl(e.configs[1], env);
    assert FirstUrl(w[1..]) == None by {
      assert !HasUrl(w[1..][0]) && w[1..][1..] == [];
    }
  }

  // ---------------------------------------------------------------------------
  // The instance collection
  // ---------------------------------------------------------------------------

  /** The persisted state the controller works on: the instance collection,
      the id the next created record gets, and the in-memory set of ports
      reserved by creations in progress. */
  datatype Store = Store(instances: map<InstanceId, Instance>, nextId: nat, reservations: set<int>)

  /** The business rule "one active instance per user": no user has two live records. */
  predicate AtMostOneLivePerUser(m: map<InstanceId, Instance>) {
    forall a, b :: a in m && b in m && IsLive(m[a].status) && IsLive(m[b].status) && m[a].userId == m[b].userId ==> a == b
  }

  predicate StoreValid(s: Store) {
    && (forall id :: id in s.instances ==> s.instances[id].id == id && id < s.nextId)
    && AtMostOneLivePerUser(s.instances)
  }

  /** The user's live record, as `findOne({ userId, status: {$in: [PENDING, RUNNING]} })` finds it. */
  ghost function LiveOf(m: map<InstanceId, Instance>, userId: string): (r: Option<Instance>)
    ensures r.Some? ==> r.value in m.Values && r.value.userId == userId && IsLive(r.value.status)
    ensures r.None? <==> forall id :: id in m ==> !(m[id].userId == userId && IsLive(m[id].status))
  {
    if exists id :: id in m && m[id].userId == userId && IsLive(m[id].status) then
      var id :| id in m && m[id].userId == userId && IsLive(m[id].status);
      Some(m[id])
    else None
  }

  /** The ports of a record's containers that are defined. */
  function PortsOf(inst: Instance): set<int> {
    set e | e in inst.containers && e.port.Some? :: e.port.value
  }

  /** The ports held by live records, leaving out the record being set up. */
  function PortsInUse(m: map<InstanceId, Instance>, exclude: Option<InstanceId>): set<int> {
    set id, p | id in m && IsLive(m[id].status) && exclude != Some(id) && p in PortsOf(m[id]) :: p
  }

  /** The names of a record's containers, in order. */
  function Names(es: seq<ContainerEntry>): (ns: seq<string>)
    ensures |ns| == |es|
    ensures forall i :: 0 <= i < |es| ==> ns[i] == es[i].name
  {
    if es == [] then [] else [es[0].name] + Names(es[1..])
  }

  // ---------------------------------------------------------------------------
  // Admission of a create request
  // ---------------------------------------------------------------------------

  /** What the catalog lookup yields for a challenge: its `withSite` flag, the
      number of container configurations (a missing list counts as empty) and
      the values of the first two. */
  datatype CtfEntry = CtfEntry(withSite: bool, configCount: nat, configs: seq<ConfigValue>)

  datatype Admission = Reject(error: AppError) | ReturnRunning(inst: Instance) | Proceed(resume: Option<Instance>)

  /** The checks made before anything is written: an already solved
      challenge, an unknown one, one without a site, and the user's live
      record (returned if it runs this challenge, resumed if it is still
      PENDING, a conflict if it belongs to another challenge). */
  function Admit(solved: seq<string>, ctfId: string, entry: Option<CtfEntry>, live: Option<Instance>): (a: Admission)
    ensures ctfId in solved ==> a == Reject(Err(CONFLICT_ERROR, AlreadySolved, CONFLICT))
    ensures ctfId !in solved && entry.None? ==> a == Reject(Err(NOT_FOUND_ERROR, CtfNotFound, NOT_FOUND))
    ensures ctfId !in solved && entry.Some? && !entry.value.withSite ==>
              a == Reject(Err(VALIDATION_ERROR, NoSite, BAD_REQUEST))
    ensures a.Proceed? <==> && ctfId !in solved && entry.Some? && entry.value.withSite
                            && (live.None? || (live.value.ctfId == ctfId && live.value.status != RUNNING))
    ensures a.Proceed? ==> a.resume == live
    ensures a.ReturnRunning? <==> && ctfId !in solved && entry.Some? && entry.value.withSite
                                  && live.Some? && live.value.ctfId == ctfId && live.value.status == RUNNING
    ensures a.ReturnRunning? ==> a.inst == live.value
    ensures ctfId !in solved && entry.Some? && entry.value.withSite && live.Some? && live.value.ctfId != ctfId ==>
              a == Reject(Err(CONFLICT_ERROR, OtherChallengeActive, CONFLICT))
  {
    if ctfId in solved then Reject(Err(CONFLICT_ERROR, AlreadySolved, CONFLICT))
    else if entry.None? then Reject(Err(NOT_FOUND_ERROR, CtfNotFound, NOT_FOUND))
    else if !entry.value.withSite then Reject(Err(VALIDATION_ERROR, NoSite, BAD_REQUEST))
    else if live.Some? then
      if live.value.ctfId == ctfId then
        if live.value.status == RUNNING then ReturnRunning(live.value) else Proceed(live)
      else Reject(Err(CONFLICT_ERROR, OtherChallengeActive, CONFLICT))
    else Proceed(None)
  }

  // ---------------------------------------------------------------------------
  // The create workflow as a function of the store
  // ---------------------------------------------------------------------------

  /** Lifetime given to the containers and the RUNNING record: one hour, in ms. */
  const LaunchLifetimeMs: int := 60 * 60 * 1000

  /** The record `CtfInstance.create({ userId, ctfId, status: PENDING })` stores. */
  function NewPending(id: InstanceId, userId: string, ctfId: string, now: int): (r: Instance)
    ensures NewInstance(id, userId, ctfId, Some(StatusName(PENDING)), None, now) == Success(r)
    ensures r.status == PENDING && r.id == id && r.userId == userId && r.ctfId == ctfId && r.containers == []
  {
    ParseStatusName(PENDING);
    Instance(id, userId, ctfId, now + DefaultLifetimeMs, None, PENDING, [])
  }

  /** The result of a create request: the reply, the new store, the launch
      when one was attempted, and the names stopped after it. */
  datatype CreateOutcome = CreateOutcome(reply: Reply, store: Store, launch: Option<LaunchEffect>, cleanup: seq<string>)

  /** What `findOneAndUpdate` answers: the updated document, `null` when no
      document matched, or a rejected promise, which ends the request. */
  datatype UpdateAnswer = Updated | NoMatch | Rejected

  /** The steps after a successful or failed launch `e` of `rec`'s containers. */
  function AfterLaunch(s: Store, userId: string, ctfId: string, rec: Instance, port: int, expiration: int,
                       e: LaunchEffect, update: UpdateAnswer): CreateOutcome
  {
    var released := s.reservations - {port};
    if e.result.Failure? then CreateOutcome(Throws, s, Some(e), [])
    else
      var prepared := CtfInstancePreparation(e.result.value, userId, ctfId, expiration);
      if prepared.Failure? then
        CreateOutcome(Next(AppError(None, prepared.error.message, Some(INTERNAL_SERVER_ERROR))),
                      Store(s.instances - {rec.id}, s.nextId, released), Some(e), [])
      else
        var names := Names(prepared.value.containers);
        if update == Rejected then CreateOutcome(Throws, s, Some(e), [])
        else if update == NoMatch then
          CreateOutcome(Next(Err(DATABASE_ERROR, UpdateFailed, INTERNAL_SERVER_ERROR)),
                        Store(s.instances - {rec.id}, s.nextId, released), Some(e), names)
        else
          var up := rec.(url := Some(prepared.value.url), status := RUNNING, expiresAt := expiration,
                         containers := prepared.value.containers);
          CreateOutcome(Ok(View(up)), Store(s.instances[rec.id := up], s.nextId, released), Some(e), [])
  }

  /** The steps after a port is reserved for `rec`. */
  function Deploy(s: Store, userId: string, ctfId: string, entry: CtfEntry, rec: Instance, port: int, now: int,
                  outcomes: LaunchOutcomes, env: ServerEnv, update: UpdateAnswer): CreateOutcome
  {
    if entry.configCount == 0 then
      CreateOutcome(Next(Err(DATABASE_ERROR, NoContainersConfig, INTERNAL_SERVER_ERROR)),
                    Store(s.instances - {rec.id}, s.nextId, s.reservations - {port}), None, [])
    else if entry.configCount == 2 then
      var expiration := now + LaunchLifetimeMs;
      var e := Launch(entry.configs, userId, port, ctfId, NatToString(rec.id), expiration, outcomes, env);
      AfterLaunch(s, userId, ctfId, rec, port, expiration, e, update)
    else
      CreateOutcome(Next(Err(DOCKER_ERROR, UnsupportedCount, INTERNAL_SERVER_ERROR)), s, None, [])
  }

  /** The record an admitted request sets up: the resumed one, or a new PENDING one. */
  function SetUpRecord(s: Store, userId: string, ctfId: string, resume: Option<Instance>, now: int): Instance {
    if resume.Some? then resume.value else NewPending(s.nextId, userId, ctfId, now)
  }

  /** The record and the port of an admitted request, and the store once the
      port is reserved (or, with no free port, once the record is deleted). */
  datatype Reservation = Reservation(rec: Instance, port: Option<int>, store: Store)

  function Reserve(s: Store, userId: string, ctfId: string, resume: Option<Instance>, now: int,
                   rolls: seq<real>): Reservation
  {
    var rec := SetUpRecord(s, userId, ctfId, resume, now);
    var nextId := if resume.Some? then s.nextId else s.nextId + 1;
    var used := PortsInUse(s.instances, if resume.Some? then Some(rec.id) else None);
    var port := FirstFreeDraw(used, s.reservations, rolls, 0);
    if port.None? then
      Reservation(rec, None, Store(s.instances - {rec.id}, nextId, s.reservations))
    else
      var m := if resume.Some? then s.instances else s.instances[rec.id := rec];
      Reservation(rec, port, Store(m, nextId, s.reservations + {port.value}))
  }

  /** The steps of an admitted request: the record (resumed, or a new PENDING
      one), the port, then `Deploy`. */
  function SetUp(s: Store, userId: string, ctfId: string, entry: CtfEntry, resume: Option<Instance>, now: int,
                 rolls: seq<real>, outcomes: LaunchOutcomes, env: ServerEnv, update: UpdateAnswer): CreateOutcome
  {
    var r := Reserve(s, userId, ctfId, resume, now, rolls);
    if r.port.None? then CreateOutcome(NoPortsReply(), r.store, None, [])
    else Deploy(r.store, userId, ctfId, entry, r.rec, r.port.value, now, outcomes, env, update)
  }

  /** `createCtfInstance` as a function of the store. */
  ghost function CreateCtf(s: Store, userId: string, solved: seq<string>, ctfId: string, entry: Option<CtfEntry>,
                           now: int, rolls: seq<real>, outcomes: LaunchOutcomes, env: ServerEnv,
                           update: UpdateAnswer): CreateOutcome
  {
    match Admit(solved, ctfId, entry, LiveOf(s.instances, userId))
    case Reject(err) => CreateOutcome(Next(err), s, None, [])
    case ReturnRunning(inst) => CreateOutcome(Ok(View(inst)), s, None, [])
    case Proceed(resume) => SetUp(s, userId, ctfId, entry.value, resume, now, rolls, outcomes, env, update)
  }

  // ---------------------------------------------------------------------------
  // Properties of the create workflow
  // ---------------------------------------------------------------------------

  lemma LiveOfIsStored(s: Store, userId: string)
    requires StoreValid(s)
    ensures var l := LiveOf(s.instances, userId);
            l.Some? ==> l.value.id in s.instances && s.instances[l.value.id] == l.value
  {
    var l := LiveOf(s.instances, userId);
    if l.Some? {
      var id :| id in s.instances && s.instances[id] == l.value;
    }
  }

  /** Marking the user's one live record RUNNING, or deleting it, keeps the
      store valid. */
  lemma {:induction false} AfterLaunchKeepsValid(s: Store, userId: string, ctfId: string, rec: Instance, port: int,
                                                 expiration: int, e: LaunchEffect, update: UpdateAnswer)
    requires StoreValid(s) && rec.id in s.instances && s.instances[rec.id] == rec && IsLive(rec.status)
    ensures StoreValid(AfterLaunch(s, userId, ctfId, rec, port, expiration, e, update).store)
  {
    var o := AfterLaunch(s, userId, ctfId, rec, port, expiration, e, update);
    if o.reply.Ok? {
      var m := o.store.instances;
      forall a, b | a in m && b in m && IsLive(m[a].status) && IsLive(m[b].status) && m[a].userId == m[b].userId
        ensures a == b
      {
        assert IsLive(s.instances[a].status) && IsLive(s.instances[b].status);
        assert s.instances[a].userId == m[a].userId && s.instances[b].userId == m[b].userId;
      }
    }
  }

  lemma DeployKeepsValid(s: Store, userId: string, ctfId: string, entry: CtfEntry, rec: Instance, port: int,
                         now: int, outcomes: LaunchOutcomes, env: ServerEnv, update: UpdateAnswer)
    requires StoreValid(s) && rec.id in s.instances && s.instances[rec.id] == rec && IsLive(rec.status)
    ensures StoreValid(Deploy(s, userId, ctfId, entry, rec, port, now, outcomes, env, update).store)
  {
    if entry.configCount == 2 {
      var expiration := now + LaunchLifetimeMs;
      var e := Launch(entry.configs, userId, port, ctfId, NatToString(rec.id), expiration, outcomes, env);
      AfterLaunchKeepsValid(s, userId, ctfId, rec, port, expiration, e, update);
    }
  }

  /** The reservation keeps the store valid and, when a port is found, the
      record is stored and live. */
  lemma ReserveKeepsValid(s: Store, userId: string, ctfId: string, resume: Option<Instance>, now: int,
                          rolls: seq<real>)
    requires StoreValid(s)
    requires resume.Some? ==> && resume.value.id in s.instances && s.instances[resume.value.id] == resume.value
                              && IsLive(resume.value.status)
    requires resume.None? ==> LiveOf(s.instances, userId).None?
    ensures var r := Reserve(s, userId, ctfId, resume, now, rolls);
            && StoreValid(r.store)
            && (r.port.Some? ==> r.rec.id in r.store.instances && r.store.instances[r.rec.id] == r.rec && IsLive(r.rec.status))
  {
  }

  /** A create request keeps record ids consistent and never gives a user a
      second live record. */
  lemma CreatePreservesValid(s: Store, userId: string, solved: seq<string>, ctfId: string, entry: Option<CtfEntry>,
                             now: int, rolls: seq<real>, outcomes: LaunchOutcomes, env: ServerEnv,
                             update: UpdateAnswer)
    requires StoreValid(s)
    ensures StoreValid(CreateCtf(s, userId, solved, ctfId, entry, now, rolls, outcomes, env, update).store)
  {
    var live := LiveOf(s.instances, userId);
    LiveOfIsStored(s, userId);
    var a := Admit(solved, ctfId, entry, live);
    if a.Proceed? {
      ReserveKeepsValid(s, userId, ctfId, a.resume, now, rolls);
      var r := Reserve(s, userId, ctfId, a.resume, now, rolls);
      if r.port.Some? {
        DeployKeepsValid(r.store, userId, ctfId, entry.value, r.rec, r.port.value, now, outcomes, env, update);
      }
    }
  }


  /** The reply for a catalog entry whose container count is neither 0 nor 2. */
  function UnsupportedReply(): Reply {
    Next(Err(DOCKER_ERROR, UnsupportedCount, INTERNAL_SERVER_ERROR))
  }

  /** The reply when the launched containers report no url: the error name is
      read from the array of containers, where it is undefined. */
  function UrlMissingReply(): Reply {
    Next(AppError(None, Some(UrlNotFound), Some(INTERNAL_SERVER_ERROR)))
  }

  /** The reply when no free port was drawn. */
  function NoPortsReply(): Reply {
    Next(Err(RATE_LIMIT_ERROR, NoPorts, INTERNAL_SERVER_ERROR))
  }

  /** Whatever the launch did: a failure releases the port and deletes the
      record, except an escaping exception (a failed launch, or a rejected
      update after a good one), which keeps both; a success
      marks the record RUNNING with the first url and the containers in
      launcher order. */
  lemma AfterLaunchOutcome(s: Store, userId: string, ctfId: string, rec: Instance, port: int, expiration: int,
                           e: LaunchEffect, update: UpdateAnswer)
    ensures var o := AfterLaunch(s, userId, ctfId, rec, port, expiration, e, update);
            && o.store.nextId == s.nextId && o.launch == Some(e) && o.reply != NoPortsReply()
            && o.reply != UnsupportedReply()
            && (o.reply.Throws? <==> e.result.Failure? || (update == Rejected && FirstUrl(e.result.value).Some?))
            && (o.reply.Throws? ==> o.store == s && o.cleanup == [])
            && (o.reply.Next? ==>
                  o.store.instances == s.instances - {rec.id} && o.store.reservations == s.reservations - {port})
            && (o.reply.Ok? ==>
                  && e.result.Success? && FirstUrl(e.result.value).Some? && update == Updated
                  && o.store.reservations == s.reservations - {port}
                  && var up := rec.(status := RUNNING, expiresAt := expiration, url := FirstUrl(e.result.value),
                                    containers := Entries(e.result.value));
                  && o.store.instances == s.instances[rec.id := up] && o.reply == Ok(View(up)))
  {
    if e.result.Success? {
      FirstUrlSpec(e.result.value);
    }
  }

  /** After the reservation, a failure: the port is released and the record
      deleted, except on an escaping exception or an unsupported count, which
      keep both as they were. */
  lemma DeployFailure(s: Store, userId: string, ctfId: string, entry: CtfEntry, rec: Instance, port: int,
                      now: int, outcomes: LaunchOutcomes, env: ServerEnv, update: UpdateAnswer)
    ensures var o := Deploy(s, userId, ctfId, entry, rec, port, now, outcomes, env, update);
            && o.store.nextId == s.nextId && o.reply != NoPortsReply()
            && (o.reply.Throws? || o.reply == UnsupportedReply() ==> o.store == s)
            && (o.reply.Next? && o.reply != UnsupportedReply() ==>
                  o.store.instances == s.instances - {rec.id} && o.store.reservations == s.reservations - {port})
  {
    if entry.configCount == 2 {
      var expiration := now + LaunchLifetimeMs;
      var e := Launch(entry.configs, userId, port, ctfId, NatToString(rec.id), expiration, outcomes, env);
      AfterLaunchOutcome(s, userId, ctfId, rec, port, expiration, e, update);
    }
  }

  /** After the reservation, a success: the port is released and the record
      marked RUNNING with the frontend's url, the one-hour expiry and the two
      containers, the frontend holding the reserved port. */
  lemma DeploySuccess(s: Store, userId: string, ctfId: string, entry: CtfEntry, rec: Instance, port: int,
                      now: int, outcomes: LaunchOutcomes, env: ServerEnv, update: UpdateAnswer)
    requires port != 0
    ensures var o := Deploy(s, userId, ctfId, entry, rec, port, now, outcomes, env, update);
            o.reply.Ok? ==>
              && entry.configCount == 2 && LaunchSucceeds(entry.configs, outcomes) && entry.configs[1].exposed
              && o.store.nextId == s.nextId && o.store.reservations == s.reservations - {port}
              && o.launch.Some? && |o.launch.value.configs| >= 2
              && var up := rec.(status := RUNNING, expiresAt := now + LaunchLifetimeMs,
                                url := ContainerUrl(o.launch.value.configs[1], env),
                                containers := [ContainerEntry(o.launch.value.configs[1].name, Some(port)),
                                               ContainerEntry(o.launch.value.configs[0].name, entry.configs[0].exposedPort)]);
              && o.store.instances == s.instances[rec.id := up]
              && o.reply == Ok(View(up))
  {
    if entry.configCount == 2 {
      var expiration := now + LaunchLifetimeMs;
      var cs := entry.configs;
      var e := Launch(cs, userId, port, ctfId, NatToString(rec.id), expiration, outcomes, env);
      AfterLaunchOutcome(s, userId, ctfId, rec, port, expiration, e, update);
      LaunchSuccessIff(cs, userId, port, ctfId, NatToString(rec.id), expiration, outcomes, env);
      if e.result.Success? {
        LaunchSuccessShape(cs, userId, port, ctfId, NatToString(rec.id), expiration, outcomes, env);
        LaunchCreatesBackendFirst(cs, userId, port, ctfId, NatToString(rec.id), expiration, outcomes, env);
        LaunchedUrlIsFrontendUrl(cs, userId, port, ctfId, NatToString(rec.id), expiration, outcomes, env);
        var labels := InstanceLabels(expiration, ctfId, userId);
        BackendWiredSpec(cs[0], NatToString(rec.id), labels);
        FrontendWiredSpec(cs[1], NatToString(rec.id), e.configs[0].name, cs[0].internalPort, port, labels);
        assert Entries(e.result.value) == [ContainerEntry(e.configs[1].name, Some(port)),
                                           ContainerEntry(e.configs[0].name, cs[0].exposedPort)];
      }
    }
  }

  /** The request ended by an exception after the launch had succeeded:
      the update of the record was rejected. */
  predicate DiedAfterLaunch(o: CreateOutcome) {
    o.reply.Throws? && o.launch.Some? && o.launch.value.result.Success?
  }

  /** Whatever the launch did: when the launcher itself stopped what it
      started on failure, and on success reported every container it
      started, a failed request leaves none of them running, except when
      the containers report no url or the update is rejected. */
  lemma AfterLaunchStopsContainers(rt: Runtime, faults: map<string, int>, s: Store, userId: string, ctfId: string,
                                   rec: Instance, port: int, expiration: int, e: LaunchEffect, update: UpdateAnswer)
    requires e.result.Failure? ==> forall n :: n in e.started ==> n in e.stopped
    requires e.result.Success? ==> e.stopped == []
    requires e.result.Success? ==>
               forall n :: n in e.started ==> exists k :: 0 <= k < |e.result.value| && e.result.value[k].name == n
    ensures var o := AfterLaunch(s, userId, ctfId, rec, port, expiration, e, update);
            !o.reply.Ok? && o.reply != UrlMissingReply() && !DiedAfterLaunch(o) ==>
              AfterCreate(rt, faults, o).running <= rt.running + faults.Keys
  {
    var o := AfterLaunch(s, userId, ctfId, rec, port, expiration, e, update);
    if e.result.Success? && o.cleanup != [] {
      var w := e.result.value;
      assert o.cleanup == Names(Entries(w));
      forall n | n in e.started
        ensures n in o.cleanup
      {
        var k :| 0 <= k < |w| && w[k].name == n;
        assert o.cleanup[k] == n;
      }
    }
  }

  /** After the reservation, a failure stops every container the request
      started (a refused stop aside), except when the launched containers
      report no url or the update is rejected. */
  lemma DeployFailureStopsContainers(rt: Runtime, faults: map<string, int>, s: Store, userId: string,
                                     ctfId: string, entry: CtfEntry, rec: Instance, port: int, now: int,
                                     outcomes: LaunchOutcomes, env: ServerEnv, update: UpdateAnswer)
    ensures var o := Deploy(s, userId, ctfId, entry, rec, port, now, outcomes, env, update);
            !o.reply.Ok? && o.reply != UrlMissingReply() && !DiedAfterLaunch(o) ==>
              AfterCreate(rt, faults, o).running <= rt.running + faults.Keys
  {
    if entry.configCount == 2 {
      var expiration := now + LaunchLifetimeMs;
      var cs := entry.configs;
      var e := Launch(cs, userId, port, ctfId, NatToString(rec.id), expiration, outcomes, env);
      LaunchFailureStopsWhatItCreated(cs, userId, port, ctfId, NatToString(rec.id), expiration, outcomes, env);
      LaunchSuccessIff(cs, userId, port, ctfId, NatToString(rec.id), expiration, outcomes, env);
      if e.result.Success? {
        LaunchSuccessShape(cs, userId, port, ctfId, NatToString(rec.id), expiration, outcomes, env);
        assert e.result.value[0].name == e.configs[1].name && e.result.value[1].name == e.configs[0].name;
      }
      AfterLaunchStopsContainers(rt, faults, s, userId, ctfId, rec, port, expiration, e, update);
    }
  }

  /** When the launched containers report no url, both containers were
      created and started, nothing is stopped, and both stay up. */
  lemma DeployUrlMissingKeepsContainers(rt: Runtime, faults: map<string, int>, s: Store, userId: string,
                                        ctfId: string, entry: CtfEntry, rec: Instance, port: int, now: int,
                                        outcomes: LaunchOutcomes, env: ServerEnv, update: UpdateAnswer)
    ensures var o := Deploy(s, userId, ctfId, entry, rec, port, now, outcomes, env, update);
            o.reply == UrlMissingReply() ==>
              && o.launch.Some? && o.cleanup == [] && o.launch.value.stopped == []
              && |o.launch.value.created| == 2 && o.launch.value.started <= AfterCreate(rt, faults, o).running
              && forall k :: 0 <= k < 2 ==> o.launch.value.created[k].name in o.launch.value.started
  {
    var o := Deploy(s, userId, ctfId, entry, rec, port, now, outcomes, env, update);
    if entry.configCount == 2 {
      var expiration := now + LaunchLifetimeMs;
      var cs := entry.configs;
      var e := Launch(cs, userId, port, ctfId, NatToString(rec.id), expiration, outcomes, env);
      LaunchSuccessIff(cs, userId, port, ctfId, NatToString(rec.id), expiration, outcomes, env);
      if e.result.Success? {
        LaunchSuccessShape(cs, userId, port, ctfId, NatToString(rec.id), expiration, outcomes, env);
      }
    }
  }

  /** A rejected update after a good launch ends the request with the record
      still PENDING, the port still reserved and both containers running;
      it happens whenever the launch succeeds with a url and the update
      is rejected. */
  lemma DeployUpdateRejectedKeepsContainers(rt: Runtime, faults: map<string, int>, s: Store, userId: string,
                                            ctfId: string, entry: CtfEntry, rec: Instance, port: int, now: int,
                                            outcomes: LaunchOutcomes, env: ServerEnv, update: UpdateAnswer)
    ensures var o := Deploy(s, userId, ctfId, entry, rec, port, now, outcomes, env, update);
            DiedAfterLaunch(o) ==>
              && update == Rejected && o.store == s && o.cleanup == [] && o.launch.value.stopped == []
              && |o.launch.value.created| == 2 && o.launch.value.started <= AfterCreate(rt, faults, o).running
              && forall k :: 0 <= k < 2 ==> o.launch.value.created[k].name in o.launch.value.started
    ensures && entry.configCount == 2 && LaunchSucceeds(entry.configs, outcomes) && entry.configs[1].exposed
            && port != 0 && update == Rejected ==>
              DiedAfterLaunch(Deploy(s, userId, ctfId, entry, rec, port, now, outcomes, env, update))
  {
    if entry.configCount == 2 {
      var expiration := now + LaunchLifetimeMs;
      var cs := entry.configs;
      var e := Launch(cs, userId, port, ctfId, NatToString(rec.id), expiration, outcomes, env);
      LaunchSuccessIff(cs, userId, port, ctfId, NatToString(rec.id), expiration, outcomes, env);
      if e.result.Success? {
        LaunchSuccessShape(cs, userId, port, ctfId, NatToString(rec.id), expiration, outcomes, env);
        if cs[1].exposed && port != 0 {
          LaunchedUrlIsFrontendUrl(cs, userId, port, ctfId, NatToString(rec.id), expiration, outcomes, env);
        }
      }
    }
  }

  /** A request that is not admitted writes nothing and launches nothing; the
      only 200 reply among them returns the user's RUNNING record for this
      challenge. */
  lemma CreateUnadmitted(s: Store, userId: string, solved: seq<string>, ctfId: string, entry: Option<CtfEntry>,
                         now: int, rolls: seq<real>, outcomes: LaunchOutcomes, env: ServerEnv, update: UpdateAnswer)
    requires StoreValid(s)
    requires !Admit(solved, ctfId, entry, LiveOf(s.instances, userId)).Proceed?
    ensures var o := CreateCtf(s, userId, solved, ctfId, entry, now, rolls, outcomes, env, update);
            && o.store == s && o.launch.None? && o.cleanup == []
            && (o.reply.Ok? ==>
                  exists id :: && id in s.instances && o.reply == Ok(View(s.instances[id]))
                               && s.instances[id].userId == userId && s.instances[id].ctfId == ctfId
                               && s.instances[id].status == RUNNING)
  {
    LiveOfIsStored(s, userId);
  }

  /** What an admitted request works on: no record (a new one is created),
      or the user's PENDING record for this challenge. */
  predicate Resumable(s: Store, userId: string, ctfId: string, resume: Option<Instance>) {
    resume.Some? ==> && resume.value.id in s.instances && s.instances[resume.value.id] == resume.value
                     && resume.value.userId == userId && resume.value.ctfId == ctfId && resume.value.status == PENDING
  }

  /** An admitted request goes on to `SetUp` with the record it resumes, if any. */
  lemma CreateAdmitted(s: Store, userId: string, solved: seq<string>, ctfId: string, entry: Option<CtfEntry>,
                       now: int, rolls: seq<real>, outcomes: LaunchOutcomes, env: ServerEnv, update: UpdateAnswer)
    requires StoreValid(s)
    requires Admit(solved, ctfId, entry, LiveOf(s.instances, userId)).Proceed?
    ensures var resume := Admit(solved, ctfId, entry, LiveOf(s.instances, userId)).resume;
            && entry.Some? && Resumable(s, userId, ctfId, resume)
            && CreateCtf(s, userId, solved, ctfId, entry, now, rolls, outcomes, env, update) ==
               SetUp(s, userId, ctfId, entry.value, resume, now, rolls, outcomes, env, update)
  {
    LiveOfIsStored(s, userId);
  }


  /** The reservation: the record's id, the port drawn as the allocator
      draws it, and the store with the port reserved or the record deleted. */
  lemma ReserveSpec(s: Store, userId: string, ctfId: string, resume: Option<Instance>, now: int, rolls: seq<real>)
    requires ValidRolls(rolls)
    ensures var r := Reserve(s, userId, ctfId, resume, now, rolls);
            && r.rec == SetUpRecord(s, userId, ctfId, resume, now)
            && r.rec.id == (if resume.Some? then resume.value.id else s.nextId)
            && r.port == FirstFreeDraw(PortsInUse(s.instances, if resume.Some? then Some(r.rec.id) else None),
                                       s.reservations, rolls, 0)
            && (r.port.None? ==> r.store.instances == s.instances - {r.rec.id} && r.store.reservations == s.reservations)
            && (r.port.Some? ==>
                  && PortLow <= r.port.value < PortHighExclusive && r.port.value !in s.reservations
                  && r.port.value !in PortsInUse(s.instances, Some(r.rec.id))
                  && r.store.reservations == s.reservations + {r.port.value}
                  && r.store.instances == (if resume.Some? then s.instances else s.instances[r.rec.id := r.rec]))
  {
    var rec := SetUpRecord(s, userId, ctfId, resume, now);
    var used := PortsInUse(s.instances, if resume.Some? then Some(rec.id) else None);
    FirstFreeDrawSpec(used, s.reservations, rolls, 0);
    assert PortsInUse(s.instances, Some(rec.id)) <= used;
  }


  /** The port an admitted request reserves was neither reserved nor held by
      another live record, and it stays reserved only when the handler throws
      or rejects the container count. */
  lemma SetUpReservation(s: Store, userId: string, ctfId: string, entry: CtfEntry, resume: Option<Instance>,
                       now: int, rolls: seq<real>, outcomes: LaunchOutcomes, env: ServerEnv, update: UpdateAnswer)
    requires ValidRolls(rolls) && Resumable(s, userId, ctfId, resume)
    ensures var recId := if resume.Some? then resume.value.id else s.nextId;
            var o := SetUp(s, userId, ctfId, entry, resume, now, rolls, outcomes, env, update);
            && (o.reply.Throws? || o.reply == UnsupportedReply() || o.store.reservations == s.reservations)
            && (o.store.reservations != s.reservations ==>
                  exists p :: && PortLow <= p < PortHighExclusive && p !in s.reservations
                              && p !in PortsInUse(s.instances, Some(recId))
                              && o.store.reservations == s.reservations + {p})
  {
    ReserveSpec(s, userId, ctfId, resume, now, rolls);
    var r := Reserve(s, userId, ctfId, resume, now, rolls);
    var rec, port, s1 := r.rec, r.port, r.store;
    if port.Some? {
      DeployFailure(s1, userId, ctfId, entry, rec, port.value, now, outcomes, env, update);
      DeploySuccess(s1, userId, ctfId, entry, rec, port.value, now, outcomes, env, update);
      assert s1.reservations - {port.value} == s.reservations;
    }
  }

  /** A failed admitted request deletes its record, which restores the
      collection for a new record and removes a resumed one, except when the
      handler throws or rejects the container count: the record then stays
      PENDING. */
  lemma SetUpFailureRecord(s: Store, userId: string, ctfId: string, entry: CtfEntry, resume: Option<Instance>,
                       now: int, rolls: seq<real>, outcomes: LaunchOutcomes, env: ServerEnv, update: UpdateAnswer)
    requires (resume.None? ==> s.nextId !in s.instances) && ValidRolls(rolls) && Resumable(s, userId, ctfId, resume)
    ensures var recId := if resume.Some? then resume.value.id else s.nextId;
            var o := SetUp(s, userId, ctfId, entry, resume, now, rolls, outcomes, env, update);
            && (o.reply.Next? && o.reply != UnsupportedReply() ==>
                  o.store.instances == if resume.Some? then s.instances - {recId} else s.instances)
            && (o.reply.Throws? || o.reply == UnsupportedReply() ==>
                  && recId in o.store.instances && o.store.instances[recId].status == PENDING
                  && o.store.instances[recId].userId == userId && o.store.instances[recId].ctfId == ctfId
                  && o.store.instances == s.instances[recId := o.store.instances[recId]])
  {
    ReserveSpec(s, userId, ctfId, resume, now, rolls);
    var r := Reserve(s, userId, ctfId, resume, now, rolls);
    var rec, port, s1 := r.rec, r.port, r.store;
    assert resume.None? ==> s1.instances - {rec.id} == s.instances;
    if port.Some? {
      DeployFailure(s1, userId, ctfId, entry, rec, port.value, now, outcomes, env, update);
    }
  }


  /** A successful admitted request marks its record RUNNING for one hour
      with the frontend's url, the frontend holding the reserved port, which
      was free, and releases the reservation. */
  lemma SetUpSuccessRecord(s: Store, userId: string, ctfId: string, entry: CtfEntry, resume: Option<Instance>,
                       now: int, rolls: seq<real>, outcomes: LaunchOutcomes, env: ServerEnv, update: UpdateAnswer)
    requires ValidRolls(rolls) && Resumable(s, userId, ctfId, resume)
    ensures var recId := if resume.Some? then resume.value.id else s.nextId;
            var o := SetUp(s, userId, ctfId, entry, resume, now, rolls, outcomes, env, update);
            o.reply.Ok? ==>
              && o.store.reservations == s.reservations
              && recId in o.store.instances && o.launch.Some? && |o.launch.value.configs| >= 2
              && var up := o.store.instances[recId];
              && o.store.instances == s.instances[recId := up] && o.reply == Ok(View(up))
              && up.status == RUNNING && up.userId == userId && up.ctfId == ctfId
              && up.expiresAt == now + LaunchLifetimeMs
              && up.url == ContainerUrl(o.launch.value.configs[1], env)
              && |up.containers| == 2 && up.containers[0].name == o.launch.value.configs[1].name
              && up.containers[0].port.Some?
              && var port := up.containers[0].port.value;
              && PortLow <= port < PortHighExclusive && port !in s.reservations
              && port !in PortsInUse(s.instances, Some(recId))
  {
    ReserveSpec(s, userId, ctfId, resume, now, rolls);
    var r := Reserve(s, userId, ctfId, resume, now, rolls);
    var rec, port, s1 := r.rec, r.port, r.store;
    if port.Some? {
      DeploySuccess(s1, userId, ctfId, entry, rec, port.value, now, outcomes, env, update);
      assert s1.reservations - {port.value} == s.reservations;
      assert s1.instances == s.instances[rec.id := s1.instances[rec.id]];
    }
  }
  /** The request gives up for lack of a port exactly when every one of the
      hundred draws was reserved or held by another live record; it then
      deletes its record and launches nothing. */
  lemma SetUpNoPort(s: Store, userId: string, ctfId: string, entry: CtfEntry, resume: Option<Instance>,
                    now: int, rolls: seq<real>, outcomes: LaunchOutcomes, env: ServerEnv, update: UpdateAnswer)
    requires ValidRolls(rolls)
    ensures var rec := SetUpRecord(s, userId, ctfId, resume, now);
            var used := PortsInUse(s.instances, if resume.Some? then Some(rec.id) else None);
            var o := SetUp(s, userId, ctfId, entry, resume, now, rolls, outcomes, env, update);
            && (o.reply == NoPortsReply() <==> forall k :: 0 <= k < |rolls| ==> Draw(rolls[k]) in s.reservations + used)
            && (o.reply == NoPortsReply() ==>
                  o.launch.None? && o.store.reservations == s.reservations && rec.id !in o.store.instances)
  {
    var rec := SetUpRecord(s, userId, ctfId, resume, now);
    var used := PortsInUse(s.instances, if resume.Some? then Some(rec.id) else None);
    FirstFreeDrawSpec(used, s.reservations, rolls, 0);
    var port := FirstFreeDraw(used, s.reservations, rolls, 0);
    var nextId := if resume.Some? then s.nextId else s.nextId + 1;
    var m := if resume.Some? then s.instances else s.instances[rec.id := rec];
    if port.Some? {
      DeployFailure(Store(m, nextId, s.reservations + {port.value}), userId, ctfId, entry, rec, port.value, now,
                    outcomes, env, update);
    }
  }

  // ---------------------------------------------------------------------------
  // The runtime as the controller sees it
  // ---------------------------------------------------------------------------

  datatype Runtime = Runtime(running: set<string>, createRequests: seq<CreateRequest>, stopRequests: seq<string>,
                             daemonErrors: seq<(string, int)>)

  function RuntimeOf(d: DockerHost): Runtime
    reads d
  {
    Runtime(d.running, d.createRequests, d.stopRequests, d.daemonErrors)
  }

  /** The runtime after `stopContainers(ids)`. */
  function AfterStop(rt: Runtime, faults: map<string, int>, ids: seq<string>): Runtime {
    Runtime(rt.running - Stoppable(faults, ids), rt.createRequests, rt.stopRequests + ids,
            rt.daemonErrors + DaemonErrors(faults, ids))
  }

  /** The runtime after a create request: the launch, if any, then the stop of
      the cleanup names, if any. */
  function AfterCreate(rt: Runtime, faults: map<string, int>, o: CreateOutcome): Runtime {
    if o.launch.None? then rt
    else
      var e := o.launch.value;
      var launched := Runtime((rt.running + e.started) - Stoppable(faults, e.stopped), rt.createRequests + e.created,
                              rt.stopRequests + e.stopped, rt.daemonErrors + DaemonErrors(faults, e.stopped));
      if o.cleanup == [] then launched else AfterStop(launched, faults, o.cleanup)
  }

  // ---------------------------------------------------------------------------
  // Stopping an instance on request
  // ---------------------------------------------------------------------------

  datatype StopOutcome = StopOutcome(reply: Reply, instances: map<InstanceId, Instance>, stopped: seq<string>)

  /** A record the handler treats as already stopped. */
  predicate Halted(st: Status) {
    st == TERMINATED || st == STOPPED
  }

  /** `stopCtfInstance` as a function of the collection. `requested` is the
      route's id once cast to an ObjectId, `None` when the cast throws (with
      `castMessage`); `saveError` is the message `save` throws, if it does. */
  function StopCtf(m: map<InstanceId, Instance>, userId: string, requested: Option<InstanceId>, castMessage: string,
                   saveError: Option<string>): StopOutcome
  {
    if requested.None? then
      StopOutcome(Next(Err(INTERNAL_ERROR, castMessage, INTERNAL_SERVER_ERROR)), m, [])
    else
      var id := requested.value;
      if id !in m || m[id].userId != userId then
        StopOutcome(Next(Err(NOT_FOUND_ERROR, InstanceNotFound, NOT_FOUND)), m, [])
      else if Halted(m[id].status) then
        StopOutcome(Ok(Message(AlreadyStopped)), m, [])
      else
        var names := Names(m[id].containers);
        if saveError.Some? then
          StopOutcome(Next(Err(INTERNAL_ERROR, saveError.value, INTERNAL_SERVER_ERROR)), m, names)
        else
          StopOutcome(Ok(Message(StoppedSuccessfully)), m[id := m[id].(status := TERMINATED)], names)
  }

  /** Only the caller's own record can be stopped: any other id answers 404
      and changes nothing, and a record already TERMINATED or STOPPED answers
      200 and changes nothing. */
  lemma StopRejects(m: map<InstanceId, Instance>, userId: string, id: InstanceId, castMessage: string,
                    saveError: Option<string>)
    ensures var o := StopCtf(m, userId, Some(id), castMessage, saveError);
            && (id !in m || m[id].userId != userId <==>
                  o.reply == Next(Err(NOT_FOUND_ERROR, InstanceNotFound, NOT_FOUND)))
            && (id in m && m[id].userId == userId && Halted(m[id].status) <==>
                  o.reply == Ok(Message(AlreadyStopped)))
            && ((o.reply == Next(Err(NOT_FOUND_ERROR, InstanceNotFound, NOT_FOUND)) ||
                 o.reply == Ok(Message(AlreadyStopped))) ==> o.instances == m && o.stopped == [])
  {
    var o := StopCtf(m, userId, Some(id), castMessage, saveError);
    if id in m && m[id].userId == userId && !Halted(m[id].status) {
      assert o.reply.Ok? ==> o.reply == Ok(Message(StoppedSuccessfully));
      assert Message(StoppedSuccessfully) != Message(AlreadyStopped) by {
        assert StoppedSuccessfully[13] != AlreadyStopped[13];
      }
    }
  }

  /** Stopping the caller's live (or FAILED) record asks the runtime to stop
      every container it lists, whether or not the save succeeds; on success
      the record becomes TERMINATED and nothing else changes, on a failed save
      the collection keeps the record as it was. */
  lemma StopOwned(m: map<InstanceId, Instance>, userId: string, id: InstanceId, castMessage: string,
                  saveError: Option<string>)
    requires id in m && m[id].userId == userId && !Halted(m[id].status)
    ensures var o := StopCtf(m, userId, Some(id), castMessage, saveError);
            && |o.stopped| == |m[id].containers|
            && (forall i :: 0 <= i < |o.stopped| ==> o.stopped[i] == m[id].containers[i].name)
            && (saveError.None? ==>
                  && o.reply == Ok(Message(StoppedSuccessfully))
                  && o.instances.Keys == m.Keys && o.instances[id].status == TERMINATED
                  && o.instances[id] == m[id].(status := TERMINATED)
                  && forall k :: k in m && k != id ==> o.instances[k] == m[k])
            && (saveError.Some? ==>
                  o.reply == Next(Err(INTERNAL_ERROR, saveError.value, INTERNAL_SERVER_ERROR)) && o.instances == m)
  {
  }

  /** A second stop of the same record, once the first succeeded, answers
      "already stopped" and changes nothing. */
  lemma {:induction false} StopIdempotent(m: map<InstanceId, Instance>, userId: string, id: InstanceId,
                                          castMessage: string, saveError: Option<string>)
    requires StopCtf(m, userId, Some(id), castMessage, None).reply == Ok(Message(StoppedSuccessfully))
    ensures var once := StopCtf(m, userId, Some(id), castMessage, None).instances;
            var twice := StopCtf(once, userId, Some(id), castMessage, saveError);
            twice.reply == Ok(Message(AlreadyStopped)) && twice.instances == once && twice.stopped == []
  {
    StopRejects(m, userId, id, castMessage, None);
    assert id in m && m[id].userId == userId;
  }

  /** Stopping never makes a record live, so the collection keeps at most one
      live record per user and its ids. */
  lemma StopPreservesValid(s: Store, userId: string, requested: Option<InstanceId>, castMessage: string,
                           saveError: Option<string>)
    requires StoreValid(s)
    ensures StoreValid(Store(StopCtf(s.instances, userId, requested, castMessage, saveError).instances,
                             s.nextId, s.reservations))
  {
    var o := StopCtf(s.instances, userId, requested, castMessage, saveError);
    assert forall k :: k in o.instances ==>
             k in s.instances && o.instances[k].id == s.instances[k].id && o.instances[k].userId == s.instances[k].userId;
    assert forall k :: k in o.instances && IsLive(o.instances[k].status) ==> o.instances[k] == s.instances[k];
  }

  // ---------------------------------------------------------------------------
  // The periodic cleanup of expired instances
  // ---------------------------------------------------------------------------

  /** The ids the cleanup query selects: live records whose expiry has passed. */
  function ExpiredIds(m: map<InstanceId, Instance>, now: int): (ids: set<InstanceId>)
    ensures forall id :: id in ids <==> id in m && ExpiredLive(m[id], now)
  {
    set id | id in m && ExpiredLive(m[id], now)
  }

  /** One cleanup callback on its record: TERMINATED when the save succeeds,
      otherwise FAILED when the second save succeeds, otherwise unchanged.
      `saveFails` and `markFails` are the ids whose first and second saves
      throw. */
  function Reaped(inst: Instance, id: InstanceId, saveFails: set<InstanceId>, markFails: set<InstanceId>): Instance {
    if id !in saveFails then inst.(status := TERMINATED)
    else if id !in markFails then inst.(status := FAILED)
    else inst
  }

  /** `containersCleanUp` as a function of the collection. */
  function CleanUp(m: map<InstanceId, Instance>, now: int, saveFails: set<InstanceId>,
                   markFails: set<InstanceId>): map<InstanceId, Instance>
  {
    map id | id in m :: if ExpiredLive(m[id], now) then Reaped(m[id], id, saveFails, markFails) else m[id]
  }

  /** The container names of the expired live records: what the cleanup asks
      the runtime to stop. */
  function ReapedNames(m: map<InstanceId, Instance>, now: int): set<string> {
    set id, e | id in m && ExpiredLive(m[id], now) && e in m[id].containers :: e.name
  }

  /** The records reaped one after the other, in the order of `ids`. */
  function ReapIds(m: map<InstanceId, Instance>, ids: seq<InstanceId>, saveFails: set<InstanceId>,
                   markFails: set<InstanceId>): map<InstanceId, Instance>
    requires forall i :: 0 <= i < |ids| ==> ids[i] in m
    decreases |ids|
  {
    if ids == [] then m
    else
      var last := ids[|ids| - 1];
      ReapIds(m, ids[..|ids| - 1], saveFails, markFails)[last := Reaped(m[last], last, saveFails, markFails)]
  }

  /** The stop requests for the records of `ids`, in order. */
  function StopList(m: map<InstanceId, Instance>, ids: seq<InstanceId>): seq<string>
    requires forall i :: 0 <= i < |ids| ==> ids[i] in m
    decreases |ids|
  {
    if ids == [] then [] else StopList(m, ids[..|ids| - 1]) + Names(m[ids[|ids| - 1]].containers)
  }

  /** Reaping in sequence touches each listed record once, from the snapshot. */
  lemma {:induction false} ReapIdsAt(m: map<InstanceId, Instance>, ids: seq<InstanceId>, saveFails: set<InstanceId>,
                                     markFails: set<InstanceId>)
    requires forall i :: 0 <= i < |ids| ==> ids[i] in m
    ensures ReapIds(m, ids, saveFails, markFails).Keys == m.Keys
    ensures forall k :: k in m ==>
              ReapIds(m, ids, saveFails, markFails)[k] == if k in ids then Reaped(m[k], k, saveFails, markFails) else m[k]
    decreases |ids|
  {
    if ids != [] {
      ReapIdsAt(m, ids[..|ids| - 1], saveFails, markFails);
      assert ids == ids[..|ids| - 1] + [ids[|ids| - 1]];
    }
  }

  /** A name is stopped exactly when a listed record holds a container of
      that name. */
  lemma {:induction false} StopListNames(m: map<InstanceId, Instance>, ids: seq<InstanceId>, n: string)
    requires forall i :: 0 <= i < |ids| ==> ids[i] in m
    ensures n in StopList(m, ids) <==> exists id, e :: id in ids && e in m[id].containers && e.name == n
    decreases |ids|
  {
    if ids != [] {
      var last := ids[|ids| - 1];
      StopListNames(m, ids[..|ids| - 1], n);
      assert ids == ids[..|ids| - 1] + [last];
      var ns := Names(m[last].containers);
      if n in ns {
        var i :| 0 <= i < |ns| && ns[i] == n;
        assert m[last].containers[i] in m[last].containers;
      }
      if exists e :: e in m[last].containers && e.name == n {
        var e :| e in m[last].containers && e.name == n;
        var i :| 0 <= i < |m[last].containers| && m[last].containers[i] == e;
        assert ns[i] == n;
      }
    }
  }

  /** The cleanup changes only expired live records and keeps every id. */
  lemma CleanUpOnlyExpired(m: map<InstanceId, Instance>, now: int, saveFails: set<InstanceId>,
                           markFails: set<InstanceId>)
    ensures CleanUp(m, now, saveFails, markFails).Keys == m.Keys
    ensures forall id :: id in m && !ExpiredLive(m[id], now) ==> CleanUp(m, now, saveFails, markFails)[id] == m[id]
    ensures forall id :: id in m ==> CleanUp(m, now, saveFails, markFails)[id] == m[id].(status := CleanUp(m, now, saveFails, markFails)[id].status)
  {
  }

  /** An expired live record ends TERMINATED when its save succeeds, FAILED
      when only the second save succeeds, and stays live only when both
      saves throw. */
  lemma CleanUpStatus(m: map<InstanceId, Instance>, now: int, saveFails: set<InstanceId>, markFails: set<InstanceId>,
                      id: InstanceId)
    requires id in m && ExpiredLive(m[id], now)
    ensures var st := CleanUp(m, now, saveFails, markFails)[id].status;
            && (id !in saveFails ==> st == TERMINATED)
            && (id in saveFails && id !in markFails ==> st == FAILED)
            && (IsLive(st) <==> id in saveFails && id in markFails)
  {
  }

  /** A second run with the same outcomes changes nothing more. */
  lemma CleanUpIdempotent(m: map<InstanceId, Instance>, now: int, saveFails: set<InstanceId>,
                          markFails: set<InstanceId>)
    ensures var once := CleanUp(m, now, saveFails, markFails);
            CleanUp(once, now, saveFails, markFails) == once
  {
    var once := CleanUp(m, now, saveFails, markFails);
    var twice := CleanUp(once, now, saveFails, markFails);
    forall id | id in once
      ensures twice[id] == once[id]
    {
      if ExpiredLive(once[id], now) {
        assert ExpiredLive(m[id], now) && id in saveFails && id in markFails;
      }
    }
  }

  /** The cleanup never makes a record live, so the collection stays valid. */
  lemma CleanUpPreservesValid(s: Store, now: int, saveFails: set<InstanceId>, markFails: set<InstanceId>)
    requires StoreValid(s)
    ensures StoreValid(Store(CleanUp(s.instances, now, saveFails, markFails), s.nextId, s.reservations))
  {
    var c := CleanUp(s.instances, now, saveFails, markFails);
    assert forall k :: k in c ==> k in s.instances && c[k].id == s.instances[k].id && c[k].userId == s.instances[k].userId;
    assert forall k :: k in c && IsLive(c[k].status) ==> c[k] == s.instances[k];
  }

  /** One more record reaped: its stop request follows the earlier ones, and
      it is still as in the snapshot until its own turn. */
  lemma ReapStep(m: map<InstanceId, Instance>, ids: seq<InstanceId>, i: nat, saveFails: set<InstanceId>,
                 markFails: set<InstanceId>)
    requires forall k :: 0 <= k < |ids| ==> ids[k] in m
    requires forall j, k :: 0 <= j < k < |ids| ==> ids[j] != ids[k]
    requires i < |ids|
    ensures StopList(m, ids[..i + 1]) == StopList(m, ids[..i]) + Names(m[ids[i]].containers)
    ensures ReapIds(m, ids[..i + 1], saveFails, markFails)
         == ReapIds(m, ids[..i], saveFails, markFails)[ids[i] := Reaped(m[ids[i]], ids[i], saveFails, markFails)]
    ensures ids[i] in ReapIds(m, ids[..i], saveFails, markFails)
    ensures ReapIds(m, ids[..i], saveFails, markFails)[ids[i]] == m[ids[i]]
  {
    assert ids[..i + 1][..i] == ids[..i];
    ReapIdsAt(m, ids[..i], saveFails, markFails);
    assert ids[i] !in ids[..i];
  }

  /** Reaping the expired live records one after the other is the cleanup. */
  lemma ReapIdsIsCleanUp(m: map<InstanceId, Instance>, expired: seq<InstanceId>, now: int,
                         saveFails: set<InstanceId>, markFails: set<InstanceId>)
    requires forall i :: 0 <= i < |expired| ==> expired[i] in m
    requires forall id :: id in expired <==> id in ExpiredIds(m, now)
    ensures ReapIds(m, expired, saveFails, markFails) == CleanUp(m, now, saveFails, markFails)
  {
    ReapIdsAt(m, expired, saveFails, markFails);
  }

  /** Two stops in a row act as one stop of both lists. */
  lemma AfterStopAppend(rt: Runtime, faults: map<string, int>, a: seq<string>, b: seq<string>)
    ensures AfterStop(rt, faults, a + b) == AfterStop(AfterStop(rt, faults, a), faults, b)
    ensures b == [] ==> AfterStop(rt, faults, a + b) == AfterStop(rt, faults, a)
  {
    StopAppend(faults, a, b);
    assert rt.stopRequests + (a + b) == rt.stopRequests + a + b;
    assert rt.daemonErrors + DaemonErrors(faults, a + b) == rt.daemonErrors + DaemonErrors(faults, a) + DaemonErrors(faults, b);
    if b == [] {
      assert a + b == a;
    }
  }

  /** Stopping the containers of every expired live record, in any order
      that lists each once: the runtime loses the stoppable ones and logs the
      refused ones with a 5xx status. */
  lemma StopListIsReapedNames(rt: Runtime, faults: map<string, int>, m: map<InstanceId, Instance>,
                              expired: seq<InstanceId>, now: int)
    requires forall id :: id in expired <==> id in ExpiredIds(m, now)
    ensures forall i :: 0 <= i < |expired| ==> expired[i] in m
    ensures var after := AfterStop(rt, faults, StopList(m, expired));
            && after.createRequests == rt.createRequests
            && after.running == rt.running - (ReapedNames(m, now) - faults.Keys)
            && |rt.stopRequests| <= |after.stopRequests| && after.stopRequests[..|rt.stopRequests|] == rt.stopRequests
            && (forall n :: n in after.stopRequests[|rt.stopRequests|..] <==> n in ReapedNames(m, now))
            && |rt.daemonErrors| <= |after.daemonErrors| && after.daemonErrors[..|rt.daemonErrors|] == rt.daemonErrors
            && (forall x :: x in after.daemonErrors[|rt.daemonErrors|..] <==>
                  x.0 in ReapedNames(m, now) && x.0 in faults && faults[x.0] >= 500 && x.1 == faults[x.0])
  {
    forall i | 0 <= i < |expired|
      ensures expired[i] in m
    {
      assert expired[i] in expired;
    }
    var sent := StopList(m, expired);
    var after := AfterStop(rt, faults, sent);
    forall n
      ensures n in sent <==> n in ReapedNames(m, now)
    {
      StopListNames(m, expired, n);
    }
    forall x: (string, int)
      ensures x in DaemonErrors(faults, sent) <==> x.0 in ReapedNames(m, now) && x.0 in faults && faults[x.0] >= 500 && x.1 == faults[x.0]
    {
      DaemonErrorsExactly(faults, sent, x);
    }
    assert after.stopRequests[|rt.stopRequests|..] == sent;
    assert after.daemonErrors[|rt.daemonErrors|..] == DaemonErrors(faults, sent);
  }

  // ---------------------------------------------------------------------------
  // Flag submission
  // ---------------------------------------------------------------------------

  /** The fields of a stored user that a submission reads or writes. */
  datatype User = User(email: string, solvedCtf: seq<string>, numberOfSolvedCtf: int)

  /** A user record as the submission leaves it: each solved challenge listed
      once and the counter equal to the list's length. */
  predicate UserConsistent(u: User) {
    && (forall i, j :: 0 <= i < j < |u.solvedCtf| ==> u.solvedCtf[i] != u.solvedCtf[j])
    && u.numberOfSolvedCtf == |u.solvedCtf|
  }

  /** `$addToSet`: append `x` unless it is already there. */
  function AddToSet(xs: seq<string>, x: string): (r: seq<string>)
    ensures x in r && forall y :: y in r <==> y in xs || y == x
    ensures x in xs ==> r == xs
    ensures x !in xs ==> r == xs + [x]
  {
    if x in xs then xs else xs + [x]
  }

  datatype SubmitOutcome = SubmitOutcome(reply: Reply, users: map<string, User>)

  /** `submitFlag`. `flag` is the body's flag (None when absent), `solvedCtfs`
      the solved list attached to the request, `ctfFlag` the stored flag of
      the challenge (None when no challenge has that id). */
  function Submit(users: map<string, User>, userId: string, ctfId: string, flag: Option<string>,
                  solvedCtfs: seq<string>, ctfFlag: Option<string>): SubmitOutcome
  {
    if flag.None? || flag.value == "" then
      SubmitOutcome(Next(Err(VALIDATION_ERROR, FlagRequired, BAD_REQUEST)), users)
    else if ctfId in solvedCtfs then
      SubmitOutcome(Ok(Message(SolvedBefore)), users)
    else if ctfFlag.None? then
      SubmitOutcome(Next(Err(NOT_FOUND_ERROR, CtfNotFound, NOT_FOUND)), users)
    else if ctfFlag.value != flag.value then
      SubmitOutcome(Next(Err(VALIDATION_ERROR, WrongFlag, BAD_REQUEST)), users)
    else if userId !in users then
      SubmitOutcome(Next(Err(DATABASE_ERROR, DocNotUpdated, INTERNAL_SERVER_ERROR)), users)
    else
      var solved := AddToSet(users[userId].solvedCtf, ctfId);
      SubmitOutcome(Ok(Message(SolvedNow)), users[userId := users[userId].(solvedCtf := solved, numberOfSolvedCtf := |solved|)])
  }

  /** Every path but the accepted one leaves the users untouched, and each
      rejection carries its own error. */
  lemma SubmitRejects(users: map<string, User>, userId: string, ctfId: string, flag: Option<string>,
                      solvedCtfs: seq<string>, ctfFlag: Option<string>)
    ensures var o := Submit(users, userId, ctfId, flag, solvedCtfs, ctfFlag);
            && (o.users != users ==> o.reply == Ok(Message(SolvedNow)))
            && (o.reply == Next(Err(VALIDATION_ERROR, FlagRequired, BAD_REQUEST)) <==> flag.None? || flag.value == "")
            && (o.reply == Ok(Message(SolvedBefore)) <==> flag.Some? && flag.value != "" && ctfId in solvedCtfs)
            && (o.reply == Next(Err(VALIDATION_ERROR, WrongFlag, BAD_REQUEST)) <==>
                  flag.Some? && flag.value != "" && ctfId !in solvedCtfs && ctfFlag.Some? && ctfFlag.value != flag.value)
            && (o.reply == Ok(Message(SolvedNow)) <==>
                  flag.Some? && flag.value != "" && ctfId !in solvedCtfs && ctfFlag == flag && userId in users)
  {
    assert SolvedBefore[21] != SolvedNow[21];
    assert FlagRequired != WrongFlag;
  }

  /** The right flag for an unsolved challenge records the solve on that user
      alone, keeps the email, and sets the counter to the new list's length. */
  lemma SubmitRecordsSolve(users: map<string, User>, userId: string, ctfId: string, flag: string,
                           solvedCtfs: seq<string>)
    requires flag != "" && ctfId !in solvedCtfs && userId in users
    ensures var o := Submit(users, userId, ctfId, Some(flag), solvedCtfs, Some(flag));
            && o.reply == Ok(Message(SolvedNow))
            && o.users.Keys == users.Keys
            && (forall u :: u in users && u != userId ==> o.users[u] == users[u])
            && o.users[userId].email == users[userId].email
            && ctfId in o.users[userId].solvedCtf
            && (forall c :: c in o.users[userId].solvedCtf <==> c in users[userId].solvedCtf || c == ctfId)
            && o.users[userId].numberOfSolvedCtf == |o.users[userId].solvedCtf|
            && |o.users[userId].solvedCtf| == |users[userId].solvedCtf| + (if ctfId in users[userId].solvedCtf then 0 else 1)
  {
  }

  /** A second accepted submission of the same flag, under the same solved
      list attached to the request, changes nothing more. */
  lemma {:induction false} SubmitIdempotent(users: map<string, User>, userId: string, ctfId: string,
                                            flag: Option<string>, solvedCtfs: seq<string>, ctfFlag: Option<string>)
    ensures var once := Submit(users, userId, ctfId, flag, solvedCtfs, ctfFlag).users;
            Submit(once, userId, ctfId, flag, solvedCtfs, ctfFlag).users == once
  {
    var once := Submit(users, userId, ctfId, flag, solvedCtfs, ctfFlag).users;
    if flag.Some? && flag.value != "" && ctfId !in solvedCtfs && ctfFlag == flag && userId in users {
      var u := once[userId];
      assert ctfId in u.solvedCtf && u.numberOfSolvedCtf == |u.solvedCtf|;
      assert once[userId := u.(solvedCtf := AddToSet(u.solvedCtf, ctfId), numberOfSolvedCtf := |u.solvedCtf|)] == once;
    }
  }

  /** Submissions keep every consistent user record consistent. */
  lemma SubmitKeepsConsistent(users: map<string, User>, userId: string, ctfId: string, flag: Option<string>,
                              solvedCtfs: seq<string>, ctfFlag: Option<string>)
    requires forall u :: u in users ==> UserConsistent(users[u])
    ensures var o := Submit(users, userId, ctfId, flag, solvedCtfs, ctfFlag);
            forall u :: u in o.users ==> UserConsistent(o.users[u])
  {
    var o := Submit(users, userId, ctfId, flag, solvedCtfs, ctfFlag);
    if o.users != users {
      var xs := users[userId].solvedCtf;
      var r := AddToSet(xs, ctfId);
      if ctfId !in xs {
        forall i, j | 0 <= i < j < |r|
          ensures r[i] != r[j]
        {
          if j == |xs| {
            assert r[i] == xs[i];
          }
        }
      }
    }
  }

  // ---------------------------------------------------------------------------
  // The catalog entry as stored objects
  // ---------------------------------------------------------------------------

  /** A challenge from the catalog; its configuration objects are the ones
      the launcher rewrites in place. */
  datatype Challenge = Challenge(withSite: bool, containersConfig: seq<ContainerConfig>)

  /** The launcher is handed two distinct configuration objects. */
  predicate DistinctConfigs(ch: Challenge) {
    |ch.containersConfig| >= 2 ==> ch.containersConfig[0] != ch.containersConfig[1]
  }

  function EntryOf(ch: Challenge): CtfEntry
    reads ch.containersConfig
  {
    CtfEntry(ch.withSite, |ch.containersConfig|, FirstTwo(ch.containersConfig))
  }

  function EntryOpt(challenge: Option<Challenge>): Option<CtfEntry>
    reads if challenge.Some? then challenge.value.containersConfig else []
  {
    if challenge.Some? then Some(EntryOf(challenge.value)) else None
  }

  // ---------------------------------------------------------------------------
  // The controller
  // ---------------------------------------------------------------------------

  class Controller {
    var instances: map<InstanceId, Instance>
    var nextId: nat
    /** The module-level `portReservations` set. */
    var portReservations: set<int>
    const docker: DockerHost
    /** The user collection, as far as flag submission touches it. */
    var users: map<string, User>

    function State(): Store
      reads this
    {
      Store(instances, nextId, portReservations)
    }

    predicate Valid()
      reads this
    {
      StoreValid(State())
    }

    constructor (docker: DockerHost, users: map<string, User>)
      ensures Valid() && instances == map[] && nextId == 0 && portReservations == {} && this.docker == docker
      ensures this.users == users
    {
      instances, nextId, portReservations := map[], 0, {};
      this.docker := docker;
      this.users := users;
    }

    /** The live-record query of `createCtfInstance`. */
    method FindLive(userId: string) returns (live: Option<Instance>)
      requires Valid()
      ensures live == LiveOf(instances, userId)
    {
      if exists id :: id in instances && instances[id].userId == userId && IsLive(instances[id].status) {
        var id :| id in instances && instances[id].userId == userId && IsLive(instances[id].status);
        live := Some(instances[id]);
        ghost var chosen := LiveOf(instances, userId).value;
        ghost var k :| k in instances && instances[k] == chosen;
        assert k == id;
      } else {
        live := None;
      }
    }

    /** `createCtfInstance`, proved against `CreateCtf`. */
    method CreateCtfInstance(userId: string, solved: seq<string>, ctfId: string, challenge: Option<Challenge>,
                             now: int, rolls: seq<real>, outcomes: LaunchOutcomes, env: ServerEnv,
                             update: UpdateAnswer)
      returns (reply: Reply)
      requires Valid() && ValidRolls(rolls)
      requires challenge.Some? ==> DistinctConfigs(challenge.value)
      modifies this`instances, this`nextId, this`portReservations, docker
      modifies if challenge.Some? then challenge.value.containersConfig else []
      ensures Valid()
      ensures var o := CreateCtf(old(State()), userId, solved, ctfId, old(EntryOpt(challenge)), now, rolls, outcomes,
                                 env, update);
              && reply == o.reply && State() == o.store
              && RuntimeOf(docker) == AfterCreate(old(RuntimeOf(docker)), docker.stopFaults, o)
    {
      var live := FindLive(userId);
      var entry := EntryOpt(challenge);
      match Admit(solved, ctfId, entry, live)
      case Reject(err) =>
        return Next(err);
      case ReturnRunning(inst) =>
        return Ok(View(inst));
      case Proceed(resume) =>
        ghost var o;
        reply, o := SetUpInstance(userId, ctfId, challenge.value, resume, now, rolls, outcomes, env, update);
        CreatePreservesValid(old(State()), userId, solved, ctfId, entry, now, rolls, outcomes, env, update);
    }

    /** The record and the port of an admitted request. */
    method SetUpInstance(userId: string, ctfId: string, challenge: Challenge, resume: Option<Instance>, now: int,
                         rolls: seq<real>, outcomes: LaunchOutcomes, env: ServerEnv, update: UpdateAnswer)
      returns (reply: Reply, ghost o: CreateOutcome)
      requires ValidRolls(rolls) && DistinctConfigs(challenge)
      modifies this`instances, this`nextId, this`portReservations, docker, challenge.containersConfig
      ensures o == SetUp(old(State()), userId, ctfId, old(EntryOf(challenge)), resume, now, rolls, outcomes, env,
                         update)
      ensures reply == o.reply && State() == o.store
      ensures RuntimeOf(docker) == AfterCreate(old(RuntimeOf(docker)), docker.stopFaults, o)
    {
      ghost var entry := EntryOf(challenge);
      var rec, validPort := ReservePort(userId, ctfId, resume, now, rolls);
      if validPort.None? {
        o := CreateOutcome(NoPortsReply(), State(), None, []);
        return NoPortsReply(), o;
      }
      reply, o := DeployInstance(userId, ctfId, challenge, entry, rec, validPort.value, now,
                                 outcomes, env, update);
    }

    /** The record, the port draw and the reservation, proved against `Reserve`. */
    method ReservePort(userId: string, ctfId: string, resume: Option<Instance>, now: int, rolls: seq<real>)
      returns (rec: Instance, validPort: Option<int>)
      requires ValidRolls(rolls)
      modifies this`instances, this`nextId, this`portReservations
      ensures Reservation(rec, validPort, State()) == Reserve(old(State()), userId, ctfId, resume, now, rolls)
    {
      var used;
      rec, used := OpenRecord(userId, ctfId, resume, now);
      validPort := GenerateValidPorts(used, portReservations, rolls);
      if validPort.None? {
        instances := instances - {rec.id};
      } else {
        portReservations := portReservations + {validPort.value};
      }
    }

    /** The resumed record, or a new PENDING one, and the ports the other
        live records hold. */
    method OpenRecord(userId: string, ctfId: string, resume: Option<Instance>, now: int)
      returns (rec: Instance, used: set<int>)
      modifies this`instances, this`nextId
      ensures rec == SetUpRecord(old(State()), userId, ctfId, resume, now)
      ensures used == PortsInUse(old(instances), if resume.Some? then Some(rec.id) else None)
      ensures instances == if resume.Some? then old(instances) else old(instances)[rec.id := rec]
      ensures nextId == if resume.Some? then old(nextId) else old(nextId) + 1
    {
      if resume.Some? {
        rec := resume.value;
        used := PortsInUse(instances, Some(rec.id));
      } else {
        rec := NewPending(nextId, userId, ctfId, now);
        used := PortsInUse(instances, None);
        instances := instances[rec.id := rec];
        nextId := nextId + 1;
      }
    }

    /** Everything after the port reservation: the configuration checks, the
        launch, the preparation and the RUNNING update, each failure undoing
        what the source undoes. */
    method DeployInstance(userId: string, ctfId: string, challenge: Challenge, ghost entry: CtfEntry,
                          rec: Instance, port: int, now: int, outcomes: LaunchOutcomes, env: ServerEnv,
                          update: UpdateAnswer)
      returns (reply: Reply, ghost o: CreateOutcome)
      requires entry == EntryOf(challenge) && DistinctConfigs(challenge)
      modifies this`instances, this`portReservations, docker, challenge.containersConfig
      ensures o == Deploy(old(State()), userId, ctfId, entry, rec, port, now, outcomes, env, update)
      ensures reply == o.reply && State() == o.store
              && RuntimeOf(docker) == AfterCreate(old(RuntimeOf(docker)), docker.stopFaults, o)
    {
      o := Deploy(State(), userId, ctfId, entry, rec, port, now, outcomes, env, update);
      var containers := challenge.containersConfig;
      if |containers| == 0 {
        portReservations := portReservations - {port};
        instances := instances - {rec.id};
        reply := Next(Err(DATABASE_ERROR, NoContainersConfig, INTERNAL_SERVER_ERROR));
        return;
      }
      if |containers| != 2 {
        reply := Next(Err(DOCKER_ERROR, UnsupportedCount, INTERNAL_SERVER_ERROR));
        return;
      }
      reply := LaunchInstance(userId, ctfId, challenge, entry.configs, rec, port, now + LaunchLifetimeMs,
                              outcomes, env, update);
    }

    /** The launch itself, then the bookkeeping on its result. */
    method LaunchInstance(userId: string, ctfId: string, challenge: Challenge, ghost cs: seq<ConfigValue>,
                          rec: Instance, port: int, expiration: int, outcomes: LaunchOutcomes, env: ServerEnv,
                          update: UpdateAnswer)
      returns (reply: Reply)
      requires cs == FirstTwo(challenge.containersConfig) && DistinctConfigs(challenge)
      modifies this`instances, this`portReservations, docker, challenge.containersConfig
      ensures var e := Launch(cs, userId, port, ctfId, NatToString(rec.id), expiration, outcomes, env);
              var o := AfterLaunch(old(State()), userId, ctfId, rec, port, expiration, e, update);
              && reply == o.reply && State() == o.store
              && RuntimeOf(docker) == AfterCreate(old(RuntimeOf(docker)), docker.stopFaults, o)
    {
      var launched := StartInstanceWithoutDb(docker, challenge.containersConfig, userId, port, ctfId,
                                             NatToString(rec.id), expiration, outcomes, env);
      ghost var e := Launch(cs, userId, port, ctfId, NatToString(rec.id), expiration, outcomes, env);
      reply := RecordLaunch(userId, ctfId, rec, port, expiration, launched, e, update);
    }

    /** What the controller does with the launcher's answer `launched`. */
    method RecordLaunch(userId: string, ctfId: string, rec: Instance, port: int, expiration: int,
                        launched: Result<seq<ContainerInstance>, AppError>, ghost e: LaunchEffect, update: UpdateAnswer)
      returns (reply: Reply)
      requires launched == e.result
      modifies this`instances, this`portReservations, docker
      ensures var o := AfterLaunch(old(State()), userId, ctfId, rec, port, expiration, e, update);
              && reply == o.reply && State() == o.store
              && RuntimeOf(docker) == (if o.cleanup == [] then old(RuntimeOf(docker))
                                       else AfterStop(old(RuntimeOf(docker)), docker.stopFaults, o.cleanup))
    {
      // The launcher's error literals have no `status` key, so the failure
      // test never fires; a failed launch reaches `workingContainers.find`
      // on a plain object, which throws.
      LaunchErrorNeverDetected(launched);
      if launched.Failure? {
        return Throws;
      }
      var prepared := CtfInstancePreparation(launched.value, userId, ctfId, expiration);
      IsAppErrorExact(prepared);
      if IsAppError(PreparedKeys(prepared)) {
        portReservations := portReservations - {port};
        docker.StopContainers(ManyIds([]));
        instances := instances - {rec.id};
        return Next(AppError(None, prepared.error.message, Some(INTERNAL_SERVER_ERROR)));
      }
      var containersToStopInFailure := Names(prepared.value.containers);
      if update == Rejected {
        return Throws;
      }
      if update == NoMatch {
        portReservations := portReservations - {port};
        docker.StopContainers(ManyIds(containersToStopInFailure));
        instances := instances - {rec.id};
        return Next(Err(DATABASE_ERROR, UpdateFailed, INTERNAL_SERVER_ERROR));
      }
      var updated := rec.(url := Some(prepared.value.url), status := RUNNING, expiresAt := expiration,
                          containers := prepared.value.containers);
      instances := instances[rec.id := updated];
      portReservations := portReservations - {port};
      return Ok(View(updated));
    }

    /** `stopCtfInstance`, proved against `StopCtf`. */
    method StopCtfInstance(userId: string, requested: Option<InstanceId>, castMessage: string,
                           saveError: Option<string>)
      returns (reply: Reply)
      requires Valid()
      modifies this`instances, docker
      ensures Valid()
      ensures var o := StopCtf(old(instances), userId, requested, castMessage, saveError);
              && reply == o.reply && instances == o.instances
              && RuntimeOf(docker) == AfterStop(old(RuntimeOf(docker)), docker.stopFaults, o.stopped)
    {
      StopPreservesValid(State(), userId, requested, castMessage, saveError);
      if requested.None? {
        return Next(Err(INTERNAL_ERROR, castMessage, INTERNAL_SERVER_ERROR));
      }
      var id := requested.value;
      if id !in instances || instances[id].userId != userId {
        return Next(Err(NOT_FOUND_ERROR, InstanceNotFound, NOT_FOUND));
      }
      var ctfInstance := instances[id];
      if ctfInstance.status == TERMINATED || ctfInstance.status == STOPPED {
        return Ok(Message(AlreadyStopped));
      }
      var runningContainers := Names(ctfInstance.containers);
      docker.StopContainers(ManyIds(runningContainers));
      if saveError.Some? {
        return Next(Err(INTERNAL_ERROR, saveError.value, INTERNAL_SERVER_ERROR));
      }
      instances := instances[id := ctfInstance.(status := TERMINATED)];
      return Ok(Message(StoppedSuccessfully));
    }

    /** The cleanup query: every expired live record, each once, in some order. */
    method FindExpired(now: int) returns (expired: seq<InstanceId>)
      ensures forall i, j :: 0 <= i < j < |expired| ==> expired[i] != expired[j]
      ensures forall id :: id in expired <==> id in ExpiredIds(instances, now)
    {
      var pending := ExpiredIds(instances, now);
      expired := [];
      while pending != {}
        invariant forall i, j :: 0 <= i < j < |expired| ==> expired[i] != expired[j]
        invariant forall id :: id in expired ==> id !in pending
        invariant forall id :: id in ExpiredIds(instances, now) <==> id in expired || id in pending
        decreases |pending|
      {
        var id :| id in pending;
        expired := expired + [id];
        pending := pending - {id};
      }
    }

    /** `containersCleanUp`, proved against `CleanUp`: the callbacks run one
        after the other, each stopping its record's containers (when it has
        any) and then saving the new status. */
    method ContainersCleanUp(now: int, saveFails: set<InstanceId>, markFails: set<InstanceId>)
      requires Valid()
      modifies this`instances, docker
      ensures Valid()
      ensures instances == CleanUp(old(instances), now, saveFails, markFails)
      ensures docker.createRequests == old(docker.createRequests)
      ensures docker.running == old(docker.running) - (ReapedNames(old(instances), now) - docker.stopFaults.Keys)
      ensures |old(docker.stopRequests)| <= |docker.stopRequests|
      ensures docker.stopRequests[..|old(docker.stopRequests)|] == old(docker.stopRequests)
      ensures forall n :: n in docker.stopRequests[|old(docker.stopRequests)|..] <==> n in ReapedNames(old(instances), now)
      ensures |old(docker.daemonErrors)| <= |docker.daemonErrors|
      ensures docker.daemonErrors[..|old(docker.daemonErrors)|] == old(docker.daemonErrors)
      ensures forall x :: x in docker.daemonErrors[|old(docker.daemonErrors)|..] <==>
                x.0 in ReapedNames(old(instances), now) && x.0 in docker.stopFaults &&
                docker.stopFaults[x.0] >= 500 && x.1 == docker.stopFaults[x.0]
    {
      CleanUpPreservesValid(State(), now, saveFails, markFails);
      var expiredInstances := FindExpired(now);
      StopListIsReapedNames(old(RuntimeOf(docker)), docker.stopFaults, instances, expiredInstances, now);
      ReapIdsIsCleanUp(instances, expiredInstances, now, saveFails, markFails);
      ReapInOrder(expiredInstances, saveFails, markFails);
    }

    /** One callback of the cleanup: stop the record's containers, when it
        has any, then save its new status; when both saves throw the stored
        record stays as it was. */
    method ReapOne(id: InstanceId, instance: Instance, saveFails: set<InstanceId>, markFails: set<InstanceId>)
      modifies this`instances, docker
      ensures instances == if id in saveFails && id in markFails then old(instances)
                           else old(instances)[id := Reaped(instance, id, saveFails, markFails)]
      ensures RuntimeOf(docker) == AfterStop(old(RuntimeOf(docker)), docker.stopFaults, Names(instance.containers))
    {
      var containerNames := Names(instance.containers);
      if |containerNames| > 0 {
        docker.StopContainers(ManyIds(containerNames));
      } else {
        AfterStopAppend(RuntimeOf(docker), docker.stopFaults, [], []);
      }
      if id !in saveFails {
        instances := instances[id := instance.(status := TERMINATED)];
      } else if id !in markFails {
        instances := instances[id := instance.(status := FAILED)];
      }
    }

    /** The callbacks for `expired`, one after the other, on the records as
        the query returned them. */
    method ReapInOrder(expired: seq<InstanceId>, saveFails: set<InstanceId>, markFails: set<InstanceId>)
      requires forall i :: 0 <= i < |expired| ==> expired[i] in instances
      requires forall i, j :: 0 <= i < j < |expired| ==> expired[i] != expired[j]
      modifies this`instances, docker
      ensures instances == ReapIds(old(instances), expired, saveFails, markFails)
      ensures RuntimeOf(docker) == AfterStop(old(RuntimeOf(docker)), docker.stopFaults, StopList(old(instances), expired))
    {
      var snapshot := instances;
      for i := 0 to |expired|
        invariant instances == ReapIds(snapshot, expired[..i], saveFails, markFails)
        invariant RuntimeOf(docker) == AfterStop(old(RuntimeOf(docker)), docker.stopFaults, StopList(snapshot, expired[..i]))
      {
        var id := expired[i];
        ReapStep(snapshot, expired, i, saveFails, markFails);
        AfterStopAppend(old(RuntimeOf(docker)), docker.stopFaults, StopList(snapshot, expired[..i]),
                        Names(snapshot[id].containers));
        ReapOne(id, snapshot[id], saveFails, markFails);
      }
      assert expired[..|expired|] == expired;
    }


    /** `submitFlag`, proved against `Submit`: the `$addToSet` update, then
        the counter set to the updated list's length. */
    method SubmitFlag(userId: string, ctfId: string, flag: Option<string>, solvedCtfs: seq<string>,
                      ctfFlag: Option<string>)
      returns (reply: Reply)
      modifies this`users
      ensures reply == Submit(old(users), userId, ctfId, flag, solvedCtfs, ctfFlag).reply
      ensures users == Submit(old(users), userId, ctfId, flag, solvedCtfs, ctfFlag).users
    {
      if flag.None? || flag.value == "" {
        return Next(Err(VALIDATION_ERROR, FlagRequired, BAD_REQUEST));
      }
      if ctfId in solvedCtfs {
        return Ok(Message(SolvedBefore));
      }
      if ctfFlag.None? {
        return Next(Err(NOT_FOUND_ERROR, CtfNotFound, NOT_FOUND));
      }
      if ctfFlag.value != flag.value {
        return Next(Err(VALIDATION_ERROR, WrongFlag, BAD_REQUEST));
      }
      if userId !in users {
        return Next(Err(DATABASE_ERROR, DocNotUpdated, INTERNAL_SERVER_ERROR));
      }
      var newUpdateUser := users[userId].(solvedCtf := AddToSet(users[userId].solvedCtf, ctfId));
      users := users[userId := newUpdateUser];
      users := users[userId := users[userId].(numberOfSolvedCtf := |newUpdateUser.solvedCtf|)];
      return Ok(Message(SolvedNow));
    }
  }
}
