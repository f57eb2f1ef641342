/** The container side of the orchestrator: the port allocator, the
    container runtime (abstracted as the set of running container names plus
    logs of the requests it received), stopping containers, health polling and
    the two-container launcher. */
module DockerUtils {
  import opened Wrappers
  import opened Text
  import opened AppErrors

  // ---------------------------------------------------------------------------
  // Port allocator
  // ---------------------------------------------------------------------------

  const MaxPortAttempts: nat := 100
  const PortLow: int := 3001
  const PortHighExclusive: int := 4000

  /** `Math.floor(roll * (4000 - 3001) + 3001)` for one value `roll` of `Math.random()`. */
  function Draw(roll: real): int {
    (roll * (PortHighExclusive - PortLow) as real + PortLow as real).Floor
  }

  /** The hundred values `Math.random()` returns, each in [0, 1). */
  predicate ValidRolls(rolls: seq<real>) {
    |rolls| == MaxPortAttempts && forall i :: 0 <= i < |rolls| ==> 0.0 <= rolls[i] < 1.0
  }

  predicate Free(p: int, usedPorts: set<int>, reservedPorts: set<int>) {
    p !in usedPorts && p !in reservedPorts
  }

  /** Every draw lies in 3001..3999: port 3000 and port 4000 are never produced. */
  lemma DrawInRange(roll: real)
    requires 0.0 <= roll < 1.0
    ensures PortLow <= Draw(roll) < PortHighExclusive
    ensures Draw(roll) != 3000
  {
    var x := roll * 999.0;
    assert 0.0 <= x < 999.0;
    assert Draw(roll) == (x + 3001.0).Floor;
  }

  /** ... and every port of 3001..3999 is drawn by some value of `Math.random()`. */
  lemma EveryPortDrawable(p: int)
    requires PortLow <= p < PortHighExclusive
    ensures var roll := (p - PortLow) as real / 999.0; 0.0 <= roll < 1.0 && Draw(roll) == p
  {
    var roll := (p - PortLow) as real / 999.0;
    assert roll * 999.0 == (p - PortLow) as real;
    assert roll * 999.0 + 3001.0 == p as real;
  }

  /** The port the allocator settles on when it starts probing at draw `from`:
      the first free draw, if there is one. */
  function FirstFreeDraw(usedPorts: set<int>, reservedPorts: set<int>, rolls: seq<real>, from: nat): Option<int>
    decreases |rolls| - from
  {
    if from >= |rolls| then None
    else if Free(Draw(rolls[from]), usedPorts, reservedPorts) then Some(Draw(rolls[from]))
    else FirstFreeDraw(usedPorts, reservedPorts, rolls, from + 1)
  }

  lemma {:induction false} FirstFreeDrawSpec(usedPorts: set<int>, reservedPorts: set<int>, rolls: seq<real>, from: nat)
    requires forall i :: 0 <= i < |rolls| ==> 0.0 <= rolls[i] < 1.0
    ensures var r := FirstFreeDraw(usedPorts, reservedPorts, rolls, from);
      && (r.Some? ==> PortLow <= r.value < PortHighExclusive && Free(r.value, usedPorts, reservedPorts))
      && (r.Some? ==> exists k :: from <= k < |rolls| && Draw(rolls[k]) == r.value &&
                                  forall j :: from <= j < k ==> !Free(Draw(rolls[j]), usedPorts, reservedPorts))
      && (r.None? <==> forall k :: from <= k < |rolls| ==> !Free(Draw(rolls[k]), usedPorts, reservedPorts))
    decreases |rolls| - from
  {
    if from < |rolls| {
      DrawInRange(rolls[from]);
      if !Free(Draw(rolls[from]), usedPorts, reservedPorts) {
        FirstFreeDrawSpec(usedPorts, reservedPorts, rolls, from + 1);
      }
    }
  }

  /** `generateValidPorts`: up to 100 random probes; the first probe that is
      neither in use nor reserved is returned, otherwise nothing. */
  method GenerateValidPorts(usedPorts: set<int>, reservedPorts: set<int>, rolls: seq<real>)
    returns (port: Option<int>)
    requires ValidRolls(rolls)
    ensures port == FirstFreeDraw(usedPorts, reservedPorts, rolls, 0)
    ensures port.Some? ==> PortLow <= port.value < PortHighExclusive
    ensures port.Some? ==> port.value !in usedPorts && port.value !in reservedPorts
    ensures port.None? <==> forall k :: 0 <= k < MaxPortAttempts ==> !Free(Draw(rolls[k]), usedPorts, reservedPorts)
  {
    for i := 0 to MaxPortAttempts
      invariant forall j :: 0 <= j < i ==> !Free(Draw(rolls[j]), usedPorts, reservedPorts)
      invariant FirstFreeDraw(usedPorts, reservedPorts, rolls, 0) == FirstFreeDraw(usedPorts, reservedPorts, rolls, i)
    {
      var genPort := Draw(rolls[i]);
      if genPort !in usedPorts && genPort !in reservedPorts {
        DrawInRange(rolls[i]);
        return Some(genPort);
      }
    }
    return None;
  }

  // ---------------------------------------------------------------------------
  // Health polling
  // ---------------------------------------------------------------------------

  /** What one `inspect()` of a container yields. */
  datatype Probe = ReportsRunning | ReportsOther | InspectFails

  /** The k-th inspection; an inspection the runtime does not answer fails. */
  function ProbeAt(probes: seq<Probe>, k: nat): Probe {
    if k < |probes| then probes[k] else InspectFails
  }

  const DefaultMaxAttempts: int := 30

  /** Some inspection among the first `maxAttempts` reports 'running'. */
  predicate BecomesRunning(probes: seq<Probe>, maxAttempts: int) {
    exists k :: 0 <= k < maxAttempts && ProbeAt(probes, k) == ReportsRunning
  }

  /** `waitForContainerHealth`: inspects at most `maxAttempts` times and
      answers true exactly when one of those inspections reported 'running'. */
  method WaitForContainerHealth(probes: seq<Probe>, maxAttempts: int) returns (healthy: bool, ghost inspections: nat)
    ensures healthy <==> BecomesRunning(probes, maxAttempts)
    ensures inspections <= (if maxAttempts < 0 then 0 else maxAttempts)
    ensures healthy ==> 1 <= inspections && ProbeAt(probes, inspections - 1) == ReportsRunning &&
                        forall k :: 0 <= k < inspections - 1 ==> ProbeAt(probes, k) != ReportsRunning
    ensures !healthy ==> inspections == (if maxAttempts < 0 then 0 else maxAttempts)
  {
    inspections := 0;
    var attempt := 1;
    while attempt <= maxAttempts
      invariant 1 <= attempt && (maxAttempts >= 0 ==> attempt <= maxAttempts + 1)
      invariant maxAttempts < 0 ==> attempt == 1
      invariant inspections == attempt - 1
      invariant forall k :: 0 <= k < attempt - 1 ==> ProbeAt(probes, k) != ReportsRunning
    {
      var probe := ProbeAt(probes, attempt - 1);
      inspections := inspections + 1;
      if probe == InspectFails {
        if attempt == maxAttempts {
          return false, inspections;
        }
      } else if probe == ReportsRunning {
        return true, inspections;
      }
      attempt := attempt + 1;
    }
    return false, inspections;
  }

  // ---------------------------------------------------------------------------
  // Container configurations and creation requests
  // ---------------------------------------------------------------------------

  datatype ServiceType = FRONTEND | BACKEND | DB

  /** The value of a container configuration, as the challenge catalog stores it. */
  datatype ConfigValue = ConfigValue(
    name: string,
    image: string,
    kind: ServiceType,
    internalPort: int,
    exposed: bool,
    exposedPort: Option<int>,
    env: map<string, string>,
    labels: map<string, string>,
    networkMode: string)

  /** The environment variables the launcher sets. */
  const PortKey: string := "PORT"
  const BackendHostKey: string := "BACKEND_HOST"
  const BackendPortKey: string := "BACKEND_PORT"

  /** A container configuration object; the launcher rewrites its fields in place. */
  class ContainerConfig {
    var name: string
    var image: string
    var kind: ServiceType
    var internalPort: int
    var exposed: bool
    var exposedPort: Option<int>
    var env: map<string, string>
    var labels: map<string, string>
    var networkMode: string

    constructor (v: ConfigValue)
      ensures Value() == v
    {
      name, image, kind, internalPort := v.name, v.image, v.kind, v.internalPort;
      exposed, exposedPort, env, labels, networkMode := v.exposed, v.exposedPort, v.env, v.labels, v.networkMode;
    }

    function Value(): ConfigValue
      reads this
    {
      ConfigValue(name, image, kind, internalPort, exposed, exposedPort, env, labels, networkMode)
    }

    /** The launcher's rewrite of the backend configuration. */
    method WireAsBackend(instanceId: string, newLabels: map<string, string>)
      modifies this
      ensures Value() == BackendWired(old(Value()), instanceId, newLabels)
    {
      exposed := false;
      name := Suffixed(name, instanceId);
      labels := newLabels;
      env := env[PortKey := IntToString(internalPort)];
    }

    /** The launcher's rewrite of the frontend configuration. */
    method WireAsFrontend(instanceId: string, backendName: string, backendPort: int, hostPort: int,
                          newLabels: map<string, string>)
      modifies this
      ensures Value() == FrontendWired(old(Value()), instanceId, backendName, backendPort, hostPort, newLabels)
    {
      name := Suffixed(name, instanceId);
      env := env[BackendHostKey := backendName][BackendPortKey := IntToString(backendPort)];
      exposedPort := Some(hostPort);
      labels := newLabels;
    }
  }

  /** The backend after wiring: unique name, never exposed, the instance's
      labels, and PORT set to its own internal port; nothing else changes. */
  function BackendWired(c: ConfigValue, instanceId: string, newLabels: map<string, string>): ConfigValue {
    c.(name := Suffixed(c.name, instanceId), exposed := false, labels := newLabels,
       env := c.env[PortKey := IntToString(c.internalPort)])
  }

  lemma BackendWiredSpec(c: ConfigValue, instanceId: string, newLabels: map<string, string>)
    ensures var w := BackendWired(c, instanceId, newLabels);
            && w.name == Suffixed(c.name, instanceId) && !w.exposed && w.labels == newLabels
            && w.env.Keys == c.env.Keys + {PortKey} && w.env[PortKey] == IntToString(c.internalPort)
            && (forall k :: k in c.env && k != PortKey ==> w.env[k] == c.env[k])
            && w.kind == c.kind && w.image == c.image && w.internalPort == c.internalPort
            && w.exposedPort == c.exposedPort && w.networkMode == c.networkMode
            && !Exposes(w)
  {
  }

  /** The frontend after wiring: unique name, BACKEND_HOST and BACKEND_PORT
      pointing at the backend container, the chosen host port, the same labels;
      its `exposed` flag is left as the catalog has it. */
  function FrontendWired(c: ConfigValue, instanceId: string, backendName: string, backendPort: int,
                         hostPort: int, newLabels: map<string, string>): ConfigValue {
    c.(name := Suffixed(c.name, instanceId), exposedPort := Some(hostPort), labels := newLabels,
       env := c.env[BackendHostKey := backendName][BackendPortKey := IntToString(backendPort)])
  }

  lemma FrontendWiredSpec(c: ConfigValue, instanceId: string, backendName: string, backendPort: int,
                          hostPort: int, newLabels: map<string, string>)
    ensures var w := FrontendWired(c, instanceId, backendName, backendPort, hostPort, newLabels);
            && w.name == Suffixed(c.name, instanceId) && w.labels == newLabels && w.exposedPort == Some(hostPort)
            && w.env.Keys == c.env.Keys + {BackendHostKey, BackendPortKey}
            && w.env[BackendHostKey] == backendName && w.env[BackendPortKey] == IntToString(backendPort)
            && (forall k :: k in c.env && k != BackendHostKey && k != BackendPortKey ==> w.env[k] == c.env[k])
            && w.kind == c.kind && w.image == c.image && w.internalPort == c.internalPort
            && w.exposed == c.exposed && w.networkMode == c.networkMode
            && (hostPort != 0 ==> (Exposes(w) <==> c.exposed))
  {
  }

  /** `config.exposed && config.exposedPort`: a port of 0 or none is falsy. */
  predicate Exposes(c: ConfigValue) {
    c.exposed && c.exposedPort.Some? && c.exposedPort.value != 0
  }

  const MemoryLimit: int := 512 * 1024 * 1024
  const NanoCpusLimit: int := 256000000
  const LoopbackHost: string := "127.0.0.1"

  datatype PortBinding = PortBinding(containerPort: int, hostIp: string, hostPort: int)

  /** The options passed to the runtime's `createContainer`. */
  datatype CreateRequest = CreateRequest(
    image: string,
    name: string,
    autoRemove: bool,
    memory: int,
    memorySwap: int,
    nanoCpus: int,
    networkMode: string,
    portBinding: Option<PortBinding>,
    exposedContainerPort: int,
    env: map<string, string>,
    labels: map<string, string>)

  function BuildCreateRequest(c: ConfigValue): CreateRequest {
    CreateRequest(c.image, c.name, true, MemoryLimit, MemoryLimit, NanoCpusLimit, c.networkMode,
                  if Exposes(c) then Some(PortBinding(c.internalPort, LoopbackHost, c.exposedPort.value)) else None,
                  c.internalPort, c.env, c.labels)
  }

  lemma CreateRequestSpec(c: ConfigValue)
    ensures var r := BuildCreateRequest(c);
            // a host port is bound only for an exposed container with a truthy port,
            // and then only on the loopback interface, to the container's internal port
            && (r.portBinding.Some? <==> Exposes(c))
            && (r.portBinding.Some? ==>
                  r.portBinding.value == PortBinding(c.internalPort, LoopbackHost, c.exposedPort.value))
            // fixed resource caps and auto-removal, whatever the configuration says
            && r.autoRemove && r.memory == MemoryLimit && r.memorySwap == MemoryLimit && r.nanoCpus == NanoCpusLimit
            && r.name == c.name && r.image == c.image && r.networkMode == c.networkMode
            && r.exposedContainerPort == c.internalPort && r.env == c.env && r.labels == c.labels
  {
  }

  /** The deployment settings the url is built from. */
  datatype ServerEnv = ServerEnv(production: bool, serverHost: string)

  /** What `createChallengeContainer` reports for a started container. */
  datatype ContainerInstance = ContainerInstance(name: string, url: Option<string>, port: Option<int>, internalPort: int)

  function ContainerUrl(c: ConfigValue, env: ServerEnv): Option<string> {
    if Exposes(c) then
      Some((if env.production then "https" else "http") + "://" + env.serverHost + ":" + IntToString(c.exposedPort.value))
    else None
  }

  /** A started container has a url exactly when it is exposed, and a url is
      never the empty (falsy) string. */
  lemma ContainerUrlSpec(c: ConfigValue, env: ServerEnv)
    ensures ContainerUrl(c, env).Some? <==> Exposes(c)
    ensures ContainerUrl(c, env).Some? ==> ContainerUrl(c, env).value != ""
  {
  }

  function Started(c: ConfigValue, env: ServerEnv): ContainerInstance {
    ContainerInstance(c.name, ContainerUrl(c, env), c.exposedPort, c.internalPort)
  }

  // ---------------------------------------------------------------------------
  // The container runtime
  // ---------------------------------------------------------------------------

  /** One id or a list of ids, as `stopContainers` accepts. */
  datatype IdOrIds = OneId(id: string) | ManyIds(ids: seq<string>)

  function Ids(x: IdOrIds): seq<string> {
    match x
    case OneId(id) => [id]
    case ManyIds(ids) => ids
  }

  /** The daemon errors (status 5xx) logged while stopping `ids`, in order. */
  function DaemonErrors(faults: map<string, int>, ids: seq<string>): seq<(string, int)>
    decreases |ids|
  {
    if ids == [] then []
    else
      var last := ids[|ids| - 1];
      DaemonErrors(faults, ids[..|ids| - 1]) + (if last in faults && faults[last] >= 500 then [(last, faults[last])] else [])
  }

  /** The names a stop of `ids` really takes out of the running set. */
  function Stoppable(faults: map<string, int>, ids: seq<string>): set<string> {
    set id | id in ids && id !in faults
  }

  /** The message of the error `createChallengeContainer` reports. */
  const ContainerErrorMessage: string := "containerError"

  /** The container runtime, seen through the requests it receives.
      `stopFaults` is the environment: stopping one of its names answers that
      error status and leaves the container as it was. */
  class DockerHost {
    var running: set<string>
    var createRequests: seq<CreateRequest>
    var stopRequests: seq<string>
    var daemonErrors: seq<(string, int)>
    const stopFaults: map<string, int>

    constructor (initiallyRunning: set<string>, faults: map<string, int>)
      ensures running == initiallyRunning && stopFaults == faults
      ensures createRequests == [] && stopRequests == [] && daemonErrors == []
    {
      running := initiallyRunning;
      stopFaults := faults;
      createRequests, stopRequests, daemonErrors := [], [], [];
    }

    /** `createChallengeContainer`: the runtime creates and starts the
        container when `starts` holds; otherwise an AppError comes back. */
    method CreateChallengeContainer(config: ConfigValue, starts: bool, thrownIsError: bool, env: ServerEnv)
      returns (r: Result<ContainerInstance, AppError>)
      modifies this
      ensures createRequests == old(createRequests) + [BuildCreateRequest(config)]
      ensures stopRequests == old(stopRequests) && daemonErrors == old(daemonErrors)
      ensures r.Success? <==> starts
      ensures starts ==> running == old(running) + {config.name} && r.value == Started(config, env)
      // a thrown `Error` is spread, which copies no `name` (it lives on the
      // prototype); any other thrown value is reported as INTERNAL_ERROR
      ensures !starts ==> && running == old(running)
                          && r.error.message == Some(ContainerErrorMessage)
                          && r.error.statusNumber == Some(INTERNAL_SERVER_ERROR)
                          && (r.error.name.None? <==> thrownIsError)
                          && (!thrownIsError ==> r.error.name == Some(INTERNAL_ERROR))
    {
      createRequests := createRequests + [BuildCreateRequest(config)];
      if starts {
        running := running + {config.name};
        r := Success(Started(config, env));
      } else {
        r := Failure(AppError(if thrownIsError then None else Some(INTERNAL_ERROR), Some(ContainerErrorMessage),
                              Some(INTERNAL_SERVER_ERROR)));
      }
    }

    /** The callback run for one id: a stop request; a refused stop leaves the
        container as it was and is logged when it is a daemon (5xx) error. */
    method StopOne(id: string)
      modifies this
      ensures stopRequests == old(stopRequests) + [id]
      ensures running == old(running) - Stoppable(stopFaults, [id])
      ensures daemonErrors == old(daemonErrors) + DaemonErrors(stopFaults, [id])
      ensures createRequests == old(createRequests)
    {
      stopRequests := stopRequests + [id];
      if id in stopFaults {
        if stopFaults[id] >= 500 {
          daemonErrors := daemonErrors + [(id, stopFaults[id])];
        }
      } else if id in running {
        running := running - {id};
      }
      assert Stoppable(stopFaults, [id]) == if id in stopFaults then {} else {id};
    }

    /** `stopContainers`: one stop request per id, in order; no request at all
        for an empty list; a container that is already gone (404) or a failed
        stop is swallowed, and 5xx answers are logged. It never fails. */
    method StopContainers(containersId: IdOrIds)
      modifies this
      ensures stopRequests == old(stopRequests) + Ids(containersId)
      ensures running == old(running) - Stoppable(stopFaults, Ids(containersId))
      ensures daemonErrors == old(daemonErrors) + DaemonErrors(stopFaults, Ids(containersId))
      ensures createRequests == old(createRequests)
      ensures Ids(containersId) == [] ==> unchanged(this)
    {
      var ids := Ids(containersId);
      if |ids| == 0 {
        return;
      }
      for i := 0 to |ids|
        invariant stopRequests == old(stopRequests) + ids[..i]
        invariant running == old(running) - Stoppable(stopFaults, ids[..i])
        invariant daemonErrors == old(daemonErrors) + DaemonErrors(stopFaults, ids[..i])
        invariant createRequests == old(createRequests)
      {
        StopOne(ids[i]);
        StopPrefix(stopFaults, ids, i);
      }
      assert ids[..|ids|] == ids;
    }
  }

  /** Stopping the first `i + 1` ids is stopping the first `i`, then id `i`. */
  lemma StopPrefix(faults: map<string, int>, ids: seq<string>, i: nat)
    requires i < |ids|
    ensures ids[..i + 1] == ids[..i] + [ids[i]]
    ensures Stoppable(faults, ids[..i + 1]) == Stoppable(faults, ids[..i]) + Stoppable(faults, [ids[i]])
    ensures DaemonErrors(faults, ids[..i + 1]) == DaemonErrors(faults, ids[..i]) + DaemonErrors(faults, [ids[i]])
  {
    assert ids[..i + 1][..i] == ids[..i];
  }

  /** Stopping `a` then `b` is stopping `a + b`. */
  lemma {:induction false} StopAppend(faults: map<string, int>, a: seq<string>, b: seq<string>)
    ensures Stoppable(faults, a + b) == Stoppable(faults, a) + Stoppable(faults, b)
    ensures DaemonErrors(faults, a + b) == DaemonErrors(faults, a) + DaemonErrors(faults, b)
    decreases |b|
  {
    if b == [] {
      assert a + b == a;
    } else {
      var last := b[|b| - 1];
      StopAppend(faults, a, b[..|b| - 1]);
      assert (a + b)[..|a + b| - 1] == a + b[..|b| - 1];
    }
  }

  /** The daemon errors logged are exactly the refused stops with a 5xx status. */
  lemma {:induction false} DaemonErrorsExactly(faults: map<string, int>, ids: seq<string>, x: (string, int))
    ensures x in DaemonErrors(faults, ids) <==> x.0 in ids && x.0 in faults && faults[x.0] >= 500 && x.1 == faults[x.0]
    decreases |ids|
  {
    if ids != [] {
      DaemonErrorsExactly(faults, ids[..|ids| - 1], x);
      assert ids == ids[..|ids| - 1] + [ids[|ids| - 1]];
    }
  }

  // ---------------------------------------------------------------------------
  // The launcher
  // ---------------------------------------------------------------------------

  /** The labels put on every container of an instance. */
  const ExpiresAtLabel: string := "expiresAt"
  const ChallengeLabel: string := "ctf_challenge"
  const UserLabel: string := "ctf_user"

  /** The launcher's error messages. */
  const BackendConfigMissing: string := "backend container config not found"
  const FrontendConfigMissing: string := "frontend container config not found"
  const BackendNotInitialized: string := "backend not initialized"
  const BackendUnhealthy: string := "backend health check not passed"
  const FrontendNotInitialized: string := "frontend not initialized"
  const FrontendUnhealthy: string := "frontend health check not passed"

  /** What the runtime does during one launch: whether each container starts,
      whether a failed start throws an `Error` (or some other value), and
      what each of its inspections reports. */
  datatype LaunchOutcomes = LaunchOutcomes(
    backendStarts: bool,
    backendThrowsError: bool,
    backendProbes: seq<Probe>,
    frontendStarts: bool,
    frontendThrowsError: bool,
    frontendProbes: seq<Probe>)

  /** The label map put, identical, on both containers. */
  function InstanceLabels(expiredAt: int, ctfId: string, userId: string): (labels: map<string, string>)
    ensures labels.Keys == {ExpiresAtLabel, ChallengeLabel, UserLabel}
    ensures labels[ExpiresAtLabel] == IntToString(expiredAt)
    ensures labels[ChallengeLabel] == ctfId && labels[UserLabel] == userId
  {
    map[ExpiresAtLabel := IntToString(expiredAt), ChallengeLabel := ctfId, UserLabel := userId]
  }

  /** A container name made unique to one instance. */
  function Suffixed(name: string, instanceId: string): (s: string)
    ensures |s| == |name| + 1 + |instanceId| && s[..|name|] == name && s[|name|] == '_'
  {
    name + "_" + instanceId
  }

  /** The success condition of the launcher, step by step. */
  predicate LaunchSucceeds(containers: seq<ConfigValue>, outcomes: LaunchOutcomes) {
    && |containers| >= 2 && containers[0].kind == BACKEND && containers[1].kind == FRONTEND
    && outcomes.backendStarts && BecomesRunning(outcomes.backendProbes, DefaultMaxAttempts)
    && outcomes.frontendStarts && BecomesRunning(outcomes.frontendProbes, DefaultMaxAttempts)
  }

  /** Everything one launch does, on values: the reply, the configurations
      afterwards, the create and stop requests it issues (in order), and the
      names of the containers that came up. */
  datatype LaunchEffect = LaunchEffect(
    result: Result<seq<ContainerInstance>, AppError>,
    configs: seq<ConfigValue>,
    created: seq<CreateRequest>,
    stopped: seq<string>,
    started: set<string>)

  /** What starting one container does: its configuration after wiring, the
      create request, the stops issued if it fails, and whether it came up. */
  datatype StageEffect = StageEffect(
    result: Result<ContainerInstance, AppError>,
    wired: ConfigValue,
    created: CreateRequest,
    stopped: seq<string>,
    started: set<string>)

  /** Create and poll an already wired container; on failure stop `toStop`. */
  function StartStage(w: ConfigValue, starts: bool, probes: seq<Probe>, toStop: seq<string>,
                      notInitialized: string, notHealthy: string, env: ServerEnv): (s: StageEffect)
    ensures s.wired == w && s.created == BuildCreateRequest(w)
    ensures s.result.Success? <==> starts && BecomesRunning(probes, DefaultMaxAttempts)
    // a container that came up and passed is kept; anything else stops `toStop`
    ensures s.result.Success? ==> s.stopped == [] && s.started == {w.name} && s.result.value == Started(w, env)
    ensures s.result.Failure? ==> s.stopped == toStop && s.started <= {w.name}
  {
    var req := BuildCreateRequest(w);
    if !starts then
      StageEffect(Failure(Err(DOCKER_ERROR, notInitialized, INTERNAL_SERVER_ERROR)), w, req, toStop, {})
    else if !BecomesRunning(probes, DefaultMaxAttempts) then
      StageEffect(Failure(Err(DOCKER_ERROR, notHealthy, INTERNAL_SERVER_ERROR)), w, req, toStop, {w.name})
    else
      StageEffect(Success(Started(w, env)), w, req, [], {w.name})
  }

  /** The backend stage: on failure only the backend is stopped. */
  function BackendStage(c: ConfigValue, instanceId: string, labels: map<string, string>,
                        outcomes: LaunchOutcomes, env: ServerEnv): StageEffect
  {
    var b := BackendWired(c, instanceId, labels);
    StartStage(b, outcomes.backendStarts, outcomes.backendProbes, [b.name],
               BackendNotInitialized, BackendUnhealthy, env)
  }

  /** The frontend stage: on failure the backend and the frontend are stopped. */
  function FrontendStage(c: ConfigValue, instanceId: string, backendName: string, backendPort: int, validPort: int,
                         labels: map<string, string>, outcomes: LaunchOutcomes, env: ServerEnv): StageEffect
  {
    var f := FrontendWired(c, instanceId, backendName, backendPort, validPort, labels);
    StartStage(f, outcomes.frontendStarts, outcomes.frontendProbes, [backendName, f.name],
               FrontendNotInitialized, FrontendUnhealthy, env)
  }

  /** The rest of a launch once the backend is up and healthy: `cs` holds
      the wired backend first; the frontend's kind is checked only now. */
  function AfterBackend(cs: seq<ConfigValue>, backend: ContainerInstance, validPort: int, instanceId: string,
                        labels: map<string, string>, outcomes: LaunchOutcomes, env: ServerEnv): (e: LaunchEffect)
    requires |cs| > 0
    ensures |e.configs| == |cs|
  {
    if |cs| < 2 || cs[1].kind != FRONTEND then
      LaunchEffect(Failure(Err(DATABASE_ERROR, FrontendConfigMissing, INTERNAL_SERVER_ERROR)), cs, [], [cs[0].name], {})
    else
      var s2 := FrontendStage(cs[1], instanceId, cs[0].name, cs[0].internalPort, validPort, labels, outcomes, env);
      var result := if s2.result.Failure? then Failure(s2.result.error) else Success([s2.result.value, backend]);
      LaunchEffect(result, cs[1 := s2.wired], [s2.created], s2.stopped, s2.started)
  }

  /** The launch as the source performs it: the backend is validated and
      wired first, created and polled; only then is the frontend validated,
      wired to the backend and to the host port, created and polled. A failure
      at any step stops every container created so far. */
  function Launch(cs: seq<ConfigValue>, userId: string, validPort: int, ctfId: string, ctfInstanceId: string,
                  expiredAt: int, outcomes: LaunchOutcomes, env: ServerEnv): (e: LaunchEffect)
    ensures |e.configs| == |cs|
  {
    if |cs| == 0 || cs[0].kind != BACKEND then
      LaunchEffect(Failure(Err(DATABASE_ERROR, BackendConfigMissing, INTERNAL_SERVER_ERROR)), cs, [], [], {})
    else
      FromBackend(cs, validPort, ctfInstanceId, InstanceLabels(expiredAt, ctfId, userId), outcomes, env)
  }

  /** The launch once a BACKEND configuration comes first: the backend
      stage, then the rest if it became healthy. */
  function FromBackend(cs: seq<ConfigValue>, validPort: int, ctfInstanceId: string, labels: map<string, string>,
                       outcomes: LaunchOutcomes, env: ServerEnv): (e: LaunchEffect)
    requires |cs| > 0
    ensures |e.configs| == |cs|
  {
    var s1 := BackendStage(cs[0], ctfInstanceId, labels, outcomes, env);
    if s1.result.Failure? then
      LaunchEffect(Failure(s1.result.error), cs[0 := s1.wired], [s1.created], s1.stopped, s1.started)
    else
      var rest := AfterBackend(cs[0 := s1.wired], s1.result.value, validPort, ctfInstanceId, labels, outcomes, env);
      LaunchEffect(rest.result, rest.configs, [s1.created] + rest.created, rest.stopped, s1.started + rest.started)
  }

  // Properties of one launch, one lemma each.

  /** Success exactly when both configurations are of the right kind and both
      containers start and pass their health checks; every failure is a 500. */
  lemma LaunchSuccessIff(cs: seq<ConfigValue>, userId: string, validPort: int, ctfId: string, ctfInstanceId: string,
                         expiredAt: int, outcomes: LaunchOutcomes, env: ServerEnv)
    ensures var e := Launch(cs, userId, validPort, ctfId, ctfInstanceId, expiredAt, outcomes, env);
            && (e.result.Success? <==> LaunchSucceeds(cs, outcomes))
            && (e.result.Failure? ==> e.result.error.statusNumber == Some(INTERNAL_SERVER_ERROR))
  {
  }

  /** Without a BACKEND configuration first, nothing is rewritten, created or stopped. */
  lemma LaunchWithoutBackendTouchesNothing(cs: seq<ConfigValue>, userId: string, validPort: int, ctfId: string,
                                           ctfInstanceId: string, expiredAt: int, outcomes: LaunchOutcomes,
                                           env: ServerEnv)
    requires |cs| == 0 || cs[0].kind != BACKEND
    ensures Launch(cs, userId, validPort, ctfId, ctfInstanceId, expiredAt, outcomes, env) ==
            LaunchEffect(Failure(Err(DATABASE_ERROR, BackendConfigMissing, INTERNAL_SERVER_ERROR)),
                         cs, [], [], {})
  {
  }

  /** With a BACKEND configuration first, the backend is wired and its
      creation is the first request, whatever comes after; the frontend's kind
      is looked at only once the backend is healthy. */
  lemma LaunchCreatesBackendFirst(cs: seq<ConfigValue>, userId: string, validPort: int, ctfId: string,
                                  ctfInstanceId: string, expiredAt: int, outcomes: LaunchOutcomes, env: ServerEnv)
    requires |cs| > 0 && cs[0].kind == BACKEND
    ensures var e := Launch(cs, userId, validPort, ctfId, ctfInstanceId, expiredAt, outcomes, env);
            && e.configs[0] == BackendWired(cs[0], ctfInstanceId, InstanceLabels(expiredAt, ctfId, userId))
            && |e.created| > 0 && e.created[0] == BuildCreateRequest(e.configs[0])
            && (|cs| < 2 || cs[1].kind != FRONTEND ==>
                  outcomes.backendStarts && BecomesRunning(outcomes.backendProbes, DefaultMaxAttempts) ==>
                    e.result == Failure(Err(DATABASE_ERROR, FrontendConfigMissing, INTERNAL_SERVER_ERROR))
                    && e.created == [BuildCreateRequest(e.configs[0])] && e.stopped == [e.configs[0].name])
  {
  }

  /** Only the first two configurations are ever rewritten. */
  lemma LaunchTouchesOnlyFirstTwo(cs: seq<ConfigValue>, userId: string, validPort: int, ctfId: string,
                                  ctfInstanceId: string, expiredAt: int, outcomes: LaunchOutcomes, env: ServerEnv)
    ensures var e := Launch(cs, userId, validPort, ctfId, ctfInstanceId, expiredAt, outcomes, env);
            forall i :: 2 <= i < |cs| ==> e.configs[i] == cs[i]
  {
  }

  /** On success the frontend is wired to the backend (host = the backend's
      unique name, port = its internal port) and to the chosen host port;
      both containers are up, nothing is stopped, and [frontend, backend] is
      returned, the backend without a url. */
  lemma LaunchSuccessShape(cs: seq<ConfigValue>, userId: string, validPort: int, ctfId: string,
                           ctfInstanceId: string, expiredAt: int, outcomes: LaunchOutcomes, env: ServerEnv)
    requires LaunchSucceeds(cs, outcomes)
    ensures var e := Launch(cs, userId, validPort, ctfId, ctfInstanceId, expiredAt, outcomes, env);
            && e.configs[1] == FrontendWired(cs[1], ctfInstanceId, e.configs[0].name, cs[0].internalPort,
                                             validPort, InstanceLabels(expiredAt, ctfId, userId))
            && e.created == [BuildCreateRequest(e.configs[0]), BuildCreateRequest(e.configs[1])]
            && e.stopped == [] && e.started == {e.configs[0].name, e.configs[1].name}
            && e.result == Success([Started(e.configs[1], env), Started(e.configs[0], env)])
            && e.result.value[1].url.None?
  {
    BackendWiredSpec(cs[0], ctfInstanceId, InstanceLabels(expiredAt, ctfId, userId));
  }

  /** A failed launch sends a stop to every container it asked for, and to
      every container that came up. */
  lemma LaunchFailureStopsWhatItCreated(cs: seq<ConfigValue>, userId: string, validPort: int, ctfId: string,
                                        ctfInstanceId: string, expiredAt: int, outcomes: LaunchOutcomes,
                                        env: ServerEnv)
    ensures var e := Launch(cs, userId, validPort, ctfId, ctfInstanceId, expiredAt, outcomes, env);
            e.result.Failure? ==>
              && |e.created| <= 2
              && (forall k :: 0 <= k < |e.created| ==> e.created[k].name in e.stopped)
              && (forall n :: n in e.started ==> n in e.stopped)
  {
  }

  /** A failed launch leaves no container of its own running: whatever is
      running afterwards was running before, or refused its stop. */
  lemma FailedLaunchLeavesNoOrphans(cs: seq<ConfigValue>, userId: string, validPort: int, ctfId: string,
                                    ctfInstanceId: string, expiredAt: int, outcomes: LaunchOutcomes, env: ServerEnv,
                                    running: set<string>, faults: map<string, int>)
    ensures var e := Launch(cs, userId, validPort, ctfId, ctfInstanceId, expiredAt, outcomes, env);
            e.result.Failure? ==> (running + e.started) - Stoppable(faults, e.stopped) <= running + faults.Keys
  {
    LaunchFailureStopsWhatItCreated(cs, userId, validPort, ctfId, ctfInstanceId, expiredAt, outcomes, env);
  }

  /** The values of the first two configuration objects: all the launcher
      ever looks at. */
  function FirstTwo(containers: seq<ContainerConfig>): (vs: seq<ConfigValue>)
    reads if |containers| > 0 then {containers[0]} else {}, if |containers| > 1 then {containers[1]} else {}
  {
    if |containers| == 0 then []
    else if |containers| == 1 then [containers[0].Value()]
    else [containers[0].Value(), containers[1].Value()]
  }

  /** Create a wired container and poll it; on failure stop `toStop`. The
      launcher does this once for the backend and once for the frontend. */
  method StartChecked(docker: DockerHost, w: ConfigValue, starts: bool, thrownIsError: bool, probes: seq<Probe>,
                      toStop: seq<string>, notInitialized: string, notHealthy: string, env: ServerEnv)
    returns (r: Result<ContainerInstance, AppError>)
    modifies docker
    ensures var s := StartStage(w, starts, probes, toStop, notInitialized, notHealthy, env);
            && r == s.result
            && docker.createRequests == old(docker.createRequests) + [s.created]
            && docker.stopRequests == old(docker.stopRequests) + s.stopped
            && docker.running == (old(docker.running) + s.started) - Stoppable(docker.stopFaults, s.stopped)
            && docker.daemonErrors == old(docker.daemonErrors) + DaemonErrors(docker.stopFaults, s.stopped)
    ensures r.Success? ==> && docker.stopRequests == old(docker.stopRequests)
                           && docker.daemonErrors == old(docker.daemonErrors)
                           && docker.running == old(docker.running) + {w.name}
  {
    r := docker.CreateChallengeContainer(w, starts, thrownIsError, env);
    if r.Failure? {
      docker.StopContainers(ManyIds(toStop));
      return Failure(Err(DOCKER_ERROR, notInitialized, INTERNAL_SERVER_ERROR));
    }
    var healthy, _ := WaitForContainerHealth(probes, DefaultMaxAttempts);
    if !healthy {
      docker.StopContainers(ManyIds(toStop));
      return Failure(Err(DOCKER_ERROR, notHealthy, INTERNAL_SERVER_ERROR));
    }
  }

  /** backend/src/utils/dockerUtils.ts:330-371, proved against `BackendStage`. */
  method LaunchBackend(docker: DockerHost, containers: seq<ContainerConfig>, instanceId: string,
                       labels: map<string, string>, outcomes: LaunchOutcomes, env: ServerEnv)
    returns (r: Result<ContainerInstance, AppError>)
    requires |containers| > 0 && (|containers| >= 2 ==> containers[0] != containers[1])
    modifies docker, containers[0]
    ensures var s := BackendStage(old(containers[0].Value()), instanceId, labels, outcomes, env);
            && r == s.result
            && FirstTwo(containers) == old(FirstTwo(containers))[0 := s.wired]
            && docker.createRequests == old(docker.createRequests) + [s.created]
            && docker.stopRequests == old(docker.stopRequests) + s.stopped
            && docker.running == (old(docker.running) + s.started) - Stoppable(docker.stopFaults, s.stopped)
            && docker.daemonErrors == old(docker.daemonErrors) + DaemonErrors(docker.stopFaults, s.stopped)
    ensures r.Success? ==> && docker.stopRequests == old(docker.stopRequests)
                           && docker.daemonErrors == old(docker.daemonErrors)
                           && docker.running == old(docker.running) + {containers[0].name}
  {
    var backend := containers[0];
    backend.WireAsBackend(instanceId, labels);
    r := StartChecked(docker, backend.Value(), outcomes.backendStarts, outcomes.backendThrowsError,
                      outcomes.backendProbes, [backend.name], BackendNotInitialized, BackendUnhealthy, env);
  }

  /** backend/src/utils/dockerUtils.ts:391-449, proved against `FrontendStage`. */
  method LaunchFrontend(docker: DockerHost, frontend: ContainerConfig, backendName: string, backendPort: int,
                        validPort: int, instanceId: string, labels: map<string, string>,
                        outcomes: LaunchOutcomes, env: ServerEnv)
    returns (r: Result<ContainerInstance, AppError>)
    modifies docker, frontend
    ensures var s := FrontendStage(old(frontend.Value()), instanceId, backendName, backendPort, validPort,
                                   labels, outcomes, env);
            && r == s.result
            && frontend.Value() == s.wired
            && docker.createRequests == old(docker.createRequests) + [s.created]
            && docker.stopRequests == old(docker.stopRequests) + s.stopped
            && docker.running == (old(docker.running) + s.started) - Stoppable(docker.stopFaults, s.stopped)
            && docker.daemonErrors == old(docker.daemonErrors) + DaemonErrors(docker.stopFaults, s.stopped)
  {
    frontend.WireAsFrontend(instanceId, backendName, backendPort, validPort, labels);
    r := StartChecked(docker, frontend.Value(), outcomes.frontendStarts, outcomes.frontendThrowsError,
                      outcomes.frontendProbes, [backendName, frontend.name], FrontendNotInitialized,
                      FrontendUnhealthy, env);
  }

  /** backend/src/utils/dockerUtils.ts:373-455, proved against `AfterBackend`. */
  method LaunchAfterBackend(docker: DockerHost, containers: seq<ContainerConfig>, backend: ContainerInstance,
                            validPort: int, instanceId: string, labels: map<string, string>,
                            outcomes: LaunchOutcomes, env: ServerEnv)
    returns (r: Result<seq<ContainerInstance>, AppError>)
    requires |containers| > 0 && (|containers| >= 2 ==> containers[0] != containers[1])
    modifies docker, containers
    ensures var e := AfterBackend(old(FirstTwo(containers)), backend, validPort, instanceId, labels, outcomes, env);
            && r == e.result
            && FirstTwo(containers) == e.configs
            && docker.createRequests == old(docker.createRequests) + e.created
            && docker.stopRequests == old(docker.stopRequests) + e.stopped
            && docker.running == (old(docker.running) + e.started) - Stoppable(docker.stopFaults, e.stopped)
            && docker.daemonErrors == old(docker.daemonErrors) + DaemonErrors(docker.stopFaults, e.stopped)
  {
    if |containers| < 2 || containers[1].kind != FRONTEND {
      docker.StopContainers(ManyIds([containers[0].name]));
      return Failure(Err(DATABASE_ERROR, FrontendConfigMissing, INTERNAL_SERVER_ERROR));
    }
    var frontend := containers[1];
    var startedFrontend := LaunchFrontend(docker, frontend, containers[0].name, containers[0].internalPort,
                                          validPort, instanceId, labels, outcomes, env);
    if startedFrontend.Failure? {
      return Failure(startedFrontend.error);
    }
    return Success([startedFrontend.value, backend]);
  }

  lemma AppendAssoc<T>(a: seq<T>, b: seq<T>, c: seq<T>)
    ensures (a + b) + c == a + (b + c)
  {
  }

  /** `startInstanceWithoutDb`, proved against `Launch`: the configuration
      objects are rewritten in place and the runtime sees exactly the
      requests `Launch` lists. */
  method StartInstanceWithoutDb(docker: DockerHost, containers: seq<ContainerConfig>, userId: string,
                                validPort: int, ctfId: string, ctfInstanceId: string, expiredAt: int,
                                outcomes: LaunchOutcomes, env: ServerEnv)
    returns (r: Result<seq<ContainerInstance>, AppError>)
    requires |containers| >= 2 ==> containers[0] != containers[1]
    modifies docker, containers
    ensures var e := Launch(old(FirstTwo(containers)), userId, validPort, ctfId, ctfInstanceId, expiredAt, outcomes, env);
            && r == e.result
            && FirstTwo(containers) == e.configs
            && docker.createRequests == old(docker.createRequests) + e.created
            && docker.stopRequests == old(docker.stopRequests) + e.stopped
            && docker.running == (old(docker.running) + e.started) - Stoppable(docker.stopFaults, e.stopped)
            && docker.daemonErrors == old(docker.daemonErrors) + DaemonErrors(docker.stopFaults, e.stopped)
  {
    if |containers| == 0 || containers[0].kind != BACKEND {
      return Failure(Err(DATABASE_ERROR, BackendConfigMissing, INTERNAL_SERVER_ERROR));
    }
    r := LaunchFromBackend(docker, containers, validPort, ctfInstanceId, InstanceLabels(expiredAt, ctfId, userId),
                           outcomes, env);
  }

  /** backend/src/utils/dockerUtils.ts:330-455, proved against `FromBackend`. */
  method LaunchFromBackend(docker: DockerHost, containers: seq<ContainerConfig>, validPort: int, instanceId: string,
                           labels: map<string, string>, outcomes: LaunchOutcomes, env: ServerEnv)
    returns (r: Result<seq<ContainerInstance>, AppError>)
    requires |containers| > 0 && (|containers| >= 2 ==> containers[0] != containers[1])
    modifies docker, containers
    ensures var e := FromBackend(old(FirstTwo(containers)), validPort, instanceId, labels, outcomes, env);
            && r == e.result
            && FirstTwo(containers) == e.configs
            && docker.createRequests == old(docker.createRequests) + e.created
            && docker.stopRequests == old(docker.stopRequests) + e.stopped
            && docker.running == (old(docker.running) + e.started) - Stoppable(docker.stopFaults, e.stopped)
            && docker.daemonErrors == old(docker.daemonErrors) + DaemonErrors(docker.stopFaults, e.stopped)
  {
    var startedBackend := LaunchBackend(docker, containers, instanceId, labels, outcomes, env);
    if startedBackend.Failure? {
      return Failure(startedBackend.error);
    }
    ghost var created := docker.createRequests;
    r := LaunchAfterBackend(docker, containers, startedBackend.value, validPort, instanceId, labels, outcomes, env);
    AppendAssoc(old(docker.createRequests), created[|old(docker.createRequests)|..],
                docker.createRequests[|created|..]);
  }

}
