# CTF challenge-instance orchestrator — a Dafny model

This project models the part of the CTF platform's backend that gives each player a private, short-lived
copy of a challenge. A challenge is one backend container and one frontend container. The backend is
reachable only from the frontend. The frontend is published on a host port. It proves properties of
that model.

The model follows the source file by file:

- `instance_model.dfy` (module `InstanceModel`) is the instance document. It holds the lifecycle status
  enum, the container list, the default expiry two hours after creation, and the status strings the
  database stores.
- `docker_utils.dfy` (module `DockerUtils`) is the container layer of `backend/src/utils/dockerUtils.ts`:
  - the random host-port draw (`generateValidPorts`);
  - the container description wired as backend or frontend;
  - the container runtime, as a class `DockerHost` whose running set and request logs the operations update
    (`createChallengeContainer`, `stopContainers`);
  - the health poll;
  - the two-stage launch `startInstanceWithoutDb`.
  Each launch method is proved against a pure function of the runtime state (`Launch`, `StartStage`,
  `AfterBackend`).
- `ctf_controller.dfy` (module `CtfController`) is the controller of `backend/dist/controller/ctfController.js`.
  The instance collection, the id counter and the process-wide `portReservations` set are fields of class
  `Controller`, and the user documents are a `users` map. The operations are:
  - `createCtfInstance`, with its admission checks, reservation, launch, database update and rollback;
  - `stopCtfInstance`;
  - the expiry reaper `containersCleanUp`;
  - `ctfInstancePreparation`;
  - `isAppError`;
  - `submitFlag`.
  Each method is proved against a pure function over a `Store` value (`CreateCtf`, `SetUp`, `Reserve`,
  `Deploy`, `AfterLaunch`, `StopCtf`, `CleanUp`, `Submit`). The lemmas beside those functions state what
  the controller promises.
- `error_handler.dfy` (module `ErrorHandler`) is the Express error middleware
  (`backend/src/middlewares/errorHandler.ts`). `frontend_errors.dfy` (module `FrontendErrors`) is the
  frontend's `getErrorMessage` (`frontend/src/utils/errorHandler.ts`).
- `app_errors.dfy`, `text.dfy` and `wrappers.dfy` hold the shared error record, decimal rendering of
  numbers, and `Option`/`Result`.

Things the program cannot see or decide itself become parameters:

- the random numbers (`rolls`, each a real in [0, 1));
- the outcome of each container create, start and health poll;
- the clock (`now`);
- whether a database write fails (`saveFails`, `markFails`, `saveError`), and what the update of a launched record answers (`update`: the document, `null`, or a rejection);
- whether a failed container start throws an `Error` or some other value;
- the message a failed id cast produces (`castMessage`);
- the challenge's flag as stored (`ctfFlag`).

## Model

| member | source | states |
|---|---|---|
| InstanceModel.ParseStatus | backend/src/models/ctfInstanceModel.ts:26-33 | a string is read as a status only when it is one of the five enum strings, and then as the status it names |
| InstanceModel.ParseStatusName | backend/src/models/ctfInstanceModel.ts:26-33 | every status survives being stored as its string and read back |
| InstanceModel.NewInstance | backend/src/models/ctfInstanceModel.ts:4-49 | a fresh document is PENDING unless a valid status is given, and any other status string is refused; it has no containers and no URL, and it expires two hours after creation unless an expiry is given |
| InstanceModel.AbandonedPendingBecomesReapable | backend/src/models/ctfInstanceModel.ts:16-20 | a document left PENDING with the default expiry is not expired at the two-hour mark and is expired after it, so it is never stuck |
| DockerUtils.DrawInRange | backend/src/utils/dockerUtils.ts:41 | every draw lands in 3001..3999 and is never 3000 |
| DockerUtils.EveryPortDrawable | backend/src/utils/dockerUtils.ts:41 | every port 3001..3999 is produced by some random number in [0, 1) |
| DockerUtils.FirstFreeDrawSpec | backend/src/utils/dockerUtils.ts:36-47 | the result is the first of the 100 draws that is neither in use nor reserved; it is absent exactly when every draw collides |
| DockerUtils.GenerateValidPorts | backend/src/utils/dockerUtils.ts:36-47 | the retry loop returns the first free draw, or none after 100 tries |
| DockerUtils.WaitForContainerHealth | backend/src/utils/dockerUtils.ts:232-262 | the poll succeeds exactly when some poll within the attempt budget reports healthy, and fails otherwise |
| DockerUtils.ContainerConfig.WireAsBackend | backend/src/utils/dockerUtils.ts:330-343 | the backend config becomes its wired form: renamed with the instance id, given the instance labels and its internal port as `PORT`, and not exposed |
| DockerUtils.ContainerConfig.WireAsFrontend | backend/src/utils/dockerUtils.ts:391-412 | the frontend config becomes its wired form: renamed with the instance id, given the labels and the reserved host port, and pointed at the backend through `BACKEND_HOST` and `BACKEND_PORT` |
| DockerUtils.BackendWiredSpec | backend/src/utils/dockerUtils.ts:330-343 | the wired backend has the suffixed name, the new labels, `PORT` set to its internal port and no host port; image, kind, network, internal port and every other variable are kept |
| DockerUtils.FrontendWiredSpec | backend/src/utils/dockerUtils.ts:391-412 | the wired frontend has the suffixed name, the new labels, the host port and the backend's name and port as variables; image, kind, network, exposed flag and every other variable are kept |
| DockerUtils.CreateRequestSpec | backend/src/utils/dockerUtils.ts:106-136 | a host port is bound, on the loopback interface only, exactly for an exposed container with a non-zero port; memory, swap and CPU caps and auto-removal are fixed; name, image, network, variables and labels come from the config |
| DockerUtils.ContainerUrlSpec | backend/src/utils/dockerUtils.ts:143-147 | a started container has a URL exactly when it is exposed with a non-zero port, and that URL is never empty |
| DockerUtils.DockerHost.CreateChallengeContainer | backend/src/utils/dockerUtils.ts:102-173 | each create is logged; on success the container runs and its URL and port are returned; on failure nothing new runs and the error is "containerError" with status 500, without a name when an `Error` was thrown and named INTERNAL_ERROR otherwise |
| DockerUtils.DockerHost.StopOne | backend/src/utils/dockerUtils.ts:66-85 | a stop of one name is logged; the container stops running unless the daemon refuses, and only a refusal with a 5xx status is logged as a daemon error |
| DockerUtils.DockerHost.StopContainers | backend/src/utils/dockerUtils.ts:58-88 | every listed name gets a stop request, in order; each one the daemon does not refuse stops running, 5xx refusals are logged, and a refusal never aborts the rest |
| DockerUtils.StopPrefix | backend/src/utils/dockerUtils.ts:58-88 | stopping the first i+1 names is stopping the first i, then the next one |
| DockerUtils.StopAppend | backend/src/utils/dockerUtils.ts:58-88 | stopping `a + b` is stopping `a`, then `b` |
| DockerUtils.DaemonErrorsExactly | backend/src/utils/dockerUtils.ts:66-85 | the daemon errors logged are exactly the listed names whose stop is refused with a 5xx status, each with that status |
| DockerUtils.InstanceLabels | backend/src/utils/dockerUtils.ts:308-312 | the labels are exactly the expiry, the challenge and the owning user |
| DockerUtils.Suffixed | backend/src/utils/dockerUtils.ts:333 | the container name is the configured name, then `_`, then the instance id |
| DockerUtils.StartStage | backend/src/utils/dockerUtils.ts:346-371 | one stage creates one container and, when the create succeeded, polls its health; only a healthy container passes |
| DockerUtils.AfterBackend | backend/src/utils/dockerUtils.ts:373-455 | after a healthy backend, the frontend stage either returns both containers or stops what it created |
| DockerUtils.LaunchSuccessIff | backend/src/utils/dockerUtils.ts:299-456 | a launch succeeds exactly when a backend config and a frontend config come first and both containers are created and healthy; every failure carries status 500 |
| DockerUtils.LaunchWithoutBackendTouchesNothing | backend/src/utils/dockerUtils.ts:314-328 | without a backend config first, the launch fails with "backend container config not found" before any runtime request |
| DockerUtils.LaunchCreatesBackendFirst | backend/src/utils/dockerUtils.ts:330-389 | the first create request is the wired backend's; a healthy backend with no frontend config after it is stopped again and the launch fails |
| DockerUtils.LaunchTouchesOnlyFirstTwo | backend/src/utils/dockerUtils.ts:316-412 | only the first two configs are ever used |
| DockerUtils.LaunchSuccessShape | backend/src/utils/dockerUtils.ts:391-456 | a successful launch creates the backend then the frontend, stops nothing, leaves both running and returns the frontend then the backend, the backend without a URL |
| DockerUtils.LaunchFailureStopsWhatItCreated | backend/src/utils/dockerUtils.ts:349-449 | a failed launch sends a stop for every container it asked to create and for every container that came up |
| DockerUtils.FailedLaunchLeavesNoOrphans | backend/src/utils/dockerUtils.ts:349-449 | after a failed launch, every container it started has been stopped unless the daemon refused: what runs afterwards was running before or refused its stop |
| DockerUtils.StartChecked | backend/src/utils/dockerUtils.ts:346-371 | the create-then-poll method ends in the state `StartStage` describes |
| DockerUtils.LaunchBackend | backend/src/utils/dockerUtils.ts:330-371 | the backend stage leaves the runtime and result `StartStage` describes for the wired backend |
| DockerUtils.LaunchFrontend | backend/src/utils/dockerUtils.ts:391-449 | the frontend stage leaves the runtime and result `StartStage` describes for the wired frontend |
| DockerUtils.LaunchAfterBackend | backend/src/utils/dockerUtils.ts:373-455 | the method after a healthy backend ends as `AfterBackend` says |
| DockerUtils.StartInstanceWithoutDb | backend/src/utils/dockerUtils.ts:299-456 | the method's result and the runtime afterwards are those of `Launch` |
| DockerUtils.LaunchFromBackend | backend/src/utils/dockerUtils.ts:330-455 | the method from the backend stage onward ends as `Launch` says |
| CtfController.LaunchErrorNeverDetected | backend/dist/controller/ctfController.js:334-342 | no launcher result passes the `'status' in` test, so a failed launch is always handed on as if it had succeeded |
| CtfController.FirstUrlSpec | backend/dist/controller/ctfController.js:23 | the URL taken is that of the first container with a non-empty URL, and there is none only when no container has one |
| CtfController.Entries | backend/dist/controller/ctfController.js:37-42 | the stored container entries are the launched containers' names and ports, one each, in order |
| CtfController.CtfInstancePreparation | backend/dist/controller/ctfController.js:22-44 | when some container has a URL, the record is RUNNING with the first URL, the given expiry and the containers' names and ports; otherwise the reply is the "url not found" validation error with status 500 |
| CtfController.IsAppErrorExact | backend/dist/controller/ctfController.js:51-53 | `isAppError` tells a preparation error from a prepared record exactly |
| CtfController.LaunchedUrlIsFrontendUrl | backend/dist/controller/ctfController.js:344 | after a successful launch the URL recorded is the wired frontend's URL, present exactly when the frontend is exposed |
| CtfController.LiveOf | backend/dist/controller/ctfController.js:241-244 | the instance found is a PENDING or RUNNING instance of that user, for any challenge, and none is found only when the user has none |
| CtfController.Admit | backend/dist/controller/ctfController.js:204-270 | a solved challenge is a conflict, a missing one is not found, one without a site is a validation error, and a live instance of another challenge is a conflict; the user's RUNNING instance of this challenge is returned as it is, and a PENDING one is resumed |
| CtfController.NewPending | backend/dist/controller/ctfController.js:272-285 | a new record is what the schema builds: PENDING, owned by the caller, for that challenge, with no containers |
| CtfController.LiveOfIsStored | backend/dist/controller/ctfController.js:241-244 | the live instance found is a stored record |
| CtfController.AfterLaunchKeepsValid | backend/dist/controller/ctfController.js:357-389 | recording a launch keeps the store well-formed |
| CtfController.DeployKeepsValid | backend/dist/controller/ctfController.js:316-399 | every deploy outcome keeps the store well-formed |
| CtfController.ReserveKeepsValid | backend/dist/controller/ctfController.js:272-316 | reserving keeps the store well-formed and stores the record being deployed |
| CtfController.CreatePreservesValid | backend/dist/controller/ctfController.js:204-400 | every creation request keeps the store well-formed: each record stored under its own id below the id counter, and no user with two live instances |
| CtfController.AfterLaunchOutcome | backend/dist/controller/ctfController.js:332-389 | after a launch: the request throws, changing nothing, exactly when the launcher failed or the update of a launched record with a URL is rejected; a missing URL or an unmatched update deletes the record and releases the port; success needs a matched update and marks the record RUNNING with the first URL and the containers |
| CtfController.DeployFailure | backend/dist/controller/ctfController.js:316-399 | a failed deploy deletes the record and releases the port, except that a thrown error (a failed launch or a rejected update) and an unsupported count leave both in place |
| CtfController.DeploySuccess | backend/dist/controller/ctfController.js:329-389 | a successful deploy marks the record RUNNING for one hour with the frontend's URL and the two containers, releases the reservation and replies with the instance |
| CtfController.AfterLaunchStopsContainers | backend/dist/controller/ctfController.js:343-379 | when the reply is an error other than a missing URL or a rejected update, nothing the launch started is left running, unless the daemon refused the stop |
| CtfController.DeployFailureStopsContainers | backend/dist/controller/ctfController.js:329-379 | a failed creation leaves none of its containers running, unless the daemon refused the stop, except when the launch reported no URL or the update was rejected |
| CtfController.DeployUrlMissingKeepsContainers | backend/dist/controller/ctfController.js:344-356 | when the launch reports no URL, nothing is stopped and both created containers keep running |
| CtfController.DeployUpdateRejectedKeepsContainers | backend/dist/controller/ctfController.js:357-368 | a rejected update after a good launch ends the request with the store unchanged (record PENDING, port reserved) and both containers running, and it happens whenever the launch succeeds with a URL and the update is rejected |
| CtfController.CreateUnadmitted | backend/dist/controller/ctfController.js:204-270 | a refused request changes nothing and launches nothing; a success without set-up returns the user's stored RUNNING instance of that challenge |
| CtfController.CreateAdmitted | backend/dist/controller/ctfController.js:238-270 | an admitted request goes to set-up with a resumable record: the user's stored PENDING instance of that challenge, or none |
| CtfController.ReserveSpec | backend/dist/controller/ctfController.js:272-316 | the record is the resumed one or a new one under the next id; the port is the first free draw, in range, not reserved and not used by another live instance, and it is added to the reservations; with no port the record is deleted |
| CtfController.SetUpReservation | backend/dist/controller/ctfController.js:304-390 | a creation either leaves the reservations as they were or, only when it throws (a failed launch or a rejected update) or the count is unsupported, adds exactly one in-range port that was free |
| CtfController.SetUpFailureRecord | backend/dist/controller/ctfController.js:308-379 | a handled failure removes the record (a resumed one included); a thrown error (a failed launch or a rejected update) or an unsupported count leaves a PENDING record behind |
| CtfController.SetUpSuccessRecord | backend/dist/controller/ctfController.js:304-389 | a successful creation stores a RUNNING record for the caller and challenge, with a one-hour expiry, the frontend's URL and a port in range that no other live instance uses, and releases its reservation |
| CtfController.SetUpNoPort | backend/dist/controller/ctfController.js:305-315 | "no ports" is replied exactly when every draw collides, and then nothing is launched, nothing is reserved and the record is gone |
| CtfController.StopRejects | backend/dist/controller/ctfController.js:415-437 | an unknown id or another user's instance is answered "not found", and a STOPPED or TERMINATED instance "already stopped"; neither changes anything |
| CtfController.StopOwned | backend/dist/controller/ctfController.js:438-448 | stopping one's own live instance stops its containers in order; a successful save marks only that record TERMINATED, and a failed save replies with its error and keeps the record |
| CtfController.StopIdempotent | backend/dist/controller/ctfController.js:430-437 | a second stop is answered "already stopped" and changes nothing |
| CtfController.StopPreservesValid | backend/dist/controller/ctfController.js:415-457 | stopping keeps the store well-formed |
| CtfController.ExpiredIds | backend/dist/controller/ctfController.js:475-480 | the instances reaped are exactly the PENDING or RUNNING ones whose expiry has passed |
| CtfController.ReapIdsAt | backend/dist/controller/ctfController.js:486-511 | reaping a list of ids keeps every record, applies the reaped status to the listed ones and leaves the others as they were |
| CtfController.StopListNames | backend/dist/controller/ctfController.js:489-493 | a container name is stopped exactly when it belongs to a listed instance |
| CtfController.CleanUpOnlyExpired | backend/dist/controller/ctfController.js:471-521 | the reaper keeps every record, changes only statuses, and leaves every unexpired instance as it was |
| CtfController.CleanUpStatus | backend/dist/controller/ctfController.js:494-509 | an expired instance ends TERMINATED when its save works, FAILED when only the second save works, and stays live only when both fail |
| CtfController.CleanUpIdempotent | backend/dist/controller/ctfController.js:471-521 | a second pass under the same failures changes nothing |
| CtfController.CleanUpPreservesValid | backend/dist/controller/ctfController.js:471-521 | reaping keeps the store well-formed |
| CtfController.ReapStep | backend/dist/controller/ctfController.js:486-511 | reaping one more id appends that instance's container names to the stop list and updates that record alone |
| CtfController.ReapIdsIsCleanUp | backend/dist/controller/ctfController.js:486-511 | reaping the expired ids one by one gives the whole reaper's result |
| CtfController.AfterStopAppend | backend/dist/controller/ctfController.js:489-493 | stopping the instances' containers one instance at a time is stopping their concatenation |
| CtfController.StopListIsReapedNames | backend/dist/controller/ctfController.js:486-493 | the pass stops exactly the expired instances' containers: the runtime only gains stop requests and daemon errors for those names, and they stop running unless the daemon refuses |
| CtfController.AddToSet | backend/dist/controller/ctfController.js:126-130 | `$addToSet` adds the challenge once and never duplicates it |
| CtfController.SubmitRejects | backend/dist/controller/ctfController.js:81-125 | an empty flag is a validation error, a challenge in the request's solved list is reported as solved before, a wrong flag is a validation error, and only the right flag for a known user records a solve; users change only then |
| CtfController.SubmitRecordsSolve | backend/dist/controller/ctfController.js:126-152 | the right flag for an unsolved challenge adds it once to that user's solved list, sets the count to the list's length, and changes no other user |
| CtfController.SubmitIdempotent | backend/dist/controller/ctfController.js:126-141 | repeating a submission leaves the users as the first one did |
| CtfController.SubmitKeepsConsistent | backend/dist/controller/ctfController.js:126-141 | the solved list stays duplicate-free and the count stays equal to its length |
| CtfController.Controller.FindLive | backend/dist/controller/ctfController.js:241-244 | the query returns the live instance `LiveOf` describes |
| CtfController.Controller.CreateCtfInstance | backend/dist/controller/ctfController.js:204-400 | the reply, the store and the runtime afterwards are those of `CreateCtf` |
| CtfController.Controller.SetUpInstance | backend/dist/controller/ctfController.js:272-399 | set-up ends as `SetUp` describes |
| CtfController.Controller.ReservePort | backend/dist/controller/ctfController.js:272-316 | the record and port reserved, and the store afterwards, are those of `Reserve` |
| CtfController.Controller.OpenRecord | backend/dist/controller/ctfController.js:272-296 | the record is the resumed one, or a new PENDING record stored under the next id, which is then advanced; the ports in use are read from the other live instances |
| CtfController.Controller.DeployInstance | backend/dist/controller/ctfController.js:316-399 | deployment ends as `Deploy` describes |
| CtfController.Controller.LaunchInstance | backend/dist/controller/ctfController.js:329-389 | launching and recording end as `Deploy` describes for two configs |
| CtfController.Controller.RecordLaunch | backend/dist/controller/ctfController.js:333-389 | recording a launch result ends as `AfterLaunch` describes |
| CtfController.Controller.StopCtfInstance | backend/dist/controller/ctfController.js:415-457 | the reply, the store and the runtime afterwards are those of `StopCtf` |
| CtfController.Controller.FindExpired | backend/dist/controller/ctfController.js:475-480 | the query returns each expired live instance's id exactly once |
| CtfController.Controller.ContainersCleanUp | backend/dist/controller/ctfController.js:471-521 | the instances afterwards are those of `CleanUp`, and the runtime has stopped exactly the expired instances' containers, a refused stop aside |
| CtfController.Controller.ReapOne | backend/dist/controller/ctfController.js:487-510 | one instance's containers are stopped, then it is saved TERMINATED, or FAILED, or left as it was |
| CtfController.Controller.ReapInOrder | backend/dist/controller/ctfController.js:486-511 | the loop over the expired instances ends as `ReapIds` and the stop of their container names describe |
| CtfController.Controller.SubmitFlag | backend/dist/controller/ctfController.js:81-153 | the reply and the users afterwards are those of `Submit` |
| ErrorHandler.HandleError | backend/src/middlewares/errorHandler.ts:5-25 | a 500 is answered with the generic "Internal Server"; any other non-zero status is passed on with the error's message or a fallback; a missing status becomes 500 but keeps the message; the body is never empty |
| ErrorHandler.NonServerErrorsShowTheirMessage | backend/src/middlewares/errorHandler.ts:20-24 | whenever the status sent is not 500, the client reads the error's own message, or "Internal Server Error" when it has none |
| ErrorHandler.MissingStatusExposesMessage | backend/src/middlewares/errorHandler.ts:12-24 | an error without a status is answered 500 with its own message, while the same error with status 500 is not |
| FrontendErrors.GetErrorMessage | frontend/src/utils/errorHandler.ts:3-36 | 429, 401, 403, 404, 500 and 503 have fixed texts; 400 and other statuses show the server's message or a fallback; an error without a response shows its own message, and anything else the generic text |
| FrontendErrors.ResponseMessagesAreNonEmpty | frontend/src/utils/errorHandler.ts:6-30 | when a response is attached, the text shown is never empty |
| FrontendErrors.ServerTextShownOnlyWhenNotFixed | frontend/src/utils/errorHandler.ts:12-29 | the server's own text is shown exactly for the statuses without a fixed text |

## Where the code and its design description differ

The model follows the code in each of these cases:

- The design says a reserved port is released on every path. The code releases it on success and on every failure it recognises. It keeps the port reserved when the launcher returns an error (see the next item), when the update of the launched record is rejected, and when a challenge has an unsupported container count (`SetUpReservation`).
- Launcher errors carry `name`, `message` and `statusNumber`, but `ctfController.js:334` tests for a `status` key. A failed launch is therefore never recognised as an error. The code goes on to look for containers in the error object and throws. The reply is `Throws`, and the PENDING record and the port reservation stay behind (`LaunchErrorNeverDetected`, `DeployFailure`).
- The design says a creation error marks the instance FAILED. The code deletes the record instead, including a resumed PENDING record (`SetUpFailureRecord`).
- `createCtfInstance` has no `try`/`catch`. When the update of a launched record (`ctfController.js:360`) is rejected, the request ends with the record still PENDING, the port still reserved and both containers running (`DeployUpdateRejectedKeepsContainers`).
- When the launch returns no frontend URL, the error raised names no error kind. The containers are not stopped, so they keep running (`DeployUrlMissingKeepsContainers`).
- The design gives the port range as [3001, 4000) and a comment in the code says [3000, 4000). The code draws 3001..3999 (`DrawInRange`, `EveryPortDrawable`).
- `stopCtfInstance` refuses only STOPPED and TERMINATED instances. A FAILED instance can be stopped again (`StopRejects`).
- The reaper's containers are stopped by `stopContainers`, which catches every daemon error itself. A container that fails to stop therefore does not make the instance FAILED. Only a failed save does (`CleanUpStatus`, `DaemonErrorsExactly`).
- `submitFlag` decides "already solved" from the solved list sent with the request, not from the database document. Its success message has two spaces between "You" and "solved" (`SubmitRejects`).
- `ctfInstancePreparation` answers a missing URL with a validation error ("url not found") that carries status 500 (`CtfInstancePreparation`).
- The instance schema's default expiry is two hours after creation, so a new PENDING record expires after two hours. A successful launch resets the expiry to one hour from the request (`NewInstance`, `SetUpSuccessRecord`).
- The design says infrastructure errors reach the caller only as a generic internal error. The error middleware hides the message only when the status is exactly 500. An error without a status is answered 500 with its own message (`MissingStatusExposesMessage`).
- The branch that replies "Failed to create CTF instance" (`ctfController.js:297-303`) cannot be reached, because the record is always set by then. It is not modelled.

## Left out

- The Docker client, its TLS set-up and real container ids: the runtime is a set of running names with logs of the requests made.
- Concurrency: `Promise.all` and `Promise.allSettled` run one after another in the model. The port reservation set is modelled as state, but interleavings of two requests are not.
- Floating point: `Math.random()` is a real in [0, 1) and `Math.floor` is exact.
- Sleep delays in the health poll and the launch: time is not modelled, only the number of attempts.
- The cron schedule that triggers `containersCleanUp`, and every console log.
- Mongoose behaviour beyond what the controller relies on: `trim`, timestamps, ObjectId casting and hexadecimal ids. Ids are natural numbers rendered in decimal, and a failed cast is a parameter message.
- The order of the environment map when it is turned into a list.
- Each request reads the clock once (`now`); the source reads it at several points of one request.
- `backend/src/utils/httpCodes.ts` and `backend/src/utils/errorTypes.ts` are not part of this model; their constants are restated in `app_errors.dfy`.
- `getActiveInstance` and `getCtfs` are outside the modelled core.
- CtfController.Submit: the token and cookie handling of `submitFlag` are not modelled, nor a failure of its second counter update. A flag that is present but not a string is not modelled either.
- CtfController.Deploy: configs beyond the first two are ignored, as the launcher ignores them.
- CtfController.SetUpFailureRecord: only the rejected update at `ctfController.js:360` is modelled. A rejected `create` or `find` (lines 274, 279, 290) or a rejected `findByIdAndDelete` (lines 309, 321, 349, 372) is not: the model treats those calls as always answering. In the source such a rejection ends the request with `Throws` and leaves the record in place, so a handled failure does not always remove the record.
- CtfController.DeployFailure: a rejected `findByIdAndDelete` (lines 321, 349, 372) is not modelled. In the source it ends the request with the port already released and the record still stored, which the model's "a thrown error changes nothing" does not cover.
- DockerUtils.DockerHost.CreateChallengeContainer: the other own properties a spread `Error` carries (such as the daemon's status code) are not part of the model's error record.
- CtfController.StopCtf: the "Failed to stop CTF instance" fallback for a thrown value that is not an `Error` is folded into the error path.
- CtfController.CleanUp: a failure of the reaper's initial query, which the source re-throws, is not modelled.
- CtfController.Admit: a challenge document without a flag field is treated like any other challenge.

