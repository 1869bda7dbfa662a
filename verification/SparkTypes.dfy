/**
  Values shared by the Spark worker, the local broker and the second
  ("existing") coordinator: requests, receipts, instances, journal records.

  A SHA-256 digest over a canonical encoding is modelled by the value that was
  digested, so two digests agree exactly when the values do.  Times are counted
  in nanoseconds; the zero time of the source is `ZERO_TIME`.
*/
module SparkTypes {

  datatype Option<+T> = None | Some(value: T)

  type Time = int
  type JobId = string
  type ProfileId = string

  const ZERO_TIME: Time := 0
  const SECOND: Time := 1_000_000_000
  const DISPATCH_LEASE: Time := 30 * SECOND
  const DAY: Time := 24 * 3600 * SECOND

  /** What a request asks for; `OtherAction` is any text the broker does not know. */
  datatype Action = Start | Stop | Restart | OtherAction

  datatype Params = Params(
    profileId: ProfileId,
    profileRevision: string,
    expectedGeneration: int,
    controlEpoch: string,
    expectedAgentSession: string,
    confirmDisruption: bool)

  datatype ActionRequest = ActionRequest(
    jobId: JobId,
    operationId: string,
    action: Action,
    params: Params,
    issuedAt: Time,
    deadline: Time,
    parentJobId: Option<JobId>,
    local: bool)

  const ZERO_REQUEST := ActionRequest("", "", OtherAction, Params("", "", 0, "", "", false), ZERO_TIME, ZERO_TIME, None,
      false)

  predicate IdHead(c: char) {
    'A' <= c <= 'Z' || 'a' <= c <= 'z' || '0' <= c <= '9'
  }

  predicate IdTail(c: char) {
    IdHead(c) || c == '_' || c == '.' || c == ':' || c == '-'
  }

  /** The identifier grammar of job, operation and stage ids. */
  predicate ValidId(s: string) {
    1 <= |s| <= 128 && IdHead(s[0]) && forall k :: 1 <= k < |s| ==> IdTail(s[k])
  }

  datatype SupervisorState = NoState | Stopped | Failed | Starting | Running | Stopping | UnknownState

  /** Owner of a physical run inside the existing coordinator. */
  datatype Owner = Owner(ownerUnit: string, invocationId: string, pid: int, birth: string)

  datatype Physical = Physical(
    runId: Option<string>,
    owner: Option<Owner>,
    containerId: Option<string>,
    containerCreated: Option<string>,
    enginePid: Option<int>,
    engineBirth: Option<string>,
    legacyDeclaration: Option<string>)

  /** An instance identity text of the existing coordinator: empty, the digest of the physical fields, or any other
      text. */
  datatype PhysicalId = NoPhysicalId | DigestOf(physical: Physical) | OtherText(text: string)

  datatype BackendState = READY | STARTING | STOPPING | STOPPED | BLOCKED | FAILED | UNKNOWN | NoBackendState

  datatype WitnessKind = NoOwnedRun | ExactRunResourcesReleased | OtherWitnessKind

  datatype Witness = Witness(
    kind: WitnessKind,
    modelId: string,
    runId: Option<string>,
    generation: int,
    attempt: Option<string>,
    instanceIdentity: PhysicalId,
    owner: Option<Owner>,
    containerId: Option<string>,
    containerCreated: Option<string>,
    enginePid: Option<int>,
    engineBirth: Option<string>,
    legacyDeclaration: Option<string>)

  datatype Result = Result(
    modelId: string,
    state: BackendState,
    processActive: bool,
    apiReady: bool,
    generation: Option<int>,
    attempt: Option<string>,
    runId: Option<string>,
    effectInvoked: Option<bool>,
    shutdownVerified: bool,
    shutdownWitness: Option<Witness>,
    instanceIdentity: PhysicalId)

  datatype Authority = Authority(controlEpoch: string, agentSession: string, bootId: string)

  datatype Snapshot = Snapshot(
    result: Result,
    profileRevision: string,
    observedAtMs: int,
    instance: Option<Physical>,
    authority: Authority)

  datatype Phase = Completed | Dispatched | Unresolved | OtherPhase

  datatype BackendReceipt = BackendReceipt(
    operationId: string,
    profileId: ProfileId,
    action: Action,
    phase: Phase,
    runId: Option<string>,
    generation: int,
    attempt: Option<string>,
    result: Option<Result>,
    stageKnown: bool)

  datatype BackendRequest = BackendRequest(
    operationId: string,
    profileId: ProfileId,
    action: Action,
    profileRevision: string,
    expectedGeneration: int,
    expectedInstance: PhysicalId,
    authority: Authority,
    issuedAt: Time,
    deadline: Time,
    parentOperationId: Option<JobId>)

  /** Identity of a supervised instance: plain text, a digest in `sha256:` form, or the digest of an
      existing-coordinator snapshot. */
  datatype Identity =
    | Plain(text: string)
    | Hashed(text: string)
    | FromBackend(profile: ProfileId, generation: Option<int>, instance: PhysicalId)

  const NO_IDENTITY := Plain("")

  datatype Instance = Instance(
    state: SupervisorState,
    identity: Identity,
    pid: int,
    available: bool,
    shutdownVerified: bool,
    backend: Option<Snapshot>)

  const ZERO_INSTANCE := Instance(NoState, NO_IDENTITY, 0, false, false, None)

  datatype Kind = SystemdSystem | SystemdUser | Docker | ExistingCoordinator | ConfiguredCatalog | OtherKind

  datatype Profile = Profile(
    id: ProfileId,
    kind: Kind,
    revision: string,
    allowed: set<Action>,
    observationOnly: bool,
    definitionHash: string,
    backendRevision: string,
    exclusionGroups: set<string>,
    requiredMemory: nat,
    osHeadroom: nat,
    blockUnknownMemory: bool,
    usesPort: bool,
    usesSharedLock: bool)

  datatype Policy = Policy(enabled: bool, profiles: seq<Profile>)

  /** The first profile of the policy with the given id. */
  function FindProfile(profiles: seq<Profile>, id: ProfileId): (r: Option<Profile>)
    ensures r.Some? ==> r.value in profiles && r.value.id == id
    ensures r.None? ==> forall p :: p in profiles ==> p.id != id
  {
    if profiles == [] then None
    else if profiles[0].id == id then Some(profiles[0])
    else FindProfile(profiles[1..], id)
  }

  datatype Status =
    | StatusAccepted | StatusRunning | StatusAwaitingConfirmation | StatusSucceeded
    | StatusRejected | StatusFailed | StatusUnsupported | StatusExpired | StatusUnknown

  /** The stage text of a receipt. */
  datatype ReceiptStage =
    | NoReceiptStage | ModelRejected | StartPreflightPending | EffectAttemptedReceipt
    | SupervisorEffectUnconfirmed | SupervisorCallAccepted | StopObservationTimeout
    | ModelStarted | ModelStarting | ModelStopped | RestartStoppedReceipt
    | RestartStartAttempted | RestartCancelledAfterStop | StartCancelledAfterStop
    | ModelRestarted | AttemptUnresolvedReceipt | StopOutcomeUnconfirmed
    | Unsupported | Prepared | RestartStartNotAttempted

  /** The error code of a receipt. */
  datatype Code =
    | NoCode | InvalidActionRequest | UnknownProfile | IdempotencyConflict | AuthorityChanged
    | StartPreflightInterrupted | JournalUnavailable | AttemptUnresolved | JournalCapacity
    | SupervisorIdentityUnavailable | EffectiveDefinitionDrift | NotRunningUseStart
    | StartCancelledByStop | SupersededByStop | SharedEntrypointBusy | LinkedStageNotAuthorized
    | LinkedStageExpired | LocalActionNotApproved | AuthorityOrProfileDrift | GenerationDrift
    | ServiceShutdownUnverified | RestartStoppedStageIdentityUnavailable | DispatchExpired
    | DisruptionConfirmationRequired | MemoryEstimateUnknown | MemoryEstimateInvalid
    | InsufficientMemory | ExclusionStateUnknown | ExclusionGroupBusy | MemoryReserved
    | LaunchPortBusy | WeightsPreflight | JournalPostEffectUnavailable
    | BackendReceiptInvalid | BackendEffectNotInvoked
    | ControllerIdentityMismatch | InvalidModelParameters | LocalBrokerUnavailable
    | StageAuthorizationInterrupted | StageAuthorizationUnavailable | InvalidStageAuthorization
    | StageDispatchExpired | StageJournalUnavailable

  datatype Evidence = Evidence(
    profileId: ProfileId,
    profileRevision: string,
    generation: int,
    controlEpoch: string,
    agentSession: string,
    state: SupervisorState,
    identity: Identity,
    shutdownVerified: bool,
    failedShutdownReason: bool,
    ready: bool,
    stageId: Option<JobId>)

  datatype Receipt = Receipt(
    jobId: JobId,
    operationId: string,
    status: Status,
    stage: ReceiptStage,
    code: Code,
    verifiedAt: Option<Time>,
    evidence: Option<Evidence>)

  const ZERO_RECEIPT := Receipt("", "", StatusUnknown, NoReceiptStage, NoCode, None, None)

  function Rejection(r: ActionRequest, code: Code): Receipt {
    Receipt(r.jobId, r.operationId, StatusRejected, ModelRejected, code, None, None)
  }

  /** Where a journalled attempt stands. */
  datatype Stage =
    | NoStage | PreflightPending | EffectAttempted | RestartStopped | StartAttempted | ExistingAttempted | Done

  /** A journal record.  `digest` is the digested request, `None` only for a record rebuilt after its original was
      pruned.  `accepted` is an auxiliary history: every snapshot of the existing coordinator taken over into this
      record. */
  datatype Attempt = Attempt(
    request: ActionRequest,
    digest: Option<ActionRequest>,
    stage: Stage,
    before: Instance,
    receipt: Receipt,
    at: Time,
    stoppedBy: Option<JobId>,
    backendRequest: Option<BackendRequest>,
    backendReceipt: Option<BackendReceipt>,
    backendSnapshot: Option<Snapshot>,
    accepted: seq<Snapshot>)

  const ZERO_ATTEMPT := Attempt(ZERO_REQUEST, None, NoStage, ZERO_INSTANCE, ZERO_RECEIPT, ZERO_TIME, None, None, None,
      None, [])

  datatype RuntimeProfile = RuntimeProfile(
    identity: Identity,
    generation: int,
    state: SupervisorState,
    reserved: bool,
    startingAt: Time,
    reservationUntil: Time,
    backendObservedAtMs: int)

  const ZERO_RUNTIME := RuntimeProfile(NO_IDENTITY, 0, NoState, false, ZERO_TIME, ZERO_TIME, 0)

  datatype Journal = Journal(
    epoch: string,
    policyHash: Option<Policy>,
    attempts: map<JobId, Attempt>,
    profiles: map<ProfileId, RuntimeProfile>)

  /** What a journal publication did: synced, or failed leaving the old or the new bytes. */
  datatype Write = Synced | FailedOld | FailedNew

  /** A supervisor inspection. */
  datatype Probe = ProbeFailed | Probed(instance: Instance)

  function RuntimeOf(j: Journal, id: ProfileId): RuntimeProfile {
    if id in j.profiles then j.profiles[id] else ZERO_RUNTIME
  }

  function AttemptOf(j: Journal, id: JobId): Attempt {
    if id in j.attempts then j.attempts[id] else ZERO_ATTEMPT
  }
}
