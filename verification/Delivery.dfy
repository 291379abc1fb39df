/** One delivery of consumer.go as a machine: which external call the worker makes next, and where each answer
    takes it. `DeployConsumer` is proved to follow it; `Fleet` runs many of them against one ledger and one broker. */
module Delivery {
  import opened Wrappers
  import opened Errors
  import opened Names
  import opened Events
  import opened Requests
  import opened StageLedger

  /** `admit` holds the checks before the first call: `AdmitEvent` for the name settings in use. */
  datatype WorkerConfig = WorkerConfig(
    admit: BuildEvent -> Admission, maxAttempts: int, backoffs: seq<int>, lease: int, rolloutTimeout: int, realCluster: bool)

  datatype Body = Garbled | Build(event: BuildEvent)

  datatype HeaderValue = IntValue(n: int) | ReasonValue(error: Error) | OtherValue

  type Headers = map<string, HeaderValue>

  const ATTEMPT_HEADER := "x-shiply-attempt"
  const RETRY_REASON_HEADER := "x-shiply-retry-reason"
  const DEAD_LETTER_HEADER := "x-shiply-dead-letter-reason"

  /** A broker message; `origin` names the producer's publish that it is a copy of. */
  datatype Message = Message(origin: nat, body: Body, headers: Headers)

  /** `deployHeaderAttempt`: an absent or non-integer header counts as zero. */
  function Attempt(m: Message): int {
    if ATTEMPT_HEADER in m.headers && m.headers[ATTEMPT_HEADER].IntValue? then m.headers[ATTEMPT_HEADER].n else 0
  }

  /** The copy put on a retry queue. */
  function RetryCopy(m: Message, attempt: int, cause: Error): (copy: Message)
    ensures Attempt(copy) == attempt && copy.origin == m.origin && copy.body == m.body
  {
    assert |ATTEMPT_HEADER| != |RETRY_REASON_HEADER|;
    m.(headers := m.headers[ATTEMPT_HEADER := IntValue(attempt)][RETRY_REASON_HEADER := ReasonValue(cause)])
  }

  /** The copy put on the dead-letter queue. */
  function DeadCopy(m: Message, attempt: int, cause: Error): (copy: Message)
    ensures Attempt(copy) == attempt && copy.origin == m.origin && copy.body == m.body
  {
    m.(headers := m.headers[DEAD_LETTER_HEADER := ReasonValue(cause)][ATTEMPT_HEADER := IntValue(attempt)])
  }

  /** Both copies give their reason, and keep every header but that and the attempt number. */
  lemma CopiesKeepTheirHeaders(m: Message, attempt: int, cause: Error, h: string)
    ensures var copy := RetryCopy(m, attempt, cause);
            && RETRY_REASON_HEADER in copy.headers && copy.headers[RETRY_REASON_HEADER] == ReasonValue(cause)
            && (h != ATTEMPT_HEADER && h != RETRY_REASON_HEADER ==>
                  (h in copy.headers <==> h in m.headers) && (h in m.headers ==> copy.headers[h] == m.headers[h]))
    ensures var copy := DeadCopy(m, attempt, cause);
            && DEAD_LETTER_HEADER in copy.headers && copy.headers[DEAD_LETTER_HEADER] == ReasonValue(cause)
            && (h != ATTEMPT_HEADER && h != DEAD_LETTER_HEADER ==>
                  (h in copy.headers <==> h in m.headers) && (h in m.headers ==> copy.headers[h] == m.headers[h]))
  {
    assert |ATTEMPT_HEADER| != |RETRY_REASON_HEADER| && |ATTEMPT_HEADER| != |DEAD_LETTER_HEADER|;
  }

  function Admit(cfg: WorkerConfig, body: Body): Admission {
    if body.Garbled? then Refused(Plain(UndecodableEvent)) else cfg.admit(body.event)
  }

  predicate IsAdmitted(cfg: WorkerConfig, m: Message) {
    Admit(cfg, m.body).Admitted?
  }

  const NO_EVENT := BuildEvent("", "", "", "", "", "", "", "", "")

  function EventOf(m: Message): BuildEvent {
    if m.body.Build? then m.body.event else NO_EVENT
  }

  function IdOf(m: Message): string {
    EventOf(m).deploymentId
  }

  // ---- External calls with their answers ----

  datatype ClaimAnswer = ClaimError(error: Error) | Claimed(disposition: Disposition, result: Option<Bundle>)

  datatype DeployAnswer = Applied(target: DeploymentTarget) | NotApplied(error: Error)

  /** `expired` says that the rollout context's own deadline has passed. */
  datatype RolloutAnswer = Ready | NotReady(error: Error, expired: bool)

  datatype Notice = ServiceNotice(service: ServiceEvent) | ProgressNotice(progress: ProgressEvent)

  /** Confirmed, or an error for the worker. */
  datatype Verdict = Fine | Failing(error: Error)

  datatype Call =
    | Claim(id: string, claim: ClaimAnswer)
    | Publish(key: RoutingKey, notice: Notice, verdict: Verdict)
    | Deploy(request: DeployRequest, deploy: DeployAnswer)
    | Await(target: DeploymentTarget, rollout: RolloutAnswer)
    | Persist(id: string, bundle: Bundle, live: bool, verdict: Verdict)
    | Requeue(queue: int, copy: Message, verdict: Verdict)
    | Release(id: string, verdict: Verdict)
    | DeadLetter(copy: Message, verdict: Verdict)
    | Ack
    | Nack(requeue: bool)

  // ---- Where the worker stands ----

  /** What follows a closing pair of events: the end of the handler, or the dead-letter copy of `scheduleRetry`. */
  datatype Closing = EndHandler | EndExhausted(attempt: int, cause: Error)

  datatype Pc =
    | Claiming
    | Starting
    | Applying
    | Announcing(target: DeploymentTarget)
    | Awaiting(target: DeploymentTarget)
    | Rechecking(target: DeploymentTarget, cause: Error)
    | Pending(target: DeploymentTarget, cause: Error)
    | Persisting(bundle: Bundle, live: bool, closing: Closing)
    | ClosingService(bundle: Bundle, closing: Closing)
    | ClosingProgress(bundle: Bundle, closing: Closing)
    | AnnouncingRetry(attempt: int, cause: Error)
    | Requeuing(attempt: int, cause: Error, counted: bool)
    | Releasing
    | DeadLettering(attempt: int, cause: Error, dropping: bool)
    | Acking
    | Nacking(requeue: bool)
    | Finished

  /** Zero-based retry queue for an attempt number: the last queue serves all later attempts. */
  function RetryQueue(cfg: WorkerConfig, attempt: int): int {
    var idx := if attempt > 0 then attempt - 1 else attempt;
    if idx >= |cfg.backoffs| then |cfg.backoffs| - 1 else idx
  }

  function Bumped(m: Message, counted: bool): int {
    Attempt(m) + if counted then 1 else 0
  }

  /** The target `emitExhausted` reports: that of the request, and blank for an event that has none. */
  function TargetOrBlank(cfg: WorkerConfig, event: BuildEvent): DeploymentTarget {
    match cfg.admit(event)
    case Admitted(_, target) => target
    case Refused(_) => DeploymentTarget("", "", "", "", "", 0, false)
  }

  function Exhausted(cause: Error): Error {
    Wrapped(AttemptsExhausted, cause)
  }

  /** `scheduleRetry` up to its first call. */
  function ToRetry(cfg: WorkerConfig, m: Message, cause: Error): Pc {
    var counted := Counts(cause);
    var attempt := Bumped(m, counted);
    if attempt >= cfg.maxAttempts then
      match m.body
      case Garbled => DeadLettering(attempt, cause, false)
      case Build(event) =>
        Persisting(FailureBundle(event, TargetOrBlank(cfg, event), Exhausted(cause)), true, EndExhausted(attempt, cause))
    else if counted then AnnouncingRetry(attempt, cause)
    else Requeuing(attempt, cause, false)
  }

  /** `completeFailure` up to its first call. */
  function ToFailure(event: BuildEvent, target: DeploymentTarget, error: Error): Pc {
    Persisting(FailureBundle(event, target, error), true, EndHandler)
  }

  /** The first thing a delivery does. */
  function Begin(cfg: WorkerConfig, m: Message): Pc {
    match Admit(cfg, m.body)
    case Refused(error) => DeadLettering(Attempt(m), error, true)
    case Admitted(_, _) => Claiming
  }

  /** The late check took the rollout for finished. */
  predicate LateReady(cfg: WorkerConfig, answer: RolloutAnswer) {
    answer.Ready? || (cfg.realCluster && TransientCheck(answer.error))
  }

  predicate TimedOut(answer: RolloutAnswer) {
    answer.NotReady? && (TimeoutVerdict in Classes(answer.error) || Deadline in Classes(answer.error) || answer.expired)
  }

  function NotReadyError(error: Error): Error {
    if TimeoutVerdict in Classes(error) || FailedVerdict in Classes(error)
    then Wrapped(NotReadyOnPort, error) else error
  }

  function ClosingFailed(cfg: WorkerConfig, m: Message, closing: Closing, error: Error): Pc {
    if closing.EndHandler? then ToRetry(cfg, m, error) else Nacking(true)
  }

  /** `c` is the call the worker makes at `pc`, with some answer. */
  predicate Offers(cfg: WorkerConfig, m: Message, pc: Pc, c: Call) {
    var admission := Admit(cfg, m.body);
    var event := EventOf(m);
    match pc
    case Claiming => c.Claim? && c.id == IdOf(m)
    case Starting => c.Publish? && c.key == StartedKey && c.notice == ProgressNotice(StartedEvent(event))
    case Applying => admission.Admitted? && c.Deploy? && c.request == admission.request
    case Announcing(target) =>
      c.Publish? && c.key == DeployedKey && c.notice == ProgressNotice(DeployedEvent(event, target))
    case Awaiting(target) => c.Await? && c.target == target
    case Rechecking(target, _) => c.Await? && c.target == target
    case Pending(target, cause) =>
      c.Publish? && c.key == RetryingKey && c.notice == ProgressNotice(PendingEvent(event, target, cause))
    case Persisting(bundle, live, _) =>
      c.Persist? && c.id == IdOf(m) && c.bundle == bundle && c.live == live && (!live ==> c.verdict.Failing?)
    case ClosingService(bundle, _) => c.Publish? && c.key == bundle.serviceKey && c.notice == ServiceNotice(bundle.service)
    case ClosingProgress(bundle, _) => c.Publish? && c.key == bundle.progressKey && c.notice == ProgressNotice(bundle.progress)
    case AnnouncingRetry(attempt, cause) =>
      c.Publish? && c.key == RetryingKey && c.notice == ProgressNotice(RetryingEvent(event, attempt, cause))
    case Requeuing(attempt, cause, _) => c.Requeue? && c.queue == RetryQueue(cfg, attempt) && c.copy == RetryCopy(m, attempt, cause)
    case Releasing => c.Release? && c.id == IdOf(m)
    case DeadLettering(attempt, cause, _) => c.DeadLetter? && c.copy == DeadCopy(m, attempt, cause)
    case Acking => c.Ack?
    case Nacking(requeue) => c.Nack? && c.requeue == requeue
    case Finished => false
  }

  /** Where the answer takes the worker. */
  function Advance(cfg: WorkerConfig, m: Message, pc: Pc, c: Call): Pc
    requires Offers(cfg, m, pc, c)
  {
    var admission := Admit(cfg, m.body);
    match pc
    case Claiming => AfterClaim(cfg, m, c.claim)
    case Starting => if c.verdict.Fine? then Applying else ToRetry(cfg, m, Wrapped(PublishingStarted, c.verdict.error))
    case Applying => AfterApply(cfg, m, admission, c.deploy)
    case Announcing(target) =>
      if c.verdict.Fine? then Awaiting(target) else ToRetry(cfg, m, Wrapped(PublishingDeployed, c.verdict.error))
    case Awaiting(target) => AfterAwait(cfg, m, target, c.rollout)
    case Rechecking(target, cause) =>
      if LateReady(cfg, c.rollout) then Persisting(SuccessBundle(EventOf(m), target), false, EndHandler)
      else Pending(target, cause)
    case Pending(_, _) => if c.verdict.Fine? then Acking else ToRetry(cfg, m, Wrapped(PublishingPending, c.verdict.error))
    case Persisting(bundle, _, closing) =>
      if c.verdict.Fine? then ClosingService(bundle, closing)
      else ClosingFailed(cfg, m, closing, Wrapped(PersistingResult, c.verdict.error))
    case ClosingService(bundle, closing) =>
      if c.verdict.Fine? then ClosingProgress(bundle, closing)
      else ClosingFailed(cfg, m, closing, Wrapped(PublishingService, c.verdict.error))
    case ClosingProgress(bundle, closing) =>
      if c.verdict.Failing? then ClosingFailed(cfg, m, closing, Wrapped(PublishingProgress, c.verdict.error))
      else if closing.EndHandler? then Acking
      else DeadLettering(closing.attempt, closing.cause, false)
    case AnnouncingRetry(attempt, cause) => if c.verdict.Fine? then Requeuing(attempt, cause, true) else Nacking(true)
    case Requeuing(_, _, counted) =>
      if c.verdict.Failing? then Nacking(true) else if counted then Releasing else Acking
    case Releasing => if c.verdict.Fine? then Acking else Nacking(true)
    case DeadLettering(_, _, dropping) => if c.verdict.Fine? then Acking else Nacking(!dropping)
    case Acking => Finished
    case Nacking(_) => Finished
  }

  function AfterClaim(cfg: WorkerConfig, m: Message, answer: ClaimAnswer): Pc {
    match answer
    case ClaimError(error) => ToRetry(cfg, m, Wrapped(ClaimingStage, error))
    case Claimed(disposition, result) =>
      match disposition
      case ClaimAcquired => Starting
      case ClaimBusy => ToRetry(cfg, m, LeaseBusy)
      case _ =>
        match result
        case Some(bundle) => ClosingService(bundle, EndHandler)
        case None => DeadLettering(Attempt(m), Plain(UndecodableResult), true)
  }

  function AfterApply(cfg: WorkerConfig, m: Message, admission: Admission, answer: DeployAnswer): Pc
    requires admission.Admitted?
  {
    match answer
    case Applied(target) => Announcing(target)
    case NotApplied(error) =>
      if Retriable(error) then ToRetry(cfg, m, Wrapped(DeployingResources, error))
      else ToFailure(EventOf(m), admission.target, error)
  }

  function AfterAwait(cfg: WorkerConfig, m: Message, target: DeploymentTarget, answer: RolloutAnswer): Pc {
    match answer
    case Ready => Persisting(SuccessBundle(EventOf(m), target), true, EndHandler)
    case NotReady(error, _) =>
      if TimedOut(answer) then Rechecking(target, error)
      else if Retriable(error) then ToRetry(cfg, m, Wrapped(WaitingForRollout, error))
      else ToFailure(EventOf(m), target, NotReadyError(error))
  }

  // ---- Whole deliveries ----

  /** Where a delivery of `m` stands after these calls; `None` if the worker does not make them. */
  function After(cfg: WorkerConfig, m: Message, calls: seq<Call>): Option<Pc> {
    if calls == [] then Some(Begin(cfg, m))
    else Then(cfg, m, After(cfg, m, calls[..|calls| - 1]), calls[|calls| - 1])
  }

  function Then(cfg: WorkerConfig, m: Message, pc: Option<Pc>, c: Call): Option<Pc> {
    if pc.Some? && Offers(cfg, m, pc.value, c) then Some(Advance(cfg, m, pc.value, c)) else None
  }

  /** The configuration the process runs with: the checks of `AdmitEvent` for its name settings. */
  function ConfigFor(names: NameConfig, defaultPort: int, maxAttempts: int, backoffs: seq<int>, lease: int,
                     rolloutTimeout: int): WorkerConfig
  {
    WorkerConfig(e => AdmitEvent(names, defaultPort, e), maxAttempts, backoffs, lease, rolloutTimeout, true)
  }
}
