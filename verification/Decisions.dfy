/** What each answer means to a delivery, in terms of the answer alone: where consumer.go goes next, and what it then says. */
module Decisions {
  import opened Wrappers
  import opened Errors
  import opened Names
  import opened Events
  import opened Requests
  import opened StageLedger
  import opened Delivery

  // ---- Before and after the claim ----

  /** A message that is not admitted is dropped under its own number, for the reason it was refused; any other is claimed
      under the id of its event. */
  lemma FirstThing(cfg: WorkerConfig, m: Message)
    ensures match m.body
            case Garbled => After(cfg, m, []) == Some(DeadLettering(Attempt(m), Plain(UndecodableEvent), true))
            case Build(event) =>
              match cfg.admit(event)
              case Refused(reason) => After(cfg, m, []) == Some(DeadLettering(Attempt(m), reason, true))
              case Admitted(_, _) => After(cfg, m, []) == Some(Claiming) && IdOf(m) == event.deploymentId
  {
  }

  /** A claim that fails is retried; a stage acquired is started; a live lease is waited out without counting; and an outcome
      is published as it is stored, or dropped if it cannot be read. */
  lemma ClaimDecides(cfg: WorkerConfig, m: Message, c: Call)
    requires Offers(cfg, m, Claiming, c)
    ensures var next := Advance(cfg, m, Claiming, c);
            match c.claim
            case ClaimError(error) => next == ToRetry(cfg, m, Wrapped(ClaimingStage, error))
            case Claimed(disposition, result) =>
              match disposition
              case ClaimAcquired => next == Starting
              case ClaimBusy => next == ToRetry(cfg, m, LeaseBusy)
              case ClaimCompleted =>
                if result.Some? then next == ClosingService(result.value, EndHandler)
                else next == DeadLettering(Attempt(m), Plain(UndecodableResult), true)
              case ClaimFailed =>
                if result.Some? then next == ClosingService(result.value, EndHandler)
                else next == DeadLettering(Attempt(m), Plain(UndecodableResult), true)
  {
  }

  // ---- Deploying ----

  /** The failure is worth another attempt: a transient API answer, a deadline or a network failure somewhere in its chain,
      and neither an ownership refusal nor a rollout verdict. */
  predicate WorthRetrying(error: Error) {
    && Classes(error) !! {OwnershipRefusal, TimeoutVerdict, FailedVerdict}
    && !(Classes(error) !! {TransientApi, Deadline, NetworkFailure, UrlFailure})
  }

  /** A deploy that fails is retried if its failure is worth it, and otherwise is recorded as failed at once, for the target
      of the request and with that very error; one that succeeds is announced with the target it answers. */
  lemma DeployDecides(cfg: WorkerConfig, m: Message, c: Call)
    requires Offers(cfg, m, Applying, c)
    ensures var next := Advance(cfg, m, Applying, c);
            match c.deploy
            case Applied(target) => next == Announcing(target)
            case NotApplied(error) =>
              if WorthRetrying(error) then next == ToRetry(cfg, m, Wrapped(DeployingResources, error))
              else
                && next.Persisting? && next.live && next.closing == EndHandler
                && SaysFailed(next.bundle, EventOf(m), Admit(cfg, m.body).target, error)
  {
    RetriableIffTransientWithoutVerdict(ErrorIn(c));
    UrlErrorsAreNetErrors(ErrorIn(c));
  }

  /** The error of an unsuccessful answer; any other where there is none. */
  function ErrorIn(c: Call): Error {
    if c.Deploy? && c.deploy.NotApplied? then c.deploy.error
    else if c.Await? && c.rollout.NotReady? then c.rollout.error
    else NetError
  }

  /** The bundle says that the deployment of this event to this target failed with this error. */
  predicate SaysFailed(b: Bundle, event: BuildEvent, target: DeploymentTarget, error: Error) {
    && b.serviceKey == FailedKey && b.service == ServiceEvent(Failed, event, target, Some(error))
    && b.progressKey == FailedProgressKey && b.progress == ProgressEvent(DeployFailed, event, Some(target), Some(error))
  }

  predicate SaysSucceeded(b: Bundle, event: BuildEvent, target: DeploymentTarget) {
    && b.serviceKey == SucceededKey && b.service == ServiceEvent(Succeeded, event, target, None)
    && b.progressKey == RunningKey && b.progress == ProgressEvent(Running, event, Some(target), None)
  }

  // ---- Waiting for the rollout ----

  /** A rollout that is ready is recorded as a success; one that ran into a deadline, of its own or of its context, is looked
      at again; any other failure is retried if it is worth it, and otherwise recorded, a failed rollout with a hint at the port. */
  lemma RolloutDecides(cfg: WorkerConfig, m: Message, target: DeploymentTarget, c: Call)
    requires Offers(cfg, m, Awaiting(target), c)
    ensures var next := Advance(cfg, m, Awaiting(target), c);
            match c.rollout
            case Ready =>
              next.Persisting? && next.live && next.closing == EndHandler && SaysSucceeded(next.bundle, EventOf(m), target)
            case NotReady(error, expired) =>
              if expired || TimeoutVerdict in Classes(error) || Deadline in Classes(error) then next == Rechecking(target, error)
              else if WorthRetrying(error) then next == ToRetry(cfg, m, Wrapped(WaitingForRollout, error))
              else
                && next.Persisting? && next.live && next.closing == EndHandler
                && SaysFailed(next.bundle, EventOf(m), target,
                              if FailedVerdict in Classes(error) then Wrapped(NotReadyOnPort, error) else error)
  {
    RetriableIffTransientWithoutVerdict(ErrorIn(c));
    UrlErrorsAreNetErrors(ErrorIn(c));
  }

  /** The late check takes the rollout for finished if it is ready, and in a real cluster after any error but a failed rollout;
      then a success is to be recorded, under a context that is cancelled already. Otherwise the rollout is left pending. */
  lemma LateCheckDecides(cfg: WorkerConfig, m: Message, target: DeploymentTarget, cause: Error, c: Call)
    requires Offers(cfg, m, Rechecking(target, cause), c)
    ensures var next := Advance(cfg, m, Rechecking(target, cause), c);
            var finished := c.rollout.Ready? || (cfg.realCluster && FailedVerdict !in Classes(c.rollout.error));
            && (finished <==> next == Persisting(SuccessBundle(EventOf(m), target), false, EndHandler))
            && (!finished <==> next == Pending(target, cause))
  {
  }

  // ---- Publishing and recording ----

  /** Each step is followed by the next if it works, and by a retry that names it if it does not. */
  lemma StepsDecide(cfg: WorkerConfig, m: Message, pc: Pc, c: Call)
    requires Offers(cfg, m, pc, c) && (pc.Starting? || pc.Announcing? || pc.Pending?)
    ensures c.Publish?
    ensures c.verdict.Fine? ==>
              Advance(cfg, m, pc, c) == match pc { case Starting => Applying case Announcing(t) => Awaiting(t) case _ => Acking }
    ensures c.verdict.Failing? ==>
              Advance(cfg, m, pc, c) ==
              ToRetry(cfg, m, Wrapped(if pc.Starting? then PublishingStarted else if pc.Announcing? then PublishingDeployed
                                      else PublishingPending, c.verdict.error))
  {
  }

  /** An outcome is recorded, then its service event published, then its progress event; the handler ends there, and an
      exhausted retry goes on to the dead letter. A step that fails is retried in the handler, and otherwise sent back. */
  lemma ClosingDecides(cfg: WorkerConfig, m: Message, pc: Pc, c: Call)
    requires Offers(cfg, m, pc, c) && (pc.Persisting? || pc.ClosingService? || pc.ClosingProgress?)
    ensures var next := Advance(cfg, m, pc, c);
            match c.verdict
            case Fine =>
              if pc.Persisting? then next == ClosingService(pc.bundle, pc.closing)
              else if pc.ClosingService? then next == ClosingProgress(pc.bundle, pc.closing)
              else if pc.closing.EndHandler? then next == Acking
              else next == DeadLettering(pc.closing.attempt, pc.closing.cause, false)
            case Failing(error) =>
              if pc.closing.EndExhausted? then next == Nacking(true)
              else
                next == ToRetry(cfg, m, Wrapped(if pc.Persisting? then PersistingResult
                                                else if pc.ClosingService? then PublishingService else PublishingProgress, error))
  {
  }

  // ---- Retrying ----

  /** The number a failure is dealt with under: one more, unless a busy lease is among its causes. */
  function NumberAfter(m: Message, cause: Error): int {
    if BusyLease in Classes(cause) then Attempt(m) else Attempt(m) + 1
  }

  /** A failure that uses up the attempts is recorded for the target of its request, with its cause, and dead-lettered under
      its number; any other is announced if it counts, and put back under its number. */
  lemma RetryDecides(cfg: WorkerConfig, m: Message, cause: Error)
    requires IsAdmitted(cfg, m)
    ensures var next, n := ToRetry(cfg, m, cause), NumberAfter(m, cause);
            if n >= cfg.maxAttempts then
              && next.Persisting? && next.live && next.closing == EndExhausted(n, cause)
              && SaysFailed(next.bundle, EventOf(m), Admit(cfg, m.body).target, Wrapped(AttemptsExhausted, cause))
            else if BusyLease in Classes(cause) then next == Requeuing(n, cause, false)
            else next == AnnouncingRetry(n, cause)
  {
  }

  /** What a retry then does, and where its answers lead. */
  lemma RetryStepsDecide(cfg: WorkerConfig, m: Message, pc: Pc, c: Call)
    requires Offers(cfg, m, pc, c) && (pc.AnnouncingRetry? || pc.Requeuing? || pc.Releasing? || pc.DeadLettering?)
    ensures var next := Advance(cfg, m, pc, c);
            match c.verdict
            case Fine =>
              if pc.AnnouncingRetry? then next == Requeuing(pc.attempt, pc.cause, true)
              else if pc.Requeuing? && pc.counted then next == Releasing
              else next == Acking
            case Failing(_) => next == Nacking(!(pc.DeadLettering? && pc.dropping))
    ensures c.Release? ==> c.id == IdOf(m)
    ensures c.Requeue? ==>
              && Attempt(c.copy) == pc.attempt && c.copy.body == m.body && c.copy.origin == m.origin
              && (pc.attempt >= 0 && |cfg.backoffs| >= 1 ==>
                    c.queue + 1 == if pc.attempt == 0 then 1 else if pc.attempt <= |cfg.backoffs| then pc.attempt else |cfg.backoffs|)
    ensures c.DeadLetter? ==> Attempt(c.copy) == pc.attempt && c.copy.body == m.body && c.copy.origin == m.origin
  {
  }

  /** The attempt number of a message is its header if that is an integer, and zero otherwise. */
  lemma AttemptIsTheHeader(m: Message)
    ensures ATTEMPT_HEADER in m.headers && m.headers[ATTEMPT_HEADER].IntValue? ==> m.headers[ATTEMPT_HEADER] == IntValue(Attempt(m))
    ensures ATTEMPT_HEADER !in m.headers || !m.headers[ATTEMPT_HEADER].IntValue? ==> Attempt(m) == 0
  {
  }

  /** What the events on the way say. */
  lemma CallsSayWhatTheyMean(cfg: WorkerConfig, m: Message, pc: Pc, c: Call)
    requires Offers(cfg, m, pc, c) && c.Publish?
    ensures var event := EventOf(m);
            match pc
            case Starting => c.key == StartedKey && c.notice == ProgressNotice(ProgressEvent(Orchestrating, event, None, None))
            case Announcing(t) => c.key == DeployedKey && c.notice == ProgressNotice(ProgressEvent(Deployed, event, Some(t), None))
            case Pending(t, cause) =>
              c.key == RetryingKey && c.notice == ProgressNotice(ProgressEvent(RolloutPending, event, Some(t), Some(cause)))
            case AnnouncingRetry(n, cause) =>
              c.key == RetryingKey && c.notice == ProgressNotice(ProgressEvent(Retrying(n), event, None, Some(cause)))
            case ClosingService(b, _) => c.key == b.serviceKey && c.notice == ServiceNotice(b.service)
            case ClosingProgress(b, _) => c.key == b.progressKey && c.notice == ProgressNotice(b.progress)
            case _ => false
  {
  }

  /** What the other calls are about. */
  lemma CallsAreAboutTheMessage(cfg: WorkerConfig, m: Message, pc: Pc, c: Call)
    requires Offers(cfg, m, pc, c)
    ensures c.Claim? || c.Release? ==> c.id == EventOf(m).deploymentId
    ensures c.Deploy? ==> Admit(cfg, m.body).Admitted? && c.request == Admit(cfg, m.body).request
    ensures c.Await? ==> (pc.Awaiting? || pc.Rechecking?) && c.target == pc.target
    ensures c.Persist? ==>
              pc.Persisting? && c.id == EventOf(m).deploymentId && c.bundle == pc.bundle && c.live == pc.live
              && (!c.live ==> c.verdict.Failing?)
    ensures c.Ack? || c.Nack? ==> Advance(cfg, m, pc, c) == Finished && (c.Ack? <==> pc.Acking?)
    ensures c.Nack? ==> pc == Nacking(c.requeue)
  {
  }
}
