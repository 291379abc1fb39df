/** The worker itself (consumer.go): `ProcessDelivery` and the methods it is made of, against a world that answers
    every external call as it likes. */
module DeployConsumer {
  import opened Wrappers
  import opened Errors
  import opened Names
  import opened Events
  import opened Requests
  import opened Delivery

  /** Ledger, cluster, publisher and channel as one worker meets them: arbitrary answers, and a record of the calls. */
  class World {
    const claims: nat -> ClaimAnswer
    const verdicts: nat -> Verdict
    const deploys: nat -> DeployAnswer
    const rollouts: nat -> RolloutAnswer
    ghost const cfg: WorkerConfig
    ghost const message: Message
    var calls: seq<Call>

    constructor (claims: nat -> ClaimAnswer, verdicts: nat -> Verdict, deploys: nat -> DeployAnswer,
                 rollouts: nat -> RolloutAnswer, ghost cfg: WorkerConfig, ghost message: Message)
      ensures calls == [] && this.cfg == cfg && this.message == message
      ensures this.claims == claims && this.verdicts == verdicts && this.deploys == deploys && this.rollouts == rollouts
    {
      this.claims, this.verdicts, this.deploys, this.rollouts := claims, verdicts, deploys, rollouts;
      this.cfg, this.message, calls := cfg, message, [];
    }

    /** Where the delivery stands by the calls made so far. */
    ghost function Standing(): Option<Pc>
      reads this
    {
      After(cfg, message, calls)
    }

    method Record(c: Call)
      modifies this
      ensures calls == old(calls) + [c] && Standing() == Then(cfg, message, old(Standing()), c)
    {
      calls := calls + [c];
      assert calls[..|calls| - 1] == old(calls);
    }

    method Claim(id: string) returns (answer: ClaimAnswer)
      modifies this
      ensures calls == old(calls) + [Call.Claim(id, answer)]
      ensures Standing() == Then(cfg, message, old(Standing()), Call.Claim(id, answer))
    {
      answer := claims(|calls|);
      Record(Call.Claim(id, answer));
    }

    method Publish(key: RoutingKey, notice: Notice) returns (verdict: Verdict)
      modifies this
      ensures calls == old(calls) + [Call.Publish(key, notice, verdict)]
      ensures Standing() == Then(cfg, message, old(Standing()), Call.Publish(key, notice, verdict))
    {
      verdict := verdicts(|calls|);
      Record(Call.Publish(key, notice, verdict));
    }

    method Deploy(request: DeployRequest) returns (answer: DeployAnswer)
      modifies this
      ensures calls == old(calls) + [Call.Deploy(request, answer)]
      ensures Standing() == Then(cfg, message, old(Standing()), Call.Deploy(request, answer))
    {
      answer := deploys(|calls|);
      Record(Call.Deploy(request, answer));
    }

    method WaitForRollout(target: DeploymentTarget) returns (answer: RolloutAnswer)
      modifies this
      ensures calls == old(calls) + [Call.Await(target, answer)]
      ensures Standing() == Then(cfg, message, old(Standing()), Call.Await(target, answer))
    {
      answer := rollouts(|calls|);
      Record(Call.Await(target, answer));
    }

    /** `Complete` or `Fail`, by the outcome of the bundle; a cancelled context never reaches the database. */
    method Persist(live: bool, id: string, bundle: Bundle) returns (verdict: Verdict)
      modifies this
      ensures !live ==> verdict.Failing?
      ensures calls == old(calls) + [Call.Persist(id, bundle, live, verdict)]
      ensures Standing() == Then(cfg, message, old(Standing()), Call.Persist(id, bundle, live, verdict))
    {
      verdict := if live then verdicts(|calls|) else Failing(Canceled);
      Record(Call.Persist(id, bundle, live, verdict));
    }

    method Release(id: string) returns (verdict: Verdict)
      modifies this
      ensures calls == old(calls) + [Call.Release(id, verdict)]
      ensures Standing() == Then(cfg, message, old(Standing()), Call.Release(id, verdict))
    {
      verdict := verdicts(|calls|);
      Record(Call.Release(id, verdict));
    }

    method PublishRetry(queue: int, copy: Message) returns (verdict: Verdict)
      modifies this
      ensures calls == old(calls) + [Call.Requeue(queue, copy, verdict)]
      ensures Standing() == Then(cfg, message, old(Standing()), Call.Requeue(queue, copy, verdict))
    {
      verdict := verdicts(|calls|);
      Record(Call.Requeue(queue, copy, verdict));
    }

    method PublishDead(copy: Message) returns (verdict: Verdict)
      modifies this
      ensures calls == old(calls) + [Call.DeadLetter(copy, verdict)]
      ensures Standing() == Then(cfg, message, old(Standing()), Call.DeadLetter(copy, verdict))
    {
      verdict := verdicts(|calls|);
      Record(Call.DeadLetter(copy, verdict));
    }

    method Ack()
      modifies this
      ensures calls == old(calls) + [Call.Ack]
      ensures Standing() == Then(cfg, message, old(Standing()), Call.Ack)
    {
      Record(Call.Ack);
    }

    method Nack(requeue: bool)
      modifies this
      ensures calls == old(calls) + [Call.Nack(requeue)]
      ensures Standing() == Then(cfg, message, old(Standing()), Call.Nack(requeue))
    {
      Record(Call.Nack(requeue));
    }
  }

  datatype Action = ActionAck | ActionNackDrop | ActionNackRequeue(error: Error)

  class Consumer {
    const cfg: WorkerConfig
    const world: World

    constructor (cfg: WorkerConfig, world: World)
      ensures this.cfg == cfg && this.world == world
    {
      this.cfg, this.world := cfg, world;
    }

    /** The world records deliveries of `m` under this configuration. */
    ghost predicate Serves(m: Message)
    {
      world.cfg == cfg && world.message == m
    }

    /** Where a delivery stands once the handler has returned `action`. */
    ghost function Returned(m: Message, action: Action, error: Option<Error>): Option<Pc> {
      match action
      case ActionAck => Some(Acking)
      case ActionNackDrop => if error.Some? then Some(DeadLettering(Attempt(m), error.value, true)) else None
      case ActionNackRequeue(cause) => Some(ToRetry(cfg, m, cause))
    }

    method ProcessDelivery(m: Message)
      requires Serves(m) && world.calls == []
      modifies world
      ensures world.Standing() == Some(Finished)
    {
      var action, error := HandleMessage(m);
      if action.ActionAck? {
        world.Ack();
        return;
      }
      if action.ActionNackRequeue? {
        var retried := ScheduleRetry(m, action.error, Counts(action.error));
        if retried {
          world.Ack();
          return;
        }
        world.Nack(true);
        return;
      }
      var copied := CopyToDLQ(m, error.value, Attempt(m), true);
      if copied {
        world.Ack();
        return;
      }
      world.Nack(false);
    }

    method HandleMessage(m: Message) returns (action: Action, error: Option<Error>)
      requires Serves(m) && world.calls == []
      modifies world
      ensures world.Standing() == Returned(m, action, error)
      ensures action.ActionNackDrop? ==> error.Some?
      ensures action.ActionNackRequeue? ==> IsAdmitted(cfg, m)
    {
      match Admit(cfg, m.body) {
        case Refused(reason) =>
          return ActionNackDrop, Some(reason);
        case Admitted(request, target) =>
          var event := m.body.event;
          var claim := world.Claim(event.deploymentId);
          if claim.ClaimError? { return ActionNackRequeue(Wrapped(ClaimingStage, claim.error)), None; }
          match claim.disposition {
            case ClaimCompleted => action, error := PublishStored(m, claim.result);
            case ClaimFailed => action, error := PublishStored(m, claim.result);
            case ClaimBusy => return ActionNackRequeue(LeaseBusy), None;
            case ClaimAcquired => action, error := RunStage(m, event, request, target);
          }
      }
    }

    /** The handler from its claim on. */
    method RunStage(m: Message, event: BuildEvent, request: DeployRequest, target: DeploymentTarget)
      returns (action: Action, error: Option<Error>)
      requires Serves(m) && m.body == Build(event) && Admit(cfg, m.body) == Admitted(request, target)
      requires world.Standing() == Some(Starting)
      modifies world
      ensures world.Standing() == Returned(m, action, error)
      ensures !action.ActionNackDrop?
    {
      error := None;
      var started := world.Publish(StartedKey, ProgressNotice(StartedEvent(event)));
      if started.Failing? { return ActionNackRequeue(Wrapped(PublishingStarted, started.error)), None; }

      var applied := world.Deploy(request);
      if applied.NotApplied? {
        if Retriable(applied.error) { return ActionNackRequeue(Wrapped(DeployingResources, applied.error)), None; }
        action, error := CompleteFailure(m, event, target, applied.error);
        return;
      }
      var deployed := applied.target;
      var announced := world.Publish(DeployedKey, ProgressNotice(DeployedEvent(event, deployed)));
      if announced.Failing? { return ActionNackRequeue(Wrapped(PublishingDeployed, announced.error)), None; }

      action, error := AwaitRollout(m, event, deployed);
    }

    /** The handler from the rollout on. */
    method AwaitRollout(m: Message, event: BuildEvent, deployed: DeploymentTarget) returns (action: Action, error: Option<Error>)
      requires Serves(m) && m.body == Build(event) && IsAdmitted(cfg, m)
      requires world.Standing() == Some(Awaiting(deployed))
      modifies world
      ensures world.Standing() == Returned(m, action, error)
      ensures !action.ActionNackDrop?
    {
      error := None;
      var rollout := world.WaitForRollout(deployed);
      if rollout.Ready? {
        action, error := PublishRolloutSuccess(m, event, deployed, true);
        return;
      }
      if TimedOut(rollout) {
        var late := world.WaitForRollout(deployed);
        // The check's context is cancelled by now, and it is the one handed on.
        if LateReady(cfg, late) {
          action, error := PublishRolloutSuccess(m, event, deployed, false);
          return;
        }
        var pending := world.Publish(RetryingKey, ProgressNotice(PendingEvent(event, deployed, rollout.error)));
        if pending.Failing? { return ActionNackRequeue(Wrapped(PublishingPending, pending.error)), None; }
        return ActionAck, None;
      }
      if Retriable(rollout.error) { return ActionNackRequeue(Wrapped(WaitingForRollout, rollout.error)), None; }
      action, error := CompleteFailure(m, event, deployed, NotReadyError(rollout.error));
    }

    method PublishRolloutSuccess(m: Message, event: BuildEvent, deployed: DeploymentTarget, live: bool)
      returns (action: Action, error: Option<Error>)
      requires Serves(m) && m.body == Build(event)
      requires world.Standing() == Some(Persisting(SuccessBundle(event, deployed), live, EndHandler))
      modifies world
      ensures world.Standing() == Returned(m, action, error)
      ensures !action.ActionNackDrop? && (action.ActionAck? ==> live)
    {
      error := None;
      var bundle := SuccessBundle(event, deployed);
      var persisted := world.Persist(live, event.deploymentId, bundle);
      if persisted.Failing? { return ActionNackRequeue(Wrapped(PersistingResult, persisted.error)), None; }
      var service := world.Publish(bundle.serviceKey, ServiceNotice(bundle.service));
      if service.Failing? { return ActionNackRequeue(Wrapped(PublishingService, service.error)), None; }
      var progress := world.Publish(bundle.progressKey, ProgressNotice(bundle.progress));
      if progress.Failing? { return ActionNackRequeue(Wrapped(PublishingProgress, progress.error)), None; }
      action := ActionAck;
    }

    method CompleteFailure(m: Message, event: BuildEvent, target: DeploymentTarget, deployError: Error)
      returns (action: Action, error: Option<Error>)
      requires Serves(m) && m.body == Build(event)
      requires world.Standing() == Some(ToFailure(event, target, deployError))
      modifies world
      ensures world.Standing() == Returned(m, action, error)
      ensures !action.ActionNackDrop?
    {
      error := None;
      var closed := CloseFailed(m, FailureBundle(event, target, deployError), EndHandler);
      if closed.Failing? { return ActionNackRequeue(closed.error), None; }
      return ActionAck, Some(deployError);
    }

    /** Persist a failure, then publish its pair: shared by the handler and by exhausted retries. */
    method CloseFailed(m: Message, bundle: Bundle, ghost closing: Closing) returns (verdict: Verdict)
      requires Serves(m) && m.body.Build?
      requires world.Standing() == Some(Persisting(bundle, true, closing))
      modifies world
      ensures verdict.Failing? ==> world.Standing() == Some(ClosingFailed(cfg, m, closing, verdict.error))
      ensures verdict.Fine? ==>
                world.Standing() == Some(if closing.EndHandler? then Acking else DeadLettering(closing.attempt, closing.cause, false))
    {
      var persisted := world.Persist(true, m.body.event.deploymentId, bundle);
      if persisted.Failing? { return Failing(Wrapped(PersistingResult, persisted.error)); }
      var service := world.Publish(bundle.serviceKey, ServiceNotice(bundle.service));
      if service.Failing? { return Failing(Wrapped(PublishingService, service.error)); }
      var progress := world.Publish(bundle.progressKey, ProgressNotice(bundle.progress));
      if progress.Failing? { return Failing(Wrapped(PublishingProgress, progress.error)); }
      verdict := Fine;
    }

    method PublishStored(m: Message, raw: Option<Bundle>) returns (action: Action, error: Option<Error>)
      requires Serves(m)
      requires world.Standing() ==
               Some(if raw.Some? then ClosingService(raw.value, EndHandler)
                    else DeadLettering(Attempt(m), Plain(UndecodableResult), true))
      modifies world
      ensures world.Standing() == Returned(m, action, error)
      ensures action.ActionNackDrop? ==> error.Some?
    {
      if raw.None? { return ActionNackDrop, Some(Plain(UndecodableResult)); }
      error := None;
      var service := world.Publish(raw.value.serviceKey, ServiceNotice(raw.value.service));
      if service.Failing? { return ActionNackRequeue(Wrapped(PublishingService, service.error)), None; }
      var progress := world.Publish(raw.value.progressKey, ProgressNotice(raw.value.progress));
      if progress.Failing? { return ActionNackRequeue(Wrapped(PublishingProgress, progress.error)), None; }
      action := ActionAck;
    }

    method ScheduleRetry(m: Message, cause: Error, counted: bool) returns (ok: bool)
      requires Serves(m) && IsAdmitted(cfg, m) && counted == Counts(cause)
      requires world.Standing() == Some(ToRetry(cfg, m, cause))
      modifies world
      ensures world.Standing() == Some(if ok then Acking else Nacking(true))
    {
      var attempt := Attempt(m);
      if counted { attempt := attempt + 1; }
      if attempt >= cfg.maxAttempts {
        var emitted := EmitExhausted(m, cause, attempt);
        if !emitted { return false; }
        ok := CopyToDLQ(m, cause, attempt, false);
        return;
      }
      var idx := attempt;
      if idx > 0 { idx := idx - 1; }
      if idx >= |cfg.backoffs| { idx := |cfg.backoffs| - 1; }
      if counted {
        var announced := world.Publish(RetryingKey, ProgressNotice(RetryingEvent(m.body.event, attempt, cause)));
        if announced.Failing? { return false; }
      }
      ok := PutBack(m, cause, attempt, idx, counted);
    }

    /** The end of `scheduleRetry`: the copy on a retry queue, and the claim released if the failure counts. */
    method PutBack(m: Message, cause: Error, attempt: int, idx: int, counted: bool) returns (ok: bool)
      requires Serves(m) && m.body.Build? && idx == RetryQueue(cfg, attempt)
      requires world.Standing() == Some(Requeuing(attempt, cause, counted))
      modifies world
      ensures world.Standing() == Some(if ok then Acking else Nacking(true))
    {
      var published := world.PublishRetry(idx, RetryCopy(m, attempt, cause));
      if published.Failing? { return false; }
      if counted {
        var released := world.Release(m.body.event.deploymentId);
        return released.Fine?;
      }
      ok := true;
    }

    method EmitExhausted(m: Message, cause: Error, ghost attempt: int) returns (ok: bool)
      requires Serves(m) && m.body.Build?
      requires world.Standing() ==
               Some(Persisting(FailureBundle(m.body.event, TargetOrBlank(cfg, m.body.event), Exhausted(cause)), true,
                               EndExhausted(attempt, cause)))
      modifies world
      ensures world.Standing() == Some(if ok then DeadLettering(attempt, cause, false) else Nacking(true))
    {
      var event := m.body.event;
      var closed := CloseFailed(m, FailureBundle(event, TargetOrBlank(cfg, event), Exhausted(cause)), EndExhausted(attempt, cause));
      ok := closed.Fine?;
    }

    method CopyToDLQ(m: Message, cause: Error, attempt: int, ghost dropping: bool) returns (ok: bool)
      requires Serves(m)
      requires world.Standing() == Some(DeadLettering(attempt, cause, dropping))
      modifies world
      ensures world.Standing() == Some(if ok then Acking else Nacking(!dropping))
    {
      var copied := world.PublishDead(DeadCopy(m, attempt, cause));
      ok := copied.Fine?;
    }
  }
}
