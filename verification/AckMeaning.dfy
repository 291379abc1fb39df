/** What an acknowledgement says about the calls of the delivery: proved for every sequence of answers. */
module AckMeaning {
  import opened Wrappers
  import opened Errors
  import opened Names
  import opened Events
  import opened StageLedger
  import opened Delivery

  predicate Acquired(m: Message, calls: seq<Call>) {
    && |calls| >= 1 && calls[0].Claim? && calls[0].id == IdOf(m)
    && calls[0].claim.Claimed? && calls[0].claim.disposition == ClaimAcquired
  }

  predicate Started(m: Message, calls: seq<Call>) {
    && |calls| >= 2 && Acquired(m, calls)
    && calls[1] == Call.Publish(StartedKey, ProgressNotice(StartedEvent(EventOf(m))), Fine)
  }

  predicate Deployed(m: Message, calls: seq<Call>, t: DeploymentTarget) {
    && |calls| >= 4 && Started(m, calls)
    && calls[2].Deploy? && calls[2].deploy == Applied(t)
    && calls[3] == Call.Publish(DeployedKey, ProgressNotice(DeployedEvent(EventOf(m), t)), Fine)
  }

  predicate Waited(m: Message, calls: seq<Call>, t: DeploymentTarget) {
    |calls| >= 5 && Deployed(m, calls, t) && calls[4].Await? && calls[4].target == t
  }

  /** The handler has grounds to record `b`, and holds a live context for it or not. */
  ghost predicate Grounds(cfg: WorkerConfig, m: Message, calls: seq<Call>, b: Bundle, live: bool) {
    || (|calls| == 3 && Started(m, calls) && calls[2].Deploy? && calls[2].deploy.NotApplied?
        && !Retriable(calls[2].deploy.error) && Admit(cfg, m.body).Admitted? && live
        && b == FailureBundle(EventOf(m), Admit(cfg, m.body).target, calls[2].deploy.error))
    || (|calls| == 5 && Waited(m, calls, b.service.target) && calls[4].rollout == Ready && live
        && b == SuccessBundle(EventOf(m), b.service.target))
    || (|calls| == 5 && Waited(m, calls, b.service.target) && calls[4].rollout.NotReady? && live
        && !TimedOut(calls[4].rollout) && !Retriable(calls[4].rollout.error)
        && b == FailureBundle(EventOf(m), b.service.target, NotReadyError(calls[4].rollout.error)))
    || (|calls| == 6 && Waited(m, calls, b.service.target) && TimedOut(calls[4].rollout) && !live
        && calls[5].Await? && LateReady(cfg, calls[5].rollout)
        && b == SuccessBundle(EventOf(m), b.service.target))
  }

  /** The outcome is on record: this delivery has just written it, or its claim found it. */
  ghost predicate OnRecord(cfg: WorkerConfig, m: Message, calls: seq<Call>, b: Bundle) {
    || (|calls| == 1 && calls[0].Claim? && calls[0].id == IdOf(m) && calls[0].claim.Claimed?
        && (calls[0].claim.disposition == ClaimCompleted || calls[0].claim.disposition == ClaimFailed)
        && calls[0].claim.result == Some(b))
    || (|calls| > 1 && Grounds(cfg, m, calls[..|calls| - 1], b, true)
        && calls[|calls| - 1] == Call.Persist(IdOf(m), b, true, Fine))
  }

  /** The outcome on record, then its pair of events, each confirmed, and nothing else. */
  ghost predicate ClosedBy(cfg: WorkerConfig, m: Message, calls: seq<Call>, b: Bundle) {
    && |calls| >= 3 && OnRecord(cfg, m, calls[..|calls| - 2], b)
    && calls[|calls| - 2] == Call.Publish(b.serviceKey, ServiceNotice(b.service), Fine)
    && calls[|calls| - 1] == Call.Publish(b.progressKey, ProgressNotice(b.progress), Fine)
  }

  /** The rollout ran into a deadline, its own or that of its context. */
  predicate RanOut(answer: RolloutAnswer) {
    answer.NotReady? && (answer.expired || TimeoutVerdict in Classes(answer.error) || Deadline in Classes(answer.error))
  }

  /** Exactly the rollout-pending event after a timed-out rollout, and no terminal write at all. */
  ghost predicate LeftPending(cfg: WorkerConfig, m: Message, calls: seq<Call>) {
    && |calls| == 7 && calls[4].Await? && Waited(m, calls, calls[4].target) && RanOut(calls[4].rollout)
    && calls[5].Await? && calls[5].rollout.NotReady?
    && (cfg.realCluster ==> FailedVerdict in Classes(calls[5].rollout.error))
    && calls[6] == Call.Publish(RetryingKey, ProgressNotice(PendingEvent(EventOf(m), calls[4].target, calls[4].rollout.error)), Fine)
  }

  /** Somebody else has the message now: a retry copy, or a dead letter. */
  ghost predicate HandedOn(cfg: WorkerConfig, m: Message, calls: seq<Call>) {
    && calls != []
    && var last := calls[|calls| - 1];
       || (last.Requeue? && last.verdict.Fine?)
       || (last.DeadLetter? && last.verdict.Fine?)
       || (last.Release? && last.verdict.Fine? && |calls| >= 2
           && calls[|calls| - 2].Requeue? && calls[|calls| - 2].verdict.Fine?)
  }

  /** How a delivery can have come to `pc`. */
  ghost predicate Trail(cfg: WorkerConfig, m: Message, pc: Pc, calls: seq<Call>) {
    match pc
    case Claiming => calls == []
    case Starting => |calls| == 1 && Acquired(m, calls)
    case Applying => |calls| == 2 && Started(m, calls)
    case Announcing(t) => |calls| == 3 && Started(m, calls) && calls[2].Deploy? && calls[2].deploy == Applied(t)
    case Awaiting(t) => |calls| == 4 && Deployed(m, calls, t)
    case Rechecking(t, cause) =>
      |calls| == 5 && Waited(m, calls, t) && TimedOut(calls[4].rollout) && calls[4].rollout.error == cause
    case Pending(t, cause) =>
      |calls| == 6 && Waited(m, calls, t) && TimedOut(calls[4].rollout) && calls[4].rollout.error == cause
      && calls[5].Await? && !LateReady(cfg, calls[5].rollout)
    case Persisting(b, live, closing) => closing.EndHandler? ==> Grounds(cfg, m, calls, b, live)
    case ClosingService(b, closing) => closing.EndHandler? ==> OnRecord(cfg, m, calls, b)
    case ClosingProgress(b, closing) =>
      closing.EndHandler? ==>
        && |calls| >= 2 && OnRecord(cfg, m, calls[..|calls| - 1], b)
        && calls[|calls| - 1] == Call.Publish(b.serviceKey, ServiceNotice(b.service), Fine)
    case Releasing => calls != [] && calls[|calls| - 1].Requeue? && calls[|calls| - 1].verdict.Fine?
    case Acking => HandedOn(cfg, m, calls) || LeftPending(cfg, m, calls) || exists b :: ClosedBy(cfg, m, calls, b)
    case _ => true
  }

  /** A retry starts a new trail. */
  lemma RetryTrail(cfg: WorkerConfig, m: Message, cause: Error, calls: seq<Call>)
    ensures Trail(cfg, m, ToRetry(cfg, m, cause), calls)
  {
  }

  lemma ClaimTrailStep(cfg: WorkerConfig, m: Message, before: seq<Call>, c: Call)
    requires before == [] && Offers(cfg, m, Claiming, c)
    ensures Trail(cfg, m, Advance(cfg, m, Claiming, c), before + [c])
  {
    if c.claim.ClaimError? { RetryTrail(cfg, m, Wrapped(ClaimingStage, c.claim.error), [c]); }
    else if c.claim.disposition.ClaimBusy? { RetryTrail(cfg, m, LeaseBusy, [c]); }
    assert before + [c] == [c];
  }

  lemma RunTrailStep(cfg: WorkerConfig, m: Message, pc: Pc, before: seq<Call>, c: Call)
    requires Trail(cfg, m, pc, before) && Offers(cfg, m, pc, c)
    requires pc.Starting? || pc.Announcing?
    ensures Trail(cfg, m, Advance(cfg, m, pc, c), before + [c])
  {
    if c.verdict.Failing? {
      RetryTrail(cfg, m, Wrapped(PublishingStarted, c.verdict.error), before + [c]);
      RetryTrail(cfg, m, Wrapped(PublishingDeployed, c.verdict.error), before + [c]);
    }
  }

  lemma ApplyTrailStep(cfg: WorkerConfig, m: Message, before: seq<Call>, c: Call)
    requires Trail(cfg, m, Applying, before) && Offers(cfg, m, Applying, c)
    ensures Trail(cfg, m, Advance(cfg, m, Applying, c), before + [c])
  {
    if c.deploy.NotApplied? && Retriable(c.deploy.error) {
      RetryTrail(cfg, m, Wrapped(DeployingResources, c.deploy.error), before + [c]);
    }
  }

  lemma WaitTrailStep(cfg: WorkerConfig, m: Message, pc: Pc, before: seq<Call>, c: Call)
    requires Trail(cfg, m, pc, before) && Offers(cfg, m, pc, c)
    requires pc.Awaiting? || pc.Rechecking? || pc.Pending?
    ensures Trail(cfg, m, Advance(cfg, m, pc, c), before + [c])
  {
  }

  lemma PersistTrailStep(cfg: WorkerConfig, m: Message, pc: Pc, before: seq<Call>, c: Call)
    requires Trail(cfg, m, pc, before) && Offers(cfg, m, pc, c) && pc.Persisting?
    ensures Trail(cfg, m, Advance(cfg, m, pc, c), before + [c])
  {
    assert (before + [c])[..|before|] == before;
    if c.verdict.Failing? && pc.closing.EndHandler? {
      RetryTrail(cfg, m, Wrapped(PersistingResult, c.verdict.error), before + [c]);
    }
  }

  lemma ServiceTrailStep(cfg: WorkerConfig, m: Message, pc: Pc, before: seq<Call>, c: Call)
    requires Trail(cfg, m, pc, before) && Offers(cfg, m, pc, c) && pc.ClosingService?
    ensures Trail(cfg, m, Advance(cfg, m, pc, c), before + [c])
  {
    assert (before + [c])[..|before|] == before;
    if c.verdict.Failing? && pc.closing.EndHandler? {
      RetryTrail(cfg, m, Wrapped(PublishingService, c.verdict.error), before + [c]);
    }
  }

  lemma ProgressTrailStep(cfg: WorkerConfig, m: Message, pc: Pc, before: seq<Call>, c: Call)
    requires Trail(cfg, m, pc, before) && Offers(cfg, m, pc, c) && pc.ClosingProgress?
    ensures Trail(cfg, m, Advance(cfg, m, pc, c), before + [c])
  {
    if pc.closing.EndHandler? {
      if c.verdict.Failing? {
        RetryTrail(cfg, m, Wrapped(PublishingProgress, c.verdict.error), before + [c]);
      } else {
        assert (before + [c])[..|before| - 1] == before[..|before| - 1];
        assert ClosedBy(cfg, m, before + [c], pc.bundle);
      }
    }
  }

  lemma LateTrailStep(cfg: WorkerConfig, m: Message, pc: Pc, before: seq<Call>, c: Call)
    requires Trail(cfg, m, pc, before) && Offers(cfg, m, pc, c)
    requires pc.AnnouncingRetry? || pc.Requeuing? || pc.Releasing? || pc.DeadLettering? || pc.Acking? || pc.Nacking?
    ensures Trail(cfg, m, Advance(cfg, m, pc, c), before + [c])
  {
  }

  lemma TrailStep(cfg: WorkerConfig, m: Message, pc: Pc, before: seq<Call>, c: Call)
    requires Trail(cfg, m, pc, before) && Offers(cfg, m, pc, c)
    ensures Trail(cfg, m, Advance(cfg, m, pc, c), before + [c])
  {
    match pc
    case Claiming => ClaimTrailStep(cfg, m, before, c);
    case Starting => RunTrailStep(cfg, m, pc, before, c);
    case Applying => ApplyTrailStep(cfg, m, before, c);
    case Announcing(_) => RunTrailStep(cfg, m, pc, before, c);
    case Awaiting(_) => WaitTrailStep(cfg, m, pc, before, c);
    case Rechecking(_, _) => WaitTrailStep(cfg, m, pc, before, c);
    case Pending(_, _) => WaitTrailStep(cfg, m, pc, before, c);
    case Persisting(_, _, _) => PersistTrailStep(cfg, m, pc, before, c);
    case ClosingService(_, _) => ServiceTrailStep(cfg, m, pc, before, c);
    case ClosingProgress(_, _) => ProgressTrailStep(cfg, m, pc, before, c);
    case _ => LateTrailStep(cfg, m, pc, before, c);
  }

  ghost predicate HasTrail(cfg: WorkerConfig, m: Message, calls: seq<Call>, pc: Option<Pc>) {
    pc.Some? ==> Trail(cfg, m, pc.value, calls)
  }

  lemma TrailThen(cfg: WorkerConfig, m: Message, pc: Option<Pc>, before: seq<Call>, c: Call)
    requires HasTrail(cfg, m, before, pc)
    ensures HasTrail(cfg, m, before + [c], Then(cfg, m, pc, c))
  {
    if pc.Some? && Offers(cfg, m, pc.value, c) { TrailStep(cfg, m, pc.value, before, c); }
  }

  lemma {:induction false} TrailHolds(cfg: WorkerConfig, m: Message, calls: seq<Call>)
    ensures HasTrail(cfg, m, calls, After(cfg, m, calls))
  {
    if calls != [] {
      var before, c := calls[..|calls| - 1], calls[|calls| - 1];
      TrailHolds(cfg, m, before);
      TrailThen(cfg, m, After(cfg, m, before), before, c);
      assert before + [c] == calls;
    }
  }

  /** A delivery about to be acknowledged has handed the message on, or has published and confirmed both events of an
      outcome that is on record, in the order of the stage, or has published exactly the rollout-pending event and
      written no outcome. */
  lemma AckMeans(cfg: WorkerConfig, m: Message, calls: seq<Call>)
    requires After(cfg, m, calls) == Some(Acking)
    ensures HandedOn(cfg, m, calls) || LeftPending(cfg, m, calls) || exists b :: ClosedBy(cfg, m, calls, b)
  {
    TrailHolds(cfg, m, calls);
  }

  /** A rollout that only the late check finds ready is never acknowledged as a success: the check's context is
      cancelled by then, so the record fails and the message is handed on for another attempt. */
  lemma LateReadyIsAlwaysRetried(cfg: WorkerConfig, m: Message, calls: seq<Call>)
    requires After(cfg, m, calls) == Some(Acking)
    requires |calls| > 5 && calls[4].Await? && calls[5].Await?
    requires calls[5].rollout.Ready? || (cfg.realCluster && FailedVerdict !in Classes(calls[5].rollout.error))
    ensures HandedOn(cfg, m, calls)
  {
    TrailHolds(cfg, m, calls);
  }
}
