/** Why holders act within their lease: the arithmetic of context deadlines, renewals and the lease. */
module LeaseTiming {
  import opened Wrappers
  import opened Errors
  import opened StageLedger
  import opened Delivery
  import opened Fleet
  import opened FleetInvariant
  import opened LeaseSafety

  // ---- Deadlines ----

  /** The deadline of each call: 15 seconds for events, checks, failures and retries, a minute for the deploy and its event,
      and the rollout timeout for the rollout and a success that follows it; and a renewal every third of a positive lease. */
  lemma DeadlinesAre(cfg: WorkerConfig, clock: int, worker: Worker, c: Call)
    requires worker.Busy? && Offers(cfg, worker.m, worker.pc, c) && (c.Claim? ==> worker.sampled.Some?)
    ensures var next := Moved(cfg, clock, worker, c);
            next.Busy? ==>
              match next.pc
              case Starting => next.due == clock + 15 * SECOND
              case Applying => next.due == clock + 60 * SECOND && next.ticker == Some(clock + RenewPeriod(cfg))
              case Announcing(_) => next.due == worker.due
              case Awaiting(_) => next.due == clock + cfg.rolloutTimeout
              case Rechecking(_, _) => next.due == clock + 15 * SECOND
              case Pending(_, _) => next.due == clock + 15 * SECOND
              case Persisting(b, live, _) =>
                live ==> next.due == if b.service.outcome.Succeeded? then worker.due else clock + 15 * SECOND
              case ClosingService(_, _) => next.due == if c.Claim? then clock + 15 * SECOND else worker.due
              case ClosingProgress(_, _) => next.due == worker.due
              case AnnouncingRetry(_, _) => next.due == clock + 15 * SECOND
              case Requeuing(_, _, _) => next.due == clock + 15 * SECOND
              case Releasing => next.due == worker.due
              case DeadLettering(_, _, _) => next.due == clock + 15 * SECOND
              case _ => true
    ensures cfg.lease >= 3 ==> 3 * RenewPeriod(cfg) <= cfg.lease < 3 * RenewPeriod(cfg) + 3
    ensures cfg.lease < 3 ==> RenewPeriod(cfg) == 60 * SECOND
  {
  }

  // ---- Without any renewal: outcomes written inside the handler ----

  /** How long after its claim returned a handler can still be at `pc`. */
  function Budget(cfg: WorkerConfig, pc: Pc): int {
    match pc
    case Starting => 15 * SECOND
    case Applying => 75 * SECOND
    case Announcing(_) => 75 * SECOND
    case Awaiting(_) => cfg.rolloutTimeout + 75 * SECOND
    case Pending(_, _) => cfg.rolloutTimeout + 105 * SECOND
    case _ => cfg.rolloutTimeout + 90 * SECOND
  }

  /** The handler has acquired the stage and not yet recorded an outcome. */
  predicate BeforeRecord(pc: Pc) {
    || pc.Starting? || pc.Applying? || pc.Announcing? || pc.Awaiting? || pc.Rechecking? || pc.Pending?
    || (pc.Persisting? && pc.closing.EndHandler?)
  }

  ghost predicate WorkerPunctual(cfg: WorkerConfig, clock: int, worker: Worker, latency: int) {
    worker.Busy? && BeforeRecord(worker.pc) ==>
      && clock <= worker.due <= worker.claimedAt + Budget(cfg, worker.pc)
      && worker.claimedAt <= clock
      && worker.grant.Some? && worker.claimedAt - latency + cfg.lease <= worker.grant.value
  }

  ghost predicate PunctualInv(cfg: WorkerConfig, s: State, latency: int) {
    && cfg.rolloutTimeout >= 0 && latency >= 0
    && forall w :: 0 <= w < |s.workers| ==> WorkerPunctual(cfg, s.clock, s.workers[w], latency)
  }

  lemma RetryIsNotBeforeRecord(cfg: WorkerConfig, m: Message, cause: Error)
    ensures !BeforeRecord(ToRetry(cfg, m, cause))
  {
  }

  /** Which calls lead to a state before the record. */
  lemma BeforeRecordComesFrom(cfg: WorkerConfig, m: Message, pc: Pc, c: Call)
    requires Offers(cfg, m, pc, c) && BeforeRecord(Advance(cfg, m, pc, c))
    ensures pc.Claiming? || (BeforeRecord(pc) && !pc.Persisting? && !pc.Pending?)
    ensures pc.Claiming? ==> c.claim.Claimed? && c.claim.disposition.ClaimAcquired? && Advance(cfg, m, pc, c) == Starting
  {
    if pc.Claiming? && c.claim.ClaimError? {
      RetryIsNotBeforeRecord(cfg, m, Wrapped(ClaimingStage, c.claim.error));
    }
  }

  lemma CallKeepsPunctual(cfg: WorkerConfig, s: State, w: nat, c: Call, took: bool, latency: int)
    requires PunctualInv(cfg, s, latency) && Enabled(cfg, s, Act(w, c, took))
    requires PermitsPunctual(s, Act(w, c, took), latency)
    ensures WorkerPunctual(cfg, s.clock, Moved(cfg, s.clock, s.workers[w], c), latency)
  {
    var worker := s.workers[w];
    assert WorkerPunctual(cfg, s.clock, worker, latency);
    var pc' := Advance(cfg, worker.m, worker.pc, c);
    if BeforeRecord(pc') {
      BeforeRecordComesFrom(cfg, worker.m, worker.pc, c);
    }
  }

  lemma StepKeepsPunctual(cfg: WorkerConfig, s: State, l: Label, latency: int)
    requires PunctualInv(cfg, s, latency) && Enabled(cfg, s, l) && PermitsPunctual(s, l, latency)
    ensures PunctualInv(cfg, Apply(cfg, s, l), latency)
  {
    var s' := Apply(cfg, s, l);
    if l.Act? { CallKeepsPunctual(cfg, s, l.w, l.c, l.took, latency); }
    forall w | 0 <= w < |s'.workers| ensures WorkerPunctual(cfg, s'.clock, s'.workers[w], latency) {
      assert WorkerPunctual(cfg, s.clock, s.workers[w], latency);
    }
  }

  lemma {:induction false} RunKeepsPunctual(cfg: WorkerConfig, s: State, run: seq<Label>, latency: int)
    requires PunctualInv(cfg, s, latency) && Legal(cfg, s, run, Punctual(latency))
    ensures PunctualInv(cfg, ExecAll(cfg, s, run, Punctual(latency)), latency)
    decreases |run|
  {
    if run != [] {
      StepKeepsPunctual(cfg, s, run[0], latency);
      RunKeepsPunctual(cfg, Apply(cfg, s, run[0]), run[1..], latency);
    }
  }

  /** An outcome recorded inside the handler is recorded by rollout timeout plus 90 seconds after the claim returned. So
      with a lease of rollout timeout plus two minutes it is inside the lease even if every renewal fails, as long as
      claim latency and safety margin together stay below 30 seconds. */
  lemma RecordsFallWithinTheLease(cfg: WorkerConfig, workers: nat, run: seq<Label>, latency: nat, margin: int, w: nat, c: Call, took: bool)
    requires cfg.rolloutTimeout >= 0 && Legal(cfg, Initial(cfg, workers), run, Punctual(latency))
    requires Enabled(cfg, ExecAll(cfg, Initial(cfg, workers), run, Punctual(latency)), Act(w, c, took)) && c.Persist?
    requires ExecAll(cfg, Initial(cfg, workers), run, Punctual(latency)).workers[w].pc.closing.EndHandler?
    ensures var s := ExecAll(cfg, Initial(cfg, workers), run, Punctual(latency));
            s.clock <= s.workers[w].claimedAt + cfg.rolloutTimeout + 90 * SECOND
    ensures cfg.lease >= cfg.rolloutTimeout + 120 * SECOND && latency + margin < 30 * SECOND ==>
              Within(ExecAll(cfg, Initial(cfg, workers), run, Punctual(latency)),
                     ExecAll(cfg, Initial(cfg, workers), run, Punctual(latency)).workers[w], margin)
  {
    RunKeepsPunctual(cfg, Initial(cfg, workers), run, latency);
    var s := ExecAll(cfg, Initial(cfg, workers), run, Punctual(latency));
    assert WorkerPunctual(cfg, s.clock, s.workers[w], latency);
  }

  // ---- With renewals: every write ----

  /** The lease outlasts one renewal period, the first context, claim latency, the two contexts of `scheduleRetry`, and
      the margin on both sides. */
  predicate Slack(cfg: WorkerConfig, margin: int, latency: int) {
    && margin >= 0 && latency >= 0 && cfg.rolloutTimeout >= 0
    && 45 * SECOND + latency + RenewPeriod(cfg) + 2 * margin < cfg.lease
  }

  /** The default lease leaves that slack for a claim latency and two margins below 35 seconds. */
  lemma DefaultLeaseHasSlack(cfg: WorkerConfig, margin: nat, latency: nat)
    requires cfg.rolloutTimeout >= 0 && cfg.lease >= cfg.rolloutTimeout + 120 * SECOND
    requires latency + 2 * margin < 35 * SECOND
    ensures Slack(cfg, margin, latency)
  {
  }

  /** A delivery at `pc` may still write its row. */
  predicate MayWrite(pc: Pc) {
    || BeforeRecord(pc) || pc.Persisting? || pc.AnnouncingRetry? || pc.Releasing?
    || (pc.Requeuing? && pc.counted)
  }

  /** The renewal goroutine is running. */
  predicate Renewing(pc: Pc) {
    BeforeRecord(pc) && !pc.Starting?
  }

  function Reserve(cfg: WorkerConfig, margin: int, latency: int): int {
    cfg.lease - RenewPeriod(cfg) - latency - margin
  }

  ghost predicate WorkerTimed(cfg: WorkerConfig, clock: int, worker: Worker, margin: int, latency: int) {
    worker.Busy? ==>
      && InTime(worker, clock, margin)
      && (MayWrite(worker.pc) ==> worker.grant.Some?)
      && (Renewing(worker.pc) ==> worker.ticker.Some?)
      && (!InHandler(worker.pc) ==> worker.ticker.None?)
      && (worker.pc.Starting? ==>
            worker.ticker.None? && worker.due <= worker.claimedAt + 15 * SECOND
            && worker.claimedAt - latency + cfg.lease <= worker.grant.value)
      && (worker.grant.Some? && worker.ticker.Some? ==>
            worker.ticker.value + margin - 15 * SECOND + Reserve(cfg, margin, latency) <= worker.grant.value)
      && (worker.grant.Some? && (worker.pc.AnnouncingRetry? || (worker.pc.Persisting? && worker.pc.closing.EndExhausted?)) ==>
            worker.due - 30 * SECOND + Reserve(cfg, margin, latency) <= worker.grant.value)
      && (worker.grant.Some? && (worker.pc.Requeuing? || worker.pc.Releasing?) ==>
            worker.due - 45 * SECOND + Reserve(cfg, margin, latency) <= worker.grant.value)
  }

  ghost predicate TimedInv(cfg: WorkerConfig, s: State, margin: int, latency: int) {
    Slack(cfg, margin, latency)
    && forall w :: 0 <= w < |s.workers| ==> WorkerTimed(cfg, s.clock, s.workers[w], margin, latency)
  }

  /** A run that may still write is within its lease. */
  lemma WritersAreWithin(cfg: WorkerConfig, s: State, w: nat, margin: int, latency: int)
    requires TimedInv(cfg, s, margin, latency) && w < |s.workers| && s.workers[w].Busy? && s.workers[w].grant.Some?
    requires MayWrite(s.workers[w].pc) || s.workers[w].ticker.Some?
    ensures Within(s, s.workers[w], margin)
  {
    assert WorkerTimed(cfg, s.clock, s.workers[w], margin, latency);
  }

  /** A retry begun while at least this much lease is left ends inside it. */
  lemma RetryTimed(cfg: WorkerConfig, clock: int, worker: Worker, cause: Error, margin: int, latency: int)
    requires worker.Busy? && worker.pc == ToRetry(cfg, worker.m, cause) && worker.ticker.None?
    requires worker.due == clock + 15 * SECOND
    requires worker.grant.Some? && clock - 15 * SECOND + Reserve(cfg, margin, latency) <= worker.grant.value
    ensures WorkerTimed(cfg, clock, worker, margin, latency)
  {
  }

  /** How much lease a handler has left, whenever it gives up. */
  lemma HandlerHasReserve(cfg: WorkerConfig, clock: int, worker: Worker, margin: int, latency: int)
    requires Slack(cfg, margin, latency) && WorkerTimed(cfg, clock, worker, margin, latency)
    requires worker.Busy? && BeforeRecord(worker.pc)
    ensures worker.grant.Some? && clock - 15 * SECOND + Reserve(cfg, margin, latency) <= worker.grant.value
  {
  }

  /** A handler that gives up goes into a retry with its grant, and without its renewals. */
  lemma GivingUp(cfg: WorkerConfig, clock: int, worker: Worker, c: Call, cause: Error, margin: int, latency: int)
    requires Slack(cfg, margin, latency) && WorkerTimed(cfg, clock, worker, margin, latency)
    requires worker.Busy? && BeforeRecord(worker.pc) && Offers(cfg, worker.m, worker.pc, c)
    requires Advance(cfg, worker.m, worker.pc, c) == ToRetry(cfg, worker.m, cause)
    requires c.Persist? ==> c.verdict.Failing?
    ensures WorkerTimed(cfg, clock, Moved(cfg, clock, worker, c), margin, latency)
  {
    HandlerHasReserve(cfg, clock, worker, margin, latency);
    var next := Moved(cfg, clock, worker, c);
    RetryShape(cfg, worker.m, cause);
    if next.Busy? { RetryTimed(cfg, clock, next, cause, margin, latency); }
  }

  lemma RetryShape(cfg: WorkerConfig, m: Message, cause: Error)
    ensures var pc := ToRetry(cfg, m, cause);
            && !InHandler(pc) && !pc.Applying? && !pc.Finished?
            && (pc.AnnouncingRetry? || pc.Requeuing? || pc.DeadLettering?
                || (pc.Persisting? && pc.live && pc.bundle.service.outcome.Failed?))
  {
  }

  lemma AcquisitionTimed(cfg: WorkerConfig, clock: int, worker: Worker, c: Call, margin: int, latency: int)
    requires Slack(cfg, margin, latency) && worker.Busy? && worker.pc.Claiming?
    requires Offers(cfg, worker.m, worker.pc, c) && c.claim.Claimed? && c.claim.disposition.ClaimAcquired?
    requires worker.sampled.Some? && clock - latency <= worker.sampled.value && worker.ticker.None?
    ensures WorkerTimed(cfg, clock, Moved(cfg, clock, worker, c), margin, latency)
  {
    assert Advance(cfg, worker.m, worker.pc, c) == Starting;
  }

  /** A delivery turned away, or sent to replay, has no lease to keep. */
  lemma NoGrantTimed(cfg: WorkerConfig, clock: int, worker: Worker, c: Call, margin: int, latency: int)
    requires worker.Busy? && worker.pc.Claiming? && worker.ticker.None?
    requires Offers(cfg, worker.m, worker.pc, c) && c.claim.Claimed? && !c.claim.disposition.ClaimAcquired?
    requires worker.sampled.Some?
    requires var pc := Advance(cfg, worker.m, worker.pc, c);
             (pc.Requeuing? && !pc.counted) || (pc.ClosingService? && pc.closing.EndHandler?)
    ensures WorkerTimed(cfg, clock, Moved(cfg, clock, worker, c), margin, latency)
  {
  }

  lemma ClaimTimed(cfg: WorkerConfig, s: State, w: nat, c: Call, took: bool, margin: int, latency: int)
    requires Inv(cfg, s) && TimedInv(cfg, s, margin, latency) && Enabled(cfg, s, Act(w, c, took))
    requires PermitsTimely(cfg, s, Act(w, c, took), margin, latency, NoWaiver) && c.Claim?
    ensures WorkerTimed(cfg, s.clock, Moved(cfg, s.clock, s.workers[w], c), margin, latency)
  {
    var worker := s.workers[w];
    assert WorkerOk(cfg, s, worker);
    assert WorkerTimed(cfg, s.clock, worker, margin, latency);
    if c.claim.disposition.ClaimAcquired? {
      AcquisitionTimed(cfg, s.clock, worker, c, margin, latency);
    } else {
      if c.claim.disposition.ClaimBusy? {
        ToRetryOk(cfg, s, worker.m, LeaseBusy);
      } else {
        StoredResultIsFaithful(s.rows, s.hist, IdOf(worker.m));
      }
      NoGrantTimed(cfg, s.clock, worker, c, margin, latency);
    }
  }

  lemma RunTimed(cfg: WorkerConfig, clock: int, worker: Worker, c: Call, margin: int, latency: int)
    requires Slack(cfg, margin, latency) && WorkerTimed(cfg, clock, worker, margin, latency)
    requires worker.Busy? && Offers(cfg, worker.m, worker.pc, c)
    requires worker.pc.Starting? || worker.pc.Applying? || worker.pc.Announcing?
    ensures WorkerTimed(cfg, clock, Moved(cfg, clock, worker, c), margin, latency)
  {
    if c.Publish? && c.verdict.Failing? {
      var note := if worker.pc.Starting? then PublishingStarted else PublishingDeployed;
      GivingUp(cfg, clock, worker, c, Wrapped(note, c.verdict.error), margin, latency);
    } else if c.Deploy? && c.deploy.NotApplied? && Retriable(c.deploy.error) {
      GivingUp(cfg, clock, worker, c, Wrapped(DeployingResources, c.deploy.error), margin, latency);
    }
  }

  lemma WaitTimed(cfg: WorkerConfig, clock: int, worker: Worker, c: Call, margin: int, latency: int)
    requires Slack(cfg, margin, latency) && WorkerTimed(cfg, clock, worker, margin, latency)
    requires worker.Busy? && Offers(cfg, worker.m, worker.pc, c)
    requires worker.pc.Awaiting? || worker.pc.Rechecking? || worker.pc.Pending?
    ensures WorkerTimed(cfg, clock, Moved(cfg, clock, worker, c), margin, latency)
  {
    if c.Publish? && c.verdict.Failing? {
      GivingUp(cfg, clock, worker, c, Wrapped(PublishingPending, c.verdict.error), margin, latency);
    } else if worker.pc.Awaiting? && c.rollout.NotReady? && !TimedOut(c.rollout) && Retriable(c.rollout.error) {
      GivingUp(cfg, clock, worker, c, Wrapped(WaitingForRollout, c.rollout.error), margin, latency);
    }
  }

  lemma CloseTimed(cfg: WorkerConfig, clock: int, worker: Worker, c: Call, margin: int, latency: int)
    requires Slack(cfg, margin, latency) && WorkerTimed(cfg, clock, worker, margin, latency)
    requires worker.Busy? && Offers(cfg, worker.m, worker.pc, c)
    requires worker.pc.Persisting? || worker.pc.ClosingService? || worker.pc.ClosingProgress?
    requires Closes(worker.pc) ==> c.verdict.Fine?
    ensures WorkerTimed(cfg, clock, Moved(cfg, clock, worker, c), margin, latency)
  {
    if c.verdict.Failing? && worker.pc.closing.EndHandler? {
      GivingUp(cfg, clock, worker, c, Wrapped(PersistingResult, c.verdict.error), margin, latency);
    }
  }

  lemma TailTimed(cfg: WorkerConfig, clock: int, worker: Worker, c: Call, margin: int, latency: int)
    requires Slack(cfg, margin, latency) && WorkerTimed(cfg, clock, worker, margin, latency)
    requires worker.Busy? && Offers(cfg, worker.m, worker.pc, c)
    requires worker.pc.AnnouncingRetry? || worker.pc.Requeuing? || worker.pc.Releasing? || worker.pc.DeadLettering? || worker.pc.Acking? || worker.pc.Nacking?
    ensures WorkerTimed(cfg, clock, Moved(cfg, clock, worker, c), margin, latency)
  {
  }

  lemma CallTimed(cfg: WorkerConfig, s: State, w: nat, c: Call, took: bool, margin: int, latency: int)
    requires Inv(cfg, s) && TimedInv(cfg, s, margin, latency) && Enabled(cfg, s, Act(w, c, took))
    requires PermitsTimely(cfg, s, Act(w, c, took), margin, latency, NoWaiver)
    ensures WorkerTimed(cfg, s.clock, Moved(cfg, s.clock, s.workers[w], c), margin, latency)
  {
    var worker := s.workers[w];
    var pc := worker.pc;
    assert WorkerTimed(cfg, s.clock, worker, margin, latency);
    if pc.Claiming? {
      ClaimTimed(cfg, s, w, c, took, margin, latency);
    } else if pc.Starting? || pc.Applying? || pc.Announcing? {
      RunTimed(cfg, s.clock, worker, c, margin, latency);
    } else if pc.Awaiting? || pc.Rechecking? || pc.Pending? {
      WaitTimed(cfg, s.clock, worker, c, margin, latency);
    } else if pc.Persisting? || pc.ClosingService? || pc.ClosingProgress? {
      CloseTimed(cfg, s.clock, worker, c, margin, latency);
    } else {
      TailTimed(cfg, s.clock, worker, c, margin, latency);
    }
  }

  lemma MoveTimed(cfg: WorkerConfig, s: State, l: Label, margin: int, latency: int, w: nat)
    requires TimedInv(cfg, s, margin, latency) && Enabled(cfg, s, l) && !l.Act?
    requires PermitsTimely(cfg, s, l, margin, latency, NoWaiver) && w < |s.workers|
    ensures WorkerTimed(cfg, Apply(cfg, s, l).clock, Apply(cfg, s, l).workers[w], margin, latency)
  {
    assert WorkerTimed(cfg, s.clock, s.workers[w], margin, latency);
  }

  lemma ActTimed(cfg: WorkerConfig, s: State, l: Label, margin: int, latency: int, w: nat)
    requires Inv(cfg, s) && TimedInv(cfg, s, margin, latency) && Enabled(cfg, s, l) && l.Act?
    requires PermitsTimely(cfg, s, l, margin, latency, NoWaiver) && w < |s.workers|
    ensures WorkerTimed(cfg, Apply(cfg, s, l).clock, Apply(cfg, s, l).workers[w], margin, latency)
  {
    if w == l.w {
      CallTimed(cfg, s, l.w, l.c, l.took, margin, latency);
    } else {
      assert WorkerTimed(cfg, s.clock, s.workers[w], margin, latency);
    }
  }

  lemma StepTimed(cfg: WorkerConfig, s: State, l: Label, margin: int, latency: int)
    requires Inv(cfg, s) && TimedInv(cfg, s, margin, latency) && Enabled(cfg, s, l)
    requires PermitsTimely(cfg, s, l, margin, latency, NoWaiver)
    ensures TimedInv(cfg, Apply(cfg, s, l), margin, latency)
  {
    var s' := Apply(cfg, s, l);
    forall w | 0 <= w < |s'.workers| ensures WorkerTimed(cfg, s'.clock, s'.workers[w], margin, latency) {
      if l.Act? { ActTimed(cfg, s, l, margin, latency, w); } else { MoveTimed(cfg, s, l, margin, latency, w); }
    }
  }

  /** Every step that the timing allows keeps to the leases. */
  lemma TimelyIsLeased(cfg: WorkerConfig, s: State, l: Label, margin: int, latency: int)
    requires TimedInv(cfg, s, margin, latency) && Enabled(cfg, s, l) && PermitsTimely(cfg, s, l, margin, latency, NoWaiver)
    ensures PermitsLeased(s, l, margin, NoWaiver)
  {
    if l.Act? || l.Renew? {
      assert WorkerTimed(cfg, s.clock, s.workers[l.w], margin, latency);
      if s.workers[l.w].grant.Some? && (MayWrite(s.workers[l.w].pc) || s.workers[l.w].ticker.Some?) {
        WritersAreWithin(cfg, s, l.w, margin, latency);
      }
    }
  }

  lemma {:induction false} TimelyRunsAreLeased(cfg: WorkerConfig, s: State, run: seq<Label>, margin: int, latency: int)
    requires Inv(cfg, s) && TimedInv(cfg, s, margin, latency) && Legal(cfg, s, run, Timely(margin, latency, NoWaiver))
    ensures Legal(cfg, s, run, Leased(margin, NoWaiver))
    ensures ExecAll(cfg, s, run, Leased(margin, NoWaiver)) == ExecAll(cfg, s, run, Timely(margin, latency, NoWaiver))
    ensures TimedInv(cfg, ExecAll(cfg, s, run, Timely(margin, latency, NoWaiver)), margin, latency)
    decreases |run|
  {
    if run != [] {
      StepKeepsInv(cfg, s, run[0]);
      StepTimed(cfg, s, run[0], margin, latency);
      TimelyIsLeased(cfg, s, run[0], margin, latency);
      TimelyRunsAreLeased(cfg, Apply(cfg, s, run[0]), run[1..], margin, latency);
    }
  }

  /** With reliable claims and closing publishes, calls that keep their deadlines and renewals that succeed, leases do
      their work, now and later: a deployment has one holder at a time, the broker hears of one outcome only, the one on
      its row, and a row that holds an outcome never changes again, published or not. */
  lemma OutcomeAgreement(cfg: WorkerConfig, workers: nat, run: seq<Label>, more: seq<Label>, margin: nat, latency: nat)
    requires ConfigOk(cfg) && Slack(cfg, margin, latency)
    requires Legal(cfg, Initial(cfg, workers), run + more, Timely(margin, latency, NoWaiver))
    ensures Legal(cfg, Initial(cfg, workers), run, Timely(margin, latency, NoWaiver))
    ensures Agrees(ExecAll(cfg, Initial(cfg, workers), run + more, Timely(margin, latency, NoWaiver)), margin)
    ensures OutcomesStay(ExecAll(cfg, Initial(cfg, workers), run, Timely(margin, latency, NoWaiver)),
                         ExecAll(cfg, Initial(cfg, workers), run + more, Timely(margin, latency, NoWaiver)))
  {
    var s0 := Initial(cfg, workers);
    var g := Timely(margin, latency, NoWaiver);
    LegalConcat(cfg, s0, run, more, g);
    InitialInv(cfg, workers);
    TimelyRunsAreLeased(cfg, s0, run, margin, latency);
    TimelyRunsAreLeased(cfg, s0, run + more, margin, latency);
    TimelyStateAgrees(cfg, workers, run + more, margin, latency);
    var s := ExecAll(cfg, s0, run, g);
    forall k | k in s.rows && Terminal(s.rows[k])
      ensures k in ExecAll(cfg, s0, run + more, g).rows && ExecAll(cfg, s0, run + more, g).rows[k] == s.rows[k]
    {
      OutcomesAreFinal(cfg, workers, run, more, margin, k);
    }
  }

  /** One holder per deployment, and every service event ever handed to the broker is the one on its deployment's row. */
  ghost predicate Agrees(s: State, margin: int) {
    && OneHolder(s, margin) && PublishedStand(s)
    && (forall e, e' | e in s.hist.attempted && e' in s.hist.attempted ::
          e.source.deploymentId == e'.source.deploymentId ==> e == e')
  }

  ghost predicate OutcomesStay(s: State, t: State) {
    forall k :: k in s.rows && Terminal(s.rows[k]) ==> k in t.rows && t.rows[k] == s.rows[k]
  }

  lemma TimelyStateAgrees(cfg: WorkerConfig, workers: nat, run: seq<Label>, margin: nat, latency: nat)
    requires ConfigOk(cfg) && Slack(cfg, margin, latency) && Legal(cfg, Initial(cfg, workers), run, Timely(margin, latency, NoWaiver))
    ensures Agrees(ExecAll(cfg, Initial(cfg, workers), run, Timely(margin, latency, NoWaiver)), margin)
  {
    var s0 := Initial(cfg, workers);
    InitialInv(cfg, workers);
    InitialLeaseInv(cfg, workers, margin);
    TimelyRunsAreLeased(cfg, s0, run, margin, latency);
    RunKeepsLeaseInv(cfg, s0, run, margin);
    var s := ExecAll(cfg, s0, run, Timely(margin, latency, NoWaiver));
    forall e, e' | e in s.hist.attempted && e' in s.hist.attempted && e.source.deploymentId == e'.source.deploymentId
      ensures e == e'
    {
      assert StandsFor(s, e) && StandsFor(s, e');
    }
  }
}
