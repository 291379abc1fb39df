/** What every reachable state keeps, with no assumption on failures, crashes or timing. */
module FleetInvariant {
  import opened Wrappers
  import opened Errors
  import opened Names
  import opened Events
  import opened StageLedger
  import opened Delivery
  import opened Fleet

  /** The configuration the process accepts: at least one attempt and one retry queue. */
  predicate ConfigOk(cfg: WorkerConfig) {
    cfg.maxAttempts >= 1 && |cfg.backoffs| >= 1
  }

  // ---- Messages ----

  predicate Known(h: History, m: Message) {
    m.origin in h.injected && h.injected[m.origin] == m.body
  }

  predicate LiveMessage(cfg: WorkerConfig, h: History, m: Message) {
    Known(h, m) && 0 <= Attempt(m) < cfg.maxAttempts
  }

  predicate DeadMessage(cfg: WorkerConfig, h: History, m: Message) {
    Known(h, m) && 0 <= Attempt(m) <= cfg.maxAttempts
  }

  ghost predicate QueueOk(cfg: WorkerConfig, h: History, queue: multiset<Message>) {
    forall m :: m in queue ==> LiveMessage(cfg, h, m)
  }

  ghost predicate MessagesOk(cfg: WorkerConfig, s: State) {
    && |s.retry| == |cfg.backoffs|
    && QueueOk(cfg, s.hist, s.main)
    && (forall q :: 0 <= q < |s.retry| ==> QueueOk(cfg, s.hist, s.retry[q]))
    && (forall m :: m in s.dead ==> DeadMessage(cfg, s.hist, m))
  }

  // ---- Rows and history ----

  /** The bundle has been handed to the ledger and the ledger returned no error. */
  predicate Filed(h: History, b: Bundle) {
    b in h.recorded || b in h.unfiled
  }

  ghost predicate Announces(h: History, e: ServiceEvent) {
    exists b :: Filed(h, b) && b.service == e
  }

  ghost predicate RowsMatchHistory(rows: map<string, StageRecord>, h: History) {
    && rows.Keys == h.acquired.Keys
    && (forall k :: k in rows ==> rows[k].attempt == h.acquired[k])
    && (forall k :: k in rows ==> rows[k].result == if k in h.last then Some(h.last[k]) else None)
    && (forall k :: k in h.last ==> k in rows && h.last[k] in h.recorded)
    && (forall b :: b in h.recorded ==> b.service.source.deploymentId in rows)
    && (forall b :: b in h.unfiled ==> b.service.outcome.Failed?)
  }

  /** Every service event handed to the broker belongs to a bundle handed to the ledger before. */
  ghost predicate AttemptsAnnounced(h: History) {
    forall e :: e in h.attempted ==> Announces(h, e)
  }

  // ---- Workers ----

  /** Beyond its first calls, a delivery works on an admitted message, and what it is about to say is consistent: rows
      exist once claimed, outcomes match the deployment, retry numbers stay in range, and an outcome being published is
      on file already. */
  ghost predicate PcOk(cfg: WorkerConfig, s: State, m: Message, pc: Pc) {
    match pc
    case Acking => true
    case Nacking(requeue) => !requeue ==> !IsAdmitted(cfg, m)
    case DeadLettering(attempt, _, dropping) => (dropping ==> !IsAdmitted(cfg, m)) && 0 <= attempt <= cfg.maxAttempts
    case Persisting(b, _, closing) =>
      && IsAdmitted(cfg, m) && Matched(b, IdOf(m))
      && (closing.EndHandler? || b.service.outcome.Succeeded? ==> IdOf(m) in s.rows)
      && (closing.EndExhausted? ==> 0 <= closing.attempt <= cfg.maxAttempts)
    case ClosingService(b, closing) =>
      && IsAdmitted(cfg, m) && Matched(b, IdOf(m)) && Filed(s.hist, b)
      && (closing.EndExhausted? ==> 0 <= closing.attempt <= cfg.maxAttempts)
    case ClosingProgress(b, closing) =>
      && IsAdmitted(cfg, m) && Matched(b, IdOf(m)) && Filed(s.hist, b) && ServiceNotice(b.service) in s.hist.confirmed
      && (closing.EndExhausted? ==> 0 <= closing.attempt <= cfg.maxAttempts)
    case AnnouncingRetry(attempt, _) => IsAdmitted(cfg, m) && 0 < attempt < cfg.maxAttempts
    case Requeuing(attempt, _, _) => IsAdmitted(cfg, m) && 0 <= attempt < cfg.maxAttempts
    case Releasing => IsAdmitted(cfg, m)
    case Claiming => IsAdmitted(cfg, m)
    case Finished => false
    case _ => IsAdmitted(cfg, m) && IdOf(m) in s.rows
  }

  ghost predicate WorkerOk(cfg: WorkerConfig, s: State, worker: Worker) {
    worker.Busy? ==> LiveMessage(cfg, s.hist, worker.m) && PcOk(cfg, s, worker.m, worker.pc)
  }

  ghost predicate WorkersOk(cfg: WorkerConfig, s: State) {
    forall w :: 0 <= w < |s.workers| ==> WorkerOk(cfg, s, s.workers[w])
  }

  // ---- Coverage: no message is lost ----

  datatype Place = InMain | InRetry(q: int) | InDead | At(w: int)

  /** The worker has passed its message on and only has to acknowledge its own copy. */
  predicate PassedOn(pc: Pc) {
    pc.Releasing? || pc.Acking? || pc.Finished?
  }

  predicate CopyAt(s: State, p: Place, m: Message) {
    match p
    case InMain => m in s.main
    case InRetry(q) => 0 <= q < |s.retry| && m in s.retry[q]
    case InDead => m in s.dead
    case At(w) => 0 <= w < |s.workers| && s.workers[w].Busy? && s.workers[w].m == m && !PassedOn(s.workers[w].pc)
  }

  ghost predicate Kept(s: State, origin: nat) {
    exists p, m :: CopyAt(s, p, m) && m.origin == origin
  }

  /** Both events of an outcome of deployment `id` that is on file are confirmed. */
  ghost predicate Told(h: History, id: string, b: Bundle) {
    Filed(h, b) && Matched(b, id) && ServiceNotice(b.service) in h.confirmed && ProgressNotice(b.progress) in h.confirmed
  }

  /** The notice is a rollout-pending event of deployment `id`. */
  predicate SaysPending(id: string, n: Notice) {
    n.ProgressNotice? && n.progress.mark == RolloutPending && n.progress.source.deploymentId == id
  }

  /** The notice is the last of a pair that is told, or a pending event that is confirmed. */
  ghost predicate Final(h: History, id: string, n: Notice) {
    || (n in h.confirmed && SaysPending(id, n))
    || (exists b :: Told(h, id, b) && n == ProgressNotice(b.progress))
  }

  /** A delivery of this very message has ended with such a notice confirmed. */
  ghost predicate Settled(h: History, origin: nat, id: string) {
    exists n :: (origin, n) in h.settled && Final(h, id, n)
  }

  predicate AdmittedBody(cfg: WorkerConfig, body: Body) {
    Admit(cfg, body).Admitted?
  }

  function BodyId(body: Body): string {
    if body.Build? then body.event.deploymentId else ""
  }

  ghost predicate Covered(cfg: WorkerConfig, s: State, origin: nat)
    requires origin in s.hist.injected
  {
    || Kept(s, origin)
    || Settled(s.hist, origin, BodyId(s.hist.injected[origin]))
    || (origin in s.hist.dropped && !AdmittedBody(cfg, s.hist.injected[origin]))
  }

  ghost predicate AllCovered(cfg: WorkerConfig, s: State) {
    forall origin :: origin in s.hist.injected ==> Covered(cfg, s, origin)
  }

  ghost predicate Inv(cfg: WorkerConfig, s: State) {
    && ConfigOk(cfg)
    && RowsOk(s.rows)
    && RowsMatchHistory(s.rows, s.hist)
    && AttemptsAnnounced(s.hist)
    && MessagesOk(cfg, s)
    && WorkersOk(cfg, s)
    && AllCovered(cfg, s)
  }

  // ---- The machine keeps a delivery consistent ----

  /** Retries stay in range; and a busy lease, which does not count, never exhausts them. */
  lemma ToRetryOk(cfg: WorkerConfig, s: State, m: Message, cause: Error)
    requires ConfigOk(cfg) && IsAdmitted(cfg, m) && 0 <= Attempt(m) < cfg.maxAttempts
    ensures PcOk(cfg, s, m, ToRetry(cfg, m, cause)) && !PassedOn(ToRetry(cfg, m, cause))
    ensures !Counts(cause) ==> ToRetry(cfg, m, cause) == Requeuing(Attempt(m), cause, false)
  {
  }

  /** Every retry number in range names a declared queue. */
  lemma RetryQueueDeclared(cfg: WorkerConfig, attempt: int)
    requires ConfigOk(cfg)
    ensures 0 <= attempt ==> 0 <= RetryQueue(cfg, attempt) < |cfg.backoffs|
  {
  }

  /** Rows are never deleted and history only grows. */
  ghost predicate Grows(s: State, s': State) {
    && s.rows.Keys <= s'.rows.Keys
    && s.hist.recorded <= s'.hist.recorded && s.hist.unfiled <= s'.hist.unfiled && s.hist.confirmed <= s'.hist.confirmed
    && s.hist.dropped <= s'.hist.dropped && s.hist.settled <= s'.hist.settled
    && (forall o :: o in s.hist.injected ==> o in s'.hist.injected && s'.hist.injected[o] == s.hist.injected[o])
  }

  lemma EffectGrows(cfg: WorkerConfig, s: State, worker: Worker, c: Call, took: bool)
    requires worker.Busy? && Consistent(s, worker, c, took)
    ensures Grows(s, Effect(cfg, s, worker, c, took))
  {
  }

  lemma PcOkGrows(cfg: WorkerConfig, s: State, s': State, m: Message, pc: Pc)
    requires PcOk(cfg, s, m, pc) && Grows(s, s')
    ensures PcOk(cfg, s', m, pc)
  {
  }

  lemma OthersStayOk(cfg: WorkerConfig, s: State, s': State)
    requires WorkersOk(cfg, s) && Grows(s, s')
    ensures forall w :: 0 <= w < |s.workers| ==> WorkerOk(cfg, s', s.workers[w])
  {
    forall w | 0 <= w < |s.workers| ensures WorkerOk(cfg, s', s.workers[w]) {
      if s.workers[w].Busy? { PcOkGrows(cfg, s, s', s.workers[w].m, s.workers[w].pc); }
    }
  }

  /** The delivery of `worker` is consistent, and makes call `c`. */
  ghost predicate Acts(cfg: WorkerConfig, s: State, worker: Worker, c: Call, took: bool) {
    && ConfigOk(cfg) && worker.Busy? && WorkerOk(cfg, s, worker)
    && Offers(cfg, worker.m, worker.pc, c) && Consistent(s, worker, c, took)
  }

  lemma ClaimStepOk(cfg: WorkerConfig, s: State, worker: Worker, c: Call, took: bool)
    requires Acts(cfg, s, worker, c, took) && c.Claim?
    requires RowsOk(s.rows) && RowsMatchHistory(s.rows, s.hist)
    ensures PcOk(cfg, Effect(cfg, s, worker, c, took), worker.m, Advance(cfg, worker.m, worker.pc, c))
  {
    var s', m := Effect(cfg, s, worker, c, took), worker.m;
    var pc' := Advance(cfg, m, worker.pc, c);
    assert worker.pc.Claiming?;
    if c.claim.ClaimError? {
      ToRetryOk(cfg, s', m, Wrapped(ClaimingStage, c.claim.error));
    } else if c.claim.disposition.ClaimBusy? {
      ToRetryOk(cfg, s', m, LeaseBusy);
    } else if c.claim.disposition.ClaimAcquired? {
      assert pc' == Starting;
    } else {
      StoredResultIsFaithful(s.rows, s.hist, IdOf(m));
    }
  }

  /** A terminal row holds the pair last persisted to it, so a replay never fails to decode it. */
  lemma StoredResultIsFaithful(rows: map<string, StageRecord>, h: History, id: string)
    requires RowsOk(rows) && RowsMatchHistory(rows, h)
    requires id in rows && Terminal(rows[id])
    ensures id in h.last && rows[id].result == Some(h.last[id]) && Matched(h.last[id], id) && Filed(h, h.last[id])
    ensures rows[id].state == StateFor(h.last[id].service.outcome) && rows[id].lease.None?
  {
  }

  lemma RunStepOk(cfg: WorkerConfig, s: State, worker: Worker, c: Call, took: bool)
    requires Acts(cfg, s, worker, c, took)
    requires worker.pc.Starting? || worker.pc.Applying? || worker.pc.Announcing? || worker.pc.Awaiting? || worker.pc.Rechecking? || worker.pc.Pending?
    ensures PcOk(cfg, Effect(cfg, s, worker, c, took), worker.m, Advance(cfg, worker.m, worker.pc, c))
  {
    var s', m := Effect(cfg, s, worker, c, took), worker.m;
    var pc' := Advance(cfg, m, worker.pc, c);
    if c.Publish? && c.verdict.Failing? {
      ToRetryOk(cfg, s', m, Wrapped(PublishingStarted, c.verdict.error));
      ToRetryOk(cfg, s', m, Wrapped(PublishingDeployed, c.verdict.error));
      ToRetryOk(cfg, s', m, Wrapped(PublishingPending, c.verdict.error));
    } else if c.Deploy? && c.deploy.NotApplied? {
      ToRetryOk(cfg, s', m, Wrapped(DeployingResources, c.deploy.error));
    } else if c.Await? && c.rollout.NotReady? {
      ToRetryOk(cfg, s', m, Wrapped(WaitingForRollout, c.rollout.error));
    }
  }

  lemma CloseStepOk(cfg: WorkerConfig, s: State, worker: Worker, c: Call, took: bool)
    requires Acts(cfg, s, worker, c, took)
    requires worker.pc.Persisting? || worker.pc.ClosingService? || worker.pc.ClosingProgress?
    ensures PcOk(cfg, Effect(cfg, s, worker, c, took), worker.m, Advance(cfg, worker.m, worker.pc, c))
  {
    var s', m := Effect(cfg, s, worker, c, took), worker.m;
    EffectGrows(cfg, s, worker, c, took);
    if c.verdict.Failing? {
      ToRetryOk(cfg, s', m, Wrapped(PersistingResult, c.verdict.error));
      ToRetryOk(cfg, s', m, Wrapped(PublishingService, c.verdict.error));
      ToRetryOk(cfg, s', m, Wrapped(PublishingProgress, c.verdict.error));
    }
  }

  lemma RetryStepOk(cfg: WorkerConfig, s: State, worker: Worker, c: Call, took: bool)
    requires Acts(cfg, s, worker, c, took)
    requires worker.pc.AnnouncingRetry? || worker.pc.Requeuing? || worker.pc.Releasing? || worker.pc.DeadLettering?
    ensures PcOk(cfg, Effect(cfg, s, worker, c, took), worker.m, Advance(cfg, worker.m, worker.pc, c))
  {
  }

  /** After its call a delivery is finished or consistent again. */
  lemma ActWorkerOk(cfg: WorkerConfig, s: State, worker: Worker, c: Call, took: bool)
    requires Acts(cfg, s, worker, c, took)
    requires RowsOk(s.rows) && RowsMatchHistory(s.rows, s.hist)
    ensures WorkerOk(cfg, Effect(cfg, s, worker, c, took), Moved(cfg, s.clock, worker, c))
  {
    var pc := worker.pc;
    EffectGrows(cfg, s, worker, c, took);
    if pc.Claiming? {
      ClaimStepOk(cfg, s, worker, c, took);
    } else if pc.Persisting? || pc.ClosingService? || pc.ClosingProgress? {
      CloseStepOk(cfg, s, worker, c, took);
    } else if pc.AnnouncingRetry? || pc.Requeuing? || pc.Releasing? || pc.DeadLettering? {
      RetryStepOk(cfg, s, worker, c, took);
    } else if !pc.Acking? && !pc.Nacking? {
      RunStepOk(cfg, s, worker, c, took);
    }
  }

  lemma EffectRowsOk(cfg: WorkerConfig, s: State, worker: Worker, c: Call, took: bool)
    requires Acts(cfg, s, worker, c, took) && RowsOk(s.rows)
    ensures RowsOk(Effect(cfg, s, worker, c, took).rows)
  {
    match c
    case Claim(id, _) =>
      if took { OperationsKeepRowsOk(s.rows, id, worker.sampled.value, cfg.lease, NoBundle()); }
    case Persist(id, b, _, _) => OperationsKeepRowsOk(s.rows, id, 0, 0, b);
    case Release(id, _) => OperationsKeepRowsOk(s.rows, id, 0, 0, NoBundle());
    case _ =>
  }

  lemma EffectAnnounced(cfg: WorkerConfig, s: State, worker: Worker, c: Call, took: bool)
    requires Acts(cfg, s, worker, c, took) && AttemptsAnnounced(s.hist)
    ensures AttemptsAnnounced(Effect(cfg, s, worker, c, took).hist)
  {
    var s' := Effect(cfg, s, worker, c, took);
    EffectGrows(cfg, s, worker, c, took);
    forall e | e in s'.hist.attempted ensures Announces(s'.hist, e) {
      if e in s.hist.attempted {
        var b :| Filed(s.hist, b) && b.service == e;
        assert Filed(s'.hist, b);
      } else {
        assert worker.pc.ClosingService? && Filed(s'.hist, worker.pc.bundle);
      }
    }
  }

  lemma ClaimMatchesHistory(rows: map<string, StageRecord>, h: History, id: string, now: int, d: int)
    requires RowsMatchHistory(rows, h)
    ensures RowsMatchHistory(ClaimRows(rows, id, now, d), CountClaim(h, id, ClaimDisposition(RowAt(rows, id), now)))
  {
  }

  lemma WriteMatchesHistory(rows: map<string, StageRecord>, h: History, id: string, b: Bundle)
    requires RowsMatchHistory(rows, h) && Matched(b, id) && (id !in rows ==> b.service.outcome.Failed?)
    ensures RowsMatchHistory(SetRows(rows, id, StateFor(b.service.outcome), b), FileBundle(h, rows, id, b))
  {
  }

  lemma EffectHistoryOk(cfg: WorkerConfig, s: State, worker: Worker, c: Call, took: bool)
    requires Acts(cfg, s, worker, c, took) && RowsMatchHistory(s.rows, s.hist)
    ensures RowsMatchHistory(Effect(cfg, s, worker, c, took).rows, Effect(cfg, s, worker, c, took).hist)
  {
    match c
    case Claim(id, _) =>
      if took { ClaimMatchesHistory(s.rows, s.hist, id, worker.sampled.value, cfg.lease); }
    case Persist(id, b, _, _) => WriteMatchesHistory(s.rows, s.hist, id, b);
    case _ =>
  }

  /** Some bundle, where an argument does not matter. */
  function NoBundle(): Bundle {
    SuccessBundle(NO_EVENT, DeploymentTarget("", "", "", "", "", 0, false))
  }

  lemma QueueOkGrows(cfg: WorkerConfig, s: State, s': State, queue: multiset<Message>)
    requires QueueOk(cfg, s.hist, queue) && Grows(s, s')
    ensures QueueOk(cfg, s'.hist, queue)
  {
  }

  lemma EffectRetriesOk(cfg: WorkerConfig, s: State, worker: Worker, c: Call, took: bool)
    requires Acts(cfg, s, worker, c, took) && MessagesOk(cfg, s)
    ensures var s' := Effect(cfg, s, worker, c, took);
            |s'.retry| == |s.retry| && forall q :: 0 <= q < |s'.retry| ==> QueueOk(cfg, s.hist, s'.retry[q])
  {
    if c.Requeue? {
      assert LiveMessage(cfg, s.hist, c.copy);
    }
  }

  lemma EffectMessagesOk(cfg: WorkerConfig, s: State, worker: Worker, c: Call, took: bool)
    requires Acts(cfg, s, worker, c, took) && MessagesOk(cfg, s)
    ensures MessagesOk(cfg, Effect(cfg, s, worker, c, took))
  {
    var s' := Effect(cfg, s, worker, c, took);
    EffectGrows(cfg, s, worker, c, took);
    EffectRetriesOk(cfg, s, worker, c, took);
    QueueOkGrows(cfg, s, s', s.main);
    forall q | 0 <= q < |s'.retry| ensures QueueOk(cfg, s'.hist, s'.retry[q]) {
      QueueOkGrows(cfg, s, s', s'.retry[q]);
    }
  }

  // ---- Coverage survives every step ----

  lemma SettledGrows(s: State, s': State, origin: nat, id: string)
    requires Settled(s.hist, origin, id) && Grows(s, s')
    ensures Settled(s'.hist, origin, id)
  {
    var n :| (origin, n) in s.hist.settled && Final(s.hist, id, n);
    if b :| Told(s.hist, id, b) && n == ProgressNotice(b.progress) {
      assert Told(s'.hist, id, b);
    }
    assert (origin, n) in s'.hist.settled && Final(s'.hist, id, n);
  }

  /** Coverage carries over once the copies do. */
  lemma CoveredGrows(cfg: WorkerConfig, s: State, s': State, origin: nat)
    requires Grows(s, s') && origin in s.hist.injected && Covered(cfg, s, origin)
    requires Kept(s, origin) ==> Covered(cfg, s', origin)
    ensures Covered(cfg, s', origin)
  {
    if Settled(s.hist, origin, BodyId(s.hist.injected[origin])) {
      SettledGrows(s, s', origin, BodyId(s.hist.injected[origin]));
    }
  }

  /** A message handed on, or sent back, is in some queue, or was of a kind to drop. */
  lemma HandsOver(cfg: WorkerConfig, s: State, worker: Worker, c: Call, took: bool)
    requires Acts(cfg, s, worker, c, took) && |s.retry| == |cfg.backoffs|
    requires worker.pc.Requeuing? || worker.pc.DeadLettering? || worker.pc.Nacking?
    requires PassedOn(Advance(cfg, worker.m, worker.pc, c))
    ensures var e := Effect(cfg, s, worker, c, took);
            || (exists p, copy :: CopyAt(e, p, copy) && !p.At? && copy.origin == worker.m.origin)
            || (worker.m.origin in e.hist.dropped && !IsAdmitted(cfg, worker.m))
  {
    var e, pc := Effect(cfg, s, worker, c, took), worker.pc;
    if pc.Requeuing? {
      RetryQueueDeclared(cfg, pc.attempt);
      assert CopyAt(e, InRetry(c.queue), c.copy);
    } else if pc.DeadLettering? {
      assert CopyAt(e, InDead, c.copy);
    } else if c.requeue || !took {
      assert CopyAt(e, InMain, worker.m);
    }
  }

  /** A message finished by its events is told. */
  lemma Tells(cfg: WorkerConfig, s: State, worker: Worker, c: Call, took: bool)
    requires Acts(cfg, s, worker, c, took) && (worker.pc.ClosingProgress? || worker.pc.Pending?)
    requires PassedOn(Advance(cfg, worker.m, worker.pc, c))
    ensures Settled(Effect(cfg, s, worker, c, took).hist, worker.m.origin, IdOf(worker.m))
  {
    var e, pc := Effect(cfg, s, worker, c, took), worker.pc;
    assert c.verdict.Fine?;
    if pc.ClosingProgress? {
      assert Told(e.hist, IdOf(worker.m), pc.bundle);
    }
    assert (worker.m.origin, c.notice) in e.hist.settled && Final(e.hist, IdOf(worker.m), c.notice);
  }

  lemma OnlyThesePass(cfg: WorkerConfig, m: Message, pc: Pc, c: Call)
    requires Offers(cfg, m, pc, c) && !PassedOn(pc) && PassedOn(Advance(cfg, m, pc, c))
    ensures pc.Requeuing? || pc.DeadLettering? || pc.Nacking? || pc.ClosingProgress? || pc.Pending?
  {
  }

  /** The acting worker's own message: still in its hands, or safely elsewhere, or told, or of a kind to drop. */
  lemma ActCoversOwn(cfg: WorkerConfig, s: State, w: nat, c: Call, took: bool)
    requires Inv(cfg, s) && Enabled(cfg, s, Act(w, c, took))
    requires !PassedOn(s.workers[w].pc)
    ensures s.workers[w].m.origin in Apply(cfg, s, Act(w, c, took)).hist.injected
    ensures Covered(cfg, Apply(cfg, s, Act(w, c, took)), s.workers[w].m.origin)
  {
    var worker := s.workers[w];
    var m, pc := worker.m, worker.pc;
    var s' := Apply(cfg, s, Act(w, c, took));
    assert WorkerOk(cfg, s, worker);
    EffectGrows(cfg, s, worker, c, took);
    if !PassedOn(Advance(cfg, m, pc, c)) {
      assert CopyAt(s', At(w), m);
      return;
    }
    OnlyThesePass(cfg, m, pc, c);
    if pc.ClosingProgress? || pc.Pending? {
      Tells(cfg, s, worker, c, took);
    } else {
      HandsOver(cfg, s, worker, c, took);
      var e := Effect(cfg, s, worker, c, took);
      if p, copy :| CopyAt(e, p, copy) && !p.At? && copy.origin == m.origin {
        assert CopyAt(s', p, copy);
      }
    }
  }

  lemma ActKeepsCopies(cfg: WorkerConfig, s: State, w: nat, c: Call, took: bool, p: Place, m: Message)
    requires Enabled(cfg, s, Act(w, c, took)) && CopyAt(s, p, m) && p != At(w)
    ensures CopyAt(Apply(cfg, s, Act(w, c, took)), p, m)
  {
  }

  lemma ActCoversKept(cfg: WorkerConfig, s: State, w: nat, c: Call, took: bool, origin: nat)
    requires Inv(cfg, s) && Enabled(cfg, s, Act(w, c, took)) && origin in s.hist.injected && Kept(s, origin)
    ensures origin in Apply(cfg, s, Act(w, c, took)).hist.injected && Covered(cfg, Apply(cfg, s, Act(w, c, took)), origin)
  {
    EffectGrows(cfg, s, s.workers[w], c, took);
    var p, m :| CopyAt(s, p, m) && m.origin == origin;
    if p == At(w) { ActCoversOwn(cfg, s, w, c, took); } else { ActKeepsCopies(cfg, s, w, c, took, p, m); }
  }

  lemma ActGrows(cfg: WorkerConfig, s: State, w: nat, c: Call, took: bool)
    requires Enabled(cfg, s, Act(w, c, took))
    ensures Grows(s, Apply(cfg, s, Act(w, c, took))) && Apply(cfg, s, Act(w, c, took)).hist.injected == s.hist.injected
  {
    EffectGrows(cfg, s, s.workers[w], c, took);
  }

  lemma ActCoversOne(cfg: WorkerConfig, s: State, w: nat, c: Call, took: bool, origin: nat)
    requires Inv(cfg, s) && Enabled(cfg, s, Act(w, c, took)) && origin in s.hist.injected
    ensures origin in Apply(cfg, s, Act(w, c, took)).hist.injected && Covered(cfg, Apply(cfg, s, Act(w, c, took)), origin)
  {
    ActGrows(cfg, s, w, c, took);
    assert Covered(cfg, s, origin);
    if Kept(s, origin) { ActCoversKept(cfg, s, w, c, took, origin); }
    CoveredGrows(cfg, s, Apply(cfg, s, Act(w, c, took)), origin);
  }

  lemma ActCovers(cfg: WorkerConfig, s: State, w: nat, c: Call, took: bool)
    requires Inv(cfg, s) && Enabled(cfg, s, Act(w, c, took))
    ensures AllCovered(cfg, Apply(cfg, s, Act(w, c, took)))
  {
    ActGrows(cfg, s, w, c, took);
    forall origin | origin in s.hist.injected ensures Covered(cfg, Apply(cfg, s, Act(w, c, took)), origin) {
      ActCoversOne(cfg, s, w, c, took, origin);
    }
  }

  lemma ActWorkersOk(cfg: WorkerConfig, s: State, w: nat, c: Call, took: bool)
    requires Inv(cfg, s) && Enabled(cfg, s, Act(w, c, took))
    ensures WorkersOk(cfg, Apply(cfg, s, Act(w, c, took)))
  {
    var worker := s.workers[w];
    var e := Effect(cfg, s, worker, c, took);
    var s' := Apply(cfg, s, Act(w, c, took));
    assert WorkerOk(cfg, s, worker);
    ActWorkerOk(cfg, s, worker, c, took);
    EffectGrows(cfg, s, worker, c, took);
    OthersStayOk(cfg, s, e);
    forall v | 0 <= v < |s'.workers| ensures WorkerOk(cfg, s', s'.workers[v]) {
      assert WorkerOk(cfg, e, if v == w then Moved(cfg, s.clock, worker, c) else s.workers[v]);
    }
  }

  lemma ActKeepsInv(cfg: WorkerConfig, s: State, w: nat, c: Call, took: bool)
    requires Inv(cfg, s) && Enabled(cfg, s, Act(w, c, took))
    ensures Inv(cfg, Apply(cfg, s, Act(w, c, took)))
  {
    var worker := s.workers[w];
    assert WorkerOk(cfg, s, worker);
    EffectRowsOk(cfg, s, worker, c, took);
    EffectHistoryOk(cfg, s, worker, c, took);
    EffectAnnounced(cfg, s, worker, c, took);
    EffectMessagesOk(cfg, s, worker, c, took);
    ActWorkersOk(cfg, s, w, c, took);
    ActCovers(cfg, s, w, c, took);
  }

  // ---- The other steps ----

  /** A step that is not a call moves at most one message, and only between the queues and a worker. */
  lemma MoveKeepsCopies(cfg: WorkerConfig, s: State, l: Label, p: Place, m: Message)
    requires Enabled(cfg, s, l) && !l.Act? && CopyAt(s, p, m)
    ensures exists p' :: CopyAt(Apply(cfg, s, l), p', m)
  {
    var s' := Apply(cfg, s, l);
    if l.Deliver? && p.InMain? && m == l.m {
      assert CopyAt(s', At(l.w), m);
    } else if l.Expire? && p == InRetry(l.q) && m == l.m {
      assert CopyAt(s', InMain, m);
    } else if l.Crash? && p == At(l.w) {
      assert CopyAt(s', InMain, m);
    } else {
      assert CopyAt(s', p, m);
    }
  }

  lemma MoveCovers(cfg: WorkerConfig, s: State, l: Label)
    requires Inv(cfg, s) && Enabled(cfg, s, l) && !l.Act? && Grows(s, Apply(cfg, s, l))
    ensures AllCovered(cfg, Apply(cfg, s, l))
  {
    var s' := Apply(cfg, s, l);
    forall origin | origin in s'.hist.injected ensures Covered(cfg, s', origin) {
      if origin in s.hist.injected {
        assert Covered(cfg, s, origin);
        if Kept(s, origin) {
          var p, m :| CopyAt(s, p, m) && m.origin == origin;
          MoveKeepsCopies(cfg, s, l, p, m);
        }
        CoveredGrows(cfg, s, s', origin);
      } else {
        assert CopyAt(s', InMain, l.m);
      }
    }
  }

  lemma MoveMessagesOk(cfg: WorkerConfig, s: State, l: Label)
    requires ConfigOk(cfg) && MessagesOk(cfg, s) && WorkersOk(cfg, s) && Enabled(cfg, s, l) && !l.Act?
    ensures MessagesOk(cfg, Apply(cfg, s, l))
  {
    MoveMainOk(cfg, s, l);
    MoveRetriesOk(cfg, s, l);
  }

  lemma MoveMainOk(cfg: WorkerConfig, s: State, l: Label)
    requires ConfigOk(cfg) && MessagesOk(cfg, s) && WorkersOk(cfg, s) && Enabled(cfg, s, l) && !l.Act?
    ensures QueueOk(cfg, Apply(cfg, s, l).hist, Apply(cfg, s, l).main)
  {
    if l.Crash? { assert WorkerOk(cfg, s, s.workers[l.w]); }
    if l.Expire? { assert QueueOk(cfg, s.hist, s.retry[l.q]); }
  }

  lemma MoveRetriesOk(cfg: WorkerConfig, s: State, l: Label)
    requires MessagesOk(cfg, s) && Enabled(cfg, s, l) && !l.Act?
    ensures var s' := Apply(cfg, s, l);
            && |s'.retry| == |s.retry| && (forall q :: 0 <= q < |s'.retry| ==> QueueOk(cfg, s'.hist, s'.retry[q]))
            && (forall m :: m in s'.dead ==> DeadMessage(cfg, s'.hist, m))
  {
    var s' := Apply(cfg, s, l);
    forall q | 0 <= q < |s'.retry| ensures QueueOk(cfg, s'.hist, s'.retry[q]) {
      assert QueueOk(cfg, s.hist, s.retry[q]);
    }
  }

  lemma MoveWorkersOk(cfg: WorkerConfig, s: State, l: Label)
    requires Inv(cfg, s) && Enabled(cfg, s, l) && !l.Act? && Grows(s, Apply(cfg, s, l))
    ensures WorkersOk(cfg, Apply(cfg, s, l))
  {
    var s' := Apply(cfg, s, l);
    OthersStayOk(cfg, s, s');
    if l.Deliver? {
      assert LiveMessage(cfg, s.hist, l.m);
    }
    forall v | 0 <= v < |s'.workers| ensures WorkerOk(cfg, s', s'.workers[v]) {
      assert WorkerOk(cfg, s', s.workers[v]);
    }
  }

  lemma MoveKeepsInv(cfg: WorkerConfig, s: State, l: Label)
    requires Inv(cfg, s) && Enabled(cfg, s, l) && !l.Act?
    ensures Inv(cfg, Apply(cfg, s, l))
  {
    var s' := Apply(cfg, s, l);
    assert Grows(s, s');
    MoveMessagesOk(cfg, s, l);
    MoveWorkersOk(cfg, s, l);
    MoveCovers(cfg, s, l);
    MoveRowsOk(cfg, s, l);
  }

  lemma MoveRowsOk(cfg: WorkerConfig, s: State, l: Label)
    requires RowsOk(s.rows) && RowsMatchHistory(s.rows, s.hist) && AttemptsAnnounced(s.hist) && Enabled(cfg, s, l) && !l.Act?
    ensures RowsOk(Apply(cfg, s, l).rows) && RowsMatchHistory(Apply(cfg, s, l).rows, Apply(cfg, s, l).hist)
    ensures AttemptsAnnounced(Apply(cfg, s, l).hist)
  {
    MoveHistoryOk(cfg, s, l);
    match l
    case Renew(w, at) => OperationsKeepRowsOk(s.rows, IdOf(s.workers[w].m), at, cfg.lease, NoBundle());
    case StaleRenew(id, at) => OperationsKeepRowsOk(s.rows, id, at, cfg.lease, NoBundle());
    case _ =>
  }

  lemma MoveHistoryOk(cfg: WorkerConfig, s: State, l: Label)
    requires RowsMatchHistory(s.rows, s.hist) && AttemptsAnnounced(s.hist) && Enabled(cfg, s, l) && !l.Act?
    ensures RowsMatchHistory(Apply(cfg, s, l).rows, Apply(cfg, s, l).hist)
    ensures AttemptsAnnounced(Apply(cfg, s, l).hist)
  {
    var s' := Apply(cfg, s, l);
    forall e | e in s'.hist.attempted ensures Announces(s'.hist, e) {
      var b :| Filed(s.hist, b) && b.service == e;
      assert Filed(s'.hist, b);
    }
  }

  lemma StepKeepsInv(cfg: WorkerConfig, s: State, l: Label)
    requires Inv(cfg, s) && Enabled(cfg, s, l)
    ensures Inv(cfg, Apply(cfg, s, l))
  {
    if l.Act? { ActKeepsInv(cfg, s, l.w, l.c, l.took); } else { MoveKeepsInv(cfg, s, l); }
  }

  lemma {:induction false} RunKeepsInv(cfg: WorkerConfig, s: State, run: seq<Label>, regime: Regime)
    requires Inv(cfg, s) && Legal(cfg, s, run, regime)
    ensures Inv(cfg, ExecAll(cfg, s, run, regime))
    decreases |run|
  {
    if run != [] {
      StepKeepsInv(cfg, s, run[0]);
      RunKeepsInv(cfg, Apply(cfg, s, run[0]), run[1..], regime);
    }
  }

  lemma InitialInv(cfg: WorkerConfig, workers: nat)
    requires ConfigOk(cfg)
    ensures Inv(cfg, Initial(cfg, workers))
  {
  }
}
