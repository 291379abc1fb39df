/** Runs that show each assumption of the lease theorems to be needed, for every admitted event, and every configuration
    unless a lemma names the bound it needs. */
module CounterRuns {
  import opened Wrappers
  import opened Errors
  import opened Names
  import opened Events
  import opened StageLedger
  import opened Delivery
  import opened Fleet
  import opened FleetInvariant
  import opened LeaseSafety

  ghost predicate Reach(cfg: WorkerConfig, g: Regime, s0: State, run: seq<Label>, s: State) {
    Legal(cfg, s0, run, g) && s == ExecAll(cfg, s0, run, g)
  }

  /** A timely run, with no margin, no latency, and one clause waived; or a leased one in which anyone may write. */
  predicate Timed(g: Regime) {
    (g.Timely? && g.margin == 0 && g.latency == 0) || g == Leased(0, Holders)
  }

  /** Or any leased one. */
  predicate Easy(g: Regime) {
    Timed(g) || g.Leased?
  }

  lemma Extend(cfg: WorkerConfig, g: Regime, s0: State, run: seq<Label>, s: State, l: Label) returns (run': seq<Label>, s': State)
    requires Reach(cfg, g, s0, run, s) && Enabled(cfg, s, l) && Permits(cfg, s, l, g)
    ensures run' == run + [l] && s' == Apply(cfg, s, l) && Reach(cfg, g, s0, run', s')
  {
    run', s' := run + [l], Apply(cfg, s, l);
    LegalConcat(cfg, s0, run, [l], g);
    assert [l][1..] == [];
    assert Legal(cfg, s, [l], g) && ExecAll(cfg, s, [l], g) == s';
  }

  /** Worker `w` handles `m` and stands at `pc`. */
  predicate StandsAt(s: State, w: nat, m: Message, pc: Pc) {
    w < |s.workers| && s.workers[w].Busy? && s.workers[w].m == m && s.workers[w].pc == pc
  }

  /** Only worker `w` and the history differ. */
  predicate OnlyWorker(s: State, s': State, w: nat) {
    && s'.rows == s.rows && s'.main == s.main && s'.retry == s.retry && s'.dead == s.dead && s'.clock == s.clock
    && |s'.workers| == |s.workers| && (forall v :: 0 <= v < |s.workers| && v != w ==> s'.workers[v] == s.workers[v])
    && s.hist.attempted <= s'.hist.attempted
    && s'.hist.injected == s.hist.injected
  }

  /** The other workers stand where they stood. */
  predicate OthersStand(s: State, s': State, w: nat) {
    |s'.workers| == |s.workers| && (forall v :: 0 <= v < |s.workers| && v != w ==> s'.workers[v] == s.workers[v])
  }

  /** One call of worker `w`, taking effect. */
  lemma CallOnce(cfg: WorkerConfig, g: Regime, s0: State, run: seq<Label>, s: State, w: nat, c: Call) returns (run': seq<Label>, s': State)
    requires Reach(cfg, g, s0, run, s) && Enabled(cfg, s, Act(w, c, true)) && Permits(cfg, s, Act(w, c, true), g)
    ensures Reach(cfg, g, s0, run', s') && s' == Apply(cfg, s, Act(w, c, true))
  {
    run', s' := Extend(cfg, g, s0, run, s, Act(w, c, true));
  }

  /** An idle worker takes `m` and acquires its stage. */
  lemma Acquire(cfg: WorkerConfig, g: Regime, s0: State, run: seq<Label>, s: State, w: nat, m: Message) returns (run': seq<Label>, s': State)
    requires Easy(g)
    requires Reach(cfg, g, s0, run, s) && w < |s.workers| && s.workers[w].Idle? && m in s.main && IsAdmitted(cfg, m)
    requires ClaimDisposition(RowAt(s.rows, IdOf(m)), s.clock).ClaimAcquired?
    ensures Reach(cfg, g, s0, run', s') && StandsAt(s', w, m, Starting)
    ensures s'.workers[w].grant == Some(s.clock + cfg.lease)
    ensures OnlyWorker(s.(rows := ClaimRows(s.rows, IdOf(m), s.clock, cfg.lease), main := s.main - multiset{m}), s', w)
  {
    var id := IdOf(m);
    var run1, s1 := Extend(cfg, g, s0, run, s, Deliver(w, m));
    assert StandsAt(s1, w, m, Claiming);
    var run2, s2 := Extend(cfg, g, s0, run1, s1, Sample(w));
    var answer := Claimed(ClaimAcquired, if id in s2.rows then s2.rows[id].result else None);
    run', s' := CallOnce(cfg, g, s0, run2, s2, w, Call.Claim(id, answer));
  }

  lemma Starts(cfg: WorkerConfig, g: Regime, s0: State, run: seq<Label>, s: State, w: nat, m: Message) returns (run': seq<Label>, s': State)
    requires Easy(g)
    requires Reach(cfg, g, s0, run, s) && StandsAt(s, w, m, Starting) && IsAdmitted(cfg, m)
    ensures Reach(cfg, g, s0, run', s') && StandsAt(s', w, m, Applying) && OnlyWorker(s, s', w)
    ensures s'.workers[w].grant == s.workers[w].grant
  {
    run', s' := CallOnce(cfg, g, s0, run, s, w, Call.Publish(StartedKey, ProgressNotice(StartedEvent(EventOf(m))), Fine));
  }

  lemma Deploys(cfg: WorkerConfig, g: Regime, s0: State, run: seq<Label>, s: State, w: nat, m: Message, t: DeploymentTarget)
    returns (run': seq<Label>, s': State)
    requires Easy(g)
    requires Reach(cfg, g, s0, run, s) && StandsAt(s, w, m, Applying) && IsAdmitted(cfg, m)
    ensures Reach(cfg, g, s0, run', s') && OnlyWorker(s, s', w) && StandsAt(s', w, m, Announcing(t))
    ensures s'.workers[w].grant == s.workers[w].grant
  {
    run', s' := CallOnce(cfg, g, s0, run, s, w, Call.Deploy(Admit(cfg, m.body).request, Applied(t)));
  }

  lemma Announces(cfg: WorkerConfig, g: Regime, s0: State, run: seq<Label>, s: State, w: nat, m: Message, t: DeploymentTarget)
    returns (run': seq<Label>, s': State)
    requires Easy(g)
    requires Reach(cfg, g, s0, run, s) && StandsAt(s, w, m, Announcing(t))
    ensures Reach(cfg, g, s0, run', s') && OnlyWorker(s, s', w) && StandsAt(s', w, m, Awaiting(t))
    ensures s'.workers[w].grant == s.workers[w].grant
  {
    run', s' := CallOnce(cfg, g, s0, run, s, w, Call.Publish(DeployedKey, ProgressNotice(DeployedEvent(EventOf(m), t)), Fine));
  }

  /** From the claim to a success about to be recorded. */
  lemma RunToSuccess(cfg: WorkerConfig, g: Regime, s0: State, run: seq<Label>, s: State, w: nat, m: Message, t: DeploymentTarget)
    returns (run': seq<Label>, s': State)
    requires Easy(g)
    requires Reach(cfg, g, s0, run, s) && StandsAt(s, w, m, Starting) && IsAdmitted(cfg, m)
    ensures Reach(cfg, g, s0, run', s') && OnlyWorker(s, s', w)
    ensures StandsAt(s', w, m, Persisting(SuccessBundle(EventOf(m), t), true, EndHandler))
    ensures s'.workers[w].grant == s.workers[w].grant
  {
    var run1, s1 := Starts(cfg, g, s0, run, s, w, m);
    var run2, s2 := Deploys(cfg, g, s0, run1, s1, w, m, t);
    var run3, s3 := Announces(cfg, g, s0, run2, s2, w, m, t);
    run', s' := CallOnce(cfg, g, s0, run3, s3, w, Call.Await(t, Ready));
  }

  /** From the claim to a failure about to be recorded: the namespace belongs to somebody else. */
  lemma RunToFailure(cfg: WorkerConfig, g: Regime, s0: State, run: seq<Label>, s: State, w: nat, m: Message)
    returns (run': seq<Label>, s': State)
    requires Easy(g)
    requires Reach(cfg, g, s0, run, s) && StandsAt(s, w, m, Starting) && IsAdmitted(cfg, m)
    ensures Reach(cfg, g, s0, run', s') && OnlyWorker(s, s', w)
    ensures StandsAt(s', w, m, Persisting(FailureBundle(EventOf(m), Admit(cfg, m.body).target, Ownership), true, EndHandler))
    ensures s'.workers[w].grant == s.workers[w].grant
  {
    var run1, s1 := Starts(cfg, g, s0, run, s, w, m);
    assert !Retriable(Ownership) by { assert Classes(Ownership) == {OwnershipRefusal}; }
    run', s' := CallOnce(cfg, g, s0, run1, s1, w, Call.Deploy(Admit(cfg, m.body).request, NotApplied(Ownership)));
  }

  lemma Records(cfg: WorkerConfig, g: Regime, s0: State, run: seq<Label>, s: State, w: nat, m: Message, b: Bundle, closing: Closing)
    returns (run': seq<Label>, s': State)
    requires Timed(g)
    requires Reach(cfg, g, s0, run, s) && StandsAt(s, w, m, Persisting(b, true, closing))
    ensures Reach(cfg, g, s0, run', s') && StandsAt(s', w, m, ClosingService(b, closing))
    ensures OnlyWorker(s.(rows := SetRows(s.rows, IdOf(m), StateFor(b.service.outcome), b)), s', w)
  {
    run', s' := CallOnce(cfg, g, s0, run, s, w, Call.Persist(IdOf(m), b, true, Fine));
  }

  lemma Tells(cfg: WorkerConfig, g: Regime, s0: State, run: seq<Label>, s: State, w: nat, m: Message, b: Bundle, closing: Closing)
    returns (run': seq<Label>, s': State)
    requires Timed(g)
    requires Reach(cfg, g, s0, run, s) && StandsAt(s, w, m, ClosingService(b, closing))
    ensures Reach(cfg, g, s0, run', s') && StandsAt(s', w, m, ClosingProgress(b, closing)) && OnlyWorker(s, s', w)
    ensures b.service in s'.hist.attempted
  {
    run', s' := CallOnce(cfg, g, s0, run, s, w, Call.Publish(b.serviceKey, ServiceNotice(b.service), Fine));
  }

  /** An outcome is recorded and its service event published. */
  lemma RecordAndTell(cfg: WorkerConfig, g: Regime, s0: State, run: seq<Label>, s: State, w: nat, m: Message, b: Bundle, closing: Closing)
    returns (run': seq<Label>, s': State)
    requires Timed(g)
    requires Reach(cfg, g, s0, run, s) && StandsAt(s, w, m, Persisting(b, true, closing))
    ensures Reach(cfg, g, s0, run', s') && StandsAt(s', w, m, ClosingProgress(b, closing))
    ensures OnlyWorker(s.(rows := SetRows(s.rows, IdOf(m), StateFor(b.service.outcome), b)), s', w)
    ensures b.service in s'.hist.attempted
  {
    var run1, s1 := Records(cfg, g, s0, run, s, w, m, b, closing);
    run', s' := Tells(cfg, g, s0, run1, s1, w, m, b, closing);
  }

  /** An outcome is recorded although the write reports an error. */
  lemma HalfRecords(cfg: WorkerConfig, g: Regime, s0: State, run: seq<Label>, s: State, w: nat, m: Message, b: Bundle)
    returns (run': seq<Label>, s': State)
    requires Timed(g) && g.waived == HalfWrites
    requires Reach(cfg, g, s0, run, s) && StandsAt(s, w, m, Persisting(b, true, EndHandler))
    ensures Reach(cfg, g, s0, run', s') && StandsAt(s', w, m, ToRetry(cfg, m, Wrapped(PersistingResult, NetError)))
    ensures OnlyWorker(s.(rows := SetRows(s.rows, IdOf(m), StateFor(b.service.outcome), b)), s', w)
    ensures s'.workers[w].grant == s.workers[w].grant
  {
    run', s' := CallOnce(cfg, g, s0, run, s, w, Call.Persist(IdOf(m), b, true, Failing(NetError)));
  }

  lemma AnnouncesRetry(cfg: WorkerConfig, g: Regime, s0: State, run: seq<Label>, s: State, w: nat, m: Message, attempt: int, cause: Error)
    returns (run': seq<Label>, s': State)
    requires Timed(g)
    requires Reach(cfg, g, s0, run, s) && StandsAt(s, w, m, AnnouncingRetry(attempt, cause))
    ensures Reach(cfg, g, s0, run', s') && StandsAt(s', w, m, Requeuing(attempt, cause, true)) && OnlyWorker(s, s', w)
  {
    var announce := Call.Publish(RetryingKey, ProgressNotice(RetryingEvent(EventOf(m), attempt, cause)), Fine);
    run', s' := CallOnce(cfg, g, s0, run, s, w, announce);
  }

  /** The copy of the message is on its retry queue. */
  predicate Queued(cfg: WorkerConfig, s: State, copy: Message, attempt: int) {
    var q := RetryQueue(cfg, attempt);
    0 <= q < |s.retry| && copy in s.retry[q]
  }

  lemma Requeues(cfg: WorkerConfig, g: Regime, s0: State, run: seq<Label>, s: State, w: nat, m: Message, attempt: int, cause: Error)
    returns (run': seq<Label>, s': State)
    requires Timed(g)
    requires ConfigOk(cfg) && Reach(cfg, g, s0, run, s) && |s.retry| == |cfg.backoffs| && attempt >= 0
    requires StandsAt(s, w, m, Requeuing(attempt, cause, true))
    ensures Reach(cfg, g, s0, run', s') && StandsAt(s', w, m, Releasing) && Queued(cfg, s', RetryCopy(m, attempt, cause), attempt)
    ensures s'.rows == s.rows && s'.clock == s.clock && s.hist.attempted <= s'.hist.attempted
    ensures OthersStand(s, s', w) && |s'.retry| == |s.retry|
  {
    run', s' := CallOnce(cfg, g, s0, run, s, w, Call.Requeue(RetryQueue(cfg, attempt), RetryCopy(m, attempt, cause), Fine));
  }

  lemma ReleasesAndAcks(cfg: WorkerConfig, g: Regime, s0: State, run: seq<Label>, s: State, w: nat, m: Message)
    returns (run': seq<Label>, s': State)
    requires Timed(g)
    requires Reach(cfg, g, s0, run, s) && StandsAt(s, w, m, Releasing)
    ensures Reach(cfg, g, s0, run', s') && w < |s'.workers| && OthersStand(s, s', w) && s'.workers[w].Idle?
    ensures s'.rows == ReleaseRows(s.rows, IdOf(m)) && s'.clock == s.clock && s'.hist == s.hist && s'.retry == s.retry
  {
    var run1, s1 := CallOnce(cfg, g, s0, run, s, w, Call.Release(IdOf(m), Fine));
    assert StandsAt(s1, w, m, Acking);
    run', s' := CallOnce(cfg, g, s0, run1, s1, w, Call.Ack);
  }

  /** A counted retry that works: its copy comes back to the main queue, and the row has been released. */
  lemma RetryThrough(cfg: WorkerConfig, g: Regime, s0: State, run: seq<Label>, s: State, w: nat, m: Message, attempt: int, cause: Error)
    returns (run': seq<Label>, s': State, copy: Message)
    requires Timed(g)
    requires ConfigOk(cfg) && Reach(cfg, g, s0, run, s) && |s.retry| == |cfg.backoffs| && attempt >= 0
    requires StandsAt(s, w, m, AnnouncingRetry(attempt, cause))
    ensures Reach(cfg, g, s0, run', s') && w < |s'.workers| && OthersStand(s, s', w) && s'.workers[w].Idle?
    ensures copy in s'.main && copy.body == m.body && Attempt(copy) == attempt && |s'.retry| == |cfg.backoffs|
    ensures s'.rows == ReleaseRows(s.rows, IdOf(m)) && s'.clock == s.clock && s.hist.attempted <= s'.hist.attempted
  {
    copy := RetryCopy(m, attempt, cause);
    var run1, s1 := AnnouncesRetry(cfg, g, s0, run, s, w, m, attempt, cause);
    var run2, s2 := Requeues(cfg, g, s0, run1, s1, w, m, attempt, cause);
    var run3, s3 := ReleasesAndAcks(cfg, g, s0, run2, s2, w, m);
    run', s' := Extend(cfg, g, s0, run3, s3, Expire(RetryQueue(cfg, attempt), copy));
  }

  // ---- A recorded outcome can be undone ----

  /** The deployment's row is FAILED, and a failure event of it has been handed to the broker. */
  ghost predicate EndsFailed(s: State, id: string) {
    && id in s.rows && s.rows[id].state.FailedState?
    && exists e :: e in s.hist.attempted && e.outcome.Failed? && e.source.deploymentId == id
  }

  /** A failure that is recorded and published ends so, whatever the row said before. */
  lemma FailureOverwrites(cfg: WorkerConfig, g: Regime, s0: State, run: seq<Label>, s: State, w: nat, m: Message,
                          target: DeploymentTarget, error: Error, closing: Closing)
    returns (run': seq<Label>, s': State)
    requires Timed(g)
    requires Reach(cfg, g, s0, run, s) && StandsAt(s, w, m, Persisting(FailureBundle(EventOf(m), target, error), true, closing))
    requires IdOf(m) in s.rows
    ensures Reach(cfg, g, s0, run', s') && s.hist.attempted <= s'.hist.attempted && EndsFailed(s', IdOf(m))
  {
    var b := FailureBundle(EventOf(m), target, error);
    run', s' := RecordAndTell(cfg, g, s0, run, s, w, m, b, closing);
    assert b.service in s'.hist.attempted && b.service.outcome.Failed?;
  }

  /** After a retry the row has been released, and the next run can record and publish a failure. */
  lemma NextRunUndoes(cfg: WorkerConfig, g: Regime, s0: State, run: seq<Label>, s: State, w: nat, m: Message, attempt: int, cause: Error)
    returns (run': seq<Label>, s': State)
    requires Timed(g)
    requires ConfigOk(cfg) && Reach(cfg, g, s0, run, s) && |s.retry| == |cfg.backoffs| && IsAdmitted(cfg, m) && attempt >= 0
    requires StandsAt(s, w, m, AnnouncingRetry(attempt, cause)) && IdOf(m) in s.rows
    ensures Reach(cfg, g, s0, run', s') && s.hist.attempted <= s'.hist.attempted && EndsFailed(s', IdOf(m))
  {
    var run1, s1, copy := RetryThrough(cfg, g, s0, run, s, w, m, attempt, cause);
    var run2, s2 := Acquire(cfg, g, s0, run1, s1, w, copy);
    var run3, s3 := RunToFailure(cfg, g, s0, run2, s2, w, copy);
    run', s' := FailureOverwrites(cfg, g, s0, run3, s3, w, copy, Admit(cfg, copy.body).target, Ownership, EndHandler);
  }

  /** Once a run that no longer holds its row enters a counted retry, the outcome on record is undone: released, for the
      next run to record the opposite; or, on the last attempt, overwritten by this very delivery. */
  lemma RetryUndoesOutcome(cfg: WorkerConfig, g: Regime, s0: State, run: seq<Label>, s: State, w: nat, m: Message, cause: Error)
    returns (run': seq<Label>, s': State)
    requires Timed(g)
    requires ConfigOk(cfg) && Reach(cfg, g, s0, run, s) && |s.retry| == |cfg.backoffs| && IsAdmitted(cfg, m) && Attempt(m) >= 0
    requires StandsAt(s, w, m, ToRetry(cfg, m, cause)) && Counts(cause) && IdOf(m) in s.rows
    ensures Reach(cfg, g, s0, run', s') && s.hist.attempted <= s'.hist.attempted && EndsFailed(s', IdOf(m))
  {
    var attempt := Attempt(m) + 1;
    if attempt < cfg.maxAttempts {
      run', s' := NextRunUndoes(cfg, g, s0, run, s, w, m, attempt, cause);
    } else {
      run', s' := FailureOverwrites(cfg, g, s0, run, s, w, m, TargetOrBlank(cfg, EventOf(m)), Exhausted(cause),
                                    EndExhausted(attempt, cause));
    }
  }

  /** The start of every counter-run: one message, produced and admitted. */
  lemma Produced(cfg: WorkerConfig, g: Regime, workers: nat, m: Message) returns (run: seq<Label>, s: State)
    requires Easy(g) && m.headers == map[] && IsAdmitted(cfg, m)
    ensures Reach(cfg, g, Initial(cfg, workers), run, s) && m in s.main && s.rows == map[] && s.clock == 0 && Attempt(m) == 0
    ensures |s.retry| == |cfg.backoffs| && |s.workers| == workers && (forall w :: 0 <= w < workers ==> s.workers[w].Idle?)
    ensures s.hist.injected == map[m.origin := m.body] && s.main == multiset{m}
    ensures s.hist.recorded == {} && s.hist.unfiled == {} && s.hist.acquired == map[]
  {
    assert Legal(cfg, Initial(cfg, workers), [], g);
    run, s := Extend(cfg, g, Initial(cfg, workers), [], Initial(cfg, workers), Produce(m));
  }

  /** One worker has recorded a success and handed its service event to the broker. */
  lemma SucceededOnce(cfg: WorkerConfig, g: Regime, workers: nat, m: Message, t: DeploymentTarget) returns (run: seq<Label>, s: State)
    requires Timed(g)
    requires workers > 0 && m.headers == map[] && IsAdmitted(cfg, m)
    ensures Reach(cfg, g, Initial(cfg, workers), run, s)
    ensures StandsAt(s, 0, m, ClosingProgress(SuccessBundle(EventOf(m), t), EndHandler))
    ensures SuccessBundle(EventOf(m), t).service in s.hist.attempted && |s.retry| == |cfg.backoffs| && Attempt(m) == 0
    ensures IdOf(m) in s.rows && s.rows[IdOf(m)].state.Completed? && s.rows[IdOf(m)].result == Some(SuccessBundle(EventOf(m), t))
    ensures |s.workers| == workers
  {
    var s0 := Initial(cfg, workers);
    var run1, s1 := Produced(cfg, g, workers, m);
    var run2, s2 := Acquire(cfg, g, s0, run1, s1, 0, m);
    var run3, s3 := RunToSuccess(cfg, g, s0, run2, s2, 0, m, t);
    run, s := RecordAndTell(cfg, g, s0, run3, s3, 0, m, SuccessBundle(EventOf(m), t), EndHandler);
  }

  /** Both outcomes of one deployment have been handed to the broker, and the row that was COMPLETED is FAILED. */
  ghost predicate Contradicts(cfg: WorkerConfig, g: Regime, s0: State, run: seq<Label>, id: string) {
    && Legal(cfg, s0, run, g)
    && var s := ExecAll(cfg, s0, run, g);
    && id in s.rows && s.rows[id].state.FailedState?
    && (exists e :: e in s.hist.attempted && e.outcome.Succeeded? && e.source.deploymentId == id)
    && (exists e :: e in s.hist.attempted && e.outcome.Failed? && e.source.deploymentId == id)
  }

  lemma ContradictsWhen(cfg: WorkerConfig, g: Regime, s0: State, run: seq<Label>, s: State, m: Message, t: DeploymentTarget)
    requires Reach(cfg, g, s0, run, s) && SuccessBundle(EventOf(m), t).service in s.hist.attempted
    requires EndsFailed(s, IdOf(m))
    ensures Contradicts(cfg, g, s0, run, IdOf(m))
  {
    assert SuccessBundle(EventOf(m), t).service.outcome.Succeeded?;
  }

  lemma TransportFailuresCount(note: Note)
    ensures Counts(Wrapped(note, NetError))
  {
  }

  /** A closing publish that is not confirmed ends in a counted retry. */
  lemma ClosingFails(cfg: WorkerConfig, g: Regime, s0: State, run: seq<Label>, s: State, w: nat, m: Message, b: Bundle, note: Note)
    returns (run': seq<Label>, s': State)
    requires Timed(g) && g.waived == SurePublishes
    requires Reach(cfg, g, s0, run, s)
    requires (note == PublishingService && StandsAt(s, w, m, ClosingService(b, EndHandler)))
             || (note == PublishingProgress && StandsAt(s, w, m, ClosingProgress(b, EndHandler)))
    ensures Reach(cfg, g, s0, run', s') && OnlyWorker(s, s', w)
    ensures StandsAt(s', w, m, ToRetry(cfg, m, Wrapped(note, NetError)))
  {
    var c := if note == PublishingService then Call.Publish(b.serviceKey, ServiceNotice(b.service), Failing(NetError))
             else Call.Publish(b.progressKey, ProgressNotice(b.progress), Failing(NetError));
    run', s' := CallOnce(cfg, g, s0, run, s, w, c);
  }

  /** Why closing publishes must not fail: a success recorded and announced, whose progress event fails, is released by
      the retry and can be followed by a failure. */
  lemma FailedPublishContradicts(cfg: WorkerConfig, m: Message, t: DeploymentTarget) returns (run: seq<Label>)
    requires ConfigOk(cfg) && m.headers == map[] && IsAdmitted(cfg, m)
    ensures Contradicts(cfg, Timely(0, 0, SurePublishes), Initial(cfg, 1), run, IdOf(m))
  {
    var g := Timely(0, 0, SurePublishes);
    var s0 := Initial(cfg, 1);
    var run1, s1 := SucceededOnce(cfg, g, 1, m, t);
    var run2, s2 := ClosingFails(cfg, g, s0, run1, s1, 0, m, SuccessBundle(EventOf(m), t), PublishingProgress);
    var s3;
    TransportFailuresCount(PublishingProgress);
    run, s3 := RetryUndoesOutcome(cfg, g, s0, run2, s2, 0, m, Wrapped(PublishingProgress, NetError));
    ContradictsWhen(cfg, g, s0, run, s3, m, t);
  }

  /** After a crash the message is back, and its outcome on record. */
  lemma CrashedAfterSuccess(cfg: WorkerConfig, g: Regime, m: Message, t: DeploymentTarget) returns (run: seq<Label>, s: State)
    requires Timed(g)
    requires m.headers == map[] && IsAdmitted(cfg, m)
    ensures Reach(cfg, g, Initial(cfg, 1), run, s) && StandsAt(s, 0, m, Claiming) && s.workers[0].sampled == Some(s.clock)
    ensures SuccessBundle(EventOf(m), t).service in s.hist.attempted && |s.retry| == |cfg.backoffs| && Attempt(m) == 0
    ensures IdOf(m) in s.rows && s.rows[IdOf(m)].state.Completed? && s.rows[IdOf(m)].result == Some(SuccessBundle(EventOf(m), t))
  {
    var s0 := Initial(cfg, 1);
    var run1, s1 := SucceededOnce(cfg, g, 1, m, t);
    var run2, s2 := Extend(cfg, g, s0, run1, s1, Crash(0));
    var run3, s3 := Extend(cfg, g, s0, run2, s2, Deliver(0, m));
    run, s := Extend(cfg, g, s0, run3, s3, Sample(0));
  }

  lemma ClaimFails(cfg: WorkerConfig, g: Regime, s0: State, run: seq<Label>, s: State, w: nat, m: Message) returns (run': seq<Label>, s': State)
    requires Timed(g) && (g.waived == SureClaims || g.Leased?)
    requires Reach(cfg, g, s0, run, s) && IsAdmitted(cfg, m)
    requires StandsAt(s, w, m, Claiming) && s.workers[w].sampled == Some(s.clock)
    ensures Reach(cfg, g, s0, run', s') && OnlyWorker(s, s', w)
    ensures StandsAt(s', w, m, ToRetry(cfg, m, Wrapped(ClaimingStage, NetError)))
  {
    run', s' := Extend(cfg, g, s0, run, s, Act(w, Call.Claim(IdOf(m), ClaimError(NetError)), false));
  }

  /** Why claims must not fail: a redelivery whose claim fails retries, and releases a row it never held. */
  lemma FailedClaimContradicts(cfg: WorkerConfig, m: Message, t: DeploymentTarget) returns (run: seq<Label>)
    requires ConfigOk(cfg) && m.headers == map[] && IsAdmitted(cfg, m)
    ensures Contradicts(cfg, Timely(0, 0, SureClaims), Initial(cfg, 1), run, IdOf(m))
  {
    var g := Timely(0, 0, SureClaims);
    var s0 := Initial(cfg, 1);
    var run1, s1 := CrashedAfterSuccess(cfg, g, m, t);
    var run2, s2 := ClaimFails(cfg, g, s0, run1, s1, 0, m);
    var s3;
    TransportFailuresCount(ClaimingStage);
    run, s3 := RetryUndoesOutcome(cfg, g, s0, run2, s2, 0, m, Wrapped(ClaimingStage, NetError));
    ContradictsWhen(cfg, g, s0, run, s3, m, t);
  }

  lemma ReplayStarts(cfg: WorkerConfig, g: Regime, s0: State, run: seq<Label>, s: State, w: nat, m: Message, b: Bundle)
    returns (run': seq<Label>, s': State)
    requires Timed(g)
    requires Reach(cfg, g, s0, run, s) && StandsAt(s, w, m, Claiming) && s.workers[w].sampled == Some(s.clock)
    requires IdOf(m) in s.rows && s.rows[IdOf(m)].state.Completed? && s.rows[IdOf(m)].result == Some(b)
    ensures Reach(cfg, g, s0, run', s') && OnlyWorker(s, s', w) && StandsAt(s', w, m, ClosingService(b, EndHandler))
  {
    assert s.rows[IdOf(m) := s.rows[IdOf(m)]] == s.rows;
    run', s' := CallOnce(cfg, g, s0, run, s, w, Call.Claim(IdOf(m), Claimed(ClaimCompleted, Some(b))));
  }

  /** Why replays must not fail: a redelivery whose replay is not confirmed retries, and releases the recorded outcome. */
  lemma FailedReplayContradicts(cfg: WorkerConfig, m: Message, t: DeploymentTarget) returns (run: seq<Label>)
    requires ConfigOk(cfg) && m.headers == map[] && IsAdmitted(cfg, m)
    ensures Contradicts(cfg, Timely(0, 0, SurePublishes), Initial(cfg, 1), run, IdOf(m))
  {
    var g := Timely(0, 0, SurePublishes);
    var s0 := Initial(cfg, 1);
    var b := SuccessBundle(EventOf(m), t);
    var run1, s1 := CrashedAfterSuccess(cfg, g, m, t);
    var run2, s2 := ReplayStarts(cfg, g, s0, run1, s1, 0, m, b);
    var run3, s3 := ClosingFails(cfg, g, s0, run2, s2, 0, m, b, PublishingService);
    var s4;
    TransportFailuresCount(PublishingService);
    run, s4 := RetryUndoesOutcome(cfg, g, s0, run3, s3, 0, m, Wrapped(PublishingService, NetError));
    ContradictsWhen(cfg, g, s0, run, s4, m, t);
  }

  /** Why an outcome write that fails must have no effect: otherwise its retry releases the outcome it has just written,
      inside its lease, and the row that was COMPLETED ends up FAILED. */
  lemma HalfFailedRecordIsUndone(cfg: WorkerConfig, m: Message, t: DeploymentTarget) returns (before: seq<Label>, run: seq<Label>)
    requires ConfigOk(cfg) && cfg.lease > 0 && m.headers == map[] && IsAdmitted(cfg, m)
    ensures Legal(cfg, Initial(cfg, 1), before, Timely(0, 0, HalfWrites)) && Legal(cfg, Initial(cfg, 1), run, Timely(0, 0, HalfWrites))
    ensures var s := ExecAll(cfg, Initial(cfg, 1), before, Timely(0, 0, HalfWrites));
            IdOf(m) in s.rows && s.rows[IdOf(m)].state.Completed? && |s.workers| > 0 && Within(s, s.workers[0], 0)
    ensures var s := ExecAll(cfg, Initial(cfg, 1), run, Timely(0, 0, HalfWrites)); IdOf(m) in s.rows && s.rows[IdOf(m)].state.FailedState?
  {
    var g := Timely(0, 0, HalfWrites);
    var s0 := Initial(cfg, 1);
    var b := SuccessBundle(EventOf(m), t);
    var run1, s1 := Produced(cfg, g, 1, m);
    var run2, s2 := Acquire(cfg, g, s0, run1, s1, 0, m);
    var run3, s3 := RunToSuccess(cfg, g, s0, run2, s2, 0, m, t);
    var run4, s4 := HalfRecords(cfg, g, s0, run3, s3, 0, m, b);
    before := run4;
    var s5;
    TransportFailuresCount(PersistingResult);
    run, s5 := RetryUndoesOutcome(cfg, g, s0, run4, s4, 0, m, Wrapped(PersistingResult, NetError));
  }

  /** Two messages for one event, and the first worker has acquired the stage. */
  lemma TwoMessages(cfg: WorkerConfig, g: Regime, m: Message, m': Message) returns (run: seq<Label>, s: State)
    requires Easy(g) && m.headers == map[] && m'.headers == map[] && IsAdmitted(cfg, m)
    requires m'.body == m.body && m'.origin != m.origin
    ensures Reach(cfg, g, Initial(cfg, 2), run, s) && |s.workers| == 2 && s.workers[1].Idle? && m' in s.main && s.clock == 0
    ensures StandsAt(s, 0, m, Starting) && s.workers[0].grant == Some(cfg.lease) && |s.retry| == |cfg.backoffs| && Attempt(m') == 0
    ensures IdOf(m) in s.rows && s.rows[IdOf(m)].state.InProgress? && s.rows[IdOf(m)].lease == Some(cfg.lease)
  {
    var run1, s1 := Produced(cfg, g, 2, m);
    var run2, s2 := Extend(cfg, g, Initial(cfg, 2), run1, s1, Produce(m'));
    run, s := Acquire(cfg, g, Initial(cfg, 2), run2, s2, 0, m);
  }

  /** The clock moves past the lease, and the second worker brings the stage to a success. */
  lemma LeaseRunsOut(cfg: WorkerConfig, g: Regime, s0: State, run: seq<Label>, s: State, m: Message, t: DeploymentTarget)
    returns (run': seq<Label>, s': State)
    requires g == Timely(0, 0, Deadlines) && Reach(cfg, g, s0, run, s) && s.clock <= cfg.lease
    requires |s.workers| == 2 && s.workers[1].Idle? && m in s.main && IsAdmitted(cfg, m)
    requires IdOf(m) in s.rows && s.rows[IdOf(m)].state.InProgress? && s.rows[IdOf(m)].lease == Some(cfg.lease)
    ensures Reach(cfg, g, s0, run', s') && |s'.workers| == 2 && s'.workers[0] == s.workers[0]
    ensures SuccessBundle(EventOf(m), t).service in s'.hist.attempted && IdOf(m) in s'.rows
  {
    var run1, s1 := Extend(cfg, g, s0, run, s, Tick(cfg.lease));
    run', s' := TakesOver(cfg, g, s0, run1, s1, m, t);
  }

  /** Why holders must act within their lease: a run that outlives it can overwrite the outcome of the run that took over. */
  lemma LateWriterContradicts(cfg: WorkerConfig, m: Message, m': Message, t: DeploymentTarget) returns (run: seq<Label>)
    requires ConfigOk(cfg) && cfg.lease >= 0 && m.headers == map[] && m'.headers == map[] && IsAdmitted(cfg, m)
    requires m'.body == m.body && m'.origin != m.origin
    ensures Contradicts(cfg, Timely(0, 0, Deadlines), Initial(cfg, 2), run, IdOf(m))
  {
    var g := Timely(0, 0, Deadlines);
    var s0 := Initial(cfg, 2);
    var run1, s1 := TwoMessages(cfg, g, m, m');
    var run2, s2 := RunToFailure(cfg, g, s0, run1, s1, 0, m);
    var run3, s3 := LeaseRunsOut(cfg, g, s0, run2, s2, m', t);
    var s4;
    run, s4 := FailureOverwrites(cfg, g, s0, run3, s3, 0, m, Admit(cfg, m.body).target, Ownership, EndHandler);
    ContradictsWhen(cfg, g, s0, run, s4, m, t);
  }

  /** The second worker acquires the stage and brings it to a success. */
  lemma TakesOver(cfg: WorkerConfig, g: Regime, s0: State, run: seq<Label>, s: State, m: Message, t: DeploymentTarget)
    returns (run': seq<Label>, s': State)
    requires Timed(g)
    requires Reach(cfg, g, s0, run, s) && |s.workers| == 2 && s.workers[1].Idle? && m in s.main && IsAdmitted(cfg, m)
    requires ClaimDisposition(RowAt(s.rows, IdOf(m)), s.clock).ClaimAcquired?
    ensures Reach(cfg, g, s0, run', s') && |s'.workers| == 2 && s'.workers[0] == s.workers[0]
    ensures SuccessBundle(EventOf(m), t).service in s'.hist.attempted && IdOf(m) in s'.rows
  {
    var run1, s1 := Acquire(cfg, g, s0, run, s, 1, m);
    var run2, s2 := RunToSuccess(cfg, g, s0, run1, s1, 1, m, t);
    run', s' := RecordAndTell(cfg, g, s0, run2, s2, 1, m, SuccessBundle(EventOf(m), t), EndHandler);
  }

  /** A renewal that was sent at the start and is committed only now shortens the lease; the clock then moves past it. */
  lemma LeaseShortened(cfg: WorkerConfig, g: Regime, s0: State, run: seq<Label>, s: State, id: string)
    returns (run': seq<Label>, s': State)
    requires g.Leased? && Reach(cfg, g, s0, run, s) && 0 <= s.clock <= cfg.lease && s.clock <= g.margin
    requires id in s.rows && s.rows[id].state.InProgress?
    ensures Reach(cfg, g, s0, run', s') && s'.clock == cfg.lease
    ensures s'.rows == s.rows[id := s.rows[id].(lease := Some(cfg.lease))] && s'.workers == s.workers && s'.main == s.main
  {
    var run1, s1 := Extend(cfg, g, s0, run, s, StaleRenew(id, 0));
    run', s' := Extend(cfg, g, s0, run1, s1, Tick(cfg.lease));
  }

  /** Two messages for one event, and the first worker has acquired the stage some time after the start. */
  lemma TwoMessagesLater(cfg: WorkerConfig, g: Regime, m: Message, m': Message, now: nat) returns (run: seq<Label>, s: State)
    requires g.Leased? && m.headers == map[] && m'.headers == map[] && IsAdmitted(cfg, m)
    requires m'.body == m.body && m'.origin != m.origin
    ensures Reach(cfg, g, Initial(cfg, 2), run, s) && |s.workers| == 2 && s.workers[1].Idle? && m' in s.main && s.clock == now
    ensures StandsAt(s, 0, m, Starting) && s.workers[0].grant == Some(now + cfg.lease)
    ensures IdOf(m) in s.rows && s.rows[IdOf(m)].state.InProgress?
  {
    var s0 := Initial(cfg, 2);
    var run1, s1 := Produced(cfg, g, 2, m);
    var run2, s2 := Extend(cfg, g, s0, run1, s1, Produce(m'));
    var run3, s3 := Extend(cfg, g, s0, run2, s2, Tick(now));
    run, s := Acquire(cfg, g, s0, run3, s3, 0, m);
  }

  /** Why renewals must be committed promptly, and how promptly: whatever the margin, renewals that are committed up to one
      unit of time later than it allows let a second run acquire the stage while the first is still within its lease. For
      delays up to the margin, `LeaseExclusion` says that this cannot happen. */
  lemma DelayedRenewalAdmitsTwo(cfg: WorkerConfig, m: Message, m': Message, margin: nat) returns (run: seq<Label>)
    requires ConfigOk(cfg) && cfg.lease >= margin + 1 && m.headers == map[] && m'.headers == map[] && IsAdmitted(cfg, m)
    requires m'.body == m.body && m'.origin != m.origin
    ensures Legal(cfg, Initial(cfg, 2), run, Leased(margin + 1, NoWaiver))
    ensures var s := ExecAll(cfg, Initial(cfg, 2), run, Leased(margin + 1, NoWaiver));
            Holds(s, 0, IdOf(m), margin) && Holds(s, 1, IdOf(m), margin)
  {
    var g := Leased(margin + 1, NoWaiver);
    var s0 := Initial(cfg, 2);
    var run1, s1 := TwoMessagesLater(cfg, g, m, m', margin + 1);
    var run2, s2 := LeaseShortened(cfg, g, s0, run1, s1, IdOf(m));
    var s3;
    run, s3 := Acquire(cfg, g, s0, run2, s2, 1, m');
  }

  /** A second delivery whose claim fails releases the lease that the first worker is working under. */
  lemma StrayRelease(cfg: WorkerConfig, s0: State, run: seq<Label>, s: State, m: Message)
    returns (run': seq<Label>, s': State, copy: Message)
    requires ConfigOk(cfg) && cfg.maxAttempts >= 2 && Reach(cfg, Leased(0, Holders), s0, run, s) && |s.retry| == |cfg.backoffs|
    requires |s.workers| == 2 && s.workers[1].Idle? && m in s.main && IsAdmitted(cfg, m) && Attempt(m) == 0
    ensures Reach(cfg, Leased(0, Holders), s0, run', s') && OthersStand(s, s', 1) && s'.workers[1].Idle?
    ensures copy in s'.main && copy.body == m.body && s'.rows == ReleaseRows(s.rows, IdOf(m)) && s'.clock == s.clock
  {
    var g := Leased(0, Holders);
    var run1, s1 := Extend(cfg, g, s0, run, s, Deliver(1, m));
    assert StandsAt(s1, 1, m, Claiming);
    var run2, s2 := Extend(cfg, g, s0, run1, s1, Sample(1));
    var run3, s3 := ClaimFails(cfg, g, s0, run2, s2, 1, m);
    TransportFailuresCount(ClaimingStage);
    run', s', copy := RetryThrough(cfg, g, s0, run3, s3, 1, m, 1, Wrapped(ClaimingStage, NetError));
  }

  /** Why only holders may write: after such a stray release another run acquires the stage while the first holds it. */
  lemma StrayReleaseAdmitsTwo(cfg: WorkerConfig, m: Message, m': Message) returns (run: seq<Label>)
    requires ConfigOk(cfg) && cfg.maxAttempts >= 2 && cfg.lease > 0 && m.headers == map[] && m'.headers == map[]
    requires IsAdmitted(cfg, m) && m'.body == m.body && m'.origin != m.origin
    ensures Legal(cfg, Initial(cfg, 2), run, Leased(0, Holders))
    ensures var s := ExecAll(cfg, Initial(cfg, 2), run, Leased(0, Holders)); Holds(s, 0, IdOf(m), 0) && Holds(s, 1, IdOf(m), 0)
  {
    var g := Leased(0, Holders);
    var s0 := Initial(cfg, 2);
    var run1, s1 := TwoMessages(cfg, g, m, m');
    var run2, s2, copy := StrayRelease(cfg, s0, run1, s1, m');
    var s3;
    run, s3 := Acquire(cfg, g, s0, run2, s2, 1, copy);
  }

  /** No claim has gone through, and the message is back as the copy after `attempt` failures. */
  ghost predicate FailingSoFar(cfg: WorkerConfig, g: Regime, m: Message, run: seq<Label>, s: State, copy: Message, attempt: nat) {
    && Reach(cfg, g, Initial(cfg, 1), run, s) && |s.workers| == 1 && s.workers[0].Idle? && |s.retry| == |cfg.backoffs|
    && copy in s.main && copy.body == m.body && Attempt(copy) == attempt && s.rows == map[]
  }

  /** One more delivery whose claim fails. */
  lemma DeliveredToFailingClaim(cfg: WorkerConfig, g: Regime, s0: State, run: seq<Label>, s: State, m: Message)
    returns (run': seq<Label>, s': State)
    requires Timed(g) && g.waived == SureClaims && Reach(cfg, g, s0, run, s) && IsAdmitted(cfg, m)
    requires |s.workers| == 1 && s.workers[0].Idle? && m in s.main
    ensures Reach(cfg, g, s0, run', s') && s'.rows == s.rows && s'.retry == s.retry && |s'.workers| == 1
    ensures StandsAt(s', 0, m, ToRetry(cfg, m, Wrapped(ClaimingStage, NetError)))
  {
    var run1, s1 := Extend(cfg, g, s0, run, s, Deliver(0, m));
    assert StandsAt(s1, 0, m, Claiming);
    var run2, s2 := Extend(cfg, g, s0, run1, s1, Sample(0));
    run', s' := ClaimFails(cfg, g, s0, run2, s2, 0, m);
  }

  lemma {:induction false} ClaimsKeepFailing(cfg: WorkerConfig, g: Regime, m: Message, attempt: nat)
    returns (run: seq<Label>, s: State, copy: Message)
    requires ConfigOk(cfg) && g == Timely(0, 0, SureClaims) && m.headers == map[] && IsAdmitted(cfg, m) && attempt < cfg.maxAttempts
    ensures FailingSoFar(cfg, g, m, run, s, copy, attempt)
    decreases attempt
  {
    if attempt == 0 {
      run, s := Produced(cfg, g, 1, m);
      copy := m;
    } else {
      var run1, s1, last := ClaimsKeepFailing(cfg, g, m, attempt - 1);
      var run2, s2 := DeliveredToFailingClaim(cfg, g, Initial(cfg, 1), run1, s1, last);
      TransportFailuresCount(ClaimingStage);
      run, s, copy := RetryThrough(cfg, g, Initial(cfg, 1), run2, s2, 0, last, attempt, Wrapped(ClaimingStage, NetError));
    }
  }

  /** An outcome that is published without ever being on record, for every limit: when all claims fail and no row exists,
      the failure write of the last attempt matches no row, reports no error, and `deploy.failed` goes out. */
  lemma UnclaimedFailureIsUnrecorded(cfg: WorkerConfig, m: Message) returns (run: seq<Label>)
    requires ConfigOk(cfg) && m.headers == map[] && IsAdmitted(cfg, m)
    ensures Legal(cfg, Initial(cfg, 1), run, Timely(0, 0, SureClaims))
    ensures var s := ExecAll(cfg, Initial(cfg, 1), run, Timely(0, 0, SureClaims));
            s.rows == map[] && s.hist.recorded == {} && exists e :: e in s.hist.attempted && e.source.deploymentId == IdOf(m)
  {
    var g := Timely(0, 0, SureClaims);
    var s0 := Initial(cfg, 1);
    var run1, s1, last := ClaimsKeepFailing(cfg, g, m, cfg.maxAttempts - 1);
    var run2, s2 := DeliveredToFailingClaim(cfg, g, s0, run1, s1, last);
    var b, s3;
    run, s3, b := GivesUpUnclaimed(cfg, g, s0, run2, s2, last);
    UnrecordedStays(cfg, g, s0, run, s3, last, b);
  }

  lemma GivesUpUnclaimed(cfg: WorkerConfig, g: Regime, s0: State, run: seq<Label>, s: State, m: Message)
    returns (run': seq<Label>, s': State, b: Bundle)
    requires Timed(g) && Reach(cfg, g, s0, run, s) && IsAdmitted(cfg, m) && Attempt(m) + 1 == cfg.maxAttempts && s.rows == map[]
    requires StandsAt(s, 0, m, ToRetry(cfg, m, Wrapped(ClaimingStage, NetError)))
    ensures Reach(cfg, g, s0, run', s') && s'.rows == map[]
    ensures b.service in s'.hist.attempted && b.service.source.deploymentId == IdOf(m)
  {
    var cause := Wrapped(ClaimingStage, NetError);
    TransportFailuresCount(ClaimingStage);
    b := FailureBundle(EventOf(m), TargetOrBlank(cfg, EventOf(m)), Exhausted(cause));
    run', s' := RecordAndTell(cfg, g, s0, run, s, 0, m, b, EndExhausted(cfg.maxAttempts, cause));
  }

  lemma UnrecordedStays(cfg: WorkerConfig, g: Regime, s0: State, run: seq<Label>, s: State, m: Message, b: Bundle)
    requires Reach(cfg, g, s0, run, s) && s.rows == map[] && ConfigOk(cfg) && s0 == Initial(cfg, 1)
    requires b.service in s.hist.attempted && b.service.source.deploymentId == IdOf(m)
    ensures s.hist.recorded == {}
  {
    InitialInv(cfg, 1);
    RunKeepsInv(cfg, s0, run, g);
  }
}
