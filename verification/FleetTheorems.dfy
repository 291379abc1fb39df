/** What holds of every run, whatever fails and whoever crashes. */
module FleetTheorems {
  import opened Wrappers
  import opened Errors
  import opened Events
  import opened StageLedger
  import opened Delivery
  import opened Fleet
  import opened FleetInvariant

  ghost predicate Reaches(cfg: WorkerConfig, workers: nat, run: seq<Label>, s: State) {
    ConfigOk(cfg) && Legal(cfg, Initial(cfg, workers), run, Anything) && s == ExecAll(cfg, Initial(cfg, workers), run, Anything)
  }

  lemma ReachedInv(cfg: WorkerConfig, workers: nat, run: seq<Label>, s: State)
    requires Reaches(cfg, workers, run, s)
    ensures Inv(cfg, s)
  {
    InitialInv(cfg, workers);
    RunKeepsInv(cfg, Initial(cfg, workers), run, Anything);
  }

  /** The worker is about to give its copy up for good. */
  predicate AboutToDrop(s: State, p: Place) {
    p.At? && 0 <= p.w < |s.workers| && s.workers[p.w].Busy? && s.workers[p.w].pc == Nacking(false)
  }

  /** A message ever produced has a copy on a queue, among the dead letters, or in the hands of a worker that has not passed
      it on; or a delivery of this very message has ended with both closing events of an outcome on file confirmed, or with
      its rollout-pending event confirmed. Only a message that is refused admission can vanish, or be about to, and only
      after its dead letter failed. */
  lemma NoMessageIsLost(cfg: WorkerConfig, workers: nat, run: seq<Label>, s: State, origin: nat)
    requires Reaches(cfg, workers, run, s) && origin in s.hist.injected
    ensures || (exists p, m :: CopyAt(s, p, m) && m.origin == origin && m.body == s.hist.injected[origin]
                               && (AboutToDrop(s, p) ==> !AdmittedBody(cfg, m.body)))
            || (exists n :: (origin, n) in s.hist.settled && Final(s.hist, BodyId(s.hist.injected[origin]), n))
            || (origin in s.hist.dropped && !AdmittedBody(cfg, s.hist.injected[origin]))
  {
    ReachedInv(cfg, workers, run, s);
    assert Covered(cfg, s, origin);
    if p, m :| CopyAt(s, p, m) && m.origin == origin {
      CopiesAreKnown(cfg, s, p, m);
      if AboutToDrop(s, p) { assert WorkerOk(cfg, s, s.workers[p.w]); }
      assert CopyAt(s, p, m) && m.body == s.hist.injected[origin];
    }
  }

  lemma CopiesAreKnown(cfg: WorkerConfig, s: State, p: Place, m: Message)
    requires Inv(cfg, s) && CopyAt(s, p, m)
    ensures Known(s.hist, m) && 0 <= Attempt(m) <= cfg.maxAttempts
    ensures !p.InDead? ==> Attempt(m) < cfg.maxAttempts
  {
    match p
    case InMain => assert QueueOk(cfg, s.hist, s.main);
    case InRetry(q) => assert QueueOk(cfg, s.hist, s.retry[q]);
    case InDead => assert DeadMessage(cfg, s.hist, m);
    case At(w) => assert WorkerOk(cfg, s, s.workers[w]);
  }

  /** Messages on the main and retry queues and in the hands of workers carry an attempt number in [0, MaxAttempts). */
  lemma AttemptsStayInRange(cfg: WorkerConfig, workers: nat, run: seq<Label>, s: State, p: Place, m: Message)
    requires Reaches(cfg, workers, run, s) && CopyAt(s, p, m)
    ensures 0 <= Attempt(m) <= cfg.maxAttempts && (!p.InDead? ==> Attempt(m) < cfg.maxAttempts)
  {
    ReachedInv(cfg, workers, run, s);
    CopiesAreKnown(cfg, s, p, m);
  }

  /** A retry copy always goes to a queue that was declared, so it is never confirmed and lost. */
  lemma RetriesGoToDeclaredQueues(cfg: WorkerConfig, workers: nat, run: seq<Label>, s: State, w: nat, c: Call, took: bool)
    requires Reaches(cfg, workers, run, s) && Enabled(cfg, s, Act(w, c, took)) && c.Requeue?
    ensures 0 <= c.queue < |s.retry| == |cfg.backoffs| && 0 <= Attempt(c.copy) < cfg.maxAttempts
    ensures took ==> c.copy in Apply(cfg, s, Act(w, c, took)).retry[c.queue]
  {
    ReachedInv(cfg, workers, run, s);
    assert WorkerOk(cfg, s, s.workers[w]);
    RetryQueueDeclared(cfg, s.workers[w].pc.attempt);
  }

  /** A delivery turned away by a busy lease goes back with its number unchanged: it never exhausts its attempts,
      writes no outcome and releases nothing. */
  lemma BusyDeliveriesTouchNothing(cfg: WorkerConfig, workers: nat, run: seq<Label>, s: State, w: nat, c: Call)
    requires Reaches(cfg, workers, run, s) && Enabled(cfg, s, Act(w, c, true))
    requires c.Claim? && c.claim.Claimed? && c.claim.disposition.ClaimBusy?
    ensures var m := s.workers[w].m;
            && Apply(cfg, s, Act(w, c, true)).rows == s.rows
            && Advance(cfg, m, s.workers[w].pc, c) == Requeuing(Attempt(m), LeaseBusy, false)
            && (forall r :: Offers(cfg, m, Requeuing(Attempt(m), LeaseBusy, false), r) ==>
                  Advance(cfg, m, Requeuing(Attempt(m), LeaseBusy, false), r) in {Acking, Nacking(true)})
  {
    ReachedInv(cfg, workers, run, s);
    var m := s.workers[w].m;
    assert WorkerOk(cfg, s, s.workers[w]);
    ToRetryOk(cfg, s, m, LeaseBusy);
    assert s.rows[IdOf(m) := s.rows[IdOf(m)]] == s.rows;
  }

  /** Every row is well formed: its attempt number counts the claims that acquired it, its result is the bundle last
      written to it, and on a terminal row that bundle tells of this deployment and of this very state. */
  lemma RowsAreTruthful(cfg: WorkerConfig, workers: nat, run: seq<Label>, s: State, k: string)
    requires Reaches(cfg, workers, run, s) && k in s.rows
    ensures k in s.hist.acquired && s.rows[k].attempt == s.hist.acquired[k] > 0
    ensures s.rows[k].result == if k in s.hist.last then Some(s.hist.last[k]) else None
    ensures Terminal(s.rows[k]) ==>
              && s.rows[k].lease.None? && k in s.hist.last && Matched(s.hist.last[k], k)
              && s.rows[k].state == StateFor(s.hist.last[k].service.outcome)
  {
    ReachedInv(cfg, workers, run, s);
    assert RowOk(k, s.rows[k]);
  }

  /** A claim that finds an outcome goes straight to publishing the bundle last written, which always decodes. */
  lemma ReplaysAreFaithful(cfg: WorkerConfig, workers: nat, run: seq<Label>, s: State, w: nat, c: Call, took: bool)
    requires Reaches(cfg, workers, run, s) && Enabled(cfg, s, Act(w, c, took))
    requires c.Claim? && c.claim.Claimed? && (c.claim.disposition.ClaimCompleted? || c.claim.disposition.ClaimFailed?)
    ensures IdOf(s.workers[w].m) in s.hist.last
    ensures Advance(cfg, s.workers[w].m, s.workers[w].pc, c) == ClosingService(s.hist.last[IdOf(s.workers[w].m)], EndHandler)
  {
    ReachedInv(cfg, workers, run, s);
    TerminalClaimFindsRow(cfg, s, w, c, took);
    StoredResultIsFaithful(s.rows, s.hist, IdOf(s.workers[w].m));
    TerminalAnswersReplay(cfg, s.workers[w].m, c, s.hist.last[IdOf(s.workers[w].m)]);
  }

  lemma TerminalClaimFindsRow(cfg: WorkerConfig, s: State, w: nat, c: Call, took: bool)
    requires Enabled(cfg, s, Act(w, c, took))
    requires c.Claim? && c.claim.Claimed? && (c.claim.disposition.ClaimCompleted? || c.claim.disposition.ClaimFailed?)
    ensures s.workers[w].pc.Claiming?
    ensures var id := IdOf(s.workers[w].m); id in s.rows && Terminal(s.rows[id]) && c.claim.result == s.rows[id].result
  {
  }

  lemma TerminalAnswersReplay(cfg: WorkerConfig, m: Message, c: Call, b: Bundle)
    requires Offers(cfg, m, Claiming, c) && c.claim.Claimed? && c.claim.result == Some(b)
    requires c.claim.disposition.ClaimCompleted? || c.claim.disposition.ClaimFailed?
    ensures Advance(cfg, m, Claiming, c) == ClosingService(b, EndHandler)
  {
  }

  /** A service event handed to the broker is part of a bundle that was handed to the ledger before and that the ledger
      accepted without an error; and it is on record unless it is a failure that found no row to be written to. */
  lemma OutcomesAreFiledFirst(cfg: WorkerConfig, workers: nat, run: seq<Label>, s: State, w: nat, c: Call, took: bool)
    requires Reaches(cfg, workers, run, s) && Enabled(cfg, s, Act(w, c, took))
    requires c.Publish? && c.notice.ServiceNotice?
    ensures exists b: Bundle :: b.service == c.notice.service && Matched(b, IdOf(s.workers[w].m))
                        && (b in s.hist.recorded || (b in s.hist.unfiled && b.service.outcome.Failed?))
  {
    ReachedInv(cfg, workers, run, s);
    assert WorkerOk(cfg, s, s.workers[w]);
    assert s.workers[w].pc.ClosingService?;
    var b := s.workers[w].pc.bundle;
    assert b.service == c.notice.service && Filed(s.hist, b);
  }

  /** Exactly when an outcome write reaches a row: when some claim on the deployment has ever been committed. Otherwise
      the update matches nothing and still reports no error. A success is always written to its row. */
  lemma WritesReachRowsOnceClaimed(cfg: WorkerConfig, workers: nat, run: seq<Label>, s: State, w: nat, c: Call)
    requires Reaches(cfg, workers, run, s) && Enabled(cfg, s, Act(w, c, true)) && c.Persist?
    ensures var s' := Apply(cfg, s, Act(w, c, true));
            && (c.bundle in s'.hist.recorded <==> c.id in s.hist.acquired)
            && (c.id in s.hist.acquired ==> c.id in s'.rows && s'.rows[c.id].result == Some(c.bundle) && Terminal(s'.rows[c.id]))
            && (c.id !in s.hist.acquired ==> s'.rows == s.rows)
    ensures c.bundle.service.outcome.Succeeded? ==> c.id in s.hist.acquired
  {
    ReachedInv(cfg, workers, run, s);
    assert WorkerOk(cfg, s, s.workers[w]);
    assert Matched(c.bundle, c.id);
  }

  /** The call writes the row of `k` and leaves another outcome there, or none. */
  predicate Touches(c: Call, took: bool, k: string, r: StageRecord) {
    took && ((c.Release? && c.id == k) || (c.Persist? && c.id == k && Some(c.bundle) != r.result))
  }

  lemma CallTouches(cfg: WorkerConfig, s: State, w: nat, c: Call, took: bool, k: string)
    requires Enabled(cfg, s, Act(w, c, took)) && k in s.rows && Terminal(s.rows[k]) && RowOk(k, s.rows[k])
    ensures k in Effect(cfg, s, s.workers[w], c, took).rows
    ensures Effect(cfg, s, s.workers[w], c, took).rows[k] != s.rows[k] <==> Touches(c, took, k, s.rows[k])
  {
  }

  lemma MoveTouchesNot(cfg: WorkerConfig, s: State, l: Label, k: string)
    requires Enabled(cfg, s, l) && !l.Act? && k in s.rows && Terminal(s.rows[k])
    ensures k in Apply(cfg, s, l).rows && Apply(cfg, s, l).rows[k] == s.rows[k]
  {
  }

  /** Exactly when an outcome on record is touched: by a release of its row, or by a write of another bundle, that takes
      effect, whoever makes it and whether or not it reports an error. */
  lemma OutcomesAreTouchedExactlyBy(cfg: WorkerConfig, workers: nat, run: seq<Label>, s: State, l: Label, k: string)
    requires Reaches(cfg, workers, run, s) && Enabled(cfg, s, l) && k in s.rows && Terminal(s.rows[k])
    ensures k in Apply(cfg, s, l).rows
    ensures Apply(cfg, s, l).rows[k] != s.rows[k] <==> l.Act? && Touches(l.c, l.took, k, s.rows[k])
  {
    ReachedInv(cfg, workers, run, s);
    assert RowOk(k, s.rows[k]);
    if l.Act? { CallTouches(cfg, s, l.w, l.c, l.took, k); } else { MoveTouchesNot(cfg, s, l, k); }
  }
}
