/** What leases buy when rows are written only by the run that holds them: one holder, one outcome, one story told. */
module LeaseSafety {
  import opened Wrappers
  import opened Errors
  import opened Events
  import opened StageLedger
  import opened Delivery
  import opened Fleet
  import opened FleetInvariant

  /** Worker `w` is a run within its lease on deployment `id`. */
  predicate Holds(s: State, w: int, id: string, margin: int) {
    0 <= w < |s.workers| && s.workers[w].Busy? && IdOf(s.workers[w].m) == id && Within(s, s.workers[w], margin)
  }

  /** The row still bars other claims for as long as the holder may act on it. */
  predicate Guarded(s: State, worker: Worker, margin: int)
    requires worker.Busy? && worker.grant.Some?
  {
    var id := IdOf(worker.m);
    id in s.rows && s.rows[id].state.InProgress? && s.rows[id].lease.Some? && worker.grant.value - margin <= s.rows[id].lease.value
  }

  predicate ClockOk(cfg: WorkerConfig, s: State, worker: Worker) {
    worker.Busy? ==>
      && (worker.grant.Some? ==> worker.grant.value <= s.clock + cfg.lease)
      && (worker.sampled.Some? ==> worker.sampled.value <= s.clock)
  }

  ghost predicate ClocksOk(cfg: WorkerConfig, s: State) {
    forall w :: 0 <= w < |s.workers| ==> ClockOk(cfg, s, s.workers[w])
  }

  ghost predicate HoldersGuarded(s: State, margin: int) {
    forall w :: 0 <= w < |s.workers| && Within(s, s.workers[w], margin) ==> Guarded(s, s.workers[w], margin)
  }

  ghost predicate OneHolder(s: State, margin: int) {
    forall v, w, id :: Holds(s, v, id, margin) && Holds(s, w, id, margin) ==> v == w
  }

  /** The row of `id` is terminal and holds exactly `b`. */
  predicate Stands(s: State, id: string, b: Bundle) {
    id in s.rows && Terminal(s.rows[id]) && s.rows[id].result == Some(b)
  }

  predicate StandsFor(s: State, e: ServiceEvent) {
    var id := e.source.deploymentId;
    id in s.rows && Terminal(s.rows[id]) && s.rows[id].result.Some? && s.rows[id].result.value.service == e
  }

  /** Outcomes are published only while they stand. */
  ghost predicate PublishedStand(s: State) {
    forall e :: e in s.hist.attempted ==> StandsFor(s, e)
  }

  ghost predicate ClosersStand(s: State) {
    forall w :: 0 <= w < |s.workers| && s.workers[w].Busy? && Closes(s.workers[w].pc) ==>
      Stands(s, IdOf(s.workers[w].m), s.workers[w].pc.bundle)
  }

  ghost predicate LeaseInv(cfg: WorkerConfig, s: State, margin: int) {
    && margin >= 0
    && ClocksOk(cfg, s)
    && HoldersGuarded(s, margin)
    && OneHolder(s, margin)
    && PublishedStand(s)
    && ClosersStand(s)
  }

  // ---- Claims ----

  /** No claim goes through, and none changes the row, while somebody else holds the lease. */
  lemma HeldRowIsBusy(cfg: WorkerConfig, s: State, v: int, id: string, margin: int, sampled: int)
    requires LeaseInv(cfg, s, margin) && Holds(s, v, id, margin) && sampled <= s.clock
    ensures ClaimDisposition(RowAt(s.rows, id), sampled).ClaimBusy?
    ensures ClaimRows(s.rows, id, sampled, cfg.lease) == s.rows
  {
    assert Guarded(s, s.workers[v], margin);
    assert s.rows[id := s.rows[id]] == s.rows;
  }

  // ---- Calls ----

  /** A call that touches the row of a holder is the holder's own. */
  lemma CallSparesOtherHolders(cfg: WorkerConfig, s: State, w: nat, c: Call, took: bool, v: int, id: string, margin: int)
    requires LeaseInv(cfg, s, margin) && Enabled(cfg, s, Act(w, c, took)) && PermitsLeased(s, Act(w, c, took), margin, NoWaiver)
    requires v != w && Holds(s, v, id, margin)
    ensures id in s.rows && id in Apply(cfg, s, Act(w, c, took)).rows
    ensures Apply(cfg, s, Act(w, c, took)).rows[id] == s.rows[id]
  {
    var worker := s.workers[w];
    assert Guarded(s, s.workers[v], margin);
    assert ClockOk(cfg, s, worker);
    if IdOf(worker.m) == id {
      if c.Claim? {
        HeldRowIsBusy(cfg, s, v, id, margin, worker.sampled.value);
      } else if Writes(c, took) {
        assert Holds(s, w, id, margin);
      }
    }
  }

  /** An outcome, once on its row, stays there. */
  lemma StepKeepsTerminal(cfg: WorkerConfig, s: State, l: Label, margin: int, k: string)
    requires LeaseInv(cfg, s, margin) && Enabled(cfg, s, l) && PermitsLeased(s, l, margin, NoWaiver)
    requires k in s.rows && Terminal(s.rows[k])
    ensures k in Apply(cfg, s, l).rows && Apply(cfg, s, l).rows[k] == s.rows[k]
  {
    if l.Act? {
      var worker := s.workers[l.w];
      assert Within(s, worker, margin) ==> Guarded(s, worker, margin);
    }
  }

  lemma PublishedStandsOn(cfg: WorkerConfig, s: State, l: Label, margin: int, e: ServiceEvent)
    requires LeaseInv(cfg, s, margin) && Enabled(cfg, s, l) && PermitsLeased(s, l, margin, NoWaiver) && StandsFor(s, e)
    ensures StandsFor(Apply(cfg, s, l), e)
  {
    StepKeepsTerminal(cfg, s, l, margin, e.source.deploymentId);
  }

  lemma BundleStandsOn(cfg: WorkerConfig, s: State, l: Label, margin: int, id: string, b: Bundle)
    requires LeaseInv(cfg, s, margin) && Enabled(cfg, s, l) && PermitsLeased(s, l, margin, NoWaiver) && Stands(s, id, b)
    ensures Stands(Apply(cfg, s, l), id, b)
  {
    StepKeepsTerminal(cfg, s, l, margin, id);
  }

  /** The acting worker after a claim: if it acquired the row, it holds it alone and guarded. */
  lemma ClaimantGuarded(cfg: WorkerConfig, s: State, w: nat, c: Call, took: bool, margin: int)
    requires LeaseInv(cfg, s, margin) && Enabled(cfg, s, Act(w, c, took)) && c.Claim?
    ensures var s' := Apply(cfg, s, Act(w, c, took));
            && ClockOk(cfg, s', s'.workers[w])
            && (Within(s', s'.workers[w], margin) ==>
                  Guarded(s', s'.workers[w], margin) && forall v :: !Holds(s, v, IdOf(s.workers[w].m), margin))
            && (s'.workers[w].Busy? && Closes(s'.workers[w].pc) ==>
                  Stands(s', IdOf(s.workers[w].m), s'.workers[w].pc.bundle))
  {
    var worker := s.workers[w];
    assert ClockOk(cfg, s, worker);
    var id := IdOf(worker.m);
    assert worker.pc.Claiming?;
    if c.claim.Claimed? && c.claim.disposition.ClaimAcquired? {
      forall v ensures !Holds(s, v, id, margin) {
        if Holds(s, v, id, margin) { HeldRowIsBusy(cfg, s, v, id, margin, worker.sampled.value); }
      }
    } else if c.claim.ClaimError? {
      RetryClosesNothing(cfg, worker.m, Wrapped(ClaimingStage, c.claim.error));
    }
  }

  lemma RetryClosesNothing(cfg: WorkerConfig, m: Message, cause: Error)
    ensures !Closes(ToRetry(cfg, m, cause))
  {
  }

  /** A call that closes comes right after the record, or after the service event of the same bundle. */
  lemma ClosesOnlyAfter(cfg: WorkerConfig, m: Message, pc: Pc, c: Call)
    requires Offers(cfg, m, pc, c) && !pc.Claiming? && Closes(Advance(cfg, m, pc, c))
    ensures ((pc.Persisting? && c.verdict.Fine?) || pc.ClosingService?) && Advance(cfg, m, pc, c).bundle == pc.bundle
  {
  }

  lemma CallerGuarded(cfg: WorkerConfig, s: State, w: nat, c: Call, took: bool, margin: int)
    requires LeaseInv(cfg, s, margin) && Enabled(cfg, s, Act(w, c, took)) && PermitsLeased(s, Act(w, c, took), margin, NoWaiver)
    requires !c.Claim?
    ensures var s' := Apply(cfg, s, Act(w, c, took));
            && ClockOk(cfg, s', s'.workers[w])
            && (Within(s', s'.workers[w], margin) ==>
                  Within(s, s.workers[w], margin) && Guarded(s', s'.workers[w], margin) && IdOf(s'.workers[w].m) == IdOf(s.workers[w].m))
  {
    var worker := s.workers[w];
    assert ClockOk(cfg, s, worker);
    if Within(s, worker, margin) { assert Guarded(s, worker, margin); }
  }

  lemma CallerStands(cfg: WorkerConfig, s: State, w: nat, c: Call, took: bool, margin: int)
    requires LeaseInv(cfg, s, margin) && Enabled(cfg, s, Act(w, c, took)) && PermitsLeased(s, Act(w, c, took), margin, NoWaiver)
    requires !c.Claim?
    ensures var s' := Apply(cfg, s, Act(w, c, took));
            s'.workers[w].Busy? && Closes(s'.workers[w].pc) ==>
              Stands(s', IdOf(s'.workers[w].m), s'.workers[w].pc.bundle)
  {
    var worker := s.workers[w];
    var pc' := Advance(cfg, worker.m, worker.pc, c);
    if Closes(pc') {
      ClosesOnlyAfter(cfg, worker.m, worker.pc, c);
      if worker.pc.ClosingService? {
        BundleStandsOn(cfg, s, Act(w, c, took), margin, IdOf(worker.m), worker.pc.bundle);
      } else {
        assert Guarded(s, worker, margin);
      }
    }
  }

  /** Only the service event of a closing delivery is new on the broker, and it stands already. */
  lemma NewAttemptStands(cfg: WorkerConfig, s: State, w: nat, c: Call, took: bool, e: ServiceEvent)
    requires Enabled(cfg, s, Act(w, c, took)) && WorkerOk(cfg, s, s.workers[w]) && ClosersStand(s)
    requires e in Effect(cfg, s, s.workers[w], c, took).hist.attempted && e !in s.hist.attempted
    ensures StandsFor(s, e)
  {
    var worker := s.workers[w];
    assert c.Publish? && worker.pc.ClosingService? && e == worker.pc.bundle.service;
    assert Stands(s, IdOf(worker.m), worker.pc.bundle);
  }

  lemma CallPublishesStanding(cfg: WorkerConfig, s: State, w: nat, c: Call, took: bool, margin: int)
    requires Inv(cfg, s) && LeaseInv(cfg, s, margin)
    requires Enabled(cfg, s, Act(w, c, took)) && PermitsLeased(s, Act(w, c, took), margin, NoWaiver)
    ensures PublishedStand(Apply(cfg, s, Act(w, c, took)))
  {
    var s' := Apply(cfg, s, Act(w, c, took));
    forall e | e in s'.hist.attempted ensures StandsFor(s', e) {
      if e !in s.hist.attempted {
        assert WorkerOk(cfg, s, s.workers[w]);
        NewAttemptStands(cfg, s, w, c, took, e);
      }
      PublishedStandsOn(cfg, s, Act(w, c, took), margin, e);
    }
  }

  lemma CallKeepsHolders(cfg: WorkerConfig, s: State, w: nat, c: Call, took: bool, margin: int)
    requires LeaseInv(cfg, s, margin) && Enabled(cfg, s, Act(w, c, took)) && PermitsLeased(s, Act(w, c, took), margin, NoWaiver)
    ensures var s' := Apply(cfg, s, Act(w, c, took)); ClocksOk(cfg, s') && HoldersGuarded(s', margin) && OneHolder(s', margin)
  {
    var s' := Apply(cfg, s, Act(w, c, took));
    if c.Claim? { ClaimantGuarded(cfg, s, w, c, took, margin); } else { CallerGuarded(cfg, s, w, c, took, margin); }
    forall v | 0 <= v < |s'.workers| ensures ClockOk(cfg, s', s'.workers[v]) {
      assert v != w ==> ClockOk(cfg, s, s.workers[v]);
    }
    forall v | 0 <= v < |s'.workers| && Within(s', s'.workers[v], margin) ensures Guarded(s', s'.workers[v], margin) {
      if v != w {
        var id := IdOf(s.workers[v].m);
        assert Guarded(s, s.workers[v], margin) && Holds(s, v, id, margin);
        CallSparesOtherHolders(cfg, s, w, c, took, v, id, margin);
      }
    }
    forall u, v, id | Holds(s', u, id, margin) && Holds(s', v, id, margin) ensures u == v {
      assert u != w ==> Holds(s, u, id, margin);
      assert v != w ==> Holds(s, v, id, margin);
      assert !c.Claim? && (u == w || v == w) ==> Holds(s, w, id, margin);
    }
  }

  lemma CallKeepsLeaseInv(cfg: WorkerConfig, s: State, w: nat, c: Call, took: bool, margin: int)
    requires Inv(cfg, s) && LeaseInv(cfg, s, margin)
    requires Enabled(cfg, s, Act(w, c, took)) && PermitsLeased(s, Act(w, c, took), margin, NoWaiver)
    ensures LeaseInv(cfg, Apply(cfg, s, Act(w, c, took)), margin)
  {
    var s' := Apply(cfg, s, Act(w, c, took));
    CallKeepsHolders(cfg, s, w, c, took, margin);
    CallPublishesStanding(cfg, s, w, c, took, margin);
    if c.Claim? { ClaimantGuarded(cfg, s, w, c, took, margin); } else { CallerStands(cfg, s, w, c, took, margin); }
    forall v | 0 <= v < |s'.workers| && s'.workers[v].Busy? && Closes(s'.workers[v].pc)
      ensures Stands(s', IdOf(s'.workers[v].m), s'.workers[v].pc.bundle)
    {
      if v != w {
        BundleStandsOn(cfg, s, Act(w, c, took), margin, IdOf(s.workers[v].m), s.workers[v].pc.bundle);
      }
    }
  }

  // ---- The other steps ----

  /** A renewal read from the clock at most `margin` ago leaves every holder guarded. */
  lemma RenewalKeepsGuards(cfg: WorkerConfig, s: State, id: string, at: int, margin: int, worker: Worker)
    requires LeaseInv(cfg, s, margin) && s.clock - margin <= at
    requires worker in s.workers && Within(s, worker, margin)
    ensures Guarded(s.(rows := RenewRows(s.rows, id, at, cfg.lease)), worker, margin)
  {
    var w :| 0 <= w < |s.workers| && s.workers[w] == worker;
    assert Guarded(s, worker, margin) && ClockOk(cfg, s, s.workers[w]);
  }

  lemma MoveKeepsGuard(cfg: WorkerConfig, s: State, l: Label, margin: int, v: nat)
    requires LeaseInv(cfg, s, margin) && Enabled(cfg, s, l) && PermitsLeased(s, l, margin, NoWaiver) && !l.Act?
    requires v < |s.workers| && Within(s, s.workers[v], margin)
    requires Within(Apply(cfg, s, l), Apply(cfg, s, l).workers[v], margin)
    ensures Guarded(Apply(cfg, s, l), Apply(cfg, s, l).workers[v], margin)
  {
    assert Guarded(s, s.workers[v], margin);
    if l.Renew? {
      RenewalKeepsGuards(cfg, s, IdOf(s.workers[l.w].m), l.sampledAt, margin, s.workers[v]);
      if v == l.w { assert ClockOk(cfg, s, s.workers[v]); }
    } else if l.StaleRenew? {
      RenewalKeepsGuards(cfg, s, l.id, l.sampledAt, margin, s.workers[v]);
    }
  }

  /** A step that is no call makes nobody a holder. */
  lemma MoveMakesNoHolder(cfg: WorkerConfig, s: State, l: Label, margin: int, v: nat)
    requires margin >= 0 && Enabled(cfg, s, l) && PermitsLeased(s, l, margin, NoWaiver) && !l.Act?
    requires v < |s.workers| && Within(Apply(cfg, s, l), Apply(cfg, s, l).workers[v], margin)
    ensures Within(s, s.workers[v], margin) && Apply(cfg, s, l).workers[v].m == s.workers[v].m
  {
  }

  lemma MoveKeepsHolders(cfg: WorkerConfig, s: State, l: Label, margin: int)
    requires LeaseInv(cfg, s, margin) && Enabled(cfg, s, l) && PermitsLeased(s, l, margin, NoWaiver) && !l.Act?
    ensures var s' := Apply(cfg, s, l); HoldersGuarded(s', margin) && OneHolder(s', margin)
  {
    var s' := Apply(cfg, s, l);
    forall v | 0 <= v < |s'.workers| && Within(s', s'.workers[v], margin) ensures Guarded(s', s'.workers[v], margin) {
      MoveMakesNoHolder(cfg, s, l, margin, v);
      MoveKeepsGuard(cfg, s, l, margin, v);
    }
    forall u, v, id | Holds(s', u, id, margin) && Holds(s', v, id, margin) ensures u == v {
      MoveMakesNoHolder(cfg, s, l, margin, u);
      MoveMakesNoHolder(cfg, s, l, margin, v);
      assert Holds(s, u, id, margin) && Holds(s, v, id, margin);
    }
  }

  lemma MoveKeepsPublished(cfg: WorkerConfig, s: State, l: Label, margin: int)
    requires LeaseInv(cfg, s, margin) && Enabled(cfg, s, l) && PermitsLeased(s, l, margin, NoWaiver) && !l.Act?
    ensures PublishedStand(Apply(cfg, s, l))
  {
    forall e | e in Apply(cfg, s, l).hist.attempted ensures StandsFor(Apply(cfg, s, l), e) {
      PublishedStandsOn(cfg, s, l, margin, e);
    }
  }

  /** A delivery about to publish an outcome was there before. */
  lemma MoveKeepsClosers(cfg: WorkerConfig, s: State, l: Label, v: nat)
    requires Enabled(cfg, s, l) && !l.Act? && v < |s.workers|
    requires Apply(cfg, s, l).workers[v].Busy? && Closes(Apply(cfg, s, l).workers[v].pc)
    ensures s.workers[v].Busy? && s.workers[v].m == Apply(cfg, s, l).workers[v].m && s.workers[v].pc == Apply(cfg, s, l).workers[v].pc
  {
  }

  lemma MoveKeepsStanding(cfg: WorkerConfig, s: State, l: Label, margin: int)
    requires LeaseInv(cfg, s, margin) && Enabled(cfg, s, l) && PermitsLeased(s, l, margin, NoWaiver) && !l.Act?
    ensures ClosersStand(Apply(cfg, s, l))
  {
    var s' := Apply(cfg, s, l);
    forall v | 0 <= v < |s'.workers| && s'.workers[v].Busy? && Closes(s'.workers[v].pc)
      ensures Stands(s', IdOf(s'.workers[v].m), s'.workers[v].pc.bundle)
    {
      MoveKeepsClosers(cfg, s, l, v);
      BundleStandsOn(cfg, s, l, margin, IdOf(s.workers[v].m), s.workers[v].pc.bundle);
    }
  }

  lemma MoveKeepsClocks(cfg: WorkerConfig, s: State, l: Label, margin: int)
    requires margin >= 0 && ClocksOk(cfg, s) && Enabled(cfg, s, l) && PermitsLeased(s, l, margin, NoWaiver) && !l.Act?
    ensures ClocksOk(cfg, Apply(cfg, s, l))
  {
    var s' := Apply(cfg, s, l);
    forall v | 0 <= v < |s'.workers| ensures ClockOk(cfg, s', s'.workers[v]) {
      assert ClockOk(cfg, s, s.workers[v]);
    }
  }

  lemma MoveKeepsLeaseInv(cfg: WorkerConfig, s: State, l: Label, margin: int)
    requires LeaseInv(cfg, s, margin) && Enabled(cfg, s, l) && PermitsLeased(s, l, margin, NoWaiver) && !l.Act?
    ensures LeaseInv(cfg, Apply(cfg, s, l), margin)
  {
    MoveKeepsClocks(cfg, s, l, margin);
    MoveKeepsHolders(cfg, s, l, margin);
    MoveKeepsPublished(cfg, s, l, margin);
    MoveKeepsStanding(cfg, s, l, margin);
  }

  lemma StepKeepsLeaseInv(cfg: WorkerConfig, s: State, l: Label, margin: int)
    requires Inv(cfg, s) && LeaseInv(cfg, s, margin) && Enabled(cfg, s, l) && PermitsLeased(s, l, margin, NoWaiver)
    ensures LeaseInv(cfg, Apply(cfg, s, l), margin)
  {
    if l.Act? { CallKeepsLeaseInv(cfg, s, l.w, l.c, l.took, margin); } else { MoveKeepsLeaseInv(cfg, s, l, margin); }
  }

  lemma {:induction false} RunKeepsLeaseInv(cfg: WorkerConfig, s: State, run: seq<Label>, margin: int)
    requires Inv(cfg, s) && LeaseInv(cfg, s, margin) && Legal(cfg, s, run, Leased(margin, NoWaiver))
    ensures Inv(cfg, ExecAll(cfg, s, run, Leased(margin, NoWaiver))) && LeaseInv(cfg, ExecAll(cfg, s, run, Leased(margin, NoWaiver)), margin)
    ensures forall k :: k in s.rows && Terminal(s.rows[k]) ==>
              k in ExecAll(cfg, s, run, Leased(margin, NoWaiver)).rows && ExecAll(cfg, s, run, Leased(margin, NoWaiver)).rows[k] == s.rows[k]
    decreases |run|
  {
    if run != [] {
      var s' := Apply(cfg, s, run[0]);
      StepKeepsInv(cfg, s, run[0]);
      StepKeepsLeaseInv(cfg, s, run[0], margin);
      RunKeepsLeaseInv(cfg, s', run[1..], margin);
      forall k | k in s.rows && Terminal(s.rows[k])
        ensures k in ExecAll(cfg, s, run, Leased(margin, NoWaiver)).rows && ExecAll(cfg, s, run, Leased(margin, NoWaiver)).rows[k] == s.rows[k]
      {
        StepKeepsTerminal(cfg, s, run[0], margin, k);
      }
    }
  }

  lemma InitialLeaseInv(cfg: WorkerConfig, workers: nat, margin: nat)
    ensures LeaseInv(cfg, Initial(cfg, workers), margin)
  {
  }

  // ---- The theorems ----

  /** At every point of a leased run at most one run per deployment is within its lease. */
  lemma LeaseExclusion(cfg: WorkerConfig, workers: nat, run: seq<Label>, margin: nat, v: int, w: int, id: string)
    requires ConfigOk(cfg) && Legal(cfg, Initial(cfg, workers), run, Leased(margin, NoWaiver))
    requires var s := ExecAll(cfg, Initial(cfg, workers), run, Leased(margin, NoWaiver)); Holds(s, v, id, margin) && Holds(s, w, id, margin)
    ensures v == w
  {
    InitialInv(cfg, workers);
    InitialLeaseInv(cfg, workers, margin);
    RunKeepsLeaseInv(cfg, Initial(cfg, workers), run, margin);
  }

  /** A row that has become COMPLETED or FAILED never changes again. */
  lemma OutcomesAreFinal(cfg: WorkerConfig, workers: nat, run: seq<Label>, more: seq<Label>, margin: nat, k: string)
    requires ConfigOk(cfg) && Legal(cfg, Initial(cfg, workers), run + more, Leased(margin, NoWaiver))
    requires Legal(cfg, Initial(cfg, workers), run, Leased(margin, NoWaiver))
    requires var s := ExecAll(cfg, Initial(cfg, workers), run, Leased(margin, NoWaiver)); k in s.rows && Terminal(s.rows[k])
    ensures var s := ExecAll(cfg, Initial(cfg, workers), run, Leased(margin, NoWaiver));
            var t := ExecAll(cfg, Initial(cfg, workers), run + more, Leased(margin, NoWaiver));
            k in t.rows && t.rows[k] == s.rows[k]
  {
    InitialInv(cfg, workers);
    InitialLeaseInv(cfg, workers, margin);
    RunKeepsLeaseInv(cfg, Initial(cfg, workers), run, margin);
    LegalConcat(cfg, Initial(cfg, workers), run, more, Leased(margin, NoWaiver));
    RunKeepsLeaseInv(cfg, ExecAll(cfg, Initial(cfg, workers), run, Leased(margin, NoWaiver)), more, margin);
  }

  /** All service events ever handed to the broker for one deployment are one and the same event, the one on its row:
      never both a success and a failure. */
  lemma OneStoryPerDeployment(cfg: WorkerConfig, workers: nat, run: seq<Label>, margin: nat, e: ServiceEvent, e': ServiceEvent)
    requires ConfigOk(cfg) && Legal(cfg, Initial(cfg, workers), run, Leased(margin, NoWaiver))
    requires var s := ExecAll(cfg, Initial(cfg, workers), run, Leased(margin, NoWaiver)); e in s.hist.attempted && e' in s.hist.attempted
    requires e.source.deploymentId == e'.source.deploymentId
    ensures e == e'
    ensures var s := ExecAll(cfg, Initial(cfg, workers), run, Leased(margin, NoWaiver)); StandsFor(s, e)
  {
    InitialInv(cfg, workers);
    InitialLeaseInv(cfg, workers, margin);
    RunKeepsLeaseInv(cfg, Initial(cfg, workers), run, margin);
    var s := ExecAll(cfg, Initial(cfg, workers), run, Leased(margin, NoWaiver));
    assert StandsFor(s, e) && StandsFor(s, e');
  }
}
