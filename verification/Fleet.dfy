/** Any number of workers, their clock, the ledger rows, the broker's queues and the producer, as one step system.
    Every external call may succeed, fail, or fail after taking effect; a worker may crash between any two calls. */
module Fleet {
  import opened Wrappers
  import opened Events
  import opened StageLedger
  import opened Delivery

  /** Durations and clock values count nanoseconds. */
  const SECOND := 1_000_000_000

  /** `sampled` is the clock value the claim in progress carries; `grant` the end of the lease this run has been
      granted, as long as it may still write; `claimedAt` when its claim returned; `due` the deadline of the context of
      its pending call; `ticker` when the next tick of its renewal goroutine is due. */
  datatype Worker =
    | Idle
    | Busy(m: Message, pc: Pc, sampled: Option<int>, grant: Option<int>, claimedAt: int, due: int, ticker: Option<int>)

  /** What has happened, for stating properties: no step reads it. `attempted` holds the service events handed to the
      broker, `confirmed` what it confirmed, `recorded` the bundles committed to a row, `unfiled` the bundles whose write
      found no row and still returned no error, `last` the bundle last written to each row, `acquired` how many claims
      acquired it, `dropped` the messages given up without a dead letter, and `settled` those of which some delivery has
      had the last event of its handler confirmed, with that event. */
  datatype History = History(
    injected: map<nat, Body>, attempted: set<ServiceEvent>, confirmed: set<Notice>,
    recorded: set<Bundle>, unfiled: set<Bundle>, last: map<string, Bundle>, acquired: map<string, nat>, dropped: set<nat>,
    settled: set<(nat, Notice)>)

  datatype State = State(
    clock: int, rows: map<string, StageRecord>,
    main: multiset<Message>, retry: seq<multiset<Message>>, dead: multiset<Message>,
    workers: seq<Worker>, hist: History)

  function Initial(cfg: WorkerConfig, workers: nat): State {
    State(0, map[], multiset{}, seq(|cfg.backoffs|, _ => multiset{}), multiset{}, seq(workers, _ => Idle),
          History(map[], {}, {}, {}, {}, map[], map[], {}, {}))
  }

  /** `took` tells whether the call had its effect, whatever its answer. By `Reclaim` the broker takes a delivery back,
      its connection lost or its acknowledgement overdue, while the worker goes on with it. */
  datatype Label =
    | Tick(now: int)
    | Produce(m: Message)
    | Deliver(w: nat, m: Message)
    | Sample(w: nat)
    | Act(w: nat, c: Call, took: bool)
    | Renew(w: nat, sampledAt: int)
    | StaleRenew(id: string, sampledAt: int)
    | Expire(q: nat, m: Message)
    | Crash(w: nat)
    | Reclaim(w: nat)

  predicate IsBusy(s: State, w: nat) {
    w < |s.workers| && s.workers[w].Busy?
  }

  /** The answer of a call fits the shared state, and its effect. */
  predicate Consistent(s: State, worker: Worker, c: Call, took: bool)
    requires worker.Busy?
  {
    match c
    case Claim(id, answer) =>
      worker.sampled.Some?
      && (answer.Claimed? ==>
            && took
            && answer.disposition == ClaimDisposition(RowAt(s.rows, id), worker.sampled.value)
            && answer.result == (if id in s.rows then s.rows[id].result else None))
    case Publish(_, _, verdict) => verdict.Fine? ==> took
    case Persist(_, _, live, verdict) => (verdict.Fine? ==> took) && (took ==> live)
    case Requeue(_, _, verdict) => verdict.Fine? ==> took
    case Release(_, verdict) => verdict.Fine? ==> took
    case DeadLetter(_, verdict) => verdict.Fine? ==> took
    case _ => true
  }

  predicate Enabled(cfg: WorkerConfig, s: State, l: Label) {
    match l
    case Tick(now) => s.clock <= now
    case Produce(m) => m.origin !in s.hist.injected && m.headers == map[]
    case Deliver(w, m) => w < |s.workers| && s.workers[w].Idle? && m in s.main
    case Sample(w) => IsBusy(s, w) && s.workers[w].pc.Claiming?
    case Act(w, c, took) =>
      IsBusy(s, w) && Offers(cfg, s.workers[w].m, s.workers[w].pc, c) && Consistent(s, s.workers[w], c, took)
    case Renew(w, at) => IsBusy(s, w) && s.workers[w].ticker.Some? && at <= s.clock
    case StaleRenew(_, at) => at <= s.clock
    case Expire(q, m) => q < |s.retry| && m in s.retry[q]
    case Crash(w) => IsBusy(s, w)
    case Reclaim(w) => IsBusy(s, w)
  }

  // ---- Effects on what the workers share ----

  function FileBundle(h: History, rows: map<string, StageRecord>, id: string, b: Bundle): History {
    if id in rows then h.(recorded := h.recorded + {b}, last := h.last[id := b]) else h.(unfiled := h.unfiled + {b})
  }

  function CountClaim(h: History, id: string, d: Disposition): History {
    if d.ClaimAcquired? then h.(acquired := h.acquired[id := (if id in h.acquired then h.acquired[id] else 0) + 1]) else h
  }

  /** The event published here is the last of the handler. */
  predicate EndsHandler(pc: Pc) {
    pc.Pending? || (pc.ClosingProgress? && pc.closing.EndHandler?)
  }

  function Noted(h: History, worker: Worker, notice: Notice, verdict: Verdict): History
    requires worker.Busy?
  {
    h.(attempted := h.attempted + (if notice.ServiceNotice? then {notice.service} else {}),
       confirmed := h.confirmed + (if verdict.Fine? then {notice} else {}),
       settled := h.settled + (if verdict.Fine? && EndsHandler(worker.pc) then {(worker.m.origin, notice)} else {}))
  }

  /** What a call does to rows, queues and history. A retry copy for an undeclared queue is confirmed and lost; a
      delivery neither acknowledged nor rejected for good goes back to the main queue. */
  function Effect(cfg: WorkerConfig, s: State, worker: Worker, c: Call, took: bool): State
    requires worker.Busy? && Consistent(s, worker, c, took)
  {
    match c
    case Claim(id, _) =>
      if took then
        s.(rows := ClaimRows(s.rows, id, worker.sampled.value, cfg.lease),
           hist := CountClaim(s.hist, id, ClaimDisposition(RowAt(s.rows, id), worker.sampled.value)))
      else s
    case Publish(_, notice, verdict) => s.(hist := Noted(s.hist, worker, notice, verdict))
    case Deploy(_, _) => s
    case Await(_, _) => s
    case Persist(id, bundle, _, _) =>
      if took then
        s.(rows := SetRows(s.rows, id, StateFor(bundle.service.outcome), bundle), hist := FileBundle(s.hist, s.rows, id, bundle))
      else s
    case Requeue(q, copy, _) =>
      if took && 0 <= q < |s.retry| then s.(retry := s.retry[q := s.retry[q] + multiset{copy}]) else s
    case Release(id, _) => if took then s.(rows := ReleaseRows(s.rows, id)) else s
    case DeadLetter(copy, _) => if took then s.(dead := s.dead + multiset{copy}) else s
    case Ack => if took then s else s.(main := s.main + multiset{worker.m})
    case Nack(requeue) =>
      if requeue || !took then s.(main := s.main + multiset{worker.m})
      else s.(hist := s.hist.(dropped := s.hist.dropped + {worker.m.origin}))
  }

  // ---- The worker's own bookkeeping ----

  /** Inside `handleMessage`, where the renewal goroutine may run. */
  predicate InHandler(pc: Pc) {
    match pc
    case Persisting(_, _, closing) => closing.EndHandler?
    case ClosingService(_, closing) => closing.EndHandler?
    case ClosingProgress(_, closing) => closing.EndHandler?
    case _ => pc.Starting? || pc.Applying? || pc.Announcing? || pc.Awaiting? || pc.Rechecking? || pc.Pending?
  }

  function RenewPeriod(cfg: WorkerConfig): int {
    var d := cfg.lease / 3;
    if d <= 0 then 60 * SECOND else d
  }

  function NextGrant(cfg: WorkerConfig, worker: Worker, c: Call): Option<int>
    requires worker.Busy? && (c.Claim? ==> worker.sampled.Some?)
  {
    match c
    case Claim(_, answer) =>
      if answer.Claimed? && answer.disposition.ClaimAcquired? then Some(worker.sampled.value + cfg.lease) else None
    case Persist(_, _, _, verdict) => if verdict.Fine? then None else worker.grant
    case Release(_, _) => None
    case _ => worker.grant
  }

  /** `startLeaseRenewal` on the way into `Deploy`, cancelled when the handler returns. */
  function NextTicker(cfg: WorkerConfig, clock: int, worker: Worker, pc: Pc): Option<int>
    requires worker.Busy?
  {
    if pc.Applying? then Some(clock + RenewPeriod(cfg)) else if InHandler(pc) then worker.ticker else None
  }

  /** The deadline of the context under which the call at `pc` is made: a new context, or that of the call before. */
  function NextDue(cfg: WorkerConfig, clock: int, worker: Worker, pc: Pc): int
    requires worker.Busy?
  {
    match pc
    case Applying => clock + 60 * SECOND
    case Announcing(_) => worker.due
    case Awaiting(_) => clock + cfg.rolloutTimeout
    case Persisting(bundle, live, _) =>
      if !live then clock else if bundle.service.outcome.Succeeded? then worker.due else clock + 15 * SECOND
    case ClosingService(_, _) => if worker.pc.Claiming? then clock + 15 * SECOND else worker.due
    case ClosingProgress(_, _) => worker.due
    case Releasing => worker.due
    case _ => clock + 15 * SECOND
  }

  function Moved(cfg: WorkerConfig, clock: int, worker: Worker, c: Call): Worker
    requires worker.Busy? && Offers(cfg, worker.m, worker.pc, c) && (c.Claim? ==> worker.sampled.Some?)
  {
    var pc := Advance(cfg, worker.m, worker.pc, c);
    if pc.Finished? then Idle
    else
      Busy(worker.m, pc, if c.Claim? then None else worker.sampled, NextGrant(cfg, worker, c),
           if c.Claim? then clock else worker.claimedAt,
           NextDue(cfg, clock, worker, pc), NextTicker(cfg, clock, worker, pc))
  }

  function Apply(cfg: WorkerConfig, s: State, l: Label): State
    requires Enabled(cfg, s, l)
  {
    match l
    case Tick(now) => s.(clock := now)
    case Produce(m) =>
      s.(main := s.main + multiset{m}, hist := s.hist.(injected := s.hist.injected[m.origin := m.body]))
    case Deliver(w, m) =>
      s.(main := s.main - multiset{m},
         workers := s.workers[w := Busy(m, Begin(cfg, m), None, None, s.clock, s.clock + 15 * SECOND, None)])
    case Sample(w) => s.(workers := s.workers[w := s.workers[w].(sampled := Some(s.clock))])
    case Act(w, c, took) =>
      var worker := s.workers[w];
      var s' := Effect(cfg, s, worker, c, took);
      s'.(workers := s.workers[w := Moved(cfg, s.clock, worker, c)])
    case Renew(w, at) =>
      var worker := s.workers[w];
      s.(rows := RenewRows(s.rows, IdOf(worker.m), at, cfg.lease),
         workers := s.workers[w := worker.(grant := if worker.grant.Some? then Some(at + cfg.lease) else None,
                                           ticker := if worker.ticker.Some? then Some(worker.ticker.value + RenewPeriod(cfg)) else None)])
    case StaleRenew(id, at) => s.(rows := RenewRows(s.rows, id, at, cfg.lease))
    case Expire(q, m) => s.(retry := s.retry[q := s.retry[q] - multiset{m}], main := s.main + multiset{m})
    case Crash(w) => s.(main := s.main + multiset{s.workers[w].m}, workers := s.workers[w := Idle])
    case Reclaim(w) => s.(main := s.main + multiset{s.workers[w].m})
  }

  // ---- Runs ----

  /** The assumptions under which a run is looked at: none; or that calls keep to their deadlines; or that rows are
      written only by the run that holds their lease, with `margin` to spare; or the timing from which that follows. */
  datatype Regime =
    | Anything
    | Punctual(latency: int)
    | Leased(margin: int, waived: Waiver)
    | Timely(margin: int, latency: int, waived: Waiver)

  /** The one clause of a regime that a counter-run does without. */
  datatype Waiver = NoWaiver | Holders | HalfWrites | PromptRenewals | Deadlines | SureClaims | SurePublishes

  function ExecAll(cfg: WorkerConfig, s: State, run: seq<Label>, regime: Regime): State
    requires Legal(cfg, s, run, regime)
    decreases |run|
  {
    if run == [] then s else ExecAll(cfg, Apply(cfg, s, run[0]), run[1..], regime)
  }

  predicate Legal(cfg: WorkerConfig, s: State, run: seq<Label>, regime: Regime)
    decreases |run|
  {
    run != [] ==>
      && Enabled(cfg, s, run[0]) && Permits(cfg, s, run[0], regime)
      && Legal(cfg, Apply(cfg, s, run[0]), run[1..], regime)
  }

  /** The worker's lease still has more than `margin` to run. */
  predicate Within(s: State, worker: Worker, margin: int) {
    worker.Busy? && worker.grant.Some? && s.clock < worker.grant.value - margin
  }

  /** The call is a write to the row that may have taken effect. */
  predicate Writes(c: Call, took: bool) {
    (c.Persist? || c.Release?) && took
  }

  predicate HasDeadline(pc: Pc) {
    !pc.Claiming? && !pc.Acking? && !pc.Nacking? && !pc.Finished?
  }

  /** Publishing a recorded outcome, for the first time or again. */
  predicate Closes(pc: Pc) {
    pc.ClosingService? || pc.ClosingProgress?
  }

  predicate Permits(cfg: WorkerConfig, s: State, l: Label, regime: Regime)
    requires Enabled(cfg, s, l)
  {
    match regime
    case Anything => true
    case Punctual(latency) => PermitsPunctual(s, l, latency)
    case Leased(margin, waived) => PermitsLeased(s, l, margin, waived)
    case Timely(margin, latency, waived) => PermitsTimely(cfg, s, l, margin, latency, waived)
  }

  /** Calls return by the deadline of their context, and a claim takes at most `latency`. Renewals may fail. */
  predicate PermitsPunctual(s: State, l: Label, latency: int) {
    match l
    case Tick(now) =>
      forall w :: 0 <= w < |s.workers| && s.workers[w].Busy? && HasDeadline(s.workers[w].pc) ==> now <= s.workers[w].due
    case Act(w, c, _) =>
      w < |s.workers| && s.workers[w].Busy?
      && (c.Claim? ==> s.workers[w].sampled.Some? && s.clock - latency <= s.workers[w].sampled.value)
    case Renew(w, at) => w < |s.workers| && s.workers[w].Busy? && s.workers[w].claimedAt <= at
    case _ => true
  }

  /** Rows are written only by a run within its lease, an outcome write that fails has no effect, and a renewal is
      committed at most `margin` after it read the clock. A renewal sent by a run past its lease is a `StaleRenew`. */
  predicate PermitsLeased(s: State, l: Label, margin: int, waived: Waiver) {
    match l
    case Act(w, c, took) =>
      w < |s.workers|
      && (Writes(c, took) && waived != Holders ==> Within(s, s.workers[w], margin))
      && (c.Persist? && took && waived != HalfWrites ==> c.verdict.Fine?)
    case Renew(w, at) =>
      w < |s.workers| && s.workers[w].Busy?
      && (waived != PromptRenewals ==> s.clock - margin <= at)
      && (s.workers[w].grant.Some? ==> Within(s, s.workers[w], margin))
    case StaleRenew(_, at) => waived != PromptRenewals ==> s.clock - margin <= at
    case _ => true
  }

  /** Calls return by the deadline of their context; a claim takes at most `latency`; renewals succeed, on time up to
      `margin`; claims never fail; an outcome write that fails has no effect; and a recorded outcome is always published. */
  predicate PermitsTimely(cfg: WorkerConfig, s: State, l: Label, margin: int, latency: int, waived: Waiver) {
    match l
    case Tick(now) =>
      waived != Deadlines ==>
        forall w :: 0 <= w < |s.workers| && s.workers[w].Busy? ==> InTime(s.workers[w], now, margin)
    case Act(w, c, took) =>
      w < |s.workers| && s.workers[w].Busy?
      && (c.Claim? && waived != SureClaims ==> c.claim.Claimed?)
      && (c.Claim? ==> s.workers[w].sampled.Some? && s.clock - latency <= s.workers[w].sampled.value)
      && (c.Persist? && took && waived != HalfWrites ==> c.verdict.Fine?)
      && (Closes(s.workers[w].pc) && c.Publish? && waived != SurePublishes ==> c.verdict.Fine?)
    case Renew(w, at) =>
      w < |s.workers| && s.workers[w].Busy? && s.workers[w].ticker.Some? && s.workers[w].ticker.value <= at
      && (waived != PromptRenewals ==> s.clock - margin <= at)
    case StaleRenew(_, at) => waived != PromptRenewals ==> s.clock - margin <= at
    case _ => true
  }

  predicate InTime(worker: Worker, now: int, margin: int)
    requires worker.Busy?
  {
    (HasDeadline(worker.pc) ==> now <= worker.due) && (worker.ticker.Some? ==> now <= worker.ticker.value + margin)
  }

  lemma {:induction false} LegalConcat(cfg: WorkerConfig, s: State, run: seq<Label>, more: seq<Label>, regime: Regime)
    ensures Legal(cfg, s, run + more, regime) <==>
            Legal(cfg, s, run, regime) && Legal(cfg, ExecAll(cfg, s, run, regime), more, regime)
    ensures Legal(cfg, s, run + more, regime) ==>
              ExecAll(cfg, s, run + more, regime) == ExecAll(cfg, ExecAll(cfg, s, run, regime), more, regime)
    decreases |run|
  {
    if run == [] {
      assert run + more == more;
    } else {
      assert (run + more)[0] == run[0] && (run + more)[1..] == run[1..] + more;
      if Enabled(cfg, s, run[0]) {
        LegalConcat(cfg, Apply(cfg, s, run[0]), run[1..], more, regime);
      }
    }
  }
}
