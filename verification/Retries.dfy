/** How often one message can fail, how long it waits in all, and how it ends. */
module Retries {
  import opened Wrappers
  import opened Errors
  import opened Events
  import opened Delivery

  predicate Works(c: Call) {
    match c
    case Publish(_, _, verdict) => verdict.Fine?
    case Persist(_, _, _, verdict) => verdict.Fine?
    case Requeue(_, _, verdict) => verdict.Fine?
    case Release(_, verdict) => verdict.Fine?
    case DeadLetter(_, verdict) => verdict.Fine?
    case _ => true
  }

  /** A delivery of `m` that fails: the calls up to the failure, what it failed with, and the calls that deal with it. */
  datatype Round = Round(m: Message, before: seq<Call>, cause: Error, after: seq<Call>)

  /** The failure may be any that is retried; dealing with it works. */
  predicate Fails(cfg: WorkerConfig, r: Round) {
    && IsAdmitted(cfg, r.m)
    && After(cfg, r.m, r.before) == Some(ToRetry(cfg, r.m, r.cause))
    && After(cfg, r.m, r.before + r.after) == Some(Finished)
    && forall c :: c in r.after ==> Works(c)
  }

  predicate Requeued(calls: seq<Call>, copy: Message) {
    exists c :: c in calls && c.Requeue? && c.copy == copy
  }

  /** The rounds of a message of which there is one copy at a time: each delivers what the round before put back. */
  ghost predicate Lives(cfg: WorkerConfig, rounds: seq<Round>) {
    && (forall i :: 0 <= i < |rounds| ==> Fails(cfg, rounds[i]))
    && (forall i, j :: 0 <= i && j == i + 1 && j < |rounds| ==> Requeued(rounds[i].after, rounds[j].m))
    && (rounds != [] ==> Attempt(rounds[0].m) == 0)
  }

  /** How many of the rounds count as attempts: all but those turned away by a busy lease. */
  function Counted(rounds: seq<Round>): nat {
    if rounds == [] then 0
    else Counted(rounds[..|rounds| - 1]) + (if Counts(rounds[|rounds| - 1].cause) then 1 else 0)
  }

  /** The time a message spends on retry queues over these calls. */
  function WaitOf(cfg: WorkerConfig, calls: seq<Call>): int {
    if calls == [] then 0 else WaitOf(cfg, calls[..|calls| - 1]) + CallWait(cfg, calls[|calls| - 1])
  }

  function CallWait(cfg: WorkerConfig, c: Call): int {
    if c.Requeue? && 0 <= c.queue < |cfg.backoffs| then cfg.backoffs[c.queue] else 0
  }

  function RoundTime(cfg: WorkerConfig, r: Round): int {
    WaitOf(cfg, r.before) + WaitOf(cfg, r.after)
  }

  function Times(cfg: WorkerConfig, rounds: seq<Round>): (times: seq<int>)
    ensures |times| == |rounds|
  {
    seq(|rounds|, i requires 0 <= i < |rounds| => RoundTime(cfg, rounds[i]))
  }

  function Sum(times: seq<int>): int {
    if times == [] then 0 else Sum(times[..|times| - 1]) + times[|times| - 1]
  }

  /** The sum of the first `k` backoffs, the last one repeated for ever. */
  function Backoffs(backoffs: seq<int>, k: nat): int
    requires backoffs != []
  {
    if k == 0 then 0 else Backoffs(backoffs, k - 1) + backoffs[QueueFor(|backoffs|, k) - 1]
  }

  // ---- One round ----

  /** Where these calls take a worker that stands at `pc`. */
  function Onward(cfg: WorkerConfig, m: Message, pc: Pc, calls: seq<Call>): Option<Pc>
    decreases |calls|
  {
    if calls == [] then Some(pc)
    else if Offers(cfg, m, pc, calls[0]) then Onward(cfg, m, Advance(cfg, m, pc, calls[0]), calls[1..])
    else None
  }

  lemma {:induction false} PrefixStands(cfg: WorkerConfig, m: Message, calls: seq<Call>, k: nat)
    requires k <= |calls|
    ensures After(cfg, m, calls).Some? ==> After(cfg, m, calls[..k]).Some?
    decreases |calls|
  {
    if k < |calls| {
      PrefixStands(cfg, m, calls[..|calls| - 1], k);
      assert calls[..|calls| - 1][..k] == calls[..k];
    } else {
      assert calls[..k] == calls;
    }
  }

  /** One call further on either side. */
  lemma AfterStep(cfg: WorkerConfig, m: Message, before: seq<Call>, c: Call)
    ensures After(cfg, m, before + [c]) == Then(cfg, m, After(cfg, m, before), c)
  {
    assert (before + [c])[..|before|] == before;
  }

  lemma {:induction false} NoneStays(cfg: WorkerConfig, m: Message, before: seq<Call>, after: seq<Call>)
    requires After(cfg, m, before).None?
    ensures After(cfg, m, before + after).None?
  {
    assert (before + after)[..|before|] == before;
    PrefixStands(cfg, m, before + after, |before|);
  }

  lemma {:induction false} AfterIsOnward(cfg: WorkerConfig, m: Message, before: seq<Call>, after: seq<Call>, pc: Pc)
    requires After(cfg, m, before) == Some(pc)
    ensures After(cfg, m, before + after) == Onward(cfg, m, pc, after)
    decreases |after|
  {
    if after == [] {
      assert before + after == before;
    } else {
      var c, rest := after[0], after[1..];
      assert before + [c] + rest == before + after;
      AfterStep(cfg, m, before, c);
      if Offers(cfg, m, pc, c) {
        AfterIsOnward(cfg, m, before + [c], rest, Advance(cfg, m, pc, c));
      } else {
        NoneStays(cfg, m, before + [c], rest);
      }
    }
  }

  /** These calls work, and bring the delivery from `pc` to its end. */
  predicate Ends(cfg: WorkerConfig, m: Message, pc: Pc, calls: seq<Call>) {
    Onward(cfg, m, pc, calls) == Some(Finished) && forall c :: c in calls ==> Works(c)
  }

  lemma FirstCall(cfg: WorkerConfig, m: Message, pc: Pc, calls: seq<Call>)
    requires Ends(cfg, m, pc, calls)
    ensures !pc.Finished? ==>
              && calls != [] && Works(calls[0]) && Offers(cfg, m, pc, calls[0])
              && Ends(cfg, m, Advance(cfg, m, pc, calls[0]), calls[1..])
    ensures pc.Finished? ==> calls == []
  {
  }

  predicate Exhausts(cfg: WorkerConfig, r: Round) {
    Bumped(r.m, Counts(r.cause)) >= cfg.maxAttempts
  }

  /** The calls that deal with a failure that uses up no last attempt. */
  function PutBack(cfg: WorkerConfig, r: Round): seq<Call> {
    var attempt := Bumped(r.m, Counts(r.cause));
    var put := Call.Requeue(RetryQueue(cfg, attempt), RetryCopy(r.m, attempt, r.cause), Fine);
    if Counts(r.cause) then
      [Call.Publish(RetryingKey, ProgressNotice(RetryingEvent(EventOf(r.m), attempt, r.cause)), Fine), put,
       Call.Release(IdOf(r.m), Fine), Call.Ack]
    else [put, Call.Ack]
  }

  /** The calls that deal with a failure that does. */
  function GiveUp(cfg: WorkerConfig, r: Round): seq<Call> {
    var b := FailureBundle(EventOf(r.m), TargetOrBlank(cfg, EventOf(r.m)), Exhausted(r.cause));
    [Call.Persist(IdOf(r.m), b, true, Fine),
     Call.Publish(b.serviceKey, ServiceNotice(b.service), Fine),
     Call.Publish(b.progressKey, ProgressNotice(b.progress), Fine),
     Call.DeadLetter(DeadCopy(r.m, Bumped(r.m, Counts(r.cause)), r.cause), Fine), Call.Ack]
  }

  lemma AckEnds(cfg: WorkerConfig, m: Message, calls: seq<Call>)
    requires Ends(cfg, m, Acking, calls)
    ensures calls == [Call.Ack]
  {
    FirstCall(cfg, m, Acking, calls);
    FirstCall(cfg, m, Finished, calls[1..]);
  }

  lemma PuttingBackEnds(cfg: WorkerConfig, m: Message, attempt: int, cause: Error, counted: bool, calls: seq<Call>)
    requires Ends(cfg, m, Requeuing(attempt, cause, counted), calls)
    ensures var put := Call.Requeue(RetryQueue(cfg, attempt), RetryCopy(m, attempt, cause), Fine);
            calls == if counted then [put, Call.Release(IdOf(m), Fine), Call.Ack] else [put, Call.Ack]
  {
    FirstCall(cfg, m, Requeuing(attempt, cause, counted), calls);
    if counted {
      FirstCall(cfg, m, Releasing, calls[1..]);
      AckEnds(cfg, m, calls[1..][1..]);
    } else {
      AckEnds(cfg, m, calls[1..]);
    }
  }

  lemma AnnouncingEnds(cfg: WorkerConfig, m: Message, attempt: int, cause: Error, calls: seq<Call>)
    requires Ends(cfg, m, AnnouncingRetry(attempt, cause), calls)
    ensures calls != [] && Ends(cfg, m, Requeuing(attempt, cause, true), calls[1..])
    ensures calls[0] == Call.Publish(RetryingKey, ProgressNotice(RetryingEvent(EventOf(m), attempt, cause)), Fine)
  {
    FirstCall(cfg, m, AnnouncingRetry(attempt, cause), calls);
  }

  lemma DeadLetteringEnds(cfg: WorkerConfig, m: Message, attempt: int, cause: Error, calls: seq<Call>)
    requires Ends(cfg, m, DeadLettering(attempt, cause, false), calls)
    ensures calls == [Call.DeadLetter(DeadCopy(m, attempt, cause), Fine), Call.Ack]
  {
    FirstCall(cfg, m, DeadLettering(attempt, cause, false), calls);
    AckEnds(cfg, m, calls[1..]);
  }

  lemma RecordingEnds(cfg: WorkerConfig, m: Message, b: Bundle, attempt: int, cause: Error, calls: seq<Call>)
    requires Ends(cfg, m, Persisting(b, true, EndExhausted(attempt, cause)), calls)
    ensures |calls| >= 3 && Ends(cfg, m, DeadLettering(attempt, cause, false), calls[3..])
    ensures calls[0] == Call.Persist(IdOf(m), b, true, Fine)
    ensures calls[1] == Call.Publish(b.serviceKey, ServiceNotice(b.service), Fine)
    ensures calls[2] == Call.Publish(b.progressKey, ProgressNotice(b.progress), Fine)
  {
    var end := EndExhausted(attempt, cause);
    FirstCall(cfg, m, Persisting(b, true, end), calls);
    FirstCall(cfg, m, ClosingService(b, end), calls[1..]);
    assert calls[1..][1..] == calls[2..] && calls[2..][1..] == calls[3..];
    FirstCall(cfg, m, ClosingProgress(b, end), calls[2..]);
  }

  lemma RoundEnds(cfg: WorkerConfig, r: Round)
    requires Fails(cfg, r)
    ensures Ends(cfg, r.m, ToRetry(cfg, r.m, r.cause), r.after)
  {
    AfterIsOnward(cfg, r.m, r.before, r.after, ToRetry(cfg, r.m, r.cause));
  }

  lemma PutsBack(cfg: WorkerConfig, r: Round)
    requires Fails(cfg, r) && !Exhausts(cfg, r)
    ensures r.after == PutBack(cfg, r)
  {
    RoundEnds(cfg, r);
    var attempt := Bumped(r.m, Counts(r.cause));
    if Counts(r.cause) {
      AnnouncingEnds(cfg, r.m, attempt, r.cause, r.after);
      PuttingBackEnds(cfg, r.m, attempt, r.cause, true, r.after[1..]);
      assert r.after == [r.after[0]] + r.after[1..];
    } else {
      PuttingBackEnds(cfg, r.m, attempt, r.cause, false, r.after);
    }
  }

  lemma GivesUp(cfg: WorkerConfig, r: Round)
    requires Fails(cfg, r) && Exhausts(cfg, r)
    ensures r.after == GiveUp(cfg, r)
  {
    RoundEnds(cfg, r);
    var attempt := Bumped(r.m, Counts(r.cause));
    var b := FailureBundle(EventOf(r.m), TargetOrBlank(cfg, EventOf(r.m)), Exhausted(r.cause));
    RecordingEnds(cfg, r.m, b, attempt, r.cause, r.after);
    DeadLetteringEnds(cfg, r.m, attempt, r.cause, r.after[3..]);
    assert r.after == [r.after[0], r.after[1], r.after[2]] + r.after[3..];
  }

  /** A failed round either gives up, and puts nothing back; or puts back one copy, under the number of the attempts
      made so far. */
  lemma RoundPutsBackOrGivesUp(cfg: WorkerConfig, r: Round)
    requires Fails(cfg, r)
    ensures r.after == if Exhausts(cfg, r) then GiveUp(cfg, r) else PutBack(cfg, r)
    ensures forall copy :: Requeued(r.after, copy) <==>
                           !Exhausts(cfg, r) && copy == RetryCopy(r.m, Bumped(r.m, Counts(r.cause)), r.cause)
  {
    if Exhausts(cfg, r) {
      GivesUp(cfg, r);
    } else {
      PutsBack(cfg, r);
      assert r.after[if Counts(r.cause) then 1 else 0] in r.after;
    }
  }

  // ---- Whole lives ----

  /** A round that has a successor did not give up, and the successor carries its number on. */
  lemma NextRound(cfg: WorkerConfig, r: Round, next: Round)
    requires Fails(cfg, r) && Requeued(r.after, next.m)
    ensures !Exhausts(cfg, r) && Attempt(next.m) == Bumped(r.m, Counts(r.cause))
  {
    RoundPutsBackOrGivesUp(cfg, r);
  }

  lemma PutsSomethingBack(cfg: WorkerConfig, r: Round)
    requires Fails(cfg, r)
    ensures (exists copy :: Requeued(r.after, copy)) <==> !Exhausts(cfg, r)
  {
    RoundPutsBackOrGivesUp(cfg, r);
    if !Exhausts(cfg, r) {
      assert Requeued(r.after, RetryCopy(r.m, Bumped(r.m, Counts(r.cause)), r.cause));
    }
  }

  lemma {:induction false} AttemptIsCounted(cfg: WorkerConfig, rounds: seq<Round>)
    requires cfg.maxAttempts >= 1 && Lives(cfg, rounds) && rounds != []
    ensures Attempt(rounds[|rounds| - 1].m) == Counted(rounds[..|rounds| - 1]) < cfg.maxAttempts
    decreases |rounds|
  {
    var n := |rounds|;
    if n > 1 {
      var before := rounds[..n - 1];
      AttemptIsCounted(cfg, before);
      assert before[|before| - 1] == rounds[n - 2];
      NextRound(cfg, rounds[n - 2], rounds[n - 1]);
    }
  }

  /** Each round delivers the message under the number of counted failures before it, below the limit; and something
      is put back exactly as long as the limit is not reached. */
  lemma AttemptsCountFailures(cfg: WorkerConfig, rounds: seq<Round>)
    requires cfg.maxAttempts >= 1 && Lives(cfg, rounds) && rounds != []
    ensures var last := rounds[|rounds| - 1];
            && Attempt(last.m) == Counted(rounds[..|rounds| - 1]) < cfg.maxAttempts
            && Bumped(last.m, Counts(last.cause)) == Counted(rounds) <= cfg.maxAttempts
            && ((exists copy :: Requeued(last.after, copy)) <==> Counted(rounds) < cfg.maxAttempts)
  {
    AttemptIsCounted(cfg, rounds);
    PutsSomethingBack(cfg, rounds[|rounds| - 1]);
  }

  /** A message fails at most `maxAttempts` times, however often it is turned away in between; its life is over exactly
      at that number, with the failure written to the ledger without an error, announced and dead-lettered. */
  lemma FailuresAreBounded(cfg: WorkerConfig, rounds: seq<Round>)
    requires cfg.maxAttempts >= 1 && Lives(cfg, rounds) && rounds != []
    ensures var last := rounds[|rounds| - 1];
            && Counted(rounds) <= cfg.maxAttempts
            && ((forall copy :: !Requeued(last.after, copy)) <==> Counted(rounds) == cfg.maxAttempts)
            && (Counted(rounds) == cfg.maxAttempts ==>
                  && last.after == GiveUp(cfg, last) && Counts(last.cause)
                  && Attempt(last.after[3].copy) == cfg.maxAttempts && last.after[3].copy.origin == last.m.origin)
  {
    AttemptsCountFailures(cfg, rounds);
    RoundPutsBackOrGivesUp(cfg, rounds[|rounds| - 1]);
  }

  /** Wherever a round of a life puts its message back, busy leases in between or not, the copy goes to queue min(k, n),
      counted from one, where k is the number of failures counted so far; and to the first queue before there are any. */
  lemma FailureWaitsOnItsQueue(cfg: WorkerConfig, rounds: seq<Round>, i: nat)
    requires cfg.maxAttempts >= 1 && |cfg.backoffs| >= 1 && Lives(cfg, rounds)
    requires i < |rounds| && Counted(rounds[..i + 1]) < cfg.maxAttempts
    ensures rounds[i].after == PutBack(cfg, rounds[i])
    ensures var put, k := rounds[i].after[if Counts(rounds[i].cause) then 1 else 0], Counted(rounds[..i + 1]);
            && put.Requeue? && Attempt(put.copy) == k
            && put.queue + 1 == QueueFor(|cfg.backoffs|, if k == 0 then 1 else k)
  {
    var life := rounds[..i + 1];
    AttemptsCountFailures(cfg, life);
    assert life[|life| - 1] == rounds[i];
    PutsBack(cfg, rounds[i]);
  }

  // ---- Waiting ----

  /** Before any failure is dealt with, and after. */
  predicate Handling(pc: Pc) {
    match pc
    case Persisting(_, _, closing) => closing.EndHandler?
    case ClosingService(_, closing) => closing.EndHandler?
    case ClosingProgress(_, closing) => closing.EndHandler?
    case _ =>
      pc.Claiming? || pc.Starting? || pc.Applying? || pc.Announcing? || pc.Awaiting? || pc.Rechecking? || pc.Pending?
  }

  predicate FirstOfRetry(pc: Pc) {
    pc.AnnouncingRetry? || (pc.Persisting? && pc.closing.EndExhausted?) || (pc.Requeuing? && !pc.counted)
  }

  lemma ToRetryIsFirst(cfg: WorkerConfig, m: Message, cause: Error)
    requires IsAdmitted(cfg, m)
    ensures FirstOfRetry(ToRetry(cfg, m, cause))
  {
  }

  lemma OnlyHandlingComesBefore(cfg: WorkerConfig, m: Message, pc: Pc, c: Call)
    requires Offers(cfg, m, pc, c) && (FirstOfRetry(Advance(cfg, m, pc, c)) || Handling(Advance(cfg, m, pc, c)))
    ensures Handling(pc) && !c.Requeue?
  {
  }

  /** Nothing is put back before the failure. */
  lemma {:induction false} NoWaitBefore(cfg: WorkerConfig, m: Message, calls: seq<Call>, pc: Pc)
    requires After(cfg, m, calls) == Some(pc) && (FirstOfRetry(pc) || Handling(pc))
    ensures WaitOf(cfg, calls) == 0
    decreases |calls|
  {
    if calls != [] {
      var before := calls[..|calls| - 1];
      var from := After(cfg, m, before);
      OnlyHandlingComesBefore(cfg, m, from.value, calls[|calls| - 1]);
      NoWaitBefore(cfg, m, before, from.value);
    }
  }

  lemma {:induction false} WaitsAdd(cfg: WorkerConfig, a: seq<Call>, b: seq<Call>)
    ensures WaitOf(cfg, a + b) == WaitOf(cfg, a) + WaitOf(cfg, b)
    decreases |b|
  {
    if b == [] {
      assert a + b == a;
    } else {
      WaitsAdd(cfg, a, b[..|b| - 1]);
      assert (a + b)[..|a + b| - 1] == a + b[..|b| - 1];
    }
  }

  lemma {:induction false} WaitIsNone(cfg: WorkerConfig, calls: seq<Call>)
    requires forall c :: c in calls ==> !c.Requeue?
    ensures WaitOf(cfg, calls) == 0
    decreases |calls|
  {
    if calls != [] { WaitIsNone(cfg, calls[..|calls| - 1]); }
  }

  lemma PutBackWait(cfg: WorkerConfig, r: Round)
    requires Counts(r.cause)
    ensures WaitOf(cfg, PutBack(cfg, r)) == CallWait(cfg, PutBack(cfg, r)[1])
  {
    var p := PutBack(cfg, r);
    WaitIsNone(cfg, p[..1]);
    assert p[..2][..1] == p[..1];
    WaitIsNone(cfg, p[2..]);
    WaitsAdd(cfg, p[..2], p[2..]);
    assert p == p[..2] + p[2..];
  }

  /** The queue, counted from one, that attempt `k` waits on. */
  function QueueFor(n: nat, k: nat): nat {
    if k <= n then k else n
  }

  /** A round waits only once its failure is dealt with. */
  lemma WaitComesAfter(cfg: WorkerConfig, r: Round)
    requires Fails(cfg, r)
    ensures RoundTime(cfg, r) == WaitOf(cfg, r.after)
  {
    ToRetryIsFirst(cfg, r.m, r.cause);
    NoWaitBefore(cfg, r.m, r.before, ToRetry(cfg, r.m, r.cause));
  }

  lemma QueueOfAttempt(cfg: WorkerConfig, r: Round)
    requires Counts(r.cause) && |cfg.backoffs| >= 1 && Attempt(r.m) >= 0
    ensures PutBack(cfg, r)[1].queue + 1 == QueueFor(|cfg.backoffs|, Attempt(r.m) + 1)
    ensures CallWait(cfg, PutBack(cfg, r)[1]) == cfg.backoffs[QueueFor(|cfg.backoffs|, Attempt(r.m) + 1) - 1]
  {
  }

  lemma RoundWait(cfg: WorkerConfig, r: Round)
    requires |cfg.backoffs| >= 1 && Fails(cfg, r) && Attempt(r.m) >= 0 && Counts(r.cause)
    ensures RoundTime(cfg, r) ==
            if Exhausts(cfg, r) then 0 else cfg.backoffs[QueueFor(|cfg.backoffs|, Attempt(r.m) + 1) - 1]
  {
    WaitComesAfter(cfg, r);
    if Exhausts(cfg, r) {
      GivesUp(cfg, r);
      WaitIsNone(cfg, GiveUp(cfg, r));
    } else {
      PutsBack(cfg, r);
      PutBackWait(cfg, r);
      QueueOfAttempt(cfg, r);
    }
  }

  predicate AllCounted(rounds: seq<Round>) {
    forall i :: 0 <= i < |rounds| ==> Counts(rounds[i].cause)
  }

  lemma {:induction false} AllCountedCount(rounds: seq<Round>)
    requires AllCounted(rounds)
    ensures Counted(rounds) == |rounds|
    decreases |rounds|
  {
    if rounds != [] { AllCountedCount(rounds[..|rounds| - 1]); }
  }

  /** One more counted round. */
  lemma LastRound(cfg: WorkerConfig, rounds: seq<Round>)
    requires cfg.maxAttempts >= 1 && Lives(cfg, rounds) && AllCounted(rounds) && rounds != []
    ensures Attempt(rounds[|rounds| - 1].m) == |rounds| - 1 && |rounds| <= cfg.maxAttempts
    ensures Exhausts(cfg, rounds[|rounds| - 1]) <==> |rounds| == cfg.maxAttempts
  {
    AllCountedCount(rounds[..|rounds| - 1]);
    AllCountedCount(rounds);
    AttemptsCountFailures(cfg, rounds);
  }

  /** What attempt number `i + 1` waits for. */
  function Backoff(backoffs: seq<int>, limit: int, i: nat): int
    requires backoffs != []
  {
    if i + 1 == limit then 0 else backoffs[QueueFor(|backoffs|, i + 1) - 1]
  }

  lemma TimeOfAttempt(cfg: WorkerConfig, rounds: seq<Round>, i: nat)
    requires cfg.maxAttempts >= 1 && |cfg.backoffs| >= 1 && Lives(cfg, rounds) && AllCounted(rounds) && i < |rounds|
    ensures i < cfg.maxAttempts && Times(cfg, rounds)[i] == Backoff(cfg.backoffs, cfg.maxAttempts, i)
  {
    LastRound(cfg, rounds[..i + 1]);
    RoundWait(cfg, rounds[i]);
  }

  lemma TimesFollow(cfg: WorkerConfig, rounds: seq<Round>)
    requires cfg.maxAttempts >= 1 && |cfg.backoffs| >= 1 && Lives(cfg, rounds) && AllCounted(rounds)
    ensures |rounds| <= cfg.maxAttempts && Follow(cfg.backoffs, cfg.maxAttempts, Times(cfg, rounds))
  {
    if rounds != [] { TimeOfAttempt(cfg, rounds, |rounds| - 1); }
    forall i | 0 <= i < |rounds| ensures Times(cfg, rounds)[i] == Backoff(cfg.backoffs, cfg.maxAttempts, i) {
      TimeOfAttempt(cfg, rounds, i);
    }
  }

  predicate Follow(backoffs: seq<int>, limit: int, times: seq<int>)
    requires backoffs != []
  {
    forall i :: 0 <= i < |times| ==> times[i] == Backoff(backoffs, limit, i)
  }

  /** The sum of such times, whatever they are the times of. */
  lemma {:induction false} SumIsTheBackoffs(backoffs: seq<int>, limit: nat, times: seq<int>)
    requires |backoffs| >= 1 && |times| <= limit && limit >= 1 && Follow(backoffs, limit, times)
    ensures Sum(times) == Backoffs(backoffs, if |times| == limit then |times| - 1 else |times|)
    decreases |times|
  {
    if times != [] { SumIsTheBackoffs(backoffs, limit, times[..|times| - 1]); }
  }

  /** A message that fails every time, and is never turned away, has waited the sum of the backoffs of its attempts so
      far; the attempt that exhausts them adds nothing. */
  lemma WaitsAreTheBackoffs(cfg: WorkerConfig, rounds: seq<Round>)
    requires cfg.maxAttempts >= 1 && |cfg.backoffs| >= 1 && Lives(cfg, rounds) && AllCounted(rounds)
    ensures |rounds| <= cfg.maxAttempts
    ensures Sum(Times(cfg, rounds)) == Backoffs(cfg.backoffs, if |rounds| == cfg.maxAttempts then |rounds| - 1 else |rounds|)
  {
    TimesFollow(cfg, rounds);
    SumIsTheBackoffs(cfg.backoffs, cfg.maxAttempts, Times(cfg, rounds));
  }

  // ---- Such lives exist ----

  lemma AnnouncingStep(cfg: WorkerConfig, m: Message, attempt: int, cause: Error, rest: seq<Call>)
    ensures var c := Call.Publish(RetryingKey, ProgressNotice(RetryingEvent(EventOf(m), attempt, cause)), Fine);
            Onward(cfg, m, AnnouncingRetry(attempt, cause), [c] + rest) == Onward(cfg, m, Requeuing(attempt, cause, true), rest)
  {
  }

  lemma RequeuingStep(cfg: WorkerConfig, m: Message, attempt: int, cause: Error, rest: seq<Call>)
    ensures var c := Call.Requeue(RetryQueue(cfg, attempt), RetryCopy(m, attempt, cause), Fine);
            Onward(cfg, m, Requeuing(attempt, cause, true), [c] + rest) == Onward(cfg, m, Releasing, rest)
  {
  }

  lemma ReleasingEnds(cfg: WorkerConfig, m: Message)
    ensures Onward(cfg, m, Releasing, [Call.Release(IdOf(m), Fine), Call.Ack]) == Some(Finished)
  {
    var calls := [Call.Release(IdOf(m), Fine), Call.Ack];
    assert calls[1..] == [Call.Ack] && [Call.Ack][1..] == [];
    assert Onward(cfg, m, Acking, [Call.Ack]) == Some(Finished);
  }

  lemma PersistingStep(cfg: WorkerConfig, m: Message, b: Bundle, end: Closing, rest: seq<Call>)
    ensures Onward(cfg, m, Persisting(b, true, end), [Call.Persist(IdOf(m), b, true, Fine)] + rest) ==
            Onward(cfg, m, ClosingService(b, end), rest)
  {
  }

  lemma ServiceStep(cfg: WorkerConfig, m: Message, b: Bundle, end: Closing, rest: seq<Call>)
    ensures Onward(cfg, m, ClosingService(b, end), [Call.Publish(b.serviceKey, ServiceNotice(b.service), Fine)] + rest) ==
            Onward(cfg, m, ClosingProgress(b, end), rest)
  {
  }

  lemma ProgressStep(cfg: WorkerConfig, m: Message, b: Bundle, attempt: int, cause: Error, rest: seq<Call>)
    ensures Onward(cfg, m, ClosingProgress(b, EndExhausted(attempt, cause)),
                   [Call.Publish(b.progressKey, ProgressNotice(b.progress), Fine)] + rest) ==
            Onward(cfg, m, DeadLettering(attempt, cause, false), rest)
  {
  }

  lemma DeadLetteringFinishes(cfg: WorkerConfig, m: Message, attempt: int, cause: Error)
    ensures Onward(cfg, m, DeadLettering(attempt, cause, false), [Call.DeadLetter(DeadCopy(m, attempt, cause), Fine), Call.Ack]) == Some(Finished)
  {
    var calls := [Call.DeadLetter(DeadCopy(m, attempt, cause), Fine), Call.Ack];
    assert calls[1..] == [Call.Ack] && [Call.Ack][1..] == [];
    assert Onward(cfg, m, Acking, [Call.Ack]) == Some(Finished);
  }

  /** A delivery whose claim fails, and nothing else. */
  function ClaimFailure(cfg: WorkerConfig, m: Message): Round {
    var r := Round(m, [Call.Claim(IdOf(m), ClaimError(NetError))], Wrapped(ClaimingStage, NetError), []);
    r.(after := if Exhausts(cfg, r) then GiveUp(cfg, r) else PutBack(cfg, r))
  }

  lemma ClaimFailureCounts()
    ensures Counts(Wrapped(ClaimingStage, NetError))
  {
  }

  lemma ClaimFailureEnds(cfg: WorkerConfig, m: Message)
    requires IsAdmitted(cfg, m)
    ensures var r := ClaimFailure(cfg, m); Onward(cfg, m, ToRetry(cfg, m, r.cause), r.after) == Some(Finished)
  {
    var r := ClaimFailure(cfg, m);
    var attempt := Attempt(m) + 1;
    ClaimFailureCounts();
    if Exhausts(cfg, r) {
      var b := FailureBundle(EventOf(m), TargetOrBlank(cfg, EventOf(m)), Exhausted(r.cause));
      var g := GiveUp(cfg, r);
      assert g == [g[0]] + g[1..] && g[1..] == [g[1]] + g[2..] && g[2..] == [g[2]] + g[3..];
      PersistingStep(cfg, m, b, EndExhausted(attempt, r.cause), g[1..]);
      ServiceStep(cfg, m, b, EndExhausted(attempt, r.cause), g[2..]);
      ProgressStep(cfg, m, b, attempt, r.cause, g[3..]);
      DeadLetteringFinishes(cfg, m, attempt, r.cause);
    } else {
      var p := PutBack(cfg, r);
      assert p == [p[0]] + p[1..] && p[1..] == [p[1]] + p[2..];
      AnnouncingStep(cfg, m, attempt, r.cause, p[1..]);
      RequeuingStep(cfg, m, attempt, r.cause, p[2..]);
      ReleasingEnds(cfg, m);
    }
  }

  lemma ClaimFailureFails(cfg: WorkerConfig, m: Message)
    requires IsAdmitted(cfg, m)
    ensures Fails(cfg, ClaimFailure(cfg, m))
  {
    var r := ClaimFailure(cfg, m);
    assert r.before[..0] == [] && After(cfg, m, []) == Some(Claiming);
    assert After(cfg, m, r.before) == Some(ToRetry(cfg, m, r.cause));
    ClaimFailureEnds(cfg, m);
    AfterIsOnward(cfg, m, r.before, r.after, ToRetry(cfg, m, r.cause));
  }

  lemma LifeGoesOn(cfg: WorkerConfig, rounds: seq<Round>, r: Round)
    requires Lives(cfg, rounds) && AllCounted(rounds) && rounds != []
    requires Fails(cfg, r) && Counts(r.cause) && Requeued(rounds[|rounds| - 1].after, r.m)
    ensures Lives(cfg, rounds + [r]) && AllCounted(rounds + [r])
  {
    var longer := rounds + [r];
    forall i | 0 <= i < |longer| ensures Fails(cfg, longer[i]) && Counts(longer[i].cause) {
      assert i < |rounds| ==> longer[i] == rounds[i];
    }
    forall i, j | 0 <= i && j == i + 1 && j < |longer| ensures Requeued(longer[i].after, longer[j].m) {
      assert longer[i] == rounds[i] && (j < |rounds| ==> longer[j] == rounds[j]);
    }
  }

  /** What follows a counted failure that is not the last. */
  lemma NextCopy(cfg: WorkerConfig, r: Round) returns (copy: Message)
    requires Fails(cfg, r) && !Exhausts(cfg, r)
    ensures Requeued(r.after, copy) && IsAdmitted(cfg, copy)
  {
    RoundPutsBackOrGivesUp(cfg, r);
    copy := RetryCopy(r.m, Bumped(r.m, Counts(r.cause)), r.cause);
    assert Requeued(r.after, copy);
  }

  /** Any admitted message can live so, to any length up to the limit: its claim fails every time. */
  lemma {:induction false} FailingClaimsExhaustTheAttempts(cfg: WorkerConfig, m: Message, k: nat) returns (rounds: seq<Round>)
    requires IsAdmitted(cfg, m) && Attempt(m) == 0 && 1 <= k <= cfg.maxAttempts
    ensures Lives(cfg, rounds) && AllCounted(rounds) && |rounds| == k && rounds[0].m == m
    decreases k
  {
    ClaimFailureCounts();
    if k == 1 {
      ClaimFailureFails(cfg, m);
      rounds := [ClaimFailure(cfg, m)];
    } else {
      var earlier := FailingClaimsExhaustTheAttempts(cfg, m, k - 1);
      LastRound(cfg, earlier);
      var copy := NextCopy(cfg, earlier[k - 2]);
      ClaimFailureFails(cfg, copy);
      LifeGoesOn(cfg, earlier, ClaimFailure(cfg, copy));
      rounds := earlier + [ClaimFailure(cfg, copy)];
    }
  }

  // ---- What a delivery may write that finds an outcome on record ----

  predicate WritesRow(c: Call) {
    c.Persist? || c.Release?
  }

  predicate AnyWrite(calls: seq<Call>) {
    exists c :: c in calls && WritesRow(c)
  }

  lemma WriteFirstOrLater(calls: seq<Call>)
    requires calls != []
    ensures AnyWrite(calls) <==> WritesRow(calls[0]) || AnyWrite(calls[1..])
  {
    assert calls == [calls[0]] + calls[1..];
  }

  lemma OnwardStep(cfg: WorkerConfig, m: Message, pc: Pc, calls: seq<Call>)
    requires Onward(cfg, m, pc, calls) == Some(Finished) && !pc.Finished?
    ensures calls != [] && Offers(cfg, m, pc, calls[0])
    ensures Onward(cfg, m, Advance(cfg, m, pc, calls[0]), calls[1..]) == Some(Finished)
    ensures AnyWrite(calls) <==> WritesRow(calls[0]) || AnyWrite(calls[1..])
  {
    WriteFirstOrLater(calls);
  }

  lemma NothingAfterTheEnd(cfg: WorkerConfig, m: Message, pc: Pc, calls: seq<Call>)
    requires Onward(cfg, m, pc, calls) == Some(Finished) && (pc.Acking? || pc.Nacking?)
    ensures !AnyWrite(calls)
  {
    OnwardStep(cfg, m, pc, calls);
    assert Onward(cfg, m, Finished, calls[1..]) == Some(Finished);
    assert calls[1..] == [];
  }

  /** The retry gets to its write: of the failure, if the attempts are used up, and else of the release, once the retry has
      been announced and the copy put back. */
  predicate ReachesWrite(cfg: WorkerConfig, m: Message, cause: Error, calls: seq<Call>) {
    || Bumped(m, Counts(cause)) >= cfg.maxAttempts
    || (Counts(cause) && |calls| >= 2 && calls[0].Publish? && calls[0].verdict.Fine? && calls[1].Requeue? && calls[1].verdict.Fine?)
  }

  lemma RequeueWrites(cfg: WorkerConfig, m: Message, attempt: int, cause: Error, counted: bool, calls: seq<Call>)
    requires Onward(cfg, m, Requeuing(attempt, cause, counted), calls) == Some(Finished)
    ensures calls != [] && calls[0].Requeue? && (AnyWrite(calls) <==> counted && calls[0].verdict.Fine?)
  {
    OnwardStep(cfg, m, Requeuing(attempt, cause, counted), calls);
    if calls[0].verdict.Failing? {
      NothingAfterTheEnd(cfg, m, Nacking(true), calls[1..]);
    } else if counted {
      OnwardStep(cfg, m, Releasing, calls[1..]);
    } else {
      NothingAfterTheEnd(cfg, m, Acking, calls[1..]);
    }
  }

  lemma RetryWrites(cfg: WorkerConfig, m: Message, cause: Error, calls: seq<Call>)
    requires IsAdmitted(cfg, m) && Onward(cfg, m, ToRetry(cfg, m, cause), calls) == Some(Finished)
    ensures AnyWrite(calls) <==> ReachesWrite(cfg, m, cause, calls)
  {
    var attempt := Bumped(m, Counts(cause));
    OnwardStep(cfg, m, ToRetry(cfg, m, cause), calls);
    if attempt < cfg.maxAttempts {
      if !Counts(cause) {
        RequeueWrites(cfg, m, attempt, cause, false, calls);
      } else if calls[0].verdict.Fine? {
        RequeueWrites(cfg, m, attempt, cause, true, calls[1..]);
      } else {
        NothingAfterTheEnd(cfg, m, Nacking(true), calls[1..]);
      }
    }
  }

  /** The claim failed, or found an outcome. */
  predicate HoldsNothing(c: Call) {
    c.Claim? && (c.claim.ClaimError?
                 || ((c.claim.disposition.ClaimCompleted? || c.claim.disposition.ClaimFailed?) && c.claim.result.Some?))
  }

  /** One of the publishes that close an outcome on record, for the first time or again, fails, and the retry of that
      failure gets to its write. */
  predicate ClosingFails(cfg: WorkerConfig, m: Message, calls: seq<Call>) {
    && calls != [] && calls[0].Publish?
    && match calls[0].verdict
       case Failing(error) => ReachesWrite(cfg, m, Wrapped(PublishingService, error), calls[1..])
       case Fine =>
         && |calls| >= 2 && calls[1].Publish? && calls[1].verdict.Failing?
         && ReachesWrite(cfg, m, Wrapped(PublishingProgress, calls[1].verdict.error), calls[2..])
  }

  /** The claim, or a publish of the replay, fails, and the retry of that failure gets to its write. */
  predicate StrayWrite(cfg: WorkerConfig, m: Message, calls: seq<Call>) {
    && calls != [] && calls[0].Claim?
    && if calls[0].claim.ClaimError? then ReachesWrite(cfg, m, Wrapped(ClaimingStage, calls[0].claim.error), calls[1..])
       else ClosingFails(cfg, m, calls[1..])
  }

  lemma ClosingWrites(cfg: WorkerConfig, m: Message, b: Bundle, calls: seq<Call>)
    requires IsAdmitted(cfg, m) && Onward(cfg, m, ClosingService(b, EndHandler), calls) == Some(Finished)
    ensures AnyWrite(calls) <==> ClosingFails(cfg, m, calls)
  {
    OnwardStep(cfg, m, ClosingService(b, EndHandler), calls);
    if calls[0].verdict.Failing? {
      RetryWrites(cfg, m, Wrapped(PublishingService, calls[0].verdict.error), calls[1..]);
    } else {
      OnwardStep(cfg, m, ClosingProgress(b, EndHandler), calls[1..]);
      assert calls[1..][1..] == calls[2..];
      if calls[1].verdict.Failing? {
        RetryWrites(cfg, m, Wrapped(PublishingProgress, calls[1].verdict.error), calls[2..]);
      } else {
        NothingAfterTheEnd(cfg, m, Acking, calls[2..]);
      }
    }
  }

  lemma FromTheClaim(cfg: WorkerConfig, m: Message, calls: seq<Call>)
    requires IsAdmitted(cfg, m) && After(cfg, m, calls) == Some(Finished)
    ensures Onward(cfg, m, Claiming, calls) == Some(Finished)
  {
    assert [] + calls == calls;
    AfterIsOnward(cfg, m, [], calls, Claiming);
  }

  /** Exactly when a delivery writes a row that it does not hold: when its claim, or a publish of the replay, fails, and the
      retry of that failure gets to its write. */
  lemma StrayWritesExactly(cfg: WorkerConfig, m: Message, calls: seq<Call>)
    requires IsAdmitted(cfg, m) && After(cfg, m, calls) == Some(Finished) && calls != [] && HoldsNothing(calls[0])
    ensures AnyWrite(calls) <==> StrayWrite(cfg, m, calls)
  {
    FromTheClaim(cfg, m, calls);
    ClaimedWrites(cfg, m, calls);
  }

  lemma ClaimedWrites(cfg: WorkerConfig, m: Message, calls: seq<Call>)
    requires IsAdmitted(cfg, m) && Onward(cfg, m, Claiming, calls) == Some(Finished) && calls != [] && HoldsNothing(calls[0])
    ensures AnyWrite(calls) <==> StrayWrite(cfg, m, calls)
  {
    OnwardStep(cfg, m, Claiming, calls);
    if calls[0].claim.ClaimError? {
      RetryWrites(cfg, m, Wrapped(ClaimingStage, calls[0].claim.error), calls[1..]);
    } else {
      ClosingWrites(cfg, m, calls[0].claim.result.value, calls[1..]);
    }
  }

  /** Exactly when a delivery that has itself recorded an outcome writes the row again: when one of its two closing publishes
      fails, and the retry of that failure gets to its write. */
  lemma OwnOutcomeIsRewrittenExactly(cfg: WorkerConfig, m: Message, before: seq<Call>, b: Bundle, rest: seq<Call>)
    requires IsAdmitted(cfg, m) && After(cfg, m, before) == Some(Persisting(b, true, EndHandler))
    requires After(cfg, m, before + ([Call.Persist(IdOf(m), b, true, Fine)] + rest)) == Some(Finished)
    ensures AnyWrite(rest) <==> ClosingFails(cfg, m, rest)
  {
    var record := Call.Persist(IdOf(m), b, true, Fine);
    AfterIsOnward(cfg, m, before, [record] + rest, Persisting(b, true, EndHandler));
    PersistingStep(cfg, m, b, EndHandler, rest);
    ClosingWrites(cfg, m, b, rest);
  }
}
