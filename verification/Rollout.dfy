/** Waiting for a rollout (rollout.go): what each poll decides, the polling loop, and what its success says about pods. */
module Rollout {
  import opened Wrappers
  import opened Errors
  import opened Delivery
  import Events
  import Names

  datatype ConditionKind = Progressing | Available | ReplicaFailure | OtherKind
  datatype ConditionStatus = True | False | Unknown
  datatype Condition = Condition(kind: ConditionKind, status: ConditionStatus, deadlineExceeded: bool)

  /** What a poll reads: the deployment's generation and wanted replicas, and its status. */
  datatype Observation = Observation(
    generation: int, replicas: Option<int>,
    observedGeneration: int, updated: int, total: int, available: int, conditions: seq<Condition>)

  datatype Poll = PollFailed(error: Error) | Seen(deployment: Observation)

  predicate SaysFailed(c: Condition) {
    || (c.kind.Progressing? && c.status.False? && c.deadlineExceeded)
    || (c.kind.ReplicaFailure? && c.status.True?)
  }

  predicate Failing(o: Observation) {
    exists i :: 0 <= i < |o.conditions| && SaysFailed(o.conditions[i])
  }

  predicate SaysAvailable(o: Observation) {
    exists i :: 0 <= i < |o.conditions| && o.conditions[i].kind.Available? && o.conditions[i].status.True?
  }

  function Wanted(o: Observation): int {
    if o.replicas.Some? then o.replicas.value else 1
  }

  predicate Complete(o: Observation) {
    && SaysAvailable(o) && o.generation <= o.observedGeneration
    && o.updated == o.total == o.available == Wanted(o)
  }

  /** `rolloutConditionError`. */
  method RolloutConditionError(o: Observation) returns (error: Option<Error>)
    ensures error == if Failing(o) then Some(RolloutFailed) else None
    ensures error.Some? <==>
            exists i :: 0 <= i < |o.conditions|
                        && ((o.conditions[i].kind == Progressing && o.conditions[i].status == False && o.conditions[i].deadlineExceeded)
                            || (o.conditions[i].kind == ReplicaFailure && o.conditions[i].status == True))
  {
    for n := 0 to |o.conditions|
      invariant forall i :: 0 <= i < n ==> !SaysFailed(o.conditions[i])
    {
      var c := o.conditions[n];
      if c.kind.Progressing? && c.status.False? && c.deadlineExceeded { return Some(RolloutFailed); }
      if c.kind.ReplicaFailure? && c.status.True? { return Some(RolloutFailed); }
    }
    return None;
  }

  /** `deploymentRolloutComplete`. */
  method DeploymentRolloutComplete(o: Observation) returns (complete: bool)
    ensures complete <==> Complete(o)
    ensures complete <==>
            && (exists i :: 0 <= i < |o.conditions| && o.conditions[i].kind == Available && o.conditions[i].status == True)
            && o.generation <= o.observedGeneration
            && o.updated == o.total == o.available == if o.replicas.Some? then o.replicas.value else 1
  {
    var replicas := 1;
    if o.replicas.Some? { replicas := o.replicas.value; }
    var available := false;
    for n := 0 to |o.conditions|
      invariant available <==> exists i :: 0 <= i < n && o.conditions[i].kind.Available? && o.conditions[i].status.True?
    {
      if o.conditions[n].kind.Available? && o.conditions[n].status.True? {
        available := true;
        break;
      }
    }
    return available && o.generation <= o.observedGeneration && o.updated == replicas && o.total == replicas && o.available == replicas;
  }

  // ---- The loop ----

  const GETTING_STATUS := OtherNote("get deployment status")

  /** What a poll decides by itself: an answer, or nothing yet. */
  function Decision(p: Poll): Option<Option<Error>> {
    match p
    case PollFailed(error) => Some(Some(Wrapped(GETTING_STATUS, error)))
    case Seen(o) =>
      if Failing(o) then Some(Some(RolloutFailed)) else if Complete(o) then Some(None) else None
  }

  /** What the context decides once it is done. */
  function Ended(why: Error): Error {
    if Deadline in Classes(why) then RolloutTimeout else why
  }

  /** The cluster as the polls find it, and the context: it is looked at twice in each round, is done from look number
      `limit` on, and when the ticker fires at the same time either may win. */
  datatype Surroundings = Surroundings(poll: nat -> Poll, limit: nat, why: Error, tickerWins: nat -> bool)

  /** The polls before number `n` decide nothing, and poll `n` decides, or else the context does after it. */
  predicate Decides(s: Surroundings, n: nat, answer: Option<Error>) {
    && (forall k: nat :: k < n ==> Decision(s.poll(k)).None?)
    && (match Decision(s.poll(n))
        case Some(decision) => answer == decision
        case None => answer == Some(Ended(s.why)) && 2 * n + 1 >= s.limit)
  }

  /** `WaitForRollout`; `None` means that the rollout is complete. */
  method WaitForRollout(s: Surroundings) returns (answer: Option<Error>)
    ensures exists polls: nat :: 2 * polls <= s.limit + 1 && Decides(s, polls, answer)
  {
    ghost var polls := 0;
    var looks := 0;
    while true
      invariant looks == 2 * polls && looks <= s.limit + 1
      invariant forall k: nat :: k < polls ==> Decision(s.poll(k)).None?
      decreases s.limit + 2 - looks
    {
      var p := s.poll(looks / 2);
      assert p.Seen? && Decision(p).Some? ==> Decides(s, polls, Decision(p).value);
      if p.PollFailed? {
        answer := Some(Wrapped(GETTING_STATUS, p.error));
        assert Decides(s, polls, answer);
        return;
      }
      answer := RolloutConditionError(p.deployment);
      if answer.Some? { return; }
      var complete := DeploymentRolloutComplete(p.deployment);
      if complete { return; }
      answer := Some(if Deadline in Classes(s.why) then RolloutTimeout else s.why);
      assert looks + 1 >= s.limit ==> Decides(s, polls, answer);
      if looks >= s.limit { return; }
      if looks + 1 >= s.limit && !s.tickerWins(looks + 1) { return; }
      looks := looks + 2;
      polls := polls + 1;
    }
  }

  /** What ends the wait, and how: an error of the poll, wrapped; a condition that says failed; completion; or a context that is
      done, its deadline being a timeout of the rollout. */
  lemma WaitMeans(s: Surroundings, n: nat, answer: Option<Error>)
    requires Decides(s, n, answer) && s.why in {DeadlineExceeded, Canceled}
    ensures forall k: nat :: k < n ==> s.poll(k).Seen? && !Failing(s.poll(k).deployment) && !Complete(s.poll(k).deployment)
    ensures match s.poll(n)
            case PollFailed(error) => answer.Some? && Root(answer.value) == Root(error)
            case Seen(o) =>
              if Failing(o) then answer == Some(RolloutFailed)
              else if Complete(o) then answer == None
              else 2 * n + 1 >= s.limit && answer == Some(if s.why == DeadlineExceeded then RolloutTimeout else Canceled)
  {
    assert Classes(DeadlineExceeded) == {Deadline, NetworkFailure} && Classes(Canceled) == {};
    forall k: nat | k < n ensures s.poll(k).Seen? && !Failing(s.poll(k).deployment) && !Complete(s.poll(k).deployment) {
      assert Decision(s.poll(k)).None?;
    }
  }

  // ---- What success says about the pods ----

  /** A pod, whether it runs the current template, and whether it is available. */
  datatype Pod = Pod(name: string, current: bool, available: bool)

  function Current(pods: set<Pod>): set<Pod> {
    set p | p in pods && p.current
  }

  function Running(pods: set<Pod>): set<Pod> {
    set p | p in pods && p.available
  }

  /** The status counts the deployment's pods. */
  predicate Counts(o: Observation, pods: set<Pod>) {
    o.total == |pods| && o.updated == |Current(pods)| && o.available == |Running(pods)|
  }

  /** A part as large as the whole is the whole. */
  lemma {:induction false} FullPart<T>(part: set<T>, whole: set<T>)
    requires part <= whole && |part| == |whole|
    ensures part == whole
    decreases |whole|
  {
    if x :| x in whole {
      if x in part {
        FullPart(part - {x}, whole - {x});
        assert part == (part - {x}) + {x} && whole == (whole - {x}) + {x};
      } else {
        SmallerPart(part, whole - {x});
      }
    }
  }

  lemma {:induction false} SmallerPart<T>(part: set<T>, whole: set<T>)
    requires part <= whole
    ensures |part| <= |whole|
    decreases |part|
  {
    if x :| x in part {
      SmallerPart(part - {x}, whole - {x});
    }
  }

  /** An observation that counts pods is complete exactly when the deployment is said to be available, its status is not
      older than its specification, it has as many pods as wanted, and each is current and available. */
  lemma CompleteMeansEveryPod(o: Observation, pods: set<Pod>)
    requires Counts(o, pods)
    ensures Complete(o) <==>
            && SaysAvailable(o) && o.generation <= o.observedGeneration && |pods| == Wanted(o)
            && forall p :: p in pods ==> p.current && p.available
  {
    if Complete(o) {
      FullPart(Current(pods), pods);
      FullPart(Running(pods), pods);
    }
    if forall p :: p in pods ==> p.current && p.available {
      assert Current(pods) == pods && Running(pods) == pods;
    }
  }

  /** `WaitForRollout` reports success only at a poll that saw no failure, a status not older than the specification, and
      every pod of a full set current and available; no poll before it saw a failure. */
  lemma SuccessIsSound(s: Surroundings, n: nat, pods: set<Pod>)
    requires Decides(s, n, None)
    ensures s.poll(n).Seen? && Complete(s.poll(n).deployment)
    ensures forall k: nat :: k <= n ==> s.poll(k).Seen? && !Failing(s.poll(k).deployment)
    ensures s.poll(n).deployment.generation <= s.poll(n).deployment.observedGeneration
    ensures Counts(s.poll(n).deployment, pods) ==>
              |pods| == Wanted(s.poll(n).deployment) && forall p :: p in pods ==> p.current && p.available
  {
    assert forall k: nat :: k < n ==> Decision(s.poll(k)).None?;
    var o := s.poll(n).deployment;
    if Counts(o, pods) { CompleteMeansEveryPod(o, pods); }
  }

  /** A failure condition outweighs any counts. */
  lemma FailureOutweighsCounts(s: Surroundings, n: nat, answer: Option<Error>)
    requires Decides(s, n, answer) && s.poll(n).Seen? && Failing(s.poll(n).deployment)
    ensures answer == Some(RolloutFailed) && !Retriable(RolloutFailed)
  {
    assert Classes(RolloutFailed) == {FailedVerdict};
  }

  /** The worker takes every answer for what it is: it records a success only if the rollout is complete; once its
      deadline has passed it checks again whatever the answer; and before that a failed rollout is recorded as a failure,
      and a poll that failed is retried if its error is. */
  lemma AnswersMeanWhatTheySay(cfg: WorkerConfig, m: Message, target: Names.DeploymentTarget, s: Surroundings, n: nat,
                               answer: Option<Error>, expired: bool)
    requires Decides(s, n, answer) && s.why in {DeadlineExceeded, Canceled}
    ensures var next := AfterAwait(cfg, m, target, if answer.None? then Ready else NotReady(answer.value, expired));
            match Decision(s.poll(n))
            case Some(None) => next == Persisting(Events.SuccessBundle(EventOf(m), target), true, EndHandler)
            case None =>
              if expired || s.why.DeadlineExceeded? then next == Rechecking(target, answer.value)
              else next == ToFailure(EventOf(m), target, Canceled)
            case Some(Some(RolloutFailed)) =>
              if expired then next == Rechecking(target, RolloutFailed)
              else next == ToFailure(EventOf(m), target, Wrapped(NotReadyOnPort, RolloutFailed))
            case Some(Some(error)) =>
              var late := expired || TimeoutVerdict in Classes(error) || Deadline in Classes(error);
              && (next.Rechecking? <==> late)
              && (!late && Retriable(error) ==> next == ToRetry(cfg, m, Wrapped(WaitingForRollout, error)))
              && (!late && !Retriable(error) ==> next == ToFailure(EventOf(m), target, NotReadyError(error)))
  {
    assert Classes(RolloutTimeout) == {TimeoutVerdict};
    assert Classes(RolloutFailed) == {FailedVerdict};
    assert Classes(DeadlineExceeded) == {Deadline, NetworkFailure};
    assert Classes(Canceled) == {};
  }
}
