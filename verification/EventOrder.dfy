/** The events one delivery hands to the broker: in which order, and when it contradicts itself. */
module EventOrder {
  import opened Wrappers
  import opened Errors
  import opened Events
  import opened Delivery
  import Retries

  /** The notices handed to the broker, confirmed or not. */
  function Notices(calls: seq<Call>): seq<Notice> {
    if calls == [] then []
    else
      var c := calls[|calls| - 1];
      Notices(calls[..|calls| - 1]) + if c.Publish? then [c.notice] else []
  }

  /** What a delivery says on its way, in closing, and once its handler has returned; and the bundles that the closing and
      the aftermath are taken from. */
  datatype Told = Told(
    head: seq<Notice>, closing: seq<Notice>, after: seq<Notice>, bundle: Option<Bundle>, last: Option<Bundle>)

  function Tell(t: Told, pc: Pc, c: Call): Told {
    if !c.Publish? then t
    else
      match pc
      case Starting => t.(head := t.head + [c.notice])
      case Announcing(_) => t.(head := t.head + [c.notice])
      case Pending(_, _) => t.(closing := t.closing + [c.notice])
      case ClosingService(b, closing) => TellClosing(t, b, closing, c.notice)
      case ClosingProgress(b, closing) => TellClosing(t, b, closing, c.notice)
      case AnnouncingRetry(_, _) => t.(after := t.after + [c.notice])
      case _ => t
  }

  function TellClosing(t: Told, b: Bundle, closing: Closing, n: Notice): Told {
    if closing.EndHandler? then t.(closing := t.closing + [n], bundle := Some(b))
    else t.(after := t.after + [n], last := Some(b))
  }

  function ToldBy(cfg: WorkerConfig, m: Message, calls: seq<Call>): Told {
    if calls == [] then Told([], [], [], None, None)
    else
      var before := calls[..|calls| - 1];
      match After(cfg, m, before)
      case None => ToldBy(cfg, m, before)
      case Some(pc) => Tell(ToldBy(cfg, m, before), pc, calls[|calls| - 1])
  }

  // ---- The order ----

  function Started(m: Message): Notice {
    ProgressNotice(ProgressEvent(Orchestrating, EventOf(m), None, None))
  }

  predicate IsDeployed(m: Message, n: Notice) {
    n.ProgressNotice? && n.progress.target.Some? && n.progress == ProgressEvent(Deployed, EventOf(m), n.progress.target, None)
  }

  predicate IsProgress(m: Message, n: Notice) {
    n.ProgressNotice? && n.progress.source == EventOf(m)
  }

  /** On its way: nothing, started, or started and deployed. */
  predicate HeadOk(m: Message, head: seq<Notice>) {
    || head == []
    || head == [Started(m)]
    || (|head| == 2 && head[0] == Started(m) && IsDeployed(m, head[1]))
  }

  /** The ledger has the bundle: the claim found it, or this delivery recorded it. */
  predicate OnFile(m: Message, calls: seq<Call>, b: Bundle) {
    || (calls != [] && calls[0].Claim? && calls[0].claim.Claimed? && calls[0].claim.result == Some(b))
    || Call.Persist(IdOf(m), b, true, Fine) in calls
  }

  /** The events of a bundle, the service event first. */
  predicate FromPair(b: Bundle, said: seq<Notice>) {
    || said == [ServiceNotice(b.service)]
    || said == [ServiceNotice(b.service), ProgressNotice(b.progress)]
  }

  /** A success closes what was deployed, or replays. */
  predicate MayClose(b: Bundle, head: seq<Notice>) {
    head == [] || |head| == 2 || b.service.outcome.Failed?
  }

  /** In closing: nothing; the pending event, after deployed; or the events of one bundle that is on file. */
  predicate ClosingOk(m: Message, calls: seq<Call>, t: Told) {
    || t.closing == []
    || (|t.closing| == 1 && |t.head| == 2 && IsProgress(m, t.closing[0]) && t.closing[0].progress.mark == RolloutPending)
    || (t.bundle.Some? && FromPair(t.bundle.value, t.closing) && OnFile(m, calls, t.bundle.value) && MayClose(t.bundle.value, t.head))
  }

  predicate IsFailure(m: Message, b: Bundle) {
    b.service.outcome.Failed? && Matched(b, IdOf(m))
  }

  /** Once the handler has returned: nothing, the retrying event, or the events of a failure. */
  predicate AfterOk(m: Message, t: Told) {
    || t.after == []
    || (|t.after| == 1 && IsProgress(m, t.after[0]) && t.after[0].progress.mark == Retrying(Attempt(m) + 1))
    || (t.last.Some? && FromPair(t.last.value, t.after) && IsFailure(m, t.last.value))
  }

  predicate Open(t: Told) {
    t.closing == [] && t.after == []
  }

  /** What has been said when the delivery stands at `pc`. */
  predicate TaleAt(cfg: WorkerConfig, m: Message, pc: Pc, calls: seq<Call>, t: Told) {
    match pc
    case Claiming => calls == [] && t.head == [] && Open(t)
    case Starting => t.head == [] && Open(t)
    case Applying => t.head == [Started(m)] && Open(t)
    case Announcing(_) => t.head == [Started(m)] && Open(t)
    case Awaiting(_) => |t.head| == 2 && Open(t)
    case Rechecking(_, _) => |t.head| == 2 && Open(t)
    case Pending(_, _) => |t.head| == 2 && Open(t)
    case Persisting(b, _, closing) =>
      if closing.EndHandler? then Open(t) && t.head != [] && MayClose(b, t.head)
      else t.after == [] && IsFailure(m, b)
    case ClosingService(b, closing) =>
      if closing.EndHandler? then Open(t) && OnFile(m, calls, b) && MayClose(b, t.head)
      else t.after == [] && IsFailure(m, b)
    case ClosingProgress(b, closing) =>
      if closing.EndHandler? then t.after == [] && t.bundle == Some(b) && t.closing == [ServiceNotice(b.service)]
      else t.last == Some(b) && t.after == [ServiceNotice(b.service)] && IsFailure(m, b)
    case AnnouncingRetry(attempt, _) => t.after == [] && attempt == Attempt(m) + 1
    case _ => true
  }

  predicate TaleOk(cfg: WorkerConfig, m: Message, pc: Pc, calls: seq<Call>, t: Told) {
    TaleAt(cfg, m, pc, calls, t) && HeadOk(m, t.head) && ClosingOk(m, calls, t) && AfterOk(m, t)
  }

  lemma FileGrows(m: Message, before: seq<Call>, c: Call, b: Bundle)
    requires OnFile(m, before, b)
    ensures OnFile(m, before + [c], b)
  {
  }

  lemma ClosingGrows(m: Message, before: seq<Call>, c: Call, t: Told)
    requires ClosingOk(m, before, t)
    ensures ClosingOk(m, before + [c], t)
  {
    if t.bundle.Some? && OnFile(m, before, t.bundle.value) { FileGrows(m, before, c, t.bundle.value); }
  }

  lemma RetryTale(cfg: WorkerConfig, m: Message, cause: Error, calls: seq<Call>, t: Told)
    requires HeadOk(m, t.head) && ClosingOk(m, calls, t) && t.after == []
    ensures TaleOk(cfg, m, ToRetry(cfg, m, cause), calls, t)
  {
  }

  lemma ClaimTale(cfg: WorkerConfig, m: Message, before: seq<Call>, c: Call, t: Told)
    requires TaleOk(cfg, m, Claiming, before, t) && Offers(cfg, m, Claiming, c)
    ensures TaleOk(cfg, m, Advance(cfg, m, Claiming, c), before + [c], t)
  {
    if c.claim.ClaimError? {
      RetryTale(cfg, m, Wrapped(ClaimingStage, c.claim.error), before + [c], t);
    } else if c.claim.disposition.ClaimBusy? {
      RetryTale(cfg, m, LeaseBusy, before + [c], t);
    }
  }

  lemma HeadTale(cfg: WorkerConfig, m: Message, pc: Pc, before: seq<Call>, c: Call, t: Told)
    requires TaleOk(cfg, m, pc, before, t) && Offers(cfg, m, pc, c) && (pc.Starting? || pc.Announcing?)
    ensures TaleOk(cfg, m, Advance(cfg, m, pc, c), before + [c], Tell(t, pc, c))
  {
    if c.verdict.Failing? {
      RetryTale(cfg, m, Wrapped(PublishingStarted, c.verdict.error), before + [c], Tell(t, pc, c));
      RetryTale(cfg, m, Wrapped(PublishingDeployed, c.verdict.error), before + [c], Tell(t, pc, c));
    }
  }

  lemma ApplyTale(cfg: WorkerConfig, m: Message, before: seq<Call>, c: Call, t: Told)
    requires TaleOk(cfg, m, Applying, before, t) && Offers(cfg, m, Applying, c)
    ensures TaleOk(cfg, m, Advance(cfg, m, Applying, c), before + [c], t)
  {
    if c.deploy.NotApplied? && Retriable(c.deploy.error) {
      RetryTale(cfg, m, Wrapped(DeployingResources, c.deploy.error), before + [c], t);
    }
  }

  lemma WaitTale(cfg: WorkerConfig, m: Message, pc: Pc, before: seq<Call>, c: Call, t: Told)
    requires TaleOk(cfg, m, pc, before, t) && Offers(cfg, m, pc, c) && (pc.Awaiting? || pc.Rechecking?)
    ensures TaleOk(cfg, m, Advance(cfg, m, pc, c), before + [c], t)
  {
    if pc.Awaiting? && c.rollout.NotReady? {
      RetryTale(cfg, m, Wrapped(WaitingForRollout, c.rollout.error), before + [c], t);
    }
  }

  lemma PendingTale(cfg: WorkerConfig, m: Message, pc: Pc, before: seq<Call>, c: Call, t: Told)
    requires TaleOk(cfg, m, pc, before, t) && Offers(cfg, m, pc, c) && pc.Pending?
    ensures TaleOk(cfg, m, Advance(cfg, m, pc, c), before + [c], Tell(t, pc, c))
  {
    if c.verdict.Failing? {
      RetryTale(cfg, m, Wrapped(PublishingPending, c.verdict.error), before + [c], Tell(t, pc, c));
    }
  }

  lemma PersistTale(cfg: WorkerConfig, m: Message, pc: Pc, before: seq<Call>, c: Call, t: Told)
    requires TaleOk(cfg, m, pc, before, t) && Offers(cfg, m, pc, c) && pc.Persisting?
    ensures TaleOk(cfg, m, Advance(cfg, m, pc, c), before + [c], t)
  {
    ClosingGrows(m, before, c, t);
    if c.verdict.Failing? && pc.closing.EndHandler? {
      RetryTale(cfg, m, Wrapped(PersistingResult, c.verdict.error), before + [c], t);
    }
  }

  lemma ServiceTale(cfg: WorkerConfig, m: Message, pc: Pc, before: seq<Call>, c: Call, t: Told)
    requires TaleOk(cfg, m, pc, before, t) && Offers(cfg, m, pc, c) && pc.ClosingService?
    ensures TaleOk(cfg, m, Advance(cfg, m, pc, c), before + [c], Tell(t, pc, c))
  {
    ClosingGrows(m, before, c, t);
    if pc.closing.EndHandler? {
      FileGrows(m, before, c, pc.bundle);
      if c.verdict.Failing? {
        RetryTale(cfg, m, Wrapped(PublishingService, c.verdict.error), before + [c], Tell(t, pc, c));
      }
    }
  }

  lemma ProgressTale(cfg: WorkerConfig, m: Message, pc: Pc, before: seq<Call>, c: Call, t: Told)
    requires TaleOk(cfg, m, pc, before, t) && Offers(cfg, m, pc, c) && pc.ClosingProgress?
    ensures TaleOk(cfg, m, Advance(cfg, m, pc, c), before + [c], Tell(t, pc, c))
  {
    ClosingGrows(m, before, c, t);
    if pc.closing.EndHandler? && c.verdict.Failing? {
      RetryTale(cfg, m, Wrapped(PublishingProgress, c.verdict.error), before + [c], Tell(t, pc, c));
    }
  }

  lemma LateTale(cfg: WorkerConfig, m: Message, pc: Pc, before: seq<Call>, c: Call, t: Told)
    requires TaleOk(cfg, m, pc, before, t) && Offers(cfg, m, pc, c)
    requires pc.AnnouncingRetry? || pc.Requeuing? || pc.Releasing? || pc.DeadLettering? || pc.Acking? || pc.Nacking?
    ensures TaleOk(cfg, m, Advance(cfg, m, pc, c), before + [c], Tell(t, pc, c))
  {
    ClosingGrows(m, before, c, t);
  }

  lemma TaleStep(cfg: WorkerConfig, m: Message, pc: Pc, before: seq<Call>, c: Call, t: Told)
    requires TaleOk(cfg, m, pc, before, t) && Offers(cfg, m, pc, c)
    ensures TaleOk(cfg, m, Advance(cfg, m, pc, c), before + [c], Tell(t, pc, c))
  {
    match pc
    case Claiming => ClaimTale(cfg, m, before, c, t);
    case Starting => HeadTale(cfg, m, pc, before, c, t);
    case Applying => ApplyTale(cfg, m, before, c, t);
    case Announcing(_) => HeadTale(cfg, m, pc, before, c, t);
    case Awaiting(_) => WaitTale(cfg, m, pc, before, c, t);
    case Rechecking(_, _) => WaitTale(cfg, m, pc, before, c, t);
    case Pending(_, _) => PendingTale(cfg, m, pc, before, c, t);
    case Persisting(_, _, _) => PersistTale(cfg, m, pc, before, c, t);
    case ClosingService(_, _) => ServiceTale(cfg, m, pc, before, c, t);
    case ClosingProgress(_, _) => ProgressTale(cfg, m, pc, before, c, t);
    case _ => LateTale(cfg, m, pc, before, c, t);
  }

  function Said(t: Told): seq<Notice> {
    t.head + t.closing + t.after
  }

  /** A call adds its notice at the end of what was said. */
  lemma TellAppends(cfg: WorkerConfig, m: Message, pc: Pc, calls: seq<Call>, c: Call, t: Told)
    requires TaleAt(cfg, m, pc, calls, t) && Offers(cfg, m, pc, c)
    ensures Said(Tell(t, pc, c)) == Said(t) + if c.Publish? then [c.notice] else []
  {
  }

  ghost predicate HasTale(cfg: WorkerConfig, m: Message, calls: seq<Call>, pc: Option<Pc>, t: Told) {
    pc.Some? ==> TaleOk(cfg, m, pc.value, calls, t) && Notices(calls) == Said(t)
  }

  lemma TaleThen(cfg: WorkerConfig, m: Message, pc: Option<Pc>, before: seq<Call>, c: Call, t: Told)
    requires HasTale(cfg, m, before, pc, t)
    ensures pc.Some? ==> HasTale(cfg, m, before + [c], Then(cfg, m, pc, c), Tell(t, pc.value, c))
  {
    if pc.Some? && Offers(cfg, m, pc.value, c) {
      TaleStep(cfg, m, pc.value, before, c, t);
      TellAppends(cfg, m, pc.value, before, c, t);
      assert (before + [c])[..|before|] == before;
    }
  }

  lemma {:induction false} TaleHolds(cfg: WorkerConfig, m: Message, calls: seq<Call>)
    ensures HasTale(cfg, m, calls, After(cfg, m, calls), ToldBy(cfg, m, calls))
  {
    if calls != [] {
      var before, c := calls[..|calls| - 1], calls[|calls| - 1];
      TaleHolds(cfg, m, before);
      TaleThen(cfg, m, After(cfg, m, before), before, c, ToldBy(cfg, m, before));
      assert before + [c] == calls;
    }
  }

  /** Whatever its answers, and however far it has come, a delivery hands the broker first nothing, started, or started
      and deployed; then nothing, the pending event, or the events of one bundle that is on file; and once its handler has
      returned nothing, the retrying event, or the events of a failure. */
  lemma EventsComeInOrder(cfg: WorkerConfig, m: Message, calls: seq<Call>)
    requires After(cfg, m, calls).Some?
    ensures var t := ToldBy(cfg, m, calls);
            && Notices(calls) == t.head + t.closing + t.after
            && HeadOk(m, t.head) && ClosingOk(m, calls, t) && AfterOk(m, t)
  {
    TaleHolds(cfg, m, calls);
  }

  // ---- When one delivery hands the broker both outcomes ----

  predicate SaysSuccess(n: Notice) {
    n.ServiceNotice? && n.service.outcome.Succeeded?
  }

  predicate SaysFailure(n: Notice) {
    n.ServiceNotice? && n.service.outcome.Failed?
  }

  predicate HandsBoth(calls: seq<Call>) {
    (exists n :: n in Notices(calls) && SaysSuccess(n)) && (exists n :: n in Notices(calls) && SaysFailure(n))
  }

  predicate ClosedWithSuccess(t: Told) {
    t.closing != [] && SaysSuccess(t.closing[0])
  }

  predicate FailedAfter(t: Told) {
    t.after != [] && SaysFailure(t.after[0])
  }

  lemma OneServiceEventEach(m: Message, calls: seq<Call>, t: Told)
    requires HeadOk(m, t.head) && ClosingOk(m, calls, t) && AfterOk(m, t)
    ensures forall n :: n in t.head ==> n.ProgressNotice?
    ensures forall n :: n in t.closing && n.ServiceNotice? ==> n == t.closing[0]
    ensures forall n :: n in t.after && n.ServiceNotice? ==> n == t.after[0] && SaysFailure(n)
  {
  }

  /** Both outcomes means: a success in closing, and a failure after it. */
  lemma BothMeans(cfg: WorkerConfig, m: Message, calls: seq<Call>)
    requires After(cfg, m, calls).Some?
    ensures var t := ToldBy(cfg, m, calls); HandsBoth(calls) <==> ClosedWithSuccess(t) && FailedAfter(t)
  {
    var t := ToldBy(cfg, m, calls);
    TaleHolds(cfg, m, calls);
    OneServiceEventEach(m, calls, t);
    if ClosedWithSuccess(t) { assert t.closing[0] in Notices(calls); }
    if FailedAfter(t) { assert t.after[0] in Notices(calls); }
  }

  /** Call `i` hands the broker an event of a success in closing, is not confirmed, and uses up the last attempt. */
  predicate Breaks(cfg: WorkerConfig, m: Message, calls: seq<Call>, i: nat) {
    && i < |calls| && After(cfg, m, calls[..i]).Some?
    && var pc := After(cfg, m, calls[..i]).value;
       && (pc.ClosingService? || pc.ClosingProgress?) && pc.closing.EndHandler? && pc.bundle.service.outcome.Succeeded?
       && Offers(cfg, m, pc, calls[i]) && calls[i].verdict.Failing?
       && Bumped(m, Counts(calls[i].verdict.error)) >= cfg.maxAttempts
  }

  /** Such a break, after which the failure write of the exhausted retry reports no error, and the delivery goes on. */
  predicate Relapses(cfg: WorkerConfig, m: Message, calls: seq<Call>, i: nat) {
    Breaks(cfg, m, calls, i) && i + 2 < |calls| && calls[i + 1].Persist? && calls[i + 1].verdict.Fine?
  }

  lemma BreakStays(cfg: WorkerConfig, m: Message, before: seq<Call>, c: Call, i: nat)
    requires Breaks(cfg, m, before, i)
    ensures Breaks(cfg, m, before + [c], i)
  {
    assert (before + [c])[..i] == before[..i];
  }

  /** Where a success in closing and an exhausted retry meet, a break has been. */
  ghost predicate BreakKnown(cfg: WorkerConfig, m: Message, calls: seq<Call>, pc: Pc, t: Told) {
    ClosedWithSuccess(t) ==>
      && (pc.Persisting? && pc.closing.EndExhausted? ==> calls != [] && Breaks(cfg, m, calls, |calls| - 1))
      && (pc.ClosingService? && pc.closing.EndExhausted? ==>
            |calls| >= 2 && Breaks(cfg, m, calls, |calls| - 2) && calls[|calls| - 1].Persist? && calls[|calls| - 1].verdict.Fine?)
      && (FailedAfter(t) ==> exists i :: Relapses(cfg, m, calls, i))
  }

  lemma RelapseStays(cfg: WorkerConfig, m: Message, before: seq<Call>, c: Call)
    requires exists i :: Relapses(cfg, m, before, i)
    ensures exists i :: Relapses(cfg, m, before + [c], i)
  {
    var i :| Relapses(cfg, m, before, i);
    BreakStays(cfg, m, before, c, i);
    assert Relapses(cfg, m, before + [c], i);
  }

  /** A retry that is exhausted after a success was closed is the retry of the closing publish. */
  lemma ExhaustedFromClosing(cfg: WorkerConfig, m: Message, pc: Pc, calls: seq<Call>, c: Call, t: Told)
    requires TaleOk(cfg, m, pc, calls, t) && Offers(cfg, m, pc, c)
    requires ClosedWithSuccess(Tell(t, pc, c)) && Advance(cfg, m, pc, c).Persisting? && Advance(cfg, m, pc, c).closing.EndExhausted?
    ensures (pc.ClosingService? || pc.ClosingProgress?) && pc.closing.EndHandler? && c.verdict.Failing?
    ensures pc.bundle.service.outcome.Succeeded? && Bumped(m, Counts(c.verdict.error)) >= cfg.maxAttempts
  {
    CountsThroughNotes();
  }

  lemma CountsThroughNotes()
    ensures forall note, error :: Counts(Wrapped(note, error)) == Counts(error)
  {
    forall note, error ensures Classes(Wrapped(note, error)) == Classes(error) {}
  }

  lemma PersistBreak(cfg: WorkerConfig, m: Message, pc: Pc, before: seq<Call>, c: Call, t: Told)
    requires After(cfg, m, before) == Some(pc) && TaleOk(cfg, m, pc, before, t) && Offers(cfg, m, pc, c)
    requires ClosedWithSuccess(Tell(t, pc, c)) && Advance(cfg, m, pc, c).Persisting? && Advance(cfg, m, pc, c).closing.EndExhausted?
    ensures Breaks(cfg, m, before + [c], |before|)
  {
    ExhaustedFromClosing(cfg, m, pc, before, c, t);
    assert (before + [c])[..|before|] == before;
  }

  /** The service event of an exhausted failure comes right after its write. */
  lemma FailureComesFrom(cfg: WorkerConfig, m: Message, pc: Pc, calls: seq<Call>, c: Call, t: Told)
    requires TaleOk(cfg, m, pc, calls, t) && Offers(cfg, m, pc, c)
    ensures FailedAfter(Tell(t, pc, c)) && !FailedAfter(t) ==> pc.ClosingService? && pc.closing.EndExhausted? && ClosedWithSuccess(Tell(t, pc, c)) == ClosedWithSuccess(t)
    ensures Advance(cfg, m, pc, c).ClosingService? && Advance(cfg, m, pc, c).closing.EndExhausted? ==>
              pc.Persisting? && pc.closing.EndExhausted? && c.verdict.Fine? && Tell(t, pc, c) == t
    ensures FailedAfter(t) && ClosedWithSuccess(Tell(t, pc, c)) ==> ClosedWithSuccess(t)
  {
  }

  lemma BreakStep(cfg: WorkerConfig, m: Message, pc: Pc, before: seq<Call>, c: Call, t: Told)
    requires After(cfg, m, before) == Some(pc) && TaleOk(cfg, m, pc, before, t) && Offers(cfg, m, pc, c)
    requires BreakKnown(cfg, m, before, pc, t)
    ensures BreakKnown(cfg, m, before + [c], Advance(cfg, m, pc, c), Tell(t, pc, c))
  {
    var pc', t' := Advance(cfg, m, pc, c), Tell(t, pc, c);
    if ClosedWithSuccess(t') {
      FailureComesFrom(cfg, m, pc, before, c, t);
      if pc'.Persisting? && pc'.closing.EndExhausted? {
        PersistBreak(cfg, m, pc, before, c, t);
      }
      if pc'.ClosingService? && pc'.closing.EndExhausted? {
        BreakStays(cfg, m, before, c, |before| - 1);
      }
      if FailedAfter(t) {
        RelapseStays(cfg, m, before, c);
      } else if FailedAfter(t') {
        BreakStays(cfg, m, before, c, |before| - 2);
        assert Relapses(cfg, m, before + [c], |before| - 2);
      }
    }
  }

  lemma {:induction false} BreakHolds(cfg: WorkerConfig, m: Message, calls: seq<Call>)
    ensures After(cfg, m, calls).Some? ==> BreakKnown(cfg, m, calls, After(cfg, m, calls).value, ToldBy(cfg, m, calls))
  {
    if calls != [] && After(cfg, m, calls).Some? {
      var before, c := calls[..|calls| - 1], calls[|calls| - 1];
      BreakHolds(cfg, m, before);
      TaleHolds(cfg, m, before);
      BreakStep(cfg, m, After(cfg, m, before).value, before, c, ToldBy(cfg, m, before));
      assert before + [c] == calls;
    }
  }

  // ---- And back ----

  /** The calls of a delivery follow one another. */
  lemma CallAt(cfg: WorkerConfig, m: Message, calls: seq<Call>, i: nat)
    requires After(cfg, m, calls).Some? && i < |calls|
    ensures After(cfg, m, calls[..i]).Some? && Offers(cfg, m, After(cfg, m, calls[..i]).value, calls[i])
    ensures After(cfg, m, calls[..i + 1]) == Some(Advance(cfg, m, After(cfg, m, calls[..i]).value, calls[i]))
  {
    Retries.PrefixStands(cfg, m, calls, i + 1);
    assert calls[..i + 1][..i] == calls[..i];
  }

  lemma {:induction false} NoticeOfCall(calls: seq<Call>, i: nat)
    requires i < |calls| && calls[i].Publish?
    ensures calls[i].notice in Notices(calls)
    decreases |calls|
  {
    if i < |calls| - 1 { NoticeOfCall(calls[..|calls| - 1], i); }
  }

  lemma {:induction false} NoticesGrow(calls: seq<Call>, k: nat)
    requires k <= |calls|
    ensures forall n :: n in Notices(calls[..k]) ==> n in Notices(calls)
    decreases |calls|
  {
    if k < |calls| {
      NoticesGrow(calls[..|calls| - 1], k);
      assert calls[..|calls| - 1][..k] == calls[..k];
    } else {
      assert calls[..k] == calls;
    }
  }

  lemma {:induction false} RefusedIsSilent(cfg: WorkerConfig, m: Message, calls: seq<Call>)
    requires !IsAdmitted(cfg, m)
    ensures var pc := After(cfg, m, calls);
            pc.Some? ==> pc.value.DeadLettering? || pc.value.Acking? || pc.value.Nacking? || pc.value.Finished?
  {
    if calls != [] { RefusedIsSilent(cfg, m, calls[..|calls| - 1]); }
  }

  /** A break leads on to the failure write of the exhausted retry. */
  lemma BreakLeadsOn(cfg: WorkerConfig, m: Message, calls: seq<Call>, i: nat) returns (b: Bundle, end: Closing)
    requires After(cfg, m, calls).Some? && Breaks(cfg, m, calls, i)
    ensures After(cfg, m, calls[..i + 1]) == Some(Persisting(b, true, end)) && end.EndExhausted? && b.service.outcome.Failed?
  {
    if !IsAdmitted(cfg, m) { RefusedIsSilent(cfg, m, calls[..i]); }
    CallAt(cfg, m, calls, i);
    CountsThroughNotes();
    var pc := After(cfg, m, calls[..i + 1]).value;
    b, end := pc.bundle, pc.closing;
  }

  lemma RelapseSaysFailure(cfg: WorkerConfig, m: Message, calls: seq<Call>, i: nat)
    requires After(cfg, m, calls).Some? && Relapses(cfg, m, calls, i)
    ensures exists n :: n in Notices(calls) && SaysFailure(n)
  {
    var b, end := BreakLeadsOn(cfg, m, calls, i);
    CallAt(cfg, m, calls, i + 1);
    assert After(cfg, m, calls[..i + 2]) == Some(ClosingService(b, end));
    CallAt(cfg, m, calls, i + 2);
    NoticeOfCall(calls, i + 2);
    assert SaysFailure(calls[i + 2].notice);
  }

  lemma BreakSaysSuccess(cfg: WorkerConfig, m: Message, calls: seq<Call>, i: nat)
    requires After(cfg, m, calls).Some? && Breaks(cfg, m, calls, i)
    ensures exists n :: n in Notices(calls) && SaysSuccess(n)
  {
    var pc := After(cfg, m, calls[..i]).value;
    if pc.ClosingService? {
      NoticeOfCall(calls, i);
      assert SaysSuccess(calls[i].notice);
    } else {
      TaleHolds(cfg, m, calls[..i]);
      NoticesGrow(calls, i);
      var n := ServiceNotice(pc.bundle.service);
      assert n in Notices(calls[..i]) && SaysSuccess(n);
    }
  }

  /** Exactly when one delivery hands the broker both outcomes: a publish that closes a success, for the first time or in a
      replay, is not confirmed; its failure uses up the last attempt; and the failure write that follows reports no error. */
  lemma BothOutcomesExactly(cfg: WorkerConfig, m: Message, calls: seq<Call>)
    requires After(cfg, m, calls).Some?
    ensures HandsBoth(calls) <==> exists i :: Relapses(cfg, m, calls, i)
  {
    BothMeans(cfg, m, calls);
    BreakHolds(cfg, m, calls);
    if i :| Relapses(cfg, m, calls, i) {
      RelapseSaysFailure(cfg, m, calls, i);
      BreakSaysSuccess(cfg, m, calls, i);
    }
  }
}
