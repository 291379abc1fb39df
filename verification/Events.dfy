/** Events the worker consumes and publishes (events.go), and the identity it gives them. */
module Events {
  import opened Wrappers
  import opened Errors
  import opened Names

  /** The consumed build event, as far as the worker reads it. */
  datatype BuildEvent = BuildEvent(
    deploymentId: string, projectId: string, serviceId: string, serviceName: string, userId: string,
    imageTag: string, commitSha: string, projectSlug: string, serviceSlug: string)

  datatype Outcome = Succeeded | Failed

  /** The status text each event hashes into its identity. */
  datatype Mark =
    | Orchestrating | Deployed | Running | DeployFailed | Retrying(attempt: int) | RolloutPending

  datatype ServiceEvent = ServiceEvent(outcome: Outcome, source: BuildEvent, target: DeploymentTarget, error: Option<Error>)

  datatype ProgressEvent = ProgressEvent(mark: Mark, source: BuildEvent, target: Option<DeploymentTarget>, error: Option<Error>)

  datatype RoutingKey =
    | SucceededKey | FailedKey | StartedKey | DeployedKey | RunningKey | FailedProgressKey | RetryingKey

  /** A result as `deployResultEvents` stores it. */
  datatype Bundle = Bundle(serviceKey: RoutingKey, service: ServiceEvent, progressKey: RoutingKey, progress: ProgressEvent)

  function SuccessBundle(event: BuildEvent, target: DeploymentTarget): Bundle {
    Bundle(SucceededKey, ServiceEvent(Succeeded, event, target, None),
           RunningKey, ProgressEvent(Running, event, Some(target), None))
  }

  function FailureBundle(event: BuildEvent, target: DeploymentTarget, error: Error): Bundle {
    Bundle(FailedKey, ServiceEvent(Failed, event, target, Some(error)),
           FailedProgressKey, ProgressEvent(DeployFailed, event, Some(target), Some(error)))
  }

  function StartedEvent(event: BuildEvent): ProgressEvent {
    ProgressEvent(Orchestrating, event, None, None)
  }

  function DeployedEvent(event: BuildEvent, target: DeploymentTarget): ProgressEvent {
    ProgressEvent(Deployed, event, Some(target), None)
  }

  function PendingEvent(event: BuildEvent, target: DeploymentTarget, cause: Error): ProgressEvent {
    ProgressEvent(RolloutPending, event, Some(target), Some(cause))
  }

  function RetryingEvent(event: BuildEvent, attempt: int, cause: Error): ProgressEvent {
    ProgressEvent(Retrying(attempt), event, None, Some(cause))
  }

  /** A pair that tells one story about deployment `id`: succeeded with running, or failed with failed, each under
      its own routing key. */
  predicate Matched(b: Bundle, id: string) {
    && b.service.source.deploymentId == id && b.progress.source == b.service.source
    && b.progress.target == Some(b.service.target)
    && match b.service.outcome
       case Succeeded => b.serviceKey == SucceededKey && b.progressKey == RunningKey && b.progress.mark == Running
       case Failed => b.serviceKey == FailedKey && b.progressKey == FailedProgressKey && b.progress.mark == DeployFailed
  }

  // ---- Identity ----

  function Digits(n: nat): string {
    if n < 10 then [('0' as int + n) as char] else Digits(n / 10) + [('0' as int + n % 10) as char]
  }

  function Decimal(n: int): string {
    if n < 0 then "-" + Digits(-n) else Digits(n)
  }

  function StatusText(mark: Mark): string {
    match mark
    case Orchestrating => "ORCHESTRATING"
    case Deployed => "DEPLOYED"
    case Running => "RUNNING"
    case DeployFailed => "DEPLOY_FAILED"
    case Retrying(attempt) => "DEPLOY_RETRYING:" + Decimal(attempt)
    case RolloutPending => "ROLLOUT_PENDING"
  }

  const STAGE_INFIX := ":orchestration:"

  /** The text `deploymentEventID` hashes. */
  function IdentityText(deploymentId: string, mark: Mark): string {
    deploymentId + STAGE_INFIX + StatusText(mark)
  }

  /** The texts, one by one. */
  lemma IdentityTexts(id: string, attempt: nat)
    ensures IdentityText(id, Orchestrating) == id + ":orchestration:" + "ORCHESTRATING"
    ensures IdentityText(id, Deployed) == id + ":orchestration:" + "DEPLOYED"
    ensures IdentityText(id, Running) == id + ":orchestration:" + "RUNNING"
    ensures IdentityText(id, DeployFailed) == id + ":orchestration:" + "DEPLOY_FAILED"
    ensures IdentityText(id, RolloutPending) == id + ":orchestration:" + "ROLLOUT_PENDING"
    ensures IdentityText(id, Retrying(attempt)) == id + ":orchestration:" + ("DEPLOY_RETRYING:" + Digits(attempt))
  {
  }

  /** The digits of a number are its decimal digits. */
  lemma {:induction false} DigitsAreDecimal(n: nat)
    ensures |Digits(n)| >= 1 && Value(Digits(n)) == n && (|Digits(n)| > 1 ==> Digits(n)[0] != '0')
  {
    DigitsOnly(n);
    if n >= 10 {
      DigitsAreDecimal(n / 10);
      DigitsOnly(n / 10);
      assert Digits(n)[..|Digits(n)| - 1] == Digits(n / 10);
      if |Digits(n / 10)| == 1 { assert Value(Digits(n / 10)) == n / 10; }
    }
  }

  function Value(s: string): int {
    if s == "" then 0 else 10 * Value(s[..|s| - 1]) + (s[|s| - 1] as int - '0' as int)
  }

  ghost predicate NoLowerCase(s: string) {
    forall i :: 0 <= i < |s| ==> !('a' <= s[i] <= 'z')
  }

  lemma {:induction false} DigitsOnly(n: nat)
    ensures Digits(n) != "" && forall i :: 0 <= i < |Digits(n)| ==> '0' <= Digits(n)[i] <= '9'
  {
    if n >= 10 { DigitsOnly(n / 10); }
  }

  lemma {:induction false} DigitsInjective(m: nat, n: nat)
    requires Digits(m) == Digits(n)
    ensures m == n
  {
    DigitsOnly(m / 10);
    DigitsOnly(n / 10);
    var s := Digits(m);
    assert s[|s| - 1] as int == '0' as int + m % 10 == '0' as int + n % 10;
    if m >= 10 || n >= 10 {
      assert |s| > 1;
      assert s[..|s| - 1] == Digits(m / 10) == Digits(n / 10);
      DigitsInjective(m / 10, n / 10);
    }
  }

  lemma DecimalInjective(m: int, n: int)
    requires Decimal(m) == Decimal(n)
    ensures m == n
  {
    if m >= 0 { DigitsOnly(m); } else { DigitsOnly(-m); assert Decimal(m)[1..] == Digits(-m); }
    if n >= 0 { DigitsOnly(n); } else { DigitsOnly(-n); assert Decimal(n)[1..] == Digits(-n); }
    if m >= 0 && n >= 0 { DigitsInjective(m, n); }
    if m < 0 && n < 0 { DigitsInjective(-m, -n); }
    assert Decimal(m)[0] == Decimal(n)[0];
  }

  lemma StatusHasNoLowerCase(mark: Mark)
    ensures NoLowerCase(StatusText(mark)) && StatusText(mark) != ""
  {
    if mark.Retrying? {
      var n := if mark.attempt < 0 then -mark.attempt else mark.attempt;
      DigitsOnly(n);
    }
  }

  lemma StatusInjective(a: Mark, b: Mark)
    requires StatusText(a) == StatusText(b)
    ensures a == b
  {
    var s := StatusText(a);
    if a.Retrying? || b.Retrying? {
      assert a.Retrying? ==> s[..16] == "DEPLOY_RETRYING:";
      assert b.Retrying? ==> s[..16] == "DEPLOY_RETRYING:";
      assert |s| >= 16;
      assert a.Retrying? && b.Retrying?;
      assert s[16..] == Decimal(a.attempt) == Decimal(b.attempt);
      DecimalInjective(a.attempt, b.attempt);
    } else {
      assert s[0] == StatusText(b)[0];
    }
  }

  /** The hashed text determines deployment and status, even for identifiers that contain the infix themselves. */
  lemma IdentityDecodable(id: string, a: Mark, id': string, b: Mark)
    ensures IdentityText(id, a) == IdentityText(id', b) <==> id == id' && a == b
  {
    if IdentityText(id, a) == IdentityText(id', b) {
      var s, t := StatusText(a), StatusText(b);
      StatusHasNoLowerCase(a);
      StatusHasNoLowerCase(b);
      SuffixLengthsAgree(id, s, id', t);
      var text := IdentityText(id, a);
      assert text[|text| - |s|..] == s && text[|text| - |t|..] == t;
      assert text[..|id|] == id && text[..|id'|] == id';
      StatusInjective(a, b);
    }
  }

  lemma SuffixLengthsAgree(id: string, s: string, id': string, t: string)
    requires NoLowerCase(s) && NoLowerCase(t)
    requires id + STAGE_INFIX + s == id' + STAGE_INFIX + t
    ensures |s| == |t|
  {
    SuffixNotLonger(id, s, id', t);
    SuffixNotLonger(id', t, id, s);
  }

  /** The infix ends in a lower-case letter and a colon, which a longer status cannot cover. */
  lemma SuffixNotLonger(id: string, s: string, id': string, t: string)
    requires NoLowerCase(t) && id + STAGE_INFIX + s == id' + STAGE_INFIX + t
    ensures |t| <= |s|
  {
    var text, other := id + STAGE_INFIX + s, id' + STAGE_INFIX + t;
    assert text[|id| + 13] == STAGE_INFIX[13] == 'n';
    assert other[|id'| + 14] == STAGE_INFIX[14] == ':';
    forall i | |id'| + 15 <= i < |text| ensures !('a' <= text[i] <= 'z') {
      assert other[i] == t[i - |id'| - 15];
    }
  }
}
