/** The deploy request a build event turns into (names.go). */
module Requests {
  import opened Wrappers
  import opened Errors
  import opened Events
  import opened Names

  datatype EnvVar = EnvVar(name: string, value: string)

  datatype DeployRequest = DeployRequest(
    projectId: string, serviceId: string, serviceName: string, userId: string, deploymentId: string,
    imageTag: string, commitSha: string, environment: seq<EnvVar>,
    projectSlug: string, serviceSlug: string, containerPort: int)

  const DEFAULT_APP_PORT := 3000

  function FirstNonEmpty(a: string, b: string): string {
    if TrimSpace(a) != "" then a else if TrimSpace(b) != "" then b else ""
  }

  function RequestFor(defaultPort: int, event: BuildEvent): DeployRequest {
    DeployRequest(
      event.projectId, event.serviceId, FirstNonEmpty(event.serviceName, event.serviceId), event.userId,
      event.deploymentId, TrimSpace(event.imageTag), TrimSpace(event.commitSha), [],
      FirstNonEmpty(event.projectSlug, event.projectId), FirstNonEmpty(event.serviceSlug, event.serviceId),
      if defaultPort <= 0 then DEFAULT_APP_PORT else defaultPort)
  }

  function TargetForRequest(cfg: NameConfig, request: DeployRequest): Option<DeploymentTarget> {
    TargetFor(cfg, request.projectSlug, request.serviceSlug, request.containerPort)
  }

  /** The checks `handleMessage` makes before its first external call, in its order. */
  datatype Admission = Refused(error: Error) | Admitted(request: DeployRequest, target: DeploymentTarget)

  function AdmitEvent(cfg: NameConfig, defaultPort: int, event: BuildEvent): Admission {
    if TrimSpace(event.deploymentId) == "" then Refused(Plain(MissingDeploymentId))
    else
      var request := RequestFor(defaultPort, event);
      match TargetForRequest(cfg, request)
      case None => Refused(Plain(MissingBaseDomain))
      case Some(target) =>
        if TrimSpace(request.imageTag) == "" then Refused(Plain(MissingImageTag)) else Admitted(request, target)
  }

  lemma {:induction false} TrimLeftSplits(s: string, cut: char -> bool) returns (k: nat)
    ensures k <= |s| && TrimLeft(s, cut) == s[k..] && (forall i :: 0 <= i < k ==> cut(s[i])) && (k < |s| ==> !cut(s[k]))
  {
    if s == "" || !cut(s[0]) {
      k := 0;
    } else {
      var rest := s[1..];
      var n := TrimLeftSplits(rest, cut);
      k := n + 1;
      assert rest[n..] == s[k..];
      assert forall i :: 0 < i < k ==> s[i] == rest[i - 1];
    }
  }

  lemma {:induction false} TrimRightKeepsHead(s: string, cut: char -> bool)
    ensures s != "" && !cut(s[0]) ==> TrimRight(s, cut) != "" && TrimRight(s, cut)[0] == s[0]
    ensures |TrimRight(s, cut)| <= |s|
    ensures TrimRight(s, cut) != "" ==> !cut(TrimRight(s, cut)[|TrimRight(s, cut)| - 1])
  {
    if s != "" && cut(s[|s| - 1]) { TrimRightKeepsHead(s[..|s| - 1], cut); }
  }

  /** Trimming leaves nothing exactly when every character is cut, and is done for good after one pass. */
  lemma TrimIsBlank(s: string, cut: char -> bool)
    ensures Trim(s, cut) == "" <==> forall i :: 0 <= i < |s| ==> cut(s[i])
    ensures Trim(Trim(s, cut), cut) == Trim(s, cut)
  {
    var k := TrimLeftSplits(s, cut);
    var left := TrimLeft(s, cut);
    TrimRightKeepsHead(left, cut);
    if left != "" {
      assert left[0] == s[k] && !cut(s[k]);
    }
  }

  /** The text has a character that is no space. */
  predicate HasText(s: string) {
    exists i :: 0 <= i < |s| && !Space(s[i])
  }

  /** The first of two texts that says anything; blank if neither does. */
  function Either(a: string, b: string): string {
    if HasText(a) then a else if HasText(b) then b else ""
  }

  /** An event is admitted exactly when its deployment id and image tag are not blank and a base domain is set; what is
      missing first is the reason of a refusal. The request of an admitted event carries its ids as they are, its tag and
      commit trimmed, its slugs or else its ids, and the configured port or else 3000; and its target is named by just these
      slugs: the namespace by the project's, the resources by the service's, and the host by both. */
  lemma AdmittedExactly(cfg: NameConfig, defaultPort: int, event: BuildEvent)
    ensures AdmitEvent(cfg, defaultPort, event).Admitted? <==>
            HasText(event.deploymentId) && HasText(event.imageTag) && CleanDomain(cfg.baseDomain) != ""
    ensures match AdmitEvent(cfg, defaultPort, event)
            case Refused(reason) =>
              reason == Plain(if !HasText(event.deploymentId) then MissingDeploymentId
                              else if CleanDomain(cfg.baseDomain) == "" then MissingBaseDomain else MissingImageTag)
            case Admitted(request, target) =>
              && request.projectId == event.projectId && request.serviceId == event.serviceId
              && request.userId == event.userId && request.deploymentId == event.deploymentId
              && request.imageTag == TrimSpace(event.imageTag) && request.commitSha == TrimSpace(event.commitSha)
              && request.serviceName == Either(event.serviceName, event.serviceId)
              && request.projectSlug == Either(event.projectSlug, event.projectId)
              && request.serviceSlug == Either(event.serviceSlug, event.serviceId)
              && request.containerPort == (if defaultPort > 0 then defaultPort else 3000) && request.environment == []
              && NamedBy(cfg, target, request.projectSlug, request.serviceSlug, request.containerPort)
  {
    var request := RequestFor(defaultPort, event);
    BlankMeans(event.deploymentId);
    BlankMeans(event.imageTag);
    BlankMeans(event.serviceName);
    BlankMeans(event.serviceId);
    BlankMeans(event.projectSlug);
    BlankMeans(event.projectId);
    BlankMeans(event.serviceSlug);
    TargetIsNamedBy(cfg, request.projectSlug, request.serviceSlug, request.containerPort);
  }

  /** The target is named by these slugs. */
  predicate NamedBy(cfg: NameConfig, target: DeploymentTarget, projectSlug: string, serviceSlug: string, port: int) {
    && target.ns == BuildNamespaceName(cfg.namespacePrefix, projectSlug)
    && target.deploymentName == target.serviceName == target.ingressName == BuildResourceName("app", serviceSlug)
    && BuildIngressHost(serviceSlug, projectSlug, cfg.baseDomain) == Some(target.ingressHost)
    && target.containerPort == port && target.tlsEnabled == (cfg.tlsSecretName != "")
  }

  lemma TargetIsNamedBy(cfg: NameConfig, projectSlug: string, serviceSlug: string, port: int)
    ensures match TargetFor(cfg, projectSlug, serviceSlug, port)
            case None => CleanDomain(cfg.baseDomain) == ""
            case Some(target) => CleanDomain(cfg.baseDomain) != "" && NamedBy(cfg, target, projectSlug, serviceSlug, port)
  {
    TargetNamesAreCanonical(cfg, projectSlug, serviceSlug, port);
  }

  /** Trimming takes away exactly the spaces at either end. */
  lemma TrimSpaceSplits(s: string) returns (before: string, after: string)
    ensures s == before + TrimSpace(s) + after
    ensures (forall i :: 0 <= i < |before| ==> Space(before[i])) && (forall i :: 0 <= i < |after| ==> Space(after[i]))
    ensures TrimSpace(s) != "" ==> !Space(TrimSpace(s)[0]) && !Space(TrimSpace(s)[|TrimSpace(s)| - 1])
  {
    var cut := (c: char) => Space(c);
    var k := TrimLeftSplits(s, cut);
    var left := TrimLeft(s, cut);
    var n := TrimRightSplits(left, cut);
    before, after := s[..k], left[n..];
    assert s == s[..k] + s[k..] && left == left[..n] + left[n..];
    if TrimSpace(s) != "" { assert left[0] == s[k] && TrimSpace(s)[0] == left[0]; }
  }

  lemma {:induction false} TrimRightSplits(s: string, cut: char -> bool) returns (n: nat)
    ensures n <= |s| && TrimRight(s, cut) == s[..n] && (forall i :: n <= i < |s| ==> cut(s[i])) && (n > 0 ==> !cut(s[n - 1]))
    decreases |s|
  {
    if s == "" || !cut(s[|s| - 1]) {
      n := |s|;
    } else {
      n := TrimRightSplits(s[..|s| - 1], cut);
      assert s[..|s| - 1][..n] == s[..n];
    }
  }

  lemma BlankMeans(s: string)
    ensures TrimSpace(s) != "" <==> HasText(s)
    ensures TrimSpace(TrimSpace(s)) == TrimSpace(s)
  {
    TrimIsBlank(s, c => Space(c));
    TrimIsBlank(TrimSpace(s), c => Space(c));
  }
}
