/** What a deploy wants the cluster to hold (reconciler.go, names.go), and what that says of one deploy after another. */
module Desired {
  import opened Wrappers
  import opened Names
  import opened Events
  import opened Requests
  import opened PortEnv
  import opened Cluster
  import opened Ownership

  /** `resources` is what the quantities parse to, if they do. */
  datatype ReconcilerConfig = ReconcilerConfig(
    names: NameConfig, replicas: int, pullSecretName: string, registry: Registry, resources: Option<Resources>,
    ingressClass: string)

  const HTTP_PORT := 80

  function LabelsFor(request: DeployRequest): Labels {
    map[ManagedBy := MANAGER, DeploymentId := request.deploymentId, ProjectId := request.projectId,
        ProjectSlug := Normalize(request.projectSlug, "project"), ServiceId := request.serviceId,
        ServiceSlug := Normalize(request.serviceSlug, "service")]
  }

  function SelectorOf(request: DeployRequest): Labels {
    map[ServiceId := request.serviceId]
  }

  function NamespaceFor(labels: Labels): Object {
    Object(map[ManagedBy := LabelAt(labels, ManagedBy), ProjectId := LabelAt(labels, ProjectId)], 0, false, NamespaceSpec)
  }

  function DeploymentFor(cfg: ReconcilerConfig, request: DeployRequest, target: DeploymentTarget, labels: Labels,
                         pullSecret: string, resources: Resources): Object
  {
    var port := target.containerPort;
    var container := Container(target.deploymentName, request.imageTag, port, port, port,
                               PortEnvOf(request.environment, port), resources);
    Object(labels, 0, false,
           DeploymentSpec(SelectorOf(request), cfg.replicas, labels, container,
                          if pullSecret != "" then Some(pullSecret) else None))
  }

  function ServiceFor(target: DeploymentTarget, labels: Labels): Object {
    Object(labels, 0, false,
           ServiceSpec(map[ServiceId := LabelAt(labels, ServiceId)], HTTP_PORT, target.containerPort, NO_ADDRESS))
  }

  function IngressFor(cfg: ReconcilerConfig, target: DeploymentTarget, labels: Labels): Object {
    Object(labels, 0, false,
           IngressSpec(if TrimSpace(cfg.ingressClass) == "" then None else Some(cfg.ingressClass), target.ingressHost,
                       target.serviceName, HTTP_PORT,
                       if cfg.names.tlsSecretName != "" then Some(cfg.names.tlsSecretName) else None))
  }

  /** `registryCredentialsConfigured`; `None` is its error, for credentials that are set in part. */
  function RegistryConfigured(r: Registry): Option<bool> {
    if TrimSpace(r.host) == "" && TrimSpace(r.username) == "" && r.password == "" then Some(false)
    else if TrimSpace(r.host) == "" || TrimSpace(r.username) == "" || r.password == "" then None
    else Some(true)
  }

  /** The pull secret in use, blank if there is none. */
  function PullSecret(cfg: ReconcilerConfig): string {
    if RegistryConfigured(cfg.registry) == Some(true) then cfg.pullSecretName else ""
  }

  /** Credentials: set as a whole, not at all, or in part, which is an error. Spaces do not count for host and user. */
  lemma RegistryMeans(r: Registry)
    ensures var host, user, password := TrimSpace(r.host) != "", TrimSpace(r.username) != "", r.password != "";
            && (RegistryConfigured(r) == Some(true) <==> host && user && password)
            && (RegistryConfigured(r) == Some(false) <==> !host && !user && !password)
  {
  }

  function SecretKey(cfg: ReconcilerConfig, target: DeploymentTarget): Key {
    Key(SecretKind, target.ns, cfg.pullSecretName)
  }

  function DeploymentKey(target: DeploymentTarget): Key {
    Key(DeploymentKind, target.ns, target.deploymentName)
  }

  function ServiceKey(target: DeploymentTarget): Key {
    Key(ServiceKind, target.ns, target.serviceName)
  }

  function IngressKey(target: DeploymentTarget): Key {
    Key(IngressKind, target.ns, target.ingressName)
  }

  /** What a deploy may write in its namespace. */
  function ObjectKeys(cfg: ReconcilerConfig, target: DeploymentTarget): set<Key> {
    {SecretKey(cfg, target), DeploymentKey(target), ServiceKey(target), IngressKey(target)}
  }

  /** All that a deploy may write. */
  function DeployKeys(cfg: ReconcilerConfig, target: DeploymentTarget): set<Key> {
    {NamespaceKey(target.ns)} + ObjectKeys(cfg, target)
  }

  // ---- What can stand in the way ----

  /** `checkNamespaceOwnership`. */
  predicate OwnNamespace(namespace: Object, labels: Labels) {
    && LabelAt(namespace.labels, ManagedBy) == LabelAt(labels, ManagedBy)
    && LabelAt(namespace.labels, ProjectId) == LabelAt(labels, ProjectId)
  }

  /** The namespace is not somebody else's. */
  predicate Unclaimed(project: string, s: Store, ns: string) {
    var k := NamespaceKey(ns);
    k !in s.objects || Going(s, k) || OwnLabels(project, s.objects[k].labels)
  }

  /** The credentials are set as a whole or not at all, and no secret of another type has the name. */
  predicate SecretCanBe(cfg: ReconcilerConfig, target: DeploymentTarget, s: Store) {
    var k := SecretKey(cfg, target);
    cfg.pullSecretName != "" ==>
      match RegistryConfigured(cfg.registry)
      case None => false
      case Some(configured) =>
        configured && k in s.objects && !Going(s, k) && s.objects[k].spec.SecretSpec? ==> s.objects[k].spec.secretType.DockerConfig?
  }

  /** What a deploy needs of its settings and of the cluster. */
  predicate CanDeploy(cfg: ReconcilerConfig, request: DeployRequest, s: Store) {
    match TargetForRequest(cfg.names, request)
    case None => false
    case Some(target) => Unclaimed(request.projectId, s, target.ns) && SecretCanBe(cfg, target, s) && cfg.resources.Some?
  }

  // ---- One object brought to what is wanted ----

  /** From `s` to `t` the object at `k`, unless it was about to go away, has come to be as wanted, and to stay; a service
      that existed keeps what the server allotted to it. */
  predicate Settled(s: Store, t: Store, k: Key, want: Object) {
    !Going(s, k) ==>
      && k in t.objects && Wish(t.objects[k]) == want && !t.objects[k].terminating
      && (k in s.objects ==> AddressOf(t.objects[k]) == AddressOf(s.objects[k]))
  }

  lemma HeldKeeps(s: Store, t: Store, k: Key)
    requires Held(s, t, k)
    ensures k in t.objects ==>
              && k in s.objects && Wish(t.objects[k]) == Wish(s.objects[k]) && t.objects[k].terminating == s.objects[k].terminating
              && AddressOf(t.objects[k]) == AddressOf(s.objects[k]) && t.objects[k].labels == s.objects[k].labels
              && t.objects[k].spec == s.objects[k].spec
    ensures k in s.objects && !Going(s, k) ==> k in t.objects
    ensures Going(t, k) ==> Going(s, k)
  {
    if k in t.objects { assert At(t, k) == At(s, k); }
  }

  lemma SettledAround(s0: Store, s1: Store, s2: Store, s3: Store, k: Key, want: Object)
    requires Held(s0, s1, k) && Settled(s1, s2, k, want) && Held(s2, s3, k)
    ensures Settled(s0, s3, k, want)
  {
    HeldKeeps(s0, s1, k);
    HeldKeeps(s2, s3, k);
  }

  // ---- What a successful deploy leaves ----

  /** The namespace is the project's; it was created, or is as it was. */
  predicate NamespaceDone(project: string, ns: string, s: Store, t: Store) {
    !Going(s, NamespaceKey(ns)) ==>
      && NamespaceKey(ns) in t.objects && OwnLabels(project, t.objects[NamespaceKey(ns)].labels)
      && (NamespaceKey(ns) in s.objects ==> Held(s, t, NamespaceKey(ns)))
      && (NamespaceKey(ns) !in s.objects ==> t.objects[NamespaceKey(ns)].labels.Keys == {ManagedBy, ProjectId})
      && !t.objects[NamespaceKey(ns)].terminating
  }

  /** The pull secret, if one is in use, holds the credentials, and keeps its labels if it existed. */
  predicate SecretDone(cfg: ReconcilerConfig, target: DeploymentTarget, s: Store, t: Store) {
    var k := SecretKey(cfg, target);
    if PullSecret(cfg) == "" then Held(s, t, k)
    else
      !Going(s, k) ==>
        && k in t.objects && !t.objects[k].terminating && t.objects[k].spec == SecretSpec(DockerConfig, cfg.registry)
        && (t.objects[k].labels == if k in s.objects then s.objects[k].labels else map[])
  }

  /** The objects in the namespace have come to be as wanted. */
  ghost predicate Furnished(cfg: ReconcilerConfig, request: DeployRequest, target: DeploymentTarget, labels: Labels, s: Store, t: Store) {
    && cfg.resources.Some? && SecretDone(cfg, target, s, t)
    && Settled(s, t, DeploymentKey(target), DeploymentFor(cfg, request, target, labels, PullSecret(cfg), cfg.resources.value))
    && Settled(s, t, ServiceKey(target), ServiceFor(target, labels))
    && Settled(s, t, IngressKey(target), IngressFor(cfg, target, labels))
  }

  /** From `s` to `t`, a deploy of `request` to `target` that reported success and that nobody interfered with. */
  ghost predicate Deployed(cfg: ReconcilerConfig, request: DeployRequest, target: DeploymentTarget, s: Store, t: Store) {
    && NamespaceDone(request.projectId, target.ns, s, t)
    && Furnished(cfg, request, target, LabelsFor(request), s, t)
    && Framed(s, t, DeployKeys(cfg, target))
  }

  // ---- The steps of a deploy make up a whole one ----

  /** A namespace that exists and is to stay. */
  predicate Standing(s: Store, ns: string) {
    NamespaceKey(ns) in s.objects && !Going(s, NamespaceKey(ns))
  }

  /** A change to another object leaves the deployment at work. */
  lemma StillServes(request: DeployRequest, target: DeploymentTarget, s: Store, t: Store, k: Key)
    requires Framed(s, t, {k}) && !k.kind.DeploymentKind?
    ensures Serves(s, DeploymentKey(target), SelectorOf(request)) ==> Serves(t, DeploymentKey(target), SelectorOf(request))
  {
    StillServing(s, t, DeploymentKey(target), SelectorOf(request));
  }

  /** A step within some of the keys is one within all of them; it leaves the namespace standing, and the deployment at
      work unless that is its object. */
  lemma OneMore(cfg: ReconcilerConfig, request: DeployRequest, target: DeploymentTarget, s1: Store, s: Store, t: Store, keys: set<Key>)
    requires Framed(s1, s, ObjectKeys(cfg, target)) && Framed(s, t, keys) && keys <= ObjectKeys(cfg, target)
    ensures Framed(s1, t, ObjectKeys(cfg, target))
    ensures Standing(s, target.ns) ==> Standing(t, target.ns)
    ensures DeploymentKey(target) !in keys && Serves(s, DeploymentKey(target), SelectorOf(request)) ==>
              Serves(t, DeploymentKey(target), SelectorOf(request))
  {
    FramedTransitive(s1, s, t, ObjectKeys(cfg, target), keys);
    assert ObjectKeys(cfg, target) + keys == ObjectKeys(cfg, target);
    HeldKeeps(s, t, NamespaceKey(target.ns));
    if DeploymentKey(target) !in keys { StillServing(s, t, DeploymentKey(target), SelectorOf(request)); }
  }

  lemma TrafficStep(target: DeploymentTarget, s3: Store, s4: Store)
    requires Framed(s3, s4, {ServiceKey(target)})
    ensures Framed(s3, s4, {ServiceKey(target), IngressKey(target)})
    ensures Standing(s3, target.ns) ==> Standing(s4, target.ns)
  {
    HeldKeeps(s3, s4, NamespaceKey(target.ns));
  }

  lemma TrafficSteps(target: DeploymentTarget, s3: Store, s4: Store, s5: Store)
    requires Framed(s3, s4, {ServiceKey(target)}) && Framed(s4, s5, {IngressKey(target)})
    ensures Framed(s3, s5, {ServiceKey(target), IngressKey(target)})
    ensures Held(s3, s4, IngressKey(target)) && Held(s4, s5, ServiceKey(target))
  {
    FramedTransitive(s3, s4, s5, {ServiceKey(target)}, {IngressKey(target)});
  }

  lemma StepsFurnish(cfg: ReconcilerConfig, request: DeployRequest, target: DeploymentTarget, labels: Labels,
                     s1: Store, s2: Store, s3: Store, s5: Store)
    requires Framed(s1, s2, {SecretKey(cfg, target)}) && SecretDone(cfg, target, s1, s2)
    requires Framed(s2, s3, {DeploymentKey(target)}) && cfg.resources.Some?
    requires Settled(s2, s3, DeploymentKey(target), DeploymentFor(cfg, request, target, labels, PullSecret(cfg), cfg.resources.value))
    requires Framed(s3, s5, {ServiceKey(target), IngressKey(target)})
    requires Settled(s3, s5, ServiceKey(target), ServiceFor(target, labels))
    requires Settled(s3, s5, IngressKey(target), IngressFor(cfg, target, labels))
    ensures Furnished(cfg, request, target, labels, s1, s5)
  {
    FramedTransitive(s1, s2, s3, {SecretKey(cfg, target)}, {DeploymentKey(target)});
    FramedTransitive(s2, s3, s5, {DeploymentKey(target)}, {ServiceKey(target), IngressKey(target)});
    SettledAround(s1, s2, s3, s5, DeploymentKey(target), DeploymentFor(cfg, request, target, labels, PullSecret(cfg), cfg.resources.value));
    SettledAround(s1, s3, s5, s5, ServiceKey(target), ServiceFor(target, labels));
    SettledAround(s1, s3, s5, s5, IngressKey(target), IngressFor(cfg, target, labels));
    SecretAround(cfg, target, s1, s1, s2, s5);
  }

  lemma NamespaceOnly(cfg: ReconcilerConfig, target: DeploymentTarget, s0: Store, s1: Store)
    requires Framed(s0, s1, {NamespaceKey(target.ns)})
    ensures Framed(s0, s1, DeployKeys(cfg, target))
    ensures SecretCanBe(cfg, target, s0) <==> SecretCanBe(cfg, target, s1)
  {
    HeldKeeps(s0, s1, SecretKey(cfg, target));
  }

  lemma ThenObjects(cfg: ReconcilerConfig, target: DeploymentTarget, s0: Store, s1: Store, s5: Store)
    requires Framed(s0, s1, {NamespaceKey(target.ns)}) && Framed(s1, s5, ObjectKeys(cfg, target))
    ensures Framed(s0, s5, DeployKeys(cfg, target)) && Held(s1, s5, NamespaceKey(target.ns))
  {
    FramedTransitive(s0, s1, s5, {NamespaceKey(target.ns)}, ObjectKeys(cfg, target));
  }

  lemma LabelsAreOwn(request: DeployRequest)
    ensures OwnLabels(request.projectId, LabelsFor(request))
  {
  }

  lemma FurnishedFrom(cfg: ReconcilerConfig, request: DeployRequest, target: DeploymentTarget, labels: Labels, s0: Store, s1: Store, s5: Store)
    requires Framed(s0, s1, {NamespaceKey(target.ns)}) && Furnished(cfg, request, target, labels, s1, s5)
    ensures Furnished(cfg, request, target, labels, s0, s5)
  {
    SettledAround(s0, s1, s5, s5, DeploymentKey(target), DeploymentFor(cfg, request, target, labels, PullSecret(cfg), cfg.resources.value));
    SettledAround(s0, s1, s5, s5, ServiceKey(target), ServiceFor(target, labels));
    SettledAround(s0, s1, s5, s5, IngressKey(target), IngressFor(cfg, target, labels));
    SecretAround(cfg, target, s0, s1, s5, s5);
  }

  lemma NamespaceAround(project: string, ns: string, s0: Store, s1: Store, s5: Store)
    requires NamespaceDone(project, ns, s0, s1) && Held(s1, s5, NamespaceKey(ns))
    ensures NamespaceDone(project, ns, s0, s5)
  {
    HeldKeeps(s1, s5, NamespaceKey(ns));
  }

  lemma SecretAround(cfg: ReconcilerConfig, target: DeploymentTarget, s0: Store, s1: Store, s2: Store, s5: Store)
    requires Held(s0, s1, SecretKey(cfg, target)) && SecretDone(cfg, target, s1, s2) && Held(s2, s5, SecretKey(cfg, target))
    ensures SecretDone(cfg, target, s0, s5)
  {
    HeldKeeps(s0, s1, SecretKey(cfg, target));
    HeldKeeps(s2, s5, SecretKey(cfg, target));
  }

  // ---- What it leaves ----

  predicate Carries(labels: Labels, selector: Labels) {
    forall k :: k in selector ==> k in labels && labels[k] == selector[k]
  }

  /** A pull secret is in use: a name is set for it, and host, user and password of a registry. */
  predicate PullsWithSecret(cfg: ReconcilerConfig) {
    cfg.pullSecretName != "" && TrimSpace(cfg.registry.host) != "" && TrimSpace(cfg.registry.username) != "" && cfg.registry.password != ""
  }

  /** Deployment, service and ingress are of one piece: the deployment selects, by the selector of the service, pods that
      carry it; traffic goes from the ingress through the service's port to the one port the container listens on, is
      probed on, and is told of. */
  ghost predicate Coherent(request: DeployRequest, target: DeploymentTarget, d: Object, v: Object, i: Object) {
    && d.spec.DeploymentSpec? && v.spec.ServiceSpec? && i.spec.IngressSpec?
    && d.spec.selector == v.spec.podSelector == map[ServiceId := request.serviceId] && Carries(d.spec.podLabels, d.spec.selector)
    && d.spec.container.image == request.imageTag && d.spec.container.name == target.deploymentName
    && target.containerPort == d.spec.container.port == d.spec.container.readinessPort == d.spec.container.startupPort == v.spec.targetPort
    && (forall name :: Reserved(name) ==> Lookup(d.spec.container.env, name) == Some(Decimal(v.spec.targetPort)))
    && (forall name :: !Reserved(name) ==> Lookup(d.spec.container.env, name) == Lookup(request.environment, name))
    && i.spec.backend == target.serviceName && i.spec.backendPort == v.spec.port == 80 && i.spec.host == target.ingressHost
  }

  /** All three, and the pods, carry the labels of the request. */
  predicate CarriesLabels(request: DeployRequest, labels: Labels) {
    && LabelAt(labels, ManagedBy) == "orchestration-service"
    && LabelAt(labels, ProjectId) == request.projectId && LabelAt(labels, ServiceId) == request.serviceId
    && LabelAt(labels, DeploymentId) == request.deploymentId
    && LabelAt(labels, ProjectSlug) == Normalize(request.projectSlug, "project")
    && LabelAt(labels, ServiceSlug) == Normalize(request.serviceSlug, "service")
  }

  /** They are as the settings say: replicas, resources and pull secret of the deployment, class and certificate of the
      ingress. */
  predicate Configured(cfg: ReconcilerConfig, d: Object, i: Object) {
    && d.spec.DeploymentSpec? && i.spec.IngressSpec?
    && d.spec.replicas == cfg.replicas && cfg.resources == Some(d.spec.container.resources)
    && d.spec.pullSecret == (if PullsWithSecret(cfg) then Some(cfg.pullSecretName) else None)
    && i.spec.className == (if TrimSpace(cfg.ingressClass) != "" then Some(cfg.ingressClass) else None)
    && i.spec.tls == (if cfg.names.tlsSecretName != "" then Some(cfg.names.tlsSecretName) else None)
  }

  /** Everything a reader of the three objects can ask of them. */
  ghost predicate WellMade(cfg: ReconcilerConfig, request: DeployRequest, target: DeploymentTarget, d: Object, v: Object, i: Object) {
    && Coherent(request, target, d, v, i) && Configured(cfg, d, i)
    && CarriesLabels(request, d.labels) && CarriesLabels(request, d.spec.podLabels) && CarriesLabels(request, v.labels) && CarriesLabels(request, i.labels)
  }

  lemma WantedIsWellMade(cfg: ReconcilerConfig, request: DeployRequest, target: DeploymentTarget)
    requires cfg.resources.Some?
    ensures var labels := LabelsFor(request);
            WellMade(cfg, request, target, DeploymentFor(cfg, request, target, labels, PullSecret(cfg), cfg.resources.value),
                     ServiceFor(target, labels), IngressFor(cfg, target, labels))
  {
    var d := DeploymentFor(cfg, request, target, LabelsFor(request), PullSecret(cfg), cfg.resources.value);
    RegistryMeans(cfg.registry);
    forall name
      ensures Lookup(d.spec.container.env, name) ==
              if Reserved(name) then Some(Decimal(target.containerPort)) else Lookup(request.environment, name)
    {
      LookupAgrees(request.environment, target.containerPort, name);
    }
  }

  lemma WellMadeByWish(cfg: ReconcilerConfig, request: DeployRequest, target: DeploymentTarget,
                       d: Object, v: Object, i: Object, d': Object, v': Object, i': Object)
    requires WellMade(cfg, request, target, d, v, i) && Wish(d') == d && Wish(v') == v && Wish(i') == i
    ensures WellMade(cfg, request, target, d', v', i')
  {
    assert Wish(d').spec == d'.spec && Wish(i').spec == i'.spec;
  }

  /** A successful deploy leaves its three objects of one piece, as the settings say, and under the labels of the request; and
      if a pull secret is in use, the secret of that name holds the credentials. */
  lemma DeployedIsCoherent(cfg: ReconcilerConfig, request: DeployRequest, target: DeploymentTarget, s: Store, t: Store)
    requires Deployed(cfg, request, target, s, t)
    requires !Going(s, DeploymentKey(target)) && !Going(s, ServiceKey(target)) && !Going(s, IngressKey(target))
    ensures DeploymentKey(target) in t.objects && ServiceKey(target) in t.objects && IngressKey(target) in t.objects
    ensures WellMade(cfg, request, target,
                     t.objects[DeploymentKey(target)], t.objects[ServiceKey(target)], t.objects[IngressKey(target)])
    ensures var k := Key(SecretKind, target.ns, cfg.pullSecretName);
            PullsWithSecret(cfg) && !Going(s, k) ==> k in t.objects && t.objects[k].spec == SecretSpec(DockerConfig, cfg.registry)
  {
    var labels := LabelsFor(request);
    WantedIsWellMade(cfg, request, target);
    RegistryMeans(cfg.registry);
    WellMadeByWish(cfg, request, target,
                   DeploymentFor(cfg, request, target, labels, PullSecret(cfg), cfg.resources.value), ServiceFor(target, labels),
                   IngressFor(cfg, target, labels),
                   t.objects[DeploymentKey(target)], t.objects[ServiceKey(target)], t.objects[IngressKey(target)]);
  }

  /** What stands in the way of a deploy, said in full. */
  lemma CanDeployMeans(cfg: ReconcilerConfig, request: DeployRequest, target: DeploymentTarget, s: Store)
    requires TargetForRequest(cfg.names, request) == Some(target) && WellFormed(s)
    ensures var nk, sk := Key(NamespaceKind, "", target.ns), Key(SecretKind, target.ns, cfg.pullSecretName);
            var host, user, password := TrimSpace(cfg.registry.host) != "", TrimSpace(cfg.registry.username) != "", cfg.registry.password != "";
            CanDeploy(cfg, request, s) <==>
            && (nk in s.objects && !s.objects[nk].terminating ==>
                  && LabelAt(s.objects[nk].labels, ManagedBy) == "orchestration-service"
                  && LabelAt(s.objects[nk].labels, ProjectId) == request.projectId)
            && (cfg.pullSecretName != "" ==>
                  && ((host && user && password) || (!host && !user && !password))
                  && (host && sk in s.objects && !s.objects[sk].terminating ==> s.objects[sk].spec.secretType.DockerConfig?))
            && cfg.resources.Some?
  {
    RegistryMeans(cfg.registry);
  }

  // ---- A second deploy ----

  lemma SecondSettles(s0: Store, s1: Store, s2: Store, k: Key, want: Object)
    requires Settled(s0, s1, k, want) && Settled(s1, s2, k, want) && !Going(s0, k)
    ensures Held(s1, s2, k)
  {
    SameWishSameObject(s1.objects[k], s2.objects[k]);
  }

  lemma SameWishSameObject(a: Object, b: Object)
    requires Wish(a) == Wish(b) && AddressOf(a) == AddressOf(b) && !a.terminating && !b.terminating
    ensures a.(version := 0) == b.(version := 0)
  {
  }

  lemma SecondSecret(cfg: ReconcilerConfig, target: DeploymentTarget, s0: Store, s1: Store, s2: Store)
    requires SecretDone(cfg, target, s0, s1) && SecretDone(cfg, target, s1, s2) && !Going(s0, SecretKey(cfg, target))
    ensures Held(s1, s2, SecretKey(cfg, target))
  {
  }

  lemma SecondNamespace(project: string, ns: string, s0: Store, s1: Store, s2: Store)
    requires NamespaceDone(project, ns, s0, s1) && NamespaceDone(project, ns, s1, s2) && !Going(s0, NamespaceKey(ns))
    ensures Held(s1, s2, NamespaceKey(ns))
  {
  }

  lemma SecondWorkloads(cfg: ReconcilerConfig, request: DeployRequest, target: DeploymentTarget, s0: Store, s1: Store, s2: Store)
    requires Deployed(cfg, request, target, s0, s1) && Deployed(cfg, request, target, s1, s2)
    ensures !Going(s0, DeploymentKey(target)) ==> Held(s1, s2, DeploymentKey(target))
    ensures !Going(s0, ServiceKey(target)) ==> Held(s1, s2, ServiceKey(target))
    ensures !Going(s0, IngressKey(target)) ==> Held(s1, s2, IngressKey(target))
  {
    var labels := LabelsFor(request);
    var d, v, i := DeploymentFor(cfg, request, target, labels, PullSecret(cfg), cfg.resources.value), ServiceFor(target, labels), IngressFor(cfg, target, labels);
    if !Going(s0, DeploymentKey(target)) { SecondSettles(s0, s1, s2, DeploymentKey(target), d); }
    if !Going(s0, ServiceKey(target)) { SecondSettles(s0, s1, s2, ServiceKey(target), v); }
    if !Going(s0, IngressKey(target)) { SecondSettles(s0, s1, s2, IngressKey(target), i); }
  }

  /** Five keys held, and the frame, are all keys held. */
  lemma HeldEverywhere(cfg: ReconcilerConfig, target: DeploymentTarget, s0: Store, s1: Store, s2: Store, k: Key)
    requires Framed(s1, s2, DeployKeys(cfg, target))
    requires k in DeployKeys(cfg, target) ==> !Going(s0, k)
    requires !Going(s0, NamespaceKey(target.ns)) ==> Held(s1, s2, NamespaceKey(target.ns))
    requires !Going(s0, SecretKey(cfg, target)) ==> Held(s1, s2, SecretKey(cfg, target))
    requires !Going(s0, DeploymentKey(target)) ==> Held(s1, s2, DeploymentKey(target))
    requires !Going(s0, ServiceKey(target)) ==> Held(s1, s2, ServiceKey(target))
    requires !Going(s0, IngressKey(target)) ==> Held(s1, s2, IngressKey(target))
    ensures Held(s1, s2, k)
  {
  }

  /** A second successful deploy of the same request changes nothing but versions: neither its own objects, unless they
      were about to go away when the first one began, nor any other. */
  lemma SecondDeployChangesNothing(cfg: ReconcilerConfig, request: DeployRequest, target: DeploymentTarget,
                                   s0: Store, s1: Store, s2: Store, k: Key)
    requires Deployed(cfg, request, target, s0, s1) && Deployed(cfg, request, target, s1, s2)
    requires k in DeployKeys(cfg, target) ==> !Going(s0, k)
    ensures Held(s1, s2, k)
  {
    SecondWorkloads(cfg, request, target, s0, s1, s2);
    if !Going(s0, NamespaceKey(target.ns)) { SecondNamespace(request.projectId, target.ns, s0, s1, s2); }
    if !Going(s0, SecretKey(cfg, target)) { SecondSecret(cfg, target, s0, s1, s2); }
    HeldEverywhere(cfg, target, s0, s1, s2, k);
  }
}
