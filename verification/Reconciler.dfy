/** `Deploy` and the methods it is made of (reconciler.go), request by request against a session with the cluster. */
module Reconciler {
  import opened Wrappers
  import opened Errors
  import opened Names
  import opened Requests
  import opened PortEnv
  import opened Cluster
  import opened Ownership
  import opened ApiServer
  import opened Desired
  import Delivery

  /** How often `retry.RetryOnConflict` tries. */
  const RETRY_STEPS := 5

  const GETTING_NAMESPACE := OtherNote("get namespace")
  const CREATING_NAMESPACE := OtherNote("create namespace")
  const AFTER_CREATE_RACE := OtherNote("get namespace after create race")
  const DELETING_DEPLOYMENT := OtherNote("delete deployment for selector change")
  const WAITING_FOR_DELETION := OtherNote("wait for deployment deletion")
  const ENSURING_NAMESPACE := OtherNote("ensure namespace")
  const ENSURING_SECRET := OtherNote("ensure registry pull secret")
  const ENSURING_DEPLOYMENT := OtherNote("ensure deployment")
  const ENSURING_SERVICE := OtherNote("ensure service")
  const ENSURING_INGRESS := OtherNote("ensure ingress")

  /** The session may go on: it was calm before if it is calm now, and only these keys have changed. */
  twostate predicate Continues(api: Session, keys: set<Key>)
    reads api
  {
    && api.Valid()
    && (api.calm ==> old(api.calm) && Framed(old(api.store), api.store, keys))
    && (old(api.calm) && api.Quiet() ==> api.calm)
    && (forall ns :: old(api.Knowing(ns)) ==> api.Knowing(ns))
  }

  /** A version conflict is the last word only after as many attempts as there are steps, each a read and an update. */
  twostate predicate TriedEnough(api: Session)
    reads api
  {
    && |old(api.trace)| <= |api.trace|
    && (api.failed == Some(Stale) ==> |old(api.trace)| + 2 * RETRY_STEPS <= |api.trace|)
  }

  /** What a failed request says for itself. */
  predicate Says(f: Failure, root: Error) {
    match f
    case Absent => root == Api(NotFound)
    case Exists => root == Api(AlreadyExists)
    case Stale => root == Api(Conflict)
    case SelectorFixed => root == Api(Invalid)
    case FieldFixed => root == Api(Invalid)
    case VersionGiven => root == Api(OtherReason)
    case Broken(error) => root == Root(error)
  }

  lemma FailuresSay(f: Failure)
    ensures Says(f, Root(ErrorOf(f)))
  {
  }

  /** A reason that no failed request gave: the settings; a namespace just read and found not to be the project's; or, while
      a deletion was waited for, what ended the wait. */
  ghost predicate OwnReason(cfg: ReconcilerConfig, api: Session, root: Error)
    reads api
  {
    || (root == Plain(MissingBaseDomain) && CleanDomain(cfg.names.baseDomain) == "")
    || (root == Plain(IncompleteCredentials) && cfg.pullSecretName != "" && RegistryConfigured(cfg.registry).None?)
    || (root == Plain(BadQuantity) && cfg.resources.None?)
    || (root == Ownership && SeesForeign(api.project, api.trace))
    || (root == WaitEnd(api.context, 0, api.patience) && JustRead(api.trace, DeploymentKind))
  }

  /** What ends a wait from tick `n` on: the context, once it is done, or the deadline. */
  function WaitEnd(context: nat -> Context, n: nat, patience: nat): Error
    requires n <= patience
    decreases patience - n
  {
    if context(n).PastDeadline? then DeadlineExceeded
    else if context(n).WasCanceled? then Canceled
    else if n == patience then Plain(DeletionTimedOut)
    else WaitEnd(context, n + 1, patience)
  }

  /** The wait ends by its context exactly if that is done at one of the looks, and then by how it is at the first. */
  lemma {:induction false} WaitEndMeans(context: nat -> Context, n: nat, patience: nat)
    requires n <= patience
    ensures var end := WaitEnd(context, n, patience);
            || (end == Plain(DeletionTimedOut) && forall k :: n <= k <= patience ==> context(k).Live?)
            || (exists k :: n <= k <= patience && (forall j :: n <= j < k ==> context(j).Live?)
                            && ((context(k).PastDeadline? && end == DeadlineExceeded) || (context(k).WasCanceled? && end == Canceled)))
    decreases patience - n
  {
    if context(n).Live? && n < patience { WaitEndMeans(context, n + 1, patience); }
  }

  predicate JustRead(trace: seq<Step>, kind: Kind) {
    trace != []
    && var last := trace[|trace| - 1]; last.request.Get? && last.request.key.kind == kind && last.answer.Found?
  }

  predicate SeesForeign(project: string, trace: seq<Step>) {
    JustRead(trace, NamespaceKind) && !OwnLabels(project, trace[|trace| - 1].answer.body.labels)
  }

  /** A deletion was waited for until the deadline of the context passed. */
  ghost predicate WaitedTooLong(api: Session)
    reads api
  {
    JustRead(api.trace, DeploymentKind) && WaitEnd(api.context, 0, api.patience) == DeadlineExceeded
  }

  /** An error is reported exactly of what went wrong last: that of the last request if it failed, and otherwise a reason of
      the method's own. A request that failed is never passed over. */
  ghost predicate Reports(cfg: ReconcilerConfig, api: Session, error: Option<Error>)
    reads api
  {
    match api.failed
    case Some(f) => error.Some? && Says(f, Root(error.value))
    case None => error.Some? ==> OwnReason(cfg, api, Root(error.value))
  }

  function ErrorOfAnswer(answer: Delivery.DeployAnswer): Option<Error> {
    match answer
    case Applied(_) => None
    case NotApplied(error) => Some(error)
  }

  /** What a report means for the worker: an error that a broken request caused is retried exactly if that request's own is;
      any other is retried only if a deadline passed while a deletion was waited for; and an ownership refusal is reported
      only of a namespace just read, or of a broken request that says so itself. */
  lemma ReportsDecideRetry(cfg: ReconcilerConfig, api: Session, error: Error)
    requires Reports(cfg, api, Some(error))
    ensures match api.failed
            case Some(Broken(e)) => Classes(error) == Classes(e) && Retriable(error) == Retriable(e)
            case _ =>
              && (Retriable(error) ==> api.failed.None? && WaitedTooLong(api))
              && (OwnershipRefusal in Classes(error) ==> api.failed.None? && SeesForeign(api.project, api.trace))
  {
    RootDecides(error);
    WaitEndMeans(api.context, 0, api.patience);
    match api.failed
    case Some(Broken(e)) => RootDecides(e);
    case _ =>
  }

  class KubernetesClient {
    const cfg: ReconcilerConfig
    const api: Session

    constructor (cfg: ReconcilerConfig, api: Session)
      ensures this.cfg == cfg && this.api == api
    {
      this.cfg, this.api := cfg, api;
    }

    /** `ensureNamespace`: refuses a namespace of somebody else's, also one that appears in a create race. */
    method EnsureNamespace(ns: string, labels: Labels) returns (error: Option<Error>)
      requires api.Valid() && OwnLabels(api.project, labels)
      modifies api
      ensures Reports(cfg, api, error)
      ensures Continues(api, {NamespaceKey(ns)})
      ensures error.None? ==> api.Knowing(ns) && NamespaceKey(ns) in api.store.objects && OwnLabels(api.project, api.store.objects[NamespaceKey(ns)].labels)
      ensures error.None? && api.calm ==> NamespaceDone(api.project, ns, old(api.store), api.store)
      ensures api.Quiet() && old(api.calm) ==>
                (error.None? <==> Unclaimed(api.project, old(api.store), ns)) && (error.None? ==> Standing(api.store, ns))
                && (error.Some? ==> error == Some(Ownership) && api.store == Vanish(old(api.store)))
    {
      var key := NamespaceKey(ns);
      var current := api.Get(key);
      if api.calm { HeldKeeps(old(api.store), api.store, key); }
      if current.Found? {
        if !OwnNamespace(current.body, labels) { return Some(Ownership); }
        return None;
      }
      if !current.failure.Absent? {
        FailuresSay(current.failure);
        return Some(Wrapped(GETTING_NAMESPACE, ErrorOf(current.failure)));
      }
      ghost var before := api.store;
      var created := api.Create(key, NamespaceFor(labels));
      if api.calm { DriftThen(old(api.store), before, api.store, {key}); }
      if created.Accepted? { return None; }
      if !created.failure.Exists? {
        FailuresSay(created.failure);
        return Some(Wrapped(CREATING_NAMESPACE, ErrorOf(created.failure)));
      }
      before := api.store;
      error := CheckAfterRace(ns, labels);
      if api.calm {
        DriftThen(old(api.store), before, api.store, {});
        HeldKeeps(old(api.store), api.store, key);
      }
    }

    /** The namespace appeared between the read and the creation: whose is it? */
    method CheckAfterRace(ns: string, labels: Labels) returns (error: Option<Error>)
      requires api.Valid() && OwnLabels(api.project, labels)
      modifies api
      ensures Reports(cfg, api, error)
      ensures Continues(api, {})
      ensures error.None? ==> api.Knowing(ns) && NamespaceKey(ns) in api.store.objects && OwnLabels(api.project, api.store.objects[NamespaceKey(ns)].labels)
    {
      var current := api.Get(NamespaceKey(ns));
      if current.Failed? {
        FailuresSay(current.failure);
        return Some(Wrapped(AFTER_CREATE_RACE, ErrorOf(current.failure)));
      }
      if !OwnNamespace(current.body, labels) { return Some(Ownership); }
      return None;
    }

    /** `ensureRegistryPullSecret`; the name it returns counts only without an error. */
    method EnsureRegistryPullSecret(target: DeploymentTarget) returns (name: string, error: Option<Error>)
      requires api.Valid() && api.failed.None? && api.Knowing(target.ns)
      modifies api
      ensures Reports(cfg, api, error)
      ensures Continues(api, {SecretKey(cfg, target)})
      ensures error.None? ==> name == PullSecret(cfg)
      ensures PullSecret(cfg) == "" ==> api.store == old(api.store)
      ensures error.None? && api.calm ==> SecretDone(cfg, target, old(api.store), api.store)
      ensures api.Quiet() && old(api.calm) && Standing(old(api.store), target.ns) ==>
                (error.None? <==> SecretCanBe(cfg, target, old(api.store)))
    {
      if cfg.pullSecretName == "" { return "", None; }
      var configured := RegistryConfigured(cfg.registry);
      if configured.None? { return "", Some(Plain(IncompleteCredentials)); }
      if !configured.value { return "", None; }
      var key := SecretKey(cfg, target);
      var found := api.Get(key);
      if api.calm { HeldKeeps(old(api.store), api.store, key); }
      if found.Found? {
        ghost var before := api.store;
        error := UpdateSecret(key);
        if api.calm { DriftThen(old(api.store), before, api.store, {key}); }
        return cfg.pullSecretName, error;
      }
      if !found.failure.Absent? {
        FailuresSay(found.failure);
        return "", Some(ErrorOf(found.failure));
      }
      ghost var before := api.store;
      var created := api.Create(key, Object(map[], 0, false, SecretSpec(DockerConfig, cfg.registry)));
      if api.calm { DriftThen(old(api.store), before, api.store, {key}); }
      if created.Failed? { FailuresSay(created.failure); }
      return cfg.pullSecretName, if created.Failed? then Some(ErrorOf(created.failure)) else None;
    }

    /** The update loop of `ensureRegistryPullSecret`. */
    method UpdateSecret(key: Key) returns (error: Option<Error>)
      requires api.Valid() && api.Knowing(key.ns) && key.kind.SecretKind?
      modifies api
      ensures Reports(cfg, api, error)
      ensures TriedEnough(api)
      ensures Continues(api, {key})
      ensures error.None? ==> key in api.store.objects && api.store.objects[key].spec == SecretSpec(DockerConfig, cfg.registry)
      ensures error.None? && api.calm && !Going(old(api.store), key) ==>
                key in old(api.store).objects && !api.store.objects[key].terminating
                && api.store.objects[key].labels == old(api.store).objects[key].labels
      ensures api.Quiet() && old(api.calm) && key in old(api.store).objects && !Going(old(api.store), key) ==>
                (error.None? <==> old(api.store).objects[key].spec.secretType.DockerConfig?)
    {
      var tries := 0;
      while tries < RETRY_STEPS
        invariant |api.trace| == |old(api.trace)| + 2 * tries
        invariant tries > 0 ==> api.failed == Some(Stale)
        invariant Continues(api, {}) && api.Knowing(key.ns)
        invariant api.Quiet() && old(api.calm) && key in old(api.store).objects && !Going(old(api.store), key) ==> tries == 0
      {
        ghost var before := api.store;
        var latest := api.Get(key);
        if api.calm {
          DriftThen(old(api.store), before, api.store, {});
          HeldKeeps(old(api.store), api.store, key);
        }
        if latest.Failed? {
          FailuresSay(latest.failure);
          return Some(ErrorOf(latest.failure));
        }
        before := api.store;
        var updated := api.Update(key, latest.body.(terminating := false, spec := SecretSpec(DockerConfig, cfg.registry)));
        if api.calm { DriftThen(old(api.store), before, api.store, {key}); }
        if updated.Accepted? { return None; }
        if !updated.failure.Stale? {
          FailuresSay(updated.failure);
          return Some(ErrorOf(updated.failure));
        }
        if api.calm { DriftThen(old(api.store), before, api.store, {}); }
        tries := tries + 1;
      }
      return Some(Api(Conflict));
    }

    /** `recreateDeployment`: deletes, waits until the deployment is gone, and creates. */
    method RecreateDeployment(key: Key, desired: Object) returns (error: Option<Error>)
      requires api.Valid() && api.Knowing(key.ns) && key.kind.DeploymentKind?
      requires WellTyped(Request.Create(key, desired)) && OwnLabels(api.project, desired.labels)
      modifies api
      ensures Reports(cfg, api, error)
      ensures |api.trace| > |old(api.trace)| && api.failed != Some(Stale)
      ensures Continues(api, {key})
      ensures error.None? ==>
                desired.version == 0 && key in api.store.objects && Wish(api.store.objects[key]) == Wish(desired)
                && !api.store.objects[key].terminating
      ensures api.Quiet() && old(api.calm) && Standing(old(api.store), key.ns) && desired.version == 0 ==> error.None?
      ensures api.Quiet() && old(api.calm) && desired.version != 0 ==> error.Some? && key !in api.store.objects
    {
      var deleted := api.Delete(key);
      if deleted.Failed? && !deleted.failure.Absent? {
        FailuresSay(deleted.failure);
        return Some(Wrapped(DELETING_DEPLOYMENT, ErrorOf(deleted.failure)));
      }
      ghost var after := api.store;
      error := AwaitDeletion(key);
      if api.calm { FramedOn(old(api.store), after, api.store, {key}); }
      if error.Some? { return; }
      ghost var before := api.store;
      if api.calm { HeldKeeps(old(api.store), api.store, NamespaceKey(key.ns)); }
      var created := api.Create(key, desired);
      if api.calm {
        FramedOn(old(api.store), before, api.store, {key});
        if created.Failed? && !created.failure.Broken? { HeldKeeps(before, api.store, key); }
      }
      if created.Failed? { FailuresSay(created.failure); }
      return if created.Failed? then Some(ErrorOf(created.failure)) else None;
    }

    /** The wait for a deletion, until the deployment is gone, the context ends, or a deadline passes. */
    method AwaitDeletion(key: Key) returns (error: Option<Error>)
      requires api.Valid() && api.Knowing(key.ns) && key.kind.DeploymentKind?
      modifies api
      ensures error.Some? ==> Reports(cfg, api, error)
      ensures |api.trace| > |old(api.trace)| && api.failed != Some(Stale)
      ensures Continues(api, {key})
      ensures error.None? ==> key !in api.store.objects
      ensures api.Quiet() && (key in old(api.store).objects ==> Going(old(api.store), key)) ==> error.None?
    {
      var ticks := 0;
      while true
        invariant Continues(api, {key}) && api.Knowing(key.ns)
        invariant |api.trace| >= |old(api.trace)| && (ticks > 0 ==> api.failed.None?)
        invariant ticks <= api.patience && WaitEnd(api.context, ticks, api.patience) == WaitEnd(api.context, 0, api.patience)
        invariant api.Quiet() && (key in old(api.store).objects ==> Going(old(api.store), key)) ==> ticks == 0 && api.store == old(api.store)
        decreases api.patience - ticks
      {
        ghost var before := api.store;
        var found := api.Get(key);
        if api.calm { FramedOn(old(api.store), before, api.store, {key}); }
        if found.Failed? && found.failure.Absent? { return None; }
        if found.Failed? {
          FailuresSay(found.failure);
          return Some(Wrapped(WAITING_FOR_DELETION, ErrorOf(found.failure)));
        }
        if !api.context(ticks).Live? { return Some(if api.context(ticks).PastDeadline? then DeadlineExceeded else Canceled); }
        if ticks == api.patience { return Some(Plain(DeletionTimedOut)); }
        ticks := ticks + 1;
      }
    }

    /** The update loop of `ensureDeployment`: an update refused because of the selector goes on to `RecreateDeployment`,
        which cannot succeed with an object that has a version by then. */
    method UpdateDeployment(key: Key, wanted: Object) returns (error: Option<Error>)
      requires api.Valid() && api.Knowing(key.ns) && key.kind.DeploymentKind?
      requires WellTyped(Request.Create(key, wanted)) && OwnLabels(api.project, wanted.labels)
      modifies api
      ensures Reports(cfg, api, error)
      ensures TriedEnough(api)
      ensures Continues(api, {key})
      ensures error.None? ==> key in api.store.objects && Wish(api.store.objects[key]) == Wish(wanted)
      ensures error.None? && api.calm ==>
                key in old(api.store).objects && (!Going(old(api.store), key) ==> !api.store.objects[key].terminating)
      ensures api.Quiet() && old(api.calm) && key in old(api.store).objects && !Going(old(api.store), key)
              && old(api.store).objects[key].spec.selector == wanted.spec.selector
              ==> error.None?
      ensures api.calm && Serves(old(api.store), key, wanted.spec.selector) ==> Serves(api.store, key, wanted.spec.selector)
    {
      var desired := wanted;
      var tries := 0;
      while tries < RETRY_STEPS
        invariant |api.trace| == |old(api.trace)| + 2 * tries
        invariant tries > 0 ==> api.failed == Some(Stale)
        invariant Continues(api, {}) && api.Knowing(key.ns)
        invariant desired == wanted.(version := desired.version)
        invariant api.calm && Serves(old(api.store), key, wanted.spec.selector) ==> Serves(api.store, key, wanted.spec.selector)
        invariant (api.Quiet() && old(api.calm) && key in old(api.store).objects && !Going(old(api.store), key)
                   && old(api.store).objects[key].spec.selector == wanted.spec.selector) ==> tries == 0
      {
        ghost var before := api.store;
        var latest := api.Get(key);
        if api.calm {
          DriftThen(old(api.store), before, api.store, {});
          HeldKeeps(old(api.store), api.store, key);
          StillServing(before, api.store, key, wanted.spec.selector);
        }
        if latest.Failed? {
          FailuresSay(latest.failure);
          return Some(ErrorOf(latest.failure));
        }
        desired := desired.(version := latest.body.version);
        before := api.store;
        var updated := api.Update(key, desired);
        if api.calm { DriftThen(old(api.store), before, api.store, {key}); }
        if updated.Accepted? { return None; }
        if updated.failure.SelectorFixed? {
          before := api.store;
          error := RecreateDeployment(key, desired);
          if api.calm { FramedOn(old(api.store), before, api.store, {key}); }
          return;
        }
        if !updated.failure.Stale? {
          FailuresSay(updated.failure);
          return Some(ErrorOf(updated.failure));
        }
        if api.calm { DriftThen(old(api.store), before, api.store, {}); }
        tries := tries + 1;
      }
      return Some(Api(Conflict));
    }

    /** `ensureDeployment`: an update, a creation, or, when the selector differs, a deletion and a creation. */
    method EnsureDeployment(request: DeployRequest, target: DeploymentTarget, labels: Labels, pullSecret: string)
      returns (error: Option<Error>)
      requires api.Valid() && api.failed.None? && api.Knowing(target.ns) && OwnLabels(api.project, labels)
      modifies api
      ensures Reports(cfg, api, error)
      ensures Continues(api, {DeploymentKey(target)})
      ensures error.None? ==>
                cfg.resources.Some? && DeploymentKey(target) in api.store.objects
                && Wish(api.store.objects[DeploymentKey(target)]) ==
                   DeploymentFor(cfg, request, target, labels, pullSecret, cfg.resources.value)
      ensures error.None? && api.calm ==>
                Settled(old(api.store), api.store, DeploymentKey(target),
                        DeploymentFor(cfg, request, target, labels, pullSecret, cfg.resources.value))
      ensures api.Quiet() && old(api.calm) && Standing(old(api.store), target.ns) ==> (error.None? <==> cfg.resources.Some?)
      ensures api.calm && Serves(old(api.store), DeploymentKey(target), SelectorOf(request)) ==>
                Serves(api.store, DeploymentKey(target), SelectorOf(request))
    {
      if cfg.resources.None? { return Some(Plain(BadQuantity)); }
      var env := PlatformPortEnv(request, target.containerPort);
      var port := target.containerPort;
      var container := Container(target.deploymentName, request.imageTag, port, port, port, env, cfg.resources.value);
      var desired := Object(labels, 0, false,
                            DeploymentSpec(map[ServiceId := request.serviceId], cfg.replicas, labels, container,
                                           if pullSecret != "" then Some(pullSecret) else None));
      assert api.Knowing(target.ns) && desired == DeploymentFor(cfg, request, target, labels, pullSecret, cfg.resources.value);
      var key := DeploymentKey(target);
      var existing := api.Get(key);
      if api.calm {
        HeldKeeps(old(api.store), api.store, key);
        StillServing(old(api.store), api.store, key, SelectorOf(request));
      }
      if existing.Found? {
        if existing.body.spec.selector != desired.spec.selector {
          ghost var before := api.store;
          error := RecreateDeployment(key, desired);
          if api.calm { DriftThen(old(api.store), before, api.store, {key}); }
          return;
        }
        ghost var before := api.store;
        error := UpdateDeployment(key, desired);
        if api.calm { DriftThen(old(api.store), before, api.store, {key}); }
        return;
      }
      if !existing.failure.Absent? {
        FailuresSay(existing.failure);
        return Some(ErrorOf(existing.failure));
      }
      ghost var before := api.store;
      var created := api.Create(key, desired);
      if api.calm { DriftThen(old(api.store), before, api.store, {key}); }
      if created.Failed? { FailuresSay(created.failure); }
      return if created.Failed? then Some(ErrorOf(created.failure)) else None;
    }

    /** The update loop of `ensureService`. */
    method UpdateService(key: Key, wanted: Object) returns (error: Option<Error>)
      requires api.Valid() && api.Knowing(key.ns) && key.kind.ServiceKind?
      requires WellTyped(Request.Create(key, wanted)) && OwnLabels(api.project, wanted.labels)
      modifies api
      ensures Reports(cfg, api, error)
      ensures TriedEnough(api)
      ensures Continues(api, {key})
      ensures error.None? ==> key in api.store.objects && Wish(api.store.objects[key]) == Wish(wanted)
      ensures error.None? && api.calm && !Going(old(api.store), key) ==>
                key in old(api.store).objects && !api.store.objects[key].terminating
                && AddressOf(api.store.objects[key]) == AddressOf(old(api.store).objects[key])
      ensures api.Quiet() && old(api.calm) && key in old(api.store).objects && !Going(old(api.store), key) ==> error.None?
    {
      var desired := wanted;
      var tries := 0;
      while tries < RETRY_STEPS
        invariant |api.trace| == |old(api.trace)| + 2 * tries
        invariant tries > 0 ==> api.failed == Some(Stale)
        invariant Continues(api, {}) && api.Knowing(key.ns)
        invariant Wish(desired) == Wish(wanted) && WellTyped(Request.Create(key, desired)) && desired.labels == wanted.labels
        invariant api.Quiet() && old(api.calm) && key in old(api.store).objects && !Going(old(api.store), key) ==> tries == 0
      {
        ghost var before := api.store;
        var latest := api.Get(key);
        if api.calm {
          DriftThen(old(api.store), before, api.store, {});
          HeldKeeps(old(api.store), api.store, key);
        }
        if latest.Failed? {
          FailuresSay(latest.failure);
          return Some(ErrorOf(latest.failure));
        }
        desired := WithAddress(desired.(version := latest.body.version), latest.body.spec.address);
        before := api.store;
        var updated := api.Update(key, desired);
        if api.calm { DriftThen(old(api.store), before, api.store, {key}); }
        if updated.Accepted? { return None; }
        if !updated.failure.Stale? {
          FailuresSay(updated.failure);
          return Some(ErrorOf(updated.failure));
        }
        if api.calm { DriftThen(old(api.store), before, api.store, {}); }
        tries := tries + 1;
      }
      return Some(Api(Conflict));
    }

    /** `ensureService`. */
    method EnsureService(target: DeploymentTarget, labels: Labels) returns (error: Option<Error>)
      requires api.Valid() && api.Knowing(target.ns) && OwnLabels(api.project, labels)
      modifies api
      ensures Reports(cfg, api, error)
      ensures Continues(api, {ServiceKey(target)})
      ensures error.None? ==>
                ServiceKey(target) in api.store.objects && Wish(api.store.objects[ServiceKey(target)]) == ServiceFor(target, labels)
      ensures error.None? && api.calm ==> Settled(old(api.store), api.store, ServiceKey(target), ServiceFor(target, labels))
      ensures api.Quiet() && old(api.calm) && Standing(old(api.store), target.ns) ==> error.None?
    {
      var key := ServiceKey(target);
      var desired := ServiceFor(target, labels);
      var found := api.Get(key);
      if api.calm { HeldKeeps(old(api.store), api.store, key); }
      if found.Found? {
        ghost var before := api.store;
        error := UpdateService(key, desired);
        if api.calm { DriftThen(old(api.store), before, api.store, {key}); }
        return;
      }
      if !found.failure.Absent? {
        FailuresSay(found.failure);
        return Some(ErrorOf(found.failure));
      }
      ghost var before := api.store;
      var created := api.Create(key, desired);
      if api.calm { DriftThen(old(api.store), before, api.store, {key}); }
      if created.Failed? {
        FailuresSay(created.failure);
        return Some(ErrorOf(created.failure));
      }
      return None;
    }

    /** The update loop of `ensureIngress`. */
    method UpdateIngress(key: Key, wanted: Object) returns (error: Option<Error>)
      requires api.Valid() && api.Knowing(key.ns) && key.kind.IngressKind?
      requires WellTyped(Request.Create(key, wanted)) && OwnLabels(api.project, wanted.labels)
      modifies api
      ensures Reports(cfg, api, error)
      ensures TriedEnough(api)
      ensures Continues(api, {key})
      ensures error.None? ==> key in api.store.objects && Wish(api.store.objects[key]) == Wish(wanted)
      ensures error.None? && api.calm && !Going(old(api.store), key) ==>
                key in old(api.store).objects && !api.store.objects[key].terminating
      ensures api.Quiet() && old(api.calm) && key in old(api.store).objects && !Going(old(api.store), key) ==> error.None?
    {
      var desired := wanted;
      var tries := 0;
      while tries < RETRY_STEPS
        invariant |api.trace| == |old(api.trace)| + 2 * tries
        invariant tries > 0 ==> api.failed == Some(Stale)
        invariant Continues(api, {}) && api.Knowing(key.ns)
        invariant Wish(desired) == Wish(wanted) && WellTyped(Request.Create(key, desired)) && desired.labels == wanted.labels
        invariant api.Quiet() && old(api.calm) && key in old(api.store).objects && !Going(old(api.store), key) ==> tries == 0
      {
        ghost var before := api.store;
        var latest := api.Get(key);
        if api.calm {
          DriftThen(old(api.store), before, api.store, {});
          HeldKeeps(old(api.store), api.store, key);
        }
        if latest.Failed? {
          FailuresSay(latest.failure);
          return Some(ErrorOf(latest.failure));
        }
        desired := desired.(version := latest.body.version);
        before := api.store;
        var updated := api.Update(key, desired);
        if api.calm { DriftThen(old(api.store), before, api.store, {key}); }
        if updated.Accepted? { return None; }
        if !updated.failure.Stale? {
          FailuresSay(updated.failure);
          return Some(ErrorOf(updated.failure));
        }
        if api.calm { DriftThen(old(api.store), before, api.store, {}); }
        tries := tries + 1;
      }
      return Some(Api(Conflict));
    }

    /** `ensureIngress`. */
    method EnsureIngress(target: DeploymentTarget, labels: Labels) returns (error: Option<Error>)
      requires api.Valid() && api.Knowing(target.ns) && OwnLabels(api.project, labels)
      modifies api
      ensures Reports(cfg, api, error)
      ensures Continues(api, {IngressKey(target)})
      ensures error.None? ==>
                IngressKey(target) in api.store.objects && Wish(api.store.objects[IngressKey(target)]) == IngressFor(cfg, target, labels)
      ensures error.None? && api.calm ==> Settled(old(api.store), api.store, IngressKey(target), IngressFor(cfg, target, labels))
      ensures api.Quiet() && old(api.calm) && Standing(old(api.store), target.ns) ==> error.None?
    {
      var key := IngressKey(target);
      var desired := IngressFor(cfg, target, labels);
      var found := api.Get(key);
      if api.calm { HeldKeeps(old(api.store), api.store, key); }
      if found.Found? {
        ghost var before := api.store;
        error := UpdateIngress(key, desired);
        if api.calm { DriftThen(old(api.store), before, api.store, {key}); }
        return;
      }
      if !found.failure.Absent? {
        FailuresSay(found.failure);
        return Some(ErrorOf(found.failure));
      }
      ghost var before := api.store;
      var created := api.Create(key, desired);
      if api.calm { DriftThen(old(api.store), before, api.store, {key}); }
      if created.Failed? {
        FailuresSay(created.failure);
        return Some(ErrorOf(created.failure));
      }
      return None;
    }

    /** The rest of `Deploy`, in a namespace that is known to be the project's. */
    method DeployInto(request: DeployRequest, target: DeploymentTarget, labels: Labels) returns (error: Option<Error>)
      requires api.Valid() && api.failed.None? && api.Knowing(target.ns) && OwnLabels(api.project, labels)
      modifies api
      ensures Reports(cfg, api, error)
      ensures Continues(api, ObjectKeys(cfg, target))
      ensures error.None? && api.calm ==> Furnished(cfg, request, target, labels, old(api.store), api.store)
      ensures api.Quiet() && old(api.calm) && Standing(old(api.store), target.ns) ==>
                (error.None? <==> SecretCanBe(cfg, target, old(api.store)) && cfg.resources.Some?)
      ensures api.calm && Serves(old(api.store), DeploymentKey(target), SelectorOf(request)) ==>
                Serves(api.store, DeploymentKey(target), SelectorOf(request))
    {
      ghost var s1 := api.store;
      var pullSecret, failure := EnsureRegistryPullSecret(target);
      ghost var s2 := api.store;
      if api.calm { OneMore(cfg, request, target, s1, s1, s2, {SecretKey(cfg, target)}); }
      if failure.Some? { return Some(Wrapped(ENSURING_SECRET, failure.value)); }
      failure := EnsureDeployment(request, target, labels, pullSecret);
      ghost var s3 := api.store;
      if api.calm { OneMore(cfg, request, target, s1, s2, s3, {DeploymentKey(target)}); }
      if failure.Some? { return Some(Wrapped(ENSURING_DEPLOYMENT, failure.value)); }
      error := EnsureTraffic(target, labels);
      if api.calm {
        OneMore(cfg, request, target, s1, s3, api.store, {ServiceKey(target), IngressKey(target)});
        if error.None? { StepsFurnish(cfg, request, target, labels, s1, s2, s3, api.store); }
      }
    }

    /** The way in from outside: the service, and then the ingress. */
    method EnsureTraffic(target: DeploymentTarget, labels: Labels) returns (error: Option<Error>)
      requires api.Valid() && api.Knowing(target.ns) && OwnLabels(api.project, labels)
      modifies api
      ensures Reports(cfg, api, error)
      ensures Continues(api, {ServiceKey(target), IngressKey(target)})
      ensures error.None? && api.calm ==>
                Settled(old(api.store), api.store, ServiceKey(target), ServiceFor(target, labels))
                && Settled(old(api.store), api.store, IngressKey(target), IngressFor(cfg, target, labels))
      ensures api.Quiet() && old(api.calm) && Standing(old(api.store), target.ns) ==> error.None?
    {
      ghost var s3 := api.store;
      var failure := EnsureService(target, labels);
      ghost var s4 := api.store;
      if api.calm { TrafficStep(target, s3, s4); }
      if failure.Some? { return Some(Wrapped(ENSURING_SERVICE, failure.value)); }
      failure := EnsureIngress(target, labels);
      if api.calm {
        TrafficSteps(target, s3, s4, api.store);
        if failure.None? {
          SettledAround(s3, s3, s4, api.store, ServiceKey(target), ServiceFor(target, labels));
          SettledAround(s3, s4, api.store, api.store, IngressKey(target), IngressFor(cfg, target, labels));
        }
      }
      if failure.Some? { return Some(Wrapped(ENSURING_INGRESS, failure.value)); }
      return None;
    }

    /** `Deploy` once its target is known. */
    method DeployTo(request: DeployRequest, target: DeploymentTarget, labels: Labels) returns (error: Option<Error>)
      requires api.Valid() && OwnLabels(api.project, labels)
      modifies api
      ensures Reports(cfg, api, error)
      ensures Continues(api, DeployKeys(cfg, target))
      ensures error.None? && api.calm ==>
                NamespaceDone(api.project, target.ns, old(api.store), api.store)
                && Furnished(cfg, request, target, labels, old(api.store), api.store)
      ensures api.Quiet() && old(api.calm) ==>
                (error.None? <==>
                 Unclaimed(api.project, old(api.store), target.ns) && SecretCanBe(cfg, target, old(api.store)) && cfg.resources.Some?)
                && (!Unclaimed(api.project, old(api.store), target.ns) ==>
                      error == Some(Wrapped(ENSURING_NAMESPACE, Ownership)) && api.store == Vanish(old(api.store)))
      ensures api.calm && Serves(old(api.store), DeploymentKey(target), SelectorOf(request)) ==>
                Serves(api.store, DeploymentKey(target), SelectorOf(request))
    {
      var failure := EnsureNamespace(target.ns, labels);
      ghost var s1 := api.store;
      if api.calm {
        NamespaceOnly(cfg, target, old(api.store), s1);
        StillServes(request, target, old(api.store), s1, NamespaceKey(target.ns));
      }
      if failure.Some? { return Some(Wrapped(ENSURING_NAMESPACE, failure.value)); }
      error := DeployInto(request, target, labels);
      if api.calm {
        ThenObjects(cfg, target, old(api.store), s1, api.store);
        if error.None? {
          NamespaceAround(api.project, target.ns, old(api.store), s1, api.store);
          FurnishedFrom(cfg, request, target, labels, old(api.store), s1, api.store);
        }
      }
    }

    /** `Deploy`. Nobody interfering, success means that everything is as wanted; and with nothing in its way at all, it
        succeeds exactly when the namespace is free or the project's, and the settings allow it. Whatever fails, it takes no
        deployment away that selects by the same service. */
    method Deploy(request: DeployRequest) returns (result: Delivery.DeployAnswer)
      requires api.Valid() && api.project == request.projectId
      modifies api
      ensures Reports(cfg, api, ErrorOfAnswer(result))
      ensures TargetForRequest(cfg.names, request).None? ==>
                result == Delivery.NotApplied(Plain(MissingBaseDomain)) && api.Valid() && api.store == old(api.store) && api.trace == old(api.trace)
      ensures TargetForRequest(cfg.names, request).Some? ==>
                Continues(api, DeployKeys(cfg, TargetForRequest(cfg.names, request).value))
      ensures result.Applied? ==> TargetForRequest(cfg.names, request) == Some(result.target)
      ensures result.Applied? && api.calm ==> Deployed(cfg, request, result.target, old(api.store), api.store)
      ensures api.Quiet() && old(api.calm) ==> (result.Applied? <==> CanDeploy(cfg, request, old(api.store)))
      ensures api.Quiet() && old(api.calm) && TargetForRequest(cfg.names, request).Some?
              && !Unclaimed(request.projectId, old(api.store), TargetForRequest(cfg.names, request).value.ns)
              ==> result == Delivery.NotApplied(Wrapped(ENSURING_NAMESPACE, Ownership)) && api.store == Vanish(old(api.store))
      ensures api.calm && TargetForRequest(cfg.names, request).Some?
              && Serves(old(api.store), DeploymentKey(TargetForRequest(cfg.names, request).value), SelectorOf(request))
              ==> Serves(api.store, DeploymentKey(TargetForRequest(cfg.names, request).value), SelectorOf(request))
    {
      api.failed := None;
      var named := TargetForRequest(cfg.names, request);
      if named.None? { return Delivery.NotApplied(Plain(MissingBaseDomain)); }
      LabelsAreOwn(request);
      var failure := DeployTo(request, named.value, LabelsFor(request));
      return if failure.Some? then Delivery.NotApplied(failure.value) else Delivery.Applied(named.value);
    }
  }
}
