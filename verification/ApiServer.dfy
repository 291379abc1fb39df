/** One client's session with the cluster: its requests may break, and others change the cluster between them. */
module ApiServer {
  import opened Wrappers
  import opened Errors
  import opened Cluster
  import opened Ownership

  /** The cluster was `s`, and `met` when the request arrived. */
  ghost predicate Meets(s: Store, met: Store, calm: bool, quiet: bool) {
    WellFormed(met) && (calm ==> Drifts(s, met)) && (quiet ==> met == Vanish(s))
  }

  lemma MeetsFrame(s: Store, met: Store, t: Store, r: Request, a: Answer, quiet: bool)
    requires Meets(s, met, true, quiet) && WellTyped(r) && Served(met, t, r, a, quiet)
    ensures Framed(s, t, {r.key})
  {
    ServedIsWellFormed(met, t, r, a, quiet);
    forall k | k != r.key ensures Held(s, t, k) { assert Held(s, met, k); }
  }

  lemma GetServed(met: Store, t: Store, k: Key, a: Answer, quiet: bool)
    requires WellFormed(met) && Served(met, t, Get(k), a, quiet)
    ensures t == met
    ensures a == (if k in t.objects then Found(t.objects[k]) else Failed(Absent)) || (!quiet && IsBroken(a))
  {
  }

  lemma CreateServed(met: Store, t: Store, k: Key, body: Object, a: Answer, quiet: bool)
    requires WellFormed(met) && WellTyped(Create(k, body)) && Served(met, t, Create(k, body), a, quiet)
    ensures a.Accepted? || a.Failed?
    ensures a.Accepted? ==>
              body.version == 0 && k in t.objects && Wish(t.objects[k]) == Wish(body) && !t.objects[k].terminating
    ensures a.Failed? && !IsBroken(a) ==> t == met
    ensures IsFailure(a, Exists) ==> k in met.objects
    ensures !IsFailure(a, Stale)
    ensures quiet && body.version == 0 && k !in met.objects && (k.kind.NamespaceKind? || NamespaceKey(k.ns) in met.objects)
            ==> a.Accepted?
  {
  }

  lemma UpdateServed(met: Store, t: Store, k: Key, body: Object, a: Answer, quiet: bool)
    requires WellFormed(met) && WellTyped(Update(k, body)) && Served(met, t, Update(k, body), a, quiet)
    ensures a.Accepted? || a.Failed?
    ensures a.Accepted? ==>
              && k in met.objects && k in t.objects && Wish(t.objects[k]) == Wish(body)
              && t.objects[k].terminating == met.objects[k].terminating
              && AddressOf(t.objects[k]) == AddressOf(body)
              && (k.kind.DeploymentKind? ==> body.spec.selector == met.objects[k].spec.selector)
              && (k.kind.SecretKind? ==> body.spec.secretType == met.objects[k].spec.secretType)
    ensures IsFailure(a, Stale) ==> k in met.objects && body.version != met.objects[k].version
    ensures IsFailure(a, SelectorFixed) ==>
              k in met.objects && k.kind.DeploymentKind? && body.spec.selector != met.objects[k].spec.selector
    ensures k in met.objects && k.kind.DeploymentKind? ==>
              && k in t.objects && t.objects[k].terminating == met.objects[k].terminating
              && t.objects[k].spec.DeploymentSpec? && t.objects[k].spec.selector == met.objects[k].spec.selector
    ensures a.Failed? && !IsBroken(a) ==> t == met
    ensures quiet && k in met.objects && body.version == met.objects[k].version
            && (k.kind.DeploymentKind? ==> body.spec.selector == met.objects[k].spec.selector)
            && (k.kind.ServiceKind? ==> body.spec.address == met.objects[k].spec.address)
            && (k.kind.SecretKind? ==> body.spec.secretType == met.objects[k].spec.secretType)
            ==> a.Accepted?
  {
  }

  lemma DeleteServed(met: Store, t: Store, k: Key, a: Answer, quiet: bool)
    requires WellFormed(met) && Served(met, t, Delete(k), a, quiet)
    ensures a.Accepted? || a.Failed?
    ensures a.Accepted? ==> Going(t, k)
    ensures !IsFailure(a, Stale)
    ensures IsFailure(a, Absent) ==> k !in t.objects
    ensures quiet ==> a == if k in met.objects then Accepted else Failed(Absent)
  {
  }

  /** The state of a context. */
  datatype Context = Live | PastDeadline | WasCanceled

  class Session {
    const faults: nat -> Fault
    const outsiders: (nat, Store) -> Store
    const addresses: nat -> Address
    /** What ends the wait for a deletion: the context, or a deadline after this many ticks. */
    const context: nat -> Context
    const patience: nat
    ghost const project: string
    var store: Store
    var calls: nat
    ghost var trace: seq<Step>
    /** How the last request failed, if it did. */
    ghost var failed: Option<Failure>
    /** So far the others have done no more than `Drifts` allows. */
    ghost var calm: bool

    constructor (faults: nat -> Fault, outsiders: (nat, Store) -> Store, addresses: nat -> Address,
                 context: nat -> Context, patience: nat, ghost project: string, store: Store)
      requires WellFormed(store)
      ensures Valid() && this.store == store && this.project == project && trace == [] && failed == None && calm
    {
      this.faults, this.outsiders, this.addresses, this.context := faults, outsiders, addresses, context;
      this.patience, this.project, this.store := patience, project, store;
      calls, trace, failed, calm := 0, [], None, true;
    }

    ghost predicate Valid()
      reads this
    {
      WellFormed(store) && Disciplined(project, trace)
    }

    /** No request breaks, nobody else does anything, and what is to go away goes away at once. */
    ghost predicate Quiet() {
      && (forall n :: faults(n).Works?)
      && (forall n, s :: outsiders(n, s) == Vanish(s))
    }

    /** This session has seen that the namespace is the project's. */
    ghost predicate Knowing(ns: string)
      reads this
    {
      Knows(project, trace, ns)
    }

    method Serve(r: Request) returns (a: Answer, ghost met: Store)
      requires Valid() && WellTyped(r) && Allowed(project, trace, r)
      modifies this
      ensures Valid() && Meets(old(store), met, calm, Quiet()) && Served(met, store, r, a, Quiet())
      ensures (calm ==> old(calm)) && (old(calm) && Quiet() ==> calm)
      ensures trace == old(trace) + [Step(r, a)] && failed == FailureIn(a)
      ensures forall ns :: old(Knowing(ns)) || ShowsOwned(project, ns, Step(r, a)) ==> Knowing(ns)
    {
      var here := outsiders(calls, store);
      if !WellFormed(here) || here.next < store.next { here := store; }
      VanishDrifts(store);
      met, calm := here, calm && Drifts(store, here);
      a, store := FaultyReply(here, r, faults(calls)), FaultyEffect(here, r, faults(calls), addresses(calls));
      ServedIsWellFormed(here, store, r, a, Quiet());
      calls := calls + 1;
      DisciplinedSnoc(project, trace, Step(r, a));
      trace, failed := trace + [Step(r, a)], FailureIn(a);
    }

    method Get(k: Key) returns (a: Answer)
      requires Valid()
      modifies this
      ensures trace == old(trace) + [Step(Request.Get(k), a)] && failed == FailureIn(a)
      ensures Valid() && (calm ==> old(calm) && Drifts(old(store), store))
      ensures Quiet() ==> store == Vanish(old(store)) && (old(calm) ==> calm)
      ensures a == (if k in store.objects then Found(store.objects[k]) else Failed(Absent)) || (!Quiet() && IsBroken(a))
      ensures forall ns :: old(Knowing(ns)) ==> Knowing(ns)
      ensures k.kind.NamespaceKind? && k.ns == "" && a.Found? && OwnLabels(project, a.body.labels) ==> Knowing(k.name)
    {
      ghost var met;
      a, met := Serve(Request.Get(k));
      GetServed(met, store, k, a, Quiet());
      assert k.kind.NamespaceKind? && k.ns == "" ==> k == NamespaceKey(k.name);
    }

    method Create(k: Key, body: Object) returns (a: Answer)
      requires Valid() && WellTyped(Request.Create(k, body)) && Allowed(project, trace, Request.Create(k, body))
      modifies this
      ensures trace == old(trace) + [Step(Request.Create(k, body), a)] && failed == FailureIn(a)
      ensures Valid() && (calm ==> old(calm) && Framed(old(store), store, {k})) && (old(calm) && Quiet() ==> calm)
      ensures a.Accepted? || a.Failed?
      ensures a.Accepted? ==>
                body.version == 0 && k in store.objects && Wish(store.objects[k]) == Wish(body) && !store.objects[k].terminating
      ensures a.Failed? && !IsBroken(a) && calm ==> Drifts(old(store), store)
      ensures !IsFailure(a, Stale)
      ensures IsFailure(a, Exists) ==> k in store.objects
      ensures Quiet() ==> !IsBroken(a)
      ensures Quiet() && body.version == 0 && (k !in old(store).objects || Going(old(store), k))
              && (k.kind.NamespaceKind? || (NamespaceKey(k.ns) in old(store).objects && !Going(old(store), NamespaceKey(k.ns))))
              ==> a.Accepted?
      ensures forall ns :: old(Knowing(ns)) ==> Knowing(ns)
      ensures k.kind.NamespaceKind? && a.Accepted? ==> Knowing(k.name)
    {
      ghost var met;
      a, met := Serve(Request.Create(k, body));
      CreateServed(met, store, k, body, a, Quiet());
      if calm { MeetsFrame(old(store), met, store, Request.Create(k, body), a, Quiet()); }
    }

    method Update(k: Key, body: Object) returns (a: Answer)
      requires Valid() && WellTyped(Request.Update(k, body)) && Allowed(project, trace, Request.Update(k, body))
      modifies this
      ensures trace == old(trace) + [Step(Request.Update(k, body), a)] && failed == FailureIn(a)
      ensures Valid() && (calm ==> old(calm) && Framed(old(store), store, {k})) && (old(calm) && Quiet() ==> calm)
      ensures a.Accepted? || a.Failed?
      ensures a.Accepted? ==>
                && k in store.objects && Wish(store.objects[k]) == Wish(body) && AddressOf(store.objects[k]) == AddressOf(body)
                && (calm ==> k in old(store).objects && store.objects[k].terminating == old(store).objects[k].terminating)
                && (calm && k.kind.SecretKind? ==> body.spec.secretType == old(store).objects[k].spec.secretType)
      ensures Quiet() && k in old(store).objects && body.version == old(store).objects[k].version ==> !IsFailure(a, Stale)
      ensures IsFailure(a, SelectorFixed) ==> k.kind.DeploymentKind? && (calm ==> !Serves(old(store), k, body.spec.selector))
      ensures calm && k.kind.DeploymentKind? && Serves(old(store), k, body.spec.selector) ==> Serves(store, k, body.spec.selector)
      ensures a.Failed? && !IsBroken(a) && calm ==> Held(old(store), store, k)
      ensures Quiet() && k in old(store).objects && !Going(old(store), k) && body.version == old(store).objects[k].version
              && (k.kind.DeploymentKind? ==> body.spec.selector == old(store).objects[k].spec.selector)
              && (k.kind.ServiceKind? ==> body.spec.address == old(store).objects[k].spec.address)
              && (k.kind.SecretKind? ==> body.spec.secretType == old(store).objects[k].spec.secretType)
              ==> a.Accepted?
      ensures forall ns :: old(Knowing(ns)) ==> Knowing(ns)
    {
      ghost var met;
      a, met := Serve(Request.Update(k, body));
      UpdateServed(met, store, k, body, a, Quiet());
      if calm {
        MeetsFrame(old(store), met, store, Request.Update(k, body), a, Quiet());
        assert Held(old(store), met, k);
        assert k in met.objects ==> At(met, k).Some?;
      }
    }

    method Delete(k: Key) returns (a: Answer)
      requires Valid() && Allowed(project, trace, Request.Delete(k))
      modifies this
      ensures trace == old(trace) + [Step(Request.Delete(k), a)] && failed == FailureIn(a)
      ensures Valid() && (calm ==> old(calm) && Framed(old(store), store, {k})) && (old(calm) && Quiet() ==> calm)
      ensures a.Accepted? || a.Failed?
      ensures a.Accepted? ==> Going(store, k)
      ensures !IsFailure(a, Stale)
      ensures IsFailure(a, Absent) ==> k !in store.objects
      ensures Quiet() ==> a.Accepted? || IsFailure(a, Absent)
      ensures forall ns :: old(Knowing(ns)) ==> Knowing(ns)
    {
      ghost var met;
      a, met := Serve(Request.Delete(k));
      DeleteServed(met, store, k, a, Quiet());
      if calm { MeetsFrame(old(store), met, store, Request.Delete(k), a, Quiet()); }
    }
  }
}
