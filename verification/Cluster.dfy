/** The Kubernetes API as the reconciler meets it: objects with resource versions, and what each request does to them. */
module Cluster {
  import opened Wrappers
  import opened Errors
  import opened Requests

  datatype Kind = NamespaceKind | SecretKind | DeploymentKind | ServiceKind | IngressKind

  /** Namespaces themselves have a blank `ns`. */
  datatype Key = Key(kind: Kind, ns: string, name: string)

  function NamespaceKey(ns: string): Key {
    Key(NamespaceKind, "", ns)
  }

  datatype LabelKey = ManagedBy | DeploymentId | ProjectId | ProjectSlug | ServiceId | ServiceSlug | OtherLabel(name: string)

  type Labels = map<LabelKey, string>

  /** Reading a Go map: a missing key reads as the empty string. */
  function LabelAt(labels: Labels, k: LabelKey): string {
    if k in labels then labels[k] else ""
  }

  /** What the server allots to a service. */
  datatype Address = Address(
    clusterIP: string, clusterIPs: seq<string>, ipFamilies: seq<string>, ipFamilyPolicy: Option<string>,
    internalTrafficPolicy: Option<string>)

  datatype Registry = Registry(host: string, username: string, password: string)

  datatype Resources = Resources(cpuRequest: string, cpuLimit: string, memoryRequest: string, memoryLimit: string)

  datatype Container = Container(
    name: string, image: string, port: int, readinessPort: int, startupPort: int, env: seq<EnvVar>, resources: Resources)

  datatype SecretType = DockerConfig | OtherSecretType(name: string)

  datatype Spec =
    | NamespaceSpec
    | SecretSpec(secretType: SecretType, payload: Registry)
    | DeploymentSpec(selector: Labels, replicas: int, podLabels: Labels, container: Container, pullSecret: Option<string>)
    | ServiceSpec(podSelector: Labels, port: int, targetPort: int, address: Address)
    | IngressSpec(className: Option<string>, host: string, backend: string, backendPort: int, tls: Option<string>)

  predicate Fits(kind: Kind, spec: Spec) {
    match kind
    case NamespaceKind => spec.NamespaceSpec?
    case SecretKind => spec.SecretSpec?
    case DeploymentKind => spec.DeploymentSpec?
    case ServiceKind => spec.ServiceSpec?
    case IngressKind => spec.IngressSpec?
  }

  /** `version` is 0 in an object that has none yet; a `terminating` object goes away by itself. */
  datatype Object = Object(labels: Labels, version: nat, terminating: bool, spec: Spec)

  datatype Store = Store(objects: map<Key, Object>, next: nat)

  predicate WellFormed(s: Store) {
    forall k :: k in s.objects ==> Fits(k.kind, s.objects[k].spec) && 0 < s.objects[k].version <= s.next
  }

  /** An object as stored, but for its version. */
  function At(s: Store, k: Key): Option<Object> {
    if k in s.objects then Some(s.objects[k].(version := 0)) else None
  }

  const NO_ADDRESS := Address("", [], [], None, None)

  function AddressOf(o: Object): Address {
    if o.spec.ServiceSpec? then o.spec.address else NO_ADDRESS
  }

  /** What a client asks for: an object without its version, its address and whether it is terminating. */
  function Wish(o: Object): Object {
    WithAddress(o, NO_ADDRESS).(version := 0, terminating := false)
  }

  function WithAddress(o: Object, address: Address): Object {
    if o.spec.ServiceSpec? then o.(spec := o.spec.(address := address)) else o
  }

  // ---- Requests ----

  datatype Request =
    | Get(key: Key)
    | Create(key: Key, body: Object)
    | Update(key: Key, body: Object)
    | Delete(key: Key)

  /** `Broken` is a failure of the request itself: it may have taken effect. */
  datatype Failure = Absent | Exists | Stale | SelectorFixed | FieldFixed | VersionGiven | Broken(error: Error)

  datatype Answer = Found(body: Object) | Accepted | Failed(failure: Failure)

  function ErrorOf(f: Failure): Error {
    match f
    case Absent => Api(NotFound)
    case Exists => Api(AlreadyExists)
    case Stale => Api(Conflict)
    case SelectorFixed => Api(Invalid)
    case FieldFixed => Api(Invalid)
    case VersionGiven => Api(OtherReason)
    case Broken(error) => error
  }

  predicate WellTyped(r: Request) {
    (r.Create? || r.Update?) ==> Fits(r.key.kind, r.body.spec) && !r.body.terminating
  }

  function Put(s: Store, k: Key, o: Object): Store {
    Store(s.objects[k := o.(version := s.next + 1)], s.next + 1)
  }

  /** The server's answer: an object is created only without a version and in a namespace that exists; it is updated
      only at the version given; the selector of a deployment, the address of a service and the type of a secret stay. */
  function Reply(s: Store, r: Request): Answer
    requires WellFormed(s) && WellTyped(r)
  {
    match r
    case Get(k) => if k in s.objects then Found(s.objects[k]) else Failed(Absent)
    case Create(k, o) =>
      if o.version != 0 then Failed(VersionGiven)
      else if k in s.objects then Failed(Exists)
      else if !k.kind.NamespaceKind? && NamespaceKey(k.ns) !in s.objects then Failed(Absent)
      else Accepted
    case Update(k, o) =>
      if k !in s.objects then Failed(Absent)
      else if o.version != 0 && o.version != s.objects[k].version then Failed(Stale)
      else if k.kind.DeploymentKind? && o.spec.selector != s.objects[k].spec.selector then Failed(SelectorFixed)
      else if k.kind.ServiceKind? && o.spec.address != s.objects[k].spec.address then Failed(FieldFixed)
      else if k.kind.SecretKind? && o.spec.secretType != s.objects[k].spec.secretType then Failed(FieldFixed)
      else Accepted
    case Delete(k) => if k in s.objects then Accepted else Failed(Absent)
  }

  /** What an accepted request does. Deletion only marks the object. */
  function Effect(s: Store, r: Request, address: Address): Store
    requires WellFormed(s) && WellTyped(r)
  {
    if !Reply(s, r).Accepted? then s
    else
      match r
      case Get(_) => s
      case Create(k, o) => Put(s, k, WithAddress(o, address))
      case Update(k, o) => Put(s, k, o.(terminating := s.objects[k].terminating))
      case Delete(k) => Put(s, k, s.objects[k].(terminating := true))
  }

  lemma EffectIsWellFormed(s: Store, r: Request, address: Address)
    requires WellFormed(s) && WellTyped(r)
    ensures WellFormed(Effect(s, r, address)) && Effect(s, r, address).next >= s.next
    ensures forall k :: k != r.key ==> At(Effect(s, r, address), k) == At(s, k)
  {
  }

  datatype Fault = Works | BreaksBefore(error: Error) | BreaksAfter(error: Error)

  function FaultyReply(s: Store, r: Request, f: Fault): Answer
    requires WellFormed(s) && WellTyped(r)
  {
    if f.Works? then Reply(s, r) else Failed(Broken(f.error))
  }

  function FaultyEffect(s: Store, r: Request, f: Fault, address: Address): Store
    requires WellFormed(s) && WellTyped(r)
  {
    if f.BreaksBefore? then s else Effect(s, r, address)
  }

  /** The server met the request with `s`, and answered `a` and left `t`. */
  ghost predicate Served(s: Store, t: Store, r: Request, a: Answer, quiet: bool)
    requires WellFormed(s) && WellTyped(r)
  {
    exists f, address :: a == FaultyReply(s, r, f) && t == FaultyEffect(s, r, f, address) && (quiet ==> f.Works?)
  }

  lemma ServedIsWellFormed(s: Store, t: Store, r: Request, a: Answer, quiet: bool)
    requires WellFormed(s) && WellTyped(r) && Served(s, t, r, a, quiet)
    ensures WellFormed(t) && s.next <= t.next
    ensures forall k :: k != r.key ==> At(t, k) == At(s, k)
  {
    var f, address :| a == FaultyReply(s, r, f) && t == FaultyEffect(s, r, f, address) && (quiet ==> f.Works?);
    EffectIsWellFormed(s, r, address);
  }

  predicate IsBroken(a: Answer) {
    a.Failed? && a.failure.Broken?
  }

  function FailureIn(a: Answer): Option<Failure> {
    if a.Failed? then Some(a.failure) else None
  }

  predicate IsFailure(a: Answer, f: Failure) {
    a == Failed(f)
  }

  // ---- What goes on meanwhile ----

  /** The object at `k` is as it was but for its version, or has gone away as it was about to. */
  predicate Held(s: Store, t: Store, k: Key) {
    At(t, k) == At(s, k) || (At(s, k).Some? && At(s, k).value.terminating && At(t, k) == None)
  }

  /** Controllers write status, which changes versions, and terminating objects go away; nothing else happens. */
  ghost predicate Drifts(s: Store, t: Store) {
    forall k :: Held(s, t, k)
  }

  /** The deployment at `k` exists, is to stay, and selects its pods so. */
  predicate Serves(s: Store, k: Key, selector: Labels) {
    && k in s.objects && !s.objects[k].terminating
    && s.objects[k].spec.DeploymentSpec? && s.objects[k].spec.selector == selector
  }

  lemma StillServing(s: Store, t: Store, k: Key, selector: Labels)
    requires Held(s, t, k)
    ensures Serves(s, k, selector) ==> Serves(t, k, selector)
  {
    if Serves(s, k, selector) { assert At(t, k) == At(s, k) && At(s, k).Some?; }
  }

  lemma HeldTransitive(s: Store, t: Store, u: Store, k: Key)
    requires Held(s, t, k) && Held(t, u, k)
    ensures Held(s, u, k)
  {
  }

  /** Nothing outside these keys has changed. */
  ghost predicate Framed(s: Store, t: Store, keys: set<Key>) {
    forall k :: k !in keys ==> Held(s, t, k)
  }

  lemma FramedTransitive(s: Store, t: Store, u: Store, a: set<Key>, b: set<Key>)
    requires Framed(s, t, a) && Framed(t, u, b)
    ensures Framed(s, u, a + b)
  {
    forall k | k !in a + b ensures Held(s, u, k) { HeldTransitive(s, t, u, k); }
  }

  lemma FramedOn(s: Store, t: Store, u: Store, keys: set<Key>)
    requires Framed(s, t, keys) && Framed(t, u, keys)
    ensures Framed(s, u, keys)
  {
    forall k | k !in keys ensures Held(s, u, k) { HeldTransitive(s, t, u, k); }
  }

  /** A drift after a drift, and a change to a few objects after one. */
  lemma DriftThen(s: Store, t: Store, u: Store, keys: set<Key>)
    requires Drifts(s, t)
    ensures Drifts(t, u) ==> Drifts(s, u)
    ensures Framed(t, u, keys) ==> Framed(s, u, keys)
  {
    forall k | Held(t, u, k) ensures Held(s, u, k) { HeldTransitive(s, t, u, k); }
  }

  /** The object at `k` exists, and is about to go away. */
  predicate Going(s: Store, k: Key) {
    k in s.objects && s.objects[k].terminating
  }

  /** Terminating objects go away at once. */
  function Vanish(s: Store): Store {
    s.(objects := map k | k in s.objects && !s.objects[k].terminating :: s.objects[k])
  }

  lemma VanishDrifts(s: Store)
    requires WellFormed(s)
    ensures WellFormed(Vanish(s)) && Drifts(s, Vanish(s))
  {
  }
}
