/** Who may write in a namespace: the rule that every deploy follows, and what it ensures of any number of deploys whose
    requests interleave. */
module Ownership {
  import opened Cluster

  const MANAGER := "orchestration-service"

  datatype Step = Step(request: Request, answer: Answer)

  /** The labels of `project` as managed by this service. */
  predicate OwnLabels(project: string, labels: Labels) {
    LabelAt(labels, ManagedBy) == MANAGER && LabelAt(labels, ProjectId) == project
  }

  /** The step shows that the namespace is the project's: its labels were read, or it was created. */
  predicate ShowsOwned(project: string, ns: string, step: Step) {
    || (step.request == Get(NamespaceKey(ns)) && step.answer.Found? && OwnLabels(project, step.answer.body.labels))
    || (step.request.Create? && step.request.key == NamespaceKey(ns) && step.answer.Accepted?)
  }

  ghost predicate Knows(project: string, trace: seq<Step>, ns: string) {
    exists j :: 0 <= j < |trace| && ShowsOwned(project, ns, trace[j])
  }

  /** The objects that carry the project's labels. */
  predicate Labelled(kind: Kind) {
    kind.DeploymentKind? || kind.ServiceKind? || kind.IngressKind?
  }

  /** A deploy for `project` that has come this far may make the request: it reads freely, creates namespaces under its
      own labels, and writes only in a namespace it has seen to be its own, under its own labels. */
  ghost predicate Allowed(project: string, trace: seq<Step>, r: Request) {
    match r
    case Get(_) => true
    case Create(k, body) =>
      if k.kind.NamespaceKind? then k == NamespaceKey(k.name) && OwnLabels(project, body.labels)
      else Knows(project, trace, k.ns) && (Labelled(k.kind) ==> OwnLabels(project, body.labels))
    case Update(k, body) =>
      !k.kind.NamespaceKind? && Knows(project, trace, k.ns) && (Labelled(k.kind) ==> OwnLabels(project, body.labels))
    case Delete(k) => !k.kind.NamespaceKind? && Knows(project, trace, k.ns)
  }

  ghost predicate Disciplined(project: string, trace: seq<Step>) {
    forall j :: 0 <= j < |trace| ==> Allowed(project, trace[..j], trace[j].request)
  }

  lemma DisciplinedSnoc(project: string, trace: seq<Step>, step: Step)
    requires Disciplined(project, trace) && Allowed(project, trace, step.request)
    ensures Disciplined(project, trace + [step])
    ensures forall ns :: Knows(project, trace, ns) || ShowsOwned(project, ns, step) ==> Knows(project, trace + [step], ns)
  {
    var longer := trace + [step];
    forall j | 0 <= j < |longer| ensures Allowed(project, longer[..j], longer[j].request) {
      assert longer[..j] == if j < |trace| then trace[..j] else trace;
    }
    forall ns | Knows(project, trace, ns) || ShowsOwned(project, ns, step) ensures Knows(project, longer, ns) {
      if ShowsOwned(project, ns, step) {
        assert ShowsOwned(project, ns, longer[|trace|]);
      } else {
        var j :| 0 <= j < |trace| && ShowsOwned(project, ns, trace[j]);
        assert ShowsOwned(project, ns, longer[j]);
      }
    }
  }

  // ---- Many deploys on one cluster ----

  /** The cluster, the requests each deploy has made, and the objects any of them has written. */
  datatype Shared = Shared(store: Store, traces: seq<seq<Step>>, written: set<Key>)

  datatype Move =
    | Serve(w: nat, request: Request, fault: Fault, address: Address)
    | Drift(to: Store)

  /** Each deploy follows the rule; requests may break before or after taking effect. */
  ghost predicate Enabled(projects: seq<string>, s: Shared, m: Move) {
    match m
    case Serve(w, r, _, _) =>
      && WellFormed(s.store) && w < |projects| == |s.traces|
      && WellTyped(r) && Allowed(projects[w], s.traces[w], r)
    case Drift(to) => WellFormed(to) && Drifts(s.store, to)
  }

  ghost function Apply(projects: seq<string>, s: Shared, m: Move): Shared
    requires Enabled(projects, s, m)
  {
    match m
    case Serve(w, r, f, address) =>
      Shared(FaultyEffect(s.store, r, f, address),
             s.traces[w := s.traces[w] + [Step(r, FaultyReply(s.store, r, f))]],
             if (r.Create? || r.Update?) && !f.BreaksBefore? && Reply(s.store, r).Accepted? then s.written + {r.key} else s.written)
    case Drift(to) => s.(store := to)
  }

  ghost predicate Legal(projects: seq<string>, s: Shared, run: seq<Move>)
    decreases |run|
  {
    run != [] ==> Enabled(projects, s, run[0]) && Legal(projects, Apply(projects, s, run[0]), run[1..])
  }

  ghost function ExecAll(projects: seq<string>, s: Shared, run: seq<Move>): Shared
    requires Legal(projects, s, run)
    decreases |run|
  {
    if run == [] then s else ExecAll(projects, Apply(projects, s, run[0]), run[1..])
  }

  /** Nobody has made a request yet, and no namespace is being deleted. */
  ghost predicate Starts(projects: seq<string>, s: Shared) {
    && WellFormed(s.store) && |s.traces| == |projects| && (forall w :: 0 <= w < |s.traces| ==> s.traces[w] == [])
    && s.written == {} && NamespacesStay(s.store)
  }

  ghost predicate NamespacesStay(s: Store) {
    forall k :: k in s.objects && k.kind.NamespaceKind? ==> !s.objects[k].terminating
  }

  /** The labels of a namespace; none if it does not exist. */
  function NamespaceLabels(s: Store, ns: string): Labels {
    if NamespaceKey(ns) in s.objects then s.objects[NamespaceKey(ns)].labels else map[]
  }

  ghost predicate KnowledgeHolds(project: string, trace: seq<Step>, s: Store) {
    forall ns :: Knows(project, trace, ns) ==> NamespaceKey(ns) in s.objects && OwnLabels(project, NamespaceLabels(s, ns))
  }

  /** What was written carries the labels of its namespace. */
  ghost predicate WrittenFits(s: Store, k: Key) {
    Labelled(k.kind) && k in s.objects ==>
      && NamespaceKey(k.ns) in s.objects
      && OwnLabels(LabelAt(NamespaceLabels(s, k.ns), ProjectId), NamespaceLabels(s, k.ns))
      && OwnLabels(LabelAt(NamespaceLabels(s, k.ns), ProjectId), s.objects[k].labels)
  }

  ghost predicate Inv(projects: seq<string>, s: Shared) {
    && WellFormed(s.store) && NamespacesStay(s.store) && |s.traces| == |projects|
    && (forall w :: 0 <= w < |projects| ==> KnowledgeHolds(projects[w], s.traces[w], s.store))
    && (forall k :: k in s.written ==> WrittenFits(s.store, k))
  }

  /** Namespaces stay, with the labels they have. */
  ghost predicate NamespacesKept(s: Store, t: Store) {
    forall k :: k in s.objects && k.kind.NamespaceKind? ==> k in t.objects && t.objects[k].labels == s.objects[k].labels
  }

  lemma RequestKeepsNamespaces(project: string, trace: seq<Step>, s: Store, r: Request, f: Fault, address: Address)
    requires WellFormed(s) && WellTyped(r) && NamespacesStay(s) && Allowed(project, trace, r)
    ensures var t := FaultyEffect(s, r, f, address); WellFormed(t) && NamespacesStay(t) && NamespacesKept(s, t)
  {
    EffectIsWellFormed(s, r, address);
  }

  lemma DriftKeepsNamespaces(s: Store, t: Store)
    requires Drifts(s, t) && NamespacesStay(s)
    ensures NamespacesStay(t) && NamespacesKept(s, t)
  {
    forall k | k in s.objects && k.kind.NamespaceKind? ensures k in t.objects && t.objects[k].labels == s.objects[k].labels {
      assert Held(s, t, k) && At(s, k).Some? && At(t, k).Some?;
    }
    forall k | k in t.objects && k.kind.NamespaceKind? ensures !t.objects[k].terminating {
      assert Held(s, t, k) && At(t, k).Some?;
    }
  }

  lemma KnowledgeKept(project: string, trace: seq<Step>, s: Store, t: Store)
    requires KnowledgeHolds(project, trace, s) && NamespacesKept(s, t)
    ensures KnowledgeHolds(project, trace, t)
  {
    forall ns | Knows(project, trace, ns) ensures NamespaceKey(ns) in t.objects && OwnLabels(project, NamespaceLabels(t, ns)) {
      assert NamespaceKey(ns).kind.NamespaceKind?;
    }
  }

  /** What a deploy learns from an answer is so. */
  lemma AnswersTellTheTruth(project: string, trace: seq<Step>, s: Store, r: Request, f: Fault, address: Address)
    requires WellFormed(s) && WellTyped(r) && NamespacesStay(s) && Allowed(project, trace, r) && KnowledgeHolds(project, trace, s)
    ensures KnowledgeHolds(project, trace + [Step(r, FaultyReply(s, r, f))], FaultyEffect(s, r, f, address))
  {
    var step := Step(r, FaultyReply(s, r, f));
    var t := FaultyEffect(s, r, f, address);
    var longer := trace + [step];
    RequestKeepsNamespaces(project, trace, s, r, f, address);
    KnowledgeKept(project, trace, s, t);
    forall ns | Knows(project, longer, ns) ensures NamespaceKey(ns) in t.objects && OwnLabels(project, NamespaceLabels(t, ns)) {
      var j :| 0 <= j < |longer| && ShowsOwned(project, ns, longer[j]);
      if j < |trace| { assert ShowsOwned(project, ns, trace[j]) && Knows(project, trace, ns); }
    }
  }

  /** An object written carries the labels of a namespace the deploy knows. */
  lemma WritesFit(project: string, trace: seq<Step>, s: Store, r: Request, f: Fault, address: Address)
    requires WellFormed(s) && WellTyped(r) && NamespacesStay(s) && Allowed(project, trace, r) && KnowledgeHolds(project, trace, s)
    requires (r.Create? || r.Update?) && !f.BreaksBefore? && Reply(s, r).Accepted?
    ensures WrittenFits(FaultyEffect(s, r, f, address), r.key)
  {
    if Labelled(r.key.kind) {
      assert Knows(project, trace, r.key.ns);
      RequestKeepsNamespaces(project, trace, s, r, f, address);
    }
  }

  lemma OtherWritesStillFit(project: string, trace: seq<Step>, s: Store, r: Request, f: Fault, address: Address, k: Key)
    requires WellFormed(s) && WellTyped(r) && NamespacesStay(s) && Allowed(project, trace, r) && WrittenFits(s, k)
    requires k != r.key || !(r.Create? || r.Update?) || f.BreaksBefore? || !Reply(s, r).Accepted?
    ensures WrittenFits(FaultyEffect(s, r, f, address), k)
  {
    RequestKeepsNamespaces(project, trace, s, r, f, address);
    EffectIsWellFormed(s, r, address);
    var t := FaultyEffect(s, r, f, address);
    if k in t.objects && Labelled(k.kind) {
      assert k in s.objects && t.objects[k].labels == s.objects[k].labels by {
        if k != r.key { assert At(t, k) == At(s, k); }
      }
    }
  }

  lemma DriftKeepsWritten(s: Store, t: Store, k: Key)
    requires Drifts(s, t) && NamespacesStay(s) && WrittenFits(s, k)
    ensures WrittenFits(t, k)
  {
    DriftKeepsNamespaces(s, t);
    assert Held(s, t, k);
    if k in t.objects { assert At(t, k) == At(s, k) && At(t, k).Some?; }
  }

  lemma StepKeepsInv(projects: seq<string>, s: Shared, m: Move)
    requires Inv(projects, s) && Enabled(projects, s, m)
    ensures Inv(projects, Apply(projects, s, m)) && NamespacesKept(s.store, Apply(projects, s, m).store)
  {
    var s' := Apply(projects, s, m);
    match m
    case Serve(w, r, f, address) =>
      var project, trace := projects[w], s.traces[w];
      RequestKeepsNamespaces(project, trace, s.store, r, f, address);
      AnswersTellTheTruth(project, trace, s.store, r, f, address);
      forall v | 0 <= v < |projects| ensures KnowledgeHolds(projects[v], s'.traces[v], s'.store) {
        if v != w { KnowledgeKept(projects[v], s.traces[v], s.store, s'.store); }
      }
      forall k | k in s'.written ensures WrittenFits(s'.store, k) {
        if k == r.key && (r.Create? || r.Update?) && !f.BreaksBefore? && Reply(s.store, r).Accepted? {
          WritesFit(project, trace, s.store, r, f, address);
        } else {
          OtherWritesStillFit(project, trace, s.store, r, f, address, k);
        }
      }
    case Drift(to) =>
      DriftKeepsNamespaces(s.store, to);
      forall v | 0 <= v < |projects| ensures KnowledgeHolds(projects[v], s'.traces[v], s'.store) {
        KnowledgeKept(projects[v], s.traces[v], s.store, to);
      }
      forall k | k in s'.written ensures WrittenFits(s'.store, k) { DriftKeepsWritten(s.store, to, k); }
  }

  lemma {:induction false} RunKeepsInv(projects: seq<string>, s: Shared, run: seq<Move>)
    requires Inv(projects, s) && Legal(projects, s, run)
    ensures Inv(projects, ExecAll(projects, s, run)) && NamespacesKept(s.store, ExecAll(projects, s, run).store)
    decreases |run|
  {
    if run != [] {
      StepKeepsInv(projects, s, run[0]);
      RunKeepsInv(projects, Apply(projects, s, run[0]), run[1..]);
    }
  }

  lemma StartsInv(projects: seq<string>, s: Shared)
    requires Starts(projects, s)
    ensures Inv(projects, s)
  {
  }

  /** A namespace never changes its labels, whatever deploys run on the cluster and however their requests interleave;
      in particular it keeps its project. */
  lemma NamespacesKeepTheirProject(projects: seq<string>, s: Shared, run: seq<Move>, more: seq<Move>, ns: string)
    requires Starts(projects, s) && Legal(projects, s, run) && Legal(projects, ExecAll(projects, s, run), more)
    requires NamespaceKey(ns) in ExecAll(projects, s, run).store.objects
    ensures var early := ExecAll(projects, s, run);
            var late := ExecAll(projects, early, more);
            NamespaceKey(ns) in late.store.objects && NamespaceLabels(late.store, ns) == NamespaceLabels(early.store, ns)
  {
    StartsInv(projects, s);
    RunKeepsInv(projects, s, run);
    RunKeepsInv(projects, ExecAll(projects, s, run), more);
    assert NamespaceKey(ns).kind.NamespaceKind?;
  }

  /** Every deployment, service and ingress that a deploy has written, and that still exists, carries the project label
      of its namespace; also when two deploys race to create that namespace. */
  lemma WritesCarryTheirNamespacesProject(projects: seq<string>, s: Shared, run: seq<Move>, k: Key)
    requires Starts(projects, s) && Legal(projects, s, run)
    requires k in ExecAll(projects, s, run).written && Labelled(k.kind) && k in ExecAll(projects, s, run).store.objects
    ensures var store := ExecAll(projects, s, run).store;
            && NamespaceKey(k.ns) in store.objects
            && LabelAt(store.objects[k].labels, ProjectId) == LabelAt(NamespaceLabels(store, k.ns), ProjectId)
            && LabelAt(store.objects[k].labels, ManagedBy) == MANAGER
  {
    StartsInv(projects, s);
    RunKeepsInv(projects, s, run);
    assert WrittenFits(ExecAll(projects, s, run).store, k);
  }

  /** The step is a request to write in the namespace. */
  predicate WritesIn(step: Step, ns: string) {
    !step.request.Get? && !step.request.key.kind.NamespaceKind? && step.request.key.ns == ns
  }

  ghost predicate AllDisciplined(projects: seq<string>, s: Shared) {
    |s.traces| == |projects| && forall w :: 0 <= w < |projects| ==> Disciplined(projects[w], s.traces[w])
  }

  lemma {:induction false} RunKeepsDiscipline(projects: seq<string>, s: Shared, run: seq<Move>)
    requires AllDisciplined(projects, s) && Legal(projects, s, run)
    ensures AllDisciplined(projects, ExecAll(projects, s, run))
    decreases |run|
  {
    if run != [] {
      if run[0].Serve? {
        var w, r := run[0].w, run[0].request;
        DisciplinedSnoc(projects[w], s.traces[w], Step(r, FaultyReply(s.store, r, run[0].fault)));
      }
      RunKeepsDiscipline(projects, Apply(projects, s, run[0]), run[1..]);
    }
  }

  lemma WritersKnow(project: string, trace: seq<Step>, j: nat, ns: string)
    requires Disciplined(project, trace) && j < |trace| && WritesIn(trace[j], ns)
    ensures Knows(project, trace, ns)
  {
    assert Knows(project, trace[..j], ns);
    var i :| 0 <= i < j && ShowsOwned(project, ns, trace[..j][i]);
    assert ShowsOwned(project, ns, trace[i]);
  }

  lemma KnowersAgree(projects: seq<string>, s: Shared, v: nat, w: nat, ns: string)
    requires Inv(projects, s) && v < |projects| && w < |projects|
    requires Knows(projects[v], s.traces[v], ns) && Knows(projects[w], s.traces[w], ns)
    ensures projects[v] == projects[w]
  {
    assert KnowledgeHolds(projects[v], s.traces[v], s.store);
  }

  /** Only deploys of one project ever ask to write in a namespace. */
  lemma OneProjectPerNamespace(projects: seq<string>, s: Shared, run: seq<Move>, v: nat, w: nat, j: nat, k: nat, ns: string)
    requires Starts(projects, s) && Legal(projects, s, run)
    requires var end := ExecAll(projects, s, run);
             && v < |end.traces| && w < |end.traces| && j < |end.traces[v]| && k < |end.traces[w]|
             && WritesIn(end.traces[v][j], ns) && WritesIn(end.traces[w][k], ns)
    ensures v < |projects| && w < |projects| && projects[v] == projects[w]
  {
    StartsInv(projects, s);
    RunKeepsInv(projects, s, run);
    RunKeepsDiscipline(projects, s, run);
    var end := ExecAll(projects, s, run);
    WritersKnow(projects[v], end.traces[v], j, ns);
    WritersKnow(projects[w], end.traces[w], k, ns);
    KnowersAgree(projects, end, v, w, ns);
  }

  // ---- Why no namespace may be on its way out ----

  function OwnSet(project: string): Labels {
    map[ManagedBy := MANAGER, ProjectId := project]
  }

  /** Nobody has made a request yet; any object may be on its way out. */
  ghost predicate Fresh(projects: seq<string>, s: Shared) {
    && WellFormed(s.store) && |s.traces| == |projects| && (forall w :: 0 <= w < |s.traces| ==> s.traces[w] == [])
    && s.written == {}
  }

  function Without(s: Store, k: Key): Store {
    s.(objects := map key | key in s.objects && key != k :: s.objects[key])
  }

  lemma GoingGoes(s: Store, k: Key)
    requires WellFormed(s) && Going(s, k)
    ensures WellFormed(Without(s, k)) && Drifts(s, Without(s, k))
  {
    forall key ensures Held(s, Without(s, k), key) {}
  }

  /** Exactly when namespaces keep their labels in every run: when none is on its way out at the start. */
  lemma NamespacesAreKeptExactly(projects: seq<string>, s: Shared)
    requires Fresh(projects, s)
    ensures NamespacesStay(s.store) <==>
            forall run :: Legal(projects, s, run) ==> NamespacesKept(s.store, ExecAll(projects, s, run).store)
  {
    if NamespacesStay(s.store) {
      forall run | Legal(projects, s, run) ensures NamespacesKept(s.store, ExecAll(projects, s, run).store) {
        StartsInv(projects, s);
        RunKeepsInv(projects, s, run);
      }
    } else {
      var k :| k in s.store.objects && k.kind.NamespaceKind? && s.store.objects[k].terminating;
      var vanish := Drift(Without(s.store, k));
      GoingGoes(s.store, k);
      FirstMove(projects, s, vanish, []);
      assert [vanish] + [] == [vanish];
      assert !NamespacesKept(s.store, ExecAll(projects, s, [vanish]).store);
    }
  }

  /** Whenever a namespace of some project is on its way out, and there is a deploy of that project and one of another, it
      can change hands between the check of the first and its writes: the first sees that it is its own, it goes away, the
      second creates it anew, and the first writes in it. */
  lemma DyingNamespaceChangesHands(projects: seq<string>, s: Shared, v: nat, w: nat, k: Key, spec: Spec) returns (run: seq<Move>)
    requires Fresh(projects, s) && v < |projects| && w < |projects| && projects[v] != projects[w]
    requires Going(s.store, NamespaceKey(k.ns)) && OwnLabels(projects[v], NamespaceLabels(s.store, k.ns))
    requires Labelled(k.kind) && Fits(k.kind, spec) && k !in s.store.objects
    ensures Legal(projects, s, run)
    ensures var end := ExecAll(projects, s, run);
            && k in end.written && k in end.store.objects && NamespaceKey(k.ns) in end.store.objects
            && OwnLabels(projects[v], end.store.objects[k].labels)
            && OwnLabels(projects[w], NamespaceLabels(end.store, k.ns))
  {
    var nk := NamespaceKey(k.ns);
    var look := Serve(v, Get(nk), Works, NO_ADDRESS);
    var vanish := Drift(Without(s.store, nk));
    var s1 := Apply(projects, s, look);
    assert s1.traces[v] == [Step(Get(nk), Found(s.store.objects[nk]))] && s1.store == s.store;
    assert ShowsOwned(projects[v], k.ns, s1.traces[v][0]);
    GoingGoes(s.store, nk);
    var rest := TakenAndWritten(projects, Apply(projects, s1, vanish), v, w, k, spec);
    FirstMove(projects, s1, vanish, rest);
    FirstMove(projects, s, look, [vanish] + rest);
    run := [look] + ([vanish] + rest);
  }

  lemma FirstMove(projects: seq<string>, s: Shared, m: Move, rest: seq<Move>)
    requires Enabled(projects, s, m) && Legal(projects, Apply(projects, s, m), rest)
    ensures Legal(projects, s, [m] + rest)
    ensures ExecAll(projects, s, [m] + rest) == ExecAll(projects, Apply(projects, s, m), rest)
  {
    assert ([m] + rest)[1..] == rest;
  }

  lemma TakenAndWritten(projects: seq<string>, s: Shared, v: nat, w: nat, k: Key, spec: Spec) returns (run: seq<Move>)
    requires Labelled(k.kind) && Fits(k.kind, spec) && WellFormed(s.store)
    requires v < |projects| == |s.traces| && w < |projects| && v != w && Knows(projects[v], s.traces[v], k.ns)
    requires NamespaceKey(k.ns) !in s.store.objects && k !in s.store.objects
    ensures Legal(projects, s, run)
    ensures var end := ExecAll(projects, s, run);
            && k in end.written && k in end.store.objects && NamespaceKey(k.ns) in end.store.objects
            && OwnLabels(projects[v], end.store.objects[k].labels)
            && OwnLabels(projects[w], NamespaceLabels(end.store, k.ns))
  {
    var p, q := projects[v], projects[w];
    var take := Serve(w, Create(NamespaceKey(k.ns), Object(OwnSet(q), 0, false, NamespaceSpec)), Works, NO_ADDRESS);
    var write := Serve(v, Create(k, Object(OwnSet(p), 0, false, spec)), Works, NO_ADDRESS);
    var s1 := Apply(projects, s, take);
    EffectIsWellFormed(s.store, take.request, NO_ADDRESS);
    assert s1.traces[v] == s.traces[v];
    FirstMove(projects, s1, write, []);
    assert [write] + [] == [write] && [take] + [write] == [take, write];
    FirstMove(projects, s, take, [write]);
    run := [take, write];
  }
}
