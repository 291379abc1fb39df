/** Kubernetes names built from user text (names.go). */
module Names {
  import opened Wrappers

  const MAX_LABEL := 63

  predicate AlphaNum(c: char) {
    'a' <= c <= 'z' || '0' <= c <= '9'
  }

  /** The characters `strings.TrimSpace` removes. */
  predicate Space(c: char) {
    || '\t' <= c <= '\r' || c == ' ' || c == '\U{0085}' || c == '\U{00A0}'
    || c == '\U{1680}' || '\U{2000}' <= c <= '\U{200A}' || c == '\U{2028}' || c == '\U{2029}'
    || c == '\U{202F}' || c == '\U{205F}' || c == '\U{3000}'
  }

  /** Lower-casing as far as it can produce a character of [a-z0-9]: the two non-ASCII letters that
      lower to ASCII are the dotted capital I and the Kelvin sign. */
  function LowerChar(c: char): char {
    if 'A' <= c <= 'Z' then (c as int + 32) as char
    else if c == '\U{0130}' then 'i'
    else if c == '\U{212A}' then 'k'
    else c
  }

  function Lower(s: string): (r: string)
    ensures |r| == |s|
    ensures forall i :: 0 <= i < |s| ==> r[i] == LowerChar(s[i])
  {
    seq(|s|, i requires 0 <= i < |s| => LowerChar(s[i]))
  }

  function TrimLeft(s: string, cut: char -> bool): string {
    if s == "" || !cut(s[0]) then s else TrimLeft(s[1..], cut)
  }

  function TrimRight(s: string, cut: char -> bool): string {
    if s == "" || !cut(s[|s| - 1]) then s else TrimRight(s[..|s| - 1], cut)
  }

  function Trim(s: string, cut: char -> bool): string {
    TrimRight(TrimLeft(s, cut), cut)
  }

  function TrimSpace(s: string): string {
    Trim(s, c => Space(c))
  }

  function TrimDashes(s: string): string {
    Trim(s, c => c == '-')
  }

  function TruncateLabel(value: string): string {
    var v := TrimDashes(value);
    if |v| <= MAX_LABEL then v else TrimDashes(v[..MAX_LABEL])
  }

  /** A lower-case DNS label without its length bound, and with no double dash. */
  ghost predicate Tidy(s: string) {
    && s != ""
    && AlphaNum(s[0]) && AlphaNum(s[|s| - 1])
    && (forall i :: 0 <= i < |s| ==> AlphaNum(s[i]) || s[i] == '-')
    && (forall i :: 0 <= i < |s| - 1 ==> AlphaNum(s[i]) || AlphaNum(s[i + 1]))
  }

  /** A label in the sense of section 2.1 of RFC 1123 and section 2.3.1 of RFC 1035. */
  ghost predicate Canonical(s: string) {
    Tidy(s) && |s| <= MAX_LABEL
  }

  // ---- The reference: maximal runs of [a-z0-9], joined by single dashes ----

  function RunLength(t: string): (n: nat)
    ensures n <= |t|
    ensures forall i :: 0 <= i < n ==> AlphaNum(t[i])
    ensures n < |t| ==> !AlphaNum(t[n])
  {
    if t == "" || !AlphaNum(t[0]) then 0 else 1 + RunLength(t[1..])
  }

  function Runs(t: string): seq<string>
    decreases |t|
  {
    if t == "" then []
    else if !AlphaNum(t[0]) then Runs(t[1..])
    else [t[..RunLength(t)]] + Runs(t[RunLength(t)..])
  }

  function Join(runs: seq<string>): string {
    if |runs| == 0 then ""
    else if |runs| == 1 then runs[0]
    else runs[0] + "-" + Join(runs[1..])
  }

  /** What `sanitizeDNSLabel` computes. */
  function Normalize(value: string, fallback: string): string {
    var lowered := Lower(TrimSpace(value));
    var text := if lowered == "" then fallback else lowered;
    var joined := Join(Runs(text));
    TruncateLabel(if joined == "" then fallback else joined)
  }

  ghost predicate GoodRuns(runs: seq<string>) {
    forall i :: 0 <= i < |runs| ==> runs[i] != "" && forall j :: 0 <= j < |runs[i]| ==> AlphaNum(runs[i][j])
  }

  lemma {:induction false} RunsAreGood(t: string)
    ensures GoodRuns(Runs(t))
    ensures (exists i :: 0 <= i < |t| && AlphaNum(t[i])) <==> Runs(t) != []
    decreases |t|
  {
    if t == "" {
    } else if !AlphaNum(t[0]) {
      RunsAreGood(t[1..]);
      if i :| 0 <= i < |t| && AlphaNum(t[i]) { assert t[1..][i - 1] == t[i]; }
      if i :| 0 <= i < |t[1..]| && AlphaNum(t[1..][i]) { assert t[i + 1] == t[1..][i]; }
    } else {
      RunsAreGood(t[RunLength(t)..]);
    }
  }

  lemma {:induction false} JoinIsTidy(runs: seq<string>)
    requires runs != [] && GoodRuns(runs)
    ensures Tidy(Join(runs))
  {
    if |runs| > 1 {
      JoinIsTidy(runs[1..]);
      var head, tail := runs[0] + "-", Join(runs[1..]);
      assert Join(runs) == head + tail;
      assert (head + tail)[|head|..] == tail;
    }
  }

  lemma {:induction false} JoinSnoc(runs: seq<string>, run: string)
    ensures Join(runs + [run]) == if runs == [] then run else Join(runs) + "-" + run
  {
    if |runs| > 0 {
      assert (runs + [run])[1..] == runs[1..] + [run];
      JoinSnoc(runs[1..], run);
    }
  }

  ghost predicate EndsInRun(t: string) {
    t != "" && AlphaNum(t[|t| - 1])
  }

  lemma RunLengthSnoc(t: string, c: char)
    ensures RunLength(t + [c]) ==
            if RunLength(t) == |t| && AlphaNum(c) then |t| + 1 else RunLength(t)
  {
    var u := t + [c];
    var n := RunLength(t);
    assert n < |t| ==> u[n] == t[n];
    assert u[|t|] == c;
  }

  lemma {:induction false} RunsSnoc(t: string, c: char)
    ensures !AlphaNum(c) ==> Runs(t + [c]) == Runs(t)
    ensures AlphaNum(c) && !EndsInRun(t) ==> Runs(t + [c]) == Runs(t) + [[c]]
    ensures AlphaNum(c) && EndsInRun(t) ==>
              Runs(t) != [] && Runs(t + [c]) == Runs(t)[..|Runs(t)| - 1] + [Runs(t)[|Runs(t)| - 1] + [c]]
    decreases |t|
  {
    var u := t + [c];
    var n := RunLength(t);
    RunLengthSnoc(t, c);
    if t == "" {
      assert u[1..] == "" && Runs("") == [];
      assert AlphaNum(c) ==> u[..1] == [c];
    } else if n == 0 {
      assert u[1..] == t[1..] + [c];
      RunsSnoc(t[1..], c);
    } else if n < |t| {
      assert u[..n] == t[..n] && u[n..] == t[n..] + [c];
      RunsSnoc(t[n..], c);
      RunsPrefix(t[..n], Runs(t[n..]), [c]);
    } else {
      WholeRunSnoc(t, c);
    }
  }

  /** Changing or adding a last run commutes with putting a run in front. */
  lemma RunsPrefix(run: string, runs: seq<string>, c: string)
    ensures [run] + (runs + [c]) == ([run] + runs) + [c]
    ensures runs != [] ==>
              var all := [run] + runs;
              [run] + (runs[..|runs| - 1] + [runs[|runs| - 1] + c]) == all[..|all| - 1] + [all[|all| - 1] + c]
  {
  }

  lemma WholeRun(t: string)
    requires t != "" && RunLength(t) == |t|
    ensures Runs(t) == [t] && EndsInRun(t)
  {
    assert t[..|t|] == t && t[|t|..] == "";
  }

  lemma WholeRunSnoc(t: string, c: char)
    requires t != "" && RunLength(t) == |t|
    ensures Runs(t) == [t] && EndsInRun(t)
    ensures Runs(t + [c]) == if AlphaNum(c) then [t + [c]] else [t]
  {
    RunLengthSnoc(t, c);
    WholeRun(t);
    if AlphaNum(c) {
      WholeRun(t + [c]);
    } else {
      var n := RunLength(t);
      var u := t + [c];
      assert u[..n] == t;
      assert u[n..] == [c];
      assert Runs([c]) == Runs([c][1..]) == [];
    }
  }

  /** The builder's last byte is a dash that more text may still have to follow. */
  ghost predicate DashPending(t: string) {
    Runs(t) != [] && !EndsInRun(t)
  }

  /** The builder's contents once the loop has read `t`. */
  ghost function Built(t: string): string {
    Join(Runs(t)) + if DashPending(t) then "-" else ""
  }

  lemma {:induction false} JoinExtend(runs: seq<string>, c: char)
    requires runs != []
    ensures Join(runs[..|runs| - 1] + [runs[|runs| - 1] + [c]]) == Join(runs) + [c]
  {
    var longer := runs[..|runs| - 1] + [runs[|runs| - 1] + [c]];
    if |runs| > 1 {
      var tail := runs[1..];
      JoinExtend(tail, c);
      assert longer[1..] == tail[..|tail| - 1] + [tail[|tail| - 1] + [c]];
      assert longer[0] == runs[0];
    }
  }

  lemma BuiltSnocLetter(t: string, c: char)
    requires AlphaNum(c)
    ensures Built(t + [c]) == Built(t) + [c] && !DashPending(t + [c])
  {
    RunsSnoc(t, c);
    assert EndsInRun(t + [c]);
    if EndsInRun(t) {
      JoinExtend(Runs(t), c);
    } else {
      JoinSnoc(Runs(t), [c]);
      assert Runs(t) != [] ==> Join(Runs(t)) + "-" + [c] == Built(t) + [c];
    }
  }

  lemma BuiltSnocBreak(t: string, c: char)
    requires !AlphaNum(c)
    ensures Built(t + [c]) == if Built(t) == "" || DashPending(t) then Built(t) else Built(t) + "-"
    ensures DashPending(t + [c]) <==> Built(t) != ""
  {
    RunsSnoc(t, c);
    RunsAreGood(t);
    assert !EndsInRun(t + [c]);
    if Runs(t) != [] { JoinIsTidy(Runs(t)); }
  }

  /** The loop of `sanitizeDNSLabel` computes the reference. */
  method SanitizeDNSLabel(value: string, fallback: string) returns (clean: string)
    ensures clean == Normalize(value, fallback)
  {
    var text := Lower(TrimSpace(value));
    if text == "" { text := fallback; }
    var builder := "";
    var lastDash := false;
    for i := 0 to |text|
      invariant lastDash <==> DashPending(text[..i])
      invariant builder == Built(text[..i])
    {
      var r := text[i];
      assert text[..i + 1] == text[..i] + [r];
      if AlphaNum(r) {
        BuiltSnocLetter(text[..i], r);
        builder := builder + [r];
        lastDash := false;
        continue;
      }
      BuiltSnocBreak(text[..i], r);
      if builder == "" || lastDash { continue; }
      builder := builder + "-";
      lastDash := true;
    }
    assert text[..|text|] == text;
    BuiltTrimmed(text);
    var result := TrimDashes(builder);
    if result == "" { result := fallback; }
    clean := TruncateLabel(result);
  }

  lemma BuiltTrimmed(t: string)
    ensures TrimDashes(Built(t)) == Join(Runs(t))
  {
    RunsAreGood(t);
    if Runs(t) != [] {
      JoinIsTidy(Runs(t));
      TrimDashesOfTidy(Join(Runs(t)));
    }
  }

  lemma TrimDashesOfTidy(s: string)
    requires Tidy(s)
    ensures TrimDashes(s) == s && TrimDashes(s + "-") == s
  {
    assert (s + "-")[..|s|] == s;
  }

  lemma TruncateTidy(s: string)
    requires Tidy(s)
    ensures Canonical(TruncateLabel(s))
    ensures |s| <= MAX_LABEL ==> TruncateLabel(s) == s
  {
    TrimDashesOfTidy(s);
    if |s| > MAX_LABEL {
      var cut := s[..MAX_LABEL];
      if !AlphaNum(cut[MAX_LABEL - 1]) {
        assert AlphaNum(cut[MAX_LABEL - 2]);
        var kept := cut[..MAX_LABEL - 1];
        assert Tidy(kept) && cut == kept + "-";
        TrimDashesOfTidy(kept);
      } else {
        assert Tidy(cut);
        TrimDashesOfTidy(cut);
      }
    }
  }

  /** Normalised labels are DNS labels. */
  lemma NormalizeIsCanonical(value: string, fallback: string)
    requires Canonical(fallback)
    ensures Canonical(Normalize(value, fallback))
  {
    var lowered := Lower(TrimSpace(value));
    var text := if lowered == "" then fallback else lowered;
    RunsAreGood(text);
    if Runs(text) != [] { JoinIsTidy(Runs(text)); }
    TruncateTidy(if Join(Runs(text)) == "" then fallback else Join(Runs(text)));
  }

  lemma {:induction false} RunsRebuildTidy(s: string)
    requires Tidy(s)
    ensures Join(Runs(s)) == s
    decreases |s|
  {
    var n := RunLength(s);
    assert n > 0;
    if n == |s| {
      assert s[..n] == s && s[n..] == "" && Runs("") == [];
    } else {
      assert s[n] == '-';
      var rest := s[n + 1..];
      assert Tidy(rest) by {
        assert AlphaNum(s[n + 1]);
        assert rest[0] == s[n + 1] && rest[|rest| - 1] == s[|s| - 1];
        forall i | 0 <= i < |rest| - 1 ensures AlphaNum(rest[i]) || AlphaNum(rest[i + 1]) {
          assert rest[i] == s[n + 1 + i] && rest[i + 1] == s[n + 2 + i];
        }
      }
      RunsRebuildTidy(rest);
      RunsAreGood(rest);
      assert s[n..][1..] == rest && Runs(s[n..]) == Runs(rest);
      assert s == s[..n] + "-" + rest;
    }
  }

  /** A label that is already canonical is left alone. */
  lemma NormalizeFixesCanonical(s: string, fallback: string)
    requires Canonical(s)
    ensures Normalize(s, fallback) == s
  {
    assert TrimSpace(s) == s;
    assert Lower(s) == s;
    RunsRebuildTidy(s);
    TruncateTidy(s);
  }

  /** Normalising twice, even with another fallback, is normalising once. */
  lemma NormalizeIdempotent(value: string, fallback: string, fallback': string)
    requires Canonical(fallback)
    ensures Normalize(Normalize(value, fallback), fallback') == Normalize(value, fallback)
  {
    NormalizeIsCanonical(value, fallback);
    NormalizeFixesCanonical(Normalize(value, fallback), fallback');
  }

  // ---- Names composed of two labels ----

  datatype DeploymentTarget = DeploymentTarget(
    ns: string, deploymentName: string, serviceName: string, ingressName: string,
    ingressHost: string, containerPort: int, tlsEnabled: bool)

  datatype NameConfig = NameConfig(baseDomain: string, namespacePrefix: string, tlsSecretName: string)

  function Composed(left: string, leftFallback: string, right: string, rightFallback: string): string {
    TruncateLabel(Normalize(left, leftFallback) + "-" + Normalize(right, rightFallback))
  }

  function BuildNamespaceName(prefix: string, projectSlug: string): string {
    Composed(prefix, "shiply-prj", projectSlug, "project")
  }

  function BuildResourceName(prefix: string, serviceSlug: string): string {
    Composed(prefix, "app", serviceSlug, "service")
  }

  function CleanDomain(baseDomain: string): string {
    Trim(Lower(TrimSpace(baseDomain)), c => c == '.')
  }

  function BuildIngressHost(serviceSlug: string, projectSlug: string, baseDomain: string): Option<string> {
    if CleanDomain(baseDomain) == "" then None
    else Some(Composed(serviceSlug, "service", projectSlug, "project") + "." + CleanDomain(baseDomain))
  }

  /** `targetForRequest`: the slugs are normalised once here and again by each builder. */
  function TargetFor(cfg: NameConfig, rawProject: string, rawService: string, port: int): Option<DeploymentTarget> {
    var project := Normalize(rawProject, "project");
    var service := Normalize(rawService, "service");
    match BuildIngressHost(service, project, cfg.baseDomain)
    case None => None
    case Some(host) =>
      Some(DeploymentTarget(
             BuildNamespaceName(cfg.namespacePrefix, project),
             BuildResourceName("app", service), BuildResourceName("app", service), BuildResourceName("app", service),
             host, port, cfg.tlsSecretName != ""))
  }

  lemma FallbacksAreCanonical()
    ensures Canonical("shiply-prj") && Canonical("project") && Canonical("service") && Canonical("app")
  {
  }

  lemma TidyPair(a: string, b: string)
    requires Tidy(a) && Tidy(b)
    ensures Tidy(a + "-" + b)
  {
    var s := a + "-" + b;
    forall i | 0 <= i < |s| - 1 ensures AlphaNum(s[i]) || AlphaNum(s[i + 1]) {
      if i < |a| - 1 { assert s[i] == a[i] && s[i + 1] == a[i + 1]; }
      else if i > |a| { assert s[i] == b[i - |a| - 1] && s[i + 1] == b[i - |a|]; }
    }
  }

  /** Every composed name is a DNS label, whatever the user text. */
  lemma ComposedIsCanonical(left: string, leftFallback: string, right: string, rightFallback: string)
    requires Canonical(leftFallback) && Canonical(rightFallback)
    ensures Canonical(Composed(left, leftFallback, right, rightFallback))
  {
    NormalizeIsCanonical(left, leftFallback);
    NormalizeIsCanonical(right, rightFallback);
    TidyPair(Normalize(left, leftFallback), Normalize(right, rightFallback));
    TruncateTidy(Normalize(left, leftFallback) + "-" + Normalize(right, rightFallback));
  }

  /** All the names of a target are DNS labels (the host in its first label), and normalising the slugs before
      building changes none of them. */
  lemma TargetNamesAreCanonical(cfg: NameConfig, rawProject: string, rawService: string, port: int)
    ensures TargetFor(cfg, rawProject, rawService, port).None? <==> CleanDomain(cfg.baseDomain) == ""
    ensures
      match TargetFor(cfg, rawProject, rawService, port)
      case None => true
      case Some(t) =>
        && Canonical(t.ns) && Canonical(t.deploymentName)
        && t.deploymentName == t.serviceName == t.ingressName
        && t.ns == BuildNamespaceName(cfg.namespacePrefix, rawProject)
        && t.deploymentName == BuildResourceName("app", rawService)
        && BuildIngressHost(rawService, rawProject, cfg.baseDomain) == Some(t.ingressHost)
        && (exists left :: Canonical(left) && t.ingressHost == left + "." + CleanDomain(cfg.baseDomain))
  {
    FallbacksAreCanonical();
    NormalizeIdempotent(rawProject, "project", "project");
    NormalizeIdempotent(rawService, "service", "service");
    ComposedIsCanonical(cfg.namespacePrefix, "shiply-prj", rawProject, "project");
    ComposedIsCanonical("app", "app", rawService, "service");
    ComposedIsCanonical(rawService, "service", rawProject, "project");
  }

  /** What is left of a label of which `room` characters fit: a cut that ends in a dash loses it. */
  function Shown(slug: string, room: int): string {
    if room <= 0 then ""
    else if |slug| <= room then slug
    else if slug[room - 1] == '-' then slug[..room - 1]
    else slug[..room]
  }

  /** The room a prefix and a dash leave in one label. */
  function Room(prefix: string): int {
    MAX_LABEL - 1 - |prefix|
  }

  function Beside(prefix: string, shown: string): string {
    if shown == "" then prefix else prefix + "-" + shown
  }

  lemma CutPair(p: string, s: string)
    requires Canonical(p) && Canonical(s) && |s| > Room(p)
    ensures TrimDashes((p + "-" + s)[..MAX_LABEL]) == Beside(p, Shown(s, Room(p)))
  {
    var room := Room(p);
    var cut := (p + "-" + s)[..MAX_LABEL];
    if room <= 0 {
      assert cut == if room == 0 then p + "-" else p;
      TrimDashesOfTidy(p);
    } else {
      assert cut == p + "-" + s[..room];
      var shown := Shown(s, room);
      assert Tidy(shown);
      TidyPair(p, shown);
      TrimDashesOfTidy(p + "-" + shown);
      if s[room - 1] == '-' { assert cut == p + "-" + shown + "-"; }
    }
  }

  /** A composed name is its first part, with as much of the second as fits beside it. */
  lemma ComposedShows(left: string, leftFallback: string, right: string, rightFallback: string)
    requires Canonical(leftFallback) && Canonical(rightFallback)
    ensures var p, s := Normalize(left, leftFallback), Normalize(right, rightFallback);
            Composed(left, leftFallback, right, rightFallback) == Beside(p, Shown(s, Room(p)))
  {
    var p, s := Normalize(left, leftFallback), Normalize(right, rightFallback);
    NormalizeIsCanonical(left, leftFallback);
    NormalizeIsCanonical(right, rightFallback);
    TidyPair(p, s);
    TrimDashesOfTidy(p + "-" + s);
    if |s| > Room(p) { CutPair(p, s); }
  }

  lemma BesideInjective(p: string, a: string, b: string)
    requires Beside(p, a) == Beside(p, b)
    ensures a == b
  {
    if a != "" && b != "" {
      assert (p + "-" + a)[|p| + 1..] == a && (p + "-" + b)[|p| + 1..] == b;
    }
  }

  /** Exactly when two projects share a namespace, for any slugs: when as much of their normalised slugs as fits beside the
      prefix is the same. */
  lemma NamespacesMeet(prefix: string, a: string, b: string)
    ensures var room := Room(Normalize(prefix, "shiply-prj"));
            BuildNamespaceName(prefix, a) == BuildNamespaceName(prefix, b) <==>
            Shown(Normalize(a, "project"), room) == Shown(Normalize(b, "project"), room)
  {
    var p := Normalize(prefix, "shiply-prj");
    FallbacksAreCanonical();
    ComposedShows(prefix, "shiply-prj", a, "project");
    ComposedShows(prefix, "shiply-prj", b, "project");
    if BuildNamespaceName(prefix, a) == BuildNamespaceName(prefix, b) {
      BesideInjective(p, Shown(Normalize(a, "project"), Room(p)), Shown(Normalize(b, "project"), Room(p)));
    }
  }

  /** The same for two services of a project and their deployments, services and ingresses. */
  lemma ResourcesMeet(a: string, b: string)
    ensures BuildResourceName("app", a) == BuildResourceName("app", b) <==>
            Shown(Normalize(a, "service"), Room("app")) == Shown(Normalize(b, "service"), Room("app"))
  {
    FallbacksAreCanonical();
    NormalizeFixesCanonical("app", "app");
    ComposedShows("app", "app", a, "service");
    ComposedShows("app", "app", b, "service");
    if BuildResourceName("app", a) == BuildResourceName("app", b) {
      BesideInjective("app", Shown(Normalize(a, "service"), Room("app")), Shown(Normalize(b, "service"), Room("app")));
    }
  }

  /** So canonical slugs that fit share a namespace only if they are equal. */
  lemma NamespacesSeparateProjects(prefix: string, a: string, b: string)
    requires Canonical(a) && Canonical(b)
    requires |a| <= Room(Normalize(prefix, "shiply-prj")) && |b| <= Room(Normalize(prefix, "shiply-prj"))
    ensures BuildNamespaceName(prefix, a) == BuildNamespaceName(prefix, b) <==> a == b
  {
    NamespacesMeet(prefix, a, b);
    NormalizeFixesCanonical(a, "project");
    NormalizeFixesCanonical(b, "project");
  }

  lemma ShownAgrees(a: string, b: string, room: int)
    requires 0 <= room < |a| && room < |b| && a[..room] == b[..room]
    ensures Shown(a, room) == Shown(b, room)
  {
    if room > 0 {
      assert a[..room][room - 1] == b[..room][room - 1];
      assert a[..room][..room - 1] == b[..room][..room - 1];
      assert a[..room - 1] == a[..room][..room - 1] && b[..room - 1] == b[..room][..room - 1];
    }
  }

  /** Slugs that agree on what fits share a namespace. */
  lemma LongSlugsCollide(prefix: string, a: string, b: string)
    requires Canonical(a) && Canonical(b)
    requires var room := Room(Normalize(prefix, "shiply-prj")); 0 <= room < |a| && room < |b| && a[..room] == b[..room]
    ensures BuildNamespaceName(prefix, a) == BuildNamespaceName(prefix, b)
  {
    ShownAgrees(a, b, Room(Normalize(prefix, "shiply-prj")));
    NamespacesMeet(prefix, a, b);
    NormalizeFixesCanonical(a, "project");
    NormalizeFixesCanonical(b, "project");
  }

  /** A slug that fits, with one character to spare, shares its namespace with a longer one that does not: the cut falls
      on the dash. */
  lemma FittingSlugCollides(prefix: string, a: string, tail: string)
    requires Canonical(a) && Canonical(a + "-" + tail) && tail != ""
    requires |a| + 1 == Room(Normalize(prefix, "shiply-prj"))
    ensures a != a + "-" + tail && BuildNamespaceName(prefix, a) == BuildNamespaceName(prefix, a + "-" + tail)
  {
    var b := a + "-" + tail;
    NamespacesMeet(prefix, a, b);
    NormalizeFixesCanonical(a, "project");
    NormalizeFixesCanonical(b, "project");
    assert b[|a|] == '-' && b[..|a|] == a;
  }

  /** With a prefix of 62 or 63 characters every two projects do. */
  lemma LongPrefixesMergeAll(prefix: string, a: string, b: string)
    requires |Normalize(prefix, "shiply-prj")| >= MAX_LABEL - 1
    ensures BuildNamespaceName(prefix, a) == BuildNamespaceName(prefix, b)
  {
    NamespacesMeet(prefix, a, b);
  }

  function LeftLabel(serviceSlug: string, projectSlug: string): string {
    var s := Normalize(serviceSlug, "service");
    Beside(s, Shown(Normalize(projectSlug, "project"), Room(s)))
  }

  lemma HostIs(s: string, p: string, baseDomain: string)
    requires CleanDomain(baseDomain) != ""
    ensures BuildIngressHost(s, p, baseDomain) == Some(LeftLabel(s, p) + ("." + CleanDomain(baseDomain)))
  {
    FallbacksAreCanonical();
    ComposedShows(s, "service", p, "project");
    var first := Composed(s, "service", p, "project");
    assert first + "." + CleanDomain(baseDomain) == first + ("." + CleanDomain(baseDomain));
  }

  /** Exactly when two services share a host: when their slugs, joined by a dash and cut, read the same. */
  lemma HostsMeet(s: string, p: string, s': string, p': string, baseDomain: string)
    requires CleanDomain(baseDomain) != ""
    ensures BuildIngressHost(s, p, baseDomain) == BuildIngressHost(s', p', baseDomain) <==> LeftLabel(s, p) == LeftLabel(s', p')
  {
    HostIs(s, p, baseDomain);
    HostIs(s', p', baseDomain);
    SameTail(LeftLabel(s, p), LeftLabel(s', p'), "." + CleanDomain(baseDomain));
  }

  lemma SameTail(a: string, b: string, tail: string)
    ensures a + tail == b + tail <==> a == b
  {
    if a + tail == b + tail {
      assert (a + tail)[..|a|] == a && (b + tail)[..|b|] == b;
    }
  }

  lemma HostOfCanonical(service: string, project: string, whole: string, baseDomain: string)
    requires Canonical(service) && Canonical(project) && whole == service + "-" + project
    ensures BuildIngressHost(service, project, baseDomain) ==
            if CleanDomain(baseDomain) == "" then None else Some(TruncateLabel(whole) + "." + CleanDomain(baseDomain))
  {
    NormalizeFixesCanonical(service, "service");
    NormalizeFixesCanonical(project, "project");
  }

  lemma DashesAssociate(a: string, b: string, c: string)
    ensures a + "-" + b + "-" + c == a + "-" + (b + "-" + c)
  {
  }

  /** A dash in a slug is not told from the one between slugs, so services of different projects can share a host. */
  lemma DashedSlugsShareAHost(a: string, b: string, c: string, baseDomain: string)
    requires Canonical(a + "-" + b) && Canonical(b + "-" + c) && Canonical(a) && Canonical(c)
    ensures BuildIngressHost(a + "-" + b, c, baseDomain) == BuildIngressHost(a, b + "-" + c, baseDomain)
  {
    var whole := a + "-" + b + "-" + c;
    DashesAssociate(a, b, c);
    HostOfCanonical(a + "-" + b, c, whole, baseDomain);
    HostOfCanonical(a, b + "-" + c, whole, baseDomain);
  }

  // ---- What a label keeps of its text ----

  /** A canonical label, character by character: one to 63 of a-z, 0-9 and the dash, no dash at either end, and no two
      together. */
  lemma CanonicalMeans(s: string)
    ensures Canonical(s) <==>
            && 1 <= |s| <= 63 && s[0] != '-' && s[|s| - 1] != '-'
            && (forall i :: 0 <= i < |s| ==> 'a' <= s[i] <= 'z' || '0' <= s[i] <= '9' || s[i] == '-')
            && (forall i :: 0 <= i < |s| - 1 ==> s[i] != '-' || s[i + 1] != '-')
  {
  }

  function LetterIn(c: char): string {
    if 'a' <= c <= 'z' || '0' <= c <= '9' then [c] else ""
  }

  /** The letters and digits of a text, in order. */
  function Letters(t: string): string {
    if t == "" then "" else LetterIn(t[0]) + Letters(t[1..])
  }

  lemma {:induction false} LettersConcat(a: string, b: string)
    ensures Letters(a + b) == Letters(a) + Letters(b)
    decreases |a|
  {
    if a == "" {
      assert a + b == b;
    } else {
      var rest := a[1..];
      LettersConcat(rest, b);
      assert (a + b)[0] == a[0] && (a + b)[1..] == rest + b;
      assert LetterIn(a[0]) + Letters(rest) + Letters(b) == LetterIn(a[0]) + (Letters(rest) + Letters(b));
    }
  }

  lemma {:induction false} LettersOfRun(run: string)
    requires forall i :: 0 <= i < |run| ==> AlphaNum(run[i])
    ensures Letters(run) == run
  {
    if run != "" { LettersOfRun(run[1..]); }
  }

  lemma JoinOneMore(run: string, runs: seq<string>)
    requires forall i :: 0 <= i < |run| ==> AlphaNum(run[i])
    ensures Letters(Join([run] + runs)) == run + Letters(Join(runs))
    ensures |Join([run] + runs)| == |run| + if runs == [] then 0 else 1 + |Join(runs)|
  {
    LettersOfRun(run);
    if runs == [] {
      assert [run] + runs == [run];
    } else {
      assert ([run] + runs)[1..] == runs;
      LettersConcat(run + "-", Join(runs));
      LettersConcat(run, "-");
      assert Letters("-") == "";
    }
  }

  /** Runs and dashes lose no letter, and are no longer than the text. */
  lemma {:induction false} RunsKeepLetters(t: string)
    ensures Letters(Join(Runs(t))) == Letters(t)
    ensures |Join(Runs(t))| <= |t|
    ensures t != "" && !AlphaNum(t[0]) ==> |Join(Runs(t))| < |t|
    decreases |t|
  {
    if t != "" && !AlphaNum(t[0]) {
      RunsKeepLetters(t[1..]);
    } else if t != "" {
      var n := RunLength(t);
      var run, rest := t[..n], t[n..];
      RunsKeepLetters(rest);
      JoinOneMore(run, Runs(rest));
      LettersOfRun(run);
      assert t == run + rest;
      LettersConcat(run, rest);
    }
  }

  lemma LettersOfPrefix(s: string, kept: string)
    requires kept <= s
    ensures Letters(kept) <= Letters(s)
  {
    var rest := s[|kept|..];
    assert s == kept + rest;
    LettersConcat(kept, rest);
  }

  lemma LettersOfCut(s: string)
    requires Tidy(s)
    ensures Letters(TruncateLabel(s)) <= Letters(s)
    ensures |s| <= MAX_LABEL ==> TruncateLabel(s) == s
  {
    TruncateTidy(s);
    if |s| > MAX_LABEL {
      CutIsPrefix(s);
      LettersOfPrefix(s, TruncateLabel(s));
    }
  }

  lemma CutIsPrefix(s: string)
    requires Tidy(s) && |s| > MAX_LABEL
    ensures TruncateLabel(s) <= s
  {
    TrimDashesOfTidy(s);
    var cut := s[..MAX_LABEL];
    if AlphaNum(cut[MAX_LABEL - 1]) {
      assert Tidy(cut);
      TrimDashesOfTidy(cut);
    } else {
      var kept := cut[..MAX_LABEL - 1];
      assert AlphaNum(kept[MAX_LABEL - 2]) && Tidy(kept) && cut == kept + "-";
      TrimDashesOfTidy(kept);
    }
  }

  /** A label keeps the letters and digits of its text, lower-cased, in order and from the first: all of them if the text has
      at most 63 characters. A text without any gives the fallback. */
  lemma NormalizeKeepsLetters(value: string, fallback: string)
    requires Canonical(fallback)
    ensures var letters := Letters(Lower(TrimSpace(value)));
            if letters == "" then Normalize(value, fallback) == fallback
            else
              && Letters(Normalize(value, fallback)) <= letters
              && (|TrimSpace(value)| <= MAX_LABEL ==> Letters(Normalize(value, fallback)) == letters)
  {
    var lowered := Lower(TrimSpace(value));
    RunsAreGood(lowered);
    RunsKeepLetters(lowered);
    RunsRebuildTidy(fallback);
    TruncateTidy(fallback);
    if Runs(lowered) != [] {
      JoinIsTidy(Runs(lowered));
      var joined := Join(Runs(lowered));
      FirstLetter(joined);
      LettersOfCut(joined);
    }
  }

  lemma FirstLetter(s: string)
    requires Tidy(s)
    ensures Letters(s) != ""
  {
  }

  /** ASCII capitals count as the letters they are. */
  predicate SameButCase(s: string, t: string) {
    |s| == |t| && forall i :: 0 <= i < |s| ==> t[i] == s[i] || ('A' <= s[i] <= 'Z' && t[i] as int == s[i] as int + 32)
  }

  lemma {:induction false} TrimIgnoresCase(s: string, t: string)
    requires SameButCase(s, t)
    ensures SameButCase(TrimSpace(s), TrimSpace(t))
  {
    TrimLeftIgnoresCase(s, t);
    TrimRightIgnoresCase(TrimLeft(s, c => Space(c)), TrimLeft(t, c => Space(c)));
  }

  lemma {:induction false} TrimLeftIgnoresCase(s: string, t: string)
    requires SameButCase(s, t)
    ensures SameButCase(TrimLeft(s, c => Space(c)), TrimLeft(t, c => Space(c)))
    decreases |s|
  {
    if s != "" {
      assert Space(s[0]) <==> Space(t[0]);
      if Space(s[0]) { TrimLeftIgnoresCase(s[1..], t[1..]); }
    }
  }

  lemma {:induction false} TrimRightIgnoresCase(s: string, t: string)
    requires SameButCase(s, t)
    ensures SameButCase(TrimRight(s, c => Space(c)), TrimRight(t, c => Space(c)))
    decreases |s|
  {
    if s != "" {
      var n := |s| - 1;
      assert Space(s[n]) <==> Space(t[n]);
      if Space(s[n]) { TrimRightIgnoresCase(s[..n], t[..n]); }
    }
  }

  /** A label does not depend on the case of its text. */
  lemma NormalizeIgnoresCase(s: string, t: string, fallback: string)
    requires SameButCase(s, t)
    ensures Normalize(s, fallback) == Normalize(t, fallback)
  {
    TrimIgnoresCase(s, t);
    assert Lower(TrimSpace(s)) == Lower(TrimSpace(t));
  }

  /** Names of canonical slugs that fit read plainly: prefix and project, "app" and service, service and project before the
      domain. */
  lemma FittingNamesReadPlainly(prefix: string, project: string, service: string, baseDomain: string)
    requires Canonical(prefix) && Canonical(project) && Canonical(service)
    requires |prefix| + 1 + |project| <= MAX_LABEL && |service| + 1 + |project| <= MAX_LABEL && |service| + 4 <= MAX_LABEL
    ensures BuildNamespaceName(prefix, project) == prefix + "-" + project
    ensures BuildResourceName("app", service) == "app" + "-" + service
    ensures CleanDomain(baseDomain) != "" ==>
              BuildIngressHost(service, project, baseDomain) == Some(service + "-" + project + "." + CleanDomain(baseDomain))
  {
    FallbacksAreCanonical();
    NormalizeFixesCanonical(prefix, "shiply-prj");
    NormalizeFixesCanonical("app", "app");
    NormalizeFixesCanonical(project, "project");
    NormalizeFixesCanonical(service, "service");
    ComposedShows(prefix, "shiply-prj", project, "project");
    ComposedShows("app", "app", service, "service");
    ComposedShows(service, "service", project, "project");
  }

  /** A base domain that has no space or dot at its ends and no capital letter is used as it is. */
  lemma CleanDomainsStay(s: string)
    requires s != "" && !Space(s[0]) && s[0] != '.' && !Space(s[|s| - 1]) && s[|s| - 1] != '.'
    requires forall i :: 0 <= i < |s| ==> LowerChar(s[i]) == s[i]
    ensures CleanDomain(s) == s
  {
    assert TrimSpace(s) == s;
    assert Lower(s) == s;
  }

  /** Two base domains that differ in the case of ASCII letters only are one. */
  lemma DomainsIgnoreCase(s: string, t: string)
    requires SameButCase(s, t)
    ensures CleanDomain(s) == CleanDomain(t)
  {
    TrimIgnoresCase(s, t);
    assert Lower(TrimSpace(s)) == Lower(TrimSpace(t));
  }

  /** A base domain has no dot at its ends once it is clean. */
  lemma DomainsAreCleaned(s: string)
    ensures CleanDomain(s) != "" ==> CleanDomain(s)[0] != '.' && CleanDomain(s)[|CleanDomain(s)| - 1] != '.'
  {
    TrimmedEnds(Lower(TrimSpace(s)), c => c == '.');
  }

  lemma TrimmedEnds(s: string, cut: char -> bool)
    ensures var r := Trim(s, cut); r != "" ==> !cut(r[0]) && !cut(r[|r| - 1])
  {
    TrimLeftEnd(s, cut);
    TrimRightEnds(TrimLeft(s, cut), cut);
  }

  lemma {:induction false} TrimLeftEnd(s: string, cut: char -> bool)
    ensures TrimLeft(s, cut) != "" ==> !cut(TrimLeft(s, cut)[0])
  {
    if s != "" && cut(s[0]) { TrimLeftEnd(s[1..], cut); }
  }

  lemma {:induction false} TrimRightEnds(s: string, cut: char -> bool)
    ensures var r := TrimRight(s, cut); r <= s && (r != "" ==> !cut(r[|r| - 1]))
    decreases |s|
  {
    if s != "" && cut(s[|s| - 1]) { TrimRightEnds(s[..|s| - 1], cut); }
  }
}
