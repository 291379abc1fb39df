/** The environment of a container: the user's variables once each, and the platform's port (reconciler.go). */
module PortEnv {
  import opened Wrappers
  import opened Events
  import opened Requests

  const PORT := "PORT"
  const SERVER_PORT := "SERVER_PORT"

  predicate Reserved(name: string) {
    name == PORT || name == SERVER_PORT
  }

  predicate Named(env: seq<EnvVar>, name: string) {
    exists i :: 0 <= i < |env| && env[i].name == name
  }

  /** The variable at `i` is the first of its name, and the name is the user's to set. */
  predicate Kept(env: seq<EnvVar>, i: nat)
    requires i < |env|
  {
    !Reserved(env[i].name) && !Named(env[..i], env[i].name)
  }

  /** The positions of the variables that are kept, in order. */
  function KeptPositions(env: seq<EnvVar>): seq<nat> {
    if env == [] then []
    else
      var n := |env| - 1;
      KeptPositions(env[..n]) + if Kept(env, n) then [n] else []
  }

  function FirstOthers(env: seq<EnvVar>): seq<EnvVar> {
    if env == [] then []
    else
      var n := |env| - 1;
      FirstOthers(env[..n]) + if Kept(env, n) then [env[n]] else []
  }

  function PortVars(port: int): seq<EnvVar> {
    [EnvVar(PORT, Decimal(port)), EnvVar(SERVER_PORT, Decimal(port))]
  }

  function PortEnvOf(env: seq<EnvVar>, port: int): seq<EnvVar> {
    FirstOthers(env) + PortVars(port)
  }

  /** `platformPortEnv`. */
  method PlatformPortEnv(request: DeployRequest, port: int) returns (result: seq<EnvVar>)
    ensures result == PortEnvOf(request.environment, port)
  {
    var env := request.environment;
    result := [];
    var seen: set<string> := {};
    for n := 0 to |env|
      invariant result == FirstOthers(env[..n])
      invariant forall name :: name in seen <==> !Reserved(name) && Named(env[..n], name)
    {
      var v := env[n];
      assert env[..n + 1][..n] == env[..n] && env[..n + 1][n] == v;
      NamedSnoc(env, n);
      if v.name == PORT || v.name == SERVER_PORT { continue; }
      if v.name in seen { continue; }
      seen := seen + {v.name};
      result := result + [v];
    }
    assert env[..|env|] == env;
    result := result + [EnvVar(PORT, Decimal(port)), EnvVar(SERVER_PORT, Decimal(port))];
  }

  lemma NamedSnoc(env: seq<EnvVar>, n: nat)
    requires n < |env|
    ensures forall name :: Named(env[..n + 1], name) <==> Named(env[..n], name) || name == env[n].name
  {
    forall name ensures Named(env[..n + 1], name) <==> Named(env[..n], name) || name == env[n].name {
      if name == env[n].name { assert env[..n + 1][n].name == name; }
      if Named(env[..n], name) {
        var i :| 0 <= i < n && env[..n][i].name == name;
        assert env[..n + 1][i].name == name;
      }
      if Named(env[..n + 1], name) && name != env[n].name {
        var i :| 0 <= i < n + 1 && env[..n + 1][i].name == name;
        assert env[..n][i].name == name;
      }
    }
  }

  /** The positions are, in order, exactly those of the variables that are kept. */
  ghost predicate KeptAt(env: seq<EnvVar>, at: seq<nat>) {
    && (forall j :: 0 <= j < |at| ==> at[j] < |env| && Kept(env, at[j]))
    && (forall j, k :: 0 <= j < k < |at| ==> at[j] < at[k])
    && (forall i: nat :: i < |env| && Kept(env, i) ==> i in at)
  }

  lemma KeptInPrefix(env: seq<EnvVar>, n: nat, i: nat)
    requires i < n <= |env|
    ensures Kept(env[..n], i) <==> Kept(env, i)
  {
    assert env[..n][..i] == env[..i];
  }

  lemma KeptStep(env: seq<EnvVar>, at: seq<nat>)
    requires env != [] && KeptAt(env[..|env| - 1], at)
    ensures KeptAt(env, at + if Kept(env, |env| - 1) then [|env| - 1] else [])
  {
    var n: nat := |env| - 1;
    var longer := at + if Kept(env, n) then [n] else [];
    forall i: nat | i < n ensures Kept(env[..n], i) <==> Kept(env, i) { KeptInPrefix(env, n, i); }
    forall i: nat | i < |env| && Kept(env, i) ensures i in longer {
      if i == n { assert longer[|at|] == n; } else { assert Kept(env[..n], i); }
    }
  }

  lemma {:induction false} PositionsAreKept(env: seq<EnvVar>)
    ensures KeptAt(env, KeptPositions(env))
    decreases |env|
  {
    if env != [] {
      PositionsAreKept(env[..|env| - 1]);
      KeptStep(env, KeptPositions(env[..|env| - 1]));
    }
  }

  lemma {:induction false} OthersStandThere(env: seq<EnvVar>)
    ensures |FirstOthers(env)| == |KeptPositions(env)|
    ensures forall j :: 0 <= j < |KeptPositions(env)| ==>
              KeptPositions(env)[j] < |env| && FirstOthers(env)[j] == env[KeptPositions(env)[j]]
    decreases |env|
  {
    if env != [] { OthersStandThere(env[..|env| - 1]); }
  }

  /** What is kept is the subsequence, in order, of exactly the first occurrences of the names that are not reserved. */
  lemma KeptInOrder(env: seq<EnvVar>)
    ensures var at := KeptPositions(env);
            && |FirstOthers(env)| == |at|
            && (forall j :: 0 <= j < |at| ==> at[j] < |env| && FirstOthers(env)[j] == env[at[j]])
            && (forall j, k :: 0 <= j < k < |at| ==> at[j] < at[k])
            && (forall i: nat :: i < |env| ==> (i in at <==> Kept(env, i)))
  {
    PositionsAreKept(env);
    OthersStandThere(env);
  }

  /** No name comes twice. */
  lemma NamesAreUnique(env: seq<EnvVar>, port: int, j: nat, k: nat)
    requires j < k < |PortEnvOf(env, port)|
    ensures PortEnvOf(env, port)[j].name != PortEnvOf(env, port)[k].name
  {
    var at := KeptPositions(env);
    KeptInOrder(env);
    assert |PORT| != |SERVER_PORT|;
    if k < |at| {
      assert at[j] in at && at[k] in at && Kept(env, at[k]);
      assert env[..at[k]][at[j]] == env[at[j]];
    } else if j < |at| {
      assert at[j] in at && Kept(env, at[j]);
    }
  }

  /** The value a first-match search finds. */
  function Lookup(env: seq<EnvVar>, name: string): Option<string> {
    if env == [] then None else if env[0].name == name then Some(env[0].value) else Lookup(env[1..], name)
  }

  lemma {:induction false} LookupFindsFirst(env: seq<EnvVar>, name: string, i: nat)
    requires i < |env| && env[i].name == name && !Named(env[..i], name)
    ensures Lookup(env, name) == Some(env[i].value)
    decreases |env|
  {
    if i > 0 {
      assert env[..i][0] == env[0];
      var front := env[1..][..i - 1];
      forall j: nat | j < |front| ensures front[j].name != name {
        assert env[..i][j + 1] == front[j];
      }
      LookupFindsFirst(env[1..], name, i - 1);
    }
  }

  lemma {:induction false} LookupFindsNothing(env: seq<EnvVar>, name: string)
    requires !Named(env, name)
    ensures Lookup(env, name) == None
    decreases |env|
  {
    if env != [] {
      assert env[0].name != name;
      forall j: nat | j < |env[1..]| ensures env[1..][j].name != name {
        assert env[j + 1] == env[1..][j];
      }
      LookupFindsNothing(env[1..], name);
    }
  }

  lemma {:induction false} FirstNamed(env: seq<EnvVar>, name: string) returns (i: nat)
    requires Named(env, name)
    ensures i < |env| && env[i].name == name && !Named(env[..i], name)
    decreases |env|
  {
    i :| i < |env| && env[i].name == name;
    if Named(env[..i], name) {
      var k := i;
      i := FirstNamed(env[..k], name);
      assert env[..k][..i] == env[..i];
    }
  }

  /** A name looked up in the container is the platform's port if it is reserved, and else what a first-match search of
      the user's list finds. */
  lemma LookupAgrees(env: seq<EnvVar>, port: int, name: string)
    ensures Lookup(PortEnvOf(env, port), name) == if Reserved(name) then Some(Decimal(port)) else Lookup(env, name)
  {
    var out := PortEnvOf(env, port);
    var at := KeptPositions(env);
    KeptInOrder(env);
    if Reserved(name) {
      var k := if name == PORT then |at| else |at| + 1;
      OnlyPlace(env, port, name, k);
    } else if Named(env, name) {
      var i := FirstNamed(env, name);
      LookupFindsFirst(env, name, i);
      assert i in at;
      var j :| 0 <= j < |at| && at[j] == i;
      OnlyPlace(env, port, name, j);
    } else {
      LookupFindsNothing(env, name);
      forall j: nat | j < |out| ensures out[j].name != name {
        if j < |at| { assert out[j] == env[at[j]]; }
      }
      LookupFindsNothing(out, name);
    }
  }

  lemma OnlyPlace(env: seq<EnvVar>, port: int, name: string, k: nat)
    requires k < |PortEnvOf(env, port)| && PortEnvOf(env, port)[k].name == name
    ensures Lookup(PortEnvOf(env, port), name) == Some(PortEnvOf(env, port)[k].value)
  {
    var out := PortEnvOf(env, port);
    if Named(out[..k], name) {
      var j: nat :| j < k && out[..k][j].name == name;
      NamesAreUnique(env, port, j, k);
    }
    LookupFindsFirst(out, name, k);
  }
}
