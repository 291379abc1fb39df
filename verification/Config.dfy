/** The settings of the worker as the process reads them from its environment (config.go). */
module Config {
  import opened Wrappers
  import opened Errors
  import opened Names
  import opened Requests
  import opened StageLedger
  import opened Delivery
  import opened Fleet
  import opened FleetInvariant
  import opened LeaseTiming

  // ---- Lists of durations ----

  /** `strings.Split` at commas. */
  function SplitCommas(s: string): (parts: seq<string>)
    ensures |parts| >= 1
  {
    if s == "" then [""]
    else
      var rest := SplitCommas(s[1..]);
      if s[0] == ',' then [""] + rest else [[s[0]] + rest[0]] + rest[1..]
  }

  function JoinCommas(parts: seq<string>): string {
    if parts == [] then "" else if |parts| == 1 then parts[0] else parts[0] + "," + JoinCommas(parts[1..])
  }

  /** Splitting is the inverse of joining, and no part holds a comma. */
  lemma {:induction false} SplitThenJoin(s: string)
    ensures JoinCommas(SplitCommas(s)) == s
    ensures forall i :: 0 <= i < |SplitCommas(s)| ==> ',' !in SplitCommas(s)[i]
  {
    if s != "" {
      SplitThenJoin(s[1..]);
      var rest := SplitCommas(s[1..]);
      var parts := SplitCommas(s);
      assert parts[1..] == if s[0] == ',' then rest else rest[1..];
      assert s == [s[0]] + s[1..];
      if s[0] == ',' {
        assert JoinCommas(parts) == "" + "," + JoinCommas(rest);
      } else if |rest| > 1 {
        assert JoinCommas(rest) == rest[0] + "," + JoinCommas(rest[1..]);
      }
    }
  }

  predicate PositiveDuration(parse: string -> Option<int>, part: string) {
    parse(TrimSpace(part)).Some? && parse(TrimSpace(part)).value > 0
  }

  /** Every part of the schedule is a positive duration. */
  predicate GoodSchedule(parse: string -> Option<int>, raw: string) {
    && TrimSpace(raw) != ""
    && forall i :: 0 <= i < |SplitCommas(TrimSpace(raw))| ==> PositiveDuration(parse, SplitCommas(TrimSpace(raw))[i])
  }

  function Schedule(parse: string -> Option<int>, raw: string, fallback: seq<int>): seq<int> {
    if GoodSchedule(parse, raw) then
      var parts := SplitCommas(TrimSpace(raw));
      seq(|parts|, i requires 0 <= i < |parts| => if PositiveDuration(parse, parts[i]) then parse(TrimSpace(parts[i])).value else 0)
    else fallback
  }

  /** `envDurationsOrDefault`, with `time.ParseDuration` as a parameter: the whole schedule, or the fallback as soon as
      one part is not a positive duration. */
  method EnvDurationsOrDefault(parse: string -> Option<int>, raw: string, fallback: seq<int>) returns (out: seq<int>)
    ensures out == Schedule(parse, raw, fallback)
  {
    var value := TrimSpace(raw);
    if value == "" { return fallback; }
    var parts := SplitCommas(value);
    out := [];
    for n := 0 to |parts|
      invariant |out| == n
      invariant forall i :: 0 <= i < n ==> PositiveDuration(parse, parts[i]) && out[i] == parse(TrimSpace(parts[i])).value
    {
      var d := parse(TrimSpace(parts[n]));
      if d.None? || d.value <= 0 {
        assert !PositiveDuration(parse, parts[n]);
        return fallback;
      }
      out := out + [d.value];
    }
  }

  /** Backoff i is the duration that part i of the text parses to, if every part is one; otherwise the fallback is used as a
      whole. So the backoffs are never empty and always positive, whatever the environment holds. */
  lemma BackoffsArePositive(parse: string -> Option<int>, raw: string, fallback: seq<int>)
    requires fallback != [] && forall i :: 0 <= i < |fallback| ==> fallback[i] > 0
    ensures Schedule(parse, raw, fallback) != []
    ensures forall i :: 0 <= i < |Schedule(parse, raw, fallback)| ==> Schedule(parse, raw, fallback)[i] > 0
    ensures var parts, backoffs := SplitCommas(TrimSpace(raw)), Schedule(parse, raw, fallback);
            if TrimSpace(raw) != "" && (forall i :: 0 <= i < |parts| ==> parse(TrimSpace(parts[i])).Some? && parse(TrimSpace(parts[i])).value > 0)
            then |backoffs| == |parts| && forall i :: 0 <= i < |parts| ==> parse(TrimSpace(parts[i])) == Some(backoffs[i])
            else backoffs == fallback
  {
  }

  // ---- Numbers ----

  /** Go's conversion to `int32`: the low 32 bits. */
  function Int32(n: int): int {
    (n + 0x8000_0000) % 0x1_0000_0000 - 0x8000_0000
  }

  function EnvInt32OrDefault(atoi: string -> Option<int>, raw: string, fallback: int): int {
    var value := TrimSpace(raw);
    if value == "" then fallback
    else
      match atoi(value)
      case None => fallback
      case Some(n) => if n < 1 then fallback else Int32(n)
  }

  /** The number the variable is set to, if it is accepted. */
  function Accepted(atoi: string -> Option<int>, raw: string): Option<int> {
    var value := TrimSpace(raw);
    if value != "" && atoi(value).Some? && atoi(value).value >= 1 then atoi(value) else None
  }

  /** An accepted number is used as it stands exactly when it fits in 32 bits; there is no check from above, and the
      setting that results is positive exactly when the low 32 bits are those of a positive number. */
  lemma AcceptedNumbersWrap(atoi: string -> Option<int>, raw: string, fallback: int)
    requires fallback >= 1
    ensures var r := EnvInt32OrDefault(atoi, raw, fallback);
            match Accepted(atoi, raw)
            case None => r == fallback
            case Some(n) => (r == n <==> n < 0x8000_0000) && (r >= 1 <==> 1 <= n % 0x1_0000_0000 < 0x8000_0000)
  {
  }

  /** A variable set to 2147483648 turns the setting into the smallest number there is. */
  lemma TwoToThe31Wraps(atoi: string -> Option<int>, raw: string, fallback: int)
    requires Accepted(atoi, raw) == Some(0x8000_0000)
    ensures EnvInt32OrDefault(atoi, raw, fallback) == -0x8000_0000
  {
  }

  function EnvDurationOrDefault(parse: string -> Option<int>, raw: string, fallback: int): int {
    if PositiveDuration(parse, raw) && TrimSpace(raw) != "" then parse(TrimSpace(raw)).value else fallback
  }

  // ---- The worker's settings ----

  /** The variables that the worker's protocol depends on, as raw text; blank when they are not set. */
  datatype Environment = Environment(
    rolloutTimeout: string, leaseDuration: string, maxAttempts: string, backoffs: string, containerPort: string)

  const MINUTE := 60 * SECOND
  const DEFAULT_BACKOFFS := [10 * SECOND, 30 * SECOND, 2 * MINUTE, 5 * MINUTE]

  const MAX_DURATION := 0x7FFF_FFFF_FFFF_FFFF

  /** Go's 64-bit addition of durations: the low 64 bits of the sum. */
  function Int64(n: int): int {
    (n + 0x8000_0000_0000_0000) % 0x1_0000_0000_0000_0000 - 0x8000_0000_0000_0000
  }

  /** What `time.ParseDuration` yields fits in 64 bits. */
  ghost predicate ParsesDurations(parse: string -> Option<int>) {
    forall s :: parse(s).Some? ==> -MAX_DURATION - 1 <= parse(s).value <= MAX_DURATION
  }

  /** The part of `loadConfig` that the worker's protocol depends on. */
  function LoadConfig(names: NameConfig, parse: string -> Option<int>, atoi: string -> Option<int>, env: Environment): WorkerConfig {
    var rolloutTimeout := EnvDurationOrDefault(parse, env.rolloutTimeout, 20 * MINUTE);
    ConfigFor(names, EnvInt32OrDefault(atoi, env.containerPort, DEFAULT_APP_PORT),
              EnvInt32OrDefault(atoi, env.maxAttempts, 5),
              Schedule(parse, env.backoffs, DEFAULT_BACKOFFS),
              EnvDurationOrDefault(parse, env.leaseDuration, Int64(rolloutTimeout + 2 * MINUTE)),
              rolloutTimeout)
  }

  /** The lease is set by itself, and does not follow the rollout timeout. */
  predicate LeaseSet(parse: string -> Option<int>, env: Environment) {
    TrimSpace(env.leaseDuration) != "" && PositiveDuration(parse, env.leaseDuration)
  }

  /** Of every environment: the limit is positive exactly unless MAX_DELIVERY_ATTEMPTS wraps to a number that is not; the
      lease is positive exactly if it is set, or the rollout timeout leaves room for two more minutes in 64 bits; and
      timeout and backoffs are always positive. */
  lemma LoadedConfigIsOk(names: NameConfig, parse: string -> Option<int>, atoi: string -> Option<int>, env: Environment)
    requires ParsesDurations(parse)
    ensures var cfg := LoadConfig(names, parse, atoi, env);
            && (ConfigOk(cfg) <==>
                  Accepted(atoi, env.maxAttempts).Some? ==> 1 <= Accepted(atoi, env.maxAttempts).value % 0x1_0000_0000 < 0x8000_0000)
            && (cfg.lease > 0 <==> LeaseSet(parse, env) || cfg.rolloutTimeout <= MAX_DURATION - 2 * MINUTE)
            && 0 < cfg.rolloutTimeout <= MAX_DURATION && (forall i :: 0 <= i < |cfg.backoffs| ==> cfg.backoffs[i] > 0)
  {
    BackoffsArePositive(parse, env.backoffs, DEFAULT_BACKOFFS);
    AcceptedNumbersWrap(atoi, env.maxAttempts, 5);
    DefaultLeaseWraps(LoadConfig(names, parse, atoi, env).rolloutTimeout);
  }

  /** The sum is exact exactly if it fits, and else negative. */
  lemma DefaultLeaseWraps(timeout: int)
    requires 0 < timeout <= MAX_DURATION
    ensures Int64(timeout + 2 * MINUTE) == (if timeout <= MAX_DURATION - 2 * MINUTE then timeout + 2 * MINUTE
                                            else timeout + 2 * MINUTE - 0x1_0000_0000_0000_0000)
    ensures Int64(timeout + 2 * MINUTE) > 0 <==> timeout <= MAX_DURATION - 2 * MINUTE
  {
  }

  /** K8S_ROLLOUT_TIMEOUT=2562047h47m is accepted, and makes the default lease negative. */
  lemma LongestTimeoutWrapsTheLease(names: NameConfig, parse: string -> Option<int>, atoi: string -> Option<int>, env: Environment)
    requires parse(TrimSpace(env.rolloutTimeout)) == Some((2562047 * 60 + 47) * MINUTE)
    requires TrimSpace(env.rolloutTimeout) != "" && TrimSpace(env.leaseDuration) == ""
    ensures LoadConfig(names, parse, atoi, env).lease < 0
  {
    DefaultLeaseWraps((2562047 * 60 + 47) * MINUTE);
  }

  /** A lease bars another claim at the very moment it is granted exactly if it is positive; otherwise it excludes nobody,
      then or later. */
  lemma OnlyPositiveLeasesExclude<K>(rows: map<K, StageRecord>, k: K, now: int, lease: int)
    requires ClaimDisposition(RowAt(rows, k), now).ClaimAcquired?
    ensures var rows' := ClaimRows(rows, k, now, lease);
            if lease > 0 then ClaimDisposition(RowAt(rows', k), now).ClaimBusy?
            else forall later :: now <= later ==> ClaimDisposition(RowAt(rows', k), later).ClaimAcquired?
  {
    ClaimGrantsExclusively(rows, k, now, lease, now);
    forall later | now <= later && lease <= 0
      ensures ClaimDisposition(RowAt(ClaimRows(rows, k, now, lease), k), later).ClaimAcquired?
    {
      ClaimGrantsExclusively(rows, k, now, lease, later);
    }
  }

  /** When the limit wraps, no failure is ever retried: the first one counts as the last, and a busy lease too is exhausted. */
  lemma WrappedLimitNeverRetries(cfg: WorkerConfig, m: Message, cause: Error)
    requires cfg.maxAttempts <= 0 && Attempt(m) >= 0
    ensures var pc := ToRetry(cfg, m, cause); !pc.AnnouncingRetry? && !pc.Requeuing?
    ensures IsAdmitted(cfg, m) ==> ToRetry(cfg, m, cause).Persisting? && ToRetry(cfg, m, cause).bundle.service.outcome.Failed?
  {
  }

  /** With the lease not set, it leaves the slack that the agreement theorem needs exactly if it does not wrap, for a claim
      latency and two margins below 35 seconds. */
  lemma LoadedLeaseHasSlack(names: NameConfig, parse: string -> Option<int>, atoi: string -> Option<int>, env: Environment,
                            margin: nat, latency: nat)
    requires ParsesDurations(parse) && !LeaseSet(parse, env) && latency + 2 * margin < 35 * SECOND
    ensures var cfg := LoadConfig(names, parse, atoi, env);
            Slack(cfg, margin, latency) <==> cfg.rolloutTimeout <= MAX_DURATION - 2 * MINUTE
  {
    var cfg := LoadConfig(names, parse, atoi, env);
    DefaultLeaseWraps(cfg.rolloutTimeout);
    if cfg.rolloutTimeout <= MAX_DURATION - 2 * MINUTE {
      DefaultLeaseHasSlack(cfg, margin, latency);
    }
  }

  /** With nothing set: five attempts, backoffs of 10 and 30 seconds, 2 and 5 minutes, a rollout timeout of 20 minutes and a
      lease of 22. */
  lemma DefaultSettings(names: NameConfig, parse: string -> Option<int>, atoi: string -> Option<int>)
    ensures var cfg := LoadConfig(names, parse, atoi, Environment("", "", "", "", ""));
            && cfg.maxAttempts == 5 && cfg.rolloutTimeout == 1200 * SECOND && cfg.lease == 1320 * SECOND
            && cfg.backoffs == [10 * SECOND, 30 * SECOND, 120 * SECOND, 300 * SECOND] && cfg.realCluster
            && forall event :: cfg.admit(event) == AdmitEvent(names, 3000, event)
  {
    assert TrimSpace("") == "";
  }

  /** A timeout, a lease or a limit that is set well is used as it is. */
  lemma SettingsAreUsed(names: NameConfig, parse: string -> Option<int>, atoi: string -> Option<int>, env: Environment, value: int)
    requires value > 0
    ensures var cfg := LoadConfig(names, parse, atoi, env);
            && (TrimSpace(env.rolloutTimeout) != "" && parse(TrimSpace(env.rolloutTimeout)) == Some(value) ==> cfg.rolloutTimeout == value)
            && (TrimSpace(env.leaseDuration) != "" && parse(TrimSpace(env.leaseDuration)) == Some(value) ==> cfg.lease == value)
            && (TrimSpace(env.maxAttempts) != "" && atoi(TrimSpace(env.maxAttempts)) == Some(value) && value < 0x8000_0000 ==>
                  cfg.maxAttempts == value)
  {
  }
}
