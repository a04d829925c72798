/**
 * Environment detection and the development-only usage log (lib/env-utils). The environment is
 * a parameter; the module-level `usageLog` array is the `entries` field of a `UsageLog` object.
 */
module EnvUtils {
  import opened Common

  const NodeEnvVar := "NODE_ENV"

  // ---------------------------------------------------------------------------------------------
  // `getEnvironment`, `isDevelopment`
  // ---------------------------------------------------------------------------------------------

  datatype EnvironmentInfo = EnvironmentInfo(
    env: string,
    isDevelopment: bool,
    isProduction: bool,
    isTest: bool,
    nodeEnv: string)

  /** `getEnvironment`: `NODE_ENV || 'development'`, compared with the three known names. */
  function GetEnvironment(e: Env): (r: EnvironmentInfo)
    ensures r.env == r.nodeEnv
    ensures !EnvSet(e, NodeEnvVar) ==> r.nodeEnv == "development" && r.isDevelopment
    ensures EnvSet(e, NodeEnvVar) ==> r.nodeEnv == e[NodeEnvVar]
    ensures r.isDevelopment <==> r.env == "development"
    ensures r.isProduction <==> r.env == "production"
    ensures r.isTest <==> r.env == "test"
    ensures !(r.isDevelopment && r.isProduction) && !(r.isDevelopment && r.isTest) && !(r.isProduction && r.isTest)
  {
    var nodeEnv := EnvOr(e, NodeEnvVar, "development");
    EnvironmentInfo(nodeEnv, nodeEnv == "development", nodeEnv == "production", nodeEnv == "test", nodeEnv)
  }

  /** `isDevelopment()`: a strict comparison, with no default. */
  predicate IsDevelopment(e: Env) {
    NodeEnvVar in e && e[NodeEnvVar] == "development"
  }

  /**
   * The two development tests agree except when `NODE_ENV` is unset or empty: `getEnvironment`
   * then reports development while `isDevelopment()` does not.
   */
  lemma DevelopmentTestsDisagree(e: Env)
    ensures GetEnvironment(e).isDevelopment <==> IsDevelopment(e) || !EnvSet(e, NodeEnvVar)
    ensures !EnvSet(e, NodeEnvVar) ==> GetEnvironment(e).isDevelopment && !IsDevelopment(e)
  {
  }

  // ---------------------------------------------------------------------------------------------
  // The usage log
  // ---------------------------------------------------------------------------------------------

  /** What a caller reports: every field of an entry but its timestamp. */
  datatype UsageInput = UsageInput(
    model: string,
    promptTokens: int,
    completionTokens: int,
    totalTokens: int,
    estimatedCost: real,
    endpoint: string)

  /** One logged request. */
  datatype UsageMetrics = UsageMetrics(timestamp: string, input: UsageInput)

  datatype UsageStats = UsageStats(totalRequests: nat, totalTokens: int, totalCost: real, entries: seq<UsageMetrics>)

  function SumTokens(es: seq<UsageMetrics>): int {
    if es == [] then 0 else SumTokens(es[..|es| - 1]) + es[|es| - 1].input.totalTokens
  }

  function SumCost(es: seq<UsageMetrics>): real {
    if es == [] then 0.0 else SumCost(es[..|es| - 1]) + es[|es| - 1].input.estimatedCost
  }

  /** The token total is additive over concatenation, so one more entry adds its own tokens. */
  lemma {:induction false} SumTokensAppend(a: seq<UsageMetrics>, b: seq<UsageMetrics>)
    ensures SumTokens(a + b) == SumTokens(a) + SumTokens(b)
    decreases |b|
  {
    if b == [] {
      assert a + b == a;
    } else {
      assert (a + b)[..|a + b| - 1] == a + b[..|b| - 1];
      assert (a + b)[|a + b| - 1] == b[|b| - 1];
      SumTokensAppend(a, b[..|b| - 1]);
    }
  }

  /** With non-negative per-entry counts the total is non-negative. */
  lemma {:induction false} SumTokensNonNegative(es: seq<UsageMetrics>)
    requires forall k :: 0 <= k < |es| ==> es[k].input.totalTokens >= 0
    ensures SumTokens(es) >= 0
    decreases |es|
  {
    if es != [] {
      SumTokensNonNegative(es[..|es| - 1]);
    }
  }

  /** The module-level `usageLog` array. */
  class UsageLog {
    var entries: seq<UsageMetrics>

    constructor()
      ensures entries == []
    {
      entries := [];
    }

    /** `trackUsage`: in development, appends the input stamped with `now`; otherwise nothing. */
    method TrackUsage(e: Env, metrics: UsageInput, now: string)
      modifies this
      ensures IsDevelopment(e) ==> entries == old(entries) + [UsageMetrics(now, metrics)]
      ensures !IsDevelopment(e) ==> entries == old(entries)
    {
      if IsDevelopment(e) {
        entries := entries + [UsageMetrics(now, metrics)];
      }
    }

    /** `getUsageStats`: counts and totals in development, zeros and an empty list otherwise. */
    function GetUsageStats(e: Env): (r: UsageStats)
      reads this
      ensures IsDevelopment(e) ==> r.totalRequests == |entries| && r.entries == entries
      ensures IsDevelopment(e) ==> r.totalTokens == SumTokens(entries) && r.totalCost == SumCost(entries)
      ensures !IsDevelopment(e) ==> r == UsageStats(0, 0, 0.0, [])
    {
      if !IsDevelopment(e) then UsageStats(0, 0, 0.0, [])
      else UsageStats(|entries|, SumTokens(entries), SumCost(entries), entries)
    }

    /** `clearUsageStats`: empties the log in every environment. */
    method ClearUsageStats()
      modifies this
      ensures entries == []
    {
      entries := [];
    }
  }

  /** After logging one entry in development, the statistics grow by exactly that entry. */
  lemma StatsAfterTrack(entries: seq<UsageMetrics>, m: UsageMetrics)
    ensures |entries + [m]| == |entries| + 1
    ensures SumTokens(entries + [m]) == SumTokens(entries) + m.input.totalTokens
  {
    SumTokensAppend(entries, [m]);
  }

  // ---------------------------------------------------------------------------------------------
  // `validateEnvVars`
  // ---------------------------------------------------------------------------------------------

  /** `required.filter(name => !process.env[name])`. */
  function Missing(e: Env, required: seq<string>): (m: seq<string>)
    ensures |m| <= |required|
    decreases |required|
  {
    if required == [] then []
    else (if EnvSet(e, required[0]) then [] else [required[0]]) + Missing(e, required[1..])
  }

  /** A name is reported exactly when it is required and unset or empty. */
  lemma {:induction false} MissingIff(e: Env, required: seq<string>)
    ensures forall x :: x in Missing(e, required) <==> x in required && !EnvSet(e, x)
    decreases |required|
  {
    if required != [] {
      MissingIff(e, required[1..]);
      assert required == [required[0]] + required[1..];
    }
  }

  /** The filter keeps order: it distributes over concatenation. */
  lemma {:induction false} MissingAppend(e: Env, a: seq<string>, b: seq<string>)
    ensures Missing(e, a + b) == Missing(e, a) + Missing(e, b)
    decreases |a|
  {
    if a == [] {
      assert a + b == b;
    } else {
      assert (a + b)[0] == a[0];
      assert (a + b)[1..] == a[1..] + b;
      MissingAppend(e, a[1..], b);
    }
  }

  /** When no required variable is set, all of them are reported, in the given order. */
  lemma {:induction false} NoneSetAllMissing(e: Env, required: seq<string>)
    requires forall k :: 0 <= k < |required| ==> !EnvSet(e, required[k])
    ensures Missing(e, required) == required
    decreases |required|
  {
    if required != [] {
      NoneSetAllMissing(e, required[1..]);
    }
  }

  datatype Validation = Validation(valid: bool, missing: seq<string>)

  /** `validateEnvVars`: valid exactly when every required variable is set and non-empty. */
  function ValidateEnvVars(e: Env, required: seq<string>): (r: Validation)
    ensures r.missing == Missing(e, required)
    ensures r.valid <==> forall k :: 0 <= k < |required| ==> EnvSet(e, required[k])
  {
    var missing := Missing(e, required);
    MissingIff(e, required);
    assert forall k :: 0 <= k < |required| && !EnvSet(e, required[k]) ==> required[k] in missing;
    assert missing != [] ==> missing[0] in missing;
    Validation(|missing| == 0, missing)
  }
}
