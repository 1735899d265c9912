/**
 * The environment variables the bot needs, and the start-up check in
 * `run_bot` that lists the ones that are missing.
 */
module Config {
  import opened Wrappers

  /** The process environment: variable names to values; an unset variable has no entry. */
  type Env = map<string, string>

  const RequiredVars: seq<string> := ["OPENAI_API_KEY", "TELEGRAM_BOT_TOKEN", "INSTAGRAM_USERNAME", "INSTAGRAM_PASSWORD"]

  /** `os.getenv(name)`. */
  function Getenv(env: Env, name: string): (r: Option<string>)
    ensures r.Some? <==> name in env
  {
    if name in env then Some(env[name]) else None
  }

  /** `os.getenv(name)` is truthy: neither `None` nor the empty string. */
  predicate IsSet(env: Env, name: string)
    ensures IsSet(env, name) <==> Getenv(env, name) != None && Getenv(env, name) != Some("")
  {
    name in env && env[name] != ""
  }

  /** `[var for var in names if not os.getenv(var)]`. */
  function MissingVars(names: seq<string>, env: Env): (r: seq<string>)
    ensures |r| <= |names|
    ensures forall x :: x in r <==> x in names && !IsSet(env, x)
  {
    if names == [] then []
    else (if IsSet(env, names[0]) then [] else [names[0]]) + MissingVars(names[1..], env)
  }

  /**
   * The filter keeps order: filtering a concatenation is concatenating the
   * filtered parts, so each missing name keeps its place relative to the others.
   */
  lemma {:induction false} MissingVarsAppend(xs: seq<string>, ys: seq<string>, env: Env)
    ensures MissingVars(xs + ys, env) == MissingVars(xs, env) + MissingVars(ys, env)
  {
    if xs == [] {
      assert xs + ys == ys;
    } else {
      assert (xs + ys)[1..] == xs[1..] + ys;
      MissingVarsAppend(xs[1..], ys, env);
    }
  }

  /** Nothing is missing exactly when every required variable is set and non-empty. */
  lemma NothingMissing(env: Env)
    ensures MissingVars(RequiredVars, env) == [] <==> forall x :: x in RequiredVars ==> IsSet(env, x)
  {
    if MissingVars(RequiredVars, env) != [] {
      assert MissingVars(RequiredVars, env)[0] in MissingVars(RequiredVars, env);
    }
  }
}
