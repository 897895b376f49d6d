/** Choosing the profile (lib/swaj/app.py:97-107) and assembling and
    rendering the effective environment (lib/swaj/app.py:262-296). */
module Environment {
  import opened Wrappers
  import opened Failures
  import opened Text
  import opened AmbientVars

  const PROFILE_VAR: string := "AWS_PROFILE"
  const MARKER_VAR: string := "SWAJ"
  const PROFILE_MARKER_VAR: string := "SWAJ_PROFILE"
  const MARKER_PREFIX: string := "SWAJ_"
  const SHELL_VAR: string := "SHELL"
  const DEFAULT_SHELL: string := "/bin/sh"
  const UNSET_PROFILE_LINE: string := "unset AWS_PROFILE"

  /** The profile: `--profile` when given (even empty), else `AWS_PROFILE`;
      with neither the program writes a diagnostic and exits with status 1. */
  function SelectProfile(environ: Env, flag: Option<string>): (r: Result<string, Failure>)
    ensures flag.Some? ==> r == Success(flag.value)
    ensures flag.None? && PROFILE_VAR in environ ==> r == Success(environ[PROFILE_VAR])
    ensures r.Failure? <==> flag.None? && PROFILE_VAR !in environ
    ensures r.Failure? ==> r.error == Exit(1)
  {
    var fromEnv := if PROFILE_VAR in environ then Some(environ[PROFILE_VAR]) else None;
    var profile := if flag.Some? then flag else fromEnv;
    if profile.None? then Failure(Exit(1)) else Success(profile.value)
  }

  /** The effective environment and whether `AWS_PROFILE` was taken out of it. */
  datatype Assembly = Assembly(env: Env, removedProfile: bool)

  /** The ambient environment overlaid with the credential set, plus the two
      markers, minus `AWS_PROFILE`. */
  function Assembled(environ: Env, vars: Env, profile: string): (a: Assembly)
    ensures PROFILE_VAR !in a.env
    ensures a.removedProfile <==> PROFILE_VAR in environ || PROFILE_VAR in vars
    ensures MARKER_VAR in a.env && a.env[MARKER_VAR] == "1"
    ensures PROFILE_MARKER_VAR in a.env && a.env[PROFILE_MARKER_VAR] == profile
    ensures forall k :: k in a.env <==>
      k != PROFILE_VAR && (k in environ || k in vars || k == MARKER_VAR || k == PROFILE_MARKER_VAR)
    ensures forall k :: k in a.env && k != MARKER_VAR && k != PROFILE_MARKER_VAR ==>
      a.env[k] == if k in vars then vars[k] else environ[k]
  {
    var merged := (environ + vars)[MARKER_VAR := "1"][PROFILE_MARKER_VAR := profile];
    Assembly(merged - {PROFILE_VAR}, PROFILE_VAR in merged)
  }

  /** The statements of `main` that build `new_environ`. */
  method Assemble(environ: Env, vars: Env, profile: string) returns (env: Env, removedProfile: bool)
    ensures Assembly(env, removedProfile) == Assembled(environ, vars, profile)
  {
    env := environ;
    env := env + vars;
    env := env[MARKER_VAR := "1"];
    env := env[PROFILE_MARKER_VAR := profile];
    removedProfile := false;
    if PROFILE_VAR in env {
      removedProfile := true;
      env := env - {PROFILE_VAR};
    }
  }

  predicate Distinct(s: seq<string>)
  {
    forall i, j :: 0 <= i < j < |s| ==> s[i] != s[j]
  }

  /** `env` mode: one `KEY=VALUE` line per variable, each variable once, in
      the order `order` (left open by the model). */
  method RenderEnv(env: Env) returns (order: seq<string>, lines: seq<string>)
    ensures Distinct(order)
    ensures forall k :: k in order <==> k in env
    ensures |lines| == |order|
    ensures forall i :: 0 <= i < |order| ==> lines[i] == order[i] + "=" + env[order[i]]
  {
    order, lines := [], [];
    var rest := env.Keys;
    while rest != {}
      invariant rest <= env.Keys
      invariant Distinct(order)
      invariant forall k :: k in order <==> k in env && k !in rest
      invariant |lines| == |order|
      invariant forall i :: 0 <= i < |order| ==> lines[i] == order[i] + "=" + env[order[i]]
      decreases rest
    {
      var k :| k in rest;
      order := order + [k];
      lines := lines + [k + "=" + env[k]];
      rest := rest - {k};
    }
  }

  /** The variables `eval` mode exports. */
  predicate Exported(k: string)
  {
    StartsWith(k, AWS_PREFIX) || StartsWith(k, MARKER_PREFIX)
  }

  /** `eval` mode: an `export KEY=VALUE` line for exactly the variables
      starting with `AWS_` or `SWAJ_` (so never the bare `SWAJ` marker), then
      `unset AWS_PROFILE` exactly when it was removed. */
  method RenderEval(env: Env, removedProfile: bool) returns (order: seq<string>, lines: seq<string>)
    ensures Distinct(order)
    ensures forall k :: k in order <==> k in env && Exported(k)
    ensures MARKER_VAR !in order
    ensures |lines| == |order| + (if removedProfile then 1 else 0)
    ensures forall i :: 0 <= i < |order| ==> lines[i] == "export " + order[i] + "=" + env[order[i]]
    ensures removedProfile ==> lines[|order|] == UNSET_PROFILE_LINE
  {
    order, lines := [], [];
    var rest := env.Keys;
    while rest != {}
      invariant rest <= env.Keys
      invariant Distinct(order)
      invariant forall k :: k in order <==> k in env && k !in rest && Exported(k)
      invariant |lines| == |order|
      invariant forall i :: 0 <= i < |order| ==> lines[i] == "export " + order[i] + "=" + env[order[i]]
      decreases rest
    {
      var k :| k in rest;
      if Exported(k) {
        order := order + [k];
        lines := lines + ["export " + k + "=" + env[k]];
      }
      rest := rest - {k};
    }
    if removedProfile {
      lines := lines + [UNSET_PROFILE_LINE];
    }
    assert !Exported(MARKER_VAR) by {
      assert MARKER_VAR[..|AWS_PREFIX|][0] != AWS_PREFIX[0];
    }
  }

  /** The program `exec` mode runs and its argument vector. */
  datatype Target = Target(path: string, argv: seq<string>)

  /** `exec` mode's target: the given command, else `$SHELL` from the ambient
      environment, else `/bin/sh`; a name without `/` is looked up on the
      search path (`which`, a partial map here) and kept as it is when the
      lookup finds nothing. */
  function ExecTarget(command: seq<string>, environ: Env, which: map<string, string>): (t: Target)
    ensures |t.argv| > 0
    ensures |command| > 0 ==> t.argv == command
    ensures |command| == 0 ==> t.argv == [if SHELL_VAR in environ then environ[SHELL_VAR] else DEFAULT_SHELL]
    ensures '/' in t.argv[0] ==> t.path == t.argv[0]
    ensures '/' !in t.argv[0] && t.argv[0] in which && which[t.argv[0]] != "" ==> t.path == which[t.argv[0]]
    ensures t.path == t.argv[0] || (t.argv[0] in which && t.path == which[t.argv[0]] && t.path != "")
  {
    var argv := if |command| > 0 then command
                else [if SHELL_VAR in environ then environ[SHELL_VAR] else DEFAULT_SHELL];
    var name := argv[0];
    var path := if '/' !in name && name in which && which[name] != "" then which[name] else name;
    Target(path, argv)
  }
}
