/** Collecting the `AWS_` variables of the environment and overlaying the
    base credentials (`get_aws_vars`, lib/swaj/app.py:20-36). */
module AmbientVars {
  import opened Wrappers
  import opened Text

  /** A process environment or a credential set: variable name to value. */
  type Env = map<string, string>

  const AWS_PREFIX: string := "AWS_"
  const ACCESS_KEY_VAR: string := "AWS_ACCESS_KEY_ID"
  const SECRET_KEY_VAR: string := "AWS_SECRET_ACCESS_KEY"
  const TOKEN_VAR: string := "AWS_SESSION_TOKEN"
  const EXPIRATION_VAR: string := "AWS_SESSION_EXPIRATION"

  /** The credentials object the provider's client resolves; each field may be None
      (the session token is None for long-term keys). */
  datatype Credentials = Credentials(accessKey: Option<string>, secretKey: Option<string>, token: Option<string>)

  predicate IsCredentialVar(k: string)
  {
    k == ACCESS_KEY_VAR || k == SECRET_KEY_VAR || k == TOKEN_VAR
  }

  /** The dictionary after the first loop and the three assignments, before None values go. */
  function Collected(environ: Env, creds: Credentials): map<string, Option<string>>
  {
    (map k | k in environ && StartsWith(k, AWS_PREFIX) :: Some(environ[k]))
      [ACCESS_KEY_VAR := creds.accessKey][SECRET_KEY_VAR := creds.secretKey][TOKEN_VAR := creds.token]
  }

  /** The three credential variables are themselves `AWS_` variables. */
  lemma CredentialVarsPrefixed()
    ensures StartsWith(ACCESS_KEY_VAR, AWS_PREFIX) && StartsWith(SECRET_KEY_VAR, AWS_PREFIX)
    ensures StartsWith(TOKEN_VAR, AWS_PREFIX)
  {
    assert ACCESS_KEY_VAR[..4] == AWS_PREFIX;
    assert SECRET_KEY_VAR[..4] == AWS_PREFIX;
    assert TOKEN_VAR[..4] == AWS_PREFIX;
  }

  /** What `get_aws_vars` returns. */
  function AwsVarsOf(environ: Env, creds: Credentials): (r: Env)
    ensures forall k :: k in r ==> StartsWith(k, AWS_PREFIX)
    ensures ACCESS_KEY_VAR in r <==> creds.accessKey.Some?
    ensures SECRET_KEY_VAR in r <==> creds.secretKey.Some?
    ensures TOKEN_VAR in r <==> creds.token.Some?
    ensures creds.accessKey.Some? ==> r[ACCESS_KEY_VAR] == creds.accessKey.value
    ensures creds.secretKey.Some? ==> r[SECRET_KEY_VAR] == creds.secretKey.value
    ensures creds.token.Some? ==> r[TOKEN_VAR] == creds.token.value
    ensures forall k :: k in environ && StartsWith(k, AWS_PREFIX) && !IsCredentialVar(k) ==> k in r
    ensures forall k :: k in r && !IsCredentialVar(k) ==> k in environ && r[k] == environ[k]
  {
    CredentialVarsPrefixed();
    var c := Collected(environ, creds);
    map k | k in c && c[k].Some? :: c[k].value
  }

  /** The first loop: copy every `AWS_` entry of the environment. */
  method CollectPrefixed(environ: Env) returns (collected: map<string, Option<string>>)
    ensures collected == map k | k in environ && StartsWith(k, AWS_PREFIX) :: Some(environ[k])
  {
    collected := map[];
    var unseen := environ.Keys;
    while unseen != {}
      invariant unseen <= environ.Keys
      invariant collected == map k | k in environ.Keys - unseen && StartsWith(k, AWS_PREFIX) :: Some(environ[k])
      decreases unseen
    {
      var k :| k in unseen;
      if StartsWith(k, AWS_PREFIX) {
        collected := collected[k := Some(environ[k])];
      }
      unseen := unseen - {k};
    }
  }

  /** The last loop: delete every entry whose value is None. */
  method DropNone(full: map<string, Option<string>>) returns (kept: map<string, Option<string>>)
    ensures kept == map k | k in full && full[k].Some? :: full[k]
  {
    kept := full;
    var pending := full.Keys;
    while pending != {}
      invariant pending <= full.Keys
      invariant kept == map k | k in full && (k in pending || full[k].Some?) :: full[k]
      decreases pending
    {
      var k :| k in pending;
      if kept[k].None? {
        kept := kept - {k};
      }
      pending := pending - {k};
    }
  }

  /** `get_aws_vars`: copy the `AWS_` entries of the environment, overwrite the
      three credential entries with the credentials' fields, then delete every
      entry whose value is None. */
  method GetAwsVars(environ: Env, creds: Credentials) returns (vars: Env)
    ensures vars == AwsVarsOf(environ, creds)
  {
    var collected := CollectPrefixed(environ);
    collected := collected[ACCESS_KEY_VAR := creds.accessKey];
    collected := collected[SECRET_KEY_VAR := creds.secretKey];
    collected := collected[TOKEN_VAR := creds.token];
    assert collected == Collected(environ, creds);
    collected := DropNone(collected);
    vars := map k | k in collected :: collected[k].value;
  }
}
