/** Fetching the base credentials, with one interactive SSO login and one
    retry when the SSO token is missing or refused (lib/swaj/app.py:39-66, 111-118). */
module Bootstrap {
  import opened Wrappers
  import opened Failures
  import opened Text
  import opened AmbientVars

  /** One answer of the provider's `get_credentials`: credentials, nothing
      (None), or an exception. */
  type Fetch = Result<Option<Credentials>, ProviderError>

  /** `sso_login`: without a terminal the program exits with status 1; with
      one it runs `aws sso login` (abstracted to its return code), which fails
      the invocation when non-zero. */
  function SsoLogin(interactive: bool, returnCode: int): (o: Outcome<Failure>)
    ensures o == Pass <==> interactive && returnCode == 0
    ensures !interactive ==> o == Fail(Exit(1))
    ensures interactive && returnCode != 0 ==> o == Fail(LoginFailed(returnCode))
  {
    if !interactive then Fail(Exit(1))
    else if returnCode != 0 then Fail(LoginFailed(returnCode))
    else Pass
  }

  /** What one call of `get_aws_vars` yields against one answer of
      `get_credentials`; None credentials make the field access raise. */
  function Attempted(environ: Env, fetch: Fetch): (r: Result<Env, Failure>)
    ensures r.Success? <==> fetch.Success? && fetch.value.Some?
    ensures fetch.Failure? ==> r == Failure(Provider(fetch.error))
    ensures fetch == Success(None) ==> r == Failure(NoCredentials)
    ensures r.Success? ==> r.value == AwsVarsOf(environ, fetch.value.value)
    ensures r.Success? ==> forall k :: k in r.value ==> StartsWith(k, AWS_PREFIX)
  {
    match fetch
    case Failure(e) => Failure(Provider(e))
    case Success(None) => Failure(NoCredentials)
    case Success(Some(creds)) => Success(AwsVarsOf(environ, creds))
  }

  /** The outcome of the bootstrap with the number of credential fetches and
      SSO logins it performed. */
  datatype Bootstrapped = Bootstrapped(result: Result<Env, Failure>, fetches: nat, logins: nat)

  /** The bootstrap against the two answers `get_credentials` would give and
      the terminal and login outcome. The retry is bounded: at most one login
      and two fetches, a login only after an SSO-token error, a second fetch
      only after a successful login, and whatever the second fetch yields is
      final. */
  function BaseCredentials(environ: Env, first: Fetch, interactive: bool, loginStatus: int, second: Fetch): (b: Bootstrapped)
    ensures 1 <= b.fetches <= 2 && b.logins <= 1
    ensures b.logins == 1 <==> first.Failure? && NeedsSsoLogin(first.error)
    ensures b.fetches == 2 <==> b.logins == 1 && interactive && loginStatus == 0
    ensures b.logins == 0 ==> b.result == Attempted(environ, first)
    ensures b.logins == 1 && !interactive ==> b.result == Failure(Exit(1))
    ensures b.logins == 1 && interactive && loginStatus != 0 ==> b.result == Failure(LoginFailed(loginStatus))
    ensures b.fetches == 2 ==> b.result == Attempted(environ, second)
  {
    if first.Failure? && NeedsSsoLogin(first.error) then
      match SsoLogin(interactive, loginStatus)
      case Fail(f) => Bootstrapped(Failure(f), 1, 1)
      case Pass => Bootstrapped(Attempted(environ, second), 2, 1)
    else
      Bootstrapped(Attempted(environ, first), 1, 0)
  }

  /** One call of `get_aws_vars`. */
  method FetchAwsVars(environ: Env, fetch: Fetch) returns (r: Result<Env, Failure>)
    ensures r == Attempted(environ, fetch)
  {
    match fetch {
      case Failure(e) => r := Failure(Provider(e));
      case Success(None) => r := Failure(NoCredentials);
      case Success(Some(creds)) =>
        var vars := GetAwsVars(environ, creds);
        r := Success(vars);
    }
  }

  /** The try/except around `get_aws_vars` in `main`. */
  method Bootstrap(environ: Env, first: Fetch, interactive: bool, loginStatus: int, second: Fetch)
    returns (r: Result<Env, Failure>, fetches: nat, logins: nat)
    ensures Bootstrapped(r, fetches, logins) == BaseCredentials(environ, first, interactive, loginStatus, second)
  {
    r := FetchAwsVars(environ, first);
    fetches, logins := 1, 0;
    if first.Failure? && NeedsSsoLogin(first.error) {
      logins := 1;
      var login := SsoLogin(interactive, loginStatus);
      if login.Fail? {
        r := Failure(login.error);
      } else {
        r := FetchAwsVars(environ, second);
        fetches := 2;
      }
    }
  }
}
