/** One invocation of the program (`main`, lib/swaj/app.py:69-301) from the
    profile choice to the output, with every outside answer as an input. */
module Program {
  import opened Wrappers
  import opened Failures
  import opened Timestamp
  import opened AmbientVars
  import opened Bootstrap
  import opened StateStore
  import opened Resolver
  import opened Environment

  /** The subcommand. */
  datatype Mode = Exec(command: seq<string>) | PrintEnv | PrintEval | Refresh

  const MFA_SERIAL_ATTR: string := "mfa_serial"
  const ROLE_ARN_ATTR: string := "swaj_role_arn"

  /** Everything an invocation reads from outside itself: the environment and
      arguments, the terminal, the provider's answers, the configuration
      file's profiles, the clock, the typed token code, the state-file lock
      and the search path. */
  datatype World = World(
    environ: Env,
    profileFlag: Option<string>,
    mode: Mode,
    interactive: bool,
    firstFetch: Fetch,
    loginStatus: int,
    secondFetch: Fetch,
    profiles: map<string, map<string, string>>,
    callerIdentity: Result<string, ProviderError>,
    now: Instant,
    tokenCode: string,
    sessionTokenAnswer: Result<Issued, ProviderError>,
    assumeRoleAnswer: Result<Issued, ProviderError>,
    mfaLock: bool,
    roleLock: bool,
    which: map<string, string>)

  /** What the invocation ends in: nothing (refresh), the lines of `env` or
      `eval` mode for this environment, or replacing the process. */
  datatype Dispatch =
    | Quiet
    | EnvLines(env: Env)
    | EvalLines(env: Env, removedProfile: bool)
    | Replace(target: Target, env: Env)

  /** The result, the state file afterwards, and the provider requests of the cache steps in order. */
  datatype Run = Run(result: Result<Dispatch, Failure>, disk: Disk, requests: seq<Request>)

  /** The resolution so far: the cache and credential set, the state file, the requests sent. */
  datatype Progress = Progress(result: Result<Resolved, Failure>, disk: Disk, requests: seq<Request>)

  /** `config.get("profiles", {}).get(profile, {})`. */
  function ProfileConfig(profiles: map<string, map<string, string>>, profile: string): (attrs: map<string, string>)
    ensures profile !in profiles ==> attrs == map[]
    ensures forall k :: k in attrs <==> profile in profiles && k in profiles[profile]
    ensures forall k :: k in attrs ==> attrs[k] == profiles[profile][k]
  {
    if profile in profiles then profiles[profile] else map[]
  }

  function Sent(s: Step): seq<Request>
  {
    if s.request.Some? then [s.request.value] else []
  }

  /** A step's effect on the progress: a successful step has stored its snapshot. */
  function Advance(p: Progress, s: Step): Progress
  {
    Progress(s.result, if s.result.Success? then Snapshot(s.result.value.state) else p.disk, p.requests + Sent(s))
  }

  /** The MFA block: a step keyed by the profile's serial, when it has one
      and nothing has failed yet. It sends at most one request, always
      get_session_token for that serial, and replaces the state file only by
      the snapshot of its successful step. */
  function MfaPhase(w: World, attrs: map<string, string>, p: Progress): (q: Progress)
    ensures p.result.Failure? || MFA_SERIAL_ATTR !in attrs ==> q == p
    ensures |p.requests| <= |q.requests| <= |p.requests| + 1
    ensures q.requests[..|p.requests|] == p.requests
    ensures |q.requests| > |p.requests| ==>
      q.requests[|p.requests|] == SessionToken(attrs[MFA_SERIAL_ATTR], w.tokenCode)
    ensures q.disk == p.disk || (q.result.Success? && q.disk == Snapshot(q.result.value.state))
    ensures q.result.Failure? ==> q.disk == p.disk
  {
    if p.result.Failure? || MFA_SERIAL_ATTR !in attrs then p
    else
      var serial := attrs[MFA_SERIAL_ATTR];
      var r := p.result.value;
      Advance(p, CacheStep(r.state, r.vars, serial, w.mode.Refresh?, Format(w.now),
                           MfaMiss(serial, w.interactive, w.tokenCode, w.sessionTokenAnswer), w.mfaLock))
  }

  /** The role block: a step keyed by the profile's role ARN, when it has
      one and nothing has failed yet. It sends at most one request, always
      assume_role for that ARN and session name, and replaces the state file
      only by the snapshot of its successful step. */
  function RolePhase(w: World, attrs: map<string, string>, sessionName: string, p: Progress): (q: Progress)
    ensures p.result.Failure? || ROLE_ARN_ATTR !in attrs ==> q == p
    ensures |p.requests| <= |q.requests| <= |p.requests| + 1
    ensures q.requests[..|p.requests|] == p.requests
    ensures |q.requests| > |p.requests| ==>
      q.requests[|p.requests|].AssumeRole?
      && q.requests[|p.requests|].roleArn == attrs[ROLE_ARN_ATTR]
      && q.requests[|p.requests|].sessionName == sessionName
    ensures q.disk == p.disk || (q.result.Success? && q.disk == Snapshot(q.result.value.state))
    ensures q.result.Failure? ==> q.disk == p.disk
  {
    if p.result.Failure? || ROLE_ARN_ATTR !in attrs then p
    else
      var arn := attrs[ROLE_ARN_ATTR];
      var r := p.result.value;
      Advance(p, CacheStep(r.state, r.vars, arn, w.mode.Refresh?, Format(w.now),
                           RoleMiss(r.vars, arn, sessionName, w.assumeRoleAnswer), w.roleLock))
  }

  /** The subcommand branch on the assembled environment. */
  function Dispatched(w: World, profile: string, vars: Env): (d: Dispatch)
    ensures d.Quiet? <==> w.mode.Refresh?
    ensures d.EnvLines? <==> w.mode.PrintEnv?
    ensures d.EvalLines? <==> w.mode.PrintEval?
    ensures d.Replace? <==> w.mode.Exec?
    ensures !d.Quiet? ==>
      PROFILE_VAR !in d.env
      && MARKER_VAR in d.env && d.env[MARKER_VAR] == "1"
      && PROFILE_MARKER_VAR in d.env && d.env[PROFILE_MARKER_VAR] == profile
    ensures d.EvalLines? ==> (d.removedProfile <==> PROFILE_VAR in w.environ || PROFILE_VAR in vars)
    ensures d.Replace? ==> d.target == ExecTarget(w.mode.command, w.environ, w.which)
  {
    var a := Assembled(w.environ, vars, profile);
    match w.mode
    case Refresh => Quiet
    case PrintEnv => EnvLines(a.env)
    case PrintEval => EvalLines(a.env, a.removedProfile)
    case Exec(command) => Replace(ExecTarget(command, w.environ, w.which), a.env)
  }

  /** The invocation against the state file it starts from. */
  function Invocation(w: World, disk: Disk): (r: Run)
    ensures |r.requests| <= 2
    ensures r.disk == disk || r.disk.Snapshot?
    ensures SelectProfile(w.environ, w.profileFlag).Failure? ==>
      r == Run(Failure(SelectProfile(w.environ, w.profileFlag).error), disk, [])
  {
    match SelectProfile(w.environ, w.profileFlag)
    case Failure(f) => Run(Failure(f), disk, [])
    case Success(profile) => Authenticated(w, profile, disk)
  }

  /** From the chosen profile: the base credentials, the caller identity and the loaded cache. */
  function Authenticated(w: World, profile: string, disk: Disk): (r: Run)
    ensures |r.requests| <= 2
    ensures r.disk == disk || r.disk.Snapshot?
    ensures BaseCredentials(w.environ, w.firstFetch, w.interactive, w.loginStatus, w.secondFetch).result.Failure? ==>
      r.result.Failure? && r.disk == disk && r.requests == []
    ensures w.callerIdentity.Failure? ==> r.result.Failure? && r.disk == disk && r.requests == []
    // a state file that does not parse is never overwritten
    ensures disk.Unparseable? ==> r.result.Failure? && r.disk == disk && r.requests == []
  {
    var base := BaseCredentials(w.environ, w.firstFetch, w.interactive, w.loginStatus, w.secondFetch).result;
    if base.Failure? then Run(Failure(base.error), disk, [])
    else if w.callerIdentity.Failure? then Run(Failure(Provider(w.callerIdentity.error)), disk, [])
    else match Loaded(disk)
      case Failure(f) => Run(Failure(f), disk, [])
      case Success(state) => Resolution(w, profile, SessionName(w.callerIdentity.value), base.value, state, disk)
  }

  /** From the base credential set and the loaded cache: the two steps, then the dispatch. */
  function Resolution(w: World, profile: string, sessionName: string, vars: Env, state: CacheMap, disk: Disk): (r: Run)
    ensures |r.requests| <= 2
    ensures r.disk == disk || r.disk.Snapshot?
    // the MFA request, when there is one, comes before the role request
    ensures |r.requests| == 2 ==> r.requests[0].SessionToken? && r.requests[1].AssumeRole?
    ensures r.result.Success? ==> (r.result.value.Quiet? <==> w.mode.Refresh?)
  {
    var attrs := ProfileConfig(w.profiles, profile);
    var p := RolePhase(w, attrs, sessionName, MfaPhase(w, attrs, Progress(Success(Resolved(state, vars)), disk, [])));
    match p.result
    case Failure(f) => Run(Failure(f), p.disk, p.requests)
    case Success(r) => Run(Success(Dispatched(w, profile, r.vars)), p.disk, p.requests)
  }

  /** Whether a progress value describes the resolver's dictionaries, the
      state file and the requests sent so far. */
  predicate Mirrors(p: Progress, o: Outcome<Failure>, state: CacheMap, vars: Env, disk: Disk, requests: seq<Request>)
  {
    && p.disk == disk
    && p.requests == requests
    && match p.result
       case Success(r) => o == Pass && r.state == state && r.vars == vars
       case Failure(f) => o == Fail(f)
  }

  /** The MFA block of `main` (lib/swaj/app.py:169-212) run on the resolver. */
  method MfaStage(w: World, attrs: map<string, string>, resolver: Resolver, ghost p: Progress, sent: seq<Request>)
    returns (o: Outcome<Failure>, requests: seq<Request>)
    requires Mirrors(p, Pass, resolver.state, resolver.awsVars, resolver.store.disk, sent)
    modifies resolver, resolver.store
    ensures Mirrors(MfaPhase(w, attrs, p), o, resolver.state, resolver.awsVars, resolver.store.disk, requests)
  {
    o, requests := Pass, sent;
    if MFA_SERIAL_ATTR in attrs {
      var serial := attrs[MFA_SERIAL_ATTR];
      var hit, request;
      hit, request, o := resolver.MfaStep(serial, w.mode.Refresh?, Format(w.now), w.interactive, w.tokenCode,
                                          w.sessionTokenAnswer, w.mfaLock);
      if request.Some? {
        requests := requests + [request.value];
      }
    }
  }

  /** The role block of `main` (lib/swaj/app.py:214-260) run on the resolver. */
  method RoleStage(w: World, attrs: map<string, string>, sessionName: string, resolver: Resolver,
                   ghost p: Progress, sent: seq<Request>)
    returns (o: Outcome<Failure>, requests: seq<Request>)
    requires Mirrors(p, Pass, resolver.state, resolver.awsVars, resolver.store.disk, sent)
    modifies resolver, resolver.store
    ensures Mirrors(RolePhase(w, attrs, sessionName, p), o, resolver.state, resolver.awsVars, resolver.store.disk, requests)
  {
    o, requests := Pass, sent;
    if ROLE_ARN_ATTR in attrs {
      var arn := attrs[ROLE_ARN_ATTR];
      var hit, request;
      hit, request, o := resolver.RoleStep(arn, w.mode.Refresh?, Format(w.now), sessionName,
                                           w.assumeRoleAnswer, w.roleLock);
      if request.Some? {
        requests := requests + [request.value];
      }
    }
  }

  /** `main`, statement by statement, over the state store. */
  method Invoke(w: World, store: Store) returns (result: Result<Dispatch, Failure>, requests: seq<Request>)
    modifies store
    ensures Run(result, store.disk, requests) == Invocation(w, old(store.disk))
  {
    var selected := SelectProfile(w.environ, w.profileFlag);
    if selected.Failure? {
      return Failure(selected.error), [];
    }
    result, requests := Authenticate(w, selected.value, store);
  }

  /** The statements from the bootstrap to `load_state`, then the resolver. */
  method Authenticate(w: World, profile: string, store: Store) returns (result: Result<Dispatch, Failure>, requests: seq<Request>)
    modifies store
    ensures Run(result, store.disk, requests) == Authenticated(w, profile, old(store.disk))
  {
    requests := [];
    var base, fetches, logins := Bootstrap.Bootstrap(w.environ, w.firstFetch, w.interactive, w.loginStatus, w.secondFetch);
    if base.Failure? {
      return Failure(base.error), requests;
    }
    if w.callerIdentity.Failure? {
      return Failure(Provider(w.callerIdentity.error)), requests;
    }
    var sessionName := SessionName(w.callerIdentity.value);
    var loaded := store.Load();
    if loaded.Failure? {
      return Failure(loaded.error), requests;
    }
    var resolver := new Resolver(store, loaded.value, base.value);
    result, requests := Resolve(w, profile, sessionName, resolver);
  }

  /** The two cache blocks run on a resolver holding `state` and `aws_vars`, then the dispatch. */
  method Resolve(w: World, profile: string, sessionName: string, resolver: Resolver)
    returns (result: Result<Dispatch, Failure>, requests: seq<Request>)
    modifies resolver, resolver.store
    ensures Run(result, resolver.store.disk, requests)
         == Resolution(w, profile, sessionName, old(resolver.awsVars), old(resolver.state), old(resolver.store.disk))
  {
    var attrs := ProfileConfig(w.profiles, profile);
    ghost var p := Progress(Success(Resolved(resolver.state, resolver.awsVars)), resolver.store.disk, []);
    var o;
    o, requests := MfaStage(w, attrs, resolver, p, []);
    p := MfaPhase(w, attrs, p);
    if o.Fail? {
      return Failure(o.error), requests;
    }
    o, requests := RoleStage(w, attrs, sessionName, resolver, p, requests);
    p := RolePhase(w, attrs, sessionName, p);
    if o.Fail? {
      return Failure(o.error), requests;
    }
    var d := DispatchOf(w, profile, resolver.awsVars);
    result := Success(d);
  }

  /** The environment assembly and the branch on the subcommand. */
  method DispatchOf(w: World, profile: string, vars: Env) returns (d: Dispatch)
    ensures d == Dispatched(w, profile, vars)
  {
    var env, removedProfile := Assemble(w.environ, vars, profile);
    match w.mode {
      case Refresh => d := Quiet;
      case PrintEnv => d := EnvLines(env);
      case PrintEval => d := EvalLines(env, removedProfile);
      case Exec(command) => d := Replace(ExecTarget(command, w.environ, w.which), env);
    }
  }

  // ---------------------------------------------------------------------
  // Properties of whole invocations

  /** A state file whose every entry carries an expiration. */
  predicate Readable(disk: Disk)
  {
    disk.Absent? || (disk.Snapshot? && WellFormed(disk.state))
  }

  /** Runs keep a readable state file readable, send at most one request per
      step, and on a readable file fail only at the profile choice, the
      bootstrap, the caller identity, a miss branch or a lock, never on an
      entry without an expiration. */
  lemma RunKeepsStateFileReadable(w: World, disk: Disk)
    requires Readable(disk)
    ensures Readable(Invocation(w, disk).disk)
    ensures |Invocation(w, disk).requests| <= 2
    ensures Invocation(w, disk).result != Failure(MissingKey(EXPIRATION_VAR))
  {
    var selected := SelectProfile(w.environ, w.profileFlag);
    var base := BaseCredentials(w.environ, w.firstFetch, w.interactive, w.loginStatus, w.secondFetch).result;
    if selected.Success? && base.Success? && w.callerIdentity.Success? {
      var attrs := ProfileConfig(w.profiles, selected.value);
      var sessionName := SessionName(w.callerIdentity.value);
      var p0 := Progress(Success(Resolved(Loaded(disk).value, base.value)), disk, []);
      var p1 := MfaPhase(w, attrs, p0);
      MfaPhaseReadable(w, attrs, p0);
      RolePhaseReadable(w, attrs, sessionName, p1);
    }
  }

  /** Whether a progress value keeps the state file and the cache readable. */
  predicate Sound(p: Progress)
  {
    && Readable(p.disk)
    && p.result != Failure(MissingKey(EXPIRATION_VAR))
    && (p.result.Success? ==> WellFormed(p.result.value.state))
  }

  lemma MfaPhaseReadable(w: World, attrs: map<string, string>, p: Progress)
    requires Sound(p)
    ensures Sound(MfaPhase(w, attrs, p))
    ensures |MfaPhase(w, attrs, p).requests| <= |p.requests| + 1
  {
    if p.result.Success? && MFA_SERIAL_ATTR in attrs {
      var r := p.result.value;
      var serial := attrs[MFA_SERIAL_ATTR];
      StepKeepsWellFormed(r.state, r.vars, serial, w.mode.Refresh?, Format(w.now),
                          MfaMiss(serial, w.interactive, w.tokenCode, w.sessionTokenAnswer), w.mfaLock);
    }
  }

  lemma RolePhaseReadable(w: World, attrs: map<string, string>, sessionName: string, p: Progress)
    requires Sound(p)
    ensures Sound(RolePhase(w, attrs, sessionName, p))
    ensures |RolePhase(w, attrs, sessionName, p).requests| <= |p.requests| + 1
  {
    if p.result.Success? && ROLE_ARN_ATTR in attrs {
      var r := p.result.value;
      var arn := attrs[ROLE_ARN_ATTR];
      StepKeepsWellFormed(r.state, r.vars, arn, w.mode.Refresh?, Format(w.now),
                          RoleMiss(r.vars, arn, sessionName, w.assumeRoleAnswer), w.roleLock);
    }
  }

  /** The credential set a run ends with, measured on what it dispatches. */
  predicate Carries(d: Dispatch, k: string, v: string)
  {
    !d.Quiet? && k in d.env && d.env[k] == v
  }

  /** Every dispatch but refresh hands on the whole credential set, apart
      from the profile variable and the two markers it overrides. */
  lemma DispatchCarriesCredentials(w: World, profile: string, vars: Env)
    requires !w.mode.Refresh?
    ensures forall k :: k in vars && k !in {PROFILE_VAR, MARKER_VAR, PROFILE_MARKER_VAR} ==>
      Carries(Dispatched(w, profile, vars), k, vars[k])
  {
    var a := Assembled(w.environ, vars, profile);
    assert Dispatched(w, profile, vars).env == a.env;
  }

  /** A profile without an MFA serial or a role ARN runs on the base
      credentials alone: no request, no store, and the dispatched
      environment is the ambient one overlaid with the base credential set. */
  lemma UnchainedProfileUsesBaseCredentials(w: World, disk: Disk, profile: string, vars: Env)
    requires SelectProfile(w.environ, w.profileFlag) == Success(profile)
    requires BaseCredentials(w.environ, w.firstFetch, w.interactive, w.loginStatus, w.secondFetch).result == Success(vars)
    requires w.callerIdentity.Success? && Loaded(disk).Success?
    requires MFA_SERIAL_ATTR !in ProfileConfig(w.profiles, profile) && ROLE_ARN_ATTR !in ProfileConfig(w.profiles, profile)
    ensures Invocation(w, disk) == Run(Success(Dispatched(w, profile, vars)), disk, [])
  {
  }

  /** Whether the cache entry for `key` is not used in this run: missing,
      being refreshed, or expired. */
  predicate NotLive(w: World, state: CacheMap, key: string)
  {
    w.mode.Refresh? || key !in state
    || (EXPIRATION_VAR in state[key] && Expired(Format(w.now), state[key][EXPIRATION_VAR]))
  }

  /** Without a terminal, a profile with an MFA serial whose cache entry is
      missing, expired or being refreshed exits with status 1 before any
      request, leaving the state file as it was. */
  lemma NonInteractiveMfaMissExits(w: World, disk: Disk, profile: string, state: CacheMap)
    requires SelectProfile(w.environ, w.profileFlag) == Success(profile)
    requires BaseCredentials(w.environ, w.firstFetch, w.interactive, w.loginStatus, w.secondFetch).result.Success?
    requires w.callerIdentity.Success? && Loaded(disk) == Success(state)
    requires MFA_SERIAL_ATTR in ProfileConfig(w.profiles, profile) && !w.interactive
    requires NotLive(w, state, ProfileConfig(w.profiles, profile)[MFA_SERIAL_ATTR])
    ensures Invocation(w, disk) == Run(Failure(Exit(1)), disk, [])
  {
    var serial := ProfileConfig(w.profiles, profile)[MFA_SERIAL_ATTR];
    var base := BaseCredentials(w.environ, w.firstFetch, w.interactive, w.loginStatus, w.secondFetch).result;
    var s := CacheStep(state, base.value, serial, w.mode.Refresh?, Format(w.now),
                       MfaMiss(serial, w.interactive, w.tokenCode, w.sessionTokenAnswer), w.mfaLock);
    assert !s.hit && s.request.None?;
    assert s.result == Failure(Exit(1));
    var attrs := ProfileConfig(w.profiles, profile);
    var p := MfaPhase(w, attrs, Progress(Success(Resolved(state, base.value)), disk, []));
    assert p == Progress(Failure(Exit(1)), disk, []);
    var sessionName := SessionName(w.callerIdentity.value);
    assert RolePhase(w, attrs, sessionName, p) == p;
    ReachesResolution(w, disk, profile, base.value, state);
  }

  /** A run that gets past the bootstrap, the caller identity and `load_state`
      is the resolution from the base credentials and the loaded cache. */
  lemma ReachesResolution(w: World, disk: Disk, profile: string, base: Env, state: CacheMap)
    requires SelectProfile(w.environ, w.profileFlag) == Success(profile)
    requires BaseCredentials(w.environ, w.firstFetch, w.interactive, w.loginStatus, w.secondFetch).result == Success(base)
    requires w.callerIdentity.Success? && Loaded(disk) == Success(state)
    ensures Invocation(w, disk) == Resolution(w, profile, SessionName(w.callerIdentity.value), base, state, disk)
  {
  }

  /** The requests and the state file of a resolution are those of its two phases. */
  lemma ResolutionTrace(w: World, profile: string, sessionName: string, vars: Env, state: CacheMap, disk: Disk)
    ensures var attrs := ProfileConfig(w.profiles, profile);
      var p := RolePhase(w, attrs, sessionName, MfaPhase(w, attrs, Progress(Success(Resolved(state, vars)), disk, [])));
      && Resolution(w, profile, sessionName, vars, state, disk).requests == p.requests
      && Resolution(w, profile, sessionName, vars, state, disk).disk == p.disk
  {
  }

  /** In refresh mode a profile with an MFA serial always asks for a new
      session token with the typed code, whatever the state file holds. */
  lemma RefreshRequestsSessionToken(w: World, disk: Disk, profile: string)
    requires SelectProfile(w.environ, w.profileFlag) == Success(profile)
    requires BaseCredentials(w.environ, w.firstFetch, w.interactive, w.loginStatus, w.secondFetch).result.Success?
    requires w.callerIdentity.Success? && Loaded(disk).Success?
    requires MFA_SERIAL_ATTR in ProfileConfig(w.profiles, profile) && w.interactive && w.mode.Refresh?
    ensures var serial := ProfileConfig(w.profiles, profile)[MFA_SERIAL_ATTR];
      |Invocation(w, disk).requests| >= 1
      && Invocation(w, disk).requests[0] == SessionToken(serial, w.tokenCode)
  {
    var attrs := ProfileConfig(w.profiles, profile);
    var serial := attrs[MFA_SERIAL_ATTR];
    var base := BaseCredentials(w.environ, w.firstFetch, w.interactive, w.loginStatus, w.secondFetch).result.value;
    var state := Loaded(disk).value;
    var sessionName := SessionName(w.callerIdentity.value);
    ReachesResolution(w, disk, profile, base, state);
    ResolutionTrace(w, profile, sessionName, base, state, disk);
    var s := CacheStep(state, base, serial, true, Format(w.now),
                       MfaMiss(serial, w.interactive, w.tokenCode, w.sessionTokenAnswer), w.mfaLock);
    assert s.request == Some(SessionToken(serial, w.tokenCode));
    var p1 := MfaPhase(w, attrs, Progress(Success(Resolved(state, base)), disk, []));
    assert p1.requests == [SessionToken(serial, w.tokenCode)];
    var p2 := RolePhase(w, attrs, sessionName, p1);
    assert p2.requests[..1] == p1.requests;
  }

  /** How a run whose profile has an MFA serial and no role ARN ends, given its MFA step. */
  function MfaOnlyRun(w: World, profile: string, disk: Disk, s: Step): Run
  {
    match s.result
    case Failure(f) => Run(Failure(f), disk, Sent(s))
    case Success(r) => Run(Success(Dispatched(w, profile, r.vars)), Snapshot(r.state), Sent(s))
  }

  lemma MfaOnlyInvocation(w: World, disk: Disk, profile: string, base: Env, state: CacheMap)
    requires SelectProfile(w.environ, w.profileFlag) == Success(profile)
    requires BaseCredentials(w.environ, w.firstFetch, w.interactive, w.loginStatus, w.secondFetch).result == Success(base)
    requires w.callerIdentity.Success? && Loaded(disk) == Success(state)
    requires MFA_SERIAL_ATTR in ProfileConfig(w.profiles, profile) && ROLE_ARN_ATTR !in ProfileConfig(w.profiles, profile)
    ensures var serial := ProfileConfig(w.profiles, profile)[MFA_SERIAL_ATTR];
      Invocation(w, disk) == MfaOnlyRun(w, profile, disk, CacheStep(state, base, serial, w.mode.Refresh?, Format(w.now),
        MfaMiss(serial, w.interactive, w.tokenCode, w.sessionTokenAnswer), w.mfaLock))
  {
    var attrs := ProfileConfig(w.profiles, profile);
    ReachesResolution(w, disk, profile, base, state);
    var p1 := MfaPhase(w, attrs, Progress(Success(Resolved(state, base)), disk, []));
    assert RolePhase(w, attrs, SessionName(w.callerIdentity.value), p1) == p1;
  }

  /** Whether a credential set holds exactly the issued credentials' four variables. */
  predicate Holds(vars: Env, issued: Issued)
  {
    && ACCESS_KEY_VAR in vars && vars[ACCESS_KEY_VAR] == issued.accessKeyId
    && SECRET_KEY_VAR in vars && vars[SECRET_KEY_VAR] == issued.secretAccessKey
    && TOKEN_VAR in vars && vars[TOKEN_VAR] == issued.sessionToken
    && EXPIRATION_VAR in vars && vars[EXPIRATION_VAR] == Format(issued.expiration)
  }

  /** A run of an MFA-only profile whose serial has no live entry, with a
      terminal, the lock and a session token from the provider, sends that one
      request and stores the issued credentials under the serial. */
  lemma MissStoresIssued(w: World, disk: Disk, profile: string, state: CacheMap, issued: Issued)
    requires SelectProfile(w.environ, w.profileFlag) == Success(profile)
    requires MFA_SERIAL_ATTR in ProfileConfig(w.profiles, profile) && ROLE_ARN_ATTR !in ProfileConfig(w.profiles, profile)
    requires BaseCredentials(w.environ, w.firstFetch, w.interactive, w.loginStatus, w.secondFetch).result.Success?
    requires w.callerIdentity.Success? && Loaded(disk) == Success(state)
    requires NotLive(w, state, ProfileConfig(w.profiles, profile)[MFA_SERIAL_ATTR])
    requires w.interactive && w.mfaLock && w.sessionTokenAnswer == Success(issued)
    ensures var serial := ProfileConfig(w.profiles, profile)[MFA_SERIAL_ATTR];
      && Invocation(w, disk).result.Success?
      && Invocation(w, disk).requests == [SessionToken(serial, w.tokenCode)]
      && Invocation(w, disk).disk.Snapshot?
      && serial in Invocation(w, disk).disk.state
      && Holds(Invocation(w, disk).disk.state[serial], issued)
  {
    var serial := ProfileConfig(w.profiles, profile)[MFA_SERIAL_ATTR];
    var base := BaseCredentials(w.environ, w.firstFetch, w.interactive, w.loginStatus, w.secondFetch).result.value;
    var s := CacheStep(state, base, serial, w.mode.Refresh?, Format(w.now),
                       MfaMiss(serial, w.interactive, w.tokenCode, w.sessionTokenAnswer), w.mfaLock);
    MfaOnlyInvocation(w, disk, profile, base, state);
    assert !s.hit && s.result.Success?;
  }

  /** A run of an MFA-only profile whose serial holds credentials that have
      not expired uses them without a request. */
  lemma LiveEntryServes(w: World, cached: CacheMap, profile: string, issued: Issued)
    requires SelectProfile(w.environ, w.profileFlag) == Success(profile)
    requires MFA_SERIAL_ATTR in ProfileConfig(w.profiles, profile) && ROLE_ARN_ATTR !in ProfileConfig(w.profiles, profile)
    requires BaseCredentials(w.environ, w.firstFetch, w.interactive, w.loginStatus, w.secondFetch).result.Success?
    requires w.callerIdentity.Success? && w.mfaLock
    requires !w.mode.Refresh? && Seconds(w.now) <= Seconds(issued.expiration)
    requires var serial := ProfileConfig(w.profiles, profile)[MFA_SERIAL_ATTR];
      serial in cached && Holds(cached[serial], issued)
    ensures var r := Invocation(w, Snapshot(cached));
      && r.requests == []
      && r.result.Success?
      && Carries(r.result.value, ACCESS_KEY_VAR, issued.accessKeyId)
      && Carries(r.result.value, SECRET_KEY_VAR, issued.secretAccessKey)
      && Carries(r.result.value, TOKEN_VAR, issued.sessionToken)
      && Carries(r.result.value, EXPIRATION_VAR, Format(issued.expiration))
  {
    var serial := ProfileConfig(w.profiles, profile)[MFA_SERIAL_ATTR];
    var base := BaseCredentials(w.environ, w.firstFetch, w.interactive, w.loginStatus, w.secondFetch).result.value;
    var s := CacheStep(cached, base, serial, false, Format(w.now),
                       MfaMiss(serial, w.interactive, w.tokenCode, w.sessionTokenAnswer), w.mfaLock);
    MfaOnlyInvocation(w, Snapshot(cached), profile, base, cached);
    ExpiryIsChronological(w.now, issued.expiration);
    assert s.hit && s.result.Success?;
    var vars := s.result.value.vars;
    assert vars == base + cached[serial];
    DispatchCarriesCredentials(w, profile, vars);
  }

  /** The cache across invocations: after a run that fetched a session token
      for a profile's MFA serial, a later run of the same profile before the
      token's expiration sends no request (and so asks for no code) and hands
      on the same credentials. */
  lemma SecondRunServedFromCache(w1: World, w2: World, disk: Disk, profile: string, state: CacheMap, issued: Issued)
    requires SelectProfile(w1.environ, w1.profileFlag) == Success(profile)
    requires MFA_SERIAL_ATTR in ProfileConfig(w1.profiles, profile) && ROLE_ARN_ATTR !in ProfileConfig(w1.profiles, profile)
    requires BaseCredentials(w1.environ, w1.firstFetch, w1.interactive, w1.loginStatus, w1.secondFetch).result.Success?
    requires w1.callerIdentity.Success? && Loaded(disk) == Success(state)
    requires NotLive(w1, state, ProfileConfig(w1.profiles, profile)[MFA_SERIAL_ATTR])
    requires w1.interactive && w1.mfaLock && w1.sessionTokenAnswer == Success(issued)
    requires SelectProfile(w2.environ, w2.profileFlag) == Success(profile) && w2.profiles == w1.profiles
    requires BaseCredentials(w2.environ, w2.firstFetch, w2.interactive, w2.loginStatus, w2.secondFetch).result.Success?
    requires w2.callerIdentity.Success? && w2.mfaLock
    requires !w2.mode.Refresh? && Seconds(w2.now) <= Seconds(issued.expiration)
    ensures var r := Invocation(w2, Invocation(w1, disk).disk);
      && r.requests == []
      && r.result.Success?
      && Carries(r.result.value, ACCESS_KEY_VAR, issued.accessKeyId)
      && Carries(r.result.value, SECRET_KEY_VAR, issued.secretAccessKey)
      && Carries(r.result.value, TOKEN_VAR, issued.sessionToken)
      && Carries(r.result.value, EXPIRATION_VAR, Format(issued.expiration))
  {
    MissStoresIssued(w1, disk, profile, state, issued);
    var cached := Invocation(w1, disk).disk.state;
    LiveEntryServes(w2, cached, profile, issued);
  }
}
