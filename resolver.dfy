/** The two cache steps of `main` (the MFA serial, lib/swaj/app.py:169-212,
    then the role ARN, lib/swaj/app.py:214-260) and the helpers of the role
    branch. Each step runs the same five phases against the in-memory cache
    and the running credential set: (1) invalidation on refresh, (2) the
    expiry check, (3) a cache hit or a fetch, (4) the write-back of the key's
    entry and (5) the store of the whole snapshot. */
module Resolver {
  import opened Wrappers
  import opened Failures
  import opened Text
  import opened Timestamp
  import opened AmbientVars
  import opened StateStore

  /** The Credentials part of a get_session_token or assume_role response. */
  datatype Issued = Issued(accessKeyId: string, secretAccessKey: string, sessionToken: string, expiration: Instant)

  /** A provider call a cache miss makes. */
  datatype Request =
    | SessionToken(serialNumber: string, tokenCode: string)
    | AssumeRole(client: map<string, string>, roleArn: string, sessionName: string)

  /** What a step's miss branch does if it runs: the request it gets as far
      as sending, and the credentials it obtains or how it fails. */
  datatype Miss = Miss(request: Option<Request>, response: Result<Issued, Failure>)

  datatype Resolved = Resolved(state: CacheMap, vars: Env)

  /** What one step does: whether the cache served it, the provider request
      it sent, and the new cache and credential set or the failure. */
  datatype Step = Step(hit: bool, request: Option<Request>, result: Result<Resolved, Failure>)

  // ---------------------------------------------------------------------
  // Expiry

  /** `formatted_current_time > expiration` on strings. */
  predicate Expired(now: string, expiration: string)
    ensures Expired(now, expiration) ==> expiration != now
  {
    LexLess(expiration, now)
  }

  /** For timestamps in the fixed format, an entry has expired exactly when
      its expiration lies strictly before the current time; an entry that
      expires in the current second is still used. */
  lemma ExpiryIsChronological(now: Instant, expiration: Instant)
    ensures Expired(Format(now), Format(expiration)) <==> Seconds(expiration) < Seconds(now)
    ensures !Expired(Format(now), Format(now))
  {
    FormatOrder(expiration, now);
  }

  // ---------------------------------------------------------------------
  // The phases of a step

  /** Phase 1: in refresh mode the key's entry is deleted. */
  function Invalidated(state: CacheMap, key: string, refresh: bool): CacheMap
  {
    if refresh && key in state then state - {key} else state
  }

  /** Phases 1 and 2: the cache after invalidation and the expiry check, or
      the KeyError of an entry without an expiration. */
  function Looked(state: CacheMap, key: string, refresh: bool, now: string): (r: Result<CacheMap, Failure>)
    ensures r.Failure? <==> !refresh && key in state && EXPIRATION_VAR !in state[key]
    ensures r.Failure? ==> r.error == MissingKey(EXPIRATION_VAR)
    ensures r.Success? && key in r.value ==>
      !refresh && key in state && r.value[key] == state[key] && !Expired(now, state[key][EXPIRATION_VAR])
    ensures r.Success? && key !in r.value ==>
      refresh || key !in state || Expired(now, state[key][EXPIRATION_VAR])
    ensures r.Success? ==> forall k :: k != key ==> (k in r.value <==> k in state)
    ensures r.Success? ==> forall k :: k != key && k in state ==> r.value[k] == state[k]
  {
    var s := Invalidated(state, key, refresh);
    if key !in s then Success(s)
    else if EXPIRATION_VAR !in s[key] then Failure(MissingKey(EXPIRATION_VAR))
    else if Expired(now, s[key][EXPIRATION_VAR]) then Success(s - {key})
    else Success(s)
  }

  /** The four assignments after a provider call: the issued credentials and
      their expiration in the fixed format. */
  function WithIssued(vars: Env, issued: Issued): (r: Env)
    ensures r.Keys == vars.Keys + {ACCESS_KEY_VAR, SECRET_KEY_VAR, TOKEN_VAR, EXPIRATION_VAR}
    ensures r[ACCESS_KEY_VAR] == issued.accessKeyId && r[SECRET_KEY_VAR] == issued.secretAccessKey
    ensures r[TOKEN_VAR] == issued.sessionToken && r[EXPIRATION_VAR] == Format(issued.expiration)
    ensures forall k :: k in vars && !IsCredentialVar(k) && k != EXPIRATION_VAR ==> r[k] == vars[k]
  {
    vars[ACCESS_KEY_VAR := issued.accessKeyId][SECRET_KEY_VAR := issued.secretAccessKey]
      [TOKEN_VAR := issued.sessionToken][EXPIRATION_VAR := Format(issued.expiration)]
  }

  /** Phase 4: `state.setdefault(key, {}).update(vars)`. */
  function WrittenBack(state: CacheMap, key: string, vars: Env): (r: CacheMap)
    ensures key in r && r[key] == (if key in state then state[key] else map[]) + vars
    ensures forall k :: k != key ==> (k in r <==> k in state)
    ensures forall k :: k != key && k in state ==> r[k] == state[k]
  {
    state[key := (if key in state then state[key] else map[]) + vars]
  }

  function Finish(hit: bool, request: Option<Request>, state: CacheMap, vars: Env, acquired: bool): Step
  {
    Step(hit, request, if acquired then Success(Resolved(state, vars)) else Failure(LockFailed))
  }

  /** One cache step for `key`, given what its miss branch would do and
      whether `store_state` gets the lock. */
  function CacheStep(state: CacheMap, vars: Env, key: string, refresh: bool, now: string, miss: Miss, acquired: bool): (s: Step)
    // the cache serves the step exactly when a live entry survives invalidation
    ensures s.hit <==> !refresh && key in state && EXPIRATION_VAR in state[key] && !Expired(now, state[key][EXPIRATION_VAR])
    // a hit sends no request; otherwise the miss branch runs, unless the entry has no expiration
    ensures s.hit ==> s.request.None?
    ensures !s.hit && (refresh || key !in state || EXPIRATION_VAR in state[key]) ==> s.request == miss.request
    ensures !refresh && key in state && EXPIRATION_VAR !in state[key] ==> s.result == Failure(MissingKey(EXPIRATION_VAR))
    ensures !s.hit && miss.response.Failure? ==> s.result.Failure?
    ensures s.result.Success? ==> acquired
    // a hit merges the entry, a miss installs the issued credentials
    ensures s.result.Success? && s.hit ==> s.result.value.vars == vars + state[key]
    ensures s.result.Success? && !s.hit ==>
      miss.response.Success? && s.result.value.vars == WithIssued(vars, miss.response.value)
    // the key's entry becomes the credential set, which carries an expiration; no other key changes
    ensures s.result.Success? ==>
      key in s.result.value.state && s.result.value.state[key] == s.result.value.vars
      && EXPIRATION_VAR in s.result.value.vars
    ensures s.result.Success? ==> forall k :: k != key ==> (k in s.result.value.state <==> k in state)
    ensures s.result.Success? ==> forall k :: k != key && k in state ==> s.result.value.state[k] == state[k]
  {
    match Looked(state, key, refresh, now)
    case Failure(f) => Step(false, None, Failure(f))
    case Success(s) => if key in s then Served(s, vars, key, acquired) else Fetched(s, vars, key, miss, acquired)
  }

  /** Phases 3 to 5 of a hit: merge the entry, write it back, store. */
  function Served(s: CacheMap, vars: Env, key: string, acquired: bool): (st: Step)
    requires key in s
    ensures st.hit && st.request.None?
    ensures st.result.Success? <==> acquired
    ensures st.result.Success? ==> st.result.value.vars == vars + s[key]
    ensures st.result.Success? ==> key in st.result.value.state && st.result.value.state[key] == st.result.value.vars
    ensures st.result.Success? ==> forall k :: k != key ==> (k in st.result.value.state <==> k in s)
    ensures st.result.Success? ==> forall k :: k != key && k in s ==> st.result.value.state[k] == s[k]
  {
    var v := vars + s[key];
    assert s[key] + v == v;
    Finish(true, None, WrittenBack(s, key, v), v, acquired)
  }

  /** Phases 3 to 5 of a miss: the miss branch, the installing assignments, write-back, store. */
  function Fetched(s: CacheMap, vars: Env, key: string, miss: Miss, acquired: bool): (st: Step)
    requires key !in s
    ensures !st.hit && st.request == miss.request
    ensures st.result.Success? <==> acquired && miss.response.Success?
    ensures miss.response.Failure? ==> st.result == Failure(miss.response.error)
    ensures st.result.Success? ==> st.result.value.vars == WithIssued(vars, miss.response.value)
    ensures st.result.Success? ==> key in st.result.value.state && st.result.value.state[key] == st.result.value.vars
    ensures st.result.Success? ==> forall k :: k != key ==> (k in st.result.value.state <==> k in s)
    ensures st.result.Success? ==> forall k :: k != key && k in s ==> st.result.value.state[k] == s[k]
  {
    match miss.response
    case Failure(f) => Step(false, miss.request, Failure(f))
    case Success(issued) =>
      var v := WithIssued(vars, issued);
      Finish(false, miss.request, WrittenBack(s, key, v), v, acquired)
  }

  // ---------------------------------------------------------------------
  // Properties that relate steps

  /** Every entry carries the expiration the lookup reads. */
  predicate WellFormed(state: CacheMap)
  {
    forall k :: k in state ==> EXPIRATION_VAR in state[k]
  }

  /** A successful step keeps every entry readable by the next lookup; on a
      well-formed cache a step fails only as its miss branch or its lock do. */
  lemma StepKeepsWellFormed(state: CacheMap, vars: Env, key: string, refresh: bool, now: string, miss: Miss, acquired: bool)
    requires WellFormed(state)
    ensures var s := CacheStep(state, vars, key, refresh, now, miss, acquired);
      && (s.result.Success? ==> WellFormed(s.result.value.state))
      && (s.result.Failure? ==> s.result.error == LockFailed || (miss.response.Failure? && s.result.error == miss.response.error))
  {
    var s := CacheStep(state, vars, key, refresh, now, miss, acquired);
    if s.result.Success? {
      var st := s.result.value.state;
      forall k | k in st
        ensures EXPIRATION_VAR in st[k]
      {
        if k != key {
          assert k in state;
        }
      }
    }
  }

  /** What a miss writes is served by the next step for the same key exactly
      until its expiration has passed: a step at any instant up to and
      including the issued expiration is a hit and sends no request, a step
      after it fetches again. */
  lemma MissThenHitUntilExpiry(
    state: CacheMap, vars: Env, key: string, refresh: bool, now: string, issued: Issued, request: Option<Request>,
    vars': Env, later: Instant, miss': Miss, acquired': bool)
    requires var s := CacheStep(state, vars, key, refresh, now, Miss(request, Success(issued)), true);
      s.result.Success? && !s.hit
    ensures var s := CacheStep(state, vars, key, refresh, now, Miss(request, Success(issued)), true);
      var s' := CacheStep(s.result.value.state, vars', key, false, Format(later), miss', acquired');
      && (s'.hit <==> Seconds(later) <= Seconds(issued.expiration))
      && (s'.hit ==> s'.request.None?)
      && (!s'.hit ==> s'.request == miss'.request)
  {
    var s := CacheStep(state, vars, key, refresh, now, Miss(request, Success(issued)), true);
    var entry := s.result.value.state[key];
    assert entry[EXPIRATION_VAR] == Format(issued.expiration);
    ExpiryIsChronological(later, issued.expiration);
  }

  // ---------------------------------------------------------------------
  // The miss branches

  function ProviderAnswer(response: Result<Issued, ProviderError>): Result<Issued, Failure>
  {
    match response
    case Success(issued) => Success(issued)
    case Failure(e) => Failure(Provider(e))
  }

  /** The MFA miss branch: without a terminal the program exits with status
      1 before asking; otherwise it reads a token code and calls
      get_session_token with the serial and the code. */
  function MfaMiss(serial: string, interactive: bool, tokenCode: string, response: Result<Issued, ProviderError>): (m: Miss)
    ensures m.request.Some? <==> interactive
    ensures !interactive ==> m.response == Failure(Exit(1))
    ensures interactive ==> m.request == Some(SessionToken(serial, tokenCode)) && m.response == ProviderAnswer(response)
  {
    if !interactive then Miss(None, Failure(Exit(1)))
    else Miss(Some(SessionToken(serial, tokenCode)), ProviderAnswer(response))
  }

  const SERVICE_NAME_ARG: string := "service_name"
  const ACCESS_KEY_ARG: string := "aws_access_key_id"
  const SECRET_KEY_ARG: string := "aws_secret_access_key"
  const TOKEN_ARG: string := "aws_session_token"

  /** The arguments whose value is truthy (a non-empty string). */
  function Truthy(args: map<string, string>): map<string, string>
  {
    map k | k in args && args[k] != "" :: args[k]
  }

  /** The loop that deletes every falsy client argument. */
  method DropFalsy(args: map<string, string>) returns (kept: map<string, string>)
    ensures kept == Truthy(args)
  {
    kept := args;
    var pending := args.Keys;
    while pending != {}
      invariant pending <= args.Keys
      invariant kept == map k | k in args && (k in pending || args[k] != "") :: args[k]
      decreases pending
    {
      var k :| k in pending;
      if kept[k] == "" {
        kept := kept - {k};
      }
      pending := pending - {k};
    }
  }

  /** The client arguments of the role branch, built from the running
      credential set: the dictionary literal reads the three credential
      variables (a KeyError for the first one absent, as for long-term keys
      without a session token), and the falsy ones are then dropped. */
  function ClientArgs(vars: Env): (r: Result<map<string, string>, Failure>)
    ensures ACCESS_KEY_VAR !in vars ==> r == Failure(MissingKey(ACCESS_KEY_VAR))
    ensures ACCESS_KEY_VAR in vars && SECRET_KEY_VAR !in vars ==> r == Failure(MissingKey(SECRET_KEY_VAR))
    ensures ACCESS_KEY_VAR in vars && SECRET_KEY_VAR in vars && TOKEN_VAR !in vars ==> r == Failure(MissingKey(TOKEN_VAR))
    ensures r.Success? <==> ACCESS_KEY_VAR in vars && SECRET_KEY_VAR in vars && TOKEN_VAR in vars
    ensures r.Success? ==> r.value.Keys <= {SERVICE_NAME_ARG, ACCESS_KEY_ARG, SECRET_KEY_ARG, TOKEN_ARG}
    ensures r.Success? ==> SERVICE_NAME_ARG in r.value && r.value[SERVICE_NAME_ARG] == "sts"
    ensures r.Success? ==> (ACCESS_KEY_ARG in r.value <==> vars[ACCESS_KEY_VAR] != "")
    ensures r.Success? && ACCESS_KEY_ARG in r.value ==> r.value[ACCESS_KEY_ARG] == vars[ACCESS_KEY_VAR]
    ensures r.Success? ==> (SECRET_KEY_ARG in r.value <==> vars[SECRET_KEY_VAR] != "")
    ensures r.Success? && SECRET_KEY_ARG in r.value ==> r.value[SECRET_KEY_ARG] == vars[SECRET_KEY_VAR]
    ensures r.Success? ==> (TOKEN_ARG in r.value <==> vars[TOKEN_VAR] != "")
    ensures r.Success? && TOKEN_ARG in r.value ==> r.value[TOKEN_ARG] == vars[TOKEN_VAR]
  {
    if ACCESS_KEY_VAR !in vars then Failure(MissingKey(ACCESS_KEY_VAR))
    else if SECRET_KEY_VAR !in vars then Failure(MissingKey(SECRET_KEY_VAR))
    else if TOKEN_VAR !in vars then Failure(MissingKey(TOKEN_VAR))
    else Success(Truthy(map[
      SERVICE_NAME_ARG := "sts",
      ACCESS_KEY_ARG := vars[ACCESS_KEY_VAR],
      SECRET_KEY_ARG := vars[SECRET_KEY_VAR],
      TOKEN_ARG := vars[TOKEN_VAR]]))
  }

  /** The role miss branch: build the client arguments, then call
      assume_role with the role ARN and the session name. */
  function RoleMiss(vars: Env, roleArn: string, sessionName: string, response: Result<Issued, ProviderError>): (m: Miss)
    ensures m.request.Some? <==> ClientArgs(vars).Success?
    ensures ClientArgs(vars).Failure? ==> m.response == Failure(ClientArgs(vars).error)
    ensures ClientArgs(vars).Success? ==>
      m.request == Some(AssumeRole(ClientArgs(vars).value, roleArn, sessionName)) && m.response == ProviderAnswer(response)
  {
    match ClientArgs(vars)
    case Failure(f) => Miss(None, Failure(f))
    case Success(args) => Miss(Some(AssumeRole(args, roleArn, sessionName)), ProviderAnswer(response))
  }

  /** The role session name (`user_name`): the last `/` piece of the last
      `:` piece of the caller's ARN. */
  function SessionName(callerArn: string): (name: string)
    ensures name == AfterLast(AfterLast(callerArn, ':'), '/')
  {
    LastPartIsAfterLast(callerArn, ':');
    LastPartIsAfterLast(LastPart(callerArn, ':'), '/');
    LastPart(LastPart(callerArn, ':'), '/')
  }

  /** The session name is the longest suffix of the caller's ARN holding
      neither separator: it contains no `:` and no `/`, and it is the whole
      ARN or starts right after a `:` or a `/`. */
  lemma SessionNameIsLastSegment(callerArn: string)
    ensures ':' !in SessionName(callerArn) && '/' !in SessionName(callerArn)
    ensures EndsWith(callerArn, SessionName(callerArn))
    ensures var n := |SessionName(callerArn)|;
      n == |callerArn| || callerArn[|callerArn| - n - 1] == ':' || callerArn[|callerArn| - n - 1] == '/'
  {
    var tail := LastPart(callerArn, ':');
    LastPartIsTail(callerArn, ':');
    LastPartIsTail(tail, '/');
    var name := LastPart(tail, '/');
    assert callerArn[|callerArn| - |tail|..][|tail| - |name|..] == callerArn[|callerArn| - |name|..];
    if |name| < |tail| {
      assert callerArn[|callerArn| - |name| - 1] == tail[|tail| - |name| - 1];
    }
  }

  // ---------------------------------------------------------------------
  // The steps, as `main` runs them on its two mutable dictionaries

  /** The observable effect of a step method against the step it realises. */
  predicate Realizes(s: Step, hit: bool, request: Option<Request>, o: Outcome<Failure>,
                     state: CacheMap, vars: Env, disk: Disk, diskBefore: Disk)
  {
    && hit == s.hit
    && request == s.request
    && match s.result
       case Success(r) => o == Pass && state == r.state && vars == r.vars && disk == Snapshot(r.state)
       case Failure(f) => o == Fail(f) && disk == diskBefore
  }

  class Resolver {
    /** The in-memory cache, loaded once and stored after each step. */
    var state: CacheMap
    /** The running credential set (`aws_vars`). */
    var awsVars: Env
    const store: Store

    constructor (store: Store, state: CacheMap, awsVars: Env)
      ensures this.store == store && this.state == state && this.awsVars == awsVars
    {
      this.store := store;
      this.state := state;
      this.awsVars := awsVars;
    }

    /** Phases 1 and 2. */
    method Lookup(key: string, refresh: bool, now: string) returns (o: Outcome<Failure>)
      modifies this`state
      ensures Looked(old(state), key, refresh, now).Failure? ==>
        o == Fail(Looked(old(state), key, refresh, now).error)
      ensures Looked(old(state), key, refresh, now).Success? ==>
        o == Pass && state == Looked(old(state), key, refresh, now).value
    {
      if refresh && key in state {
        state := state - {key};
      }
      o := Pass;
      if key in state {
        if EXPIRATION_VAR !in state[key] {
          o := Fail(MissingKey(EXPIRATION_VAR));
          return;
        }
        if Expired(now, state[key][EXPIRATION_VAR]) {
          state := state - {key};
        }
      }
    }

    /** Phases 4 and 5: write the running set into the key's entry and store the snapshot. */
    method WriteBack(key: string, acquired: bool) returns (o: Outcome<Failure>)
      modifies this`state, store
      ensures state == WrittenBack(old(state), key, awsVars)
      ensures acquired ==> o == Pass && store.disk == Snapshot(state)
      ensures !acquired ==> o == Fail(LockFailed) && store.disk == old(store.disk)
    {
      if key !in state {
        state := state[key := map[]];
      }
      state := state[key := state[key] + awsVars];
      o := store.Save(state, acquired);
    }

    /** The installing assignments of a miss. */
    method Install(issued: Issued)
      modifies this`awsVars
      ensures awsVars == WithIssued(old(awsVars), issued)
    {
      awsVars := awsVars[ACCESS_KEY_VAR := issued.accessKeyId];
      awsVars := awsVars[SECRET_KEY_VAR := issued.secretAccessKey];
      awsVars := awsVars[TOKEN_VAR := issued.sessionToken];
      awsVars := awsVars[EXPIRATION_VAR := Format(issued.expiration)];
    }

    /** The MFA step (lib/swaj/app.py:169-212). */
    method MfaStep(serial: string, refresh: bool, now: string, interactive: bool, tokenCode: string,
                   response: Result<Issued, ProviderError>, acquired: bool)
      returns (hit: bool, request: Option<Request>, o: Outcome<Failure>)
      modifies this, store
      ensures Realizes(CacheStep(old(state), old(awsVars), serial, refresh, now,
                                 MfaMiss(serial, interactive, tokenCode, response), acquired),
                       hit, request, o, state, awsVars, store.disk, old(store.disk))
    {
      hit, request := false, None;
      o := Lookup(serial, refresh, now);
      if o.Fail? {
        return;
      }
      if serial in state {
        hit := true;
        awsVars := awsVars + state[serial];
      } else {
        if !interactive {
          o := Fail(Exit(1));
          return;
        }
        request := Some(SessionToken(serial, tokenCode));
        if response.Failure? {
          o := Fail(Provider(response.error));
          return;
        }
        Install(response.value);
      }
      o := WriteBack(serial, acquired);
    }

    /** The role step (lib/swaj/app.py:214-260). */
    method RoleStep(roleArn: string, refresh: bool, now: string, sessionName: string,
                    response: Result<Issued, ProviderError>, acquired: bool)
      returns (hit: bool, request: Option<Request>, o: Outcome<Failure>)
      modifies this, store
      ensures Realizes(CacheStep(old(state), old(awsVars), roleArn, refresh, now,
                                 RoleMiss(old(awsVars), roleArn, sessionName, response), acquired),
                       hit, request, o, state, awsVars, store.disk, old(store.disk))
    {
      hit, request := false, None;
      o := Lookup(roleArn, refresh, now);
      if o.Fail? {
        return;
      }
      if roleArn in state {
        hit := true;
        awsVars := awsVars + state[roleArn];
      } else {
        if ACCESS_KEY_VAR !in awsVars {
          o := Fail(MissingKey(ACCESS_KEY_VAR));
          return;
        }
        if SECRET_KEY_VAR !in awsVars {
          o := Fail(MissingKey(SECRET_KEY_VAR));
          return;
        }
        if TOKEN_VAR !in awsVars {
          o := Fail(MissingKey(TOKEN_VAR));
          return;
        }
        var args := DropFalsy(map[
          SERVICE_NAME_ARG := "sts",
          ACCESS_KEY_ARG := awsVars[ACCESS_KEY_VAR],
          SECRET_KEY_ARG := awsVars[SECRET_KEY_VAR],
          TOKEN_ARG := awsVars[TOKEN_VAR]]);
        request := Some(AssumeRole(args, roleArn, sessionName));
        if response.Failure? {
          o := Fail(Provider(response.error));
          return;
        }
        Install(response.value);
      }
      o := WriteBack(roleArn, acquired);
    }
  }
}
