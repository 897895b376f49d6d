# swaj — a Dafny model of the credential resolver

swaj ("switch AWS jump") is a command-line wrapper. It resolves AWS credentials
for a named profile and then does one of four things:

- runs a command with those credentials in its environment (`exec`);
- prints the environment (`env`);
- prints shell `export` lines (`eval`);
- only refreshes its cache (`refresh`).

It works from the profile's base credentials. If the SSO token is missing or
stale, it first runs `aws sso login` interactively. It keeps a cache of
temporary credentials in a JSON state file, with one entry per MFA serial and
one per role ARN. Each entry carries an `AWS_SESSION_EXPIRATION` timestamp in
the fixed format `%Y-%m-%dT%H:%M:%SZ`. An entry is served until the current
time, formatted the same way, compares greater than that timestamp as a
string. After that, or in refresh mode, swaj asks for a new session token
(typing an MFA code) or assumes the role again. It then writes the entry back
and stores the whole cache under a lock.

The model follows `lib/swaj/app.py` module by module:

| module | file | models |
|---|---|---|
| `Wrappers` | `wrappers.dfy` | `Option`, `Result`, `Outcome` |
| `Failures` | `failures.dfy` | the provider's exceptions and every way a run stops (exit status, KeyError, lock, corrupt state file) |
| `Text` | `text.dfy` | `str.split` with a one-character separator, `split(...)[-1]`, `startswith` |
| `Timestamp` | `timestamp.dfy` | Python string `<`, the proleptic Gregorian calendar, `strftime("%Y-%m-%dT%H:%M:%SZ")` |
| `AmbientVars` | `ambient.dfy` | `get_aws_vars` (a method with its two loops, proved against `AwsVarsOf`) |
| `Bootstrap` | `bootstrap.dfy` | `sso_login` and the try/except that retries after logging in |
| `StateStore` | `store.dfy` | the state file (`load_state`, `store_state`) as a class over the file's contents |
| `Resolver` | `resolver.dfy` | the MFA step and the role step. Class `Resolver` owns the two dictionaries `main` mutates (`state`, `aws_vars`). Each step method is proved against the pure step `CacheStep`. |
| `Environment` | `environment.dfy` | profile choice, building `new_environ`, the `env` and `eval` printing loops, the `exec` target |
| `Program` | `program.dfy` | `main` as a whole: the spec function `Invocation` and the method `Invoke` that drives the objects above |

Calls whose result comes from outside become inputs of the model:

- the botocore credential chain (`Fetch`);
- `sso login`'s return code;
- `isatty`;
- `get_caller_identity`, `get_session_token` and `assume_role` (their answers);
- the configuration file's profiles;
- the clock (`Instant`);
- the typed token code;
- whether the lock is acquired;
- `shutil.which` (a map from name to path).

A cache step records the provider request it would send, so the proofs can
say when no request is made.

The code exports `AWS_SESSION_EXPIRATION` in `eval` mode, because it starts
with `AWS_`. The model follows the code (`Environment.RenderEval`).

## Model

| member | source | states |
|---|---|---|
| AmbientVars.AwsVarsOf | lib/swaj/app.py:20-36 | Only `AWS_` variables appear. Each of the three credential variables is present exactly when its credential field is not None, and then holds that value. Every other `AWS_` variable of the environment is kept with its value. |
| AmbientVars.GetAwsVars | lib/swaj/app.py:20-36 | The copy loop, the three assignments and the delete-None loop compute exactly `AwsVarsOf`. |
| AmbientVars.CollectPrefixed | lib/swaj/app.py:22-25 | The first loop copies exactly the environment's `AWS_` entries. |
| AmbientVars.DropNone | lib/swaj/app.py:32-34 | The deletion loop keeps exactly the entries whose value is not None. |
| Bootstrap.SsoLogin | lib/swaj/app.py:39-66 | Without a terminal: exit status 1. With one: success exactly when the login's return code is 0, otherwise a login failure carrying that code. |
| Bootstrap.BaseCredentials | lib/swaj/app.py:111-118 | At most one login and two fetches. A login happens exactly when the first fetch raised one of the two SSO token errors. A second fetch happens exactly when that login succeeded. The result is the first fetch's, the login's failure, or the second fetch's. |
| Bootstrap.Attempted | lib/swaj/app.py:20-36 | One call of `get_aws_vars` against one answer of `get_credentials`. It succeeds exactly when credentials come back. The provider's exception is passed on. When `get_credentials` returns None, the field access fails (`NoCredentials`). Otherwise the result is `AwsVarsOf` of the credentials, and every key starts with `AWS_`. |
| Bootstrap.FetchAwsVars | lib/swaj/app.py:112 | One call of `get_aws_vars` gives one of three outcomes. The provider's error is passed on. When `get_credentials` returns None, the result is `NoCredentials`. Otherwise it is `AwsVarsOf` of the credentials. |
| Bootstrap.Bootstrap | lib/swaj/app.py:111-118 | The try/except block returns exactly `BaseCredentials`, with its fetch and login counts. |
| StateStore.Loaded | lib/swaj/app.py:139-145 | Reading the state file back. A missing file is the empty cache. A snapshot is the map it holds. Only text that does not parse fails, with `CorruptState`. |
| StateStore.SaveThenLoad | lib/swaj/app.py:139-161 | Storing a cache under the lock and then loading the file gives back that same cache. |
| StateStore.Store.constructor | lib/swaj/app.py:133-134 | The store starts from the given state-file contents. |
| StateStore.Store.Load | lib/swaj/app.py:139-145 | A missing file gives the empty cache, a parsed file gives its map, and an unparseable file is a failure. |
| StateStore.Store.Save | lib/swaj/app.py:147-161 | With the lock: the file becomes the whole snapshot. Without it: a lock failure, and the file is unchanged. |
| Resolver.Expired | lib/swaj/app.py:179 | The string test `formatted_current_time > expiration`. An entry whose expiration equals the current time is not expired. |
| Resolver.ExpiryIsChronological | lib/swaj/app.py:165-167 | Over formatted instants, the string test `now > expiration` holds exactly when the expiration is strictly earlier in time. An entry that expires in the current second is still live. |
| Resolver.WithIssued | lib/swaj/app.py:202-205 | The four assignments install the issued key, secret, token and formatted expiration. They add only those keys and leave every other non-credential variable unchanged. |
| Resolver.Looked | lib/swaj/app.py:173-180 | A KeyError exactly when no refresh is asked and the entry lacks an expiration. An entry survives only when there is no refresh and it has not expired, and it is then unchanged. No other key changes. |
| Resolver.WrittenBack | lib/swaj/app.py:207-210 | The key's entry becomes its old contents (or nothing) updated with the credential set; no other key changes. |
| Resolver.Served | lib/swaj/app.py:182-183 | A hit sends no request. It succeeds exactly when the lock is acquired, merges the entry into the credential set, and writes that set back under the key. |
| Resolver.Fetched | lib/swaj/app.py:184-212 | A miss sends the miss branch's request. It succeeds exactly when the provider answers and the lock is acquired, and installs the issued credentials. The miss branch's failure is the step's. |
| Resolver.CacheStep | lib/swaj/app.py:169-212 | One step. It is a hit exactly when there is no refresh and the key has a live entry that carries an expiration. A hit sends no request; any other step sends the miss branch's request. An entry without an expiration is a KeyError. Success needs the lock. A hit merges the entry; a miss installs the issued credentials. The new entry equals the resulting credential set, and no other key changes. |
| Resolver.StepKeepsWellFormed | lib/swaj/app.py:177-178 | If every cache entry carries an expiration, a successful step keeps that true. On such a cache a step fails only by its lock or by its miss branch's own failure. |
| Resolver.MissThenHitUntilExpiry | lib/swaj/app.py:177-183 | After a successful miss, a later non-refresh step for the same key is a hit exactly while that time is at or before the issued expiration. As a hit it sends no request; otherwise it sends the new miss's request. |
| Resolver.MfaMiss | lib/swaj/app.py:184-205 | A request is sent exactly when there is a terminal, and it is get_session_token with the serial and the typed code. Without a terminal: exit status 1. |
| Resolver.RoleMiss | lib/swaj/app.py:230-248 | A request is sent exactly when the client arguments can be built. Then it is assume_role with those arguments, the role ARN and the session name, and its answer is the provider's. Otherwise the step fails with the client arguments' KeyError. |
| Resolver.DropFalsy | lib/swaj/app.py:237-239 | The deletion loop keeps exactly the arguments whose value is non-empty. |
| Resolver.ClientArgs | lib/swaj/app.py:230-239 | A KeyError names the first missing credential variable, in the order of the dict literal. Otherwise `service_name` is `sts`, and each credential argument is present exactly when its value is non-empty, with that value. |
| Resolver.SessionName | lib/swaj/app.py:129-131 | `user_name` equals the independently defined part after the last `/` of the part after the last `:` of the caller ARN. |
| Resolver.SessionNameIsLastSegment | lib/swaj/app.py:129-131 | The session name contains no `:` and no `/`. It is a suffix of the caller ARN, and is either the whole ARN or preceded by `:` or `/`. |
| Resolver.Resolver.constructor | lib/swaj/app.py:163 | The resolver starts from the loaded cache and the base credential set. |
| Resolver.Resolver.Lookup | lib/swaj/app.py:173-180 | Refresh deletes the key, and an expired entry is deleted. An entry without an expiration is a KeyError. |
| Resolver.Resolver.WriteBack | lib/swaj/app.py:207-212 | `setdefault(...).update(aws_vars)`, then the store of the whole cache. |
| Resolver.Resolver.Install | lib/swaj/app.py:202-205 | The running set becomes `WithIssued` of itself. |
| Resolver.Resolver.MfaStep | lib/swaj/app.py:169-212 | The statements of the MFA block realize `CacheStep` with the MFA miss: the same hit, request, cache, credential set and state file. |
| Resolver.Resolver.RoleStep | lib/swaj/app.py:214-260 | The statements of the role block realize `CacheStep` with the role miss: the same hit, request, cache, credential set and state file. |
| Text.Split | lib/swaj/app.py:130-131 | `split` always yields at least one piece. |
| Text.JoinSplit | lib/swaj/app.py:130-131 | Joining the pieces with the separator gives back the string. |
| Text.SplitPiecesFree | lib/swaj/app.py:130-131 | No piece contains the separator. |
| Text.SinglePiece | lib/swaj/app.py:130-131 | There is exactly one piece exactly when the separator does not occur. |
| Text.LastPartIsTail | lib/swaj/app.py:130-131 | `split(sep)[-1]` is a separator-free suffix. It is the whole string when there is no separator, and otherwise is preceded by one. |
| Text.LastPartIsAfterLast | lib/swaj/app.py:130-131 | `split(sep)[-1]` equals the part of the string after its last separator. |
| Text.AfterLastIsTail | lib/swaj/app.py:130-131 | The part after the last separator is a separator-free suffix: the whole string when there is no separator, and otherwise preceded by one. |
| Timestamp.LexLess | lib/swaj/app.py:179 | Python's str `<`: no string is less than itself, and a proper prefix is less than the longer string. |
| Timestamp.DigitsOrder | lib/swaj/app.py:165-167 | Zero-padded fixed-width numbers compare as strings like the numbers. |
| Timestamp.FieldsBeforeIsChronological | lib/swaj/app.py:165-167 | Ordering instants field by field, year first, is the same as ordering their seconds since 0001-01-01. |
| Timestamp.ClockOrder | lib/swaj/app.py:165-167 | `%H:%M:%SZ` compares as strings like hour, minute and second in turn, and is equal exactly when all three are. |
| Timestamp.Format | lib/swaj/app.py:165-167 | The formatted instant is 20 characters long. |
| Timestamp.FormatOrder | lib/swaj/app.py:165-167 | Formatted instants compare as strings exactly as the instants compare in time. Two formats are equal exactly when the instants are. |
| Environment.SelectProfile | lib/swaj/app.py:97-107 | `--profile` overrides `AWS_PROFILE`. With neither set: exit status 1. |
| Environment.Assembled | lib/swaj/app.py:262-270 | No `AWS_PROFILE`. The profile is marked removed exactly when it was in the environment or the credential set. `SWAJ` is `1` and `SWAJ_PROFILE` is the profile. The keys are exactly the environment's and the credential set's keys plus the markers. Credential values win over the environment's. |
| Environment.Assemble | lib/swaj/app.py:262-270 | The statements compute exactly `Assembled`. |
| Environment.RenderEnv | lib/swaj/app.py:274-276 | One `key=value` line per variable, each variable exactly once. |
| Environment.RenderEval | lib/swaj/app.py:277-283 | One `export key=value` line for each variable starting with `AWS_` or `SWAJ_`, and none for `SWAJ`. `unset AWS_PROFILE` comes last exactly when the profile was removed. |
| Environment.ExecTarget | lib/swaj/app.py:284-296 | The argv is the command, or `$SHELL` (default `/bin/sh`) when there is none. A name without `/` is replaced by its `which` path when that is non-empty; otherwise the name is used. |
| Program.ProfileConfig | lib/swaj/app.py:125 | The profile's attributes, or none for a profile missing from the configuration file; each attribute keeps its value. |
| Program.MfaPhase | lib/swaj/app.py:169-212 | Skipped (the progress unchanged) after a failure or without `mfa_serial`. Otherwise it adds at most one request, which is get_session_token for the serial and the typed code. Earlier requests are kept. The state file changes only on success, and then holds the snapshot of the new cache. |
| Program.RolePhase | lib/swaj/app.py:214-260 | Skipped after a failure or without `swaj_role_arn`. Otherwise it adds at most one request, which is assume_role for that ARN and the session name. Earlier requests are kept. The state file changes only on success, and then holds the snapshot of the new cache. |
| Program.Dispatched | lib/swaj/app.py:262-296 | `refresh` prints nothing, `env` and `eval` print lines, and `exec` replaces the process. Every environment handed on has no `AWS_PROFILE`, `SWAJ=1` and `SWAJ_PROFILE` set to the profile. `eval` unsets the profile exactly when the environment or the credential set had one. `exec` runs `ExecTarget`. |
| Program.Invocation | lib/swaj/app.py:95-296 | `main` as a whole. At most two requests are sent. The state file is either untouched or holds a snapshot. Without a profile the run exits before any request and leaves the file unchanged. |
| Program.Authenticated | lib/swaj/app.py:109-163 | At most two requests are sent, and the file is untouched or holds a snapshot. A failed bootstrap, a failed caller identity or an unparseable state file ends the run with no request and the file unchanged, so a corrupt file is never overwritten. |
| Program.Resolution | lib/swaj/app.py:169-296 | At most two requests are sent. When there are two, get_session_token comes before assume_role. The file is untouched or holds a snapshot. A successful run prints nothing exactly in refresh mode. |
| Program.MfaStage | lib/swaj/app.py:169-212 | The MFA block run on the resolver mirrors `MfaPhase`. |
| Program.RoleStage | lib/swaj/app.py:214-260 | The role block run on the resolver mirrors `RolePhase`. |
| Program.Invoke | lib/swaj/app.py:95-296 | `main`'s statements produce exactly the dispatch, the state file and the requests of `Invocation`. |
| Program.Authenticate | lib/swaj/app.py:109-163 | The bootstrap, the caller identity and `load_state` produce exactly `Authenticated`. |
| Program.Resolve | lib/swaj/app.py:169-296 | The two cache blocks and the dispatch on the resolver produce exactly `Resolution`. |
| Program.DispatchOf | lib/swaj/app.py:262-296 | The assembly and the branch on the subcommand produce exactly `Dispatched`. |
| Program.ReachesResolution | lib/swaj/app.py:109-163 | A run that gets past the bootstrap, the caller identity and `load_state` is the resolution from the base credentials and the loaded cache. |
| Program.RunKeepsStateFileReadable | lib/swaj/app.py:139-260 | If every entry of the state file carries an expiration, that stays true after any run. A run sends at most two requests, and never fails on a missing expiration. |
| Program.MfaPhaseReadable | lib/swaj/app.py:169-212 | The MFA phase keeps the cache and the file readable and adds at most one request. |
| Program.RolePhaseReadable | lib/swaj/app.py:214-260 | The role phase keeps the cache and the file readable and adds at most one request. |
| Program.DispatchCarriesCredentials | lib/swaj/app.py:262-296 | Every mode but refresh hands on every credential variable with its value. |
| Program.UnchainedProfileUsesBaseCredentials | lib/swaj/app.py:169-214 | A profile with neither `mfa_serial` nor `swaj_role_arn` sends no request, leaves the state file untouched, and dispatches on the base credentials. |
| Program.NonInteractiveMfaMissExits | lib/swaj/app.py:185-193 | Without a terminal, an MFA profile whose entry is missing, expired or being refreshed exits with status 1, with no request and the file unchanged. |
| Program.RefreshRequestsSessionToken | lib/swaj/app.py:173-175 | In refresh mode, an MFA profile's first request is always get_session_token with the typed code. |
| Program.MfaOnlyInvocation | lib/swaj/app.py:169-260 | A profile with only an MFA serial ends as its MFA step does. |
| Program.MissStoresIssued | lib/swaj/app.py:177-212 | A run of an MFA-only profile whose serial has no live entry, with a terminal, the lock and a token from the provider, succeeds. It sends exactly one get_session_token request and stores the issued credentials and expiration under the serial. |
| Program.LiveEntryServes | lib/swaj/app.py:177-183 | A run whose serial holds credentials that have not expired sends no request and hands on those credentials. |
| Program.SecondRunServedFromCache | lib/swaj/app.py:169-212 | After such a run, a run of the same profile at or before the token's expiration asks for no code. It sends no request and hands on the same four credential variables. |

## Left out

- The botocore calls are inputs, not models: the credential chain, configuration-file loading, the three STS calls, and how a client is created from arguments. Their answers are parameters of a `World`.
- JSON encoding of the state file, its path, and `chmod 0600` are left out. Values are modelled as maps of strings; JSON values of other shapes are not modelled.
- Store.Save: a lock failure is modelled as a failure that leaves the file unchanged. The exact exception raised (the timeout, then the release in `finally` on a lock that is not held) is not modelled.
- Concurrency is not modelled: two processes storing at once, where the last writer wins.
- `input`, `isatty`, `subprocess.Popen`, the terminal messages written to stderr, and `os.execve` are left out. `exec` mode ends in the `Replace` dispatch naming the path, argv and environment.
- Timestamp.Format: time zones, sub-second precision and years outside 1000..9999 are not modelled. The clock and the provider's expiration are whole-second UTC instants in those years.
- Environment.RenderEnv, Environment.RenderEval: the order of printed lines follows dictionary insertion order in the source. The model proves each variable is printed exactly once but leaves the order unspecified.
- Argument parsing is left out, including a run with no subcommand (an AttributeError on `args.which`) and the unreachable "unknown value" branch.
- `setup.py` and packaging are not part of this model.
