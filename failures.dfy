/** The ways an invocation can fail, named after what the program raises or how it exits. */
module Failures {

  /** The exceptions a call into the identity provider's client may raise. */
  datatype ProviderError =
    | SsoTokenLoad                 // no SSO token could be loaded from the local cache
    | UnauthorizedSsoToken         // the cached SSO token was refused as expired or invalid
    | ServiceError(code: string)   // any other failure of a provider call

  /** The two errors after which the base-credential fetch is retried once after an SSO login. */
  predicate NeedsSsoLogin(e: ProviderError)
  {
    e.SsoTokenLoad? || e.UnauthorizedSsoToken?
  }

  datatype Failure =
    | Exit(status: int)              // a diagnostic on stderr, then sys.exit(status)
    | Provider(error: ProviderError) // a provider exception, propagated unchanged
    | NoCredentials                  // get_credentials found nothing, so reading its fields raises
    | LoginFailed(returnCode: int)   // `aws sso login` returned a non-zero status
    | MissingKey(key: string)        // a dictionary lookup of an absent key (KeyError)
    | LockFailed                     // store_state could not take the state-file lock
    | CorruptState                   // the state file exists but does not parse
}
