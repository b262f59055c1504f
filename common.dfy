/** Small shared vocabulary: optional values and the process-wide settings
    that the farm utilities read. */
module Common {

  /** A value that may be absent (Python's `None`). */
  datatype Option<+T> = None | Some(value: T)

  /** The aggregator settings the farm utilities consult. */
  datatype Settings = Settings(
    oauthClientId: string,      // AGGREGATOR_OAUTH_CLIENT_ID
    oauthClientSecret: string,  // AGGREGATOR_OAUTH_CLIENT_SECRET
    alertAllErrors: bool,       // AGGREGATOR_ALERT_ALL_ERRORS
    emailsEnabled: bool         // EMAILS_ENABLED
  )
}
