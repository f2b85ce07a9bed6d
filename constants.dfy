/** Process-wide constants of the plugin (Constants.java). The endpoint URLs are configuration
    and are not modelled. */
module Constants {

  /** Number of describeTasks polls the readiness wait makes at most. */
  const RETRIES: nat := 10

  /** Pause between two readiness polls, in milliseconds. */
  const WAIT_TIME_MS: nat := 500

  /** Container port of the SSH daemon inside a build-agent container. */
  const SSH_PORT: int := 22
}
