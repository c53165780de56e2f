/** The gateway's settings, with the defaults of gateway/core/config.py.
    Environment overrides are not modelled: the defaults are constants. */
module Config {
  /** Base URL of the orchestrator's HTTP API. */
  const PrefectApiUrl: string := "http://localhost:4200/api"

  /** The one signing algorithm the gateway issues and accepts. */
  const JwtAlgorithm: string := "HS256"

  /** Default token lifetime: 10080 minutes, i.e. seven days. */
  const JwtExpirationMinutes: int := 10080

  /** The default lifetime in whole seconds. */
  const JwtExpirationSeconds: int := JwtExpirationMinutes * 60
}
