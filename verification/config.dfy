/** The environment values the gateway reads once at start-up. */
module Config {
  import opened Wrappers
  import opened Strings

  /**
   * `process.env.HOST`, `process.env.NODE_ENV` and `process.env.SCOPES`;
   * `None` stands for an unset variable.
   */
  datatype Env = Env(host: Option<string>, nodeEnv: Option<string>, scopes: Option<string>)

  /** `process.env.HOST?.includes("ngrok")`: the public host is an ngrok tunnel. */
  predicate HostIsNgrok(env: Env) {
    env.host.Some? && Contains(env.host.value, "ngrok")
  }

  /** The condition under which the development policy is served. */
  predicate IsDevelopmentLike(env: Env) {
    HostIsNgrok(env) || env.nodeEnv == Some("development")
  }
}
