/**
 * Rate-limiter construction (src/utils/rateLimit.ts).
 *
 * The counting itself happens in the Upstash store; here a limiter is the
 * descriptor the source hands to the `Ratelimit` constructor: an
 * algorithm, a key prefix and the store credentials.
 */
module RateLimit {
  import opened Common

  /** `config.rateLimit`. */
  datatype RateLimitConfig = RateLimitConfig(
    strategy: string,
    attempts: int,
    windowSeconds: int,
    kvRestApiUrl: Option<string>,
    kvRestApiToken: Option<string>)

  /** One entry of `config.routeRateLimit`. */
  datatype RouteOverride = RouteOverride(attempts: int, windowSeconds: int)

  datatype Config = Config(
    rateLimit: RateLimitConfig,
    routeRateLimit: Option<map<string, RouteOverride>>)

  /** The admission algorithm; windows and intervals are in seconds. */
  datatype Algorithm =
    | FixedWindow(tokens: int, windowSeconds: int)
    | SlidingWindow(tokens: int, windowSeconds: int)
    | TokenBucket(refillRate: int, intervalSeconds: int, maxTokens: int)

  /** The `Redis` client's connection settings. */
  datatype StoreConnection = StoreConnection(url: Option<string>, token: Option<string>)

  datatype Limiter = Limiter(algorithm: Algorithm, prefix: string, store: StoreConnection)

  datatype ConfigError =
    | NonPositiveParameters        // "Rate limiting configuration must have positive values."
    | MissingCredentials(route: string)  // "Route Rate Limiter for <route> requires Upstash credentials."

  const RoutePrefix: string := "spectra-route:"

  /** The number of attempts an algorithm admits per window. */
  function Admits(a: Algorithm): int
  {
    match a
    case FixedWindow(tokens, _) => tokens
    case SlidingWindow(tokens, _) => tokens
    case TokenBucket(refill, _, _) => refill
  }

  /** The length of an algorithm's window or refill interval. */
  function Window(a: Algorithm): int
  {
    match a
    case FixedWindow(_, w) => w
    case SlidingWindow(_, w) => w
    case TokenBucket(_, w, _) => w
  }

  /** `createRateLimiter`. */
  function CreateRateLimiter(cfg: RateLimitConfig, prefix: string): (r: Result<Limiter, ConfigError>)
    ensures r.Err? <==> cfg.attempts <= 0 || cfg.windowSeconds <= 0
    ensures r.Err? ==> r.error == NonPositiveParameters
    ensures r.Ok? ==> && r.value.prefix == prefix
                      && Admits(r.value.algorithm) == cfg.attempts
                      && Window(r.value.algorithm) == cfg.windowSeconds
                      && r.value.store == StoreConnection(cfg.kvRestApiUrl, cfg.kvRestApiToken)
  {
    if cfg.attempts <= 0 || cfg.windowSeconds <= 0 then Err(NonPositiveParameters)
    else
      var store := StoreConnection(cfg.kvRestApiUrl, cfg.kvRestApiToken);
      var algorithm :=
        match cfg.strategy
        case "slidingWindow" => SlidingWindow(cfg.attempts, cfg.windowSeconds)
        case "tokenBucket" => TokenBucket(cfg.attempts, cfg.windowSeconds, cfg.attempts)
        case _ => FixedWindow(cfg.attempts, cfg.windowSeconds);
      Ok(Limiter(algorithm, prefix, store))
  }

  /** `createRouteRateLimiter`: None stands for `null`. */
  function CreateRouteRateLimiter(routeKey: string, cfg: Config): (r: Result<Option<Limiter>, ConfigError>)
    ensures r == Ok(None) <==> !HasOverride(cfg, routeKey)
    ensures r.Err? <==> HasOverride(cfg, routeKey)
                        && !(Truthy(cfg.rateLimit.kvRestApiUrl) && Truthy(cfg.rateLimit.kvRestApiToken))
    ensures r.Err? ==> r.error == MissingCredentials(routeKey)
  {
    if !HasOverride(cfg, routeKey) then Ok(None)
    else if !Truthy(cfg.rateLimit.kvRestApiUrl) || !Truthy(cfg.rateLimit.kvRestApiToken) then
      Err(MissingCredentials(routeKey))
    else
      var o := cfg.routeRateLimit.value[routeKey];
      Ok(Some(Limiter(
        FixedWindow(o.attempts, o.windowSeconds),
        RoutePrefix + routeKey,
        StoreConnection(cfg.rateLimit.kvRestApiUrl, cfg.rateLimit.kvRestApiToken))))
  }

  predicate HasOverride(cfg: Config, routeKey: string)
  {
    cfg.routeRateLimit.Some? && routeKey in cfg.routeRateLimit.value
  }

  // ---------------------------------------------------------------------
  // Strategy selection

  lemma SlidingWindowSelected(cfg: RateLimitConfig, prefix: string)
    requires cfg.attempts > 0 && cfg.windowSeconds > 0
    requires cfg.strategy == "slidingWindow"
    ensures CreateRateLimiter(cfg, prefix)
            == Ok(Limiter(SlidingWindow(cfg.attempts, cfg.windowSeconds), prefix,
                          StoreConnection(cfg.kvRestApiUrl, cfg.kvRestApiToken)))
  {
  }

  /** A token bucket of capacity `attempts`, refilled by `attempts` per window. */
  lemma TokenBucketSelected(cfg: RateLimitConfig, prefix: string)
    requires cfg.attempts > 0 && cfg.windowSeconds > 0
    requires cfg.strategy == "tokenBucket"
    ensures var r := CreateRateLimiter(cfg, prefix);
            && r.Ok? && r.value.algorithm.TokenBucket?
            && r.value.algorithm.maxTokens == cfg.attempts
            && r.value.algorithm.refillRate == cfg.attempts
            && r.value.algorithm.intervalSeconds == cfg.windowSeconds
  {
  }

  /** Any other strategy, unknown strings included, gives a fixed window. */
  lemma FixedWindowByDefault(cfg: RateLimitConfig, prefix: string)
    requires cfg.attempts > 0 && cfg.windowSeconds > 0
    requires cfg.strategy != "slidingWindow" && cfg.strategy != "tokenBucket"
    ensures CreateRateLimiter(cfg, prefix)
            == Ok(Limiter(FixedWindow(cfg.attempts, cfg.windowSeconds), prefix,
                          StoreConnection(cfg.kvRestApiUrl, cfg.kvRestApiToken)))
  {
  }

  // ---------------------------------------------------------------------
  // Route overrides

  /**
   * With an override and credentials the route limiter is a fixed window
   * with the override's numbers under "spectra-route:<route>", whatever the
   * global strategy.
   */
  lemma RouteLimiterIsFixedWindow(routeKey: string, cfg: Config)
    requires HasOverride(cfg, routeKey)
    requires Truthy(cfg.rateLimit.kvRestApiUrl) && Truthy(cfg.rateLimit.kvRestApiToken)
    ensures var o := cfg.routeRateLimit.value[routeKey];
            var r := CreateRouteRateLimiter(routeKey, cfg);
            && r.Ok? && r.value.Some?
            && r.value.value.algorithm == FixedWindow(o.attempts, o.windowSeconds)
            && r.value.value.store == StoreConnection(cfg.rateLimit.kvRestApiUrl, cfg.rateLimit.kvRestApiToken)
            && r.value.value.prefix[..|RoutePrefix|] == RoutePrefix
            && r.value.value.prefix[|RoutePrefix|..] == routeKey
  {
  }

  /**
   * Route overrides are not checked for positivity: an override with a
   * non-positive attempt count or window still yields a limiter, where the
   * same numbers in the global settings are refused.
   */
  lemma RouteOverrideNotValidated(routeKey: string, cfg: Config, prefix: string)
    requires HasOverride(cfg, routeKey)
    requires Truthy(cfg.rateLimit.kvRestApiUrl) && Truthy(cfg.rateLimit.kvRestApiToken)
    requires var o := cfg.routeRateLimit.value[routeKey]; o.attempts <= 0 || o.windowSeconds <= 0
    ensures var o := cfg.routeRateLimit.value[routeKey];
            var r := CreateRouteRateLimiter(routeKey, cfg);
            && r.Ok? && r.value.Some?
            && r.value.value.algorithm == FixedWindow(o.attempts, o.windowSeconds)
            && CreateRateLimiter(cfg.rateLimit.(attempts := o.attempts, windowSeconds := o.windowSeconds),
                                 prefix).Err?
  {
  }
}
