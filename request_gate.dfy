/** The request middleware (src/middleware.ts): client address extraction, the choice of
    rate-limit key and tier, and the order of its 429, redirect and pass-through answers. The
    limiter itself is not part of this model; it is an oracle that answers each check and records
    which (key, tier) pairs were consumed. */
module RequestGate {
  import opened Results
  import opened Text

  /** The limiter tiers and their per-minute budgets (src/lib/rate-limit.ts). */
  datatype Tier = Authenticated | Unauthenticated | AuthAttempts

  function TierLimit(tier: Tier): (tokens: nat)
    ensures tokens in {100, 20, 5}
  {
    match tier
    case Authenticated => 100
    case Unauthenticated => 20
    case AuthAttempts => 5
  }

  /** The refill interval shared by the three tiers: one minute. */
  const IntervalMs: nat := 60 * 1000

  /** What `checkRateLimit` answers: allowed or not, the tokens left and the reset time. */
  datatype LimitResult = LimitResult(success: bool, remaining: nat, reset: nat)

  /** The limiter's answer to a check, as a function of the checks consumed before it. */
  type Verdict = (seq<(string, Tier)>, string, Tier) -> LimitResult

  /** A request: its path, its headers (names in lower case, as `Headers.get` normalises them)
      and the session token's subject when a token is present. */
  datatype Request = Request(pathname: string, headers: map<string, string>, token: Option<string>)

  datatype Response =
    | Next(headers: seq<(string, string)>)
    | TooManyRequests(error: string, headers: seq<(string, string)>)
    | Redirect(location: string)

  const Unknown: string := "unknown"
  const RetryAfterSeconds: string := "60"

  /** `headers.get(name)` treated as a JavaScript truthiness test: present and non-empty. */
  predicate HasValue(headers: map<string, string>, name: string) {
    name in headers && headers[name] != []
  }

  /** `getClientIP`: the first comma-separated entry of x-forwarded-for, trimmed; else
      x-real-ip as it is; else "unknown". */
  function GetClientIP(headers: map<string, string>): (ip: string)
    ensures HasValue(headers, "x-forwarded-for") ==>
      ip == Trim(BeforeFirst(headers["x-forwarded-for"], ','))
    ensures !HasValue(headers, "x-forwarded-for") && HasValue(headers, "x-real-ip") ==> ip == headers["x-real-ip"]
    ensures !HasValue(headers, "x-forwarded-for") && !HasValue(headers, "x-real-ip") ==> ip == Unknown
  {
    if HasValue(headers, "x-forwarded-for") then
      Trim(BeforeFirst(headers["x-forwarded-for"], ','))
    else if HasValue(headers, "x-real-ip") then headers["x-real-ip"]
    else Unknown
  }

  /** The address taken from x-forwarded-for is a piece of its first entry: it contains no
      comma, occurs in the header right after the entry's leading whitespace, and has no
      whitespace at either end. */
  lemma ForwardedAddress(headers: map<string, string>)
    requires HasValue(headers, "x-forwarded-for")
    ensures var forwarded := headers["x-forwarded-for"]; var ip := GetClientIP(headers);
      && ',' !in ip
      && OccursAt(forwarded, ip, |BeforeFirst(forwarded, ',')| - |TrimStart(BeforeFirst(forwarded, ','))|)
      && (ip == [] || (!IsSpace(ip[0]) && !IsSpace(ip[|ip| - 1])))
  {
    var forwarded := headers["x-forwarded-for"];
    var first := BeforeFirst(forwarded, ',');
    FirstEntryTrimmed(forwarded, ',', first, |first| - |TrimStart(first)|, Trim(first));
  }

  /** The sign-in and registration pages; none of them is an auth API route. */
  function IsAuthPage(pathname: string): (r: bool)
    ensures r ==> !IsApiAuthRoute(pathname)
  {
    assert IsApiAuthRoute(pathname) ==> pathname[1] == "/api/auth"[1];
    assert StartsWith(pathname, "/login") ==> pathname[1] == "/login"[1];
    assert StartsWith(pathname, "/register") ==> pathname[1] == "/register"[1];
    StartsWith(pathname, "/login") || StartsWith(pathname, "/register")
  }

  predicate IsApiAuthRoute(pathname: string) {
    StartsWith(pathname, "/api/auth")
  }

  /** The general limiter's key: the token's subject when logged in, the client address else. */
  function RateLimitKey(req: Request): (key: string)
    ensures req.token.Some? ==> key == req.token.value
    ensures req.token.None? && !HasValue(req.headers, "x-forwarded-for") && !HasValue(req.headers, "x-real-ip") ==>
      key == Unknown
  {
    match req.token
    case Some(sub) => sub
    case None => GetClientIP(req.headers)
  }

  function RateLimitTier(req: Request): (tier: Tier)
    ensures tier != AuthAttempts
  {
    if req.token.Some? then Authenticated else Unauthenticated
  }

  function LimitHeader(tier: Tier): string {
    match tier
    case Authenticated => "100"
    case Unauthenticated => "20"
    case AuthAttempts => "5"
  }

  function DeniedHeaders(tier: Tier, result: LimitResult): seq<(string, string)> {
    [("X-RateLimit-Limit", LimitHeader(tier)), ("X-RateLimit-Remaining", "0"),
     ("X-RateLimit-Reset", Decimal(result.reset)), ("Retry-After", RetryAfterSeconds)]
  }

  /** The limit the middleware advertises in X-RateLimit-Limit is the tier's configured budget. */
  lemma AdvertisedLimitIsBudget(tier: Tier)
    ensures LimitHeader(tier) == Decimal(TierLimit(tier))
  {
    assert Decimal(10) == "10" by { assert Decimal(1) == "1"; }
    assert Decimal(100) == "100";
    assert Decimal(20) == "20" by { assert Decimal(2) == "2"; }
    assert Decimal(5) == "5";
  }

  /** The Retry-After value of a 429 answer is the refill interval, in seconds. */
  lemma RetryAfterIsInterval()
    ensures RetryAfterSeconds == Decimal(IntervalMs / 1000)
  {
    assert IntervalMs / 1000 == 60;
    assert Decimal(6) == "6";
    assert Decimal(60) == Decimal(6) + [DigitChar(0)];
  }

  /** `middleware`: the response and the limiter's log afterwards, given the log before. */
  function Gate(req: Request, verdict: Verdict, log: seq<(string, Tier)>): (r: (seq<(string, Tier)>, Response))
    ensures log <= r.0 && |r.0| <= |log| + 2
    ensures r.1.Redirect? ==> r.1.location == "/" || r.1.location == "/login"
  {
    if IsApiAuthRoute(req.pathname) then (log, Next([]))
    else
      var loggedIn := req.token.Some?;
      var ip := GetClientIP(req.headers);
      var key := RateLimitKey(req);
      var tier := RateLimitTier(req);
      var general := verdict(log, key, tier);
      var log1 := log + [(key, tier)];
      if !general.success then (log1, TooManyRequests("Too many requests", DeniedHeaders(tier, general)))
      else
        var (log2, authDenied) :=
          if IsAuthPage(req.pathname) && !loggedIn then
            var auth := verdict(log1, ip, AuthAttempts);
            (log1 + [(ip, AuthAttempts)],
             if auth.success then None else Some(auth))
          else (log1, None);
        if authDenied.Some? then
          (log2, TooManyRequests("Too many authentication attempts", DeniedHeaders(AuthAttempts, authDenied.value)))
        else if IsAuthPage(req.pathname) && loggedIn then (log2, Redirect("/"))
        else if !IsAuthPage(req.pathname) && !loggedIn then (log2, Redirect("/login"))
        else
          (log2, Next([("X-RateLimit-Limit", LimitHeader(tier)),
                       ("X-RateLimit-Remaining", Decimal(general.remaining)),
                       ("X-RateLimit-Reset", Decimal(general.reset))]))
  }

  /** Auth API routes pass through untouched and consume nothing. */
  lemma ApiAuthPassesThrough(req: Request, verdict: Verdict, log: seq<(string, Tier)>)
    requires IsApiAuthRoute(req.pathname)
    ensures Gate(req, verdict, log) == (log, Next([]))
  {
  }

  /** Every other request consumes the general tier first, keyed by the token's subject when
      logged in and by the client address otherwise; at most one more check follows. */
  lemma GeneralCheckFirst(req: Request, verdict: Verdict, log: seq<(string, Tier)>)
    requires !IsApiAuthRoute(req.pathname)
    ensures var after := Gate(req, verdict, log).0;
      && |log| < |after| <= |log| + 2
      && after[..|log|] == log
      && after[|log|] == (RateLimitKey(req), RateLimitTier(req))
      && (req.token.Some? ==> after[|log|] == (req.token.value, Authenticated))
      && (req.token.None? ==> after[|log|] == (GetClientIP(req.headers), Unauthenticated))
  {
  }

  /** The auth tier is consumed exactly for anonymous requests to the login or registration
      pages that passed the general check, and it is keyed by the client address. */
  lemma AuthTierOnlyForAnonymousAuthPages(req: Request, verdict: Verdict, log: seq<(string, Tier)>)
    requires !IsApiAuthRoute(req.pathname)
    ensures var after := Gate(req, verdict, log).0;
      && (|after| == |log| + 2 <==>
           verdict(log, RateLimitKey(req), RateLimitTier(req)).success && IsAuthPage(req.pathname) && req.token.None?)
      && (|after| == |log| + 2 ==> after[|log| + 1] == (GetClientIP(req.headers), AuthAttempts))
  {
  }

  /** A general denial answers 429 before any redirect, with the tier's limit and no tokens. */
  lemma GeneralDenialFirst(req: Request, verdict: Verdict, log: seq<(string, Tier)>)
    requires !IsApiAuthRoute(req.pathname)
    requires !verdict(log, RateLimitKey(req), RateLimitTier(req)).success
    ensures var resp := Gate(req, verdict, log).1;
      && resp.TooManyRequests?
      && resp.error == "Too many requests"
      && resp.headers[0] == ("X-RateLimit-Limit", if req.token.Some? then "100" else "20")
      && resp.headers[1] == ("X-RateLimit-Remaining", "0")
      && resp.headers[3] == ("Retry-After", "60")
  {
  }

  /** An auth-tier denial answers 429 with the limit "5". */
  lemma AuthDenial(req: Request, verdict: Verdict, log: seq<(string, Tier)>)
    requires !IsApiAuthRoute(req.pathname) && IsAuthPage(req.pathname) && req.token.None?
    requires verdict(log, RateLimitKey(req), RateLimitTier(req)).success
    requires !verdict(log + [(RateLimitKey(req), RateLimitTier(req))], GetClientIP(req.headers), AuthAttempts).success
    ensures var resp := Gate(req, verdict, log).1;
      && resp.TooManyRequests?
      && resp.error == "Too many authentication attempts"
      && resp.headers[0] == ("X-RateLimit-Limit", "5")
  {
  }

  /** Once the limits pass: a logged-in user on an auth page goes to "/", an anonymous user
      elsewhere goes to "/login", and the rest (logged-in users elsewhere, anonymous users on an
      auth page) pass through with the general check's counters. */
  lemma RoutingAfterLimits(req: Request, verdict: Verdict, log: seq<(string, Tier)>)
    requires !IsApiAuthRoute(req.pathname)
    requires verdict(log, RateLimitKey(req), RateLimitTier(req)).success
    ensures var resp := Gate(req, verdict, log).1;
      var general := verdict(log, RateLimitKey(req), RateLimitTier(req));
      && (IsAuthPage(req.pathname) && req.token.Some? ==> resp == Redirect("/"))
      && (!IsAuthPage(req.pathname) && req.token.None? ==> resp == Redirect("/login"))
      && (!IsAuthPage(req.pathname) && req.token.Some? ==>
            resp.Next? && resp.headers == [("X-RateLimit-Limit", "100"),
                                           ("X-RateLimit-Remaining", Decimal(general.remaining)),
                                           ("X-RateLimit-Reset", Decimal(general.reset))])
      && (IsAuthPage(req.pathname) && req.token.None? &&
          verdict(log + [(RateLimitKey(req), RateLimitTier(req))], GetClientIP(req.headers), AuthAttempts).success ==>
            resp.Next? && resp.headers[0] == ("X-RateLimit-Limit", "20"))
      && (resp.Next? ==> (req.token.Some? <==> !IsAuthPage(req.pathname)))
  {
  }

  /** The limiter as the middleware sees it: each check is answered by the verdict and logged. */
  class RateLimiter {
    const verdict: Verdict
    var consumed: seq<(string, Tier)>

    constructor (verdict: Verdict)
      ensures this.verdict == verdict && consumed == []
    {
      this.verdict := verdict;
      consumed := [];
    }

    /** `checkRateLimit(key, tier)`. */
    method Check(key: string, tier: Tier) returns (r: LimitResult)
      modifies this
      ensures r == verdict(old(consumed), key, tier)
      ensures consumed == old(consumed) + [(key, tier)]
    {
      r := verdict(consumed, key, tier);
      consumed := consumed + [(key, tier)];
    }
  }

  /** `middleware`, as a sequence of guarded returns. */
  method Middleware(req: Request, limiter: RateLimiter) returns (resp: Response)
    modifies limiter
    ensures (limiter.consumed, resp) == Gate(req, limiter.verdict, old(limiter.consumed))
  {
    var isLoggedIn := req.token.Some?;
    var isAuthPage := StartsWith(req.pathname, "/login") || StartsWith(req.pathname, "/register");
    var isApiAuthRoute := StartsWith(req.pathname, "/api/auth");
    if isApiAuthRoute {
      return Next([]);
    }
    var clientIP := GetClientIP(req.headers);
    var rateLimitKey := if isLoggedIn then req.token.value else clientIP;
    var rateLimitType := if isLoggedIn then Authenticated else Unauthenticated;
    var rateLimitResult := limiter.Check(rateLimitKey, rateLimitType);
    if !rateLimitResult.success {
      return TooManyRequests("Too many requests", DeniedHeaders(rateLimitType, rateLimitResult));
    }
    if isAuthPage && !isLoggedIn {
      var authRateLimitResult := limiter.Check(clientIP, AuthAttempts);
      if !authRateLimitResult.success {
        return TooManyRequests("Too many authentication attempts", DeniedHeaders(AuthAttempts, authRateLimitResult));
      }
    }
    if isAuthPage && isLoggedIn {
      return Redirect("/");
    }
    if !isAuthPage && !isLoggedIn {
      return Redirect("/login");
    }
    var limit := LimitHeader(rateLimitType);
    resp := Next([("X-RateLimit-Limit", limit),
                  ("X-RateLimit-Remaining", Decimal(rateLimitResult.remaining)),
                  ("X-RateLimit-Reset", Decimal(rateLimitResult.reset))]);
  }
}
