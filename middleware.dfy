/**
 * The worker's HTTP guards: the per-IP sliding-window rate limiter, the
 * localhost and static-asset bypasses, the localhost-only admin guard and the
 * request-body summary used in access logs.  `Date.now()` is the `now`
 * parameter; the cleanup timer becomes an explicit `Cleanup(now)` call.
 */
module Middleware {
  import opened Text
  import opened Lists

  /** The predicate `ts => ts > windowStart`. */
  function After(windowStart: int): int -> bool
  {
    (ts: int) => ts > windowStart
  }

  /** The timestamps of `ts` still inside the window that ends at `now`. */
  function InWindow(ts: seq<int>, now: int, windowMs: int): (r: seq<int>)
    ensures |r| <= |ts|
    ensures forall t :: t in r <==> t in ts && t > now - windowMs
  {
    var keep := After(now - windowMs);
    forall t ensures t in Filter(ts, keep) <==> t in ts && keep(t) {
      FilterMember(ts, keep, t);
    }
    Filter(ts, keep)
  }

  /** Filtering to the same window twice is filtering once. */
  lemma InWindowIdempotent(ts: seq<int>, now: int, windowMs: int)
    ensures InWindow(InWindow(ts, now, windowMs), now, windowMs) == InWindow(ts, now, windowMs)
  {
    var r := InWindow(ts, now, windowMs);
    FilterAll(r, After(now - windowMs));
  }

  /** `requests.get(ip) || []`. */
  function Lookup(requests: map<string, seq<int>>, ip: string): (r: seq<int>)
    ensures ip !in requests ==> r == []
  {
    if ip in requests then requests[ip] else []
  }

  /** The requests an IP may still make in the window ending at `now`. */
  function Remaining(requests: map<string, seq<int>>, ip: string, now: int, windowMs: int, maxRequests: nat): (r: nat)
    ensures r <= maxRequests
    ensures r == 0 <==> |InWindow(Lookup(requests, ip), now, windowMs)| >= maxRequests
    ensures r > 0 ==> r + |InWindow(Lookup(requests, ip), now, windowMs)| == maxRequests
  {
    var recent := |InWindow(Lookup(requests, ip), now, windowMs)|;
    if maxRequests - recent > 0 then maxRequests - recent else 0
  }

  /**
   * `checkLimit` as a function of the stored map: limited when the in-window
   * count already reaches the maximum (nothing is stored then); otherwise the
   * IP's list becomes its in-window timestamps followed by `now`.
   */
  function Admit(requests: map<string, seq<int>>, ip: string, now: int, windowMs: int, maxRequests: nat)
    : (r: (bool, map<string, seq<int>>))
    ensures r.0 ==> r.1 == requests
    ensures !r.0 ==> r.1.Keys == requests.Keys + {ip}
    ensures forall other :: other != ip && other in requests ==> other in r.1 && r.1[other] == requests[other]
  {
    var recent := InWindow(Lookup(requests, ip), now, windowMs);
    if |recent| >= maxRequests then (true, requests)
    else (false, requests[ip := recent + [now]])
  }

  /** Each stored list is no longer than the maximum. */
  predicate Bounded(requests: map<string, seq<int>>, maxRequests: nat)
  {
    forall ip :: ip in requests ==> |requests[ip]| <= maxRequests
  }

  /**
   * A request is refused exactly when no quota remains, and an admitted
   * request uses up exactly one unit of it (for a positive window, since
   * `now` itself counts only while `now > now - windowMs`).
   */
  lemma AdmitUsesQuota(requests: map<string, seq<int>>, ip: string, now: int, windowMs: int, maxRequests: nat)
    ensures var r := Admit(requests, ip, now, windowMs, maxRequests);
      r.0 <==> Remaining(requests, ip, now, windowMs, maxRequests) == 0
    ensures var r := Admit(requests, ip, now, windowMs, maxRequests);
      !r.0 && windowMs > 0 ==>
        Remaining(r.1, ip, now, windowMs, maxRequests) + 1 == Remaining(requests, ip, now, windowMs, maxRequests)
  {
    var keep := After(now - windowMs);
    var recent := InWindow(Lookup(requests, ip), now, windowMs);
    if |recent| < maxRequests && windowMs > 0 {
      var r := Admit(requests, ip, now, windowMs, maxRequests);
      assert Lookup(r.1, ip) == recent + [now];
      FilterAppend(recent, [now], keep);
      FilterOne(now, keep);
      InWindowIdempotent(Lookup(requests, ip), now, windowMs);
    }
  }

  /** No stored list ever outgrows the maximum: admission preserves the bound. */
  lemma AdmitKeepsBound(requests: map<string, seq<int>>, ip: string, now: int, windowMs: int, maxRequests: nat)
    requires Bounded(requests, maxRequests)
    ensures Bounded(Admit(requests, ip, now, windowMs, maxRequests).1, maxRequests)
  {
  }

  /** What `cleanup` leaves: IPs with in-window timestamps, pruned to those timestamps. */
  function Pruned(requests: map<string, seq<int>>, now: int, windowMs: int): (r: map<string, seq<int>>)
    ensures r.Keys <= requests.Keys
    ensures forall ip :: ip in r ==> r[ip] != []
  {
    map ip | ip in requests && InWindow(requests[ip], now, windowMs) != [] :: InWindow(requests[ip], now, windowMs)
  }

  /** Cleanup is invisible to the limiter: every IP keeps the same remaining quota at the same instant. */
  lemma PrunedKeepsRemaining(requests: map<string, seq<int>>, ip: string, now: int, windowMs: int, maxRequests: nat)
    ensures Remaining(Pruned(requests, now, windowMs), ip, now, windowMs, maxRequests)
         == Remaining(requests, ip, now, windowMs, maxRequests)
  {
    if ip in requests {
      InWindowIdempotent(requests[ip], now, windowMs);
    }
  }

  /** `RateLimiter`: the map from IP to the timestamps of its recent requests. */
  class RateLimiter {
    var requests: map<string, seq<int>>
    const windowMs: int
    const maxRequests: nat

    ghost predicate Valid()
      reads this
    {
      Bounded(requests, maxRequests)
    }

    constructor(windowMs: int, maxRequests: nat)
      ensures Valid()
      ensures this.windowMs == windowMs && this.maxRequests == maxRequests && requests == map[]
    {
      this.windowMs := windowMs;
      this.maxRequests := maxRequests;
      requests := map[];
    }

    /** `checkLimit`: true means the request is refused. */
    method CheckLimit(ip: string, now: int) returns (limited: bool)
      requires Valid()
      modifies this
      ensures Valid()
      ensures (limited, requests) == Admit(old(requests), ip, now, windowMs, maxRequests)
    {
      var timestamps := Lookup(requests, ip);
      timestamps := InWindow(timestamps, now, windowMs);
      if |timestamps| >= maxRequests {
        return true;
      }
      timestamps := timestamps + [now];
      requests := requests[ip := timestamps];
      limited := false;
    }

    /** `getRemaining`: read-only. */
    function GetRemaining(ip: string, now: int): (r: nat)
      reads this
      ensures r <= maxRequests
    {
      Remaining(requests, ip, now, windowMs, maxRequests)
    }

    /** `cleanup`: one pass over the entries, deleting or pruning each. */
    method Cleanup(now: int)
      requires Valid()
      modifies this
      ensures Valid()
      ensures requests == Pruned(old(requests), now, windowMs)
    {
      requests := PruneLoop(requests, now, windowMs);
      PrunedBounded(old(requests), now, windowMs, maxRequests);
    }
  }

  /** Pruning never lengthens a list, so the bound on every list survives it. */
  lemma PrunedBounded(requests: map<string, seq<int>>, now: int, windowMs: int, maxRequests: nat)
    requires Bounded(requests, maxRequests)
    ensures Bounded(Pruned(requests, now, windowMs), maxRequests)
  {
  }

  /** The loop of `cleanup`: one pass over the entries, deleting or pruning each. */
  method PruneLoop(requests0: map<string, seq<int>>, now: int, windowMs: int) returns (requests: map<string, seq<int>>)
    ensures requests == Pruned(requests0, now, windowMs)
  {
    requests := requests0;
    var todo := requests.Keys;
    while todo != {}
      invariant todo <= requests0.Keys
      invariant requests.Keys == (set ip | ip in requests0 && (ip in todo || InWindow(requests0[ip], now, windowMs) != []))
      invariant forall ip :: ip in requests && ip in todo ==> requests[ip] == requests0[ip]
      invariant forall ip :: ip in requests && ip !in todo ==> requests[ip] == InWindow(requests0[ip], now, windowMs)
      decreases |todo|
    {
      var ip :| ip in todo;
      var recent := InWindow(requests[ip], now, windowMs);
      if recent == [] {
        requests := requests - {ip};
      } else {
        requests := requests[ip := recent];
      }
      todo := todo - {ip};
    }
    assert requests.Keys == Pruned(requests0, now, windowMs).Keys;
  }

  /** The four spellings of the loopback client address. */
  predicate IsLocalhost(ip: string)
  {
    ip == "127.0.0.1" || ip == "::1" || ip == "::ffff:127.0.0.1" || ip == "localhost"
  }

  const StaticExtensions: seq<string> :=
    [".html", ".js", ".css", ".svg", ".png", ".jpg", ".jpeg", ".webp", ".woff", ".woff2", ".ttf", ".eot"]

  predicate IsStaticAsset(path: string)
  {
    exists ext :: ext in StaticExtensions && EndsWith(path, ext)
  }

  /** Requests the rate limiter never counts. */
  predicate BypassesLimiter(ip: string, path: string)
  {
    IsLocalhost(ip) || StartsWith(path, "/health") || path == "/" || IsStaticAsset(path)
  }

  datatype Outcome = Next | TooManyRequests | Forbidden
  {
    function Status(): nat
    {
      match this
      case Next => 200
      case TooManyRequests => 429
      case Forbidden => 403
    }
  }

  /**
   * The rate-limiting middleware: bypassed requests go straight on and are not
   * recorded; others pass through `CheckLimit` and are answered 429 when
   * limited.  Headers are left out.
   */
  method RateLimit(limiter: RateLimiter, ip: string, path: string, now: int) returns (o: Outcome)
    requires limiter.Valid()
    modifies limiter
    ensures limiter.Valid()
    ensures BypassesLimiter(ip, path) ==> o == Next && limiter.requests == old(limiter.requests)
    ensures !BypassesLimiter(ip, path) ==>
      var a := Admit(old(limiter.requests), ip, now, limiter.windowMs, limiter.maxRequests);
      limiter.requests == a.1 && (o == TooManyRequests <==> a.0) && o != Forbidden
  {
    if BypassesLimiter(ip, path) {
      return Next;
    }
    var limited := limiter.CheckLimit(ip, now);
    o := if limited then TooManyRequests else Next;
  }

  /** `requireLocalhost`: continue exactly for the loopback spellings, 403 otherwise. */
  function RequireLocalhost(ip: string): (o: Outcome)
    ensures o == Next <==> IsLocalhost(ip)
    ensures o != Next ==> o.Status() == 403
  {
    if IsLocalhost(ip) then Next else Forbidden
  }

  /**
   * A request body as `summarizeRequestBody` inspects it: absent (a falsy
   * value) or an object with its own keys and the `tool_name` / `tool_input`
   * properties ("" when absent; `tool_input` is kept as opaque text).
   */
  datatype Body = NoBody | Object(keys: set<string>, toolName: string, toolInput: string)

  /**
   * `summarizeRequestBody`.  `formatTool` is the logger's tool formatter,
   * which is not part of this model.
   */
  function SummarizeRequestBody(path: string, body: Body, formatTool: (string, string) -> string): (r: string)
    ensures body.NoBody? || body.keys == {} ==> r == ""
    ensures Contains(path, "/init") ==> r == ""
    ensures body.Object? && body.keys != {} && !Contains(path, "/init") && Contains(path, "/observations") ==>
      r == "tool=" + formatTool(if body.toolName == "" then "?" else body.toolName, body.toolInput)
    ensures (body.Object? && body.keys != {} && !Contains(path, "/init") && !Contains(path, "/observations") &&
             Contains(path, "/summarize")) ==> r == "requesting summary"
    ensures r != "" ==> Contains(path, "/observations") || Contains(path, "/summarize")
  {
    if body.NoBody? || body.keys == {} then ""
    else if IndexOf(path, "/init") != -1 then (IndexOfContains(path, "/init"); "")
    else if IndexOf(path, "/observations") != -1 then
      IndexOfContains(path, "/init");
      IndexOfContains(path, "/observations");
      "tool=" + formatTool(if body.toolName == "" then "?" else body.toolName, body.toolInput)
    else if IndexOf(path, "/summarize") != -1 then
      IndexOfContains(path, "/init");
      IndexOfContains(path, "/observations");
      IndexOfContains(path, "/summarize");
      "requesting summary"
    else
      IndexOfContains(path, "/observations");
      IndexOfContains(path, "/summarize");
      ""
  }
}
