/** The request-screening helpers of `src/utils/security.py`: the sliding-window rate limiter
    over the per-IP request log, client-IP selection from the proxy headers, bot detection,
    URL screening, the spam check and the periodic clean-up of the request log. */
module Security {
  import opened Common

  /** The request headers the helpers read; an absent header is `None`. */
  datatype Headers = Headers(
    xForwardedFor: Option<string>,
    xRealIp: Option<string>,
    userAgent: Option<string>,
    referer: Option<string>,
    remoteAddr: string)

  /** A header is used only when it is present and non-empty (Python truthiness). */
  predicate Given(h: Option<string>) {
    h.Some? && h.value != ""
  }

  /** The X-Forwarded-For branch of `get_client_ip`: the first comma-separated field, with the
      whitespace around it removed. */
  function ForwardedIp(xff: string): (ip: string)
    ensures SliceBetweenSpaces(ip, FirstField(xff, ','))
    ensures ',' !in ip && (ip != [] ==> !IsSpace(ip[0]) && !IsSpace(ip[|ip| - 1]))
    ensures exists i :: 0 <= i <= |xff| - |ip| && OccursAt(xff, ip, i)
  {
    var first := FirstField(xff, ',');
    var ip := Strip(first);
    var i, j :| 0 <= i <= j <= |first| && ip == first[i..j];
    SliceOfFirstField(xff, first, i, j);
    ip
  }

  /** `get_client_ip`: the first comma-separated element of X-Forwarded-For, trimmed; else
      X-Real-IP; else the socket's remote address. */
  function GetClientIp(h: Headers): (ip: string)
    ensures Given(h.xForwardedFor) ==> SliceBetweenSpaces(ip, FirstField(h.xForwardedFor.value, ','))
    ensures Given(h.xForwardedFor) ==>
      ',' !in ip && (ip != [] ==> !IsSpace(ip[0]) && !IsSpace(ip[|ip| - 1])) &&
      exists i :: 0 <= i <= |h.xForwardedFor.value| - |ip| && OccursAt(h.xForwardedFor.value, ip, i)
    ensures !Given(h.xForwardedFor) && Given(h.xRealIp) ==> ip == h.xRealIp.value
    ensures !Given(h.xForwardedFor) && !Given(h.xRealIp) ==> ip == h.remoteAddr
  {
    if Given(h.xForwardedFor) then ForwardedIp(h.xForwardedFor.value)
    else if Given(h.xRealIp) then h.xRealIp.value
    else h.remoteAddr
  }

  lemma SliceOfFirstField(xff: string, first: string, i: int, j: int)
    requires first == FirstField(xff, ',')
    requires 0 <= i <= j <= |first|
    ensures ',' !in first[i..j]
    ensures OccursAt(xff, first[i..j], i)
  {
    assert first == xff[..|first|];
    assert first[i..j] == xff[i..j];
    forall k | 0 <= k < j - i ensures first[i..j][k] != ',' {
      assert first[i..j][k] == first[i + k];
    }
  }

  /** A single proxy address in X-Forwarded-For with no padding is taken as it is. */
  lemma {:induction false} PlainForwardedForIsKept(h: Headers)
    requires Given(h.xForwardedFor)
    requires ',' !in h.xForwardedFor.value
    requires forall k :: 0 <= k < |h.xForwardedFor.value| ==> !IsSpace(h.xForwardedFor.value[k])
    ensures GetClientIp(h) == h.xForwardedFor.value
  {
    var xff := h.xForwardedFor.value;
    FirstFieldWithoutSeparator(xff, ',');
    assert TrimLeft(xff) == xff;
    assert TrimRight(xff) == xff;
  }

  lemma {:induction false} FirstFieldWithoutSeparator(s: string, sep: char)
    requires sep !in s
    ensures FirstField(s, sep) == s
    decreases |s|
  {
    if s != [] {
      assert s[0] != sep;
      FirstFieldWithoutSeparator(s[1..], sep);
      assert s == [s[0]] + s[1..];
    }
  }

  /** Some pattern of `patterns` occurs in `s`. */
  function AnyIn(s: string, patterns: seq<string>): (r: bool)
    ensures r <==> exists k :: 0 <= k < |patterns| && Contains(s, patterns[k])
  {
    if patterns == [] then false
    else
      var rest := AnyIn(s, patterns[1..]);
      assert forall k :: 1 <= k < |patterns| ==> patterns[k] == patterns[1..][k - 1];
      Contains(s, patterns[0]) || rest
  }

  /** `s` starts with some prefix of `prefixes` (`str.startswith` with a tuple). */
  function AnyPrefix(s: string, prefixes: seq<string>): (r: bool)
    ensures r <==> exists k :: 0 <= k < |prefixes| && StartsWith(s, prefixes[k])
  {
    if prefixes == [] then false
    else
      var rest := AnyPrefix(s, prefixes[1..]);
      assert forall k :: 1 <= k < |prefixes| ==> prefixes[k] == prefixes[1..][k - 1];
      StartsWith(s, prefixes[0]) || rest
  }

  const BotIndicators: seq<string> :=
    ["bot", "crawler", "spider", "scraper", "curl", "wget", "python-requests", "http", "automated", "script"]

  /** `is_bot_request`: the lower-cased User-Agent (empty when absent) contains an indicator. */
  function IsBotRequest(h: Headers): (r: bool)
    ensures r <==> exists k :: 0 <= k < |BotIndicators| && Contains(Lower(h.userAgent.GetOr("")), BotIndicators[k])
  {
    AnyIn(Lower(h.userAgent.GetOr("")), BotIndicators)
  }

  /** Any User-Agent mentioning "HTTP" in any letter case is classed as a bot, which catches
      ordinary crawlers' "+http://..." info URLs as well as some browsers. */
  lemma HttpUserAgentIsBot(h: Headers, i: nat)
    requires h.userAgent.Some? && OccursAt(Lower(h.userAgent.value), "http", i)
    ensures IsBotRequest(h)
  {
    assert BotIndicators[7] == "http";
  }

  datatype Verdict = Verdict(ok: bool, message: string)

  const DangerousDomains: seq<string> := ["malware.com", "phishing.com", "spam.com"]
  const BlockedSchemes: seq<string> := ["javascript:", "data:", "file:", "ftp:"]

  const MsgEmptyUrl := "URL boş olamaz"
  const MsgDangerousUrl := "Güvenlik nedeniyle bu URL kısaltılamaz"
  const MsgBlockedScheme := "Bu protokol desteklenmiyor"
  const MsgOk := "OK"

  /** `validate_url`: rejects, in this order, an empty URL, one that mentions a dangerous domain
      (in any letter case), and one with a forbidden scheme; everything else passes. */
  function ValidateUrl(url: string): (v: Verdict)
    ensures v.ok <==> url != "" && !AnyIn(Lower(url), DangerousDomains) && !AnyPrefix(Lower(url), BlockedSchemes)
    ensures url == "" ==> v.message == MsgEmptyUrl
    ensures url != "" && AnyIn(Lower(url), DangerousDomains) ==> v.message == MsgDangerousUrl
    ensures url != "" && !AnyIn(Lower(url), DangerousDomains) && AnyPrefix(Lower(url), BlockedSchemes) ==>
      v.message == MsgBlockedScheme
    ensures v.ok ==> v.message == MsgOk
  {
    if url == "" then Verdict(false, MsgEmptyUrl)
    else
      var lower := Lower(url);
      if AnyIn(lower, DangerousDomains) then Verdict(false, MsgDangerousUrl)
      else if AnyPrefix(lower, BlockedSchemes) then Verdict(false, MsgBlockedScheme)
      else Verdict(true, MsgOk)
  }

  /** The timestamps of `ts` younger than `window` seconds at time `now`, in their order. */
  function Recent(ts: seq<real>, now: real, window: real): (r: seq<real>)
    ensures |r| <= |ts|
    ensures forall k :: 0 <= k < |r| ==> now - r[k] < window
    ensures forall t :: t in r <==> t in ts && now - t < window
    ensures forall t :: multiset(r)[t] == if now - t < window then multiset(ts)[t] else 0
  {
    if ts == [] then []
    else
      var rest := Recent(ts[1..], now, window);
      assert ts == [ts[0]] + ts[1..];
      assert forall t :: t in ts <==> t == ts[0] || t in ts[1..];
      if now - ts[0] < window then [ts[0]] + rest else rest
  }

  /** Filtering keeps the order: the recent part of a concatenation is the concatenation of the
      recent parts. With the one-element case this fixes `Recent` completely. */
  lemma {:induction false} RecentAppend(a: seq<real>, b: seq<real>, now: real, window: real)
    ensures Recent(a + b, now, window) == Recent(a, now, window) + Recent(b, now, window)
  {
    if a == [] {
      assert a + b == b;
    } else {
      assert (a + b)[0] == a[0];
      assert (a + b)[1..] == a[1..] + b;
      RecentAppend(a[1..], b, now, window);
    }
  }

  /** Filtering twice with the same cut-off changes nothing. */
  lemma {:induction false} RecentIdempotent(ts: seq<real>, now: real, window: real)
    ensures Recent(Recent(ts, now, window), now, window) == Recent(ts, now, window)
  {
    if ts != [] {
      RecentIdempotent(ts[1..], now, window);
    }
  }

  type RequestLog = map<string, seq<real>>

  /** The log of `ip`; `defaultdict(list)` makes an unseen IP's log empty. */
  function LogOf(log: RequestLog, ip: string): (ts: seq<real>)
    ensures ip in log ==> ts == log[ip]
    ensures ip !in log ==> ts == []
  {
    if ip in log then log[ip] else []
  }

  /** Every IP has at most `max` logged requests. */
  ghost predicate Bounded(log: RequestLog, max: int) {
    forall ip :: ip in log ==> |log[ip]| <= max
  }

  /** The `rate_limit` decision for one request from `ip`: drop entries older than the window,
      refuse when `max` remain, otherwise log `now` and admit. */
  function Admit(log: RequestLog, ip: string, now: real, max: int, window: real): (r: (bool, RequestLog))
    ensures var kept := Recent(LogOf(log, ip), now, window);
      r.0 == (|kept| < max) && ip in r.1 &&
      r.1[ip] == (if r.0 then kept + [now] else kept)
    ensures forall other :: other != ip ==> (other in r.1 <==> other in log) && (other in log ==> r.1[other] == log[other])
    ensures r.0 ==> now in r.1[ip]
    ensures max >= 1 && Bounded(log, max) ==> Bounded(r.1, max)
    ensures max >= 1 && |LogOf(log, ip)| <= max ==> |r.1[ip]| <= max
  {
    var kept := Recent(LogOf(log, ip), now, window);
    if |kept| >= max then (false, log[ip := kept])
    else (true, log[ip := kept + [now]])
  }

  const SpamWindow: real := 10.0
  const SpamLimit: int := 3
  const MsgSpam := "Çok hızlı istek gönderiyorsunuz"

  /** `anti_spam_check`: fails when more than three logged requests of `ip` are younger than ten
      seconds; it only reads the log and never looks at `url`. */
  function AntiSpamCheck(log: RequestLog, ip: string, url: string, now: real): (v: Verdict)
    ensures !v.ok <==> ip in log && |Recent(log[ip], now, SpamWindow)| > SpamLimit
    ensures v.message == if v.ok then MsgOk else MsgSpam
  {
    if ip in log && |Recent(log[ip], now, SpamWindow)| > SpamLimit then Verdict(false, MsgSpam)
    else Verdict(true, MsgOk)
  }

  const RetentionSeconds: real := 3600.0

  /** The log after `clean_old_data`: entries older than an hour dropped, emptied IPs removed. */
  function Cleaned(log: RequestLog, now: real): (r: RequestLog)
    ensures forall ip :: ip in r <==> ip in log && Recent(log[ip], now, RetentionSeconds) != []
    ensures forall ip :: ip in r ==> r[ip] == Recent(log[ip], now, RetentionSeconds) && r[ip] != []
  {
    map ip | ip in log && Recent(log[ip], now, RetentionSeconds) != [] :: Recent(log[ip], now, RetentionSeconds)
  }

  /** The process-wide `rate_limit_store`. */
  class RateLimiter {
    var log: RequestLog

    constructor ()
      ensures log == map[]
    {
      log := map[];
    }

    /** The `rate_limit(max_requests, window_seconds)` wrapper: `allowed` says whether the
        wrapped handler runs (otherwise the response is 429). */
    method Check(ip: string, now: real, maxRequests: int, windowSeconds: real) returns (allowed: bool)
      modifies this
      ensures (allowed, log) == Admit(old(log), ip, now, maxRequests, windowSeconds)
    {
      var kept := Recent(LogOf(log, ip), now, windowSeconds);
      log := log[ip := kept];
      if |kept| >= maxRequests {
        assert log == old(log)[ip := kept];
        return false;
      }
      log := log[ip := kept + [now]];
      assert log == old(log)[ip := kept + [now]];
      allowed := true;
    }

    /** `clean_old_data`: rewrites every IP's log in turn and deletes the emptied ones. */
    method CleanOldData(now: real)
      modifies this
      ensures log == Cleaned(old(log), now)
    {
      var todo := log.Keys;
      while todo != {}
        invariant todo <= old(log).Keys
        invariant forall ip :: ip in log <==> ip in old(log) && (ip in todo || Recent(old(log)[ip], now, RetentionSeconds) != [])
        invariant forall ip :: ip in log ==> log[ip] == if ip in todo then old(log)[ip] else Recent(old(log)[ip], now, RetentionSeconds)
        decreases |todo|
      {
        var ip :| ip in todo;
        var kept := Recent(log[ip], now, RetentionSeconds);
        if kept == [] {
          log := log - {ip};
        } else {
          log := log[ip := kept];
        }
        todo := todo - {ip};
      }
      assert log == Cleaned(old(log), now);
    }
  }
}
