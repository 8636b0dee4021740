/** The abuse filter in front of the application (app/security_middleware.py):
    per-address strike counts, temporary blocks, a sliding window of recent
    requests to sensitive paths, and the request tests that raise a strike. */
module AbuseFilter {
  import opened Common

  /** Strikes after which an address is blocked. */
  const MAX_FAILED_ATTEMPTS: nat := 10
  /** Length of a block, in seconds. */
  const BLOCK_TIME: real := 900.0
  /** The sliding window for request frequency, in seconds. */
  const WINDOW: real := 60.0
  /** More requests than this inside the window is suspicious. */
  const HIGH_FREQUENCY: nat := 30
  /** Shortest user agent that is not suspicious. */
  const MIN_USER_AGENT: nat := 10

  /** The environment keys consulted for the client address, in order. */
  const PROXY_HEADERS: seq<string> := ["HTTP_X_FORWARDED_FOR", "HTTP_X_REAL_IP", "REMOTE_ADDR"]
  const UNKNOWN_IP: string := "unknown"

  const SENSITIVE_PATHS: seq<string> := ["/login", "/register", "/upload", "/users/", "/products/"]

  // ---------------------------------------------------------------------------
  // Client address

  /** The address taken from one header value: the trimmed text before the
      first comma when there is one, the whole value, untrimmed, otherwise. */
  function FirstHop(v: string): (ip: string)
    ensures ',' !in ip
    ensures ',' !in v ==> ip == v
    ensures ',' in v ==> exists k :: 0 <= k < |v| && v[k] == ',' && ',' !in v[..k] && ip == Strip(v[..k])
  {
    if ',' in v then
      var head := v[..IndexOf(v, ',')];
      assert ',' !in head;
      var r := Strip(head);
      assert forall c :: c in r ==> c in head by {
        var i, j :| 0 <= i <= j <= |head| && r == head[i..j];
      }
      r
    else v
  }

  /** The address from the first of `headers` whose value is not empty. */
  function AddressFrom(environ: map<string, string>, headers: seq<string>): (ip: string)
    ensures ',' !in ip || ip == UNKNOWN_IP
    ensures ip == UNKNOWN_IP || exists k :: 0 <= k < |headers| && GetText(environ, headers[k], "") != ""
  {
    if headers == [] then UNKNOWN_IP
    else if GetText(environ, headers[0], "") != "" then FirstHop(environ[headers[0]])
    else
      var ip := AddressFrom(environ, headers[1..]);
      assert ip != UNKNOWN_IP ==> exists k :: 0 <= k < |headers| && GetText(environ, headers[k], "") != "" by {
        if ip != UNKNOWN_IP {
          var k :| 0 <= k < |headers[1..]| && GetText(environ, headers[1..][k], "") != "";
          assert GetText(environ, headers[k + 1], "") != "";
        }
      }
      ip
  }

  function ClientIp(environ: map<string, string>): string {
    AddressFrom(environ, PROXY_HEADERS)
  }

  /** A forwarded-for header wins over the other two; the real-ip header wins
      over the socket address; with none of them the address is `unknown`;
      and the address never holds a comma. */
  lemma ClientIpChoice(environ: map<string, string>)
    ensures ',' !in ClientIp(environ) || ClientIp(environ) == UNKNOWN_IP
    ensures GetText(environ, "HTTP_X_FORWARDED_FOR", "") != "" ==>
              ClientIp(environ) == FirstHop(environ["HTTP_X_FORWARDED_FOR"])
    ensures GetText(environ, "HTTP_X_FORWARDED_FOR", "") == "" && GetText(environ, "HTTP_X_REAL_IP", "") != "" ==>
              ClientIp(environ) == FirstHop(environ["HTTP_X_REAL_IP"])
    ensures GetText(environ, "HTTP_X_FORWARDED_FOR", "") == "" && GetText(environ, "HTTP_X_REAL_IP", "") == ""
            && GetText(environ, "REMOTE_ADDR", "") != "" ==>
              ClientIp(environ) == FirstHop(environ["REMOTE_ADDR"])
    ensures (forall h :: h in PROXY_HEADERS ==> GetText(environ, h, "") == "") ==> ClientIp(environ) == UNKNOWN_IP
  {
    var rest := PROXY_HEADERS[1..];
    assert rest == ["HTTP_X_REAL_IP", "REMOTE_ADDR"];
    assert rest[1..] == ["REMOTE_ADDR"];
    assert ClientIp(environ) ==
      if GetText(environ, "HTTP_X_FORWARDED_FOR", "") != "" then FirstHop(environ["HTTP_X_FORWARDED_FOR"])
      else AddressFrom(environ, rest);
    assert AddressFrom(environ, rest) ==
      if GetText(environ, "HTTP_X_REAL_IP", "") != "" then FirstHop(environ["HTTP_X_REAL_IP"])
      else AddressFrom(environ, rest[1..]);
    assert AddressFrom(environ, rest[1..]) ==
      if GetText(environ, "REMOTE_ADDR", "") != "" then FirstHop(environ["REMOTE_ADDR"])
      else AddressFrom(environ, rest[1..][1..]);
  }

  // ---------------------------------------------------------------------------
  // Sensitive paths

  /** Whether `path` starts with one of `prefixes`. */
  function StartsWithAny(prefixes: seq<string>, path: string): (r: bool)
    ensures r <==> exists k :: 0 <= k < |prefixes| && IsPrefix(prefixes[k], path)
  {
    if prefixes == [] then false
    else if IsPrefix(prefixes[0], path) then true
    else
      var r := StartsWithAny(prefixes[1..], path);
      assert r <==> exists k :: 1 <= k < |prefixes| && IsPrefix(prefixes[k], path) by {
        if r {
          var k :| 0 <= k < |prefixes[1..]| && IsPrefix(prefixes[1..][k], path);
          assert IsPrefix(prefixes[k + 1], path);
        }
        if exists k :: 1 <= k < |prefixes| && IsPrefix(prefixes[k], path) {
          var k :| 1 <= k < |prefixes| && IsPrefix(prefixes[k], path);
          assert IsPrefix(prefixes[1..][k - 1], path);
        }
      }
      r
  }

  function IsSensitivePath(path: string): bool {
    StartsWithAny(SENSITIVE_PATHS, path)
  }

  /** Prefix matching, not path matching: the product collection itself and
      the document listing are not sensitive, a single product is, and so is
      any path that merely begins with `/login`. */
  lemma {:induction false} SensitivePathExamples()
    ensures !IsSensitivePath("/products")
    ensures IsSensitivePath("/products/1")
    ensures !IsSensitivePath("/pdfs")
    ensures IsSensitivePath("/loginx")
  {
    assert IsPrefix(SENSITIVE_PATHS[4], "/products/1");
    assert IsPrefix(SENSITIVE_PATHS[0], "/loginx");
    assert !IsPrefix(SENSITIVE_PATHS[0], "/products") by { assert "/products"[1] != 'l'; }
    assert !IsPrefix(SENSITIVE_PATHS[1], "/products") by { assert "/products"[1] != 'r'; }
    assert !IsPrefix(SENSITIVE_PATHS[2], "/products") by { assert "/products"[1] != 'u'; }
    assert !IsPrefix(SENSITIVE_PATHS[3], "/products") by { assert "/products"[1] != 'u'; }
    assert !IsPrefix(SENSITIVE_PATHS[0], "/pdfs") by { assert "/pdfs"[1] != 'l'; }
    assert !IsPrefix(SENSITIVE_PATHS[1], "/pdfs") by { assert "/pdfs"[1] != 'r'; }
    assert !IsPrefix(SENSITIVE_PATHS[2], "/pdfs") by { assert "/pdfs"[1] != 'u'; }
    assert !IsPrefix(SENSITIVE_PATHS[3], "/pdfs") by { assert "/pdfs"[1] != 'u'; }
    assert !IsPrefix(SENSITIVE_PATHS[4], "/pdfs") by { assert "/pdfs"[2] != 'r'; }
  }

  // ---------------------------------------------------------------------------
  // Injection patterns

  /** The two shapes of the fixed pattern list: a literal, or `a.*b` (`a`,
      then `b` later on the same line, since `.` does not match a newline). */
  datatype Pattern = Literal(w: string) | Then(a: string, b: string)

  const INJECTION_PATTERNS: seq<Pattern> := [
    Then("union", "select"), Then("select", "from"), Then("insert", "into"),
    Then("delete", "from"), Then("drop", "table"), Literal("--"), Literal("/*"),
    Then("waitfor", "delay"), Literal("xp_cmdshell")
  ]

  predicate OccursAt(t: string, w: string, i: int) {
    0 <= i && i + |w| <= |t| && t[i..i + |w|] == w
  }

  predicate NoNewline(t: string, from: int, to: int)
    requires 0 <= from && to <= |t|
  {
    forall k :: from <= k < to ==> t[k] != '\n'
  }

  /** Some occurrence of `a` ends at or before `p` with no newline between
      its end and `p`. */
  ghost predicate Armed(t: string, a: string, p: int)
    requires p <= |t|
  {
    exists i :: 0 <= i && i + |a| <= p && OccursAt(t, a, i) && NoNewline(t, i + |a|, p)
  }

  /** Where `re.search` finds `pattern` in `t`. */
  ghost predicate Found(pattern: Pattern, t: string) {
    match pattern
    case Literal(w) => exists i :: 0 <= i <= |t| && OccursAt(t, w, i)
    case Then(a, b) => exists j :: 0 <= j <= |t| && OccursAt(t, b, j) && Armed(t, a, j)
  }

  /** Case-insensitive search for any pattern of the list. */
  ghost predicate AnyPattern(t: string) {
    exists k :: 0 <= k < |INJECTION_PATTERNS| && Found(INJECTION_PATTERNS[k], Lower(t))
  }

  /** How the matcher's state moves one character on. */
  lemma {:induction false} ArmedStep(t: string, a: string, p: int)
    requires 0 <= p < |t|
    ensures Armed(t, a, p + 1) <==> (p + 1 >= |a| && OccursAt(t, a, p + 1 - |a|)) || (Armed(t, a, p) && t[p] != '\n')
  {
    if Armed(t, a, p + 1) {
      var i :| 0 <= i && i + |a| <= p + 1 && OccursAt(t, a, i) && NoNewline(t, i + |a|, p + 1);
      if i + |a| <= p {
        assert NoNewline(t, i + |a|, p);
        assert Armed(t, a, p);
      }
    }
    if p + 1 >= |a| && OccursAt(t, a, p + 1 - |a|) {
      assert NoNewline(t, p + 1, p + 1);
    }
    if Armed(t, a, p) && t[p] != '\n' {
      var i :| 0 <= i && i + |a| <= p && OccursAt(t, a, i) && NoNewline(t, i + |a|, p);
      assert NoNewline(t, i + |a|, p + 1);
    }
  }

  /** Search for a literal. */
  method FindLiteral(t: string, w: string) returns (found: bool)
    ensures found == Found(Literal(w), t)
  {
    for i := 0 to |t| + 1
      invariant forall k :: 0 <= k < i ==> !OccursAt(t, w, k)
    {
      if i + |w| <= |t| && t[i..i + |w|] == w {
        assert OccursAt(t, w, i);
        return true;
      }
    }
    return false;
  }

  /** Search for `a.*b` in one left-to-right pass: `armed` records whether an
      occurrence of `a` is still open on the current line. */
  method FindThen(t: string, a: string, b: string) returns (found: bool)
    requires |b| > 0
    ensures found == Found(Then(a, b), t)
  {
    var armed := |a| == 0;
    assert armed == Armed(t, a, 0) by {
      if |a| == 0 {
        assert OccursAt(t, a, 0) && NoNewline(t, 0, 0);
      }
    }
    var p := 0;
    while p < |t|
      invariant 0 <= p <= |t|
      invariant armed == Armed(t, a, p)
      invariant forall j :: 0 <= j < p ==> !(OccursAt(t, b, j) && Armed(t, a, j))
    {
      if armed && p + |b| <= |t| && t[p..p + |b|] == b {
        assert OccursAt(t, b, p) && Armed(t, a, p);
        return true;
      }
      ArmedStep(t, a, p);
      armed := (p + 1 >= |a| && p + 1 - |a| + |a| <= |t| && t[p + 1 - |a|..p + 1] == a) || (armed && t[p] != '\n');
      p := p + 1;
    }
    assert !OccursAt(t, b, |t|);
    return false;
  }

  method Search(pattern: Pattern, t: string) returns (found: bool)
    requires pattern.Then? ==> |pattern.b| > 0
    ensures found == Found(pattern, t)
  {
    match pattern
    case Literal(w) => found := FindLiteral(t, w);
    case Then(a, b) => found := FindThen(t, a, b);
  }

  /** The loop over the pattern list, stopping at the first that matches. */
  method MatchesAny(t: string) returns (found: bool)
    ensures found == AnyPattern(t)
  {
    var text := Lower(t);
    for k := 0 to |INJECTION_PATTERNS|
      invariant forall m :: 0 <= m < k ==> !Found(INJECTION_PATTERNS[m], text)
    {
      found := Search(INJECTION_PATTERNS[k], text);
      if found {
        return;
      }
    }
    return false;
  }

  /** An upper-case `UNION SELECT` in a query string is caught. */
  lemma {:induction false} UnionSelectIsFound()
    ensures AnyPattern("id=1 UNION SELECT pw")
  {
    var t := Lower("id=1 UNION SELECT pw");
    assert t == "id=1 union select pw";
    assert OccursAt(t, "union", 5);
    assert NoNewline(t, 10, 11);
    assert Armed(t, "union", 11);
    assert OccursAt(t, "select", 11);
    assert Found(INJECTION_PATTERNS[0], t);
  }

  /** A newline between the two words defeats an `a.*b` pattern. */
  lemma {:induction false} NewlineSeparatesWords()
    ensures !Found(Then("union", "select"), "union\nselect")
  {
    var t := "union\nselect";
    forall j | 0 <= j <= |t| && OccursAt(t, "select", j)
      ensures j == 6
    {
      assert t[j] == t[j..j + 6][0] == 's';
    }
    forall i | 0 <= i && i + 5 <= 6 && OccursAt(t, "union", i)
      ensures !NoNewline(t, i + 5, 6)
    {
      assert t[i] == t[i..i + 5][0] == 'u';
      assert t[5] == '\n';
    }
  }

  // ---------------------------------------------------------------------------
  // Content length

  /** `int(s)` on decimal text: surrounding white space, an optional sign,
      then at least one digit; anything else raises. */
  function ParseInt(s: string): (r: Option<int>)
    ensures r.Some? ==> Strip(s) != []
  {
    var t := Strip(s);
    var sign := if t != [] && (t[0] == '+' || t[0] == '-') then 1 else 0;
    var digits := t[sign..];
    if digits == [] || !(forall k :: 0 <= k < |digits| ==> IsDigit(digits[k])) then None
    else if sign == 1 && t[0] == '-' then Some(-(DigitsValue(digits) as int))
    else Some(DigitsValue(digits))
  }

  /** Parsing reads back what rendering writes, with or without a sign. */
  lemma {:induction false} ParseDecimal(n: nat, pre: string, post: string)
    requires forall k :: 0 <= k < |pre| ==> IsSpace(pre[k])
    requires forall k :: 0 <= k < |post| ==> IsSpace(post[k])
    ensures ParseInt(pre + Decimal(n) + post) == Some(n)
    ensures ParseInt(pre + "-" + Decimal(n) + post) == Some(-(n as int))
  {
    DigitsOfDecimal(n);
    var s := Decimal(n);
    StripPadded(pre, s, post);
    ReadsDigits(n, pre + s + post);
    var m := "-" + s;
    assert m[|m| - 1] == s[|s| - 1];
    assert pre + "-" + s + post == pre + m + post;
    StripPadded(pre, m, post);
    ReadsNegative(n, pre + m + post);
  }

  lemma ReadsDigits(n: nat, x: string)
    requires Strip(x) == Decimal(n)
    ensures ParseInt(x) == Some(n)
  {
    DigitsOfDecimal(n);
    assert Strip(x)[0..] == Decimal(n);
  }

  lemma ReadsNegative(n: nat, x: string)
    requires Strip(x) == "-" + Decimal(n)
    ensures ParseInt(x) == Some(-(n as int))
  {
    DigitsOfDecimal(n);
    assert Strip(x)[1..] == Decimal(n);
  }

  /** Stripping white space around a text that neither starts nor ends with
      white space gives that text back. */
  lemma StripPadded(pre: string, s: string, post: string)
    requires s != [] && !IsSpace(s[0]) && !IsSpace(s[|s| - 1])
    requires forall k :: 0 <= k < |pre| ==> IsSpace(pre[k])
    requires forall k :: 0 <= k < |post| ==> IsSpace(post[k])
    ensures Strip(pre + s + post) == s
  {
    var x := pre + s + post;
    assert x[|pre|] == s[0];
    assert x[|pre| + |s| - 1] == s[|s| - 1];
    var i := LeadingSpaces(x);
    assert forall k :: 0 <= k < |pre| ==> x[k] == pre[k];
    var j := TrailingStart(x);
    assert forall k :: |pre| + |s| <= k < |x| ==> x[k] == post[k - |pre| - |s|];
    assert x[i..j] == s;
  }

  // ---------------------------------------------------------------------------
  // Injection detection

  /** What `read(n)` returns from a body: at most `n` characters. */
  function Take(body: string, n: int): string {
    if n <= 0 then [] else if n < |body| then body[..n] else body
  }

  /** The declared body length, or `None` when `int()` would raise. */
  function ContentLength(environ: map<string, string>): Option<int> {
    if "CONTENT_LENGTH" in environ then ParseInt(environ["CONTENT_LENGTH"]) else Some(0)
  }

  /** Whether the request's query string, or for POST and PUT its body, holds
      an injection pattern. */
  ghost predicate Injected(environ: map<string, string>, body: string)
    requires "REQUEST_METHOD" in environ
  {
    || AnyPattern(GetText(environ, "QUERY_STRING", ""))
    || (&& environ["REQUEST_METHOD"] in ["POST", "PUT"]
        && ContentLength(environ).Some? && ContentLength(environ).value > 0
        && AnyPattern(Take(body, ContentLength(environ).value)))
  }

  /** `detect_sql_injection`. `body` stands for the request stream's contents. */
  method DetectSqlInjection(environ: map<string, string>, body: string) returns (detected: bool)
    requires "REQUEST_METHOD" in environ
    ensures detected == Injected(environ, body)
  {
    detected := MatchesAny(GetText(environ, "QUERY_STRING", ""));
    if detected {
      return;
    }
    if environ["REQUEST_METHOD"] in ["POST", "PUT"] {
      var length := ContentLength(environ);
      if length.Some? && length.value > 0 {
        detected := MatchesAny(Take(body, length.value));
      }
    }
  }

  /** Other methods than POST and PUT are judged on their query string only. */
  lemma QueryOnlyUnlessPostOrPut(environ: map<string, string>, body1: string, body2: string)
    requires "REQUEST_METHOD" in environ && environ["REQUEST_METHOD"] !in ["POST", "PUT"]
    ensures Injected(environ, body1) == Injected(environ, body2) == AnyPattern(GetText(environ, "QUERY_STRING", ""))
  {
  }

  // ---------------------------------------------------------------------------
  // Request frequency

  /** The timestamps of `ts` that lie inside the window ending at `now`, in order. */
  function Recent(ts: seq<Time>, now: Time): (r: seq<Time>)
    ensures forall t :: t in r <==> t in ts && now - t < WINDOW
    ensures forall t :: multiset(r)[t] == if now - t < WINDOW then multiset(ts)[t] else 0
    ensures |r| <= |ts|
  {
    if ts == [] then []
    else
      var last := ts[|ts| - 1];
      assert ts == ts[..|ts| - 1] + [last];
      Recent(ts[..|ts| - 1], now) + (if now - last < WINDOW then [last] else [])
  }

  /** The window keeps the order of the history: it is the history with the
      expired times left out. */
  lemma {:induction false} RecentKeepsOrder(ts: seq<Time>, now: Time)
    ensures Subsequence(Recent(ts, now), ts)
  {
    if ts != [] {
      var last := ts[|ts| - 1];
      var front := Recent(ts[..|ts| - 1], now);
      RecentKeepsOrder(ts[..|ts| - 1], now);
      if now - last < WINDOW {
        var r := front + [last];
        assert r[..|r| - 1] == front;
        assert r[|r| - 1] == ts[|ts| - 1];
        assert Recent(ts, now) == r;
      } else {
        assert Recent(ts, now) == front;
      }
    }
  }

  /** The filter keeps every timestamp of the window and drops the rest. */
  method KeepRecent(ts: seq<Time>, now: Time) returns (kept: seq<Time>)
    ensures kept == Recent(ts, now)
  {
    kept := [];
    for i := 0 to |ts|
      invariant kept == Recent(ts[..i], now)
    {
      assert ts[..i + 1][..i] == ts[..i];
      if now - ts[i] < WINDOW {
        kept := kept + [ts[i]];
      }
    }
    assert ts[..|ts|] == ts;
  }

  /** The request being recorded is always inside the window, and filtering
      twice at the same instant changes nothing. */
  lemma {:induction false} RecentKeepsNewest(ts: seq<Time>, now: Time)
    ensures Recent(ts + [now], now) == Recent(ts, now) + [now]
    ensures Recent(Recent(ts, now), now) == Recent(ts, now)
  {
    assert (ts + [now])[..|ts|] == ts;
    RecentIdempotent(ts, now);
  }

  lemma {:induction false} RecentIdempotent(ts: seq<Time>, now: Time)
    ensures Recent(Recent(ts, now), now) == Recent(ts, now)
  {
    if ts != [] {
      var init := ts[..|ts| - 1];
      var last := ts[|ts| - 1];
      RecentIdempotent(init, now);
      assert ts == init + [last];
      if now - last < WINDOW {
        assert Recent(ts, now) == Recent(init, now) + [last];
        RecentAppendKept(Recent(init, now), last, now);
      } else {
        assert Recent(ts, now) == Recent(init, now);
      }
    }
  }

  lemma {:induction false} RecentAppendKept(ts: seq<Time>, t: Time, now: Time)
    requires now - t < WINDOW
    ensures Recent(ts + [t], now) == Recent(ts, now) + [t]
  {
    assert (ts + [t])[..|ts|] == ts;
  }

  // ---------------------------------------------------------------------------
  // Decisions

  /** Strikes recorded so far against `ip`. */
  function Count(counts: map<string, nat>, ip: string): nat {
    if ip in counts then counts[ip] else 0
  }

  /** The timestamps kept for `ip` so far. */
  function History(activity: map<string, seq<Time>>, ip: string): seq<Time> {
    if ip in activity then activity[ip] else []
  }

  /** One strike against `ip` at `now`: the count goes up by one, and once it
      reaches the maximum the address is blocked for the block time. */
  predicate Struck(counts0: map<string, nat>, blocks0: map<string, Time>,
                   counts1: map<string, nat>, blocks1: map<string, Time>, ip: string, now: Time) {
    && counts1 == counts0[ip := Count(counts0, ip) + 1]
    && blocks1 == (if Count(counts0, ip) + 1 >= MAX_FAILED_ATTEMPTS then blocks0[ip := now + BLOCK_TIME] else blocks0)
  }

  /** Whether a request from an address whose kept history is `history` is
      suspicious at `now`: a user agent shorter than the minimum, an
      injection, or a sensitive path requested too often. */
  ghost predicate Suspicious(environ: map<string, string>, body: string, history: seq<Time>, now: Time)
    requires "REQUEST_METHOD" in environ
  {
    || |GetText(environ, "HTTP_USER_AGENT", "")| < MIN_USER_AGENT
    || Injected(environ, body)
    || (IsSensitivePath(GetText(environ, "PATH_INFO", "")) && |Recent(history + [now], now)| > HIGH_FREQUENCY)
  }

  /** Whether the request's timestamp enters the window: only when the user
      agent and injection tests pass and the path is sensitive. */
  ghost predicate Tracked(environ: map<string, string>, body: string)
    requires "REQUEST_METHOD" in environ
  {
    && |GetText(environ, "HTTP_USER_AGENT", "")| >= MIN_USER_AGENT
    && !Injected(environ, body)
    && IsSensitivePath(GetText(environ, "PATH_INFO", ""))
  }

  /** What the filter does with a request: turn it away as blocked, turn it
      away as suspicious, or pass it on to the application. */
  datatype Verdict = Blocked | Rejected | Forwarded

  class SecurityMiddleware {
    var failedAttempts: map<string, nat>
    var blockedIps: map<string, Time>
    var suspiciousActivities: map<string, seq<Time>>

    /** A block exists only for an address that has reached the maximum. */
    ghost predicate Valid()
      reads this
    {
      forall ip :: ip in blockedIps ==> Count(failedAttempts, ip) >= MAX_FAILED_ATTEMPTS
    }

    constructor ()
      ensures Valid()
      ensures failedAttempts == map[] && blockedIps == map[] && suspiciousActivities == map[]
    {
      failedAttempts := map[];
      blockedIps := map[];
      suspiciousActivities := map[];
    }

    /** `get_client_ip`: the loop over the proxy headers. */
    method GetClientIp(environ: map<string, string>) returns (ip: string)
      ensures ip == ClientIp(environ)
    {
      for k := 0 to |PROXY_HEADERS|
        invariant AddressFrom(environ, PROXY_HEADERS[k..]) == ClientIp(environ)
      {
        var header := PROXY_HEADERS[k];
        assert PROXY_HEADERS[k..][1..] == PROXY_HEADERS[k + 1..];
        if header in environ && environ[header] != "" {
          return FirstHop(environ[header]);
        }
      }
      return UNKNOWN_IP;
    }

    /** `is_ip_blocked`: an unexpired block holds; an expired one is removed. */
    method IsIpBlocked(ip: string, now: Time) returns (blocked: bool)
      requires Valid()
      modifies this
      ensures Valid()
      ensures blocked <==> ip in old(blockedIps) && now < old(blockedIps)[ip]
      ensures blockedIps == if ip in old(blockedIps) && !blocked then old(blockedIps) - {ip} else old(blockedIps)
      ensures failedAttempts == old(failedAttempts) && suspiciousActivities == old(suspiciousActivities)
    {
      blocked := false;
      if ip in blockedIps {
        if now < blockedIps[ip] {
          blocked := true;
        } else {
          blockedIps := blockedIps - {ip};
        }
      }
    }

    /** `record_suspicious_activity`: one strike; the count is never reset. */
    method RecordSuspiciousActivity(ip: string, now: Time)
      requires Valid()
      modifies this
      ensures Valid()
      ensures Struck(old(failedAttempts), old(blockedIps), failedAttempts, blockedIps, ip, now)
      ensures Count(old(failedAttempts), ip) + 1 >= MAX_FAILED_ATTEMPTS ==> ip in blockedIps && blockedIps[ip] == now + BLOCK_TIME
      ensures suspiciousActivities == old(suspiciousActivities)
    {
      if ip !in failedAttempts {
        failedAttempts := failedAttempts[ip := 0];
      }
      failedAttempts := failedAttempts[ip := failedAttempts[ip] + 1];
      if failedAttempts[ip] >= MAX_FAILED_ATTEMPTS {
        blockedIps := blockedIps[ip := now + BLOCK_TIME];
      }
    }

    /** `is_high_frequency`: records `now`, keeps the window, and compares. */
    method IsHighFrequency(ip: string, now: Time) returns (high: bool)
      modifies this
      ensures suspiciousActivities == old(suspiciousActivities)[ip := Recent(History(old(suspiciousActivities), ip) + [now], now)]
      ensures high <==> |suspiciousActivities[ip]| > HIGH_FREQUENCY
      ensures forall t :: t in suspiciousActivities[ip] ==> now - t < WINDOW
      ensures failedAttempts == old(failedAttempts) && blockedIps == old(blockedIps)
    {
      var history := if ip in suspiciousActivities then suspiciousActivities[ip] else [];
      history := history + [now];
      var kept := KeepRecent(history, now);
      suspiciousActivities := suspiciousActivities[ip := kept];
      high := |kept| > HIGH_FREQUENCY;
    }

    /** `check_suspicious_activity`: the tests run in order and the first that
        fires records the request's only strike. */
    method CheckSuspiciousActivity(environ: map<string, string>, body: string, ip: string, now: Time) returns (suspicious: bool)
      requires Valid() && "REQUEST_METHOD" in environ
      modifies this
      ensures Valid()
      ensures suspicious == Suspicious(environ, body, History(old(suspiciousActivities), ip), now)
      ensures suspicious ==> Struck(old(failedAttempts), old(blockedIps), failedAttempts, blockedIps, ip, now)
      ensures !suspicious ==> failedAttempts == old(failedAttempts) && blockedIps == old(blockedIps)
      ensures suspiciousActivities ==
                if Tracked(environ, body)
                then old(suspiciousActivities)[ip := Recent(History(old(suspiciousActivities), ip) + [now], now)]
                else old(suspiciousActivities)
    {
      var path := GetText(environ, "PATH_INFO", "");
      var userAgent := GetText(environ, "HTTP_USER_AGENT", "");
      if userAgent == "" || |userAgent| < MIN_USER_AGENT {
        RecordSuspiciousActivity(ip, now);
        return true;
      }
      var injected := DetectSqlInjection(environ, body);
      if injected {
        RecordSuspiciousActivity(ip, now);
        return true;
      }
      if IsSensitivePath(path) {
        var high := IsHighFrequency(ip, now);
        if high {
          RecordSuspiciousActivity(ip, now);
          return true;
        }
      }
      return false;
    }

    /** `__call__`: a blocked address is turned away before any test, so it
        gains no strike; otherwise a suspicious request is rejected and only
        the rest reach the application. */
    method Call(environ: map<string, string>, body: string, now: Time) returns (verdict: Verdict)
      requires Valid() && "REQUEST_METHOD" in environ
      modifies this
      ensures Valid()
      ensures var ip := ClientIp(environ);
              && (verdict == Blocked <==> ip in old(blockedIps) && now < old(blockedIps)[ip])
              && (verdict == Blocked ==>
                    failedAttempts == old(failedAttempts) && blockedIps == old(blockedIps)
                    && suspiciousActivities == old(suspiciousActivities))
              && (verdict != Blocked ==>
                    (verdict == Rejected <==> Suspicious(environ, body, History(old(suspiciousActivities), ip), now)))
              && (verdict == Rejected ==> failedAttempts == old(failedAttempts)[ip := Count(old(failedAttempts), ip) + 1])
              && (verdict == Forwarded ==> failedAttempts == old(failedAttempts))
    ensures var ip := ClientIp(environ);
            var afterExpiry := if ip in old(blockedIps) then old(blockedIps) - {ip} else old(blockedIps);
            && (verdict == Rejected ==> Struck(old(failedAttempts), afterExpiry, failedAttempts, blockedIps, ip, now))
            && (verdict == Forwarded ==> blockedIps == afterExpiry)
            && (verdict != Blocked ==>
                  suspiciousActivities ==
                    if Tracked(environ, body)
                    then old(suspiciousActivities)[ip := Recent(History(old(suspiciousActivities), ip) + [now], now)]
                    else old(suspiciousActivities))
    {
      var ip := GetClientIp(environ);
      var blocked := IsIpBlocked(ip, now);
      if blocked {
        return Blocked;
      }
      var suspicious := CheckSuspiciousActivity(environ, body, ip, now);
      if suspicious {
        return Rejected;
      }
      return Forwarded;
    }
  }
}
