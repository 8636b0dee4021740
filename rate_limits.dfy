/** Rate-limit configuration (app/security_config.py): the key each request is
    counted under and the fixed limit tables. The counting itself belongs to
    the rate-limiting library and is not modelled. */
module RateLimits {
  import opened Common

  /** What the key function can see: whether a request is being handled, and
      if so the client address and the authenticated identity, if any. */
  datatype Context = NoRequest | InRequest(remoteAddress: string, identity: Option<string>)

  const GLOBAL_KEY: string := "global"

  /** `get_limiter_key`: every key of a request starts with the client address. */
  function LimiterKey(ctx: Context): (key: string)
    ensures ctx.InRequest? ==> IsPrefix(ctx.remoteAddress, key)
    ensures ctx.InRequest? && |key| > |ctx.remoteAddress| ==> key[|ctx.remoteAddress|] == ':'
  {
    match ctx
    case NoRequest => GLOBAL_KEY
    case InRequest(address, identity) =>
      if identity.Some? && identity.value != "" then address + ":" + identity.value else address
  }

  /** Outside a request everything shares one key; an authenticated request is
      counted under `address:identity`; any other request under its address. */
  lemma LimiterKeyCases(ctx: Context)
    ensures ctx.NoRequest? ==> LimiterKey(ctx) == GLOBAL_KEY
    ensures ctx.InRequest? && ctx.identity.Some? && ctx.identity.value != "" ==>
              && IsPrefix(ctx.remoteAddress + ":", LimiterKey(ctx))
              && LimiterKey(ctx)[|ctx.remoteAddress| + 1..] == ctx.identity.value
    ensures ctx.InRequest? && (ctx.identity.None? || ctx.identity.value == "") ==> LimiterKey(ctx) == ctx.remoteAddress
  {
    if ctx.InRequest? && ctx.identity.Some? && ctx.identity.value != "" {
      var k := LimiterKey(ctx);
      assert k == (ctx.remoteAddress + ":") + ctx.identity.value;
      assert k[..|ctx.remoteAddress + ":"|] == ctx.remoteAddress + ":";
    }
  }

  /** From one address, each identity and the anonymous requests are counted
      separately. */
  lemma {:induction false} SameAddressSeparateKeys(address: string, id1: Option<string>, id2: Option<string>)
    requires (if id1.Some? && id1.value != "" then id1 else None) != (if id2.Some? && id2.value != "" then id2 else None)
    ensures LimiterKey(InRequest(address, id1)) != LimiterKey(InRequest(address, id2))
  {
    var k1, k2 := LimiterKey(InRequest(address, id1)), LimiterKey(InRequest(address, id2));
    if id1.Some? && id1.value != "" && id2.Some? && id2.value != "" {
      assert k1[|address| + 1..] == id1.value;
      assert k2[|address| + 1..] == id2.value;
    } else if id1.Some? && id1.value != "" {
      assert |k1| > |k2|;
    } else {
      assert |k2| > |k1|;
    }
  }

  /** When no address holds a colon, different requesters never share a
      key. */
  lemma {:induction false} KeysSeparateWithoutColons(a1: string, a2: string, id1: string, id2: string)
    requires ':' !in a1 && ':' !in a2
    ensures LimiterKey(InRequest(a1, Some(id1))) == LimiterKey(InRequest(a2, Some(id2))) ==>
              id1 == "" || id2 == "" || (a1 == a2 && id1 == id2)
    ensures id1 != "" ==> LimiterKey(InRequest(a1, Some(id1))) != LimiterKey(InRequest(a2, None))
  {
    var k2 := LimiterKey(InRequest(a2, None));
    if id1 != "" {
      var k1 := a1 + ":" + id1;
      assert k1[|a1|] == ':';
      assert ':' !in k2;
    }
    if id1 != "" && id2 != "" && a1 + ":" + id1 == a2 + ":" + id2 {
      var k := a1 + ":" + id1;
      assert k[|a1|] == ':' && (a2 + ":" + id2)[|a2|] == ':';
      assert |a1| == |a2| by {
        assert forall j :: 0 <= j < |a1| ==> k[j] != ':';
        assert forall j :: 0 <= j < |a2| ==> k[j] != ':';
      }
      assert a1 == k[..|a1|] == a2;
      assert id1 == k[|a1| + 1..] == id2;
    }
  }

  /** With a colon in the address (an IPv6 client), an authenticated user and
      an anonymous client at another address can share a key. */
  lemma {:induction false} ColonAddressesCanCollide()
    ensures LimiterKey(InRequest("::1", Some("7"))) == LimiterKey(InRequest("::1:7", None))
  {
  }

  // ---------------------------------------------------------------------------
  // Limit tables

  datatype Period = Minute | Hour | Day
  {
    function Name(): string {
      match this
      case Minute => "minute"
      case Hour => "hour"
      case Day => "day"
    }

    function Seconds(): nat {
      match this
      case Minute => 60
      case Hour => 3600
      case Day => 86400
    }
  }

  /** `count` requests per `period`. */
  datatype Limit = Limit(count: nat, period: Period)

  /** The text form the limit tables use: `"<count> per <period>"`. */
  function Render(l: Limit): string {
    Decimal(l.count) + " per " + l.period.Name()
  }

  function PeriodNamed(name: string): Option<Period> {
    if name == "minute" then Some(Minute)
    else if name == "hour" then Some(Hour)
    else if name == "day" then Some(Day)
    else None
  }

  /** Reads the text form back: digits, then `" per "`, then a period name. */
  function Parse(s: string): Option<Limit> {
    var i := IndexOf(s, ' ');
    var digits := s[..i];
    if digits == [] || !(forall k :: 0 <= k < |digits| ==> IsDigit(digits[k])) then None
    else if !IsPrefix(" per ", s[i..]) then None
    else
      var period := PeriodNamed(s[i..][5..]);
      if period.None? then None else Some(Limit(DigitsValue(digits), period.value))
  }

  /** Every limit reads back from its text form. */
  lemma {:induction false} ParseRender(l: Limit)
    ensures Parse(Render(l)) == Some(l)
  {
    var d := Decimal(l.count);
    var s := Render(l);
    DigitsOfDecimal(l.count);
    assert s == d + (" per " + l.period.Name());
    assert s[..|d|] == d;
    assert forall k :: 0 <= k < |d| ==> s[k] != ' ' by {
      forall k | 0 <= k < |d| ensures s[k] != ' ' {
        assert s[k] == d[k] && IsDigit(d[k]);
      }
    }
    assert s[|d|] == ' ';
    assert IndexOf(s, ' ') == |d|;
    assert s[|d|..] == " per " + l.period.Name();
    assert s[|d|..][5..] == l.period.Name();
  }

  /** The limits every route gets unless it declares its own. */
  const DEFAULT_LIMITS: seq<string> := ["200 per day", "50 per hour"]

  /** `RATE_LIMITS`: the per-route limits, as text. */
  const RATE_LIMITS: map<string, string> := map[
    "login" := "5 per minute",
    "register" := "3 per hour",
    "upload" := "10 per hour",
    "delete" := "5 per hour",
    "general" := "100 per hour",
    "health" := "30 per minute"
  ]

  /** The default limits are 200 a day and 50 an hour, so with
      `ParseRender` each reads back as that limit. */
  lemma {:induction false} DefaultLimits()
    ensures DEFAULT_LIMITS == [Render(Limit(200, Day)), Render(Limit(50, Hour))]
  {
    assert Decimal(200) == Decimal(20) + "0" == "200";
    assert Render(Limit(200, Day)) == "200" + " per " + "day" == "200 per day";
    assert Decimal(50) == "50";
    assert Render(Limit(50, Hour)) == "50" + " per " + "hour" == "50 per hour";
  }

  /** Each per-route entry is the text form of these limits. */
  lemma {:induction false} RouteLimits()
    ensures RATE_LIMITS == map[
      "login" := Render(Limit(5, Minute)),
      "register" := Render(Limit(3, Hour)),
      "upload" := Render(Limit(10, Hour)),
      "delete" := Render(Limit(5, Hour)),
      "general" := Render(Limit(100, Hour)),
      "health" := Render(Limit(30, Minute))
    ]
  {
    assert Render(Limit(5, Minute)) == "5" + " per " + "minute" == "5 per minute";
    assert Render(Limit(3, Hour)) == "3" + " per " + "hour" == "3 per hour";
    assert Decimal(10) == "10";
    assert Render(Limit(10, Hour)) == "10" + " per " + "hour" == "10 per hour";
    assert Render(Limit(5, Hour)) == "5" + " per " + "hour" == "5 per hour";
    assert Decimal(100) == Decimal(10) + "0" == "100";
    assert Render(Limit(100, Hour)) == "100" + " per " + "hour" == "100 per hour";
    assert Decimal(30) == "30";
    assert Render(Limit(30, Minute)) == "30" + " per " + "minute" == "30 per minute";
  }
}
