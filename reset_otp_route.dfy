/** The reset-code route (app/api/auth/reset-otp/route.ts): four rate rules
    checked in order, then the regenerate controller behind the wrapper. */
module ResetOtpRoute {
  import opened Wrappers
  import opened Json
  import opened Api
  import opened Records
  import opened Store
  import opened RateLimiter
  import opened AsyncHandler
  import opened VerifyOtp
  import opened RegenerateOtp

  /** One cool-down rule: at most `limit` calls per `ttl` seconds. */
  datatype Rule = Rule(limit: int, ttl: int, prefix: string)

  /** The route's rules, in the order they are checked. */
  const Rules: seq<Rule> :=
    [Rule(1, 1, "otp-1sec"), Rule(1, 30, "otp-30sec"), Rule(3, 1800, "otp-30min"), Rule(8, 86400, "otp-24hr")]

  /** The outcome of the cascade: every rule allowed, or the index of the
      first rule that refused and the lifetime left on its counter. */
  datatype Decision = Pass | Deny(rule: nat, wait: int)

  /** `s.split(",")[0]`: the text before the first comma. */
  function FirstField(s: string): (r: string)
    ensures |r| <= |s| && r == s[..|r|]
    ensures ',' !in r
    ensures |r| == |s| || s[|r|] == ','
  {
    if s == [] || s[0] == ',' then "" else [s[0]] + FirstField(s[1..])
  }

  /** The client address: the first entry of `x-forwarded-for`, or
      "anonymous" when the header is missing or empty. */
  function ClientIp(forwarded: Option<string>): (r: string)
    ensures forwarded.None? || forwarded.value == "" ==> r == "anonymous"
    ensures forwarded.Some? && forwarded.value != "" ==>
              |r| <= |forwarded.value| && r == forwarded.value[..|r|] && ',' !in r
              && (|r| == |forwarded.value| || forwarded.value[|r|] == ',')
  {
    if forwarded.Some? && forwarded.value != "" then FirstField(forwarded.value) else "anonymous"
  }

  /** The counter a rule keeps for an address: the limiter's default prefix,
      then `{prefix}:{ip}`. */
  function RuleKey(rule: Rule, ip: string): string {
    CounterKey(rule.prefix + ":" + ip, None)
  }

  /** Rules with different prefixes count in different counters. */
  lemma RuleKeysDiffer(a: Rule, b: Rule, ip: string)
    requires a.prefix != b.prefix
    ensures RuleKey(a, ip) != RuleKey(b, ip)
  {
    var x, y := a.prefix + ":" + ip, b.prefix + ":" + ip;
    if |a.prefix| == |b.prefix| {
      assert x[..|a.prefix|] == a.prefix && y[..|b.prefix|] == b.prefix;
    }
    assert x != y;
    CounterKeyInjective(x, y, None);
  }

  /** `d` with its rule index moved `n` places up. */
  function Shift(d: Decision, n: nat): (r: Decision)
    ensures r.Pass? <==> d.Pass?
    ensures d.Deny? ==> r.rule == d.rule + n && r.wait == d.wait
  {
    if d.Deny? then Deny(d.rule + n, d.wait) else Pass
  }

  /** The loop of lines 25-41 over `rules`: each rule's limiter is called in
      turn, and the first refusal ends the loop. */
  function Cascade(counters: map<string, Entry<int>>, rules: seq<Rule>, ip: string)
    : (Decision, map<string, Entry<int>>)
    decreases |rules|
  {
    if rules == [] then (Pass, counters)
    else
      var k := RuleKey(rules[0], ip);
      var next := Bump(counters, k, rules[0].ttl);
      var v := Decide(CountOf(counters, k) + 1, rules[0].limit, TtlOf(next, k));
      if !v.allowed then (Deny(0, v.reset), next)
      else
        var rest := Cascade(next, rules[1..], ip);
        (Shift(rest.0, 1), rest.1)
  }

  /** A refusal names one of the rules of the list. */
  lemma {:induction false} CascadeRefusesListed(counters: map<string, Entry<int>>, rules: seq<Rule>, ip: string)
    ensures Cascade(counters, rules, ip).0.Deny? ==> Cascade(counters, rules, ip).0.rule < |rules|
    decreases |rules|
  {
    if rules != [] {
      var k := RuleKey(rules[0], ip);
      var next := Bump(counters, k, rules[0].ttl);
      CascadeRefusesListed(next, rules[1..], ip);
    }
  }

  /** The rule would let one more call through. */
  predicate Admits(counters: map<string, Entry<int>>, rule: Rule, ip: string) {
    CountOf(counters, RuleKey(rule, ip)) + 1 <= rule.limit
  }

  /** The counter `k` is the same in both maps. */
  predicate Same(a: map<string, Entry<int>>, b: map<string, Entry<int>>, k: string) {
    (k in a <==> k in b) && (k in a ==> a[k] == b[k])
  }

  /** Distinct prefixes and positive lifetimes. */
  predicate WellFormed(rules: seq<Rule>) {
    (forall i, j :: 0 <= i < j < |rules| ==> rules[i].prefix != rules[j].prefix)
    && forall i :: 0 <= i < |rules| ==> rules[i].ttl > 0
  }

  /** The tail of a well-formed rule list is well formed, and every rule
      after the first counts under a key other than the first rule's. */
  lemma TailFacts(counters: map<string, Entry<int>>, rules: seq<Rule>, ip: string)
    requires WellFormed(rules) && rules != []
    ensures WellFormed(rules[1..])
    ensures forall m :: 0 <= m < |rules[1..]| ==>
              rules[1..][m] == rules[m + 1] && RuleKey(rules[1..][m], ip) != RuleKey(rules[0], ip)
              && Same(counters, Bump(counters, RuleKey(rules[0], ip), rules[0].ttl), RuleKey(rules[1..][m], ip))
  {
    var tail := rules[1..];
    forall m | 0 <= m < |tail|
      ensures tail[m] == rules[m + 1] && RuleKey(tail[m], ip) != RuleKey(rules[0], ip)
    {
      RuleKeysDiffer(rules[m + 1], rules[0], ip);
    }
  }

  /** A key no rule counts under is left alone. */
  lemma {:induction false} CascadeKeepsOthers(counters: map<string, Entry<int>>, rules: seq<Rule>, ip: string, k: string)
    requires forall m :: 0 <= m < |rules| ==> k != RuleKey(rules[m], ip)
    ensures Same(counters, Cascade(counters, rules, ip).1, k)
    decreases |rules|
  {
    if rules != [] {
      var next := Bump(counters, RuleKey(rules[0], ip), rules[0].ttl);
      var tail := rules[1..];
      assert forall m :: 0 <= m < |tail| ==> tail[m] == rules[m + 1];
      CascadeKeepsOthers(next, tail, ip, k);
    }
  }

  /** The refusing rule (if any) does not admit the call and every rule before
      it does, judged on the counters the cascade starts from. */
  lemma {:induction false} CascadeDecides(counters: map<string, Entry<int>>, rules: seq<Rule>, ip: string)
    requires WellFormed(rules)
    ensures var d := Cascade(counters, rules, ip).0;
            (d.Deny? ==> d.rule < |rules| && !Admits(counters, rules[d.rule], ip))
            && forall m :: 0 <= m < |rules| && (d.Pass? || m < d.rule) ==> Admits(counters, rules[m], ip)
    decreases |rules|
  {
    if rules != [] && Admits(counters, rules[0], ip) {
      var next := Bump(counters, RuleKey(rules[0], ip), rules[0].ttl);
      var tail := rules[1..];
      TailFacts(counters, rules, ip);
      CascadeDecides(next, tail, ip);
      var d' := Cascade(next, tail, ip).0;
      var d := Cascade(counters, rules, ip).0;
      assert d == Shift(d', 1);
      forall m | 1 <= m < |rules| ensures Admits(counters, rules[m], ip) == Admits(next, tail[m - 1], ip) {
        assert tail[m - 1] == rules[m];
      }
      assert d.Deny? ==> d.rule == d'.rule + 1;
    }
  }

  /** The wait reported is the remaining lifetime of the refusing rule's
      counter. */
  lemma {:induction false} CascadeWait(counters: map<string, Entry<int>>, rules: seq<Rule>, ip: string)
    ensures var (d, after) := Cascade(counters, rules, ip);
            d.Deny? ==> d.rule < |rules| && d.wait == TtlOf(after, RuleKey(rules[d.rule], ip))
    decreases |rules|
  {
    if rules != [] && Admits(counters, rules[0], ip) {
      var next := Bump(counters, RuleKey(rules[0], ip), rules[0].ttl);
      var tail := rules[1..];
      assert forall m :: 0 <= m < |tail| ==> tail[m] == rules[m + 1];
      CascadeWait(next, tail, ip);
    }
  }

  /** The counters of the rules consulted go up by one; those of the rules
      after a refusal are untouched. */
  lemma {:induction false} CascadeCounts(counters: map<string, Entry<int>>, rules: seq<Rule>, ip: string)
    requires WellFormed(rules)
    ensures var (d, after) := Cascade(counters, rules, ip);
            (forall m :: 0 <= m < |rules| && (d.Pass? || m <= d.rule) ==>
               CountOf(after, RuleKey(rules[m], ip)) == CountOf(counters, RuleKey(rules[m], ip)) + 1)
            && (forall m :: 0 <= m < |rules| && d.Deny? && m > d.rule ==> Same(counters, after, RuleKey(rules[m], ip)))
    decreases |rules|
  {
    if rules != [] {
      var k := RuleKey(rules[0], ip);
      var next := Bump(counters, k, rules[0].ttl);
      var tail := rules[1..];
      TailFacts(counters, rules, ip);
      if Admits(counters, rules[0], ip) {
        CascadeCounts(next, tail, ip);
        CascadeKeepsOthers(next, tail, ip, k);
        var (d', after') := Cascade(next, tail, ip);
        forall m | 0 <= m < |rules| && (d'.Pass? || m <= d'.rule + 1)
          ensures CountOf(after', RuleKey(rules[m], ip)) == CountOf(counters, RuleKey(rules[m], ip)) + 1
        {
          if m > 0 {
            assert RuleKey(rules[m], ip) == RuleKey(tail[m - 1], ip);
          }
        }
        forall m | 0 <= m < |rules| && d'.Deny? && m > d'.rule + 1
          ensures Same(counters, after', RuleKey(rules[m], ip))
        {
          assert RuleKey(rules[m], ip) == RuleKey(tail[m - 1], ip);
        }
      }
    }
  }

  /** What the cascade does, stated against the counters it starts from: the
      rules before the refusing one (or all of them) admit the call; the
      refusing one does not and its counter's lifetime is the wait; the
      counters of the consulted rules go up by one, and the counters of the
      rules after the refusal, like every other key, are untouched. */
  lemma CascadeInOrder(counters: map<string, Entry<int>>, rules: seq<Rule>, ip: string)
    requires WellFormed(rules)
    ensures var (d, after) := Cascade(counters, rules, ip);
            (d.Deny? ==> d.rule < |rules| && !Admits(counters, rules[d.rule], ip)
                         && d.wait == TtlOf(after, RuleKey(rules[d.rule], ip)))
            && (forall m :: 0 <= m < |rules| && (d.Pass? || m < d.rule) ==> Admits(counters, rules[m], ip))
            && (forall m :: 0 <= m < |rules| && (d.Pass? || m <= d.rule) ==>
                  CountOf(after, RuleKey(rules[m], ip)) == CountOf(counters, RuleKey(rules[m], ip)) + 1)
            && (forall m :: 0 <= m < |rules| && d.Deny? && m > d.rule ==> Same(counters, after, RuleKey(rules[m], ip)))
            && (forall k :: (forall m :: 0 <= m < |rules| ==> k != RuleKey(rules[m], ip)) ==> Same(counters, after, k))
  {
    CascadeDecides(counters, rules, ip);
    CascadeWait(counters, rules, ip);
    CascadeCounts(counters, rules, ip);
    forall k | forall m :: 0 <= m < |rules| ==> k != RuleKey(rules[m], ip)
      ensures Same(counters, Cascade(counters, rules, ip).1, k)
    {
      CascadeKeepsOthers(counters, rules, ip, k);
    }
  }

  /** The four rules of the route are well formed. */
  lemma RouteRulesWellFormed()
    ensures WellFormed(Rules)
  {
  }

  /** The loop itself, on the cache: its decision and the counters it leaves
      are the cascade's. */
  method CoolDown(cache: Cache, ip: string) returns (d: Decision)
    modifies cache
    ensures cache.json == old(cache.json) && cache.strings == old(cache.strings)
    ensures (d, cache.counters) == Cascade(old(cache.counters), Rules, ip)
  {
    var i := 0;
    while i < |Rules|
      invariant 0 <= i <= |Rules|
      invariant cache.json == old(cache.json) && cache.strings == old(cache.strings)
      invariant var rest := Cascade(cache.counters, Rules[i..], ip);
                Cascade(old(cache.counters), Rules, ip) == (Shift(rest.0, i), rest.1)
      decreases |Rules| - i
    {
      var rule := Rules[i];
      var v := Check(cache, rule.prefix + ":" + ip, rule.limit, rule.ttl, None);
      assert Rules[i..][1..] == Rules[i + 1..];
      if !v.allowed {
        return Deny(i, v.reset);
      }
      i := i + 1;
    }
    d := Pass;
  }

  /** The 429 reply for a refusal with `wait` seconds left. */
  function CoolDownReply(wait: int): (r: Response)
    ensures r.status == 429 && Failed(r)
    ensures "wait" in r.body && r.body["wait"] == JNum(wait)
  {
    Response(429, map["success" := JBool(false), "wait" := JNum(wait),
                      "message" := JStr("Please wait " + JsString(JNum(wait)) + " seconds to request a new OTP.")])
  }

  /** `asynchandler(resetOTP)(req)`: the controller's outcome as a reply. A
      body that is not JSON, or is `null`, is answered 500. */
  method Handler(db: Db, cache: Cache, body: Option<Js>, otp: string) returns (r: Response)
    modifies cache
    ensures cache.json == old(cache.json) && cache.counters == old(cache.counters)
    ensures r.status == 200 ==>
              JsonBody(body).Ok? && TruthyOpt(Get(body.value, "email"))
              && cache.strings == old(cache.strings)[ResetKey(Get(body.value, "email").value) := Entry(otp, OtpTtl)]
    ensures r.status != 200 ==> cache.strings == old(cache.strings) && Failed(r)
    ensures JsonBody(body).Throws? ==> r.status == 500
    ensures JsonBody(body).Ok? && !TruthyOpt(Get(body.value, "email")) ==> r.status == 400
  {
    var o := ResetOtp(db, cache, body, otp);
    var reply := Handle(Lift(o));
    r := reply.value;
  }

  /** `POST(req)`: `forwarded` is the `x-forwarded-for` header, `body` the
      parsed request body, `otp` the code the generator would produce. A
      refusal answers 429 without running the controller, so no code is
      stored. */
  method Post(db: Db, cache: Cache, forwarded: Option<string>, body: Option<Js>, otp: string)
    returns (r: Response)
    modifies cache
    ensures cache.json == old(cache.json)
    ensures var (d, after) := Cascade(old(cache.counters), Rules, ClientIp(forwarded));
            cache.counters == after
            && (d.Deny? ==> r == CoolDownReply(d.wait) && cache.strings == old(cache.strings))
            && (d.Pass? ==>
                  (r.status == 200 ==>
                     JsonBody(body).Ok? && TruthyOpt(Get(body.value, "email"))
                     && cache.strings == old(cache.strings)[ResetKey(Get(body.value, "email").value) := Entry(otp, OtpTtl)])
                  && (r.status != 200 ==> cache.strings == old(cache.strings) && Failed(r))
                  && (JsonBody(body).Throws? ==> r.status == 500)
                  && (JsonBody(body).Ok? && !TruthyOpt(Get(body.value, "email")) ==> r.status == 400))
  {
    var ip := ClientIp(forwarded);
    var d := CoolDown(cache, ip);
    if d.Deny? {
      return CoolDownReply(d.wait);
    }
    r := Handler(db, cache, body, otp);
  }

  /** A first request from an address passes every rule; a second one right
      after it is refused by the one-second rule with a wait of one second. */
  lemma RetryWaits(counters: map<string, Entry<int>>, ip: string)
    requires forall m :: 0 <= m < |Rules| ==> RuleKey(Rules[m], ip) !in counters
    ensures Cascade(counters, Rules, ip).0 == Pass
    ensures Cascade(Cascade(counters, Rules, ip).1, Rules, ip).0 == Deny(0, 1)
  {
    RouteRulesWellFormed();
    CascadeDecides(counters, Rules, ip);
    var k := RuleKey(Rules[0], ip);
    var next := Bump(counters, k, Rules[0].ttl);
    assert next[k] == Entry(1, 1);
    var tail := Rules[1..];
    TailFacts(counters, Rules, ip);
    CascadeKeepsOthers(next, tail, ip, k);
    var after := Cascade(counters, Rules, ip).1;
    assert after == Cascade(next, tail, ip).1;
    assert after[k] == Entry(1, 1);
  }
}
