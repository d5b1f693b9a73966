/**
 * Super-proxy discovery: each configured spec (a literal IPv4 address, a
 * two-letter country code or a host name) becomes a set of upstream IPs by
 * repeated, session-scoped DNS queries bounded by a count and a 30 s deadline.
 * The clock (`Date.now()`) and the DNS answers are input streams; a stream that
 * runs dry ends the sampling as well.
 */
module SuperProxy {
  import opened Js

  const DefaultHost := "zproxy.luminati.io"
  const DeadlineMs := 30000

  /** `argv.proxy` as the argument parser leaves it. */
  datatype ProxyArg = Absent | One(spec: string) | Many(specs: seq<string>)

  /** `[].concat(argv.proxy || 'zproxy.luminati.io')` */
  function Specs(arg: ProxyArg): (r: seq<string>)
    ensures arg.Many? ==> r == arg.specs
    ensures arg.Absent? || arg == One("") ==> r == [DefaultHost]
    ensures arg.One? && arg.spec != "" ==> r == [arg.spec]
  {
    match arg
    case Absent => [DefaultHost]
    case One(s) => if s == "" then [DefaultHost] else [s]
    case Many(ss) => ss
  }

  /** The test `/^\d+\.\d+\.\d+\.\d+$/`: four non-empty digit runs joined by dots. */
  predicate IsDottedQuad(s: string)
  {
    var p := Split(s, '.');
    |p| == 4 && forall i :: 0 <= i < 4 ==> p[i] != "" && AllDigits(p[i])
  }

  /** Four digit runs joined by dots pass the test. */
  lemma DottedQuadOf(a: string, b: string, c: string, d: string)
    requires a != "" && b != "" && c != "" && d != ""
    requires AllDigits(a) && AllDigits(b) && AllDigits(c) && AllDigits(d)
    ensures IsDottedQuad(a + "." + b + "." + c + "." + d)
  {
    var parts := [a, b, c, d];
    assert forall i :: 0 <= i < 4 ==> '.' !in parts[i];
    SplitJoin(parts, '.');
    assert parts[1..] == [b, c, d] && parts[1..][1..] == [c, d] && parts[1..][1..][1..] == [d];
    assert Join([d], '.') == d;
    assert Join([c, d], '.') == c + "." + d;
    assert Join([b, c, d], '.') == b + "." + (c + "." + d);
    assert Join(parts, '.') == a + "." + (b + "." + (c + "." + d));
    assert a + "." + (b + "." + (c + "." + d)) == a + "." + b + "." + c + "." + d;
  }

  /** A string passing the test is at least seven characters long ("1.2.3.4"). */
  lemma DottedQuadLength(s: string)
    requires IsDottedQuad(s)
    ensures |s| >= 7
  {
    var p := Split(s, '.');
    JoinSplit(s, '.');
    assert p[1..][1..] == p[2..] && p[2..][1..] == p[3..] && p[3..] == [p[3]];
    assert Join(p[2..], '.') == p[2] + "." + p[3];
    assert Join(p[1..], '.') == p[1] + "." + Join(p[2..], '.');
    assert Join(p, '.') == p[0] + "." + Join(p[1..], '.');
  }

  /** A string passing the test is its four digit runs joined by dots. */
  lemma DottedQuadJoined(s: string)
    requires IsDottedQuad(s)
    ensures var p := Split(s, '.'); s == p[0] + "." + p[1] + "." + p[2] + "." + p[3]
  {
    var p := Split(s, '.');
    JoinSplit(s, '.');
    assert p[1..][1..] == p[2..] && p[2..][1..] == p[3..] && p[3..] == [p[3]];
    assert Join(p[2..], '.') == p[2] + "." + p[3];
    assert Join(p[1..], '.') == p[1] + "." + (p[2] + "." + p[3]);
    assert s == p[0] + "." + (p[1] + "." + (p[2] + "." + p[3]));
  }

  /** What one spec asks of DNS: nothing (a literal IP), or queries built from a prefix and a host. */
  datatype Lookup = Literal(ip: string) | Sample(prefix: string, host: string)

  /**
   * A spec that passes the literal-IP test needs no lookup; otherwise a
   * two-character spec is a country code sampled on the default domain, and
   * anything else is a host name sampled as it is.
   */
  function Classify(spec: string): (r: Lookup)
    ensures r.Literal? <==> IsDottedQuad(spec)
    ensures r.Literal? ==> r.ip == spec
    ensures r.Sample? && |spec| == 2 ==> r.prefix == "servercountry-" + spec + "-" && r.host == DefaultHost
    ensures r.Sample? && |spec| != 2 ==> r.prefix == "" && r.host == spec
  {
    if IsDottedQuad(spec) then Literal(spec)
    else if |spec| == 2 then Sample("servercountry-" + spec + "-", DefaultHost)
    else Sample("", spec)
  }

  /** The name queried at clock reading `t`: `${prefix}session-${t}.${host}`. */
  function QueryDomain(prefix: string, host: string, t: nat): string
  {
    prefix + "session-" + NatToString(t) + "." + host
  }

  /** A query name starts with the prefix and `session-`, and ends with the host after a dot. */
  lemma QueryDomainShape(prefix: string, host: string, t: nat)
    ensures var q := QueryDomain(prefix, host, t);
      && |q| > |prefix| + 8 + |host|
      && q[..|prefix| + 8] == prefix + "session-"
      && q[|q| - |host| - 1..] == "." + host
  {
    var q := QueryDomain(prefix, host, t);
    assert q == (prefix + "session-") + (NatToString(t) + ("." + host));
  }

  /**
   * A two-character spec is a country code, never a literal IP, and its
   * queries go to the default super-proxy domain.
   */
  lemma CountrySpec(spec: string, t: nat)
    requires |spec| == 2
    ensures Classify(spec).Sample?
    ensures var l := Classify(spec);
      QueryDomain(l.prefix, l.host, t)
        == "servercountry-" + spec + "-session-" + NatToString(t) + ".zproxy.luminati.io"
  {
    if IsDottedQuad(spec) {
      DottedQuadLength(spec);
    }
  }

  /** Queries made at different clock readings have different names (the cache-buster). */
  lemma QueryDomainInjective(prefix: string, host: string, t1: nat, t2: nat)
    requires QueryDomain(prefix, host, t1) == QueryDomain(prefix, host, t2)
    ensures t1 == t2
  {
    var p := prefix + "session-";
    var a, b := NatToString(t1), NatToString(t2);
    var x := QueryDomain(prefix, host, t1);
    assert x == p + a + "." + host && x == p + b + "." + host;
    assert |a| == |b|;
    assert a == x[|p|..|p| + |a|];
    assert b == x[|p|..|p| + |b|];
    NatToStringInjective(t1, t2);
  }

  datatype DnsAnswer = Addresses(ips: seq<string>) | DnsError(code: string)

  /** A run ends with the addresses found, or with the error a DNS query raised. */
  datatype Outcome = Resolved(ips: seq<string>) | Failed(code: string)

  predicate NoDup(s: seq<string>)
  {
    forall i, j :: 0 <= i < j < |s| ==> s[i] != s[j]
  }

  function Elems(s: seq<string>): set<string>
  {
    set x | x in s
  }

  lemma ElemsSnoc(s: seq<string>, x: string)
    ensures Elems(s + [x]) == Elems(s) + {x}
  {
  }

  /** The addresses one answer carries. */
  function AnswerIps(a: DnsAnswer): set<string>
  {
    if a.Addresses? then Elems(a.ips) else {}
  }

  /** Every address carried by the first `n` answers. */
  function Received(answers: seq<DnsAnswer>, n: nat): set<string>
    requires n <= |answers|
  {
    if n == 0 then {} else Received(answers, n - 1) + AnswerIps(answers[n - 1])
  }

  lemma {:induction false} DistinctCard(s: seq<string>)
    requires NoDup(s)
    ensures |Elems(s)| == |s|
  {
    if s != [] {
      var init := s[..|s| - 1];
      DistinctCard(init);
      assert s == init + [s[|s| - 1]];
      ElemsSnoc(init, s[|s| - 1]);
      assert s[|s| - 1] !in Elems(init);
    }
  }

  /**
   * The keys of an object after setting each of `ips` on it, in order: a key
   * already present keeps its place, a new one goes to the end.
   */
  function Added(keys: seq<string>, ips: seq<string>): seq<string>
  {
    if ips == [] then keys
    else
      var r := Added(keys, ips[..|ips| - 1]);
      if ips[|ips| - 1] in r then r else r + [ips[|ips| - 1]]
  }

  /** The position of the first occurrence of `x`. */
  function FirstIndex(s: seq<string>, x: string): (i: nat)
    requires x in s
    ensures i < |s| && s[i] == x && x !in s[..i]
  {
    if s[0] == x then 0
    else
      var j := FirstIndex(s[1..], x);
      assert s[..j + 1] == [s[0]] + s[1..][..j];
      j + 1
  }

  lemma FirstIndexSnoc(p: seq<string>, x: string, y: string)
    requires y in p
    ensures FirstIndex(p + [x], y) == FirstIndex(p, y)
  {
    var j := FirstIndex(p, y);
    assert forall k :: 0 <= k < j ==> (p + [x])[k] == p[..j][k];
    FirstIndexUnique(p + [x], y, j);
  }

  lemma FirstIndexLast(p: seq<string>, x: string)
    requires x !in p
    ensures FirstIndex(p + [x], x) == |p|
  {
    FirstIndexUnique(p + [x], x, |p|);
  }

  /** The first occurrence is the one with no earlier occurrence. */
  lemma {:induction false} FirstIndexUnique(s: seq<string>, x: string, i: nat)
    requires i < |s| && s[i] == x && forall k :: 0 <= k < i ==> s[k] != x
    ensures FirstIndex(s, x) == i
  {
    if i > 0 {
      FirstIndexUnique(s[1..], x, i - 1);
    }
  }

  /**
   * Setting the answered IPs on the `hosts` object keeps its keys distinct,
   * keeps the old keys first, and appends exactly the new IPs, each once, in
   * the order of their first occurrence among the answers.
   */
  lemma {:induction false} AddedProps(keys: seq<string>, ips: seq<string>)
    requires NoDup(keys)
    ensures var r := Added(keys, ips);
      && NoDup(r)
      && Elems(r) == Elems(keys) + Elems(ips)
      && |r| >= |keys| && r[..|keys|] == keys
      && (forall k :: |keys| <= k < |r| ==> r[k] !in keys && r[k] in ips)
    ensures var r := Added(keys, ips);
      forall k1, k2 :: |keys| <= k1 < k2 < |r| && r[k1] in ips && r[k2] in ips ==>
        FirstIndex(ips, r[k1]) < FirstIndex(ips, r[k2])
  {
    if ips != [] {
      var p, x := ips[..|ips| - 1], ips[|ips| - 1];
      assert ips == p + [x];
      AddedProps(keys, p);
      var q := Added(keys, p);
      ElemsSnoc(p, x);
      forall y | y in p ensures FirstIndex(ips, y) == FirstIndex(p, y) {
        FirstIndexSnoc(p, x, y);
      }
      if x !in q {
        ElemsSnoc(q, x);
        assert x !in p;
        FirstIndexLast(p, x);
        var r := q + [x];
        assert r[..|keys|] == q[..|keys|];
        forall k | |keys| <= k < |r| ensures r[k] !in keys && r[k] in ips {
          if k < |q| {
            assert r[k] == q[k];
          }
        }
      }
    }
  }

  /** `ips.forEach(ip => hosts[ip] = true)` on the key list of the `hosts` object. */
  method MergeKeys(keys: seq<string>, ips: seq<string>) returns (r: seq<string>)
    requires NoDup(keys)
    ensures r == Added(keys, ips)
    ensures NoDup(r)
    ensures Elems(r) == Elems(keys) + Elems(ips)
    ensures |r| >= |keys| && r[..|keys|] == keys
  {
    r := keys;
    var j := 0;
    while j < |ips|
      invariant 0 <= j <= |ips|
      invariant r == Added(keys, ips[..j])
    {
      assert ips[..j + 1][..j] == ips[..j];
      if ips[j] !in r {
        r := r + [ips[j]];
      }
      j := j + 1;
    }
    assert ips[..j] == ips;
    AddedProps(keys, ips);
  }

  /**
   * Query `k` of a run was issued at clock reading `2k + 2` under its loop test:
   * fewer than `proxyCount` distinct addresses known and the deadline not passed
   * at reading `2k + 1`.
   */
  predicate IssuedInTime(prefix: string, host: string, proxyCount: int, clock: seq<nat>,
                         dns: seq<DnsAnswer>, queries: seq<string>, k: nat)
    requires k < |queries| <= |dns|
  {
    && 2 * k + 2 < |clock|
    && queries[k] == QueryDomain(prefix, host, clock[2 * k + 2])
    && clock[2 * k + 1] - clock[0] < DeadlineMs
    && |Received(dns, k)| < proxyCount
  }

  /** The loop test held, so the next query is issued in time as well. */
  lemma IssueNext(prefix: string, host: string, proxyCount: int, clock: seq<nat>,
                  dns: seq<DnsAnswer>, queries: seq<string>)
    requires |queries| < |dns| && 2 * |queries| + 2 < |clock|
    requires clock[2 * |queries| + 1] - clock[0] < DeadlineMs
    requires |Received(dns, |queries|)| < proxyCount
    requires forall k :: 0 <= k < |queries| ==> IssuedInTime(prefix, host, proxyCount, clock, dns, queries, k)
    ensures var q := queries + [QueryDomain(prefix, host, clock[2 * |queries| + 2])];
      forall k :: 0 <= k < |q| ==> IssuedInTime(prefix, host, proxyCount, clock, dns, q, k)
  {
    var q := queries + [QueryDomain(prefix, host, clock[2 * |queries| + 2])];
    forall k | 0 <= k < |q| ensures IssuedInTime(prefix, host, proxyCount, clock, dns, q, k) {
      if k < |queries| {
        assert IssuedInTime(prefix, host, proxyCount, clock, dns, queries, k);
      }
    }
  }

  /** None of the first `n` answers is an error. */
  predicate AllAnswered(dns: seq<DnsAnswer>, n: nat)
    requires n <= |dns|
  {
    forall k :: 0 <= k < n ==> dns[k].Addresses?
  }

  /** Why a run that issued `n` queries stopped. */
  predicate Stopped(count: int, proxyCount: int, clock: seq<nat>, dns: seq<DnsAnswer>, n: nat)
  {
    || count >= proxyCount
    || (2 * n + 1 < |clock| && clock[2 * n + 1] - clock[0] >= DeadlineMs)
    || 2 * n + 2 >= |clock|
    || n == |dns|
  }

  /**
   * Each of the first `n` queries was issued while the loop test held: a clock
   * reading for it exists, the deadline had not passed and fewer than
   * `proxyCount` distinct addresses were known.
   */
  predicate InTime(proxyCount: int, clock: seq<nat>, dns: seq<DnsAnswer>, n: nat)
    requires n <= |dns|
  {
    forall k :: 0 <= k < n ==>
      2 * k + 2 < |clock| && clock[2 * k + 1] - clock[0] < DeadlineMs && |Received(dns, k)| < proxyCount
  }

  /** What the sampling loop keeps: the known addresses and the queries issued so far. */
  ghost predicate Sampled(prefix: string, host: string, proxyCount: int, clock: seq<nat>,
                          dns: seq<DnsAnswer>, queries: seq<string>, keys: seq<string>)
  {
    && |queries| <= |dns|
    && NoDup(keys)
    && Elems(keys) == Received(dns, |queries|)
    && AllAnswered(dns, |queries|)
    && forall k :: 0 <= k < |queries| ==> IssuedInTime(prefix, host, proxyCount, clock, dns, queries, k)
  }

  /** One turn of the loop: an answer with addresses is merged into the known ones. */
  lemma SampleStep(prefix: string, host: string, proxyCount: int, clock: seq<nat>,
                   dns: seq<DnsAnswer>, queries: seq<string>, keys: seq<string>, merged: seq<string>)
    requires Sampled(prefix, host, proxyCount, clock, dns, queries, keys)
    requires |queries| < |dns| && 2 * |queries| + 2 < |clock|
    requires clock[2 * |queries| + 1] - clock[0] < DeadlineMs && |keys| < proxyCount
    requires dns[|queries|].Addresses?
    requires NoDup(merged) && Elems(merged) == Elems(keys) + Elems(dns[|queries|].ips)
    ensures Sampled(prefix, host, proxyCount, clock, dns, queries + [QueryDomain(prefix, host, clock[2 * |queries| + 2])], merged)
  {
    var n := |queries|;
    DistinctCard(keys);
    IssueNext(prefix, host, proxyCount, clock, dns, queries);
    assert AllAnswered(dns, n + 1) by {
      forall k | 0 <= k < n + 1 ensures dns[k].Addresses? {
        if k < n {
          assert AllAnswered(dns, n);
        }
      }
    }
  }

  /** A turn of the loop whose query is answered with an error ends the run. */
  lemma SampleFail(prefix: string, host: string, proxyCount: int, clock: seq<nat>,
                   dns: seq<DnsAnswer>, queries: seq<string>, keys: seq<string>)
    requires Sampled(prefix, host, proxyCount, clock, dns, queries, keys)
    requires |queries| < |dns| && 2 * |queries| + 2 < |clock|
    requires clock[2 * |queries| + 1] - clock[0] < DeadlineMs && |keys| < proxyCount
    ensures var q := queries + [QueryDomain(prefix, host, clock[2 * |queries| + 2])];
      && |q| <= |dns| && q != [] && dns[|q| - 1] == dns[|queries|]
      && forall k :: 0 <= k < |q| ==> IssuedInTime(prefix, host, proxyCount, clock, dns, q, k)
  {
    DistinctCard(keys);
    IssueNext(prefix, host, proxyCount, clock, dns, queries);
  }

  /**
   * The `while` loop of `resolve_super_proxies` for one spec that needs DNS.
   * `clock` holds the successive values `Date.now()` returns (the first is the
   * start timestamp); `dns` the successive answers of `dns.resolve`.
   */
  method SampleHost(prefix: string, host: string, proxyCount: int, clock: seq<nat>, dns: seq<DnsAnswer>)
    returns (r: Outcome, queries: seq<string>)
    ensures |queries| <= |dns|
    ensures forall k :: 0 <= k < |queries| ==> IssuedInTime(prefix, host, proxyCount, clock, dns, queries, k)
    ensures r.Failed? ==> queries != [] && dns[|queries| - 1] == DnsError(r.code)
    ensures r.Resolved? ==> NoDup(r.ips) && Elems(r.ips) == Received(dns, |queries|)
    ensures r.Resolved? ==> AllAnswered(dns, |queries|)
    ensures r.Resolved? ==> Stopped(|r.ips|, proxyCount, clock, dns, |queries|)
  {
    queries := [];
    if |clock| == 0 {
      return Resolved([]), queries;
    }
    var keys: seq<string> := [];
    var c := 1;
    while |keys| < proxyCount && c < |clock| && clock[c] - clock[0] < DeadlineMs
      && c + 1 < |clock| && |queries| < |dns|
      invariant c == 2 * |queries| + 1
      invariant Sampled(prefix, host, proxyCount, clock, dns, queries, keys)
      decreases |clock| - c
    {
      var answer := dns[|queries|];
      if answer.DnsError? {
        SampleFail(prefix, host, proxyCount, clock, dns, queries, keys);
        queries := queries + [QueryDomain(prefix, host, clock[c + 1])];
        return Failed(answer.code), queries;
      }
      var merged := MergeKeys(keys, answer.ips);
      SampleStep(prefix, host, proxyCount, clock, dns, queries, keys, merged);
      queries := queries + [QueryDomain(prefix, host, clock[c + 1])];
      keys := merged;
      c := c + 2;
    }
    r := Resolved(keys);
  }

  /**
   * What is known of the result for one spec: a literal IP stands for itself;
   * otherwise, for the number `n` of queries the run made, none of them failed,
   * each was issued under the loop test, the addresses are exactly the
   * distinct ones they returned, and the loop had a reason to stop after `n`
   * queries.
   */
  predicate PartOk(spec: string, part: seq<string>, answers: seq<DnsAnswer>, proxyCount: int, clock: seq<nat>)
  {
    && NoDup(part)
    && (IsDottedQuad(spec) ==> part == [spec])
    && (!IsDottedQuad(spec) ==>
          exists n :: 0 <= n <= |answers| && AllAnswered(answers, n) && InTime(proxyCount, clock, answers, n)
                      && Elems(part) == Received(answers, n) && Stopped(|part|, proxyCount, clock, answers, n))
  }

  /**
   * A part is never sampled past `proxyCount`: with one address wanted, a run
   * whose first answer already gave one address cannot report a second.
   */
  lemma PartOkStopsAtCount(spec: string)
    requires !IsDottedQuad(spec)
    ensures !PartOk(spec, ["x", "y"], [Addresses(["x"]), Addresses(["y"])], 1, [0, 0, 0, 0, 0])
  {
    var answers := [Addresses(["x"]), Addresses(["y"])];
    assert Received(answers, 1) == {"x"};
    assert "y" in Elems(["x", "y"]);
    forall n | 0 <= n <= |answers|
      ensures !(InTime(1, [0, 0, 0, 0, 0], answers, n) && Elems(["x", "y"]) == Received(answers, n))
    {
      if n == 2 {
        assert |Received(answers, 1)| == 1;
      }
    }
  }

  /** The per-spec task of `resolve_super_proxies`. */
  method ResolveSpec(spec: string, proxyCount: int, clock: seq<nat>, dns: seq<DnsAnswer>)
    returns (r: Outcome, queries: seq<string>)
    ensures IsDottedQuad(spec) ==> r == Resolved([spec]) && queries == []
    ensures |queries| <= |dns|
    ensures !IsDottedQuad(spec) ==> forall k :: 0 <= k < |queries| ==>
      IssuedInTime(Classify(spec).prefix, Classify(spec).host, proxyCount, clock, dns, queries, k)
    ensures r.Failed? ==> queries != [] && dns[|queries| - 1] == DnsError(r.code)
    ensures r.Resolved? && !IsDottedQuad(spec) ==>
      && NoDup(r.ips)
      && AllAnswered(dns, |queries|)
      && Elems(r.ips) == Received(dns, |queries|)
      && Stopped(|r.ips|, proxyCount, clock, dns, |queries|)
    ensures r.Resolved? ==> PartOk(spec, r.ips, dns, proxyCount, clock)
  {
    if IsDottedQuad(spec) {
      return Resolved([spec]), [];
    }
    var l := Classify(spec);
    r, queries := SampleHost(l.prefix, l.host, proxyCount, clock, dns);
    if r.Resolved? {
      var n := |queries|;
      assert InTime(proxyCount, clock, dns, n) by {
        forall k | 0 <= k < n
          ensures 2 * k + 2 < |clock| && clock[2 * k + 1] - clock[0] < DeadlineMs && |Received(dns, k)| < proxyCount
        {
          assert IssuedInTime(l.prefix, l.host, proxyCount, clock, dns, queries, k);
        }
      }
      assert 0 <= n <= |dns| && AllAnswered(dns, n) && InTime(proxyCount, clock, dns, n) && Elems(r.ips) == Received(dns, n)
             && Stopped(|r.ips|, proxyCount, clock, dns, n);
    }
  }

  function Flatten(parts: seq<seq<string>>): seq<string>
  {
    if parts == [] then [] else Flatten(parts[..|parts| - 1]) + parts[|parts| - 1]
  }

  /** The `i`-th input stream, or an empty one. */
  function StreamAt<T>(streams: seq<seq<T>>, i: nat): seq<T>
  {
    if i < |streams| then streams[i] else []
  }

  /**
   * `resolve_super_proxies`: every spec is sampled with its own clock and DNS
   * streams, `parts` holds the per-spec results `etask.all` collects, and they
   * are concatenated; one failed DNS query makes the whole run fail with that
   * query's error (the first failing spec in list order is reported).
   */
  method ResolveSuperProxies(arg: ProxyArg, proxyCount: int, clocks: seq<seq<nat>>, dns: seq<seq<DnsAnswer>>)
    returns (r: Outcome, parts: seq<seq<string>>)
    ensures r.Resolved? ==> |parts| == |Specs(arg)| && r.ips == Flatten(parts)
    ensures r.Resolved? ==> forall i :: 0 <= i < |parts| ==> PartOk(Specs(arg)[i], parts[i], StreamAt(dns, i), proxyCount, StreamAt(clocks, i))
    ensures r.Failed? ==> exists i :: 0 <= i < |Specs(arg)| && DnsError(r.code) in StreamAt(dns, i)
  {
    var specs := Specs(arg);
    var acc: seq<string> := [];
    parts := [];
    var i := 0;
    while i < |specs|
      invariant 0 <= i <= |specs|
      invariant |parts| == i
      invariant acc == Flatten(parts)
      invariant forall k :: 0 <= k < i ==> PartOk(specs[k], parts[k], StreamAt(dns, k), proxyCount, StreamAt(clocks, k))
    {
      var one, queries := ResolveSpec(specs[i], proxyCount, StreamAt(clocks, i), StreamAt(dns, i));
      if one.Failed? {
        assert DnsError(one.code) in StreamAt(dns, i) by {
          assert StreamAt(dns, i)[|queries| - 1] == DnsError(one.code);
        }
        assert 0 <= i < |Specs(arg)|;
        return one, parts;
      }
      var next := parts + [one.ips];
      assert next[..i] == parts;
      parts := next;
      acc := acc + one.ips;
      i := i + 1;
    }
    r := Resolved(acc);
  }
}
