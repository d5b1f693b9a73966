/**
 * The live proxy table behind the `/create` and `/delete` API calls of
 * `bin/luminati.js`: the super-proxy list rotated before each creation, the
 * instances registered by port, the per-instance idle timer and its expiry.
 * The forwarding engine itself is an opaque handle: only its port, the
 * options it was started with, its pending idle timer and whether it runs.
 */
module ProxyTable {
  import opened Js
  import Config
  import NetUtil

  /** Node's largest timer delay; anything outside [1, MaxTimerDelay], and NaN, becomes 1 ms. */
  const MaxTimerDelay := 0x7FFF_FFFF

  /** The delay `setTimeout(fn, +timeout)` actually waits. */
  function TimerDelay(timeout: Val): (d: int)
    ensures 1 <= d <= MaxTimerDelay
    ensures NumberOf(timeout).Some? && 1 <= NumberOf(timeout).value <= MaxTimerDelay ==> d == NumberOf(timeout).value
  {
    match NumberOf(timeout)
    case Some(n) => if 1 <= n <= MaxTimerDelay then n else 1
    case None => 1
  }

  /** `+req.body.port||0`: the port asked for, or 0 (any free port). */
  function RequestedPort(body: Dict): (p: int)
    ensures p != 0 <==> NumberOf(Get(body, "port")).Some? && NumberOf(Get(body, "port")).value != 0
  {
    match NumberOf(Get(body, "port"))
    case Some(n) => n
    case None => 0
  }

  /** `hosts.push(hosts.shift())` on a non-empty list: the head moves to the tail. */
  function Rotate(hosts: seq<string>): (r: seq<string>)
    ensures |r| == |hosts|
    ensures hosts != [] ==> r[|r| - 1] == hosts[0] && r[..|r| - 1] == hosts[1..]
  {
    if hosts == [] then [] else hosts[1..] + [hosts[0]]
  }

  /** The rotation neither loses nor duplicates a host. */
  lemma RotatePermutes(hosts: seq<string>)
    ensures multiset(Rotate(hosts)) == multiset(hosts)
  {
    if hosts != [] {
      assert hosts == [hosts[0]] + hosts[1..];
    }
  }

  /** The list after `k` creations. */
  function RotateTimes(hosts: seq<string>, k: nat): seq<string>
  {
    if k == 0 then hosts else Rotate(RotateTimes(hosts, k - 1))
  }

  /** After `k` creations (at most one per host) the first `k` hosts have moved, in order, to the tail. */
  lemma {:induction false} RotateTimesSplit(hosts: seq<string>, k: nat)
    requires k <= |hosts|
    ensures RotateTimes(hosts, k) == hosts[k..] + hosts[..k]
  {
    if k == 0 {
      assert hosts[0..] + hosts[..0] == hosts;
    } else {
      calc {
        RotateTimes(hosts, k);
        Rotate(RotateTimes(hosts, k - 1));
        { RotateTimesSplit(hosts, k - 1); }
        Rotate(hosts[k - 1..] + hosts[..k - 1]);
        { RotateSplitStep(hosts, k); }
        hosts[k..] + hosts[..k];
      }
    }
  }

  lemma RotateSplitStep(hosts: seq<string>, k: nat)
    requires 0 < k <= |hosts|
    ensures Rotate(hosts[k - 1..] + hosts[..k - 1]) == hosts[k..] + hosts[..k]
  {
  }

  /** As many creations as there are hosts bring the list back to where it was. */
  lemma RotateFullCycle(hosts: seq<string>)
    ensures RotateTimes(hosts, |hosts|) == hosts
  {
    RotateTimesSplit(hosts, |hosts|);
    assert hosts[|hosts|..] == [] && hosts[..|hosts|] == hosts;
  }

  /**
   * The rotation on JavaScript values exactly as written: `shift()` of an empty
   * array gives undefined, which `push` then appends.
   */
  function RotateAsWritten(hosts: seq<Val>): (r: seq<Val>)
    ensures hosts == [] ==> r == [Null]
    ensures hosts != [] ==> |r| == |hosts| && r[|r| - 1] == hosts[0]
    ensures forall i :: 0 <= i < |hosts| - 1 ==> r[i] == hosts[i + 1]
  {
    if hosts == [] then [Null] else hosts[1..] + [hosts[0]]
  }

  /** As written, a create with no discovered super proxies hands the engine one undefined super proxy. */
  lemma RotateAsWrittenEmpty()
    ensures RotateAsWritten([]) == [Null]
    ensures Rotate([]) == []
  {
  }

  /** On a non-empty list the written rotation and `Rotate` agree. */
  lemma RotateAsWrittenAgrees(hosts: seq<string>)
    requires hosts != []
    ensures RotateAsWritten(Config.HostsVal(hosts).items) == Config.HostsVal(Rotate(hosts)).items
  {
  }

  /** A started forwarding engine (a `Luminati` server). */
  class Server {
    const port: int
    /** `server.opt`: the options it was started with. */
    const opt: Dict
    const hostname: Val
    /** The delay the `idle` handler arms, or None when no handler was registered. */
    const idleDelay: Option<int>
    /** The deadline of the pending expiry timer, if one is armed. */
    var timer: Option<int>
    var running: bool

    constructor(port: int, opt: Dict, hostname: Val, idleDelay: Option<int>)
      ensures this.port == port && this.opt == opt && this.hostname == hostname && this.idleDelay == idleDelay
      ensures timer.None? && running
    {
      this.port := port;
      this.opt := opt;
      this.hostname := hostname;
      this.idleDelay := idleDelay;
      timer := None;
      running := true;
    }

    /**
     * The `idle` handler: any pending timer is cleared first, and only an
     * `idle == true` event arms a new one. Without a handler nothing happens.
     */
    method OnIdle(idle: bool, now: int)
      modifies this
      ensures running == old(running)
      ensures idleDelay.None? ==> timer == old(timer)
      ensures idleDelay.Some? && !idle ==> timer.None?
      ensures idleDelay.Some? && idle ==> timer == Some(now + idleDelay.value)
    {
      if idleDelay.Some? {
        if timer.Some? {
          timer := None;
        }
        if idle {
          timer := Some(now + idleDelay.value);
        }
      }
    }
  }

  /** `_.omit(body, key)` */
  function Omit(body: Dict, key: string): (r: Dict)
    ensures key !in r && forall k :: k in body && k != key ==> k in r && r[k] == body[k]
    ensures r.Keys == body.Keys - {key}
  {
    body - {key}
  }

  /**
   * What the engine of a `/create` call is started with, given the rotated
   * hosts: its own copy of them as super proxies, never `timeout`, and every
   * unrelated key of the request body unchanged.
   */
  function CreateOptions(credentials: Dict, body: Dict, hosts: seq<string>): (r: Dict)
    ensures Get(r, "proxy") == Config.HostsVal(hosts)
    ensures "timeout" !in credentials ==> "timeout" !in r
    ensures forall k :: k in body && k !in {"proxy", "timeout", "ssl", "direct", "direct_include", "direct_exclude"} ==>
              k in r && r[k] == body[k]
  {
    var conf := Config.CreateProxyConf(Omit(body["proxy" := Config.HostsVal(hosts)], "timeout"));
    CreateConfProps(body, hosts);
    Config.EngineOptions(credentials, conf)
  }

  /** The per-server configuration a `/create` body gives, before the credentials are merged in. */
  lemma CreateConfProps(body: Dict, hosts: seq<string>)
    ensures var conf := Config.CreateProxyConf(Omit(body["proxy" := Config.HostsVal(hosts)], "timeout"));
      && Get(conf, "proxy") == Config.HostsVal(hosts)
      && "timeout" !in conf
      && forall k :: k in body && k !in {"proxy", "timeout", "direct", "direct_include", "direct_exclude"} ==>
           k in conf && conf[k] == body[k]
  {
    var b := Omit(body["proxy" := Config.HostsVal(hosts)], "timeout");
    assert Get(b, "proxy") == Config.HostsVal(hosts);
    assert forall k :: k in body && k !in {"proxy", "timeout"} ==> k in b && b[k] == body[k];
  }

  /** The options of a start-up instance: its own `proxy` setting, or the discovered hosts. */
  lemma StartupOptionsProxy(credentials: Dict, conf: Dict, hosts: seq<string>, ssl: Val, secureProxy: Val)
    ensures Get(Config.EngineOptions(credentials, Config.CreateProxyConf(Config.StartupConf(conf, hosts, ssl, secureProxy))), "proxy")
            == List(Concat(Or(Get(conf, "proxy"), Config.HostsVal(hosts))))
  {
  }

  /** `+ports[i].trim()` for every entry; None is NaN. */
  function PortNumbers(parts: seq<string>): seq<Option<int>>
  {
    seq(|parts|, i requires 0 <= i < |parts| => ToNumber(parts[i]))
  }

  /** The ports the first `n` entries of `/delete` name: entries that are 0 or NaN name none. */
  function Requested(nums: seq<Option<int>>, n: nat): (ports: set<int>)
    requires n <= |nums|
    ensures 0 !in ports
  {
    if n == 0 then {}
    else if nums[n - 1].Some? && nums[n - 1].value != 0 then Requested(nums, n - 1) + {nums[n - 1].value}
    else Requested(nums, n - 1)
  }

  /** `(req.body.port||'').split(',')` for a string or a falsy value. */
  function PortList(arg: Val): (r: seq<string>)
    ensures |r| >= 1 && forall i :: 0 <= i < |r| ==> ',' !in r[i]
    ensures arg.Str? ==> Join(r, ',') == arg.s
    ensures !arg.Str? ==> r == [""]
  {
    if arg.Str? then JoinSplit(arg.s, ','); Split(arg.s, ',') else Split("", ',')
  }

  /** A port is requested exactly when some entry reads as that (non-zero) number. */
  lemma {:induction false} RequestedMembers(nums: seq<Option<int>>, n: nat)
    requires n <= |nums|
    ensures forall x :: x in Requested(nums, n) <==> x != 0 && exists i :: 0 <= i < n && nums[i] == Some(x)
  {
    if n > 0 {
      RequestedMembers(nums, n - 1);
    }
  }

  lemma MinusStep(m: map<int, Server>, r: set<int>, v: int)
    ensures (m - r) - {v} == m - (r + {v})
    ensures v !in m - r ==> m - r == m - (r + {v})
  {
  }

  /** The API's `proxies` object and the super-proxy list it rotates. */
  class Table {
    var hosts: seq<string>
    var proxies: map<int, Server>

    /** Every instance is registered under its own port. */
    ghost predicate Valid()
      reads this
    {
      forall k :: k in proxies ==> proxies[k].port == k
    }

    /** `const proxies = {}` next to the hosts found at start-up. */
    constructor(hosts: seq<string>)
      ensures Valid() && this.hosts == hosts && proxies == map[]
    {
      this.hosts := hosts;
      proxies := map[];
    }

    /**
     * `/create`: rotate the hosts, start an engine on the requested port (0:
     * any) bound to the address of `iface`, and register it under the port it
     * got. `bound` is the port the listen ended on, None when it failed, after
     * which nothing is registered (the rotation has already happened).
     */
    method Create(body: Dict, credentials: Dict, ifaces: map<string, seq<NetUtil.IfaceAddr>>, bound: Option<int>)
      returns (port: Option<int>)
      requires Valid()
      requires bound.Some? && RequestedPort(body) != 0 ==> bound.value == RequestedPort(body)
      modifies this
      ensures Valid()
      ensures hosts == Rotate(old(hosts))
      ensures port == bound
      ensures bound.None? ==> proxies == old(proxies)
      ensures bound.Some? ==>
        var p := bound.value;
        && p in proxies && proxies == old(proxies)[p := proxies[p]]
        && fresh(proxies[p])
        && proxies[p].opt == CreateOptions(credentials, body, hosts)
        && proxies[p].hostname == NetUtil.FindIface(ifaces, Get(body, "iface"))
        && proxies[p].idleDelay == (if Truthy(Get(body, "timeout")) then Some(TimerDelay(Get(body, "timeout"))) else None)
        && proxies[p].timer.None? && proxies[p].running
    {
      hosts := Rotate(hosts);
      var opt := CreateOptions(credentials, body, hosts);
      var hostname := NetUtil.FindIface(ifaces, Get(body, "iface"));
      if bound.None? {
        return None;
      }
      var timeout := Get(body, "timeout");
      var idleDelay := if Truthy(timeout) then Some(TimerDelay(timeout)) else None;
      var server := new Server(bound.value, opt, hostname, idleDelay);
      proxies := proxies[server.port := server];
      port := Some(server.port);
    }

    /** The expiry timer of `s` fires: the engine stops and `proxies[s.port]` goes. */
    method Expire(s: Server)
      requires Valid() && s.timer.Some?
      modifies this, s
      ensures Valid()
      ensures hosts == old(hosts)
      ensures proxies == old(proxies) - {s.port}
      ensures !s.running && s.timer.None?
    {
      s.running := false;
      s.timer := None;
      proxies := proxies - {s.port};
    }

    /** The matching instance of one `/delete` entry: its timer is cleared, it is stopped and removed. */
    method StopAndRemove(key: int)
      requires Valid() && key in proxies
      modifies this, proxies[key]
      ensures Valid() && hosts == old(hosts)
      ensures proxies == old(proxies) - {key}
      ensures !old(proxies)[key].running && old(proxies)[key].timer.None?
    {
      var server := proxies[key];
      if server.timer.Some? {
        server.timer := None;
      }
      server.running := false;
      proxies := proxies - {key};
    }

    /** The loop of `/delete` over the entries, already read as numbers. */
    method RemoveAll(nums: seq<Option<int>>)
      requires Valid()
      modifies this, proxies.Values
      ensures Valid()
      ensures hosts == old(hosts)
      ensures proxies == old(proxies) - Requested(nums, |nums|)
      ensures forall k :: k in old(proxies) && k !in proxies ==> !old(proxies)[k].running && old(proxies)[k].timer.None?
      ensures forall k :: k in proxies ==> unchanged(proxies[k])
    {
      var i := 0;
      while i < |nums|
        invariant 0 <= i <= |nums|
        invariant Valid() && hosts == old(hosts)
        invariant proxies == old(proxies) - Requested(nums, i)
        invariant forall k :: k in old(proxies) && k !in proxies ==> !old(proxies)[k].running && old(proxies)[k].timer.None?
        invariant forall k :: k in proxies ==> unchanged(proxies[k])
      {
        var p := nums[i];
        ghost var done := Requested(nums, i);
        if p.Some? && p.value != 0 {
          assert Requested(nums, i + 1) == done + {p.value};
          MinusStep(old(proxies), done, p.value);
          if p.value in proxies {
            StopAndRemove(p.value);
          }
          assert proxies == old(proxies) - (done + {p.value});
        } else {
          assert Requested(nums, i + 1) == done;
        }
        i := i + 1;
      }
    }

    /**
     * `/delete`: every entry of the comma-separated `port` list that names a
     * registered port has its timer cleared, is stopped and is removed.
     * Entries that are 0 or not a number are skipped and unmatched ports
     * ignored. A `port` that is neither a string nor falsy has no `split`:
     * the call fails and nothing is removed.
     */
    method Delete(portArg: Val) returns (ok: bool)
      requires Valid()
      modifies this, proxies.Values
      ensures Valid()
      ensures hosts == old(hosts)
      ensures ok <==> portArg.Str? || !Truthy(portArg)
      ensures !ok ==> proxies == old(proxies)
      ensures ok ==> proxies == old(proxies) - Requested(PortNumbers(PortList(portArg)), |PortList(portArg)|)
      ensures forall k :: k in old(proxies) && k !in proxies ==> !old(proxies)[k].running && old(proxies)[k].timer.None?
      ensures forall k :: k in proxies ==> unchanged(proxies[k])
    {
      if !portArg.Str? && Truthy(portArg) {
        return false;
      }
      RemoveAll(PortNumbers(PortList(portArg)));
      return true;
    }
  }
}
