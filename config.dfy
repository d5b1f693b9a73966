/**
 * Proxy configurations: config-file entries merged over the command-line
 * defaults, consecutive ports for the entries that have none, the credentials
 * scan, and what `create_proxy` / `create_proxies` do to a configuration before
 * handing it to the forwarding engine.
 */
module Config {
  import opened Js

  /** A config file that `load_config` may read: absent, or the entries `[].concat(JSON.parse(...))` yields. */
  datatype ConfigFile = Missing | Entries(items: seq<Dict>)

  /** `entries.map(conf => assign({}, opts, conf))` */
  function MergeOver(opts: Dict, entries: seq<Dict>): seq<Dict>
  {
    seq(|entries|, k requires 0 <= k < |entries| => Assign(opts, entries[k]))
  }

  /** The entries of the optional default config file followed by those of each file named on the command line. */
  function AllEntries(main: ConfigFile, extra: seq<seq<Dict>>): seq<Dict>
  {
    (if main.Entries? then main.items else []) + FlattenDicts(extra)
  }

  function FlattenDicts(files: seq<seq<Dict>>): seq<Dict>
  {
    if files == [] then [] else files[0] + FlattenDicts(files[1..])
  }

  /**
   * `config = load_config(argv.config, true)`, the files named on the command
   * line appended, and `config.length && config || [opts]`.
   */
  function Assemble(opts: Dict, main: ConfigFile, extra: seq<seq<Dict>>): (r: seq<Dict>)
    ensures AllEntries(main, extra) == [] ==> r == [opts]
    ensures AllEntries(main, extra) != [] ==> |r| == |AllEntries(main, extra)|
    ensures forall k :: 0 <= k < |r| ==> r[k].Keys >= opts.Keys
    ensures var entries := AllEntries(main, extra);
      forall k :: 0 <= k < |r| && entries != [] ==> r[k].Keys == opts.Keys + entries[k].Keys
    ensures var entries := AllEntries(main, extra);
      forall k, key :: 0 <= k < |r| && entries != [] && key in entries[k] ==>
                         key in r[k] && r[k][key] == entries[k][key]
    ensures var entries := AllEntries(main, extra);
      forall k, key :: 0 <= k < |r| && key in opts && (entries == [] || key !in entries[k]) ==>
                         key in r[k] && r[k][key] == opts[key]
  {
    var merged := MergeOver(opts, AllEntries(main, extra));
    if |merged| > 0 then merged else [opts]
  }

  /** `!conf.port` is false */
  predicate HasPort(c: Dict)
  {
    Truthy(Get(c, "port"))
  }

  /** How many of the configs have no port. */
  function CountPortless(cs: seq<Dict>): nat
  {
    if cs == [] then 0 else CountPortless(cs[..|cs| - 1]) + (if HasPort(cs[|cs| - 1]) then 0 else 1)
  }

  /** The k-th config after port assignment: a port-less one gets `base + i` for the i-th port-less config. */
  function WithPort(cs: seq<Dict>, k: nat, base: int): Dict
    requires k < |cs|
  {
    if HasPort(cs[k]) then cs[k] else cs[k]["port" := Num(base + CountPortless(cs[..k]))]
  }

  /**
   * `config.filter(conf => !conf.port).forEach((conf, i) => assign(conf, {port: argv.port + i}))`,
   * mutating the config objects in place.
   */
  method AssignPorts(configs: array<Dict>, base: int)
    modifies configs
    ensures forall k :: 0 <= k < configs.Length ==> configs[k] == WithPort(old(configs[..]), k, base)
  {
    ghost var orig := configs[..];
    var i, next := 0, base;
    while i < configs.Length
      invariant 0 <= i <= configs.Length
      invariant next == base + CountPortless(orig[..i])
      invariant forall k :: 0 <= k < i ==> configs[k] == WithPort(orig, k, base)
      invariant forall k :: i <= k < configs.Length ==> configs[k] == orig[k]
    {
      assert orig[..i + 1][..i] == orig[..i];
      if !HasPort(configs[i]) {
        configs[i] := configs[i]["port" := Num(next)];
        next := next + 1;
      }
      i := i + 1;
    }
  }

  lemma {:induction false} CountPortlessSplit(cs: seq<Dict>, i: nat, j: nat)
    requires i <= j <= |cs|
    ensures CountPortless(cs[..j]) == CountPortless(cs[..i]) + CountPortless(cs[i..j])
  {
    if i < j {
      CountPortlessSplit(cs, i, j - 1);
      assert cs[..j][..j - 1] == cs[..j - 1];
      assert cs[i..j][..j - 1 - i] == cs[i..j - 1];
    } else {
      assert cs[i..j] == [];
    }
  }

  /**
   * The port-less configs receive `base`, `base + 1`, ... in list order: a
   * later one gets a strictly larger port, so no two of them share a port, and
   * configs that had a port keep it.
   */
  lemma AssignedPortsIncrease(cs: seq<Dict>, base: int, k1: nat, k2: nat)
    requires k1 < k2 < |cs|
    requires !HasPort(cs[k1]) && !HasPort(cs[k2])
    ensures WithPort(cs, k1, base)["port"].Num? && WithPort(cs, k2, base)["port"].Num?
    ensures WithPort(cs, k1, base)["port"].n < WithPort(cs, k2, base)["port"].n
  {
    CountPortlessSplit(cs, k1, k2);
    var x := cs[k1..k2];
    CountPortlessSplit(x, 1, |x|);
    assert x[..|x|] == x;
    assert x[..1] == [cs[k1]] && x[..1][..0] == [];
    assert CountPortless(x[..1]) == 1;
  }

  /** `a && b` */
  function And(a: Val, b: Val): (r: Val)
    ensures !Truthy(a) ==> r == a
    ensures Truthy(a) ==> r == b
  {
    if Truthy(a) then b else a
  }

  /** Whether the credential scan has both a customer and a password after reading `cs`. */
  predicate BothKnown(cs: seq<Dict>)
  {
    Truthy(LastTruthy(cs, "customer")) && Truthy(LastTruthy(cs, "password"))
  }

  /** `cred[key] = cs[i][key] || cred[key]` folded over `cs`: the last truthy value, undefined if none. */
  function LastTruthy(cs: seq<Dict>, key: string): (v: Val)
    ensures Truthy(v) <==> exists k :: 0 <= k < |cs| && Truthy(Get(cs[k], key))
    ensures !Truthy(v) ==> v == Null
  {
    if cs == [] then Null
    else
      var rest := LastTruthy(cs[..|cs| - 1], key);
      assert forall k :: 0 <= k < |cs| - 1 ==> cs[..|cs| - 1][k] == cs[k];
      Or(Get(cs[|cs| - 1], key), rest)
  }

  /** A truthy result is the value of the last config that has a truthy one. */
  lemma {:induction false} LastTruthyIsLast(cs: seq<Dict>, key: string)
    ensures Truthy(LastTruthy(cs, key)) ==>
      exists k :: 0 <= k < |cs| && LastTruthy(cs, key) == Get(cs[k], key)
                  && forall j :: k < j < |cs| ==> !Truthy(Get(cs[j], key))
  {
    if cs != [] && !Truthy(Get(cs[|cs| - 1], key)) {
      var init := cs[..|cs| - 1];
      LastTruthyIsLast(init, key);
      if Truthy(LastTruthy(init, key)) {
        var k :| 0 <= k < |init| && LastTruthy(init, key) == Get(init[k], key)
                 && forall j :: k < j < |init| ==> !Truthy(Get(init[j], key));
        assert init[k] == cs[k];
        assert forall j :: k < j < |cs| - 1 ==> init[j] == cs[j];
      }
    }
  }

  /** Reading one more config: its truthy value wins over the ones before. */
  lemma LastTruthyStep(cs: seq<Dict>, i: nat, key: string)
    requires i < |cs|
    ensures LastTruthy(cs[..i + 1], key) == Or(Get(cs[i], key), LastTruthy(cs[..i], key))
  {
    assert cs[..i + 1][..i] == cs[..i];
  }

  function ScanFrom(cs: seq<Dict>, i: nat): (n: nat)
    requires i <= |cs|
    ensures i <= n <= |cs|
    ensures n == |cs| || BothKnown(cs[..n])
    ensures forall m :: i <= m < n ==> !BothKnown(cs[..m])
    decreases |cs| - i
  {
    if i == |cs| || BothKnown(cs[..i]) then i else ScanFrom(cs, i + 1)
  }

  /** How many configs the credentials loop reads before it breaks. */
  function ScanLength(cs: seq<Dict>): (n: nat)
    ensures n <= |cs|
    ensures n == |cs| || BothKnown(cs[..n])
    ensures forall m :: 0 <= m < n ==> !BothKnown(cs[..m])
  {
    ScanFrom(cs, 0)
  }

  /**
   * The loop of `check_credentials`: the customer and password are the last
   * truthy ones among the configs read until both are known; a truthy value on
   * the command line wins over both.
   */
  method ScanCredentials(configs: seq<Dict>, argvCustomer: Val, argvPassword: Val)
    returns (customer: Val, password: Val)
    ensures customer == Or(argvCustomer, LastTruthy(configs[..ScanLength(configs)], "customer"))
    ensures password == Or(argvPassword, LastTruthy(configs[..ScanLength(configs)], "password"))
  {
    customer, password := Null, Null;
    var i := 0;
    while i < |configs|
      invariant 0 <= i <= |configs|
      invariant customer == LastTruthy(configs[..i], "customer")
      invariant password == LastTruthy(configs[..i], "password")
      invariant forall m :: 0 <= m <= i ==> !BothKnown(configs[..m])
    {
      LastTruthyStep(configs, i, "customer");
      LastTruthyStep(configs, i, "password");
      customer := Or(Get(configs[i], "customer"), customer);
      password := Or(Get(configs[i], "password"), password);
      if Truthy(customer) && Truthy(password) {
        assert BothKnown(configs[..i + 1]);
        i := i + 1;
        break;
      }
      i := i + 1;
    }
    assert i == ScanLength(configs);
    customer := Or(argvCustomer, customer);
    password := Or(argvPassword, password);
  }

  /** The `direct` rules object: each truthy raw pattern compiled as a case-insensitive RegExp. */
  function DirectRules(inc: Val, exc: Val): (r: Dict)
    ensures "include" in r <==> Truthy(inc)
    ensures "exclude" in r <==> Truthy(exc)
    ensures "include" in r ==> r["include"] == Pattern(inc)
    ensures "exclude" in r ==> r["exclude"] == Pattern(exc)
    ensures r.Keys <= {"include", "exclude"}
  {
    var withInclude: Dict := if Truthy(inc) then map["include" := Pattern(inc)] else map[];
    if Truthy(exc) then withInclude["exclude" := Pattern(exc)] else withInclude
  }

  /**
   * The configuration rewrite at the top of `create_proxy`: `proxy` becomes an
   * array, and when either raw pattern is truthy the raw fields are replaced by
   * a `direct` rules object.
   */
  function CreateProxyConf(conf: Dict): (r: Dict)
    ensures Get(r, "proxy") == List(Concat(Get(conf, "proxy")))
    ensures var inc, exc := Get(conf, "direct_include"), Get(conf, "direct_exclude");
      (Truthy(inc) || Truthy(exc)) ==>
        && "direct_include" !in r && "direct_exclude" !in r
        && Get(r, "direct") == Obj(DirectRules(inc, exc))
    ensures var inc, exc := Get(conf, "direct_include"), Get(conf, "direct_exclude");
      !(Truthy(inc) || Truthy(exc)) ==> r == conf["proxy" := List(Concat(Get(conf, "proxy")))]
    ensures forall k :: k in conf && k !in {"proxy", "direct", "direct_include", "direct_exclude"} ==> k in r && r[k] == conf[k]
    ensures var inc, exc := Get(conf, "direct_include"), Get(conf, "direct_exclude");
      r.Keys == if Truthy(inc) || Truthy(exc) then conf.Keys + {"proxy", "direct"} - {"direct_include", "direct_exclude"}
                else conf.Keys + {"proxy"}
  {
    var c := conf["proxy" := List(Concat(Get(conf, "proxy")))];
    var inc, exc := Get(conf, "direct_include"), Get(conf, "direct_exclude");
    if Truthy(inc) || Truthy(exc) then
      c["direct" := Obj(DirectRules(inc, exc))] - {"direct_include", "direct_exclude"}
    else c
  }

  /** The TLS material `bin/luminati.js` loads at start-up. */
  const SslMaterial := Opaque("ssl")

  /**
   * The options `new Luminati(...)` receives: the command-line credentials,
   * overridden by the configuration, with `ssl` replaced by the TLS material
   * when the configuration asks for SSL sniffing.
   */
  function EngineOptions(credentials: Dict, conf: Dict): (r: Dict)
    ensures Get(r, "ssl") == And(Get(conf, "ssl"), SslMaterial)
    ensures forall k :: k in conf && k != "ssl" ==> k in r && r[k] == conf[k]
    ensures forall k :: k in credentials && k !in conf && k != "ssl" ==> k in r && r[k] == credentials[k]
    ensures r.Keys == credentials.Keys + conf.Keys + {"ssl"}
  {
    Assign(Assign(credentials, conf), map["ssl" := And(Get(conf, "ssl"), SslMaterial)])
  }

  /** The discovered super proxies as a JavaScript array of strings. */
  function HostsVal(hosts: seq<string>): (v: Val)
    ensures v.List? && |v.items| == |hosts|
    ensures forall i :: 0 <= i < |hosts| ==> v.items[i] == Str(hosts[i])
  {
    List(seq(|hosts|, i requires 0 <= i < |hosts| => Str(hosts[i])))
  }

  /**
   * What `create_proxies` assigns to each start-up configuration before
   * `create_proxy`: the discovered super proxies unless the configuration names
   * its own, and the command-line `ssl` and `secure_proxy` settings.
   */
  function StartupConf(conf: Dict, hosts: seq<string>, ssl: Val, secureProxy: Val): (r: Dict)
    ensures Get(r, "proxy") == Or(Get(conf, "proxy"), HostsVal(hosts))
    ensures Get(r, "ssl") == ssl && Get(r, "secure_proxy") == secureProxy
    ensures forall k :: k in conf && k !in {"proxy", "ssl", "secure_proxy"} ==> k in r && r[k] == conf[k]
    ensures r.Keys == conf.Keys + {"proxy", "ssl", "secure_proxy"}
  {
    Assign(conf, map["proxy" := Or(Get(conf, "proxy"), HostsVal(hosts)), "ssl" := ssl, "secure_proxy" := secureProxy])
  }
}
