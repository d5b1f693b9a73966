/**
 * `Lpm_f` from `lib/lpm_f.js`: the proxy manager's client for its cloud
 * control channel. It tracks the state of the websocket link, logs in again
 * after a reconnection, applies the configuration the cloud pushes, and wraps
 * each remote call in its token and connection guards.
 *
 * The remote side is an oracle: every call method takes the `Response` the
 * call gets. Calls that go out are recorded in `sent`, in order.
 */
module LpmF {
  import opened Js

  /** What a remote call yields: nothing (undefined), a timeout, or a reply object. */
  datatype Response =
    | Missing
    | Timeout
    | Reply(err: Val, config: Val, proxies: Val)

  /** An exception a call raises: `new Error(v)`, the call's timeout, or a TypeError. */
  datatype Error = Message(v: Val) | CallTimeout | TypeErr

  /** How a call ends: it returns a value or it throws. */
  datatype Outcome = Done(value: Val) | Thrown(error: Error)

  /** The messages that go out on the channel, with their arguments. */
  datatype Call =
    | Hello
    | ResetAuth
    | Auth(lpmToken: Val)
    | UpdateConf(lpmToken: Val, config: Val, change: Val)
    | GetConf(lpmToken: Val)
    | GetMetaConf(zagent: Val)
    | UpdateStats(lpmToken: Val, stats: Val, uuid: Val)
    | ResolveProxies(limit: int, cn: bool)

  const UnknownErr := Str("unknown err from lpm_f")
  const NotAuthorized := Str("not_authorized")

  /** `v.key` for any value: only an object has fields. */
  function Field(v: Val, key: string): Val
  {
    if v.Obj? then Get(v.fields, key) else Null
  }

  /**
   * The link as `on_connected` and `on_disconnected` see it: the count of
   * failed connections, whether `init` ever got connected, whether the
   * transport is connected, and whether it has been closed for good.
   */
  datatype LinkState = LinkState(errors: nat, everConnected: bool, connected: bool, closed: bool)

  datatype Event = Connected | Disconnected

  /** The state right after `init` creates the transport. */
  const Initial := LinkState(0, false, false, false)

  /**
   * One transport event. A disconnection counts an error and gives up for
   * good on the second failure if `init` never got connected; a connection
   * completes `init`'s wait. A closed transport raises no more events.
   */
  function Step(s: LinkState, e: Event): (r: LinkState)
    ensures e == Disconnected ==> r.errors == s.errors + 1 && !r.connected && r.everConnected == s.everConnected
    ensures e == Disconnected ==> (r.closed <==> s.closed || (r.errors > 1 && !s.everConnected))
    ensures e == Connected && !s.closed ==> r == s.(connected := true, everConnected := true)
    ensures s.closed ==> r.closed
  {
    match e
    case Disconnected =>
      var errors := s.errors + 1;
      s.(errors := errors, connected := false, closed := s.closed || (errors > 1 && !s.everConnected))
    case Connected =>
      if s.closed then s else s.(connected := true, everConnected := true)
  }

  function Run(s: LinkState, es: seq<Event>): LinkState
    decreases es
  {
    if es == [] then s else Run(Step(s, es[0]), es[1..])
  }

  function Disconnects(es: seq<Event>): nat
  {
    if es == [] then 0 else (if es[0] == Disconnected then 1 else 0) + Disconnects(es[1..])
  }

  /** The disconnections before the first connection. */
  function EarlyDisconnects(es: seq<Event>): (n: nat)
    ensures n <= |es|
  {
    if es == [] || es[0] == Connected then 0 else 1 + EarlyDisconnects(es[1..])
  }

  /** Every disconnection counts exactly one error, closed or not. */
  lemma {:induction false} RunErrors(s: LinkState, es: seq<Event>)
    ensures Run(s, es).errors == s.errors + Disconnects(es)
    decreases es
  {
    if es != [] {
      RunErrors(Step(s, es[0]), es[1..]);
    }
  }

  /** A closed link stays closed. */
  lemma {:induction false} RunKeepsClosed(s: LinkState, es: seq<Event>)
    requires s.closed
    ensures Run(s, es).closed
    decreases es
  {
    if es != [] {
      RunKeepsClosed(Step(s, es[0]), es[1..]);
    }
  }

  /** Once `init` got connected, disconnections never close the link. */
  lemma {:induction false} RunNeverGivesUp(s: LinkState, es: seq<Event>)
    requires s.everConnected && !s.closed
    ensures Run(s, es).everConnected && !Run(s, es).closed
    decreases es
  {
    if es != [] {
      RunNeverGivesUp(Step(s, es[0]), es[1..]);
    }
  }

  /**
   * Before `init` gets connected, the link is given up exactly when a
   * disconnection brings the error count above one.
   */
  lemma {:induction false} RunGivesUp(s: LinkState, es: seq<Event>)
    requires !s.everConnected && !s.closed
    ensures Run(s, es).closed <==> EarlyDisconnects(es) >= 1 && s.errors + EarlyDisconnects(es) >= 2
    decreases es
  {
    if es != [] {
      var t := Step(s, es[0]);
      if es[0] == Connected {
        RunNeverGivesUp(t, es[1..]);
      } else if t.closed {
        RunKeepsClosed(t, es[1..]);
      } else {
        RunGivesUp(t, es[1..]);
      }
    }
  }

  /** From a fresh start the channel is given up after two failed connections with no success between. */
  lemma GivesUpAfterTwoFailures(es: seq<Event>)
    ensures Run(Initial, es).closed <==> EarlyDisconnects(es) >= 2
    ensures Run(Initial, es).errors == Disconnects(es)
  {
    RunGivesUp(Initial, es);
    RunErrors(Initial, es);
  }

  /** `login` once its guard passed: `false` on an error reply, the reply's config otherwise. */
  function AuthResult(resp: Response): (r: Outcome)
    ensures resp.Reply? && Truthy(resp.err) ==> r == Done(Bool(false))
    ensures resp.Reply? && !Truthy(resp.err) ==> r == Done(resp.config)
    ensures r.Thrown? <==> !resp.Reply?
  {
    match resp
    case Timeout => Thrown(CallTimeout)
    case Missing => Thrown(TypeErr)
    case Reply(err, config, _) => if Truthy(err) then Done(Bool(false)) else Done(config)
  }

  /** `login` as a whole: undefined, and no call, without a connection or a token. */
  function LoginOutcome(connected: bool, token: Val, resp: Response): (r: Outcome)
    ensures !connected || !Truthy(token) ==> r == Done(Null)
    ensures connected && Truthy(token) ==> r == AuthResult(resp)
  {
    if !connected || !Truthy(token) then Done(Null) else AuthResult(resp)
  }

  /** `update_conf` and `update_stats` after the call: an error reply is raised, anything else is undefined. */
  function WriteResult(resp: Response): (r: Outcome)
    ensures r.Thrown? <==> resp.Timeout? || (resp.Reply? && Truthy(resp.err))
    ensures resp.Reply? && Truthy(resp.err) ==> r == Thrown(Message(resp.err))
    ensures r.Done? ==> r.value == Null
  {
    match resp
    case Timeout => Thrown(CallTimeout)
    case Missing => Done(Null)
    case Reply(err, _, _) => if Truthy(err) then Thrown(Message(err)) else Done(Null)
  }

  /** `get_conf` logs in again when the reply says `not_authorized` and this is not already the retry. */
  predicate Retries(retried: Val, resp: Response)
  {
    !Truthy(retried) && resp.Reply? && resp.err == NotAuthorized
  }

  /**
   * `get_conf` once its guard passed: after a retry the login's config, or
   * `{}`; otherwise the reply's config, or `{}`.
   */
  function GetConfResult(retried: Val, resp: Response, authResp: Response): (r: Outcome)
    ensures r.Done? ==> Truthy(r.value)
    ensures r.Thrown? <==> resp.Timeout? || (Retries(retried, resp) && AuthResult(authResp).Thrown?)
    ensures Retries(retried, resp) && AuthResult(authResp).Done? && Truthy(AuthResult(authResp).value) ==>
              r == AuthResult(authResp)
    ensures Retries(retried, resp) && AuthResult(authResp).Done? && !Truthy(AuthResult(authResp).value) ==>
              r == Done(Obj(map[]))
    ensures !resp.Timeout? && !Retries(retried, resp) && resp.Reply? && Truthy(resp.config) ==> r == Done(resp.config)
    ensures !resp.Timeout? && !Retries(retried, resp) && !(resp.Reply? && Truthy(resp.config)) ==> r == Done(Obj(map[]))
  {
    if resp.Timeout? then Thrown(CallTimeout)
    else if Retries(retried, resp) then
      match AuthResult(authResp)
      case Thrown(e) => Thrown(e)
      case Done(v) => Done(Or(v, Obj(map[])))
    else Done(Or(if resp.Reply? then resp.config else Null, Obj(map[])))
  }

  /** `get_meta_conf` after the call: only a truthy config is returned; otherwise the reply's error, or a generic one. */
  function MetaConfResult(resp: Response): (r: Outcome)
    ensures r.Done? <==> resp.Reply? && Truthy(resp.config)
    ensures r.Done? ==> r.value == resp.config && Truthy(r.value)
    ensures resp.Missing? ==> r == Thrown(Message(UnknownErr))
    ensures resp.Reply? && !Truthy(resp.config) ==> r == Thrown(Message(Or(resp.err, UnknownErr)))
  {
    match resp
    case Timeout => Thrown(CallTimeout)
    case Missing => Thrown(Message(UnknownErr))
    case Reply(err, config, _) => if Truthy(config) then Done(config) else Thrown(Message(Or(err, UnknownErr)))
  }

  /** `resolve_proxies` after the call: the reply's proxies, or `[]` on any failure; it never throws. */
  function ProxiesResult(resp: Response): (r: Outcome)
    ensures r.Done? && Truthy(r.value)
    ensures resp.Reply? && Truthy(resp.proxies) ==> r == Done(resp.proxies)
    ensures !(resp.Reply? && Truthy(resp.proxies)) ==> r == Done(List([]))
  {
    if resp.Reply? && Truthy(resp.proxies) then Done(resp.proxies) else Done(List([]))
  }

  /** The parts of the manager `Lpm_f` reads and writes. */
  class Manager {
    /** `_defaults.lpm_token` */
    const lpmToken: Val
    var configChanges: Dict
    var serverConf: Val
    /** The configurations handed to `apply_cloud_config`, in order. */
    var cloudConfigs: seq<Val>
    /** The zone lists handed to `apply_zones_config`, in order. */
    var zoneConfigs: seq<Val>

    constructor(lpmToken: Val, configChanges: Dict)
      ensures this.lpmToken == lpmToken && this.configChanges == configChanges
      ensures serverConf == Null && cloudConfigs == [] && zoneConfigs == []
    {
      this.lpmToken := lpmToken;
      this.configChanges := configChanges;
      serverConf := Null;
      cloudConfigs := [];
      zoneConfigs := [];
    }

    method ApplyCloudConfig(conf: Val)
      modifies this
      ensures cloudConfigs == old(cloudConfigs) + [conf]
      ensures configChanges == old(configChanges) && serverConf == old(serverConf) && zoneConfigs == old(zoneConfigs)
    {
      cloudConfigs := cloudConfigs + [conf];
    }

    method ApplyZonesConfig(zones: Val)
      modifies this
      ensures zoneConfigs == old(zoneConfigs) + [zones]
      ensures configChanges == old(configChanges) && serverConf == old(serverConf) && cloudConfigs == old(cloudConfigs)
    {
      zoneConfigs := zoneConfigs + [zones];
    }
  }

  class Lpm_f {
    const mgr: Manager
    /** `argv.sync_stats` */
    const syncStats: Val
    /** `argv.zagent` */
    const zagent: Val
    var errors: nat
    var everConnected: bool
    /** Whether `init` has created the transport (`this.ws`). */
    var hasWs: bool
    /** `ws.connected` */
    var wsConnected: bool
    /** Whether `ws.close()` was called: the transport no longer reconnects. */
    var closed: bool
    var uriWs: string
    /** Whether the throttled stats sync was cancelled. */
    var throttleCancelled: bool
    var sent: seq<Call>

    function Link(): LinkState
      reads this
    {
      LinkState(errors, everConnected, wsConnected, closed)
    }

    /** `connected()`: the transport exists and is connected. */
    predicate IsConnected()
      reads this
    {
      hasWs && wsConnected
    }

    constructor(mgr: Manager, syncStats: Val, zagent: Val)
      ensures this.mgr == mgr && this.syncStats == syncStats && this.zagent == zagent
      ensures errors == 0 && !everConnected && !hasWs && !wsConnected && !closed && !throttleCancelled
      ensures sent == []
    {
      this.mgr := mgr;
      this.syncStats := syncStats;
      this.zagent := zagent;
      errors := 0;
      everConnected := false;
      hasWs := false;
      wsConnected := false;
      closed := false;
      uriWs := "";
      throttleCancelled := false;
      sent := [];
    }

    /** The start of `init`: the transport to `zagent75.<api domain>` is created, not yet connected. */
    method Init(apiDomain: string)
      modifies this
      ensures hasWs && uriWs == "ws://zagent75." + apiDomain
      ensures Link() == old(Link()).(connected := false)
      ensures throttleCancelled == old(throttleCancelled) && sent == old(sent)
    {
      uriWs := "ws://zagent75." + apiDomain;
      hasWs := true;
      wsConnected := false;
    }

    /** `login`: authenticate with the manager's token. */
    method Login(resp: Response) returns (r: Outcome)
      modifies this
      ensures r == LoginOutcome(IsConnected(), mgr.lpmToken, resp)
      ensures sent == old(sent) + (if IsConnected() && Truthy(mgr.lpmToken) then [Auth(mgr.lpmToken)] else [])
      ensures Link() == old(Link()) && hasWs == old(hasWs) && throttleCancelled == old(throttleCancelled)
      ensures uriWs == old(uriWs)
    {
      var token := mgr.lpmToken;
      if !IsConnected() || !Truthy(token) {
        return Done(Null);
      }
      sent := sent + [Auth(token)];
      r := AuthResult(resp);
    }

    /**
     * The `connected` event: say hello; on a reconnection log in again and
     * apply the configuration the login returns, if any; on the first
     * connection let `init` finish, which sets `ever_connected`.
     */
    method OnConnected(authResp: Response) returns (r: Outcome)
      requires hasWs && !closed
      modifies this, mgr
      ensures Link() == Step(old(Link()), Connected)
      ensures var login := LoginOutcome(true, mgr.lpmToken, authResp);
        && (!old(everConnected) ==> r == Done(Null) && sent == old(sent) + [Hello])
        && (old(everConnected) ==>
              && sent == old(sent) + [Hello] + (if Truthy(mgr.lpmToken) then [Auth(mgr.lpmToken)] else [])
              && r == (if login.Thrown? then login else Done(Null)))
        && mgr.cloudConfigs == old(mgr.cloudConfigs) +
             (if old(everConnected) && login.Done? && Truthy(login.value) then [login.value] else [])
      ensures mgr.configChanges == old(mgr.configChanges) && mgr.serverConf == old(mgr.serverConf)
      ensures mgr.zoneConfigs == old(mgr.zoneConfigs)
      ensures hasWs && throttleCancelled == old(throttleCancelled) && uriWs == old(uriWs)
    {
      wsConnected := true;
      sent := sent + [Hello];
      if everConnected {
        var auth := Login(authResp);
        if auth.Thrown? {
          return auth;
        }
        if Truthy(auth.value) {
          mgr.ApplyCloudConfig(auth.value);
        }
      } else {
        everConnected := true;
      }
      r := Done(Null);
    }

    /** The `json` event: push messages from the cloud. */
    method OnJson(data: Val)
      modifies mgr
      ensures var msg := Field(data, "msg");
        && mgr.cloudConfigs == old(mgr.cloudConfigs) + (if msg == Str("new_conf") then [Field(data, "new_conf")] else [])
        && mgr.zoneConfigs == old(mgr.zoneConfigs) + (if msg == Str("zones") then [Field(data, "zones")] else [])
        && mgr.serverConf == (if msg == Str("server_conf") then Field(data, "server_conf") else old(mgr.serverConf))
      ensures mgr.configChanges == old(mgr.configChanges)
    {
      if !Truthy(data) || !Truthy(Field(data, "msg")) {
        return;
      }
      var msg := Field(data, "msg");
      if msg == Str("new_conf") {
        mgr.ApplyCloudConfig(Field(data, "new_conf"));
      } else if msg == Str("zones") {
        mgr.ApplyZonesConfig(Field(data, "zones"));
      } else if msg == Str("server_conf") {
        mgr.serverConf := Field(data, "server_conf");
      }
    }

    /** The `disconnected` event. */
    method OnDisconnected()
      modifies this
      ensures Link() == Step(old(Link()), Disconnected)
      ensures hasWs == old(hasWs) && throttleCancelled == old(throttleCancelled) && sent == old(sent)
      ensures uriWs == old(uriWs)
    {
      errors := errors + 1;
      wsConnected := false;
      if errors > 1 && !everConnected {
        closed := true;
      }
    }

    /** `close()`: close the transport if there is one and cancel the throttled stats sync. */
    method Close()
      modifies this
      ensures hasWs == old(hasWs) && throttleCancelled
      ensures old(hasWs) ==> Link() == old(Link()).(connected := false, closed := true)
      ensures !old(hasWs) ==> Link() == old(Link())
      ensures sent == old(sent) && uriWs == old(uriWs)
    {
      if hasWs {
        wsConnected := false;
        closed := true;
      }
      throttleCancelled := true;
    }

    /** `logout`: reset the authentication if connected. */
    method Logout() returns (r: Outcome)
      modifies this
      ensures r == Done(Null)
      ensures sent == old(sent) + (if IsConnected() then [ResetAuth] else [])
      ensures Link() == old(Link()) && hasWs == old(hasWs) && throttleCancelled == old(throttleCancelled)
      ensures uriWs == old(uriWs)
    {
      if IsConnected() {
        sent := sent + [ResetAuth];
      }
      return Done(Null);
    }

    /**
     * `update_conf`: send the configuration with the changes collected so
     * far, which are reset before the call whatever it answers.
     */
    method UpdateConfig(config: Val, resp: Response) returns (r: Outcome)
      modifies this, mgr
      ensures !IsConnected() || !Truthy(mgr.lpmToken) ==>
        r == Done(Null) && sent == old(sent) && mgr.configChanges == old(mgr.configChanges)
      ensures IsConnected() && Truthy(mgr.lpmToken) ==>
        && sent == old(sent) + [UpdateConf(mgr.lpmToken, config, Obj(old(mgr.configChanges)))]
        && mgr.configChanges == map[]
        && r == WriteResult(resp)
      ensures mgr.serverConf == old(mgr.serverConf) && mgr.cloudConfigs == old(mgr.cloudConfigs)
      ensures mgr.zoneConfigs == old(mgr.zoneConfigs)
      ensures Link() == old(Link()) && hasWs == old(hasWs) && throttleCancelled == old(throttleCancelled)
      ensures uriWs == old(uriWs)
    {
      var token := mgr.lpmToken;
      if !IsConnected() || !Truthy(token) {
        return Done(Null);
      }
      var change := Assign(map[], mgr.configChanges);
      assert change == mgr.configChanges;
      mgr.configChanges := map[];
      sent := sent + [UpdateConf(token, config, Obj(change))];
      r := WriteResult(resp);
    }

    /** `get_conf`: fetch the cloud configuration, logging in again at most once. */
    method GetConfig(retried: Val, resp: Response, authResp: Response) returns (r: Outcome)
      modifies this
      ensures !IsConnected() || !Truthy(mgr.lpmToken) ==> r == Done(Null) && sent == old(sent)
      ensures IsConnected() && Truthy(mgr.lpmToken) ==>
        && sent == old(sent) + [GetConf(mgr.lpmToken)] +
             (if Retries(retried, resp) then [Auth(mgr.lpmToken)] else [])
        && r == GetConfResult(retried, resp, authResp)
      ensures Link() == old(Link()) && hasWs == old(hasWs) && throttleCancelled == old(throttleCancelled)
      ensures uriWs == old(uriWs)
    {
      var token := mgr.lpmToken;
      if !IsConnected() || !Truthy(token) {
        return Done(Null);
      }
      sent := sent + [GetConf(token)];
      if resp.Timeout? {
        return Thrown(CallTimeout);
      }
      if !Truthy(retried) && resp.Reply? && resp.err == NotAuthorized {
        var auth := Login(authResp);
        if auth.Thrown? {
          return auth;
        }
        return Done(Or(auth.value, Obj(map[])));
      }
      r := Done(Or(if resp.Reply? then resp.config else Null, Obj(map[])));
    }

    /** `get_meta_conf`: raises `no_lpm_f_conn` without a connection. */
    method GetMetaConfig(resp: Response) returns (r: Outcome)
      modifies this
      ensures !IsConnected() ==> r == Thrown(Message(Str("no_lpm_f_conn"))) && sent == old(sent)
      ensures IsConnected() ==> r == MetaConfResult(resp) && sent == old(sent) + [GetMetaConf(zagent)]
      ensures Link() == old(Link()) && hasWs == old(hasWs) && throttleCancelled == old(throttleCancelled)
      ensures uriWs == old(uriWs)
    {
      if !IsConnected() {
        return Thrown(Message(Str("no_lpm_f_conn")));
      }
      sent := sent + [GetMetaConf(zagent)];
      r := MetaConfResult(resp);
    }

    /** `update_stats`: only when stats sync is on, connected and holding a token. */
    method UpdateStatistics(stats: Val, uuid: Val, resp: Response) returns (r: Outcome)
      modifies this
      ensures !Truthy(syncStats) || !IsConnected() || !Truthy(mgr.lpmToken) ==> r == Done(Null) && sent == old(sent)
      ensures Truthy(syncStats) && IsConnected() && Truthy(mgr.lpmToken) ==>
        r == WriteResult(resp) && sent == old(sent) + [UpdateStats(mgr.lpmToken, stats, uuid)]
      ensures Link() == old(Link()) && hasWs == old(hasWs) && throttleCancelled == old(throttleCancelled)
      ensures uriWs == old(uriWs)
    {
      if !Truthy(syncStats) {
        return Done(Null);
      }
      var token := mgr.lpmToken;
      if !IsConnected() || !Truthy(token) {
        return Done(Null);
      }
      sent := sent + [UpdateStats(token, stats, uuid)];
      r := WriteResult(resp);
    }

    /**
     * `resolve_proxies`: at most 20 proxies, `cn` as a boolean; `[]` on any
     * failure, including the TypeError raised when there is no transport yet.
     */
    method ResolveProxyList(cn: Val, resp: Response) returns (r: Outcome)
      modifies this
      ensures sent == old(sent) + (if hasWs then [ResolveProxies(20, Truthy(cn))] else [])
      ensures r == (if hasWs then ProxiesResult(resp) else ProxiesResult(Missing))
      ensures Link() == old(Link()) && hasWs == old(hasWs) && throttleCancelled == old(throttleCancelled)
      ensures uriWs == old(uriWs)
    {
      if !hasWs {
        return ProxiesResult(Missing);
      }
      sent := sent + [ResolveProxies(20, Truthy(cn))];
      r := ProxiesResult(resp);
    }
  }
}
