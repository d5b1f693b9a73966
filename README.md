# Luminati proxy manager: a Dafny model of its core

The Luminati proxy manager is a Node.js program that starts local HTTP(S)
forwarding proxies in front of Luminati's "super proxies". This project models
two parts of it and proves properties of the model.

The first part is the start-up and control logic of `bin/luminati.js`:

- super-proxy discovery: literal IPs, two-letter country codes and host names become upstream IPs through session-scoped DNS queries, bounded by a count and a 30 s deadline;
- configuration assembly: config-file entries are merged over the command-line defaults, and consecutive ports go to the entries that have none;
- the credentials scan;
- the rewrite a configuration gets before it reaches the forwarding engine: the `direct_include`/`direct_exclude` patterns and the default `proxy` list;
- the live proxy table behind `/create` (rotation of the super-proxy list, registration by port, the per-instance idle timer) and `/delete`;
- the SOCKS front end (`local:remote`, plain HTTP redirected, HTTPS tunnelled with a `CONNECT` preamble);
- small helpers: `dot2num`, `find_iface`, the `--resolve <file>` reverse-DNS table and its lookup, and the SQLite schema statements.

The second part, `lib/lpm_f.js`, is the client of the cloud control channel (`Lpm_f`). It tracks the state of the websocket link, gives up after two failed first connections, and logs in again after a reconnection. It applies the configuration the cloud pushes, and wraps each remote call in its token and connection guards.

Files:

- `js.dfy` (module `Js`): the slice of JavaScript value semantics both programs rely on. Values, truthiness, `||`, `Object.assign`, `trim`, `split`/`join`, and `Number()` on strings.
- `super_proxy.dfy` (`SuperProxy`): the `resolve_super_proxies` loop. `Date.now()` and the DNS answers are input streams.
- `config.dfy` (`Config`): `load_config` and port assignment (an in-place loop over an `array`), `check_credentials`, and the conversions in `create_proxy` and `create_proxies`.
- `net_util.dfy` (`NetUtil`): `dot2num`, `find_iface`, and the reverse-DNS file parser and lookup.
- `schema.dfy` (`Schema`): the statements `prepare_database` builds.
- `proxy_table.dfy` (`ProxyTable`): the `proxies` table of the API as a class, with its engines as objects whose timer and running state change in place.
- `socks.dfy` (`Socks`): the SOCKS connection handler and argument split.
- `lpm_f.dfy` (`LpmF`): the link as a pure state machine, the results of the remote calls as pure functions, and the `Lpm_f` class with the part of its manager it touches (`Manager`).

Two behaviours of the program are easy to miss:

- `resolve_super_proxies` does not catch a DNS error raised while sampling a spec, so one failing spec fails the whole discovery.
- `/create` has no in-use check of its own. Whether the requested port is free is decided by the engine's `listen`, which is the `bound` parameter of `ProxyTable.Table.Create`.

## Model

| member | source | states |
|---|---|---|
| SuperProxy.Specs | bin/luminati.js:271 | With no `--proxy`, or an empty one, the single spec is `zproxy.luminati.io`. One spec becomes a one-element list, and a list is taken as given. |
| SuperProxy.DottedQuadOf | bin/luminati.js:273 | Four non-empty digit runs joined by dots pass the literal-IP test. |
| SuperProxy.DottedQuadJoined | bin/luminati.js:273 | A string that passes the test is its four digit runs joined by dots, so the test accepts exactly the strings the pattern describes. |
| SuperProxy.DottedQuadLength | bin/luminati.js:273-279 | A literal IP has at least seven characters, so a two-letter country code is never mistaken for one. |
| SuperProxy.Classify | bin/luminati.js:273-283 | A spec is a literal exactly when it passes the IP test, and then stands for itself. Any other two-character spec samples the default domain with the `servercountry-<cc>-` prefix. Anything else is sampled as a host name with no prefix. |
| SuperProxy.QueryDomainShape | bin/luminati.js:289 | A query name starts with the prefix and `session-`, and ends with a dot and the host. |
| SuperProxy.CountrySpec | bin/luminati.js:278-283 | A two-character spec always samples the default domain with the `servercountry-<cc>-` prefix, and its query name is `servercountry-<cc>-session-<t>.zproxy.luminati.io`. |
| SuperProxy.QueryDomainInjective | bin/luminati.js:289 | Queries at different clock readings have different names, so each query is a fresh session that no cache answers. |
| SuperProxy.MergeKeys | bin/luminati.js:292 | Adding the answered IPs to the `hosts` object is `Added`: the result has no duplicates, the old keys come first and in order, and the key set is the old keys plus the new IPs. |
| SuperProxy.AddedProps | bin/luminati.js:292 | Only IPs that were not yet keys are appended, each once, in the order of their first occurrence in the answer. Nothing else is added. |
| SuperProxy.IssueNext | bin/luminati.js:286-290 | When the loop test holds, the next query is issued under the count bound and the 30 s deadline, like every earlier one. |
| SuperProxy.SampleHost | bin/luminati.js:284-294 | Every query was issued while fewer than `proxy_count` distinct IPs were known and within 30 s of the start. A failed query ends the run with its error. Otherwise the result is exactly the distinct IPs received, and the loop stopped because the count was reached, the deadline passed, or an input ran dry. |
| SuperProxy.ResolveSpec | bin/luminati.js:272-295 | A literal IP resolves to itself with no query. Any other spec gets the sampling guarantees under its classified prefix and host. |
| SuperProxy.ResolveSuperProxies | bin/luminati.js:270-297 | On success the result is the concatenation, in spec order, of one part per spec. A literal spec's part is the spec itself. Any other part is duplicate-free and equals the union of the answers of that spec's first `n` queries for some `n`. None of those queries failed, and each was issued under the loop test: a clock reading existed for it, the deadline had not passed, and fewer than `proxy_count` distinct IPs were known. After the `n`-th query the loop had a reason to stop: enough IPs, the deadline, or a stream running dry. On failure the error is one that some spec's DNS stream returned. |
| SuperProxy.PartOkStopsAtCount | bin/luminati.js:286-287 | A part sampled past `proxy_count` is rejected by the per-spec guarantee: with one IP wanted, a run whose first answer already gave one IP cannot report a second. |
| Config.Assemble | bin/luminati.js:164-173 | Without entries the configuration is `[opts]`. Otherwise there is one config per entry in file order. Each holds every option and every key of its entry, and no other key, with the entry's own values winning. |
| Config.AssignPorts | bin/luminati.js:174-175 | Configs with a truthy port keep it. The i-th port-less config is given `argv.port + i`, in place, and nothing else changes. |
| Config.AssignedPortsIncrease | bin/luminati.js:174-175 | Two port-less configs get numeric ports that increase with list position, so no two get the same port. |
| Config.LastTruthy | bin/luminati.js:192-193 | The folded credential is truthy exactly when some scanned config has a truthy value for it, and is undefined otherwise. |
| Config.LastTruthyIsLast | bin/luminati.js:192-193 | A truthy credential is the value of some config, and no later config has a truthy value for it: the last truthy value wins. |
| Config.LastTruthyStep | bin/luminati.js:192-193 | Reading one more config, its truthy value replaces the one found so far, and a falsy one keeps it. |
| Config.ScanLength | bin/luminati.js:190-196 | The loop reads configs until both the customer and the password are known, and stops at the first such point. |
| Config.ScanCredentials | bin/luminati.js:189-198 | The credentials are the last truthy values among the configs read before the break. A truthy command-line value overrides them. |
| Config.DirectRules | bin/luminati.js:303-307 | There is an `include` rule exactly when `direct_include` is truthy, and an `exclude` rule exactly when `direct_exclude` is. Each rule holds its raw pattern and there are no other keys. |
| Config.CreateProxyConf | bin/luminati.js:300-310 | `proxy` is always an array. When a direct pattern is set, the raw pattern fields are replaced by a `direct` rules object. Otherwise only `proxy` changes. Every unrelated key is kept, and the key set is exactly the old keys with those changes. |
| Config.EngineOptions | bin/luminati.js:311-312 | The engine gets the configuration over the command-line credentials. `ssl` is the TLS material when SSL is asked for, and the falsy setting otherwise. The keys are those of the credentials and the configuration, plus `ssl`. |
| Config.StartupConf | bin/luminati.js:331-335 | A start-up config keeps its own `proxy` if it has one and otherwise gets the discovered hosts. The command-line `ssl` and `secure_proxy` are imposed, and every other key is kept. Those three are the only keys added. |
| NetUtil.Octets | bin/luminati.js:139-142 | The four base-256 digits recombine to the number, and are each below 256 for a 32-bit number. |
| NetUtil.Dot2NumDefined | bin/luminati.js:139-142 | `dot2num` is a number exactly when the string has at least four dot-separated parts and the first four read as numbers. Parts after the fourth are ignored. |
| NetUtil.Octets2Num | bin/luminati.js:141 | The combination of four readings is NaN exactly when one of them is, and is never negative otherwise. |
| NetUtil.Dot2NumOfNum2Dot | bin/luminati.js:139-142 | `dot2num` inverts the dotted-quad printing of every 32-bit value (the model's numbers are unbounded; see "## Left out" for JavaScript's doubles). |
| NetUtil.FirstIPv4 | bin/luminati.js:150-152 | None exactly when the interface has no IPv4 address. Otherwise the address of the first IPv4 entry. |
| NetUtil.FindIface | bin/luminati.js:144-155 | The result differs from the argument only when it names an interface with an IPv4 address, and is then that interface's first IPv4 address. |
| NetUtil.ParseResolveLine | bin/luminati.js:110-112 | An accepted line yields a dotted-quad IP and a non-empty name without white space. |
| NetUtil.ParseResolveLineExact | bin/luminati.js:110 | A line yields `(ip, name)` if and only if it is laid out as the pattern reads it. That is optional white space, a dotted-quad IP, at least one white-space character, then a name with no white space followed by the end of the line or white space. |
| NetUtil.ParsedLayout | bin/luminati.js:110 | Every accepted line is laid out as its entry: the IP and the name sit in the line where the pattern captures them. |
| NetUtil.LayoutParsed | bin/luminati.js:110 | Every line with that layout is accepted, and yields exactly that IP and name. |
| NetUtil.ParseFormattedLine | bin/luminati.js:110 | A line `<ip> <name>` is accepted and yields exactly that entry. |
| NetUtil.LoadStep | bin/luminati.js:111-114 | Storing one matched line, or skipping an unmatched one, keeps the table equal to "last listed name per IP". |
| NetUtil.StoreEntries | bin/luminati.js:109-115 | After the loop the table maps every listed IP to the name of the last line listing it, and holds nothing else. |
| NetUtil.LoadResolveFile | bin/luminati.js:108-115 | The table built from a file holds exactly the last listed name of every IP the file lists. |
| NetUtil.ResolveName | bin/luminati.js:116 | An unlisted IP resolves to itself, and a listed one with a non-empty name to that name. |
| NetUtil.ResolveListed | bin/luminati.js:108-116 | For a table loaded from a file, an IP resolves to the last name the file gives it, or to itself when unlisted. |
| NetUtil.LastNameNonEmpty | bin/luminati.js:110-116 | A name taken from the file is never empty, so the lookup never falls back to the IP for a listed IP. |
| Schema.Columns | bin/luminati.js:239-255 | One column definition per field, in field order. |
| Schema.ColumnDef | bin/luminati.js:242-255 | A column definition starts with the field name and a space. |
| Schema.IndexQuery | bin/luminati.js:258-260 | An index statement ends with the indexed field in parentheses after the table name. |
| Schema.TableQueries | bin/luminati.js:236-264 | The statements built for one table are its `CREATE TABLE` over all column definitions, followed by the index statements. |
| Schema.IndexesExact | bin/luminati.js:256-261 | There is one index statement per indexed non-primary column. Each such column has its statement, and each statement belongs to one. |
| Schema.TableSchemaShape | bin/luminati.js:263-264 | `CREATE TABLE` comes first, and the rest are the indexes of the indexed columns. |
| Schema.IpSchema | bin/luminati.js:218-221 | The `ip` table gets no index statement at all. |
| Schema.RequestIndexes | bin/luminati.js:222-234 | The `request` table gets exactly four non-unique indexes: `status_code`, `timestamp`, `elapsed`, `content_size`, in that order. |
| ProxyTable.TimerDelay | bin/luminati.js:380-383 | The idle timer always waits between 1 ms and 2^31-1 ms, and a timeout in that range is used as given. |
| ProxyTable.RequestedPort | bin/luminati.js:368 | A non-zero port is requested exactly when `port` reads as a non-zero number. |
| ProxyTable.Rotate | bin/luminati.js:365 | The rotation keeps the length and moves the head to the tail, the rest keeping its order. |
| ProxyTable.RotatePermutes | bin/luminati.js:365 | The rotation is a permutation: no host is lost or duplicated. |
| ProxyTable.RotateTimesSplit | bin/luminati.js:365 | After k creations the first k hosts have moved, in order, to the end. |
| ProxyTable.RotateFullCycle | bin/luminati.js:365 | As many creations as hosts restore the original order, so successive creations cycle through every super proxy. |
| ProxyTable.RotateAsWritten | bin/luminati.js:365 | As written, the rotation of an empty list is `[undefined]`. Otherwise it keeps the length, the old head is last, and the others move up one place. |
| ProxyTable.RotateAsWrittenEmpty | bin/luminati.js:365 | As written, rotating an empty list yields one undefined host, whereas the intended rotation keeps it empty. |
| ProxyTable.RotateAsWrittenAgrees | bin/luminati.js:365 | On a non-empty list the rotation as written and the corrected one agree. |
| ProxyTable.Server.OnIdle | bin/luminati.js:372-384 | Any pending timer is cleared, and only an idle event arms one, due after the recorded delay. Without a handler nothing changes. |
| ProxyTable.Omit | bin/luminati.js:367 | The key is gone, every other key is kept with its value, and nothing is added. |
| ProxyTable.CreateOptions | bin/luminati.js:365-367 | The engine of a `/create` gets the rotated hosts as its super proxies, and never sees `timeout` unless the credentials hold one. Every unrelated key of the request body reaches it unchanged. |
| ProxyTable.CreateConfProps | bin/luminati.js:366-367 | The per-server configuration of a `/create` has the hosts as its `proxy`, has no `timeout`, and keeps every unrelated body key. |
| ProxyTable.StartupOptionsProxy | bin/luminati.js:330-336 | A start-up engine's super proxies are its own `proxy` setting as an array, or the discovered hosts. |
| ProxyTable.Requested | bin/luminati.js:399-401 | Port 0 is never requested. |
| ProxyTable.PortList | bin/luminati.js:396 | The `/delete` list is never empty, and its entries hold no commas. A string argument is the list joined by commas again, and a falsy one gives the single entry `""`. |
| ProxyTable.RequestedMembers | bin/luminati.js:396-401 | A port is requested exactly when it is non-zero and some entry reads as it. |
| ProxyTable.Table.constructor | bin/luminati.js:349 | The table starts empty. |
| ProxyTable.Table.Create | bin/luminati.js:357-386 | The hosts are rotated first, with the corrected rotation `Rotate` (see "## Findings"). When the listen fails, nothing is registered. Otherwise exactly one new engine is registered under the port it got, holding the create options, the interface address and the idle delay iff a timeout was given. It runs with no timer pending, and the table invariant (every entry under its own port) is kept. |
| ProxyTable.Table.Expire | bin/luminati.js:380-383 | When the idle timer fires, that engine stops and only its entry leaves the table. |
| ProxyTable.Table.StopAndRemove | bin/luminati.js:404-411 | A matched instance has its timer cleared, is stopped, and only its entry is removed. |
| ProxyTable.Table.RemoveAll | bin/luminati.js:397-413 | After the loop the table is the old table minus the requested ports. Every removed engine is stopped with no timer pending, and every kept engine is untouched. |
| ProxyTable.Table.Delete | bin/luminati.js:388-415 | The call succeeds iff `port` is a string or falsy, and a failed call removes nothing. On success exactly the registered ports named by the comma-separated list are removed and stopped, and nothing else changes. |
| Socks.Dispatch | bin/luminati.js:492-518 | Port 80 is redirected to the local proxy on `remote`. Port 443 is tunnelled through `127.0.0.1:remote` with a CONNECT for the original destination, leaving the destination intact. Any other port is accepted untouched. |
| Socks.ConnectPreamble | bin/luminati.js:506-508 | The preamble starts with `CONNECT ` and ends with the blank line that closes the request head. |
| Socks.PreambleJoined | bin/luminati.js:506-508 | The preamble is its request line, its Host header and an empty line, joined by line feeds. |
| Socks.PreambleLines | bin/luminati.js:506-508 | The preamble is a CONNECT request line and a matching Host header for `addr:port`, then the blank line ending the head. |
| Socks.SocksPorts | bin/luminati.js:545-546 | A string argument without a colon is read whole as the local port, and the remote port is NaN. |
| Socks.SocksPortsAtColon | bin/luminati.js:545-546 | With a colon, the local port is the number before the first colon, and the remote port is the number after it, up to the next colon if there is one. |
| Socks.SocksPortsOfPair | bin/luminati.js:545-546 | `local:remote` written with two numbers reads back as those two numbers. |
| LpmF.Step | lib/lpm_f.js:86-94 | A disconnection counts one error, and closes the link exactly when the count passes one while never connected. A connection marks the link connected, and as connected once (`init` lines 54-55). A closed link stays closed. |
| LpmF.RunErrors | lib/lpm_f.js:88 | Over any event sequence the error count grows by exactly the number of disconnections. |
| LpmF.RunKeepsClosed | lib/lpm_f.js:92 | Once closed, the link stays closed whatever happens. |
| LpmF.RunNeverGivesUp | lib/lpm_f.js:89 | After one successful connection no number of disconnections closes the link. |
| LpmF.RunGivesUp | lib/lpm_f.js:86-94 | Before the first connection the link closes under a sequence iff a disconnection comes before any connection and the errors then exceed one. |
| LpmF.GivesUpAfterTwoFailures | lib/lpm_f.js:86-94 | From a fresh start the link is given up iff two disconnections precede the first connection, and the error count is the number of disconnections. |
| LpmF.AuthResult | lib/lpm_f.js:112-119 | An error reply makes `login` return `false`, and a successful reply returns its config. It throws iff the call gave no reply. |
| LpmF.LoginOutcome | lib/lpm_f.js:104-120 | Without a connection or a token `login` returns undefined. Otherwise it returns the authentication result. |
| LpmF.WriteResult | lib/lpm_f.js:139-140 | `update_conf`/`update_stats` throw iff the call timed out or the reply carries an error, which is then raised. Otherwise they return undefined. |
| LpmF.GetConfResult | lib/lpm_f.js:147-153 | `get_conf` never returns a falsy value. A `not_authorized` first attempt returns the login's config when it is truthy and `{}` when it is falsy, and throws only when the login throws. Otherwise a truthy config is returned as is, and anything else gives `{}`. A timeout throws. |
| LpmF.MetaConfResult | lib/lpm_f.js:159-162 | `get_meta_conf` returns only a truthy config. Otherwise it throws the reply's error, or `unknown err from lpm_f`. |
| LpmF.ProxiesResult | lib/lpm_f.js:183-193 | `resolve_proxies` never throws and never returns a falsy value: the reply's proxies, or `[]`. |
| LpmF.Lpm_f.constructor | lib/lpm_f.js:17-23 | A new client has no errors, never connected, and has no transport. |
| LpmF.Lpm_f.Init | lib/lpm_f.js:24-26 | The transport to `ws://zagent75.<api domain>` exists and is not connected yet. |
| LpmF.Lpm_f.Login | lib/lpm_f.js:104-120 | The auth call goes out only when connected with a token, and the result is `LoginOutcome`. The link is untouched. |
| LpmF.Lpm_f.OnConnected | lib/lpm_f.js:57-71 | The link takes a `Connected` step and hello is sent. Only on a reconnection the client logs in again and applies a truthy login config; a throwing login is passed on. |
| LpmF.Lpm_f.OnJson | lib/lpm_f.js:72-85 | `new_conf` applies a cloud config, `zones` a zones config, and `server_conf` replaces the server configuration. Any other message changes nothing. |
| LpmF.Lpm_f.OnDisconnected | lib/lpm_f.js:86-94 | The link takes a `Disconnected` step and nothing is sent. |
| LpmF.Lpm_f.Close | lib/lpm_f.js:95-100 | An existing transport is closed for good, and the throttled stats sync is cancelled. |
| LpmF.Lpm_f.Logout | lib/lpm_f.js:121-126 | `reset_auth` is sent iff connected, and the link is untouched. |
| LpmF.Lpm_f.UpdateConfig | lib/lpm_f.js:127-141 | When connected with a token, the collected changes are sent with the config and reset to `{}` whatever the reply, and the result is `WriteResult`. Otherwise nothing is sent or reset. |
| LpmF.Lpm_f.GetConfig | lib/lpm_f.js:142-154 | When connected with a token, `get_conf` is sent, plus one auth call exactly when it retries, and the result is `GetConfResult`. Otherwise undefined. |
| LpmF.Lpm_f.GetMetaConfig | lib/lpm_f.js:155-163 | Without a connection it throws `no_lpm_f_conn` and sends nothing. Otherwise it sends the zagent query and the result is `MetaConfResult`. |
| LpmF.Lpm_f.UpdateStatistics | lib/lpm_f.js:164-181 | Stats are sent only when sync is on, connected and holding a token, and the result is `WriteResult`. Otherwise undefined and nothing sent. |
| LpmF.Lpm_f.ResolveProxyList | lib/lpm_f.js:182-194 | A query for at most 20 proxies, with `cn` as a boolean, goes out whenever the transport exists. The result is always `ProxiesResult`, which is `[]` without a transport. |

## Left out

- The `dns.reverse` variant of `--resolve` (`bin/luminati.js:100-104`): it is a live DNS query with no logic beyond picking the first name.
- Reading files, `os.networkInterfaces()`, `Date.now()`, DNS answers and timer callbacks: these are parameters and input streams (the parsed config entries, the file's lines, the interface table, the clock and answer streams, `now`, `Expire` as an event).
- `JSON.parse` failures and a missing mandatory config file, which stop the program: they are not modelled.
- `Number()` reads only trimmed decimal digits (and "" as 0). Hex, exponent, sign and fraction forms are NaN in the model, so a `/delete` entry such as `0x1F90` is skipped where JavaScript would read 8080.
- `null` and `undefined` are one value, `Null`. `+null` (0 in JavaScript) is NaN in the model. No code path modelled here converts a `null` differently from `undefined` in a way that matters.
- RegExp compilation: a `direct` rule keeps its raw pattern, and a syntax error in the pattern is not modelled.
- Concurrency: the per-spec DNS tasks of `resolve_super_proxies` run one after another, each on its own streams. The result order (spec order) is the same. Which spec's error is reported when several fail is not modelled by timing.
- SuperProxy.ResolveSuperProxies: on failure it states that the error is one a spec's DNS stream returned, not which spec's.
- ProxyTable.Table.Create, ProxyTable.Table.Expire, ProxyTable.Table.StopAndRemove, ProxyTable.Table.RemoveAll, ProxyTable.Table.Delete: each is one atomic step. The source suspends at `yield create_proxy(...)` (`bin/luminati.js:367`), at `yield server.stop()` in the expiry task (`381`) and at each `yield server.stop()` of the `/delete` loop (`409`). Another `/create`, `/delete` or an engine's `idle` event that re-arms or clears a timer can run in between. That interleaving is not modelled.
- LpmF.Lpm_f.GetConfig: the call is one atomic step, but the source suspends at `get_conf` and again at the retried `login` (`lib/lpm_f.js:147`, `150`). A disconnection in between makes that `login` return undefined without an auth call, so `get_conf` returns `{}`. The model takes the connection state of the start of the call for the whole call.
- LpmF.Lpm_f.Login, LpmF.Lpm_f.OnConnected, LpmF.Lpm_f.Logout, LpmF.Lpm_f.UpdateConfig, LpmF.Lpm_f.GetMetaConfig, LpmF.Lpm_f.UpdateStatistics, LpmF.Lpm_f.ResolveProxyList: likewise atomic. Events that the source can handle while one of them waits on its IPC reply (`lib/lpm_f.js:63-68`, `112`, `125`, `134`, `159`, `174`, `187`) are not interleaved with it.
- Socks.SocksPorts: it takes a string. `argv.socks` may also hold a non-string, such as a number from the argument parser, and then `ports.split` (`bin/luminati.js:545`) throws. That case is not modelled.
- Js.NumberOf: an array converts to NaN in the model, where JavaScript converts `+[]` to 0 and `+["8080"]` to 8080.
- Js.NatToString: it prints every natural number in plain decimal. JavaScript switches to exponent notation from 1e21 on, which no port or clock value reaches.
- NetUtil.Dot2Num: numbers are unbounded integers. JavaScript numbers are doubles, exact only below 2^53, so above that `dot2num` (`bin/luminati.js:139-142`) no longer inverts the printing; a 32-bit address never gets there.
- ProxyTable.Table.Create: uses the corrected rotation `Rotate`. On an empty host list the source (`bin/luminati.js:365`) makes it `[undefined]` and passes that to the engine as its super proxies (`367`); the model keeps `[]`. `ProxyTable.RotateAsWritten` models the source's behaviour.
- SuperProxy.Classify: strings are sequences of code points. JavaScript's `host.length` (`bin/luminati.js:278`) counts UTF-16 units, so a single character outside the Basic Multilingual Plane counts as a two-character country code there but not in the model.
- The second read of `Date.now()` for the query name is a separate clock sample (the even readings). Its relation to the deadline reading is not constrained beyond coming after it.
- The SQLite connection, the statement execution (`bin/luminati.js:265-266`), the history insert on each response (`313-324`), `/block`, `/stats`, `/creds`, `/version`, the web interface, the credentials prompt, signal handling and the console messages: I/O with no logic of the core's own.
- The engine (`Luminati`) is an opaque object. Its `listen` result is the `bound` parameter of `ProxyTable.Table.Create`, and its `stop` only clears `running`.
- ProxyTable.Server.OnIdle: the timer is a deadline (`now + delay`) rather than a handle, and it is reset to none on expiry, where Node keeps the fired handle. The engine's `idle` events themselves are not modelled.
- Socks.Dispatch: the byte piping, the outgoing connection and its errors, and SOCKS authentication are not modelled. `remote` is an integer, so a NaN remote port is not modelled.
- NetUtil.FindIface: `name != iface` is matched for a string `iface` only; JavaScript's loose comparison with a non-string is not modelled.
- In `lib/lpm_f.js`, the HTTP agent's randomising DNS lookup (29-37) is not modelled. Nor are logging, `perr` reports, `mgr.loki.stats_get()` and `perr.uuid`; the last two are the `stats` and `uuid` parameters of `UpdateStatistics`.
- The throttling of `sync_recent_stats` (`_.throttle(..., 1 min)`) is not modelled; only its cancellation in `close` is recorded.
- The IPC call timeouts are 30 s and raise an error, modelled as `CallTimeout` without the library's message. The `hello` and `reset_auth` posts never fail.
- The etask `uncaught` handlers only log in the model: an error is passed on to the caller as `Thrown`. The exception is `resolve_proxies`, whose handler turns every failure into `[]`.
- `apply_cloud_config` and `apply_zones_config` belong to the manager, which is not part of this model. They are recorded in order (`Manager.cloudConfigs`, `Manager.zoneConfigs`), and their own failures are not modelled.
- LpmF.Lpm_f.OnConnected: requires an open transport, because a closed transport raises no more events. The first connection sets `everConnected` inside the handler, where the source sets it when `init`'s wait resumes right after the handler.

## Findings

| source | as written | input that shows it | evidently intended | confidence | as-written member | corrected member |
|---|---|---|---|---|---|---|
| bin/luminati.js:365 | `hosts.push(hosts.shift())` on an empty list appends `undefined` | `hosts == []`, e.g. `--proxy_count 0` with a host-name spec: the first `/create` turns the list into `[undefined]`, which the engine gets as its super proxy | rotation keeps an empty list empty and is a permutation | not executed; low | ProxyTable.RotateAsWritten (ProxyTable.RotateAsWrittenEmpty) | ProxyTable.Rotate (ProxyTable.RotateAsWrittenAgrees) |
