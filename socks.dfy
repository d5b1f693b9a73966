/**
 * The SOCKS front end of `bin/luminati.js` (`create_socks_server`): which
 * destination a SOCKS connection is sent to, the CONNECT preamble written for
 * HTTPS, and the `--socks local:remote` argument.
 */
module Socks {
  import opened Js

  /** The `info` object the SOCKS library hands the connection handler. */
  class SocksInfo {
    var dstAddr: string
    var dstPort: int

    constructor(dstAddr: string, dstPort: int)
      ensures this.dstAddr == dstAddr && this.dstPort == dstPort
    {
      this.dstAddr := dstAddr;
      this.dstPort := dstPort;
    }
  }

  /**
   * What the handler does with the connection: `accept()` towards `info` as it
   * then stands, or `accept(true)` with a connection of its own to
   * `host:port` that first receives `preamble`.
   */
  datatype Action =
    | Accept
    | Tunnel(host: string, port: int, preamble: string)

  const Loopback := "127.0.0.1"

  /** `CONNECT %s:%d HTTP/1.1\r\nHost: %s:%d\r\n\r\n` */
  function ConnectPreamble(addr: string, port: nat): (p: string)
    ensures |p| >= 12 && p[..8] == "CONNECT " && p[|p| - 4..] == "\r\n\r\n"
  {
    var target := addr + ":" + NatToString(port);
    "CONNECT " + target + " HTTP/1.1\r\n" + "Host: " + target + "\r\n" + "\r\n"
  }

  /**
   * The handler: plain HTTP (port 80) is redirected to the local proxy on
   * `remote`; HTTPS (port 443) is tunnelled through the local proxy with a
   * CONNECT for the original destination; any other port is accepted as is.
   */
  method Dispatch(info: SocksInfo, remote: int) returns (action: Action)
    modifies info
    ensures old(info.dstPort) == 80 ==> action == Accept && info.dstAddr == Loopback && info.dstPort == remote
    ensures old(info.dstPort) == 443 ==>
      && action == Tunnel(Loopback, remote, ConnectPreamble(info.dstAddr, 443))
      && info.dstAddr == old(info.dstAddr) && info.dstPort == 443
    ensures old(info.dstPort) != 80 && old(info.dstPort) != 443 ==> action == Accept && unchanged(info)
  {
    if info.dstPort == 80 {
      info.dstAddr := Loopback;
      info.dstPort := remote;
      return Accept;
    }
    if info.dstPort == 443 {
      return Tunnel(Loopback, remote, ConnectPreamble(info.dstAddr, info.dstPort));
    }
    return Accept;
  }

  /**
   * The preamble read line by line: the request line naming the destination,
   * the matching Host header, and the empty line that ends the head.
   */
  lemma PreambleLines(addr: string, port: nat)
    requires '\n' !in addr
    ensures var target := addr + ":" + NatToString(port);
      Split(ConnectPreamble(addr, port), '\n') ==
        ["CONNECT " + target + " HTTP/1.1\r", "Host: " + target + "\r", "\r", ""]
  {
    var target := addr + ":" + NatToString(port);
    assert '\n' !in NatToString(port);
    var l1 := "CONNECT " + target + " HTTP/1.1\r";
    var l2 := "Host: " + target + "\r";
    assert '\n' !in l1 && '\n' !in l2;
    PreambleJoined(addr, port);
    SplitJoin([l1, l2, "\r", ""], '\n');
  }

  /** The preamble is its three lines and an empty one, joined by line feeds. */
  lemma PreambleJoined(addr: string, port: nat)
    ensures var target := addr + ":" + NatToString(port);
      ConnectPreamble(addr, port) ==
        Join(["CONNECT " + target + " HTTP/1.1\r", "Host: " + target + "\r", "\r", ""], '\n')
  {
    var target := addr + ":" + NatToString(port);
    var l1 := "CONNECT " + target + " HTTP/1.1\r";
    var l2 := "Host: " + target + "\r";
    var parts := [l1, l2, "\r", ""];
    assert parts[1..] == [l2, "\r", ""] && parts[1..][1..] == ["\r", ""] && parts[1..][1..][1..] == [""];
    assert Join(["\r", ""], '\n') == "\r\n";
    assert Join([l2, "\r", ""], '\n') == l2 + "\n" + "\r\n";
    assert Join(parts, '\n') == l1 + "\n" + (l2 + "\n" + "\r\n");
  }

  /** `ports.split(':')` then `+ports[0]`, `+ports[1]`: the local and the remote port (None is NaN). */
  function SocksPorts(arg: string): (ports: (Option<int>, Option<int>))
    ensures ':' !in arg ==> ports == (ToNumber(arg), None)
  {
    SplitWhole(arg, ':');
    var parts := Split(arg, ':');
    (ToNumber(parts[0]), if |parts| >= 2 then ToNumber(parts[1]) else None)
  }

  /**
   * With a colon, the local port is read from the text before the first colon
   * and the remote port from the text after it, up to the next colon if any.
   */
  lemma SocksPortsAtColon(local: string, remote: string, rest: string)
    requires ':' !in local && ':' !in remote
    requires rest == [] || rest[0] == ':'
    ensures SocksPorts(local + ":" + remote + rest) == (ToNumber(local), ToNumber(remote))
  {
    var tail := ":" + remote + rest;
    assert local + ":" + remote + rest == local + tail;
    SplitPrepend(local, tail, ':');
    assert tail[1..] == remote + rest;
    SplitPrepend(remote, rest, ':');
    var sr := Split(rest, ':');
    assert sr[0] == "" by {
      if rest != [] {
        assert Split(rest, ':') == [""] + Split(rest[1..], ':');
      }
    }
    assert remote + sr[0] == remote;
    assert local + "" == local;
  }

  /** `local:remote` written with two numbers is read back as those numbers. */
  lemma SocksPortsOfPair(local: nat, remote: nat)
    ensures SocksPorts(NatToString(local) + ":" + NatToString(remote)) == (Some(local), Some(remote))
  {
    var a, b := NatToString(local), NatToString(remote);
    assert ':' !in a;
    assert ':' !in b;
    SplitJoin([a, b], ':');
    assert [a, b][1..] == [b];
    ToNumberOfNatToString(local);
    ToNumberOfNatToString(remote);
  }
}
