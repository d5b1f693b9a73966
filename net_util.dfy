/**
 * Small helpers of `bin/luminati.js`: `dot2num`, `find_iface` over an
 * interface table, and the reverse-DNS file (`--resolve <file>`) with its lookup.
 */
module NetUtil {
  import opened Js
  import SuperProxy

  /**
   * `dot2num`: ((a*256 + b)*256 + c)*256 + d for `a.b.c.d`; None stands for
   * NaN. Parts after the fourth are ignored.
   */
  function Dot2Num(dot: string): (r: Option<int>)
    ensures r.Some? ==> r.value >= 0
  {
    var d := Split(dot, '.');
    if |d| < 4 then None else Octets2Num(ToNumber(d[0]), ToNumber(d[1]), ToNumber(d[2]), ToNumber(d[3]))
  }

  /** `((a*256 + b)*256 + c)*256 + d` over numbers that may be NaN (None): NaN spreads. */
  function Octets2Num(a: Option<int>, b: Option<int>, c: Option<int>, d: Option<int>): (r: Option<int>)
    requires a.Some? ==> a.value >= 0
    requires b.Some? ==> b.value >= 0
    requires c.Some? ==> c.value >= 0
    requires d.Some? ==> d.value >= 0
    ensures r.Some? <==> a.Some? && b.Some? && c.Some? && d.Some?
    ensures r.Some? ==> r.value >= 0
  {
    if a.Some? && b.Some? && c.Some? && d.Some? then Some(((a.value * 256 + b.value) * 256 + c.value) * 256 + d.value)
    else None
  }

  /** `dot2num` is a number exactly when the first four dot-separated parts are numbers. */
  lemma Dot2NumDefined(dot: string)
    ensures var d := Split(dot, '.');
      Dot2Num(dot).Some? <==>
        |d| >= 4 && ToNumber(d[0]).Some? && ToNumber(d[1]).Some? && ToNumber(d[2]).Some? && ToNumber(d[3]).Some?
  {
  }

  /** The dotted-quad form of a number, most significant octet first. */
  function Num2Dot(n: nat): string
  {
    var o := Octets(n);
    Join([NatToString(o[0]), NatToString(o[1]), NatToString(o[2]), NatToString(o[3])], '.')
  }

  /** The four base-256 digits of `n`, most significant first (the first is not reduced). */
  function Octets(n: nat): (o: seq<nat>)
    ensures |o| == 4
    ensures ((o[0] * 256 + o[1]) * 256 + o[2]) * 256 + o[3] == n
    ensures o[1] < 256 && o[2] < 256 && o[3] < 256
    ensures n < 0x1_0000_0000 ==> o[0] < 256
  {
    var x1 := n / 256;
    var x2 := x1 / 256;
    assert n == x1 * 256 + n % 256;
    assert x1 == x2 * 256 + x1 % 256;
    assert x2 == (x2 / 256) * 256 + x2 % 256;
    [x2 / 256, x2 % 256, x1 % 256, n % 256]
  }

  lemma NoDotInDigits(s: string)
    requires AllDigits(s)
    ensures '.' !in s
  {
  }

  /** `dot2num` undoes `Num2Dot`; below 2^32 every octet is below 256. */
  lemma Dot2NumOfNum2Dot(n: nat)
    ensures Dot2Num(Num2Dot(n)) == Some(n)
  {
    var o := Octets(n);
    var parts := [NatToString(o[0]), NatToString(o[1]), NatToString(o[2]), NatToString(o[3])];
    forall i | 0 <= i < 4 ensures '.' !in parts[i] {
      NoDotInDigits(parts[i]);
    }
    SplitJoin(parts, '.');
    var d := Split(Num2Dot(n), '.');
    assert d == parts;
    ToNumberOfNatToString(o[0]);
    ToNumberOfNatToString(o[1]);
    ToNumberOfNatToString(o[2]);
    ToNumberOfNatToString(o[3]);
    assert Dot2Num(Num2Dot(n)) == Octets2Num(Some(o[0]), Some(o[1]), Some(o[2]), Some(o[3]));
    OctetsValue(o[0], o[1], o[2], o[3], n);
  }

  lemma OctetsValue(a: nat, b: nat, c: nat, d: nat, n: nat)
    requires ((a * 256 + b) * 256 + c) * 256 + d == n
    ensures Octets2Num(Some(a), Some(b), Some(c), Some(d)) == Some(n)
  {
  }

  /** One entry of `os.networkInterfaces()[name]`. */
  datatype IfaceAddr = IfaceAddr(family: string, address: string)

  /** `addresses.filter(data => data.family == 'IPv4')[0].address`, if there is one. */
  function FirstIPv4(addrs: seq<IfaceAddr>): (r: Option<string>)
    ensures r.None? <==> forall i :: 0 <= i < |addrs| ==> addrs[i].family != "IPv4"
    ensures r.Some? ==> exists i :: (0 <= i < |addrs| && addrs[i].family == "IPv4" && addrs[i].address == r.value
                                     && forall j :: 0 <= j < i ==> addrs[j].family != "IPv4")
  {
    if addrs == [] then None
    else if addrs[0].family == "IPv4" then Some(addrs[0].address)
    else
      var r := FirstIPv4(addrs[1..]);
      assert forall i :: 1 <= i < |addrs| ==> addrs[i] == addrs[1..][i - 1];
      r
  }

  /**
   * `find_iface`: the first IPv4 address of the interface called `iface`, or
   * `iface` itself when there is no such interface or it has no IPv4 address.
   */
  function FindIface(ifaces: map<string, seq<IfaceAddr>>, iface: Val): (r: Val)
    ensures r != iface ==> r.Str? && iface.Str? && iface.s in ifaces && FirstIPv4(ifaces[iface.s]) == Some(r.s)
    ensures iface.Str? && iface.s in ifaces && FirstIPv4(ifaces[iface.s]).Some? ==>
      r == Str(FirstIPv4(ifaces[iface.s]).value)
  {
    if iface.Str? && iface.s in ifaces then
      match FirstIPv4(ifaces[iface.s])
      case Some(a) => Str(a)
      case None => iface
    else iface
  }

  /** The longest prefix without white space. */
  function Token(s: string): (t: string)
    ensures |t| <= |s| && t == s[..|t|]
    ensures forall i :: 0 <= i < |t| ==> !IsSpace(t[i])
    ensures |t| < |s| ==> IsSpace(s[|t|])
  {
    if s == [] || IsSpace(s[0]) then [] else [s[0]] + Token(s[1..])
  }

  datatype DnsEntry = DnsEntry(ip: string, name: string)

  /**
   * One line matched against `/^\s*(\d+\.\d+\.\d+\.\d+)\s+([^\s]+)/`: the IP is
   * the first token after the leading white space and must be followed by
   * white space; the name is the next token.
   */
  function ParseResolveLine(line: string): (r: Option<DnsEntry>)
    ensures r.Some? ==> SuperProxy.IsDottedQuad(r.value.ip) && r.value.name != []
    ensures r.Some? ==> forall i :: 0 <= i < |r.value.name| ==> !IsSpace(r.value.name[i])
  {
    var rest := TrimStart(line);
    var ip := Token(rest);
    var after := rest[|ip|..];
    if !SuperProxy.IsDottedQuad(ip) || after == [] || !IsSpace(after[0]) then None
    else
      var name := Token(TrimStart(after));
      if name == [] then None else Some(DnsEntry(ip, name))
  }

  lemma {:induction false} TokenBeforeSpace(a: string, b: string)
    requires forall i :: 0 <= i < |a| ==> !IsSpace(a[i])
    requires b == [] || IsSpace(b[0])
    ensures Token(a + b) == a
  {
    if a != [] {
      assert (a + b)[0] == a[0] && (a + b)[1..] == a[1..] + b;
      TokenBeforeSpace(a[1..], b);
    } else {
      assert a + b == b;
    }
  }

  lemma NoSpaceInDottedQuad(s: string)
    requires SuperProxy.IsDottedQuad(s)
    ensures forall i :: 0 <= i < |s| ==> !IsSpace(s[i])
  {
    var p := Split(s, '.');
    JoinSplit(s, '.');
    assert p[1..][1..] == p[2..] && p[2..][1..] == p[3..] && p[3..] == [p[3]];
    assert Join(p[2..], '.') == p[2] + "." + p[3];
    assert Join(p[1..], '.') == p[1] + "." + (p[2] + "." + p[3]);
    assert s == p[0] + "." + (p[1] + "." + (p[2] + "." + p[3]));
  }

  predicate AllSpace(s: string)
  {
    forall i :: 0 <= i < |s| ==> IsSpace(s[i])
  }

  predicate NoSpace(s: string)
  {
    forall i :: 0 <= i < |s| ==> !IsSpace(s[i])
  }

  /**
   * `line` is laid out as the pattern reads it: optional white space, `ip`,
   * at least one white-space character, `name`, then the end of the line or
   * white space.
   */
  ghost predicate EntryLine(line: string, ip: string, name: string)
  {
    exists w1: string, w2: string, rest: string ::
      && line == w1 + (ip + (w2 + (name + rest)))
      && AllSpace(w1) && w2 != [] && AllSpace(w2) && (rest == [] || IsSpace(rest[0]))
  }

  lemma {:induction false} TrimStartSpaces(w: string, x: string)
    requires AllSpace(w) && (x == [] || !IsSpace(x[0]))
    ensures TrimStart(w + x) == x
  {
    if w != [] {
      assert (w + x)[0] == w[0] && (w + x)[1..] == w[1..] + x;
      TrimStartSpaces(w[1..], x);
    } else {
      assert w + x == x;
    }
  }

  /** The witnesses of a layout, given piece by piece. */
  lemma {:induction false} EntryLineOf(line: string, w1: string, ip: string, w2: string, name: string, tail: string)
    requires line == w1 + (ip + (w2 + (name + tail)))
    requires AllSpace(w1) && w2 != [] && AllSpace(w2) && (tail == [] || IsSpace(tail[0]))
    ensures EntryLine(line, ip, name)
  {
  }

  /** Cutting a string into a prefix and the rest of it. */
  lemma {:induction false} CutAt(s: string, n: nat)
    requires n <= |s|
    ensures s == s[..n] + s[n..]
  {
  }

  /** The pieces the parser cuts a line into are laid out as the pattern reads them. */
  lemma PiecesLayout(line: string, rest: string, ip: string, after: string, t: string, name: string)
    requires |rest| <= |line| && rest == line[|line| - |rest|..]
    requires forall i :: 0 <= i < |line| - |rest| ==> IsSpace(line[i])
    requires |ip| <= |rest| && ip == rest[..|ip|] && after == rest[|ip|..]
    requires after != [] && IsSpace(after[0])
    requires |t| <= |after| && t == after[|after| - |t|..]
    requires forall i :: 0 <= i < |after| - |t| ==> IsSpace(after[i])
    requires t == [] || !IsSpace(t[0])
    requires |name| <= |t| && name == t[..|name|] && (|name| < |t| ==> IsSpace(t[|name|]))
    ensures EntryLine(line, ip, name)
  {
    var w1 := line[..|line| - |rest|];
    var w2 := after[..|after| - |t|];
    var tail := t[|name|..];
    assert AllSpace(w1);
    assert AllSpace(w2);
    CutAt(line, |line| - |rest|);
    CutAt(rest, |ip|);
    CutAt(after, |after| - |t|);
    CutAt(t, |name|);
    EntryLineOf(line, w1, ip, w2, name, tail);
  }

  /** An accepted line has the layout of its entry. */
  lemma ParsedLayout(line: string, e: DnsEntry)
    requires ParseResolveLine(line) == Some(e)
    ensures EntryLine(line, e.ip, e.name)
  {
    var ip := Token(TrimStart(line));
    var after := TrimStart(line)[|ip|..];
    assert after != [] && IsSpace(after[0]) && e == DnsEntry(ip, Token(TrimStart(after)));
    CutsLayout(line, ip, after);
  }

  /** The same, stated over the parser's own cuts. */
  lemma CutsLayout(line: string, ip: string, after: string)
    requires ip == Token(TrimStart(line)) && after == TrimStart(line)[|ip|..]
    requires after != [] && IsSpace(after[0])
    ensures EntryLine(line, ip, Token(TrimStart(after)))
  {
    var rest := TrimStart(line);
    var t := TrimStart(after);
    PiecesLayout(line, rest, ip, after, t, Token(t));
  }

  /** The parser's cuts of a line laid out as `w1 ip w2 name tail`. */
  lemma LayoutPieces(line: string, w1: string, ip: string, w2: string, name: string, tail: string)
    requires line == w1 + (ip + (w2 + (name + tail)))
    requires ip != [] && NoSpace(ip) && name != [] && NoSpace(name)
    requires AllSpace(w1) && w2 != [] && AllSpace(w2) && (tail == [] || IsSpace(tail[0]))
    ensures Token(TrimStart(line)) == ip
    ensures TrimStart(line)[|ip|..] == w2 + (name + tail)
    ensures Token(TrimStart(w2 + (name + tail))) == name
  {
    var t := name + tail;
    var after := w2 + t;
    var x := ip + after;
    assert x[0] == ip[0];
    TrimStartSpaces(w1, x);
    assert after[0] == w2[0];
    TokenBeforeSpace(ip, after);
    assert x[|ip|..] == after;
    assert t[0] == name[0];
    TrimStartSpaces(w2, t);
    TokenBeforeSpace(name, tail);
  }

  /** A line with the layout of an entry is accepted as that entry. */
  lemma LayoutParsed(line: string, ip: string, name: string)
    requires SuperProxy.IsDottedQuad(ip) && name != [] && NoSpace(name)
    requires EntryLine(line, ip, name)
    ensures ParseResolveLine(line) == Some(DnsEntry(ip, name))
  {
    var w1, w2, tail :| && line == w1 + (ip + (w2 + (name + tail)))
      && AllSpace(w1) && w2 != [] && AllSpace(w2) && (tail == [] || IsSpace(tail[0]));
    NoSpaceInDottedQuad(ip);
    SuperProxy.DottedQuadLength(ip);
    LayoutPieces(line, w1, ip, w2, name, tail);
    assert (w2 + (name + tail))[0] == w2[0];
  }

  /**
   * The line parser is exactly the pattern: a line yields an entry iff it is
   * laid out as optional white space, a dotted-quad IP, white space and a
   * name of non-white-space characters, followed by the end of the line or
   * white space.
   */
  lemma ParseResolveLineExact(line: string, ip: string, name: string)
    ensures ParseResolveLine(line) == Some(DnsEntry(ip, name)) <==>
      SuperProxy.IsDottedQuad(ip) && name != [] && NoSpace(name) && EntryLine(line, ip, name)
  {
    if ParseResolveLine(line) == Some(DnsEntry(ip, name)) {
      ParsedLayout(line, DnsEntry(ip, name));
    }
    if SuperProxy.IsDottedQuad(ip) && name != [] && NoSpace(name) && EntryLine(line, ip, name) {
      LayoutParsed(line, ip, name);
    }
  }

  /** A line `<ip> <name>` is read back as that entry. */
  lemma ParseFormattedLine(ip: string, name: string)
    requires SuperProxy.IsDottedQuad(ip)
    requires name != [] && forall i :: 0 <= i < |name| ==> !IsSpace(name[i])
    ensures ParseResolveLine(ip + " " + name) == Some(DnsEntry(ip, name))
  {
    var line := ip + " " + name;
    NoSpaceInDottedQuad(ip);
    SuperProxy.DottedQuadLength(ip);
    assert TrimStart(line) == line;
    assert line == ip + (" " + name);
    TokenBeforeSpace(ip, " " + name);
    assert line[|ip|..] == " " + name;
    assert TrimStart(" " + name) == name by {
      assert (" " + name)[1..] == name;
    }
    TokenBeforeSpace(name, []);
    assert name + [] == name;
  }

  /** Every line of the file, parsed. */
  function ParseLines(lines: seq<string>): seq<Option<DnsEntry>>
  {
    seq(|lines|, i requires 0 <= i < |lines| => ParseResolveLine(lines[i]))
  }

  /** The name the last entry for `ip` gives it, among the first `n` parsed lines. */
  function LastName(es: seq<Option<DnsEntry>>, n: nat, ip: string): Option<string>
    requires n <= |es|
  {
    if n == 0 then None
    else if es[n - 1].Some? && es[n - 1].value.ip == ip then Some(es[n - 1].value.name)
    else LastName(es, n - 1, ip)
  }

  /** `domains` holds exactly the last listed name of every IP the first `n` lines list. */
  ghost predicate Loaded(es: seq<Option<DnsEntry>>, n: nat, domains: map<string, string>)
    requires n <= |es|
  {
    forall ip :: LastName(es, n, ip) == (if ip in domains then Some(domains[ip]) else None)
  }

  lemma LoadStep(es: seq<Option<DnsEntry>>, i: nat, domains: map<string, string>)
    requires i < |es| && Loaded(es, i, domains)
    ensures es[i].None? ==> Loaded(es, i + 1, domains)
    ensures es[i].Some? ==> Loaded(es, i + 1, domains[es[i].value.ip := es[i].value.name])
  {
  }

  /** The `forEach` over the matched lines that fills the `domains` object: the last line listing an IP wins. */
  method StoreEntries(es: seq<Option<DnsEntry>>) returns (domains: map<string, string>)
    ensures Loaded(es, |es|, domains)
  {
    domains := map[];
    var i := 0;
    while i < |es|
      invariant 0 <= i <= |es|
      invariant Loaded(es, i, domains)
    {
      LoadStep(es, i, domains);
      if es[i].Some? {
        domains := domains[es[i].value.ip := es[i].value.name];
      }
      i := i + 1;
    }
  }

  /** Reading the `--resolve` file: every line is matched and the matches are stored. */
  method LoadResolveFile(lines: seq<string>) returns (domains: map<string, string>)
    ensures Loaded(ParseLines(lines), |lines|, domains)
  {
    var es := ParseLines(lines);
    domains := StoreEntries(es);
  }

  /** `ip => domains[ip] || ip`: the listed name, or the IP when none is listed. */
  function ResolveName(domains: map<string, string>, ip: string): (r: string)
    ensures ip !in domains ==> r == ip
    ensures ip in domains && domains[ip] != "" ==> r == domains[ip]
  {
    if ip in domains && domains[ip] != "" then domains[ip] else ip
  }

  /** Names read from the file are never empty, so a listed IP always resolves to its last listed name. */
  lemma ResolveListed(lines: seq<string>, domains: map<string, string>, ip: string)
    requires Loaded(ParseLines(lines), |lines|, domains)
    ensures LastName(ParseLines(lines), |lines|, ip).Some? ==>
              ResolveName(domains, ip) == LastName(ParseLines(lines), |lines|, ip).value
    ensures LastName(ParseLines(lines), |lines|, ip).None? ==> ResolveName(domains, ip) == ip
  {
    var es := ParseLines(lines);
    assert LastName(es, |lines|, ip) == (if ip in domains then Some(domains[ip]) else None);
    if LastName(es, |lines|, ip).Some? {
      forall i | 0 <= i < |es| && es[i].Some? ensures es[i].value.name != [] {
        assert es[i] == ParseResolveLine(lines[i]);
      }
      LastNameNonEmpty(es, |lines|, ip);
    }
  }

  lemma {:induction false} LastNameNonEmpty(es: seq<Option<DnsEntry>>, n: nat, ip: string)
    requires n <= |es|
    requires forall i :: 0 <= i < |es| && es[i].Some? ==> es[i].value.name != []
    ensures LastName(es, n, ip).Some? ==> LastName(es, n, ip).value != ""
  {
    if n > 0 {
      LastNameNonEmpty(es, n - 1, ip);
    }
  }
}
