/** The kernel command line: printed on the host, parsed by the guest to configure its network. */
module Cmdline {
  import opened Protocol

  datatype IpConfig = IpConfig(address: string, gateway: string, netmask: string)

  /** The characters with the Unicode property White_Space. */
  predicate IsSpace(c: char) {
    || '\U{0009}' <= c <= '\U{000D}' || c == ' ' || c == '\U{0085}' || c == '\U{00A0}' || c == '\U{1680}'
    || '\U{2000}' <= c <= '\U{200A}' || c == '\U{2028}' || c == '\U{2029}' || c == '\U{202F}' || c == '\U{205F}'
    || c == '\U{3000}'
  }

  /** All 25 of them. */
  lemma WhiteSpace(c: char)
    ensures IsSpace(c) <==>
              c as int in {0x9, 0xA, 0xB, 0xC, 0xD, 0x20, 0x85, 0xA0, 0x1680, 0x2000, 0x2001, 0x2002, 0x2003, 0x2004,
                           0x2005, 0x2006, 0x2007, 0x2008, 0x2009, 0x200A, 0x2028, 0x2029, 0x202F, 0x205F, 0x3000}
  {
  }

  predicate IsColon(c: char) {
    c == ':'
  }

  // ---------- Printing ----------

  const KEY := "ip="

  /** Client, server (left empty), gateway, netmask, hostname (left empty), device, autoconfiguration. */
  function Config(ip: IpConfig): string {
    ip.address + "::" + ip.gateway + ":" + ip.netmask + "::eth0:off"
  }

  function Print(ip: IpConfig): string {
    "console=hvc0" + " " + "rootfstype=virtiofs" + " " + "root=rootfs" + " " + KEY + Config(ip)
  }

  // ---------- Parsing ----------

  /** The pieces between separators, empty ones included. */
  function Split(s: string, separates: char -> bool): (pieces: seq<string>)
    ensures |pieces| >= 1
  {
    if s == [] then [""]
    else
      var rest := Split(s[1..], separates);
      if separates(s[0]) then [""] + rest else [[s[0]] + rest[0]] + rest[1..]
  }

  /** The first non-empty piece that starts with the key. */
  function FindKey(pieces: seq<string>): Option<string> {
    if pieces == [] then None
    else if pieces[0] != "" && KEY <= pieces[0] then Some(pieces[0][|KEY|..])
    else FindKey(pieces[1..])
  }

  function ParseConfig(config: string): Option<IpConfig> {
    var parts := Split(config, IsColon);
    if |parts| >= 4 then Some(IpConfig(parts[0], parts[2], parts[3])) else None
  }

  function Parse(cmdline: string): Option<IpConfig> {
    match FindKey(Split(cmdline, IsSpace))
    case None => None
    case Some(config) => ParseConfig(config)
  }

  predicate Free(s: string, separates: char -> bool) {
    forall i | 0 <= i < |s| :: !separates(s[i])
  }

  predicate Plain(ip: IpConfig) {
    && Free(ip.address, IsColon) && Free(ip.address, IsSpace)
    && Free(ip.gateway, IsColon) && Free(ip.gateway, IsSpace)
    && Free(ip.netmask, IsColon) && Free(ip.netmask, IsSpace)
  }

  // ---------- Splitting ----------

  lemma {:induction false} SplitFree(s: string, separates: char -> bool)
    requires Free(s, separates)
    ensures Split(s, separates) == [s]
  {
    if s == [] {
    } else {
      SplitFree(s[1..], separates);
      assert s == [s[0]] + s[1..];
    }
  }

  lemma {:induction false} SplitAt(a: string, c: char, b: string, separates: char -> bool)
    requires Free(a, separates) && separates(c)
    ensures Split(a + [c] + b, separates) == [a] + Split(b, separates)
  {
    var s := a + [c] + b;
    if a == [] {
      assert s[1..] == b;
    } else {
      SplitAt(a[1..], c, b, separates);
      assert s[1..] == a[1..] + [c] + b;
      assert a == [a[0]] + a[1..];
    }
  }

  /** Pieces hold no separator, and no character the text does not hold. */
  lemma {:induction false} PiecesAreFree(s: string, separates: char -> bool, other: char -> bool)
    ensures forall i | 0 <= i < |Split(s, separates)| :: Free(Split(s, separates)[i], separates)
    ensures Free(s, other) ==> forall i | 0 <= i < |Split(s, separates)| :: Free(Split(s, separates)[i], other)
  {
    if s == [] {
    } else {
      PiecesAreFree(s[1..], separates, other);
      assert Free(s, other) ==> Free(s[1..], other);
      var rest := Split(s[1..], separates);
      assert Free(rest[0], separates);
    }
  }

  lemma {:induction false} FoundIsPiece(pieces: seq<string>, separates: char -> bool)
    requires forall i | 0 <= i < |pieces| :: Free(pieces[i], separates)
    ensures FindKey(pieces).Some? ==> Free(FindKey(pieces).value, separates)
  {
    if pieces == [] {
    } else {
      assert Free(pieces[0], separates);
      FoundIsPiece(pieces[1..], separates);
    }
  }

  // ---------- The round trip ----------

  /** Whatever the command line, what the guest reads from it holds neither colons nor spaces. */
  lemma ParsedIsPlain(cmdline: string)
    ensures Parse(cmdline).Some? ==> Plain(Parse(cmdline).value)
  {
    PiecesAreFree(cmdline, IsSpace, IsSpace);
    FoundIsPiece(Split(cmdline, IsSpace), IsSpace);
    var found := FindKey(Split(cmdline, IsSpace));
    if found.Some? {
      PiecesAreFree(found.value, IsColon, IsSpace);
    }
  }

  function Join(pieces: seq<string>, c: char): string
    requires pieces != []
  {
    if |pieces| == 1 then pieces[0] else pieces[0] + [c] + Join(pieces[1..], c)
  }

  lemma {:induction false} SplitJoin(pieces: seq<string>, c: char, separates: char -> bool)
    requires pieces != [] && separates(c) && forall i | 0 <= i < |pieces| :: Free(pieces[i], separates)
    ensures Split(Join(pieces, c), separates) == pieces
  {
    if |pieces| == 1 {
      SplitFree(pieces[0], separates);
    } else {
      SplitAt(pieces[0], c, Join(pieces[1..], c), separates);
      SplitJoin(pieces[1..], c, separates);
    }
  }

  function ConfigParts(ip: IpConfig): seq<string> {
    [ip.address, "", ip.gateway, ip.netmask, "", "eth0", "off"]
  }

  lemma JoinStep(a: string, rest: seq<string>, c: char)
    requires rest != []
    ensures Join([a] + rest, c) == a + [c] + Join(rest, c)
  {
    assert ([a] + rest)[1..] == rest;
  }

  lemma JoinOne(a: string, c: char)
    ensures Join([a], c) == a
  {
  }

  lemma DeviceIsJoin()
    ensures Join(["", "eth0", "off"], ':') == ":eth0:off"
  {
    JoinStep("eth0", ["off"], ':');
    assert ["eth0"] + ["off"] == ["eth0", "off"];
    JoinStep("", ["eth0", "off"], ':');
    assert [""] + ["eth0", "off"] == ["", "eth0", "off"];
  }

  lemma ConfigIsJoin(ip: IpConfig)
    ensures Config(ip) == Join(ConfigParts(ip), ':')
  {
    hide Join;
    DeviceIsJoin();
    var device := ["", "eth0", "off"];
    JoinStep(ip.netmask, device, ':');
    JoinStep(ip.gateway, [ip.netmask] + device, ':');
    JoinStep("", [ip.gateway] + ([ip.netmask] + device), ':');
    JoinStep(ip.address, [""] + ([ip.gateway] + ([ip.netmask] + device)), ':');
    assert ConfigParts(ip) == [ip.address] + ([""] + ([ip.gateway] + ([ip.netmask] + device)));
    assert ":" + ":eth0:off" == "::eth0:off";
    assert ":" + ("" + ":") == "::";
    assert Config(ip) == ip.address + (":" + ("" + (":" + (ip.gateway + (":" + (ip.netmask + (":" + ":eth0:off")))))));
  }

  lemma {:induction false} FreeJoin(pieces: seq<string>, c: char, separates: char -> bool)
    requires pieces != [] && !separates(c) && forall i | 0 <= i < |pieces| :: Free(pieces[i], separates)
    ensures Free(Join(pieces, c), separates)
  {
    if |pieces| == 1 {
    } else {
      FreeJoin(pieces[1..], c, separates);
      assert Free(pieces[0], separates);
    }
  }

  lemma ConfigRoundTrip(ip: IpConfig)
    requires Plain(ip)
    ensures ParseConfig(Config(ip)) == Some(ip) && Free(Config(ip), IsSpace)
  {
    hide Join, Split, Config;
    ConfigIsJoin(ip);
    SplitJoin(ConfigParts(ip), ':', IsColon);
    FreeJoin(ConfigParts(ip), ':', IsSpace);
  }

  lemma PrintIsJoin(ip: IpConfig)
    ensures Print(ip) == Join(["console=hvc0", "rootfstype=virtiofs", "root=rootfs", KEY + Config(ip)], ' ')
  {
    hide Join, Config;
    var option := KEY + Config(ip);
    JoinOne(option, ' ');
    JoinStep("root=rootfs", [option], ' ');
    JoinStep("rootfstype=virtiofs", ["root=rootfs"] + [option], ' ');
    JoinStep("console=hvc0", ["rootfstype=virtiofs"] + (["root=rootfs"] + [option]), ' ');
    assert ["console=hvc0"] + (["rootfstype=virtiofs"] + (["root=rootfs"] + [option]))
        == ["console=hvc0", "rootfstype=virtiofs", "root=rootfs", option];
    assert Print(ip) == "console=hvc0" + " " + ("rootfstype=virtiofs" + " " + ("root=rootfs" + " " + option));
  }

  /** The words of the printed command line. */
  lemma PrintedWords(ip: IpConfig)
    requires Plain(ip)
    ensures Split(Print(ip), IsSpace) == ["console=hvc0", "rootfstype=virtiofs", "root=rootfs", "ip=" + Config(ip)]
    ensures Split(Config(ip), IsColon) == [ip.address, "", ip.gateway, ip.netmask, "", "eth0", "off"]
  {
    hide Join, Split, Config, Print;
    ConfigRoundTrip(ip);
    PrintIsJoin(ip);
    SplitJoin(["console=hvc0", "rootfstype=virtiofs", "root=rootfs", KEY + Config(ip)], ' ', IsSpace);
    ConfigIsJoin(ip);
    SplitJoin(ConfigParts(ip), ':', IsColon);
  }

  lemma FindSkips(other: string, rest: seq<string>)
    requires other != "" && other[0] != KEY[0]
    ensures FindKey([other] + rest) == FindKey(rest)
  {
    assert ([other] + rest)[1..] == rest;
  }

  /** The first option that starts with the key is taken, whatever comes after. */
  lemma FirstKeyWins(config: string, rest: seq<string>)
    ensures FindKey([KEY + config] + rest) == Some(config)
  {
    assert (KEY + config)[|KEY|..] == config;
  }

  /** Four fields are enough, of which the second is ignored; with fewer nothing is read. */
  lemma FourFieldsAreRead(a: string, b: string, c: string, d: string)
    requires Free(a, IsColon) && Free(b, IsColon) && Free(c, IsColon) && Free(d, IsColon)
    ensures ParseConfig(Join([a, b, c, d], ':')) == Some(IpConfig(a, c, d))
    ensures ParseConfig(Join([a, b, c], ':')) == None
  {
    hide Join, Split;
    SplitJoin([a, b, c, d], ':', IsColon);
    SplitJoin([a, b, c], ':', IsColon);
  }

  lemma FindHits(config: string)
    ensures FindKey([KEY + config]) == Some(config)
  {
    assert (KEY + config)[|KEY|..] == config;
  }

  lemma PrintedConfigIsFound(ip: IpConfig)
    requires Free(Config(ip), IsSpace)
    ensures FindKey(Split(Print(ip), IsSpace)) == Some(Config(ip))
  {
    hide Join, Config, Split, Print, FindKey;
    var found := [KEY + Config(ip)];
    PrintIsJoin(ip);
    SplitJoin(["console=hvc0", "rootfstype=virtiofs", "root=rootfs", KEY + Config(ip)], ' ', IsSpace);
    assert ["console=hvc0", "rootfstype=virtiofs", "root=rootfs", KEY + Config(ip)]
        == ["console=hvc0"] + (["rootfstype=virtiofs"] + (["root=rootfs"] + found));
    FindHits(Config(ip));
    FindSkips("root=rootfs", found);
    FindSkips("rootfstype=virtiofs", ["root=rootfs"] + found);
    FindSkips("console=hvc0", ["rootfstype=virtiofs"] + (["root=rootfs"] + found));
  }

  lemma ParseFound(cmdline: string, config: string)
    requires FindKey(Split(cmdline, IsSpace)) == Some(config)
    ensures Parse(cmdline) == ParseConfig(config)
  {
  }

  /** The guest reads back all three settings exactly if none of them holds a colon or a space. */
  lemma RoundTripIff(ip: IpConfig)
    ensures Parse(Print(ip)) == Some(ip) <==> Plain(ip)
  {
    ParsedIsPlain(Print(ip));
    if Plain(ip) {
      hide Parse, ParseConfig, Split, FindKey, Print, Config;
      ConfigRoundTrip(ip);
      PrintedConfigIsFound(ip);
      ParseFound(Print(ip), Config(ip));
    }
  }

  // ---------- The addresses in use ----------

  function Decimal(n: nat): string {
    if n < 10 then ["0123456789"[n]] else Decimal(n / 10) + ["0123456789"[n % 10]]
  }

  /** The text of an IPv4 address. */
  function Dotted(octets: seq<nat>): string
    requires octets != []
  {
    if |octets| == 1 then Decimal(octets[0]) else Dotted(octets[..|octets| - 1]) + "." + Decimal(octets[|octets| - 1])
  }

  lemma {:induction false} DecimalIsPlain(n: nat)
    ensures Free(Decimal(n), IsColon) && Free(Decimal(n), IsSpace)
  {
    if n >= 10 {
      DecimalIsPlain(n / 10);
    }
  }

  lemma {:induction false} DottedIsPlain(octets: seq<nat>)
    requires octets != []
    ensures Free(Dotted(octets), IsColon) && Free(Dotted(octets), IsSpace)
  {
    DecimalIsPlain(octets[|octets| - 1]);
    if |octets| == 1 {
    } else {
      DottedIsPlain(octets[..|octets| - 1]);
    }
  }

  /** Every guest gets its address, the gateway 10.0.0.1 and the mask 255.255.255.0. */
  lemma GuestsAreConfigured(octets: seq<nat>)
    requires octets != []
    ensures var ip := IpConfig(Dotted(octets), Dotted([10, 0, 0, 1]), "255.255.255.0");
            Parse(Print(ip)) == Some(ip)
  {
    DottedIsPlain(octets);
    DottedIsPlain([10, 0, 0, 1]);
    RoundTripIff(IpConfig(Dotted(octets), Dotted([10, 0, 0, 1]), "255.255.255.0"));
  }
}
