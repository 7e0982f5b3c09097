// dns.py: the generator of the Unbound override, and the commands that apply and remove it.
module Dns {
  import opened Basics
  import opened Text

  datatype DnsConfig = DnsConfig(mode: string, customServers: string, searchDomains: string)

  const GATEWAY_DNS_V4 := "162.159.36.1"
  const GATEWAY_DNS_V6 := "2606:4700:4700::1111"
  const HEADER := "# Generated by" + " cloudflarezt \U{2014} do" + " not edit manually"
  const ADDR := "    forward-addr: "
  const DOMAIN := "    domain-insecure: \""

  /** [s.strip() for s in parts if s.strip()] */
  function Stripped(parts: seq<string>): seq<string> {
    if parts == [] then []
    else
      var s := Strip(parts[|parts| - 1], PythonSpace);
      Stripped(parts[..|parts| - 1]) + if s == "" then [] else [s]
  }

  function Servers(c: DnsConfig): seq<string> {
    if c.mode == "cloudflare_gateway" then [GATEWAY_DNS_V4, GATEWAY_DNS_V6]
    else if c.mode == "custom" then Stripped(Split(c.customServers, ','))
    else []
  }

  /** The servers as they are written: without line breaks. */
  function CleanServers(servers: seq<string>): (r: seq<string>)
    ensures |r| == |servers| && forall i :: 0 <= i < |r| ==> r[i] == RemoveBreaks(servers[i])
  {
    seq(|servers|, i requires 0 <= i < |servers| => RemoveBreaks(servers[i]))
  }

  /** The domains as they are written: stripped, without line breaks, and the empty ones left out. */
  function CleanDomains(parts: seq<string>): seq<string> {
    if parts == [] then []
    else
      var d := RemoveBreaks(Strip(parts[|parts| - 1], PythonSpace));
      CleanDomains(parts[..|parts| - 1]) + if d == "" then [] else [d]
  }

  function AddrLines(servers: seq<string>): (r: seq<string>)
    ensures |r| == |servers| && forall i :: 0 <= i < |r| ==> r[i] == ADDR + servers[i]
  {
    seq(|servers|, i requires 0 <= i < |servers| => ADDR + servers[i])
  }

  function DomainLines(domains: seq<string>): (r: seq<string>)
    ensures |r| == |domains| && forall i :: 0 <= i < |r| ==> r[i] == DOMAIN + domains[i] + "\""
  {
    seq(|domains|, i requires 0 <= i < |domains| => DOMAIN + domains[i] + "\"")
  }

  function ZoneHead(servers: seq<string>): seq<string> {
    if servers == [] then [] else ["forward-zone:", "    name: \".\""]
  }

  function ServerHead(c: DnsConfig): seq<string> {
    if c.searchDomains == "" then [] else ["server:"]
  }

  function WrittenDomains(c: DnsConfig): seq<string> {
    if c.searchDomains == "" then [] else CleanDomains(Split(c.searchDomains, ','))
  }

  function Lines(c: DnsConfig): seq<string> {
    [HEADER] + ZoneHead(Servers(c)) + AddrLines(CleanServers(Servers(c)))
    + ServerHead(c) + DomainLines(WrittenDomains(c))
  }

  function Conf(c: DnsConfig): string {
    Join(Lines(c), '\n') + "\n"
  }

  method AppendAddresses(lines: seq<string>, servers: seq<string>) returns (r: seq<string>)
    ensures r == lines + AddrLines(CleanServers(servers))
  {
    r := lines;
    for i := 0 to |servers|
      invariant r == lines + AddrLines(CleanServers(servers))[..i]
    {
      var addr := RemoveBreaks(servers[i]);
      r := r + [ADDR + addr];
    }
  }

  lemma CleanDomainsSnoc(parts: seq<string>, i: nat)
    requires i < |parts|
    ensures var d := RemoveBreaks(Strip(parts[i], PythonSpace));
            CleanDomains(parts[..i + 1]) == CleanDomains(parts[..i]) + if d == "" then [] else [d]
  {
    assert parts[..i + 1][..i] == parts[..i];
  }

  lemma DomainLinesSnoc(domains: seq<string>, d: string)
    ensures DomainLines(domains + [d]) == DomainLines(domains) + [DOMAIN + d + "\""]
  {
  }

  method AppendDomains(lines: seq<string>, parts: seq<string>) returns (r: seq<string>)
    ensures r == lines + DomainLines(CleanDomains(parts))
  {
    r := lines;
    for i := 0 to |parts|
      invariant r == lines + DomainLines(CleanDomains(parts[..i]))
    {
      CleanDomainsSnoc(parts, i);
      var domain := RemoveBreaks(Strip(parts[i], PythonSpace));
      if domain != "" {
        DomainLinesSnoc(CleanDomains(parts[..i]), domain);
        r := r + [DOMAIN + domain + "\""];
      }
    }
    assert parts[..|parts|] == parts;
  }

  method BuildLines(c: DnsConfig) returns (lines: seq<string>)
    ensures lines == Lines(c)
  {
    var servers := Servers(c);
    lines := [HEADER];
    if servers != [] {
      lines := lines + ["forward-zone:", "    name: \".\""];
      lines := AppendAddresses(lines, servers);
    }
    if c.searchDomains != "" {
      lines := lines + ["server:"];
      lines := AppendDomains(lines, Split(c.searchDomains, ','));
    }
  }

  /** _build_unbound_conf: BuildLines up to the last line, with its two loops in AppendAddresses and AppendDomains. */
  method BuildUnboundConf(c: DnsConfig) returns (text: string)
    ensures text == Conf(c)
  {
    var lines := BuildLines(c);
    text := Join(lines, '\n') + "\n";
  }

  // ---- reading the text back ----

  /** Where a reader of the configuration is: outside, in a forward-zone clause (for the root, once its name was read), or in a server clause. */
  datatype Clause = Outside | ForwardZone(root: bool) | ServerClause

  /** What it has read: the forwarders of the root zone and the domains excepted from validation. */
  datatype Reader = Reader(clause: Clause, servers: seq<string>, domains: seq<string>)

  /** One line. An option counts in its own clause only, and anything else is passed over. */
  function ReadLine(r: Reader, line: string): Reader {
    if line == "forward-zone:" then r.(clause := ForwardZone(false))
    else if line == "server:" then r.(clause := ServerClause)
    else if line == "    name: \".\"" then if r.clause.ForwardZone? then r.(clause := ForwardZone(true)) else r
    else if "    forward-addr: " <= line then
      if r.clause == ForwardZone(true) then r.(servers := r.servers + [line[18..]]) else r
    else if "    domain-insecure: \"" <= line then
      if r.clause == ServerClause && |line| > 22 then r.(domains := r.domains + [line[22..|line| - 1]]) else r
    else r
  }

  function ReadLines(r: Reader, lines: seq<string>): Reader {
    if lines == [] then r else ReadLine(ReadLines(r, lines[..|lines| - 1]), lines[|lines| - 1])
  }

  const NOTHING_READ := Reader(Outside, [], [])

  function ReadConf(text: string): Reader {
    ReadLines(NOTHING_READ, Split(text, '\n'))
  }

  function ReadServers(text: string): seq<string> {
    ReadConf(text).servers
  }

  function ReadDomains(text: string): seq<string> {
    ReadConf(text).domains
  }

  lemma {:induction false} ReadConcat(r: Reader, a: seq<string>, b: seq<string>)
    ensures ReadLines(r, a + b) == ReadLines(ReadLines(r, a), b)
    decreases |b|
  {
    if b == [] {
      assert a + b == a;
    } else {
      assert (a + b)[..|a + b| - 1] == a + b[..|b| - 1];
      ReadConcat(r, a, b[..|b| - 1]);
    }
  }

  lemma ReadOne(r: Reader, line: string)
    ensures ReadLines(r, [line]) == ReadLine(r, line)
  {
    assert [line][..0] == [];
  }

  lemma ReadHeader(r: Reader)
    ensures ReadLine(r, HEADER) == r && ReadLine(r, "") == r
  {
    assert HEADER[0] == '#';
  }

  lemma ReadAddr(r: Reader, v: string)
    requires r.clause == ForwardZone(true)
    ensures ReadLine(r, ADDR + v) == r.(servers := r.servers + [v])
  {
    var line := ADDR + v;
    assert line[0] == ' ' && line[4] == 'f';
    assert line[..18] == ADDR && line[18..] == v;
  }

  lemma ReadDomain(r: Reader, v: string)
    requires r.clause == ServerClause
    ensures ReadLine(r, DOMAIN + v + "\"") == r.(domains := r.domains + [v])
  {
    var line := DOMAIN + v + "\"";
    assert |DOMAIN| == 22 && line[0] == ' ' && line[4] == 'd';
    assert line[..22] == DOMAIN && line[22..|line| - 1] == v;
  }

  lemma ReadHeads(r: Reader)
    ensures ReadLines(r, ["forward-zone:", "    name: \".\""]) == r.(clause := ForwardZone(true))
    ensures ReadLines(r, ["server:"]) == r.(clause := ServerClause)
  {
    var zone, name := "forward-zone:", "    name: \".\"";
    assert zone[0] == 'f' && name[0] == ' ';
    ReadConcat(r, [zone], [name]);
    assert [zone] + [name] == [zone, name];
    ReadOne(r, zone);
    ReadOne(r.(clause := ForwardZone(false)), name);
    ReadOne(r, "server:");
  }

  lemma {:induction false} ReadAddrLines(r: Reader, values: seq<string>)
    requires r.clause == ForwardZone(true)
    ensures ReadLines(r, AddrLines(values)) == r.(servers := r.servers + values)
    decreases |values|
  {
    if values == [] {
      assert r.servers + values == r.servers;
    } else {
      var init, v := values[..|values| - 1], values[|values| - 1];
      assert AddrLines(values) == AddrLines(init) + [ADDR + v];
      ReadAddrLines(r, init);
      ReadAddr(r.(servers := r.servers + init), v);
      assert r.servers + init + [v] == r.servers + values;
    }
  }

  lemma {:induction false} ReadDomainLines(r: Reader, values: seq<string>)
    requires r.clause == ServerClause
    ensures ReadLines(r, DomainLines(values)) == r.(domains := r.domains + values)
    decreases |values|
  {
    if values == [] {
      assert r.domains + values == r.domains;
    } else {
      var init, v := values[..|values| - 1], values[|values| - 1];
      assert DomainLines(values) == DomainLines(init) + [DOMAIN + v + "\""];
      ReadDomainLines(r, init);
      ReadDomain(r.(domains := r.domains + init), v);
      assert r.domains + init + [v] == r.domains + values;
    }
  }

  lemma {:induction false} StrippedNonEmpty(parts: seq<string>)
    ensures forall i :: 0 <= i < |Stripped(parts)| ==> Stripped(parts)[i] != "" && Bare(Stripped(parts)[i], PythonSpace)
  {
    if parts != [] {
      StrippedNonEmpty(parts[..|parts| - 1]);
      StripIsBare(parts[|parts| - 1], PythonSpace);
    }
  }

  lemma {:induction false} CleanDomainsAre(parts: seq<string>)
    ensures forall i :: 0 <= i < |CleanDomains(parts)| ==>
              CleanDomains(parts)[i] != "" && '\n' !in CleanDomains(parts)[i] && '\r' !in CleanDomains(parts)[i]
  {
    if parts != [] {
      CleanDomainsAre(parts[..|parts| - 1]);
    }
  }

  predicate NoBreaks(s: string) {
    '\n' !in s && '\r' !in s
  }

  ghost predicate AllUnbroken(lines: seq<string>) {
    forall i :: 0 <= i < |lines| ==> NoBreaks(lines[i])
  }

  lemma UnbrokenConcat(a: string, b: string)
    requires NoBreaks(a) && NoBreaks(b)
    ensures NoBreaks(a + b)
  {
  }

  lemma HeaderUnbroken()
    ensures NoBreaks(HEADER)
  {
    var a, b, c := "# Generated by", " cloudflarezt \U{2014} do", " not edit manually";
    assert NoBreaks(a);
    assert NoBreaks(b);
    assert NoBreaks(c);
    UnbrokenConcat(a, b);
    UnbrokenConcat(a + b, c);
  }

  lemma ZoneTextsUnbroken()
    ensures NoBreaks(ADDR) && NoBreaks("forward-zone:") && NoBreaks("    name: \".\"")
  {
  }

  lemma DomainTextsUnbroken()
    ensures NoBreaks(DOMAIN) && NoBreaks("\"") && NoBreaks("server:")
  {
  }

  lemma ConcatUnbroken(a: seq<string>, b: seq<string>)
    requires AllUnbroken(a) && AllUnbroken(b)
    ensures AllUnbroken(a + b)
  {
  }

  lemma AddrLinesUnbroken(servers: seq<string>)
    ensures AllUnbroken(AddrLines(CleanServers(servers)))
  {
    ZoneTextsUnbroken();
    var lines := AddrLines(CleanServers(servers));
    assert forall i :: 0 <= i < |lines| ==> NoBreaks(CleanServers(servers)[i]) && lines[i] == ADDR + CleanServers(servers)[i];
  }

  lemma DomainLinesUnbroken(c: DnsConfig)
    ensures AllUnbroken(DomainLines(WrittenDomains(c)))
  {
    DomainTextsUnbroken();
    CleanDomainsAre(Split(c.searchDomains, ','));
    var domains, lines := WrittenDomains(c), DomainLines(WrittenDomains(c));
    assert forall i :: 0 <= i < |lines| ==> NoBreaks(domains[i]) && lines[i] == DOMAIN + domains[i] + "\"";
  }

  lemma HeadsUnbroken(c: DnsConfig)
    ensures AllUnbroken([HEADER]) && AllUnbroken(ZoneHead(Servers(c))) && AllUnbroken(ServerHead(c))
  {
    HeaderUnbroken();
    ZoneTextsUnbroken();
    DomainTextsUnbroken();
  }

  /** No line of the generated text contains a line break of any kind. */
  lemma LinesHaveNoBreaks(c: DnsConfig)
    ensures AllUnbroken(Lines(c))
  {
    var h, z, a, s := [HEADER], ZoneHead(Servers(c)), AddrLines(CleanServers(Servers(c))), ServerHead(c);
    HeadsUnbroken(c);
    AddrLinesUnbroken(Servers(c));
    DomainLinesUnbroken(c);
    ConcatUnbroken(h, z);
    ConcatUnbroken(h + z, a);
    ConcatUnbroken(h + z + a, s);
    ConcatUnbroken(h + z + a + s, DomainLines(WrittenDomains(c)));
  }

  /** Reading the text line by line gives the lines it was made of, and an empty one after the last break. */
  lemma SplitConf(c: DnsConfig)
    ensures Split(Conf(c), '\n') == Lines(c) + [""]
  {
    LinesHaveNoBreaks(c);
    var lines := Lines(c);
    assert forall i :: 0 <= i < |lines| ==> NoBreaks(lines[i]);
    JoinSnocEmpty(lines, '\n');
    SplitJoined(lines + [""], '\n');
  }

  lemma {:induction false} JoinSnocEmpty(parts: seq<string>, sep: char)
    requires parts != []
    ensures Join(parts + [""], sep) == Join(parts, sep) + [sep]
  {
    var all := parts + [""];
    if |parts| == 1 {
      assert all[1..] == [""];
      assert parts[0] + [sep] + "" == parts[0] + [sep];
    } else {
      assert all[1..] == parts[1..] + [""];
      JoinSnocEmpty(parts[1..], sep);
      assert parts[0] + [sep] + (Join(parts[1..], sep) + [sep]) == parts[0] + [sep] + Join(parts[1..], sep) + [sep];
    }
  }

  /** The part of the text about the root zone. */
  lemma ReadsZone(r: Reader, servers: seq<string>)
    ensures var r' := ReadLines(r, ZoneHead(servers) + AddrLines(CleanServers(servers)));
            r'.servers == r.servers + CleanServers(servers) && r'.domains == r.domains
  {
    ReadConcat(r, ZoneHead(servers), AddrLines(CleanServers(servers)));
    if servers == [] {
      assert CleanServers(servers) == [] && AddrLines(CleanServers(servers)) == [];
      assert r.servers + [] == r.servers;
    } else {
      ReadHeads(r);
      ReadAddrLines(r.(clause := ForwardZone(true)), CleanServers(servers));
    }
  }

  /** The part about the domains. */
  lemma ReadsServer(r: Reader, c: DnsConfig)
    ensures var r' := ReadLines(r, ServerHead(c) + DomainLines(WrittenDomains(c)));
            r'.servers == r.servers && r'.domains == r.domains + WrittenDomains(c)
  {
    ReadConcat(r, ServerHead(c), DomainLines(WrittenDomains(c)));
    if c.searchDomains == "" {
      assert DomainLines(WrittenDomains(c)) == [] && r.domains + [] == r.domains;
    } else {
      ReadHeads(r);
      ReadDomainLines(r.(clause := ServerClause), WrittenDomains(c));
    }
  }

  function ZonePart(c: DnsConfig): seq<string> {
    ZoneHead(Servers(c)) + AddrLines(CleanServers(Servers(c)))
  }

  function ServerPart(c: DnsConfig): seq<string> {
    ServerHead(c) + DomainLines(WrittenDomains(c))
  }

  lemma LinesInParts(c: DnsConfig)
    ensures Lines(c) + [""] == [HEADER] + ZonePart(c) + ServerPart(c) + [""]
  {
    Regroup([HEADER], ZoneHead(Servers(c)), AddrLines(CleanServers(Servers(c))), ServerHead(c), DomainLines(WrittenDomains(c)));
  }

  lemma Regroup(h: seq<string>, z1: seq<string>, z2: seq<string>, s1: seq<string>, s2: seq<string>)
    ensures h + z1 + z2 + s1 + s2 == h + (z1 + z2) + (s1 + s2)
  {
  }

  lemma ReadsEnds(r: Reader)
    ensures ReadLines(r, [HEADER]) == r && ReadLines(r, [""]) == r
  {
    ReadOne(r, HEADER);
    ReadOne(r, "");
    ReadHeader(r);
  }

  /** The four parts in a row, whatever the lines at both ends are. */
  lemma ReadsParts(r: Reader, h: seq<string>, z: seq<string>, s: seq<string>, e: seq<string>,
                   servers: seq<string>, domains: seq<string>)
    requires forall x: Reader :: ReadLines(x, h) == x && ReadLines(x, e) == x
    requires forall x: Reader :: ReadLines(x, z).servers == x.servers + servers && ReadLines(x, z).domains == x.domains
    requires forall x: Reader :: ReadLines(x, s).servers == x.servers && ReadLines(x, s).domains == x.domains + domains
    ensures ReadLines(r, h + z + s + e).servers == r.servers + servers
    ensures ReadLines(r, h + z + s + e).domains == r.domains + domains
  {
    ReadFour(r, h, z, s, e);
  }

  lemma ReadsBack(c: DnsConfig)
    ensures ReadLines(NOTHING_READ, Lines(c) + [""]).servers == CleanServers(Servers(c))
    ensures ReadLines(NOTHING_READ, Lines(c) + [""]).domains == WrittenDomains(c)
  {
    LinesInParts(c);
    var servers, domains := CleanServers(Servers(c)), WrittenDomains(c);
    forall x: Reader ensures ReadLines(x, [HEADER]) == x && ReadLines(x, [""]) == x {
      ReadsEnds(x);
    }
    forall x: Reader ensures ReadLines(x, ZonePart(c)).servers == x.servers + servers && ReadLines(x, ZonePart(c)).domains == x.domains {
      ReadsZone(x, Servers(c));
    }
    forall x: Reader ensures ReadLines(x, ServerPart(c)).servers == x.servers && ReadLines(x, ServerPart(c)).domains == x.domains + domains {
      ReadsServer(x, c);
    }
    ReadsParts(NOTHING_READ, [HEADER], ZonePart(c), ServerPart(c), [""], servers, domains);
    assert [] + servers == servers && [] + domains == domains;
  }

  lemma ReadFour(r: Reader, a: seq<string>, b: seq<string>, c: seq<string>, d: seq<string>)
    ensures ReadLines(r, a + b + c + d) == ReadLines(ReadLines(ReadLines(ReadLines(r, a), b), c), d)
  {
    ReadConcat(r, a, b);
    ReadConcat(r, a + b, c);
    ReadConcat(r, a + b + c, d);
  }

  lemma ReadsServers(c: DnsConfig)
    ensures ReadServers(Conf(c)) == CleanServers(Servers(c))
  {
    SplitConf(c);
    ReadsBack(c);
  }

  lemma ReadsDomains(c: DnsConfig)
    ensures ReadDomains(Conf(c)) == WrittenDomains(c)
  {
    SplitConf(c);
    ReadsBack(c);
  }

  /**
   * Round trip, for every configuration whatever characters it contains: read clause by clause, the
   * text gives exactly the cleaned servers and the cleaned domains, in order; every server is non-empty,
   * and each value takes one line, so the text has no line that is not accounted for.
   */
  lemma ConfRoundTrip(c: DnsConfig)
    ensures ReadServers(Conf(c)) == CleanServers(Servers(c))
    ensures ReadDomains(Conf(c)) == WrittenDomains(c)
    ensures forall i :: 0 <= i < |ReadServers(Conf(c))| ==> ReadServers(Conf(c))[i] != ""
    ensures |Split(Conf(c), '\n')| == 2 + (if Servers(c) == [] then 0 else 2 + |ReadServers(Conf(c))|)
                                        + (if c.searchDomains == "" then 0 else 1 + |ReadDomains(Conf(c))|)
  {
    ReadsServers(c);
    ReadsDomains(c);
    SplitConf(c);
    ServersSurvive(c);
  }

  lemma FirstSurvives(s: string)
    requires s != "" && !PythonSpace(s[0])
    ensures RemoveBreaks(s) != ""
  {
  }

  lemma GatewaysBare()
    ensures GATEWAY_DNS_V4 != "" && !PythonSpace(GATEWAY_DNS_V4[0])
    ensures GATEWAY_DNS_V6 != "" && !PythonSpace(GATEWAY_DNS_V6[0])
  {
    assert GATEWAY_DNS_V4[0] == '1' && GATEWAY_DNS_V6[0] == '2';
  }

  /** A server keeps its first character when line breaks are removed: that one is no white space. */
  lemma ServersSurvive(c: DnsConfig)
    ensures forall i :: 0 <= i < |CleanServers(Servers(c))| ==> CleanServers(Servers(c))[i] != ""
  {
    StrippedNonEmpty(Split(c.customServers, ','));
    GatewaysBare();
    forall i | 0 <= i < |Servers(c)| ensures RemoveBreaks(Servers(c)[i]) != "" {
      FirstSurvives(Servers(c)[i]);
    }
  }

  // ---- what the configuration chooses ----

  /** One entry of a comma-separated field: a text with white space around it, or nothing but white space. */
  datatype Entry = Entry(left: string, text: string, right: string)

  predicate PythonWhite(s: string) {
    forall i :: 0 <= i < |s| ==> White(s[i]) || s[i] as int in {28, 29, 30, 31}
  }

  predicate EntryOk(e: Entry) {
    && PythonWhite(e.left) && PythonWhite(e.right) && ',' !in e.text && '\n' !in e.text && '\r' !in e.text
    && (e.text != "" ==> !PythonWhite([e.text[0]]) && !PythonWhite([e.text[|e.text| - 1]]))
  }

  function Field(entries: seq<Entry>): (r: seq<string>)
    ensures |r| == |entries| && forall i :: 0 <= i < |r| ==> r[i] == entries[i].left + entries[i].text + entries[i].right
  {
    seq(|entries|, i requires 0 <= i < |entries| => entries[i].left + entries[i].text + entries[i].right)
  }

  /** The texts of the entries that have one, in order. */
  function Texts(entries: seq<Entry>): seq<string> {
    if entries == [] then []
    else Texts(entries[..|entries| - 1]) + if entries[|entries| - 1].text == "" then [] else [entries[|entries| - 1].text]
  }

  lemma WhiteIsPythonSpace(s: string)
    ensures PythonWhite(s) <==> forall i :: 0 <= i < |s| ==> PythonSpace(s[i])
  {
    forall i | 0 <= i < |s| ensures PythonSpace(s[i]) <==> White(s[i]) || s[i] as int in {28, 29, 30, 31} {
      SpacesAre(s[i]);
    }
  }

  lemma EntryStrips(e: Entry)
    requires EntryOk(e)
    ensures Strip(e.left + e.text + e.right, PythonSpace) == e.text && RemoveBreaks(e.text) == e.text
    ensures ',' !in e.left + e.text + e.right
  {
    WhiteIsPythonSpace(e.left);
    WhiteIsPythonSpace(e.right);
    RemoveBreaksKeeps(e.text);
    NoCommaInSpace(e.left);
    NoCommaInSpace(e.right);
    if e.text == "" {
      assert e.left + e.text + e.right == e.left + e.right;
      StripSpaces(e.left + e.right, PythonSpace);
    } else {
      WhiteIsPythonSpace([e.text[0]]);
      WhiteIsPythonSpace([e.text[|e.text| - 1]]);
      assert PythonSpace(e.text[0]) <==> PythonSpace([e.text[0]][0]);
      assert PythonSpace(e.text[|e.text| - 1]) <==> PythonSpace([e.text[|e.text| - 1]][0]);
      StripPadded(e.left, e.text, e.right, PythonSpace);
    }
  }

  lemma NoCommaInSpace(s: string)
    requires forall i :: 0 <= i < |s| ==> PythonSpace(s[i])
    ensures ',' !in s
  {
  }

  lemma {:induction false} StrippedAre(entries: seq<Entry>)
    requires forall i :: 0 <= i < |entries| ==> EntryOk(entries[i])
    ensures Stripped(Field(entries)) == Texts(entries) && CleanDomains(Field(entries)) == Texts(entries)
  {
    if entries != [] {
      var init, f := entries[..|entries| - 1], Field(entries);
      assert f[..|f| - 1] == Field(init);
      StrippedAre(init);
      EntryStrips(entries[|entries| - 1]);
    }
  }

  lemma FieldSplits(entries: seq<Entry>)
    requires entries != [] && forall i :: 0 <= i < |entries| ==> EntryOk(entries[i])
    ensures Split(Join(Field(entries), ','), ',') == Field(entries)
  {
    forall i | 0 <= i < |entries| ensures ',' !in Field(entries)[i] {
      EntryStrips(entries[i]);
    }
    SplitJoined(Field(entries), ',');
  }

  lemma {:induction false} TextsAreWhole(entries: seq<Entry>)
    requires forall i :: 0 <= i < |entries| ==> EntryOk(entries[i])
    ensures forall j :: 0 <= j < |Texts(entries)| ==> RemoveBreaks(Texts(entries)[j]) == Texts(entries)[j]
  {
    if entries != [] {
      TextsAreWhole(entries[..|entries| - 1]);
      EntryStrips(entries[|entries| - 1]);
    }
  }

  /** The field is a comma-separated list of these entries. */
  ghost predicate Lists(field: string, entries: seq<Entry>) {
    entries != [] && (forall i :: 0 <= i < |entries| ==> EntryOk(entries[i])) && field == Join(Field(entries), ',')
  }

  lemma ListCleans(field: string, entries: seq<Entry>)
    requires Lists(field, entries)
    ensures CleanServers(Stripped(Split(field, ','))) == Texts(entries)
    ensures CleanDomains(Split(field, ',')) == Texts(entries)
  {
    FieldSplits(entries);
    StrippedAre(entries);
    TextsAreWhole(entries);
    assert CleanServers(Texts(entries)) == Texts(entries);
  }

  /** Mode "custom": the override forwards to exactly the servers of the field that are not blank, in order. */
  lemma CustomForwards(c: DnsConfig, entries: seq<Entry>)
    requires c.mode == "custom" && Lists(c.customServers, entries)
    ensures ReadServers(Conf(c)) == Texts(entries)
  {
    ListCleans(c.customServers, entries);
    CustomServers(c);
    ReadsServers(c);
  }

  lemma CustomServers(c: DnsConfig)
    requires c.mode == "custom"
    ensures Servers(c) == Stripped(Split(c.customServers, ','))
  {
    assert "custom"[1] == 'u' && "cloudflare_gateway"[1] == 'l';
  }

  /** Mode "cloudflare_gateway": it forwards to the two gateway resolvers, whatever the custom field says. */
  lemma GatewayForwards(c: DnsConfig)
    requires c.mode == "cloudflare_gateway"
    ensures ReadServers(Conf(c)) == ["162.159.36.1", "2606:4700:4700::1111"]
  {
    GatewayClean(c);
    ReadsServers(c);
  }

  lemma GatewayClean(c: DnsConfig)
    requires c.mode == "cloudflare_gateway"
    ensures CleanServers(Servers(c)) == ["162.159.36.1", "2606:4700:4700::1111"]
  {
    GatewaysUnbroken();
    PairCleans(GATEWAY_DNS_V4, GATEWAY_DNS_V6);
  }

  lemma GatewaysUnbroken()
    ensures NoBreaks(GATEWAY_DNS_V4) && NoBreaks(GATEWAY_DNS_V6)
  {
  }

  lemma PairCleans(a: string, b: string)
    requires NoBreaks(a) && NoBreaks(b)
    ensures CleanServers([a, b]) == [a, b]
  {
    RemoveBreaksKeeps(a);
    RemoveBreaksKeeps(b);
  }

  /** In any other mode there is no forwarder. */
  lemma OtherwiseNoForward(c: DnsConfig)
    requires c.mode != "custom" && c.mode != "cloudflare_gateway"
    ensures ReadServers(Conf(c)) == []
  {
    ReadsServers(c);
  }

  /** In every mode the excepted domains are exactly the search domains that are not blank, in order. */
  lemma DomainsExcepted(c: DnsConfig, entries: seq<Entry>)
    requires Lists(c.searchDomains, entries)
    ensures ReadDomains(Conf(c)) == Texts(entries)
  {
    ListCleans(c.searchDomains, entries);
    NothingToSplit(c.searchDomains);
    ReadsDomains(c);
  }

  lemma NothingToSplit(field: string)
    ensures field == "" ==> CleanDomains(Split(field, ',')) == []
  {
    if field == "" {
      assert Split(field, ',') == [""];
      assert [""][..0] == [];
    }
  }

  /** The text has no carriage return, so reading the written file in text mode gives the same text. */
  lemma ConfReadsBack(c: DnsConfig)
    ensures UniversalNewlines(Conf(c)) == Conf(c)
  {
    LinesHaveNoBreaks(c);
    var lines := Lines(c);
    assert forall i :: 0 <= i < |lines| ==> NoBreaks(lines[i]);
    JoinHasNo(lines, '\n', '\r');
    NewlinesUntouched(Conf(c));
  }

  // ---- apply and remove ----

  /** The override file and what Unbound loaded from it at its last reload. */
  datatype Unbound = Unbound(file: Option<string>, loaded: Option<string>)

  datatype Reply = Disabled | NoChange | Applied | Removed

  function Reloaded(u: Unbound, ok: bool): Unbound {
    if ok then u.(loaded := u.file) else u
  }

  predicate Wanted(enabled: bool, c: DnsConfig) {
    enabled && c.mode != "system"
  }

  function Apply(u: Unbound, enabled: bool, c: DnsConfig, reloads: bool): (Unbound, Reply) {
    if !Wanted(enabled, c) then (u.(file := None), Disabled)
    else if u.file.Some? && UniversalNewlines(u.file.value) == Conf(c) then (u, NoChange)
    else (Reloaded(u.(file := Some(Conf(c))), reloads), Applied)
  }

  function Remove(u: Unbound, reloads: bool): Unbound {
    Reloaded(u.(file := None), reloads)
  }

  class Override {
    var state: Unbound

    constructor (u: Unbound)
      ensures state == u
    {
      state := u;
    }

    method Reload(ok: bool)
      modifies this
      ensures state == Reloaded(old(state), ok)
    {
      if ok {
        state := state.(loaded := state.file);
      }
    }

    method CmdApplyDns(enabled: bool, c: DnsConfig, reloads: bool) returns (r: Reply)
      modifies this
      ensures (state, r) == Apply(old(state), enabled, c, reloads)
    {
      if !enabled || c.mode == "system" {
        state := state.(file := None);
        return Disabled;
      }
      var content := BuildUnboundConf(c);
      if state.file.Some? && UniversalNewlines(state.file.value) == content {
        return NoChange;
      }
      state := state.(file := Some(content));
      Reload(reloads);
      r := Applied;
    }

    method CmdRemoveDns(reloads: bool) returns (r: Reply)
      modifies this
      ensures state == Remove(old(state), reloads) && r == Removed
    {
      state := state.(file := None);
      Reload(reloads);
      r := Removed;
    }
  }

  datatype Command = DoApply(enabled: bool, c: DnsConfig) | DoRemove

  /** A command whose reload, if any, succeeds. */
  function Exec(u: Unbound, cmd: Command): Unbound {
    match cmd
    case DoApply(enabled, c) => Apply(u, enabled, c, true).0
    case DoRemove => Remove(u, true)
  }

  function ExecAll(u: Unbound, cmds: seq<Command>): Unbound
    decreases |cmds|
  {
    if cmds == [] then u else ExecAll(Exec(u, cmds[0]), cmds[1..])
  }

  /** If the file exists, Unbound has loaded it. */
  predicate LoadedIfPresent(u: Unbound) {
    u.file.Some? ==> u.loaded == u.file
  }

  /** Over every sequence of configuration changes and completed commands, an existing override file is the loaded one. */
  lemma {:induction false} FileIsLoaded(u: Unbound, cmds: seq<Command>)
    requires LoadedIfPresent(u)
    ensures LoadedIfPresent(ExecAll(u, cmds))
    decreases |cmds|
  {
    if cmds == [] {
    } else {
      FileIsLoaded(Exec(u, cmds[0]), cmds[1..]);
    }
  }

  /** What a text-mode read of the override file gives. */
  function ReadBack(u: Unbound): Option<string> {
    if u.file.Some? then Some(UniversalNewlines(u.file.value)) else None
  }

  /** After apply the file reads as the generated text, or is absent; and applying again is no change. */
  lemma ApplyIsIdempotent(u: Unbound, enabled: bool, c: DnsConfig, reloads: bool, again: bool)
    ensures var u1 := Apply(u, enabled, c, reloads).0;
            var wanted := enabled && c.mode != "system";
            && ReadBack(u1) == (if wanted then Some(Conf(c)) else None)
            && (Apply(u, enabled, c, reloads).1 == Applied <==> wanted && ReadBack(u) != Some(Conf(c)))
            && (Apply(u, enabled, c, reloads).1 == NoChange <==> wanted && ReadBack(u) == Some(Conf(c)))
            && (Apply(u, enabled, c, reloads).1 == Applied ==> u1.file == Some(Conf(c)))
            && Apply(u1, enabled, c, again) == (u1, if wanted then NoChange else Disabled)
  {
    ConfReadsBack(c);
  }

  /**
   * After any sequence of commands the last one decides: an apply that wants an override leaves the
   * generated text in the file and loaded, another apply leaves no file, and a remove neither.
   */
  lemma LastCommandDecides(u: Unbound, cmds: seq<Command>, last: Command)
    requires LoadedIfPresent(u)
    ensures var u' := ExecAll(u, cmds + [last]);
            if last.DoApply? && last.enabled && last.c.mode != "system"
            then ReadBack(u') == Some(Conf(last.c)) && u'.loaded == u'.file
            else u'.file == None && (last.DoRemove? ==> u'.loaded == None)
  {
    FileIsLoaded(u, cmds);
    ExecSnoc(u, cmds, last);
    if last.DoApply? {
      ConfReadsBack(last.c);
    }
  }

  lemma {:induction false} ExecSnoc(u: Unbound, cmds: seq<Command>, last: Command)
    ensures ExecAll(u, cmds + [last]) == Exec(ExecAll(u, cmds), last)
    decreases |cmds|
  {
    if cmds == [] {
      assert [] + [last] == [last] && [last][1..] == [];
    } else {
      assert (cmds + [last])[1..] == cmds[1..] + [last];
      ExecSnoc(Exec(u, cmds[0]), cmds[1..], last);
    }
  }

  /** Unbound agrees with the file after a command exactly unless the override was just disabled: that path never reloads. */
  lemma AgreesExactlyUnlessDisabled(u: Unbound, cmd: Command)
    requires u.loaded == u.file
    ensures Exec(u, cmd).loaded == Exec(u, cmd).file
       <==> !(cmd.DoApply? && !(cmd.enabled && cmd.c.mode != "system") && u.file.Some?)
  {
  }

  /**
   * Apply leaves an existing file loaded exactly when its reload succeeds, or it wants none: the
   * override is disabled, the file already reads as the new text, or Unbound happens to have that
   * text loaded from before.
   */
  lemma AppliedIsLoadedExactlyWhen(u: Unbound, enabled: bool, c: DnsConfig, reloads: bool)
    requires LoadedIfPresent(u)
    ensures LoadedIfPresent(Apply(u, enabled, c, reloads).0)
       <==> reloads || !(enabled && c.mode != "system") || ReadBack(u) == Some(Conf(c)) || u.loaded == Some(Conf(c))
  {
    ConfReadsBack(c);
  }

  /**
   * The last case is real: disabling does not reload, so the old text stays loaded with no file, and
   * applying it again is in step with Unbound even when the reload fails.
   */
  lemma ReenabledStaysLoaded(u: Unbound, c: DnsConfig)
    requires Wanted(true, c)
    ensures var off := Apply(Apply(u, true, c, true).0, false, c, true).0;
            Apply(u, true, c, true).1 == Applied ==>
              && LoadedIfPresent(off) && ReadBack(off) == None
              && LoadedIfPresent(Apply(off, true, c, false).0)
  {
  }

  /** Remove leaves no override, and none loaded when its reload succeeds. */
  lemma RemoveLeavesNothing(u: Unbound, reloads: bool)
    ensures Remove(u, reloads).file == None && (reloads ==> Remove(u, reloads).loaded == None)
    ensures !reloads ==> Remove(u, reloads).loaded == u.loaded
  {
  }

  function ApplyTimes(u: Unbound, enabled: bool, c: DnsConfig, n: nat): Unbound {
    if n == 0 then u else Apply(ApplyTimes(u, enabled, c, n - 1), enabled, c, true).0
  }

  lemma WritesOnce(u: Unbound, c: DnsConfig)
    requires Wanted(true, c) && ReadBack(u) != Some(Conf(c))
    ensures Apply(u, true, c, false).0 == Unbound(Some(Conf(c)), u.loaded)
  {
  }

  lemma FindsItsText(u: Unbound, c: DnsConfig)
    requires Wanted(true, c) && u.file == Some(Conf(c))
    ensures Apply(u, true, c, true).0 == u
  {
    ConfReadsBack(c);
  }

  /** A reload that fails is never repeated: applying the same configuration again finds no change, however often. */
  lemma {:induction false} FailedReloadIsNotRetried(u: Unbound, c: DnsConfig, n: nat)
    requires Wanted(true, c) && ReadBack(u) != Some(Conf(c))
    ensures ApplyTimes(Apply(u, true, c, false).0, true, c, n) == Unbound(Some(Conf(c)), u.loaded)
  {
    if n == 0 {
      WritesOnce(u, c);
    } else {
      FailedReloadIsNotRetried(u, c, n - 1);
      FindsItsText(Unbound(Some(Conf(c)), u.loaded), c);
    }
  }
}
