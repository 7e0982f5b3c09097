// opnsenseDNSServers of main.go: the upstream servers named in /conf/config.xml, found line by line.
module SystemDns {
  import opened Basics
  import opened Text

  const OPEN := "<dnsserver>"
  const CLOSE := "</dnsserver>"

  predicate HasSuffix(s: string, end: string) {
    |s| >= |end| && s[|s| - |end|..] == end
  }

  /** A start a and an end b of a line do not overlap when b's first two characters are nowhere in a. */
  lemma NoOverlap(line: string, a: string, b: string)
    requires a <= line && HasSuffix(line, b) && |a| >= 2 && |b| >= 2
    requires a[1] != b[1] && forall i :: 0 < i < |a| ==> a[i] != b[0]
    ensures |a| + |b| <= |line|
  {
    var i := |line| - |b|;
    assert line[i] == line[i..][0] == b[0] && line[i + 1] == line[i..][1] == b[1];
    assert forall j :: 0 <= j < |a| ==> line[j] == a[j];
  }

  lemma TagTexts()
    ensures |OPEN| == 11 && |CLOSE| == 12 && OPEN[1] != CLOSE[1]
    ensures forall i :: 0 < i < |OPEN| ==> OPEN[i] != CLOSE[0]
  {
    assert CLOSE[0] == '<' && CLOSE[1] == '/' && OPEN[1] == 'd';
  }

  /** The slice line[len(open):len(line)-len(close)] never panics: opening and closing tag cannot overlap. */
  lemma TagsDoNotOverlap(line: string)
    requires OPEN <= line && HasSuffix(line, CLOSE)
    ensures |OPEN| + |CLOSE| <= |line|
  {
    TagTexts();
    NoOverlap(line, OPEN, CLOSE);
  }

  /** What one line of the file contributes. */
  function ServerOf(raw: string): Option<string> {
    var line := Strip(raw, GoSpace);
    if OPEN <= line && HasSuffix(line, CLOSE) && |OPEN| + |CLOSE| <= |line| then
      var ip := Strip(line[|OPEN|..|line| - |CLOSE|], GoSpace);
      if ip == "" then None else Some(ip)
    else None
  }

  function ServersOf(lines: seq<string>): seq<string> {
    if lines == [] then []
    else
      ServersOf(lines[..|lines| - 1])
      + match ServerOf(lines[|lines| - 1]) case None => [] case Some(ip) => [ip]
  }

  lemma ServersOfNext(lines: seq<string>, i: nat)
    requires i < |lines|
    ensures ServersOf(lines[..i + 1]) == ServersOf(lines[..i]) + match ServerOf(lines[i]) case None => [] case Some(ip) => [ip]
  {
    assert lines[..i + 1][..i] == lines[..i];
  }

  method OpnsenseDNSServers(data: string) returns (servers: seq<string>)
    ensures servers == ServersOf(Split(data, '\n'))
  {
    var lines := Split(data, '\n');
    servers := [];
    for i := 0 to |lines|
      invariant servers == ServersOf(lines[..i])
    {
      ServersOfNext(lines, i);
      var line := Strip(lines[i], GoSpace);
      if OPEN <= line && HasSuffix(line, CLOSE) {
        TagsDoNotOverlap(line);
        var ip := Strip(line[|OPEN|..|line| - |CLOSE|], GoSpace);
        if ip != "" {
          servers := servers + [ip];
        }
      }
    }
    assert lines[..|lines|] == lines;
  }

  /** An element written on one line, however indented and padded, contributes exactly its address. */
  lemma ElementOnOneLine(left: string, pad: string, ip: string, pad': string, right: string)
    requires forall i :: 0 <= i < |left| ==> GoSpace(left[i])
    requires forall i :: 0 <= i < |right| ==> GoSpace(right[i])
    requires forall i :: 0 <= i < |pad| ==> GoSpace(pad[i])
    requires forall i :: 0 <= i < |pad'| ==> GoSpace(pad'[i])
    requires ip != "" && Bare(ip, GoSpace)
    ensures ServerOf(left + (OPEN + (pad + ip + pad') + CLOSE) + right) == Some(ip)
  {
    var inner := pad + ip + pad';
    var line := OPEN + inner + CLOSE;
    assert line[0] == '<' && line[|line| - 1] == '>';
    StripPadded(left, line, right, GoSpace);
    assert line[..|OPEN|] == OPEN && line[|line| - |CLOSE|..] == CLOSE;
    assert line[|OPEN|..|line| - |CLOSE|] == inner;
    StripPadded(pad, ip, pad', GoSpace);
  }

  // ---- a whole file ----

  /** A line of a file: an element with white space around and inside it, one with nothing but white space in it, or any other. */
  datatype Line =
    | Element(left: string, pad: string, ip: string, pad': string, right: string)
    | Blank(left: string, pad: string, right: string)
    | Other(text: string)

  function Written(l: Line): string {
    match l
    case Element(left, pad, ip, pad', right) => left + ("<dnsserver>" + (pad + ip + pad') + "</dnsserver>") + right
    case Blank(left, pad, right) => left + ("<dnsserver>" + pad + "</dnsserver>") + right
    case Other(text) => text
  }

  predicate AllWhite(s: string) {
    forall i :: 0 <= i < |s| ==> White(s[i])
  }

  /** A text with no white space at its ends. */
  predicate Trimmed(s: string) {
    s != "" ==> !White(s[0]) && !White(s[|s| - 1])
  }

  /** A line of any other kind, without the white space around it, does not start and end with the two tags. */
  predicate Untagged(text: string, left: string, inner: string, right: string) {
    && text == left + inner + right && AllWhite(left) && AllWhite(right) && Trimmed(inner)
    && !("<dnsserver>" <= inner && HasSuffix(inner, "</dnsserver>"))
  }

  ghost predicate LineOk(l: Line) {
    && '\n' !in Written(l)
    && match l
       case Element(left, pad, ip, pad', right) =>
         AllWhite(left) && AllWhite(pad) && AllWhite(pad') && AllWhite(right) && ip != "" && Trimmed(ip)
       case Blank(left, pad, right) => AllWhite(left) && AllWhite(pad) && AllWhite(right)
       case Other(text) => exists left, inner, right :: Untagged(text, left, inner, right)
  }

  function WrittenAll(ls: seq<Line>): (r: seq<string>)
    ensures |r| == |ls| && forall i :: 0 <= i < |ls| ==> r[i] == Written(ls[i])
  {
    seq(|ls|, i requires 0 <= i < |ls| => Written(ls[i]))
  }

  /** The addresses of the elements, in order. */
  function Addresses(ls: seq<Line>): seq<string> {
    if ls == [] then []
    else Addresses(ls[..|ls| - 1]) + if ls[|ls| - 1].Element? then [ls[|ls| - 1].ip] else []
  }

  lemma WhiteIsSpace(s: string)
    ensures AllWhite(s) <==> forall i :: 0 <= i < |s| ==> GoSpace(s[i])
    ensures Trimmed(s) <==> Bare(s, GoSpace)
  {
    forall i | 0 <= i < |s| ensures GoSpace(s[i]) <==> White(s[i]) {
      SpacesAre(s[i]);
    }
  }

  /** The tags around any text can be told from it, however the whole is indented. */
  lemma TagsAround(left: string, inner: string, right: string)
    requires AllWhite(left) && AllWhite(right)
    ensures var line := OPEN + inner + CLOSE;
            && Strip(left + line + right, GoSpace) == line
            && OPEN <= line && HasSuffix(line, CLOSE) && line[|OPEN|..|line| - |CLOSE|] == inner
  {
    var line := OPEN + inner + CLOSE;
    WhiteIsSpace(left);
    WhiteIsSpace(right);
    assert line[0] == '<' && line[|line| - 1] == '>';
    StripPadded(left, line, right, GoSpace);
    assert line[..|OPEN|] == OPEN && line[|line| - |CLOSE|..] == CLOSE;
  }

  lemma UntaggedGivesNone(text: string, left: string, inner: string, right: string)
    requires Untagged(text, left, inner, right)
    ensures ServerOf(text) == None
  {
    WhiteIsSpace(left);
    WhiteIsSpace(right);
    WhiteIsSpace(inner);
    if inner == "" {
      assert text == left + right;
      StripSpaces(text, GoSpace);
    } else {
      StripPadded(left, inner, right, GoSpace);
    }
  }

  lemma LineGives(l: Line)
    requires LineOk(l)
    ensures ServerOf(Written(l)) == if l.Element? then Some(l.ip) else None
  {
    match l
    case Element(left, pad, ip, pad', right) =>
      WhiteIsSpace(left);
      WhiteIsSpace(pad);
      WhiteIsSpace(ip);
      WhiteIsSpace(pad');
      WhiteIsSpace(right);
      ElementOnOneLine(left, pad, ip, pad', right);
    case Blank(left, pad, right) =>
      TagsAround(left, pad, right);
      WhiteIsSpace(pad);
      StripSpaces(pad, GoSpace);
    case Other(text) =>
      var left, inner, right :| Untagged(text, left, inner, right);
      UntaggedGivesNone(text, left, inner, right);
  }

  lemma {:induction false} LinesGive(ls: seq<Line>)
    requires forall i :: 0 <= i < |ls| ==> LineOk(ls[i])
    ensures ServersOf(WrittenAll(ls)) == Addresses(ls)
  {
    if ls != [] {
      var init, all := ls[..|ls| - 1], WrittenAll(ls);
      LinesGive(init);
      LineGives(ls[|ls| - 1]);
      assert all[..|all| - 1] == WrittenAll(init);
    }
  }

  /** A whole file of such lines gives exactly the addresses of its elements, in order. */
  lemma FileGives(ls: seq<Line>)
    requires ls != [] && forall i :: 0 <= i < |ls| ==> LineOk(ls[i])
    ensures ServersOf(Split(Join(WrittenAll(ls), '\n'), '\n')) == Addresses(ls)
  {
    SplitJoined(WrittenAll(ls), '\n');
    LinesGive(ls);
  }
}
