// The string operations of Python and Go that the programs use.
module Text {
  /** str.isspace of one character. */
  predicate PythonSpace(c: char) {
    || '\t' <= c <= '\r'
    || (c as int >= 0x1c && c as int <= 0x20)
    || c as int in {0x85, 0xa0, 0x1680, 0x2028, 0x2029, 0x202f, 0x205f, 0x3000}
    || 0x2000 <= c as int <= 0x200a
  }

  /** unicode.IsSpace: the same but for the four separators 0x1c to 0x1f. */
  predicate GoSpace(c: char) {
    PythonSpace(c) && !(0x1c <= c as int <= 0x1f)
  }

  /** The characters with the White_Space property, by code point. */
  predicate White(c: char) {
    c as int in {9, 10, 11, 12, 13, 32, 0x85, 0xa0, 0x1680,
                 0x2000, 0x2001, 0x2002, 0x2003, 0x2004, 0x2005, 0x2006, 0x2007, 0x2008, 0x2009, 0x200a,
                 0x2028, 0x2029, 0x202f, 0x205f, 0x3000}
  }

  /** Go strips exactly these, and Python these and the four information separators. */
  lemma SpacesAre(c: char)
    ensures GoSpace(c) <==> White(c)
    ensures PythonSpace(c) <==> White(c) || c as int in {28, 29, 30, 31}
  {
  }

  function TrimLeft(s: string, space: char -> bool): string {
    if s != "" && space(s[0]) then TrimLeft(s[1..], space) else s
  }

  function TrimRight(s: string, space: char -> bool): string {
    if s != "" && space(s[|s| - 1]) then TrimRight(s[..|s| - 1], space) else s
  }

  /** str.strip and strings.TrimSpace. */
  function Strip(s: string, space: char -> bool): string {
    TrimRight(TrimLeft(s, space), space)
  }

  /** What is stripped starts and ends with a character that is no space, and is a stretch of the text. */
  predicate Bare(s: string, space: char -> bool) {
    s != "" ==> !space(s[0]) && !space(s[|s| - 1])
  }

  lemma {:induction false} TrimRightBare(s: string, space: char -> bool)
    requires s == "" || !space(s[0])
    ensures Bare(TrimRight(s, space), space)
    ensures TrimRight(s, space) <= s
  {
    if s != "" && space(s[|s| - 1]) {
      TrimRightBare(s[..|s| - 1], space);
    }
  }

  lemma {:induction false} TrimLeftBare(s: string, space: char -> bool)
    ensures TrimLeft(s, space) != "" ==> !space(TrimLeft(s, space)[0])
  {
    if s != "" && space(s[0]) {
      TrimLeftBare(s[1..], space);
    }
  }

  lemma StripIsBare(s: string, space: char -> bool)
    ensures Bare(Strip(s, space), space)
  {
    TrimLeftBare(s, space);
    TrimRightBare(TrimLeft(s, space), space);
  }

  lemma {:induction false} TrimLeftSkips(pad: string, s: string, space: char -> bool)
    requires forall i :: 0 <= i < |pad| ==> space(pad[i])
    requires s == "" || !space(s[0])
    ensures TrimLeft(pad + s, space) == s
  {
    if pad == "" {
      assert pad + s == s;
    } else {
      assert (pad + s)[1..] == pad[1..] + s;
      TrimLeftSkips(pad[1..], s, space);
    }
  }

  lemma {:induction false} TrimRightSkips(s: string, pad: string, space: char -> bool)
    requires forall i :: 0 <= i < |pad| ==> space(pad[i])
    requires s == "" || !space(s[|s| - 1])
    ensures TrimRight(s + pad, space) == s
  {
    if pad == "" {
      assert s + pad == s;
    } else {
      assert (s + pad)[..|s + pad| - 1] == s + pad[..|pad| - 1];
      TrimRightSkips(s, pad[..|pad| - 1], space);
    }
  }

  /** Stripping removes exactly the white space around a bare text. */
  lemma StripPadded(left: string, s: string, right: string, space: char -> bool)
    requires forall i :: 0 <= i < |left| ==> space(left[i])
    requires forall i :: 0 <= i < |right| ==> space(right[i])
    requires s != "" && Bare(s, space)
    ensures Strip(left + s + right, space) == s
  {
    assert left + s + right == left + (s + right);
    TrimLeftSkips(left, s + right, space);
    TrimRightSkips(s, right, space);
  }

  lemma {:induction false} StripSpaces(s: string, space: char -> bool)
    requires forall i :: 0 <= i < |s| ==> space(s[i])
    ensures Strip(s, space) == ""
  {
    if s != "" {
      StripSpaces(s[1..], space);
    }
  }

  /** s.split(sep) for a one-character separator: never empty. */
  function Split(s: string, sep: char): (parts: seq<string>)
    ensures parts != []
  {
    if s == "" then [""]
    else
      var rest := Split(s[1..], sep);
      if s[0] == sep then [""] + rest else [[s[0]] + rest[0]] + rest[1..]
  }

  /** sep.join(parts) */
  function Join(parts: seq<string>, sep: char): string {
    if parts == [] then ""
    else if |parts| == 1 then parts[0]
    else parts[0] + [sep] + Join(parts[1..], sep)
  }

  lemma {:induction false} SplitPrefix(p: string, s: string, sep: char)
    requires sep !in p
    ensures Split(p + [sep] + s, sep) == [p] + Split(s, sep)
  {
    var all := p + [sep] + s;
    if p == "" {
      assert all[1..] == s;
    } else {
      assert all[1..] == p[1..] + [sep] + s;
      SplitPrefix(p[1..], s, sep);
      assert [p[0]] + p[1..] == p;
    }
  }

  lemma {:induction false} SplitWhole(p: string, sep: char)
    requires sep !in p
    ensures Split(p, sep) == [p]
  {
    if p != "" {
      SplitWhole(p[1..], sep);
      assert [p[0]] + p[1..] == p;
    }
  }

  /** Splitting a joined text gives back the parts, if no part contains the separator. */
  lemma {:induction false} SplitJoined(parts: seq<string>, sep: char)
    requires parts != [] && forall i :: 0 <= i < |parts| ==> sep !in parts[i]
    ensures Split(Join(parts, sep), sep) == parts
  {
    if |parts| == 1 {
      SplitWhole(parts[0], sep);
    } else {
      SplitJoined(parts[1..], sep);
      SplitPrefix(parts[0], Join(parts[1..], sep), sep);
    }
  }

  /** s.replace('\n', '').replace('\r', '') */
  function RemoveBreaks(s: string): (r: string)
    ensures '\n' !in r && '\r' !in r
  {
    if s == "" then "" else (if s[0] == '\n' || s[0] == '\r' then "" else [s[0]]) + RemoveBreaks(s[1..])
  }

  lemma {:induction false} RemoveBreaksConcat(a: string, b: string)
    ensures RemoveBreaks(a + b) == RemoveBreaks(a) + RemoveBreaks(b)
  {
    if a == "" {
      assert a + b == b;
    } else {
      assert (a + b)[1..] == a[1..] + b;
      RemoveBreaksConcat(a[1..], b);
    }
  }

  lemma {:induction false} RemoveBreaksKeeps(s: string)
    requires '\n' !in s && '\r' !in s
    ensures RemoveBreaks(s) == s
  {
    if s != "" {
      RemoveBreaksKeeps(s[1..]);
      assert [s[0]] + s[1..] == s;
    }
  }

  lemma OneBreak(c: char, b: string)
    requires c == '\n' || c == '\r'
    ensures RemoveBreaks([c] + b) == RemoveBreaks(b)
  {
    assert ([c] + b)[1..] == b;
    assert "" + RemoveBreaks(b) == RemoveBreaks(b);
  }

  /** A break between two texts goes, and nothing else does. */
  lemma BreakIsRemoved(a: string, c: char, b: string)
    requires c == '\n' || c == '\r'
    requires '\n' !in a && '\r' !in a
    ensures RemoveBreaks(a + ([c] + b)) == a + RemoveBreaks(b)
  {
    RemoveBreaksConcat(a, [c] + b);
    RemoveBreaksKeeps(a);
    OneBreak(c, b);
  }

  /** What a text-mode read makes of a file's content. */
  function UniversalNewlines(s: string): string {
    if s == "" then ""
    else if s[0] == '\r' then
      "\n" + UniversalNewlines(if |s| > 1 && s[1] == '\n' then s[2..] else s[1..])
    else [s[0]] + UniversalNewlines(s[1..])
  }

  lemma {:induction false} NewlinesUntouched(s: string)
    requires '\r' !in s
    ensures UniversalNewlines(s) == s
  {
    if s != "" {
      NewlinesUntouched(s[1..]);
      assert [s[0]] + s[1..] == s;
    }
  }

  lemma {:induction false} JoinHasNo(parts: seq<string>, sep: char, c: char)
    requires c != sep && forall i :: 0 <= i < |parts| ==> c !in parts[i]
    ensures c !in Join(parts, sep)
  {
    if |parts| > 1 {
      JoinHasNo(parts[1..], sep, c);
    }
  }

  /** A carriage return, alone or before a line feed, reads as one line feed. */
  lemma {:induction false} ReturnsRead(a: string, b: string)
    requires '\r' !in a
    ensures UniversalNewlines(a + "\r\n" + b) == a + "\n" + UniversalNewlines(b)
    ensures (b == "" || b[0] != '\n') ==> UniversalNewlines(a + "\r" + b) == a + "\n" + UniversalNewlines(b)
  {
    var two, one := a + "\r\n" + b, a + "\r" + b;
    if a == "" {
      assert two[2..] == b && one[1..] == b;
    } else {
      assert two[1..] == a[1..] + "\r\n" + b && one[1..] == a[1..] + "\r" + b;
      ReturnsRead(a[1..], b);
      assert [a[0]] + (a[1..] + "\n" + UniversalNewlines(b)) == a + "\n" + UniversalNewlines(b);
    }
  }
}
