// What several modules share.
module Basics {
  newtype Byte = x: int | 0 <= x < 256

  /** The identifier of a connection, as text. */
  type Uuid = string

  datatype Option<+T> = None | Some(value: T)

  function One(b: bool): nat {
    if b then 1 else 0
  }

  /** The value of a hexadecimal digit, or -1. */
  function HexDigit(c: char): int {
    if '0' <= c <= '9' then c as int - '0' as int
    else if 'a' <= c <= 'f' then c as int - 'a' as int + 10
    else if 'A' <= c <= 'F' then c as int - 'A' as int + 10
    else -1
  }

  /** c is a hexadecimal digit, in either case, and v its value. */
  predicate IsDigit(c: char, v: int) {
    0 <= v < 16 && (c == "0123456789abcdef"[v] || c == "0123456789ABCDEF"[v])
  }

  lemma DigitIs(c: char, v: int)
    requires IsDigit(c, v)
    ensures HexDigit(c) == v && c != '-'
  {
  }

  lemma ValueIsDigit(c: char)
    requires HexDigit(c) >= 0
    ensures IsDigit(c, HexDigit(c))
  {
    var v := HexDigit(c);
    assert v < 10 ==> "0123456789abcdef"[v] == ('0' as int + v) as char;
    assert v >= 10 ==> "0123456789abcdef"[v] == ('a' as int + v - 10) as char && "0123456789ABCDEF"[v] == ('A' as int + v - 10) as char;
  }
}
