/** The string operations of Rust's standard library that the modules use. */
module RustStr {

  /** The Unicode White_Space property. */
  predicate IsWhitespace(c: char) {
    || '\U{9}' <= c <= '\U{D}'
    || c in {'\U{20}', '\U{85}', '\U{A0}', '\U{1680}', '\U{2028}', '\U{2029}', '\U{202F}', '\U{205F}', '\U{3000}'}
    || '\U{2000}' <= c <= '\U{200A}'
  }

  /** One by one. */
  lemma WhitespaceTable(c: char)
    ensures IsWhitespace(c) <==> c as int in {
              0x9, 0xA, 0xB, 0xC, 0xD, 0x20, 0x85, 0xA0, 0x1680, 0x2000, 0x2001, 0x2002, 0x2003, 0x2004, 0x2005, 0x2006,
              0x2007, 0x2008, 0x2009, 0x200A, 0x2028, 0x2029, 0x202F, 0x205F, 0x3000}
  {
  }

  function TrimStart(s: string): string {
    if s != [] && IsWhitespace(s[0]) then TrimStart(s[1..]) else s
  }

  function TrimEnd(s: string): string {
    if s != [] && IsWhitespace(s[|s| - 1]) then TrimEnd(s[..|s| - 1]) else s
  }

  function Trim(s: string): string {
    TrimEnd(TrimStart(s))
  }

  /** Bytes of a character in UTF-8. */
  function Utf8Len(c: char): nat {
    if c <= '\U{7F}' then 1 else if c <= '\U{7FF}' then 2 else if c <= '\U{FFFF}' then 3 else 4
  }

  /** The bytes themselves, as section 3 of RFC 3629 lays them out. */
  function Utf8(c: char): seq<int> {
    var n := c as int;
    if n < 0x80 then [n]
    else if n < 0x800 then [0xC0 + n / 0x40, 0x80 + n % 0x40]
    else
      var high, low := n / 0x40, n % 0x40;
      if n < 0x10000 then [0xE0 + high / 0x40, 0x80 + high % 0x40, 0x80 + low]
      else [0xF0 + high / 0x40 / 0x40, 0x80 + high / 0x40 % 0x40, 0x80 + high % 0x40, 0x80 + low]
  }

  /** What the bytes stand for, read by the first one. */
  function Decoded(bytes: seq<int>): int {
    if |bytes| == 1 && bytes[0] < 0x80 then bytes[0]
    else if |bytes| == 2 && 0xC0 <= bytes[0] < 0xE0 then (bytes[0] - 0xC0) * 0x40 + (bytes[1] - 0x80)
    else if |bytes| == 3 && 0xE0 <= bytes[0] < 0xF0 then
      (bytes[0] - 0xE0) * 0x1000 + (bytes[1] - 0x80) * 0x40 + (bytes[2] - 0x80)
    else if |bytes| == 4 && 0xF0 <= bytes[0] < 0xF8 then
      (bytes[0] - 0xF0) * 0x40000 + (bytes[1] - 0x80) * 0x1000 + (bytes[2] - 0x80) * 0x40 + (bytes[3] - 0x80)
    else -1
  }

  /** The lengths counted are those of an encoding that reads back. */
  lemma Utf8RoundTrip(c: char)
    ensures |Utf8(c)| == Utf8Len(c) && Decoded(Utf8(c)) == c as int
    ensures forall i | 0 < i < |Utf8(c)| :: 0x80 <= Utf8(c)[i] < 0xC0
  {
    var n := c as int;
    var high := n / 0x40;
    if n >= 0x10000 {
      assert Utf8(c) == [0xF0 + high / 0x40 / 0x40, 0x80 + high / 0x40 % 0x40, 0x80 + high % 0x40, 0x80 + n % 0x40];
    } else if n >= 0x800 {
      assert Utf8(c) == [0xE0 + high / 0x40, 0x80 + high % 0x40, 0x80 + n % 0x40];
    }
  }

  /** `str::len`: the length in bytes. */
  function ByteLen(s: string): nat {
    if s == [] then 0 else Utf8Len(s[0]) + ByteLen(s[1..])
  }

  lemma {:induction false} ByteLenOfConcat(s: string, t: string)
    ensures ByteLen(s + t) == ByteLen(s) + ByteLen(t)
  {
    if s == [] {
      assert s + t == t;
    } else {
      assert (s + t)[1..] == s[1..] + t;
      ByteLenOfConcat(s[1..], t);
    }
  }

  /** Trimming leaves nothing exactly of blank strings. */
  lemma TrimIsBlank(s: string)
    ensures Trim(s) == [] <==> forall c <- s :: IsWhitespace(c)
  {
    TrimStartIsBlank(s);
    TrimEndKeepsFirst(TrimStart(s));
  }

  lemma {:induction false} TrimStartIsBlank(s: string)
    ensures TrimStart(s) == [] <==> forall c <- s :: IsWhitespace(c)
    ensures TrimStart(s) != [] ==> !IsWhitespace(TrimStart(s)[0])
  {
    if s != [] {
      TrimStartIsBlank(s[1..]);
      assert s == [s[0]] + s[1..];
    }
  }

  lemma {:induction false} TrimEndKeepsFirst(s: string)
    ensures s != [] && !IsWhitespace(s[0]) ==> TrimEnd(s) != []
  {
    if s != [] { TrimEndKeepsFirst(s[..|s| - 1]); }
  }

  /** `t` is `s` with only whitespace cut off, and all of it, at both ends. */
  ghost predicate IsTrimmed(s: string, t: string) {
    && (exists i, j | 0 <= i <= j <= |s| :: t == s[i..j] && Blank(s[..i]) && Blank(s[j..]))
    && (t != [] ==> !IsWhitespace(t[0]) && !IsWhitespace(t[|t| - 1]))
  }

  predicate Blank(s: string) {
    forall c <- s :: IsWhitespace(c)
  }

  lemma {:induction false} TrimStartCuts(s: string) returns (i: nat)
    ensures i <= |s| && TrimStart(s) == s[i..] && Blank(s[..i])
  {
    i := 0;
    if s != [] && IsWhitespace(s[0]) {
      var k := TrimStartCuts(s[1..]);
      i := k + 1;
      assert s[..i] == [s[0]] + s[1..][..k];
    }
  }

  lemma {:induction false} TrimEndCuts(s: string) returns (j: nat)
    ensures j <= |s| && TrimEnd(s) == s[..j] && Blank(s[j..])
    ensures TrimEnd(s) != [] ==> !IsWhitespace(TrimEnd(s)[|TrimEnd(s)| - 1])
  {
    j := |s|;
    if s != [] && IsWhitespace(s[|s| - 1]) {
      j := TrimEndCuts(s[..|s| - 1]);
      assert s[j..] == s[..|s| - 1][j..] + [s[|s| - 1]];
    }
  }

  lemma TrimCuts(s: string)
    ensures IsTrimmed(s, Trim(s))
  {
    TrimStartIsBlank(s);
    var t := TrimStart(s);
    var i := TrimStartCuts(s);
    var j := TrimEndCuts(t);
    assert Trim(s) == t[..j] == s[i..i + j] && t[j..] == s[i + j..];
    assert t[..j] != [] ==> t[..j][0] == t[0];
  }
}
