/** The line framer of `agentd/framing.rs`, shared by client and broker: one
    frame is one line, blank lines and `#` comments are skipped, and a line of
    more than `max` bytes ends the connection. Streams are sequences of Unicode
    scalar values; sizes are in UTF-8 bytes. */
module Framing {
  import opened Prelude
  import opened RustStr

  datatype ReadResult = Frame(line: string) | Eof | TooLarge(bytesRead: nat)

  datatype WriteError = ContainsNewline | FrameTooLarge(bytes: nat)

  // ---------- reading, as a function of the remaining stream ----------

  /** How far `read_line` reads: through the first newline, or to the end. */
  function LineLen(s: string): (n: nat)
    ensures n <= |s| && (s != [] ==> n > 0)
  {
    if s == [] then 0 else if s[0] == '\n' then 1 else 1 + LineLen(s[1..])
  }

  function EndsWith(s: string, c: char): bool {
    s != [] && s[|s| - 1] == c
  }

  /** The line without its newline, and without a carriage return before it. */
  function StripEol(buf: string): string {
    if !EndsWith(buf, '\n') then buf
    else
      var line := buf[..|buf| - 1];
      if EndsWith(line, '\r') then line[..|line| - 1] else line
  }

  /** Blank lines and comments. */
  predicate Skipped(line: string) {
    var trimmed := TrimStart(line);
    trimmed == [] || trimmed[0] == '#'
  }

  /** What one read returns, and the stream it leaves. */
  function NextFrame(s: string, max: nat): (ReadResult, string)
    decreases |s|
  {
    if s == [] then (Eof, [])
    else
      var n := LineLen(s);
      if ByteLen(s[..n]) > max then (TooLarge(ByteLen(s[..n])), s[n..])
      else if Skipped(StripEol(s[..n])) then NextFrame(s[n..], max)
      else (Frame(StripEol(s[..n])), s[n..])
  }

  /** All frames up to the first end or error, and which of the two it was. */
  function ReadAll(s: string, max: nat): (seq<string>, ReadResult)
    decreases |s|
  {
    ReadConsumes(s, max);
    var (r, rest) := NextFrame(s, max);
    if r.Frame? then
      var (more, end) := ReadAll(rest, max);
      ([r.line] + more, end)
    else
      ([], r)
  }

  /** Every frame returned used up some of the stream, and is never blank or a comment. */
  lemma {:induction false} ReadConsumes(s: string, max: nat)
    ensures NextFrame(s, max).0.Frame? ==> |NextFrame(s, max).1| < |s| && !Skipped(NextFrame(s, max).0.line)
    decreases |s|
  {
    if s != [] {
      var n := LineLen(s);
      ReadConsumes(s[n..], max);
    }
  }

  // ---------- the reader and the writer ----------

  class Reader {
    const data: string
    var pos: nat

    ghost predicate Valid()
      reads this
    {
      pos <= |data|
    }

    constructor (data: string)
      ensures Valid() && this.data == data && pos == 0
    {
      this.data, pos := data, 0;
    }

    method ReadLine() returns (buf: string)
      requires Valid()
      modifies this
      ensures Valid()
      ensures buf == old(data[pos..])[..LineLen(old(data[pos..]))]
      ensures pos == old(pos) + |buf|
    {
      var n := LineLen(data[pos..]);
      buf := data[pos..pos + n];
      pos := pos + n;
    }

    method ReadFrame(max: nat) returns (r: ReadResult)
      requires Valid()
      modifies this
      ensures Valid()
      ensures (r, data[pos..]) == NextFrame(old(data[pos..]), max)
      ensures old(pos) <= pos && (r.Frame? ==> old(pos) < pos)
    {
      while true
        invariant Valid() && old(pos) <= pos
        invariant NextFrame(data[pos..], max) == NextFrame(old(data[pos..]), max)
        decreases |data| - pos
      {
        ghost var s := data[pos..];
        var buf := ReadLine();
        assert data[pos..] == s[|buf|..] && buf == s[..LineLen(s)];
        if buf == [] { return Eof; }
        var bytes := ByteLen(buf);
        if bytes > max { return TooLarge(bytes); }
        var line := buf;
        if EndsWith(line, '\n') {
          line := line[..|line| - 1];
          if EndsWith(line, '\r') { line := line[..|line| - 1]; }
        }
        assert line == StripEol(buf);
        var trimmed := TrimStart(line);
        if trimmed == [] || trimmed[0] == '#' { continue; }
        return Frame(line);
      }
    }
  }

  class Writer {
    var out: string

    constructor ()
      ensures out == []
    {
      out := [];
    }

    /** A refused payload leaves nothing behind. */
    method WriteFrame(payload: string, max: nat) returns (r: Result<(), WriteError>)
      modifies this
      ensures r.Ok? <==> Accepted(payload, max)
      ensures out == if r.Ok? then old(out) + payload + "\n" else old(out)
      ensures r == Err(ContainsNewline) <==> '\n' in payload
    {
      if '\n' in payload { return Err(ContainsNewline); }
      var bytes := ByteLen(payload) + 1;
      if bytes > max { return Err(FrameTooLarge(bytes)); }
      out := out + payload;
      out := out + "\n";
      r := Ok(());
    }
  }

  predicate Accepted(payload: string, max: nat) {
    '\n' !in payload && ByteLen(payload) + 1 <= max
  }

  // ---------- round trip ----------

  lemma {:induction false} LineOf(p: string, rest: string)
    requires '\n' !in p
    ensures LineLen(p + "\n" + rest) == |p| + 1
    ensures (p + "\n" + rest)[..|p| + 1] == p + "\n"
    ensures (p + "\n" + rest)[|p| + 1..] == rest
  {
    var s := p + "\n" + rest;
    if p != [] {
      assert s[1..] == p[1..] + "\n" + rest;
      assert forall c <- p[1..] :: c in p;
      LineOf(p[1..], rest);
    }
  }

  /** What the reader makes of a written line. */
  lemma ReadWritten(p: string, rest: string, max: nat)
    requires '\n' !in p
    ensures NextFrame(p + "\n" + rest, max) ==
            if ByteLen(p) + 1 > max then (TooLarge(ByteLen(p) + 1), rest)
            else if Skipped(StripEol(p + "\n")) then NextFrame(rest, max)
            else (Frame(StripEol(p + "\n")), rest)
  {
    LineOf(p, rest);
    ByteLenOfConcat(p, "\n");
    assert ByteLen("\n") == 1;
  }

  /** A line comes back unchanged if and only if it fits the limit, is neither
      blank nor a comment and does not end in a carriage return; the writer's and
      the reader's limits coincide to the byte. */
  lemma OneFrameRoundTrip(p: string, rest: string, max: nat)
    requires '\n' !in p
    ensures NextFrame(p + "\n" + rest, max) == (Frame(p), rest)
            <==> Accepted(p, max) && !Skipped(p) && !EndsWith(p, '\r')
  {
    ReadWritten(p, rest, max);
    ReadConsumes(rest, max);
    assert (p + "\n")[..|p + "\n"| - 1] == p;
  }

  /** A line ended by carriage return and newline is read without both, and only one
      carriage return is taken off. */
  lemma CrLfLine(p: string, rest: string, max: nat)
    requires '\n' !in p && ByteLen(p) + 2 <= max && !Skipped(p)
    ensures NextFrame(p + "\r" + "\n" + rest, max) == (Frame(p), rest)
  {
    var line := p + "\r";
    assert '\n' !in line;
    ByteLenOfConcat(p, "\r");
    assert ByteLen("\r") == 1;
    ReadWritten(line, rest, max);
    assert (line + "\n")[..|line|] == line && line[..|p|] == p;
  }

  datatype Item = Payload(text: string) | Noise(line: string)

  /** A payload that survives, or a blank or comment line within the limit. */
  predicate ValidItem(i: Item, max: nat) {
    match i
    case Payload(p) => Accepted(p, max) && !Skipped(p) && !EndsWith(p, '\r')
    case Noise(line) => Accepted(line, max) && Skipped(StripEol(line + "\n"))
  }

  function LineText(i: Item): string {
    match i
    case Payload(p) => p
    case Noise(line) => line
  }

  function Encode(items: seq<Item>): string {
    if items == [] then []
    else LineText(items[0]) + "\n" + Encode(items[1..])
  }

  function Payloads(items: seq<Item>): seq<string> {
    if items == [] then []
    else if items[0].Payload? then [items[0].text] + Payloads(items[1..])
    else Payloads(items[1..])
  }

  lemma ReadAllFrame(s: string, line: string, rest: string, max: nat)
    requires NextFrame(s, max) == (Frame(line), rest)
    ensures ReadAll(s, max).0 == [line] + ReadAll(rest, max).0
    ensures ReadAll(s, max).1 == ReadAll(rest, max).1
  {
  }

  lemma ReadAllSame(s: string, t: string, max: nat)
    requires NextFrame(s, max) == NextFrame(t, max)
    ensures ReadAll(s, max) == ReadAll(t, max)
  {
  }

  lemma ReadItem(i: Item, rest: string, max: nat)
    requires ValidItem(i, max)
    ensures ReadsAs(LineText(i) + "\n" + rest, Payloads([i]), rest, max)
  {
    match i
    case Payload(p) =>
      OneFrameRoundTrip(p, rest, max);
      ReadAllFrame(p + "\n" + rest, p, rest, max);
      assert Payloads([i]) == [p];
    case Noise(line) =>
      ReadWritten(line, rest, max);
      ReadAllSame(line + "\n" + rest, rest, max);
      assert Payloads([i]) == [];
  }

  lemma EncodeStep(items: seq<Item>, tail: string)
    requires items != []
    ensures Encode(items) + tail == LineText(items[0]) + "\n" + (Encode(items[1..]) + tail)
    ensures Payloads(items) == Payloads([items[0]]) + Payloads(items[1..])
  {
    assert Payloads([items[0]]) == if items[0].Payload? then [items[0].text] else [];
  }

  predicate ReadsAs(s: string, payloads: seq<string>, tail: string, max: nat) {
    && ReadAll(s, max).0 == payloads + ReadAll(tail, max).0
    && ReadAll(s, max).1 == ReadAll(tail, max).1
  }

  lemma ReadsAsTrans(s: string, t: string, u: string, p: seq<string>, q: seq<string>, max: nat)
    requires ReadsAs(s, p, t, max) && ReadsAs(t, q, u, max)
    ensures ReadsAs(s, p + q, u, max)
  {
    assert p + (q + ReadAll(u, max).0) == (p + q) + ReadAll(u, max).0;
  }

  /** Whatever follows a run of valid items is read after exactly its payloads. */
  lemma {:induction false} ReadPrefix(items: seq<Item>, tail: string, max: nat)
    requires forall i <- items :: ValidItem(i, max)
    ensures ReadsAs(Encode(items) + tail, Payloads(items), tail, max)
  {
    if items == [] {
      assert Encode(items) + tail == tail;
    } else {
      var rest := Encode(items[1..]) + tail;
      assert ValidItem(items[0], max) by { assert items[0] in items; }
      ReadPrefix(items[1..], tail, max);
      EncodeStep(items, tail);
      ReadItem(items[0], rest, max);
      ReadsAsTrans(Encode(items) + tail, rest, tail, Payloads([items[0]]), Payloads(items[1..]), max);
    }
  }

  /** Reading back a written stream yields exactly the payloads, then a clean end. */
  lemma RoundTrip(items: seq<Item>, max: nat)
    requires forall i <- items :: ValidItem(i, max)
    ensures ReadAll(Encode(items), max).0 == Payloads(items)
    ensures ReadAll(Encode(items), max).1 == Eof
  {
    ReadPrefix(items, [], max);
    assert Encode(items) + [] == Encode(items);
    assert Payloads(items) + [] == Payloads(items);
  }

  // ---------- a stream cut mid-frame ----------

  lemma {:induction false} NoNewline(s: string)
    requires '\n' !in s
    ensures LineLen(s) == |s|
  {
    if s != [] {
      assert forall c <- s[1..] :: c in s;
      NoNewline(s[1..]);
    }
  }

  /** A last line without a newline is a frame like any other. */
  lemma ReadFragment(cut: string, max: nat)
    requires cut != [] && '\n' !in cut && ByteLen(cut) <= max
    ensures ReadAll(cut, max).0 == if Skipped(cut) then [] else [cut]
    ensures ReadAll(cut, max).1 == Eof
  {
    NoNewline(cut);
    assert cut[..|cut|] == cut && cut[|cut|..] == [];
    assert cut[|cut| - 1] in cut;
    if Skipped(cut) {
      ReadAllSame(cut, [], max);
    } else {
      ReadAllFrame(cut, cut, [], max);
    }
  }

  /** A connection that dies inside a frame does not show: the fragment received
      is handed out as a frame (unless it looks blank or like a comment) and the
      next read reports a clean end. */
  lemma CutMidFrame(items: seq<Item>, p: string, k: nat, max: nat)
    requires forall i <- items :: ValidItem(i, max)
    requires Accepted(p, max) && 0 < k < |p|
    ensures ReadAll(Encode(items) + p[..k], max).0
            == Payloads(items) + if Skipped(p[..k]) then [] else [p[..k]]
    ensures ReadAll(Encode(items) + p[..k], max).1 == Eof
  {
    var cut := p[..k];
    assert p == cut + p[k..];
    ByteLenOfConcat(cut, p[k..]);
    assert forall c <- cut :: c in p;
    ReadFragment(cut, max);
    ReadPrefix(items, cut, max);
  }

  lemma {:induction false} FirstLine(t: string, f: string)
    requires EndsWith(t, '\n')
    ensures LineLen(t + f) == LineLen(t) <= |t| && t[LineLen(t) - 1] == '\n'
    ensures (t + f)[..LineLen(t)] == t[..LineLen(t)] && (t + f)[LineLen(t)..] == t[LineLen(t)..] + f
  {
    if t[0] != '\n' {
      assert (t + f)[1..] == t[1..] + f;
      FirstLine(t[1..], f);
    }
  }

  /** Exactly when the end of a connection hands out something that was never sent
      whole: after any stream of complete lines that reads without error, an
      unterminated rest shows as one more frame if and only if it is neither blank nor
      a comment; the end looks clean either way. */
  lemma {:induction false} FragmentShows(t: string, f: string, max: nat)
    requires t == [] || EndsWith(t, '\n')
    requires '\n' !in f && ByteLen(f) <= max && ReadAll(t, max).1 == Eof
    ensures ReadAll(t + f, max).0 == ReadAll(t, max).0 + if Skipped(f) then [] else [f]
    ensures ReadAll(t + f, max).1 == Eof
    decreases |t|
  {
    if t == [] {
      assert t + f == f && ReadAll([], max).0 == [];
      if f != [] { ReadFragment(f, max); }
    } else {
      var n := LineLen(t);
      var rest, line := t[n..], StripEol(t[..n]);
      FirstLine(t, f);
      if ByteLen(t[..n]) <= max {
        if Skipped(line) {
          ReadAllSame(t, rest, max);
          ReadAllSame(t + f, rest + f, max);
          FragmentShows(rest, f, max);
        } else {
          ReadAllFrame(t, line, rest, max);
          ReadAllFrame(t + f, line, rest + f, max);
          FragmentShows(rest, f, max);
          ConcatAssoc([line], ReadAll(rest, max).0, if Skipped(f) then [] else [f]);
        }
      }
    }
  }

  /** The JSON objects both sides send always survive. */
  lemma JsonSurvives(p: string, max: nat)
    requires |p| >= 2 && p[0] == '{' && p[|p| - 1] == '}' && Accepted(p, max)
    ensures ValidItem(Payload(p), max)
  {
    assert TrimStart(p) == p;
  }
}
