/** `stripControl` of `stripControl.ts`: an index-driven scan that removes
    terminal control sequences from text, and the left-to-right automaton it
    refines. Text is a sequence of UTF-16 code units. */
module StripControl {
  import opened Prelude

  const BEL: CodeUnit := 0x07
  const ESC: CodeUnit := 0x1b
  const DEL: CodeUnit := 0x7f
  const BACKSLASH: CodeUnit := 0x5c

  // ---------- the automaton ----------

  /** What the characters read so far leave open. */
  datatype Mode = Ground | Escape | Csi | Osc | OscEscape | Str | StrEscape | Ss3

  /** A character the user can have typed: no C0 but TAB, LF and CR, no DEL. */
  predicate Plain(c: CodeUnit) {
    (0x20 <= c || c == 0x09 || c == 0x0a || c == 0x0d) && c != DEL
  }

  predicate CsiParam(c: CodeUnit) { 0x30 <= c <= 0x3f }

  predicate CsiIntermediate(c: CodeUnit) { 0x20 <= c <= 0x2f }

  predicate CsiFinal(c: CodeUnit) { 0x40 <= c <= 0x7e }

  /** P, X, ^ and _ open DCS, SOS, PM and APC. */
  predicate OpensString(c: CodeUnit) {
    c == 0x50 || c == 0x58 || c == 0x5e || c == 0x5f
  }

  function Next(m: Mode, c: CodeUnit): Mode {
    match m
    case Ground => if c == ESC then Escape else Ground
    case Escape =>
      if c == 0x5b then Csi
      else if c == 0x5d then Osc
      else if OpensString(c) then Str
      else if c == 0x4f then Ss3
      else Ground
    case Csi => if CsiParam(c) || CsiIntermediate(c) then Csi else Ground
    case Osc => if c == BEL then Ground else if c == ESC then OscEscape else Osc
    case OscEscape =>
      if c == BEL || c == BACKSLASH then Ground else if c == ESC then OscEscape else Osc
    case Str => if c == ESC then StrEscape else Str
    case StrEscape => if c == BACKSLASH then Ground else if c == ESC then StrEscape else Str
    case Ss3 => Ground
  }

  predicate Emits(m: Mode, c: CodeUnit) {
    match m
    case Ground => Plain(c)
    case Escape => Next(m, c) == Ground && 0x20 <= c && c != DEL
    case _ => false
  }

  function Emitted(m: Mode, s: seq<CodeUnit>): seq<CodeUnit>
    decreases s
  {
    if s == [] then []
    else (if Emits(m, s[0]) then [s[0]] else []) + Emitted(Next(m, s[0]), s[1..])
  }

  function End(m: Mode, s: seq<CodeUnit>): Mode
    decreases s
  {
    if s == [] then m else End(Next(m, s[0]), s[1..])
  }

  function Stripped(s: seq<CodeUnit>): seq<CodeUnit> {
    Emitted(Ground, s)
  }

  // ---------- the scan ----------

  /** What the automaton emits from index `i` on. */
  function From(m: Mode, s: seq<CodeUnit>, i: nat): seq<CodeUnit>
    decreases |s| - i
  {
    if i >= |s| then []
    else (if Emits(m, s[i]) then [s[i]] else []) + From(Next(m, s[i]), s, i + 1)
  }

  lemma {:induction false} FromIsEmitted(m: Mode, s: seq<CodeUnit>, i: nat)
    requires i <= |s|
    ensures From(m, s, i) == Emitted(m, s[i..])
    decreases |s| - i
  {
    if i < |s| {
      assert s[i..][1..] == s[i + 1..];
      FromIsEmitted(Next(m, s[i]), s, i + 1);
    }
  }

  /** An escape inside a control string that does not start a terminator is
      just skipped. */
  lemma SkippedEscape(s: seq<CodeUnit>, i: nat)
    requires i >= |s| || s[i] != BACKSLASH
    ensures From(OscEscape, s, i) == From(Osc, s, i)
    ensures From(StrEscape, s, i) == From(Str, s, i)
  {
  }

  /** Reads the parameters, intermediates and final byte of a CSI. */
  method SkipCsi(s: seq<CodeUnit>, start: nat) returns (i: nat)
    requires start <= |s|
    ensures start <= i
    ensures From(Csi, s, start) == From(Ground, s, i + 1)
  {
    i := start;
    var advanced := false;
    while i < |s|
      invariant start <= i <= |s|
      invariant !advanced && From(Csi, s, start) == From(Csi, s, i)
    {
      var cc := s[i];
      if CsiParam(cc) {
        i := i + 1;
        continue;
      }
      if CsiIntermediate(cc) {
        i := i + 1;
        continue;
      }
      if CsiFinal(cc) {
        i := i + 1;
        advanced := true;
        break;
      }
      break;
    }
    if advanced { i := i - 1; }
  }

  /** Reads an OSC up to BEL or ST. */
  method SkipOsc(s: seq<CodeUnit>, start: nat) returns (i: nat)
    requires start <= |s|
    ensures start <= i
    ensures From(Osc, s, start) == From(Ground, s, i + 1)
  {
    i := start;
    var terminated := false;
    while i < |s|
      invariant start <= i <= |s|
      invariant !terminated && From(Osc, s, start) == From(Osc, s, i)
    {
      var cc := s[i];
      if cc == BEL {
        terminated := true;
        i := i + 1;
        break;
      }
      if cc == ESC && i + 1 < |s| && s[i + 1] == BACKSLASH {
        i := i + 2;
        terminated := true;
        break;
      }
      if cc == ESC { SkippedEscape(s, i + 1); }
      i := i + 1;
    }
    if terminated { i := i - 1; }
  }

  /** Reads a DCS, SOS, PM or APC up to ST. */
  method SkipString(s: seq<CodeUnit>, start: nat) returns (i: nat)
    requires start <= |s|
    ensures start <= i
    ensures From(Str, s, start) == From(Ground, s, i + 1)
  {
    i := start;
    var terminated := false;
    while i < |s|
      invariant start <= i <= |s|
      invariant !terminated && From(Str, s, start) == From(Str, s, i)
    {
      var cc := s[i];
      if cc == ESC && i + 1 < |s| && s[i + 1] == BACKSLASH {
        i := i + 2;
        terminated := true;
        break;
      }
      if cc == ESC { SkippedEscape(s, i + 1); }
      i := i + 1;
    }
    if terminated { i := i - 1; }
  }

  /** Reads an escape sequence, leaving the index on its last character. */
  method SkipEscape(s: seq<CodeUnit>, start: nat) returns (i: nat)
    requires start + 1 < |s| && s[start] == ESC
    ensures start <= i
    ensures From(Ground, s, start) == From(Ground, s, i + 1)
  {
    i := start;
    var next := s[i + 1];
    assert From(Ground, s, i) == From(Escape, s, i + 1);
    if next == 0x5b {
      i := SkipCsi(s, i + 2);
    } else if next == 0x5d {
      i := SkipOsc(s, i + 2);
    } else if OpensString(next) {
      i := SkipString(s, i + 2);
    } else if next == 0x4f {
      i := i + 2;
      assert From(Ss3, s, i) == From(Ground, s, i + 1);
    } else if next < 0x20 || next == DEL {
      i := i + 1;
    } else {
      // Only the escape goes; the next character is read again.
      assert From(Escape, s, i + 1) == [next] + From(Ground, s, i + 2) == From(Ground, s, i + 1);
    }
  }

  /** A control character on its own, or an escape that nothing follows. */
  lemma Swallowed(s: seq<CodeUnit>, i: nat)
    requires i < |s| && !Plain(s[i]) && (s[i] == ESC ==> i + 1 == |s|)
    ensures From(Ground, s, i) == From(Ground, s, i + 1)
  {
    ConcatNothing(From(Ground, s, i + 1));
  }

  /** The scan equals the automaton. */
  method Strip(s: seq<CodeUnit>) returns (out: seq<CodeUnit>)
    ensures out == Stripped(s)
  {
    FromIsEmitted(Ground, s, 0);
    assert s[0..] == s;
    out := [];
    var i := 0;
    while i < |s|
      invariant 0 <= i
      invariant Stripped(s) == out + From(Ground, s, i)
      decreases |s| - i
    {
      var c := s[i];
      if c == ESC && i + 1 < |s| {
        i := SkipEscape(s, i);
        i := i + 1;
        continue;
      }
      if c < 0x20 && c != 0x09 && c != 0x0a && c != 0x0d {
        Swallowed(s, i);
        i := i + 1;
        continue;
      }
      if c == DEL {
        Swallowed(s, i);
        i := i + 1;
        continue;
      }
      assert From(Ground, s, i) == [c] + From(Ground, s, i + 1);
      ConcatAssoc(out, [c], From(Ground, s, i + 1));
      out := out + [c];
      i := i + 1;
    }
    ConcatNothing(out);
  }

  // ---------- what stripping means ----------

  lemma {:induction false} EmittedOfConcat(m: Mode, s: seq<CodeUnit>, t: seq<CodeUnit>)
    ensures Emitted(m, s + t) == Emitted(m, s) + Emitted(End(m, s), t)
    ensures End(m, s + t) == End(End(m, s), t)
    decreases s
  {
    if s == [] {
      assert s + t == t;
    } else {
      assert (s + t)[1..] == s[1..] + t && (s + t)[0] == s[0];
      EmittedOfConcat(Next(m, s[0]), s[1..], t);
      var head := if Emits(m, s[0]) then [s[0]] else [];
      ConcatAssoc(head, Emitted(Next(m, s[0]), s[1..]), Emitted(End(m, s), t));
    }
  }

  /** Stripping what is left of the caret gives exactly what is left of the
      caret in the stripped text. */
  lemma CaretFix(raw: seq<CodeUnit>, caret: nat)
    requires caret <= |raw|
    ensures |Stripped(raw[..caret])| <= |Stripped(raw)|
    ensures Stripped(raw)[..|Stripped(raw[..caret])|] == Stripped(raw[..caret])
  {
    assert raw == raw[..caret] + raw[caret..];
    EmittedOfConcat(Ground, raw[..caret], raw[caret..]);
  }

  /** No C0 but TAB, LF and CR, and no DEL. */
  predicate AllPlain(s: seq<CodeUnit>) {
    forall c <- s :: (0x20 <= c || c == 0x09 || c == 0x0a || c == 0x0d) && c != 0x7f
  }

  lemma {:induction false} EmittedIsPlain(m: Mode, s: seq<CodeUnit>)
    ensures AllPlain(Emitted(m, s))
    ensures |Emitted(m, s)| <= |s|
    ensures AllPlain(s) ==> Emitted(Ground, s) == s
    decreases s
  {
    if s != [] {
      EmittedIsPlain(Next(m, s[0]), s[1..]);
      EmittedIsPlain(Ground, s[1..]);
      assert s == [s[0]] + s[1..];
      if AllPlain(s) { assert s[0] in s && forall c <- s[1..] :: c in s; }
    }
  }

  /** The result holds no ESC, DEL or C0 but TAB, LF and CR; text already free of
      them is exactly what stripping leaves alone; stripping twice is stripping once. */
  lemma StrippedIsClean(s: seq<CodeUnit>)
    ensures AllPlain(Stripped(s))
    ensures Stripped(s) == s <==> AllPlain(s)
    ensures Stripped(Stripped(s)) == Stripped(s)
  {
    EmittedIsPlain(Ground, s);
    EmittedIsPlain(Ground, Stripped(s));
  }

  /** `sub` is `s` with some characters left out. */
  predicate Subsequence(sub: seq<CodeUnit>, s: seq<CodeUnit>) {
    if sub == [] then true
    else if s == [] then false
    else if sub[0] == s[0] then Subsequence(sub[1..], s[1..])
    else Subsequence(sub, s[1..])
  }

  lemma {:induction false} SubsequenceSkips(sub: seq<CodeUnit>, s: seq<CodeUnit>)
    requires s != [] && Subsequence(sub, s[1..])
    ensures Subsequence(sub, s)
    ensures sub != [] ==> Subsequence(sub[1..], s[1..])
    decreases |s|
  {
    if sub != [] {
      if sub[0] == s[1] {
        if |s| > 1 && sub[1..] != [] { SubsequenceSkips(sub[1..], s[1..]); }
      } else {
        SubsequenceSkips(sub, s[1..]);
        SubsequenceSkips(sub[1..], s[1..]);
      }
    }
  }

  lemma {:induction false} EmittedIsSubsequence(m: Mode, s: seq<CodeUnit>)
    ensures Subsequence(Emitted(m, s), s)
    decreases s
  {
    if s != [] {
      var rest := Emitted(Next(m, s[0]), s[1..]);
      EmittedIsSubsequence(Next(m, s[0]), s[1..]);
      if Emits(m, s[0]) {
        assert Emitted(m, s)[1..] == rest;
      } else {
        assert Emitted(m, s) == rest;
        SubsequenceSkips(rest, s);
      }
    }
  }

  /** Nothing is invented or reordered. */
  lemma StrippedIsSubsequence(s: seq<CodeUnit>)
    ensures Subsequence(Stripped(s), s)
  {
    EmittedIsSubsequence(Ground, s);
  }

  // ---------- well-formed sequences vanish ----------

  /** A control sequence as in section 5.4 of ECMA-48, a control string as in
      section 5.6 (or an OSC ended by BEL), a single-shift with its character, an
      escape followed by a control character, or a control sequence out of order or
      broken off by another character. */
  datatype Control =
    | CsiSeq(params: seq<CodeUnit>, intermediates: seq<CodeUnit>, final: CodeUnit)
    | OscSeq(text: seq<CodeUnit>, byBell: bool)
    | StringSeq(opener: CodeUnit, text: seq<CodeUnit>)
    | Shift(shifted: CodeUnit)
    | EscC0(control: CodeUnit)
    | LooseCsi(body: seq<CodeUnit>, last: CodeUnit)

  /** No string terminator inside: an escape may occur, but not before a backslash. */
  predicate Unterminated(text: seq<CodeUnit>) {
    forall i | 0 <= i < |text| - 1 :: !(text[i] == 0x1b && text[i + 1] == 0x5c)
  }

  predicate IsOpener(c: CodeUnit) {
    c in {0x50, 0x58, 0x5e, 0x5f}
  }

  predicate WellFormed(q: Control) {
    match q
    case CsiSeq(params, intermediates, final) =>
      && (forall c <- params :: 0x30 <= c <= 0x3f)
      && (forall c <- intermediates :: 0x20 <= c <= 0x2f)
      && 0x40 <= final <= 0x7e
    case OscSeq(text, _) => 0x07 !in text && Unterminated(text)
    case StringSeq(opener, text) => IsOpener(opener) && Unterminated(text)
    case Shift(_) => true
    case EscC0(control) => control < 0x20 || control == 0x7f
    case LooseCsi(body, last) => (forall c <- body :: 0x20 <= c <= 0x3f) && !(0x20 <= last <= 0x3f)
  }

  function Bytes(q: Control): seq<CodeUnit> {
    match q
    case CsiSeq(params, intermediates, final) => [0x1b, 0x5b] + params + intermediates + [final]
    case OscSeq(text, byBell) => [0x1b, 0x5d] + text + if byBell then [0x07] else [0x1b, 0x5c]
    case StringSeq(opener, text) => [0x1b, opener] + text + [0x1b, 0x5c]
    case Shift(c) => [0x1b, 0x4f, c]
    case EscC0(c) => [0x1b, c]
    case LooseCsi(body, last) => [0x1b, 0x5b] + body + [last]
  }

  /** Characters that keep a mode also emit nothing. */
  lemma {:induction false} Stays(m: Mode, s: seq<CodeUnit>)
    requires m != Ground && m != Escape
    requires forall c <- s :: Next(m, c) == m
    ensures Emitted(m, s) == [] && End(m, s) == m
  {
    if s != [] {
      assert s[0] in s;
      Stays(m, s[1..]);
    }
  }

  lemma ShortRuns(m: Mode, a: CodeUnit, b: CodeUnit)
    ensures Emitted(m, [a]) == if Emits(m, a) then [a] else []
    ensures End(m, [a]) == Next(m, a)
    ensures Emitted(m, [a, b]) == (if Emits(m, a) then [a] else []) + (if Emits(Next(m, a), b) then [b] else [])
    ensures End(m, [a, b]) == Next(Next(m, a), b)
  {
    assert [a, b][1..] == [b];
    assert Emitted(Next(m, a), [b]) == if Emits(Next(m, a), b) then [b] else [];
    assert End(Next(m, a), [b]) == Next(Next(m, a), b);
  }

  /** opener, body that stays in its mode, closer that ends it */
  lemma Wrapped(opener: seq<CodeUnit>, body: seq<CodeUnit>, closer: seq<CodeUnit>, m: Mode)
    requires Emitted(Ground, opener) == [] && End(Ground, opener) == m
    requires m != Ground && m != Escape && forall c <- body :: Next(m, c) == m
    requires Emitted(m, closer) == [] && End(m, closer) == Ground
    ensures Emitted(Ground, opener + body + closer) == [] && End(Ground, opener + body + closer) == Ground
  {
    Stays(m, body);
    EmittedOfConcat(Ground, opener, body);
    EmittedOfConcat(Ground, opener + body, closer);
  }

  /** The modes inside a control string. */
  predicate InString(m: Mode, osc: bool) {
    if osc then m == Osc || m == OscEscape else m == Str || m == StrEscape
  }

  /** A control string runs on to its terminator, whatever else is in it. */
  lemma {:induction false} StringRuns(m: Mode, osc: bool, text: seq<CodeUnit>)
    requires InString(m, osc) && Unterminated(text) && (osc ==> BEL !in text)
    requires (m == OscEscape || m == StrEscape) && text != [] ==> text[0] != BACKSLASH
    ensures Emitted(m, text) == [] && InString(End(m, text), osc)
    decreases text
  {
    if text != [] {
      assert text[0] in text && forall c <- text[1..] :: c in text;
      forall i | 0 <= i < |text[1..]| - 1 ensures !(text[1..][i] == ESC && text[1..][i + 1] == BACKSLASH) {
        assert text[1..][i] == text[i + 1] && text[1..][i + 1] == text[i + 2];
      }
      StringRuns(Next(m, text[0]), osc, text[1..]);
    }
  }

  lemma StringCloses(m: Mode, osc: bool, byBell: bool)
    requires InString(m, osc) && (byBell ==> osc)
    ensures var closer := if byBell then [BEL] else [ESC, BACKSLASH];
            Emitted(m, closer) == [] && End(m, closer) == Ground
  {
    ShortRuns(m, BEL, BEL);
    ShortRuns(m, ESC, BACKSLASH);
  }

  lemma StringVanishes(opener: CodeUnit, osc: bool, text: seq<CodeUnit>, byBell: bool)
    requires if osc then opener == 0x5d else OpensString(opener)
    requires Unterminated(text) && (osc ==> BEL !in text) && (byBell ==> osc)
    ensures var s := [ESC, opener] + text + if byBell then [BEL] else [ESC, BACKSLASH];
            Emitted(Ground, s) == [] && End(Ground, s) == Ground
    ensures Emitted(Ground, [ESC, opener] + text) == []
  {
    var m := if osc then Osc else Str;
    ShortRuns(Ground, ESC, opener);
    StringRuns(m, osc, text);
    StringCloses(End(m, text), osc, byBell);
    EmittedOfConcat(Ground, [ESC, opener], text);
    EmittedOfConcat(Ground, [ESC, opener] + text, if byBell then [BEL] else [ESC, BACKSLASH]);
  }

  /** A short escape that ends at its second or third character. */
  lemma ShortVanishes(q: Control)
    requires WellFormed(q) && (q.Shift? || q.EscC0?)
    ensures Emitted(Ground, Bytes(q)) == [] && End(Ground, Bytes(q)) == Ground
  {
    match q
    case Shift(c) =>
      ShortRuns(Ground, ESC, 0x4f);
      ShortRuns(Ss3, c, c);
      EmittedOfConcat(Ground, [ESC, 0x4f], [c]);
      assert [ESC, 0x4f] + [c] == Bytes(q);
    case EscC0(c) =>
      ShortRuns(Ground, ESC, c);
  }

  lemma CsiVanishes(params: seq<CodeUnit>, intermediates: seq<CodeUnit>, final: CodeUnit)
    requires WellFormed(CsiSeq(params, intermediates, final))
    ensures var bytes := Bytes(CsiSeq(params, intermediates, final));
            Emitted(Ground, bytes) == [] && End(Ground, bytes) == Ground
  {
    var body := params + intermediates;
    ShortRuns(Ground, ESC, 0x5b);
    ShortRuns(Csi, final, final);
    ConcatAssoc([ESC, 0x5b], params, intermediates);
    Wrapped([ESC, 0x5b], body, [final], Csi);
  }

  lemma LooseVanishes(body: seq<CodeUnit>, last: CodeUnit)
    requires WellFormed(LooseCsi(body, last))
    ensures var bytes := Bytes(LooseCsi(body, last));
            Emitted(Ground, bytes) == [] && End(Ground, bytes) == Ground
  {
    ShortRuns(Ground, ESC, 0x5b);
    ShortRuns(Csi, last, last);
    Wrapped([ESC, 0x5b], body, [last], Csi);
  }

  lemma ControlVanishes(q: Control)
    requires WellFormed(q)
    ensures Emitted(Ground, Bytes(q)) == []
    ensures End(Ground, Bytes(q)) == Ground
  {
    match q
    case CsiSeq(params, intermediates, final) => CsiVanishes(params, intermediates, final);
    case OscSeq(text, byBell) => StringVanishes(0x5d, true, text, byBell);
    case StringSeq(opener, text) => StringVanishes(opener, false, text, false);
    case LooseCsi(body, last) => LooseVanishes(body, last);
    case _ => ShortVanishes(q);
  }

  /** Typed text, a sequence, an escape before a character it means nothing with, or a
      control character on its own. */
  datatype Piece =
    | Text(text: seq<CodeUnit>)
    | Sequence(control: Control)
    | Escaped(kept: CodeUnit)
    | Lone(dropped: CodeUnit)

  predicate ValidPiece(p: Piece) {
    match p
    case Text(text) => AllPlain(text)
    case Sequence(q) => WellFormed(q)
    case Escaped(c) => 0x20 <= c && c !in {0x7f, 0x5b, 0x5d, 0x4f} && !IsOpener(c)
    case Lone(c) => (c < 0x20 && c !in {0x09, 0x0a, 0x0d, 0x1b}) || c == 0x7f
  }

  function RawOf(p: Piece): seq<CodeUnit> {
    match p
    case Text(text) => text
    case Sequence(q) => Bytes(q)
    case Escaped(c) => [0x1b, c]
    case Lone(c) => [c]
  }

  function TypedOf(p: Piece): seq<CodeUnit> {
    match p
    case Text(text) => text
    case Sequence(_) => []
    case Escaped(c) => [c]
    case Lone(_) => []
  }

  function Raw(ps: seq<Piece>): seq<CodeUnit> {
    if ps == [] then [] else RawOf(ps[0]) + Raw(ps[1..])
  }

  function Typed(ps: seq<Piece>): seq<CodeUnit> {
    if ps == [] then [] else TypedOf(ps[0]) + Typed(ps[1..])
  }

  lemma {:induction false} PlainEndsInGround(s: seq<CodeUnit>)
    requires AllPlain(s)
    ensures End(Ground, s) == Ground
  {
    if s != [] {
      assert s[0] in s && forall c <- s[1..] :: c in s;
      PlainEndsInGround(s[1..]);
    }
  }

  lemma PieceStrips(p: Piece)
    requires ValidPiece(p)
    ensures Emitted(Ground, RawOf(p)) == TypedOf(p) && End(Ground, RawOf(p)) == Ground
  {
    match p
    case Text(text) =>
      EmittedIsPlain(Ground, text);
      PlainEndsInGround(text);
    case Sequence(q) => ControlVanishes(q);
    case Escaped(c) => ShortRuns(Ground, ESC, c);
    case Lone(c) => ShortRuns(Ground, c, c);
  }

  /** A sequence that the text ends in, cut off before its end: an escape, a control
      sequence, a control string or a single-shift. */
  predicate IsCutOff(tail: seq<CodeUnit>) {
    || tail == []
    || tail == [0x1b]
    || tail == [0x1b, 0x4f]
    || (|tail| >= 2 && tail[0] == 0x1b
        && var body := tail[2..];
           || (tail[1] == 0x5b && forall c <- body :: 0x20 <= c <= 0x3f)
           || (tail[1] == 0x5d && 0x07 !in body && Unterminated(body))
           || (IsOpener(tail[1]) && Unterminated(body)))
  }

  lemma CutOffVanishes(tail: seq<CodeUnit>)
    requires IsCutOff(tail)
    ensures Emitted(Ground, tail) == []
  {
    ShortRuns(Ground, ESC, 0x4f);
    if |tail| >= 2 {
      var body := tail[2..];
      assert tail == [tail[0], tail[1]] + body;
      if tail[1] == 0x5b {
        ShortRuns(Ground, ESC, 0x5b);
        Stays(Csi, body);
        EmittedOfConcat(Ground, [ESC, 0x5b], body);
      } else if tail[1] == 0x5d {
        StringVanishes(0x5d, true, body, false);
      } else if OpensString(tail[1]) {
        StringVanishes(tail[1], false, body, false);
      }
    }
  }

  /** However control sequences, complete, broken off or cut off by the end, are mixed
      into typed text, stripping recovers exactly the typed text. */
  lemma {:induction false} TypedTextSurvives(ps: seq<Piece>, tail: seq<CodeUnit>)
    requires (forall p <- ps :: ValidPiece(p)) && IsCutOff(tail)
    ensures Stripped(Raw(ps) + tail) == Typed(ps)
  {
    if ps == [] {
      assert Raw(ps) + tail == tail;
      CutOffVanishes(tail);
    } else {
      assert ps[0] in ps;
      TypedTextSurvives(ps[1..], tail);
      PieceStrips(ps[0]);
      ConcatAssoc(RawOf(ps[0]), Raw(ps[1..]), tail);
      EmittedOfConcat(Ground, RawOf(ps[0]), Raw(ps[1..]) + tail);
    }
  }

  // ---------- every text is of this form ----------

  /** Where the body of a control sequence ends. */
  function CsiRun(s: seq<CodeUnit>): (n: nat)
    ensures n <= |s| && forall c <- s[..n] :: CsiParam(c) || CsiIntermediate(c)
    ensures n < |s| ==> !CsiParam(s[n]) && !CsiIntermediate(s[n])
  {
    if s != [] && (CsiParam(s[0]) || CsiIntermediate(s[0])) then
      var n := 1 + CsiRun(s[1..]);
      assert s[..n] == [s[0]] + s[1..][..n - 1];
      n
    else 0
  }

  /** Does a control string end here? */
  predicate Closes(s: seq<CodeUnit>, osc: bool, i: nat)
    requires i < |s|
  {
    (osc && s[i] == BEL) || (s[i] == ESC && i + 1 < |s| && s[i + 1] == BACKSLASH)
  }

  /** Where the text of a control string ends. */
  function StringRun(s: seq<CodeUnit>, osc: bool, i: nat): (n: nat)
    requires i <= |s| && forall k | 0 <= k < i :: !Closes(s, osc, k)
    ensures n <= |s| && forall k | 0 <= k < n :: !Closes(s, osc, k)
    ensures n < |s| ==> Closes(s, osc, n)
    decreases |s| - i
  {
    if i < |s| && !Closes(s, osc, i) then StringRun(s, osc, i + 1) else i
  }

  lemma RunIsUnterminated(s: seq<CodeUnit>, osc: bool, n: nat)
    requires n <= |s| && forall k | 0 <= k < n :: !Closes(s, osc, k)
    ensures Unterminated(s[..n]) && (osc ==> BEL !in s[..n])
  {
    forall i | 0 <= i < n - 1 ensures !(s[..n][i] == ESC && s[..n][i + 1] == BACKSLASH) {
      assert !Closes(s, osc, i);
    }
    forall i | 0 <= i < n && osc ensures s[..n][i] != BEL { assert !Closes(s, osc, i); }
  }

  /** The first piece of a text, or all of it if that is cut off. */
  function FirstPiece(s: seq<CodeUnit>): Option<Piece>
    requires s != []
  {
    if s[0] != ESC then Some(if Plain(s[0]) then Text([s[0]]) else Lone(s[0]))
    else if |s| == 1 then None
    else
      var body := s[2..];
      if s[1] == 0x5b then
        var n := CsiRun(body);
        if n < |body| then Some(Sequence(LooseCsi(body[..n], body[n]))) else None
      else if s[1] == 0x5d then
        var n := StringRun(body, true, 0);
        if n < |body| then Some(Sequence(OscSeq(body[..n], body[n] == BEL))) else None
      else if OpensString(s[1]) then
        var n := StringRun(body, false, 0);
        if n < |body| then Some(Sequence(StringSeq(s[1], body[..n]))) else None
      else if s[1] == 0x4f then
        if |body| > 0 then Some(Sequence(Shift(body[0]))) else None
      else if s[1] < 0x20 || s[1] == DEL then Some(Sequence(EscC0(s[1])))
      else Some(Escaped(s[1]))
  }

  lemma StringPiece(s: seq<CodeUnit>, osc: bool)
    requires |s| >= 2 && s[0] == ESC && (if osc then s[1] == 0x5d else OpensString(s[1]))
    ensures var body := s[2..]; var n := StringRun(body, osc, 0);
            && Unterminated(body[..n]) && (osc ==> BEL !in body[..n])
            && (n == |body| ==> IsCutOff(s))
            && (n < |body| ==>
                  var raw := [ESC, s[1]] + body[..n] + if osc && body[n] == BEL then [BEL] else [ESC, BACKSLASH];
                  |raw| <= |s| && s[..|raw|] == raw)
  {
    var body := s[2..];
    var n := StringRun(body, osc, 0);
    RunIsUnterminated(body, osc, n);
    if n == |body| { assert body[..n] == body; }
  }

  lemma CsiPiece(s: seq<CodeUnit>)
    requires |s| >= 2 && s[0] == ESC && s[1] == 0x5b
    ensures var body := s[2..]; var n := CsiRun(body);
            && (n == |body| ==> IsCutOff(s))
            && (n < |body| ==>
                  var q := LooseCsi(body[..n], body[n]);
                  WellFormed(q) && |Bytes(q)| <= |s| && s[..|Bytes(q)|] == Bytes(q))
  {
    var body := s[2..];
    var n := CsiRun(body);
    if n == |body| {
      assert body[..n] == body;
    } else {
      assert Bytes(LooseCsi(body[..n], body[n])) == s[..n + 3];
    }
  }

  predicate Fits(s: seq<CodeUnit>, p: Piece) {
    ValidPiece(p) && 0 < |RawOf(p)| <= |s| && s[..|RawOf(p)|] == RawOf(p)
  }

  lemma EscapePiece(s: seq<CodeUnit>)
    requires |s| >= 2 && s[0] == ESC
    ensures FirstPiece(s).None? ==> IsCutOff(s)
    ensures FirstPiece(s).Some? ==> Fits(s, FirstPiece(s).value)
  {
    if s[1] == 0x5b {
      CsiPiece(s);
    } else if s[1] == 0x5d {
      StringPiece(s, true);
    } else if OpensString(s[1]) {
      StringPiece(s, false);
    } else if s[1] == 0x4f {
      if |s| == 2 { assert s == [ESC, 0x4f]; }
    }
  }

  lemma FirstPieceIsPrefix(s: seq<CodeUnit>)
    requires s != []
    ensures FirstPiece(s).None? ==> IsCutOff(s)
    ensures FirstPiece(s).Some? ==> Fits(s, FirstPiece(s).value)
  {
    if |s| >= 2 && s[0] == ESC { EscapePiece(s); }
  }

  /** Every text is a run of such pieces and a cut-off tail, so `TypedTextSurvives` says
      what stripping makes of any text. */
  lemma {:induction false} EveryTextParses(s: seq<CodeUnit>) returns (ps: seq<Piece>, tail: seq<CodeUnit>)
    ensures s == Raw(ps) + tail && IsCutOff(tail) && forall p <- ps :: ValidPiece(p)
    decreases |s|
  {
    ps, tail := [], s;
    if s != [] {
      FirstPieceIsPrefix(s);
      if FirstPiece(s).Some? {
        var p := FirstPiece(s).value;
        var rest := s[|RawOf(p)|..];
        var more;
        more, tail := EveryTextParses(rest);
        ps := [p] + more;
        ConcatAssoc(RawOf(p), Raw(more), tail);
        assert s == RawOf(p) + rest;
      }
    }
  }
}
