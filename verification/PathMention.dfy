/** The `@[label]` chips of the chat composer, from `pathMentionHelpers.ts`:
    unique labels, the attachments a text refers to, and deleting a chip with
    Backspace. Text is a sequence of UTF-16 code units. */
module PathMention {
  import opened Prelude

  type Text = seq<CodeUnit>

  const AT: CodeUnit := 0x40
  const OPEN: CodeUnit := 0x5b
  const CLOSE: CodeUnit := 0x5d
  const NEWLINE: CodeUnit := 0x0a
  const HASH: CodeUnit := 0x23

  /** An attachment record; two records are told apart by identity. */
  class PathAttachment {
    const kind: Text
    const path: Text
    const name: Text

    constructor (kind: Text, path: Text, name: Text)
      ensures this.kind == kind && this.path == path && this.name == name
    {
      this.kind, this.path, this.name := kind, path, name;
    }
  }

  // ---------- unique labels ----------

  function Decimal(n: nat): (d: Text)
    ensures d != []
  {
    if n < 10 then [0x30 + n] else Decimal(n / 10) + [0x30 + n % 10]
  }

  /** The number a digit string stands for. */
  function Value(d: Text): int {
    if d == [] then 0 else 10 * Value(d[..|d| - 1]) + (d[|d| - 1] as int - 0x30)
  }

  /** It is the decimal numeral: digits only, no leading zero, and of that value. */
  lemma {:induction false} DecimalIsNumeral(n: nat)
    ensures Value(Decimal(n)) == n && (forall c <- Decimal(n) :: 0x30 <= c <= 0x39)
    ensures n > 0 ==> Decimal(n)[0] != 0x30
  {
    var d := Decimal(n);
    if n < 10 {
      assert d == [0x30 + n] && d[..0] == [];
    } else {
      DecimalIsNumeral(n / 10);
      assert d[..|d| - 1] == Decimal(n / 10);
    }
  }

  function Numbered(name: Text, i: nat): Text {
    name + [HASH] + Decimal(i)
  }

  lemma {:induction false} DecimalInjective(m: nat, n: nat)
    requires Decimal(m) == Decimal(n)
    ensures m == n
  {
    var d, e := Decimal(m), Decimal(n);
    assert d[|d| - 1] == 0x30 + m % 10 && e[|e| - 1] == 0x30 + n % 10;
    if m >= 10 && n >= 10 {
      assert d[..|d| - 1] == Decimal(m / 10) && e[..|e| - 1] == Decimal(n / 10);
      DecimalInjective(m / 10, n / 10);
    }
  }

  lemma NumberedInjective(name: Text, m: nat, n: nat)
    ensures Numbered(name, m) == Numbered(name, n) ==> m == n
    ensures Numbered(name, m) != name
  {
    if Numbered(name, m) == Numbered(name, n) {
      assert Numbered(name, m)[|name| + 1..] == Decimal(m);
      assert Numbered(name, n)[|name| + 1..] == Decimal(n);
      DecimalInjective(m, n);
    }
  }

  /** The labels tried before number `i`. */
  function Probed(name: Text, i: nat): set<Text> {
    if i <= 2 then {name} else Probed(name, i - 1) + {Numbered(name, i - 1)}
  }

  lemma {:induction false} ProbesAreDistinct(name: Text, i: nat)
    requires 2 <= i
    ensures |Probed(name, i)| == i - 1
    ensures forall j | i <= j :: Numbered(name, j) !in Probed(name, i)
  {
    NumberedInjective(name, i, i);
    if i > 2 {
      ProbesAreDistinct(name, i - 1);
      forall j | i <= j ensures Numbered(name, j) !in Probed(name, i) {
        NumberedInjective(name, j, i - 1);
      }
    } else {
      forall j | i <= j ensures Numbered(name, j) !in Probed(name, i) {
        NumberedInjective(name, j, j);
      }
    }
  }

  /** The first number from `i` on that gives a free label. */
  function FirstFree(name: Text, taken: set<Text>, i: nat): Text
    requires 2 <= i
    decreases taken - Probed(name, i)
  {
    ProbesAreDistinct(name, i);
    if Numbered(name, i) in taken then FirstFree(name, taken, i + 1) else Numbered(name, i)
  }

  function Unique(name: Text, taken: set<Text>): Text {
    if name in taken then FirstFree(name, taken, 2) else name
  }

  lemma Pigeonhole(s: set<Text>, t: set<Text>)
    requires s <= t
    ensures |s| <= |t|
  {
    assert t == s + (t - s);
  }

  /** The search hits a free label after at most one probe more than there are
      taken labels, and skips none. */
  lemma {:induction false} FirstFreeFound(name: Text, taken: set<Text>, i: nat)
    requires 2 <= i && Probed(name, i) <= taken
    ensures exists k :: i <= k <= |taken| + 1 && FirstFree(name, taken, i) == Numbered(name, k)
                        && Numbered(name, k) !in taken
                        && forall j | i <= j < k :: Numbered(name, j) in taken
    decreases taken - Probed(name, i)
  {
    ProbesAreDistinct(name, i);
    Pigeonhole(Probed(name, i), taken);
    if Numbered(name, i) in taken {
      FirstFreeFound(name, taken, i + 1);
      var k :| i + 1 <= k <= |taken| + 1 && FirstFree(name, taken, i + 1) == Numbered(name, k)
               && Numbered(name, k) !in taken
               && forall j | i + 1 <= j < k :: Numbered(name, j) in taken;
      assert forall j | i <= j < k :: Numbered(name, j) in taken;
    }
  }

  function Labels(existing: seq<PathAttachment>): set<Text> {
    set a | a in existing :: a.name
  }

  lemma {:induction false} FewLabels(existing: seq<PathAttachment>)
    ensures |Labels(existing)| <= |existing|
  {
    if existing == [] {
      assert Labels(existing) == {};
    } else {
      FewLabels(existing[1..]);
      assert existing == [existing[0]] + existing[1..];
      assert Labels(existing) == {existing[0].name} + Labels(existing[1..]);
    }
  }

  /** The loop ends within |existing| + 1 probes, the first one included, with a
      label no attachment has. */
  method UniqueLabel(name: Text, existing: seq<PathAttachment>) returns (r: Text)
    ensures r == Unique(name, Labels(existing))
    ensures r !in Labels(existing)
    ensures name !in Labels(existing) ==> r == name
    ensures name in Labels(existing) ==>
              exists k :: 2 <= k <= |existing| + 1 && r == Numbered(name, k) == name + [0x23] + Decimal(k)
                          && forall j | 2 <= j < k :: Numbered(name, j) in Labels(existing)
  {
    var taken := set a | a in existing :: a.name;
    if name !in taken { return name; }
    FewLabels(existing);
    FirstFreeFound(name, taken, 2);
    var i := 2;
    while Numbered(name, i) in taken
      invariant 2 <= i
      invariant Probed(name, i) <= taken
      invariant FirstFree(name, taken, i) == FirstFree(name, taken, 2)
      decreases |taken| + 1 - i
    {
      ProbesAreDistinct(name, i + 1);
      Pigeonhole(Probed(name, i + 1), taken);
      i := i + 1;
    }
    r := Numbered(name, i);
  }

  // ---------- tokens ----------

  /** `value[p..q + 1]` is one `@[label]` token: a non-empty label without a
      closing bracket or a line break. */
  predicate IsToken(value: Text, p: nat, q: nat) {
    && p + 2 < q < |value|
    && value[p] == 0x40 && value[p + 1] == 0x5b && value[q] == 0x5d
    && forall i | p + 2 <= i < q :: value[i] != 0x5d && value[i] != 0x0a
  }

  /** The end of the run of label characters from `i` on. */
  function RunEnd(value: Text, i: nat): (q: nat)
    requires i <= |value|
    ensures i <= q <= |value|
    ensures forall k | i <= k < q :: value[k] != CLOSE && value[k] != NEWLINE
    ensures q < |value| ==> value[q] == CLOSE || value[q] == NEWLINE
    decreases |value| - i
  {
    if i < |value| && value[i] != CLOSE && value[i] != NEWLINE then RunEnd(value, i + 1) else i
  }

  /** The leftmost token at or after `from`, as the token expression finds it. */
  function Exec(value: Text, from: nat): (r: Option<(nat, nat)>)
    ensures r.Some? ==> from <= r.value.0 && r.value.0 + 2 < r.value.1 < |value|
    decreases |value| - from
  {
    if from + 2 >= |value| then None
    else if value[from] == AT && value[from + 1] == OPEN
            && var q := RunEnd(value, from + 2); from + 2 < q < |value| && value[q] == CLOSE then
      Some((from, RunEnd(value, from + 2)))
    else
      Exec(value, from + 1)
  }

  /** `Exec` finds a token, and none starts further left. */
  lemma {:induction false} ExecIsLeftmost(value: Text, from: nat)
    ensures Exec(value, from).Some? ==> IsToken(value, Exec(value, from).value.0, Exec(value, from).value.1)
    ensures forall p, q | from <= p :: IsToken(value, p, q) ==>
              Exec(value, from).Some? && Exec(value, from).value.0 <= p
    decreases |value| - from
  {
    if from + 2 < |value| {
      var q := RunEnd(value, from + 2);
      assert forall q' :: IsToken(value, from, q') ==> q' == q;
      ExecIsLeftmost(value, from + 1);
    }
  }

  /** The labels of the tokens of `value` from `from` on, left to right. */
  function Tokens(value: Text, from: nat): seq<Text>
    decreases |value| - from
  {
    match Exec(value, from)
    case None => []
    case Some((p, q)) => [value[p + 2..q]] + Tokens(value, q + 1)
  }

  /** Where the tokens found lie. */
  function Spans(value: Text, from: nat): seq<(nat, nat)>
    decreases |value| - from
  {
    match Exec(value, from)
    case None => []
    case Some((p, q)) => [(p, q)] + Spans(value, q + 1)
  }

  /** Tokens of the text, from here on, one after another and apart. */
  predicate InOrder(value: Text, from: nat, spans: seq<(nat, nat)>)
    decreases spans
  {
    if spans == [] then true
    else
      && from <= spans[0].0 && IsToken(value, spans[0].0, spans[0].1)
      && InOrder(value, spans[0].1 + 1, spans[1..])
  }

  function LabelsIn(value: Text, spans: seq<(nat, nat)>): seq<Text> {
    if spans == [] then []
    else
      (if spans[0].0 + 2 <= spans[0].1 <= |value| then [value[spans[0].0 + 2..spans[0].1]] else [[]])
      + LabelsIn(value, spans[1..])
  }

  lemma {:induction false} SpansAreTokens(value: Text, from: nat)
    ensures InOrder(value, from, Spans(value, from))
    ensures Tokens(value, from) == LabelsIn(value, Spans(value, from))
    decreases |value| - from
  {
    ExecIsLeftmost(value, from);
    if Exec(value, from).Some? {
      var (p, q) := Exec(value, from).value;
      SpansAreTokens(value, q + 1);
      assert Spans(value, from)[1..] == Spans(value, q + 1);
    }
  }

  lemma SameEnd(value: Text, p: nat, q: nat, p': nat, q': nat)
    requires IsToken(value, p, q) && IsToken(value, p', q') && p' <= p <= q'
    ensures q == q'
  {
    assert value[p] != CLOSE && value[p + 1] != CLOSE;
    assert value[q] == CLOSE && value[q'] == CLOSE;
  }

  lemma {:induction false} SpansComplete(value: Text, from: nat, p: nat, q: nat)
    requires IsToken(value, p, q) && from <= p
    ensures exists i | 0 <= i < |Spans(value, from)| :: Spans(value, from)[i].0 <= p && Spans(value, from)[i].1 == q
    decreases |value| - from
  {
    ExecIsLeftmost(value, from);
    var (p0, q0) := Exec(value, from).value;
    assert Spans(value, from)[0] == (p0, q0);
    if q0 < p {
      SpansComplete(value, q0 + 1, p, q);
      var i :| 0 <= i < |Spans(value, q0 + 1)| && Spans(value, q0 + 1)[i].0 <= p && Spans(value, q0 + 1)[i].1 == q;
      assert Spans(value, from)[i + 1] == Spans(value, q0 + 1)[i];
    } else {
      SameEnd(value, p, q, p0, q0);
    }
  }

  /** A found token ends there. */
  ghost predicate Ends(spans: seq<(nat, nat)>, p: nat, q: nat) {
    exists i | 0 <= i < |spans| :: spans[i].0 <= p && spans[i].1 == q
  }

  /** The labels collected are those of tokens of the text, from left to right and apart,
      and no token is missed: each ends where one of those found does. */
  lemma TokensAreAll(value: Text)
    ensures Tokens(value, 0) == LabelsIn(value, Spans(value, 0)) && InOrder(value, 0, Spans(value, 0))
    ensures forall p, q :: IsToken(value, p, q) ==> Ends(Spans(value, 0), p, q)
  {
    SpansAreTokens(value, 0);
    forall p, q | IsToken(value, p, q) ensures Ends(Spans(value, 0), p, q) {
      SpansComplete(value, 0, p, q);
    }
  }

  // ---------- reconciling attachments ----------

  /** The first record of the pool with this label that is not in `out` yet. */
  function Pick(pool: seq<PathAttachment>, name: Text, out: seq<PathAttachment>): (r: Option<PathAttachment>)
    ensures r.Some? ==> r.value in pool && r.value.name == name && r.value !in out
    ensures r.None? ==> forall a | a in pool && a.name == name :: a in out
  {
    if pool == [] then None
    else if pool[0].name == name && pool[0] !in out then Some(pool[0])
    else Pick(pool[1..], name, out)
  }

  function Attached(tokens: seq<Text>, pool: seq<PathAttachment>): seq<PathAttachment> {
    if tokens == [] then []
    else
      var out := Attached(tokens[..|tokens| - 1], pool);
      match Pick(pool, tokens[|tokens| - 1], out)
      case None => out
      case Some(a) => out + [a]
  }

  lemma TokensStep(matches: seq<Text>, text: Text, from: nat)
    ensures Exec(text, from).None? ==> matches + Tokens(text, from) == matches
    ensures Exec(text, from).Some? ==>
              var (p, q) := Exec(text, from).value;
              matches + Tokens(text, from) == (matches + [text[p + 2..q]]) + Tokens(text, q + 1)
  {
    if Exec(text, from).Some? {
      var (p, q) := Exec(text, from).value;
      var name, rest := text[p + 2..q], Tokens(text, q + 1);
      assert Tokens(text, from) == [name] + rest;
      ConcatAssoc(matches, [name], rest);
    } else {
      ConcatNothing(matches);
    }
  }

  /** The labels of all tokens, by running the token expression to exhaustion. */
  method MatchAll(text: Text) returns (matches: seq<Text>)
    ensures matches == Tokens(text, 0)
  {
    matches := [];
    var lastIndex := 0;
    while true
      invariant Tokens(text, 0) == matches + Tokens(text, lastIndex)
      decreases |text| - lastIndex
    {
      var m := Exec(text, lastIndex);
      TokensStep(matches, text, lastIndex);
      if m.None? { break; }
      matches := matches + [text[m.value.0 + 2..m.value.1]];
      lastIndex := m.value.1 + 1;
    }
  }

  method ReconcileAttachments(text: Text, pool: seq<PathAttachment>) returns (out: seq<PathAttachment>)
    ensures out == Attached(Tokens(text, 0), pool)
  {
    var matches := MatchAll(text);
    out := [];
    for i := 0 to |matches|
      invariant out == Attached(matches[..i], pool)
    {
      assert matches[..i + 1][..i] == matches[..i];
      var found := Pick(pool, matches[i], out);
      if found.Some? { out := out + [found.value]; }
    }
    assert matches[..|matches|] == matches;
  }

  /** The records of `pool` with one label, in order. */
  function ByLabel(pool: seq<PathAttachment>, name: Text): seq<PathAttachment> {
    if pool == [] then []
    else if pool[0].name == name then [pool[0]] + ByLabel(pool[1..], name)
    else ByLabel(pool[1..], name)
  }

  predicate NoRepeats(s: seq<PathAttachment>) {
    forall i, j | 0 <= i < j < |s| :: s[i] != s[j]
  }

  lemma {:induction false} ByLabelOfConcat(s: seq<PathAttachment>, t: seq<PathAttachment>, name: Text)
    ensures ByLabel(s + t, name) == ByLabel(s, name) + ByLabel(t, name)
  {
    if s == [] {
      assert s + t == t;
    } else {
      assert (s + t)[1..] == s[1..] + t;
      ByLabelOfConcat(s[1..], t, name);
    }
  }

  lemma {:induction false} ByLabelMember(s: seq<PathAttachment>, name: Text, a: PathAttachment)
    ensures a in ByLabel(s, name) <==> a in s && a.name == name
  {
    if s != [] {
      ByLabelMember(s[1..], name, a);
      assert s == [s[0]] + s[1..];
    }
  }

  /** Picking skips exactly the leading records already taken. */
  lemma {:induction false} PickIsNext(pool: seq<PathAttachment>, name: Text, out: seq<PathAttachment>, c: nat)
    requires NoRepeats(pool)
    requires c <= |ByLabel(pool, name)|
    requires forall i | 0 <= i < |ByLabel(pool, name)| :: ByLabel(pool, name)[i] in out <==> i < c
    ensures Pick(pool, name, out) == if c < |ByLabel(pool, name)| then Some(ByLabel(pool, name)[c]) else None
  {
    if pool != [] {
      var s, rest := ByLabel(pool, name), ByLabel(pool[1..], name);
      if pool[0].name == name {
        assert s[0] == pool[0] && s[1..] == rest;
        if c > 0 {
          assert s[0] in out;
          assert forall i | 0 <= i < |rest| :: rest[i] == s[i + 1];
          PickIsNext(pool[1..], name, out, c - 1);
        }
      } else {
        PickIsNext(pool[1..], name, out, c);
      }
    }
  }

  lemma {:induction false} ByLabelNoRepeats(pool: seq<PathAttachment>, name: Text)
    requires NoRepeats(pool)
    ensures NoRepeats(ByLabel(pool, name))
  {
    if pool != [] {
      ByLabelNoRepeats(pool[1..], name);
      ByLabelMember(pool[1..], name, pool[0]);
    }
  }

  function Min(x: nat, y: nat): nat { if x < y then x else y }

  /** For each label, the attachments kept are the first records of the pool with
      that label, as many as the text has tokens for it (or the pool has records). */
  lemma {:induction false} AttachedPerLabel(tokens: seq<Text>, pool: seq<PathAttachment>, name: Text)
    requires NoRepeats(pool)
    ensures ByLabel(Attached(tokens, pool), name) ==
            ByLabel(pool, name)[..Min(multiset(tokens)[name], |ByLabel(pool, name)|)]
  {
    if tokens != [] {
      var init, last := tokens[..|tokens| - 1], tokens[|tokens| - 1];
      assert tokens == init + [last];
      var out := Attached(init, pool);
      AttachedPerLabel(init, pool, name);
      assert multiset(tokens)[name] == multiset(init)[name] + if last == name then 1 else 0;
      PickedPerLabel(pool, last, out, name, Min(multiset(init)[name], |ByLabel(pool, name)|));
    }
  }

  /** One more token takes one more record of its own label, and of no other. */
  lemma PickedPerLabel(pool: seq<PathAttachment>, token: Text, out: seq<PathAttachment>, name: Text, c: nat)
    requires NoRepeats(pool) && c <= |ByLabel(pool, name)| && ByLabel(out, name) == ByLabel(pool, name)[..c]
    ensures var s := ByLabel(pool, name);
            var next := match Pick(pool, token, out) { case None => out case Some(a) => out + [a] };
            ByLabel(next, name) == s[..if token == name && c < |s| then c + 1 else c]
  {
    var s := ByLabel(pool, name);
    if token == name { PickAtCount(pool, name, out, c); }
    match Pick(pool, token, out)
    case None =>
    case Some(a) =>
      ByLabelOfConcat(out, [a], name);
      assert ByLabel([a], name) == if a.name == name then [a] else [];
      if token == name { assert s[..c] + [s[c]] == s[..c + 1]; } else { ConcatNothing(s[..c]); }
  }

  /** With the first `c` records of a label taken, the next is picked. */
  lemma PickAtCount(pool: seq<PathAttachment>, name: Text, out: seq<PathAttachment>, c: nat)
    requires NoRepeats(pool) && c <= |ByLabel(pool, name)| && ByLabel(out, name) == ByLabel(pool, name)[..c]
    ensures Pick(pool, name, out) == if c < |ByLabel(pool, name)| then Some(ByLabel(pool, name)[c]) else None
  {
    var s := ByLabel(pool, name);
    ByLabelNoRepeats(pool, name);
    forall i | 0 <= i < |s| ensures s[i] in out <==> i < c {
      ByLabelMember(pool, name, s[i]);
      ByLabelMember(out, name, s[i]);
      if i < c { assert s[..c][i] == s[i]; }
    }
    PickIsNext(pool, name, out, c);
  }

  /** `sub` is `s` with some elements left out. */
  predicate Subsequence(sub: seq<Text>, s: seq<Text>) {
    if sub == [] then true
    else if s == [] then false
    else if sub[|sub| - 1] == s[|s| - 1] then Subsequence(sub[..|sub| - 1], s[..|s| - 1])
    else Subsequence(sub, s[..|s| - 1])
  }

  function LabelsOf(s: seq<PathAttachment>): seq<Text> {
    seq(|s|, i requires 0 <= i < |s| => s[i].name)
  }

  lemma {:induction false} DropLast(sub: seq<Text>, s: seq<Text>)
    requires Subsequence(sub, s)
    ensures sub != [] ==> Subsequence(sub[..|sub| - 1], s)
    decreases |s|, 1
  {
    if s != [] && sub != [] {
      if sub[|sub| - 1] == s[|s| - 1] {
        Longer(sub[..|sub| - 1], s);
      } else {
        DropLast(sub, s[..|s| - 1]);
        Longer(sub[..|sub| - 1], s);
      }
    }
  }

  lemma {:induction false} Longer(sub: seq<Text>, s: seq<Text>)
    requires s != [] && Subsequence(sub, s[..|s| - 1])
    ensures Subsequence(sub, s)
    decreases |s|, 0
  {
    if sub != [] && sub[|sub| - 1] == s[|s| - 1] {
      DropLast(sub, s[..|s| - 1]);
    }
  }

  /** No record is used twice, all come from the pool, and they follow the order
      of the tokens. */
  lemma {:induction false} AttachedInTokenOrder(tokens: seq<Text>, pool: seq<PathAttachment>)
    ensures NoRepeats(Attached(tokens, pool))
    ensures forall a <- Attached(tokens, pool) :: a in pool
    ensures Subsequence(LabelsOf(Attached(tokens, pool)), tokens)
  {
    if tokens != [] {
      var init, last := tokens[..|tokens| - 1], tokens[|tokens| - 1];
      AttachedInTokenOrder(init, pool);
      var out := Attached(init, pool);
      match Pick(pool, last, out)
      case None => Longer(LabelsOf(out), tokens);
      case Some(a) =>
        var labels := LabelsOf(out + [a]);
        assert labels[..|labels| - 1] == LabelsOf(out);
    }
  }

  lemma {:induction false} PickAmongKept(kept: seq<PathAttachment>, name: Text, out: seq<PathAttachment>)
    requires |out| < |kept| && kept[..|out|] == out
    requires kept[|out|].name == name && kept[|out|] !in out
    ensures Pick(kept, name, out) == Some(kept[|out|])
  {
    PickAfter(kept, name, out, |out|);
  }

  lemma {:induction false} PickAfter(kept: seq<PathAttachment>, name: Text, out: seq<PathAttachment>, n: nat)
    requires n < |kept| && forall i | 0 <= i < n :: kept[i] in out
    requires kept[n].name == name && kept[n] !in out
    ensures Pick(kept, name, out) == Some(kept[n])
  {
    if n > 0 { PickAfter(kept[1..], name, out, n - 1); }
  }

  lemma {:induction false} AttachedGrows(tokens: seq<Text>, k: nat, pool: seq<PathAttachment>)
    requires k <= |tokens|
    ensures Attached(tokens[..k], pool) <= Attached(tokens, pool)
    decreases |tokens|
  {
    if k < |tokens| {
      assert tokens[..|tokens| - 1][..k] == tokens[..k];
      AttachedGrows(tokens[..|tokens| - 1], k, pool);
    } else {
      assert tokens[..k] == tokens;
    }
  }

  lemma {:induction false} ReattachPrefix(tokens: seq<Text>, k: nat, pool: seq<PathAttachment>)
    requires k <= |tokens|
    ensures Attached(tokens[..k], Attached(tokens, pool)) == Attached(tokens[..k], pool)
  {
    if k > 0 {
      var kept := Attached(tokens, pool);
      var out := Attached(tokens[..k - 1], pool);
      ReattachPrefix(tokens, k - 1, pool);
      assert tokens[..k][..k - 1] == tokens[..k - 1];
      AttachedGrows(tokens, k, pool);
      AttachedInTokenOrder(tokens, pool);
      match Pick(pool, tokens[k - 1], out)
      case None =>
      case Some(a) =>
        assert Attached(tokens[..k], pool) == out + [a];
        assert kept[|out|] == a;
        PickAmongKept(kept, tokens[k - 1], out);
    }
  }

  /** Reconciling again against what was kept keeps it all. */
  lemma ReconcileIdempotent(text: Text, pool: seq<PathAttachment>)
    ensures Attached(Tokens(text, 0), Attached(Tokens(text, 0), pool)) == Attached(Tokens(text, 0), pool)
  {
    var tokens := Tokens(text, 0);
    ReattachPrefix(tokens, |tokens|, pool);
    assert tokens[..|tokens|] == tokens;
  }

  /** Using one entry per label, however often the text names it, is what happens
      exactly for labels named at most once or carried by at most one entry. */
  lemma OneEntryPerLabel(tokens: seq<Text>, pool: seq<PathAttachment>, name: Text)
    requires NoRepeats(pool)
    ensures |ByLabel(Attached(tokens, pool), name)| <= 1 <==> multiset(tokens)[name] <= 1 || |ByLabel(pool, name)| <= 1
  {
    AttachedPerLabel(tokens, pool, name);
  }

  // ---------- the composer ----------

  const MAX_ATTACHMENTS: nat := 16

  /** What happens to the attachments of a message: a suggestion is attached under a
      new record, the text is edited or a chip deleted, the message is sent. */
  datatype Edit = Attach(suggested: Text, record: PathAttachment) | Retype(text: Text) | Send

  function Edited(pool: seq<PathAttachment>, e: Edit): seq<PathAttachment> {
    match e
    case Attach(suggested, record) =>
      if |pool| >= MAX_ATTACHMENTS || record in pool || record.name != Unique(suggested, Labels(pool)) then pool
      else pool + [record]
    case Retype(text) => Attached(Tokens(text, 0), pool)
    case Send => []
  }

  function Composed(es: seq<Edit>): seq<PathAttachment> {
    if es == [] then [] else Edited(Composed(es[..|es| - 1]), es[|es| - 1])
  }

  predicate DistinctLabels(pool: seq<PathAttachment>) {
    forall i, j | 0 <= i < j < |pool| :: pool[i].name != pool[j].name
  }

  /** A suggestion is attached under a free label, until a message has 16. */
  lemma AttachingWorks(pool: seq<PathAttachment>, suggested: Text, record: PathAttachment)
    requires record !in pool && record.name == Unique(suggested, Labels(pool))
    ensures Edited(pool, Attach(suggested, record)) == if |pool| < 16 then pool + [record] else pool
    ensures Edited(pool, Send) == []
  {
  }

  lemma UniqueIsFree(name: Text, taken: set<Text>)
    ensures Unique(name, taken) !in taken
  {
    if name in taken { FirstFreeFound(name, taken, 2); }
  }

  lemma AttachKeepsLabels(pool: seq<PathAttachment>, suggested: Text, record: PathAttachment)
    requires DistinctLabels(pool) && record.name == Unique(suggested, Labels(pool))
    ensures DistinctLabels(pool + [record])
  {
    UniqueIsFree(suggested, Labels(pool));
    forall i | 0 <= i < |pool| ensures pool[i].name != record.name {
      assert pool[i] in pool;
    }
  }

  lemma RetypeKeepsLabels(pool: seq<PathAttachment>, tokens: seq<Text>)
    requires DistinctLabels(pool)
    ensures DistinctLabels(Attached(tokens, pool)) && |Attached(tokens, pool)| <= |pool|
  {
    AttachedInTokenOrder(tokens, pool);
    var out := Attached(tokens, pool);
    forall i, j | 0 <= i < j < |out| ensures out[i].name != out[j].name {
      assert out[i] in pool && out[j] in pool && out[i] != out[j];
    }
    FewerThanPool(out, pool);
  }

  lemma {:induction false} FewerThanPool(out: seq<PathAttachment>, pool: seq<PathAttachment>)
    requires NoRepeats(out) && forall a <- out :: a in pool
    ensures |out| <= |pool|
  {
    if out != [] {
      var last := |out| - 1;
      assert out[last] in out;
      var k :| 0 <= k < |pool| && pool[k] == out[last];
      var rest := pool[..k] + pool[k + 1..];
      forall a | a in out[..last] ensures a in rest {
        var i :| 0 <= i < last && out[i] == a;
        assert a in out && a != pool[k];
        var j :| 0 <= j < |pool| && pool[j] == a;
        assert rest[if j < k then j else j - 1] == a;
      }
      FewerThanPool(out[..last], rest);
    }
  }

  lemma {:induction false} ByLabelAbsent(pool: seq<PathAttachment>, name: Text)
    requires forall i | 0 <= i < |pool| :: pool[i].name != name
    ensures ByLabel(pool, name) == []
  {
    if pool != [] { ByLabelAbsent(pool[1..], name); }
  }

  lemma {:induction false} DistinctPerLabel(pool: seq<PathAttachment>, name: Text)
    requires DistinctLabels(pool)
    ensures |ByLabel(pool, name)| <= 1 && NoRepeats(pool)
  {
    if pool != [] {
      DistinctPerLabel(pool[1..], name);
      if pool[0].name == name { ByLabelAbsent(pool[1..], name); }
    }
  }

  /** However attaching, editing and deleting are interleaved, all chips of a message
      carry different labels, and there are at most 16. */
  lemma {:induction false} ComposerLabelsDistinct(es: seq<Edit>)
    ensures DistinctLabels(Composed(es)) && |Composed(es)| <= MAX_ATTACHMENTS
    ensures forall name :: |ByLabel(Composed(es), name)| <= 1
  {
    if es != [] {
      var pool := Composed(es[..|es| - 1]);
      ComposerLabelsDistinct(es[..|es| - 1]);
      match es[|es| - 1]
      case Attach(suggested, record) =>
        if record.name == Unique(suggested, Labels(pool)) { AttachKeepsLabels(pool, suggested, record); }
      case Retype(text) => RetypeKeepsLabels(pool, Tokens(text, 0));
      case Send =>
    }
    forall name ensures |ByLabel(Composed(es), name)| <= 1 { DistinctPerLabel(Composed(es), name); }
  }

  /** So in the composer a label's one entry is kept exactly when the text names it,
      and used once however often it does. */
  lemma ComposerKeepsOne(es: seq<Edit>, text: Text, name: Text)
    ensures var pool := Composed(es);
            ByLabel(Edited(pool, Retype(text)), name) == if name in Tokens(text, 0) then ByLabel(pool, name) else []
  {
    var pool, tokens := Composed(es), Tokens(text, 0);
    ComposerLabelsDistinct(es);
    DistinctPerLabel(pool, name);
    AttachedPerLabel(tokens, pool, name);
    assert name in tokens <==> multiset(tokens)[name] > 0;
    var s := ByLabel(pool, name);
    assert s[..|s|] == s && s[..0] == [];
  }

  // ---------- Backspace ----------

  /** Backspace at `caret` takes everything from `p` on: the nearest `@` or line
      break to the left is an `@[`, within the 255 characters looked at. */
  predicate Selects(value: Text, caret: nat, p: nat) {
    && p + 2 <= caret <= |value| && caret - 256 <= p
    && value[caret - 1] == 0x5d
    && value[p] == 0x40 && value[p + 1] == 0x5b
    && forall i | p < i < caret - 1 :: value[i] != 0x40 && value[i] != 0x0a
  }

  method TokenLeftOfCaret(value: Text, caret: nat) returns (r: Option<(nat, nat)>)
    ensures r.Some? ==> r.value.1 == caret && Selects(value, caret, r.value.0)
    ensures r.None? ==> forall p: nat | p + 2 <= caret <= |value| :: !Selects(value, caret, p)
  {
    if caret == 0 { return None; }
    if caret > |value| || value[caret - 1] != CLOSE { return None; }
    var i := caret - 2;
    while i >= 0 && i >= caret - 256
      invariant -1 <= i <= caret - 2
      invariant forall k | i < k < caret - 1 :: 0 <= k && value[k] != AT && value[k] != NEWLINE
    {
      if value[i] == AT && value[i + 1] == OPEN {
        return Some((i, caret));
      }
      if value[i] == AT || value[i] == NEWLINE { return None; }
      i := i - 1;
    }
    r := None;
  }

  /** Backspace right after a chip selects exactly that chip, and nothing else, if
      and only if its label has no `@` and at most 253 characters. */
  lemma BackspaceTakesToken(value: Text, p: nat, caret: nat)
    requires caret > 0 && IsToken(value, p, caret - 1)
    ensures Selects(value, caret, p) <==> AT !in value[p + 2..caret - 1] && caret - 1 - (p + 2) <= 253
    ensures Selects(value, caret, p) ==> forall p': nat :: Selects(value, caret, p') ==> p' == p
  {
    var name := value[p + 2..caret - 1];
    if AT in name {
      var k :| 0 <= k < |name| && name[k] == AT;
      assert value[p + 2 + k] == AT;
    } else {
      forall i | p < i < caret - 1 ensures value[i] != AT && value[i] != NEWLINE {
        if i > p + 1 { assert value[i] == name[i - p - 2]; }
      }
    }
  }

  /** Chips that Backspace does not remove whole: with the label `a@b` nothing is
      selected, and with `a@[b` only the second half is. */
  lemma AtSignCutsToken()
    ensures var v := [AT, OPEN, 0x61, AT, 0x62, CLOSE];
            IsToken(v, 0, 5) && forall p: nat :: !Selects(v, 6, p)
    ensures var v := [AT, OPEN, 0x61, AT, OPEN, 0x62, CLOSE];
            IsToken(v, 0, 6) && !Selects(v, 7, 0) && Selects(v, 7, 3)
  {
    var v: Text := [AT, OPEN, 0x61, AT, 0x62, CLOSE];
    assert v[3] == AT;
    var w: Text := [AT, OPEN, 0x61, AT, OPEN, 0x62, CLOSE];
    assert w[3] == AT && w[4] == OPEN && w[5] == 0x62;
  }
}
