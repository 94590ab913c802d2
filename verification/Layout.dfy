/** The tiling layout tree of `layout.rs`: auto-grid insertion, leaf listing
    and removal of a leaf by agent id. */
module Layout {
  import opened Prelude

  datatype SplitDir = H | V

  datatype LayoutNode =
    | Empty
    | Leaf(agentId: string)
    | Split(direction: SplitDir, ratio: real, a: LayoutNode, b: LayoutNode)

  // ---------- operations ----------

  function Leaves(t: LayoutNode): seq<string> {
    match t
    case Empty => []
    case Leaf(id) => [id]
    case Split(_, _, a, b) => Leaves(a) + Leaves(b)
  }

  /** The growable vector that the traversal pushes into. */
  class Vec {
    var items: seq<string>

    constructor ()
      ensures items == []
    {
      items := [];
    }

    method Push(id: string)
      modifies this
      ensures items == old(items) + [id]
    {
      items := items + [id];
    }
  }

  method CollectLeaves(t: LayoutNode, out: Vec)
    modifies out
    ensures out.items == old(out.items) + Leaves(t)
  {
    match t
    case Empty =>
    case Leaf(id) => out.Push(id);
    case Split(_, _, a, b) =>
      CollectLeaves(a, out);
      CollectLeaves(b, out);
  }

  function LeafCount(t: LayoutNode): nat {
    match t
    case Empty => 0
    case Leaf(_) => 1
    case Split(_, _, a, b) => LeafCount(a) + LeafCount(b)
  }

  function DirectionAt(depth: nat): SplitDir {
    if depth % 2 == 0 then V else H
  }

  function InsertGrid(t: LayoutNode, id: string, depth: nat): LayoutNode {
    match t
    case Empty => Leaf(id)
    case Leaf(_) => Split(DirectionAt(depth), 0.5, t, Leaf(id))
    case Split(direction, ratio, a, b) =>
      if LeafCount(a) <= LeafCount(b) then
        Split(direction, ratio, InsertGrid(a, id, depth + 1), b)
      else
        Split(direction, ratio, a, InsertGrid(b, id, depth + 1))
  }

  function RemoveLeaf(t: LayoutNode, id: string): (LayoutNode, bool) {
    match t
    case Empty => (Empty, false)
    case Leaf(x) => if x == id then (Empty, true) else (t, false)
    case Split(direction, ratio, a, b) =>
      var (a2, removedA) := RemoveLeaf(a, id);
      if removedA then
        (if a2.Empty? then b else Split(direction, ratio, a2, b), true)
      else
        var (b2, removedB) := RemoveLeaf(b, id);
        if removedB then
          (if b2.Empty? then a2 else Split(direction, ratio, a2, b2), true)
        else
          (Split(direction, ratio, a2, b2), false)
  }

  // ---------- vocabulary ----------

  /** No empty node below a split. */
  predicate NoEmpty(t: LayoutNode) {
    match t
    case Empty => false
    case Leaf(_) => true
    case Split(_, _, a, b) => NoEmpty(a) && NoEmpty(b)
  }

  predicate Canonical(t: LayoutNode) {
    t.Empty? || NoEmpty(t)
  }

  /** `s` without its first `x`. */
  function RemoveFirst(s: seq<string>, x: string): seq<string> {
    if s == [] then []
    else if s[0] == x then s[1..]
    else [s[0]] + RemoveFirst(s[1..], x)
  }

  function Height(t: LayoutNode): nat {
    match t
    case Empty => 0
    case Leaf(_) => 0
    case Split(_, _, a, b) =>
      1 + if Height(a) <= Height(b) then Height(b) else Height(a)
  }

  function Pow2(n: nat): nat {
    if n == 0 then 1 else 2 * Pow2(n - 1)
  }

  /** Every split holds b, or b + 1, leaves on its left for b >= 1 on its right. */
  predicate Balanced(t: LayoutNode) {
    match t
    case Empty => true
    case Leaf(_) => true
    case Split(_, _, a, b) =>
      && 1 <= LeafCount(b) <= LeafCount(a) <= LeafCount(b) + 1
      && Balanced(a) && Balanced(b)
  }

  function Across(direction: SplitDir): SplitDir {
    match direction
    case H => V
    case V => H
  }

  /** Split directions alternate from the root down, starting with this one. */
  predicate Alternates(t: LayoutNode, first: SplitDir) {
    match t
    case Empty => true
    case Leaf(_) => true
    case Split(direction, _, a, b) =>
      direction == first && Alternates(a, Across(first)) && Alternates(b, Across(first))
  }

  /** The tree grown from nothing by inserting `ids` one after another at depth 0. */
  function Grid(ids: seq<string>): LayoutNode {
    if ids == [] then Empty
    else InsertGrid(Grid(ids[..|ids| - 1]), ids[|ids| - 1], 0)
  }

  function Abs(x: int): nat { if x < 0 then -x else x }

  function Max(x: int, y: int): int { if x < y then y else x }

  /** `new` is `old` with at most one leaf added: into an empty node, or beside a leaf, in
      a split of equal halves across the one above. Every split of `old` is kept in place,
      none left more lopsided than it was, or than by one. */
  predicate GrownEvenly(old_: LayoutNode, new_: LayoutNode, id: string, direction: SplitDir) {
    match old_
    case Empty => new_ == Empty || new_ == Leaf(id)
    case Leaf(_) => new_ == old_ || new_ == Split(direction, 0.5, old_, Leaf(id))
    case Split(d, ratio, a, b) =>
      && new_.Split? && new_.direction == d && new_.ratio == ratio
      && Abs(LeafCount(new_.a) - LeafCount(new_.b)) <= Max(Abs(LeafCount(a) - LeafCount(b)), 1)
      && GrownEvenly(a, new_.a, id, Across(direction)) && GrownEvenly(b, new_.b, id, Across(direction))
  }

  // ---------- counting and shape ----------

  lemma {:induction false} LeafCountIsLength(t: LayoutNode)
    ensures LeafCount(t) == |Leaves(t)|
    ensures NoEmpty(t) ==> LeafCount(t) >= 1
  {
    if t.Split? {
      LeafCountIsLength(t.a);
      LeafCountIsLength(t.b);
    }
  }

  lemma {:induction false} InsertCount(t: LayoutNode, id: string, depth: nat)
    ensures LeafCount(InsertGrid(t, id, depth)) == LeafCount(t) + 1
    ensures !InsertGrid(t, id, depth).Empty?
    ensures NoEmpty(t) ==> NoEmpty(InsertGrid(t, id, depth))
  {
    if t.Split? {
      InsertCount(t.a, id, depth + 1);
      InsertCount(t.b, id, depth + 1);
    }
  }

  lemma {:induction false} GrowthRefl(t: LayoutNode, id: string, direction: SplitDir)
    ensures GrownEvenly(t, t, id, direction)
  {
    if t.Split? {
      GrowthRefl(t.a, id, Across(direction));
      GrowthRefl(t.b, id, Across(direction));
    }
  }

  predicate IsFirst(direction: SplitDir, depth: nat) {
    direction == if depth % 2 == 0 then V else H
  }

  lemma AcrossIsNext(direction: SplitDir, depth: nat)
    requires IsFirst(direction, depth)
    ensures IsFirst(Across(direction), depth + 1) && DirectionAt(depth) == direction
  {
  }

  /** From any tree, insertion makes no split more lopsided than max(before, 1), and splits
      a leaf across the direction of its depth. */
  lemma {:induction false} InsertGrowsEvenly(t: LayoutNode, id: string, depth: nat, direction: SplitDir)
    requires IsFirst(direction, depth)
    ensures GrownEvenly(t, InsertGrid(t, id, depth), id, direction)
  {
    AcrossIsNext(direction, depth);
    if t.Split? {
      if LeafCount(t.a) <= LeafCount(t.b) {
        InsertCount(t.a, id, depth + 1);
        InsertGrowsEvenly(t.a, id, depth + 1, Across(direction));
        GrowthRefl(t.b, id, Across(direction));
      } else {
        InsertCount(t.b, id, depth + 1);
        InsertGrowsEvenly(t.b, id, depth + 1, Across(direction));
        GrowthRefl(t.a, id, Across(direction));
      }
    }
  }

  lemma {:induction false} InsertBalanced(t: LayoutNode, id: string, depth: nat)
    requires Balanced(t)
    ensures Balanced(InsertGrid(t, id, depth))
  {
    if t.Split? {
      InsertCount(t.a, id, depth + 1);
      InsertCount(t.b, id, depth + 1);
      if LeafCount(t.a) <= LeafCount(t.b) {
        InsertBalanced(t.a, id, depth + 1);
      } else {
        InsertBalanced(t.b, id, depth + 1);
      }
    }
  }

  lemma {:induction false} InsertAlternates(t: LayoutNode, id: string, depth: nat, first: SplitDir)
    requires Alternates(t, first) && IsFirst(first, depth)
    ensures Alternates(InsertGrid(t, id, depth), first)
  {
    AcrossIsNext(first, depth);
    if t.Split? {
      InsertAlternates(t.a, id, depth + 1, Across(first));
      InsertAlternates(t.b, id, depth + 1, Across(first));
    }
  }

  /** Where, in leaf order, the inserted leaf lands. */
  function InsertPos(t: LayoutNode): (k: nat)
    ensures k <= LeafCount(t)
  {
    match t
    case Empty => 0
    case Leaf(_) => 1
    case Split(_, _, a, b) =>
      if LeafCount(a) <= LeafCount(b) then InsertPos(a) else LeafCount(a) + InsertPos(b)
  }

  /** Insertion adds exactly one leaf and keeps the others in order. */
  lemma {:induction false} InsertLeaves(t: LayoutNode, id: string, depth: nat)
    ensures LeafCount(t) == |Leaves(t)|
    ensures Leaves(InsertGrid(t, id, depth)) == Leaves(t)[..InsertPos(t)] + [id] + Leaves(t)[InsertPos(t)..]
  {
    LeafCountIsLength(t);
    if t.Split? {
      LeafCountIsLength(t.a);
      LeafCountIsLength(t.b);
      var a, b := Leaves(t.a), Leaves(t.b);
      if LeafCount(t.a) <= LeafCount(t.b) {
        InsertLeaves(t.a, id, depth + 1);
        InsertLeft(a, b, InsertPos(t.a), id);
      } else {
        InsertLeaves(t.b, id, depth + 1);
        InsertRight(a, b, InsertPos(t.b), id);
      }
    }
  }

  lemma InsertLeft(a: seq<string>, b: seq<string>, k: nat, id: string)
    requires k <= |a|
    ensures (a[..k] + [id] + a[k..]) + b == (a + b)[..k] + [id] + (a + b)[k..]
  {
  }

  lemma InsertRight(a: seq<string>, b: seq<string>, k: nat, id: string)
    requires k <= |b|
    ensures a + (b[..k] + [id] + b[k..]) == (a + b)[..|a| + k] + [id] + (a + b)[|a| + k..]
  {
  }

  lemma Pow2Monotone(m: nat, n: nat)
    requires m <= n
    ensures 1 <= Pow2(m) <= Pow2(n)
  {
    if m < n { Pow2Monotone(m, n - 1); }
    else if 0 < m { Pow2Monotone(m - 1, n - 1); }
  }

  /** A balanced tree is as flat as its number of leaves allows. */
  lemma {:induction false} BalancedHeight(t: LayoutNode)
    requires Balanced(t) && 1 <= LeafCount(t)
    ensures LeafCount(t) <= Pow2(Height(t)) < 2 * LeafCount(t)
  {
    if t.Split? {
      BalancedHeight(t.a);
      BalancedHeight(t.b);
      if Height(t.a) < Height(t.b) {
        // Impossible: fewer leaves cannot need more height.
        Pow2Monotone(Height(t.a), Height(t.b) - 1);
        assert false;
      } else if LeafCount(t.a) == LeafCount(t.b) + 1 && Height(t.a) > 0 {
        assert Pow2(Height(t.a)) == 2 * Pow2(Height(t.a) - 1);
      }
    }
  }

  lemma MultisetOfInsertion(s: seq<string>, k: nat, x: string)
    requires k <= |s|
    ensures multiset(s[..k] + [x] + s[k..]) == multiset(s) + multiset{x}
  {
    assert s == s[..k] + s[k..];
  }

  lemma InsertAddsOne(t: LayoutNode, id: string, depth: nat)
    ensures multiset(Leaves(InsertGrid(t, id, depth))) == multiset(Leaves(t)) + multiset{id}
  {
    InsertLeaves(t, id, depth);
    MultisetOfInsertion(Leaves(t), InsertPos(t), id);
  }

  /** Inserting ids one by one gives exactly those ids as leaves. */
  lemma {:induction false} GridLeaves(ids: seq<string>)
    ensures multiset(Leaves(Grid(ids))) == multiset(ids)
    ensures LeafCount(Grid(ids)) == |ids|
  {
    if ids != [] {
      var init, last := ids[..|ids| - 1], ids[|ids| - 1];
      GridLeaves(init);
      InsertAddsOne(Grid(init), last, 0);
      InsertCount(Grid(init), last, 0);
      assert ids == init + [last];
    }
  }

  /** Inserting n ids one by one gives a balanced, alternating tree of height
      h with n <= 2^h < 2n. */
  lemma {:induction false} GridIsBalanced(ids: seq<string>)
    ensures Balanced(Grid(ids)) && Alternates(Grid(ids), V) && Canonical(Grid(ids))
    ensures ids != [] ==> |ids| <= Pow2(Height(Grid(ids))) < 2 * |ids|
  {
    if ids != [] {
      var init, last := ids[..|ids| - 1], ids[|ids| - 1];
      GridIsBalanced(init);
      InsertBalanced(Grid(init), last, 0);
      InsertAlternates(Grid(init), last, 0, V);
      InsertCount(Grid(init), last, 0);
      GridLeaves(ids);
      BalancedHeight(Grid(ids));
    }
  }

  // ---------- removal ----------

  lemma {:induction false} RemoveFirstOfConcat(s: seq<string>, t: seq<string>, x: string)
    ensures RemoveFirst(s + t, x) == if x in s then RemoveFirst(s, x) + t else s + RemoveFirst(t, x)
    ensures x !in s ==> RemoveFirst(s, x) == s
  {
    if s == [] {
      assert s + t == t;
    } else {
      assert (s + t)[1..] == s[1..] + t;
      RemoveFirstOfConcat(s[1..], t, x);
      assert x in s <==> s[0] == x || x in s[1..];
      if s[0] != x {
        ConcatAssoc([s[0]], RemoveFirst(s[1..], x), t);
        ConcatAssoc([s[0]], s[1..], RemoveFirst(t, x));
      }
    }
  }

  lemma {:induction false} NoLeavesWhenEmpty(t: LayoutNode, id: string)
    requires NoEmpty(t)
    ensures RemoveLeaf(t, id).0.Empty? ==> Leaves(t) == [id]
    ensures Canonical(RemoveLeaf(t, id).0)
  {
    if t.Split? {
      NoLeavesWhenEmpty(t.a, id);
      NoLeavesWhenEmpty(t.b, id);
      LeafCountIsLength(t.a);
      LeafCountIsLength(t.b);
    }
  }

  /** `remove_leaf` drops exactly the first occurrence, says whether there was
      one, and keeps canonical trees canonical. */
  lemma {:induction false} RemoveDropsFirst(t: LayoutNode, id: string)
    ensures RemoveLeaf(t, id).1 <==> id in Leaves(t)
    ensures Leaves(RemoveLeaf(t, id).0) == RemoveFirst(Leaves(t), id)
    ensures !RemoveLeaf(t, id).1 ==> RemoveLeaf(t, id).0 == t
    ensures Canonical(t) ==> Canonical(RemoveLeaf(t, id).0)
  {
    if NoEmpty(t) { NoLeavesWhenEmpty(t, id); }
    if t.Split? {
      RemoveDropsFirst(t.a, id);
      RemoveDropsFirst(t.b, id);
      RemoveFirstOfConcat(Leaves(t.a), Leaves(t.b), id);
    }
  }

  /** Does insertion end in an empty node rather than split a leaf? */
  predicate LandsOnEmpty(t: LayoutNode) {
    match t
    case Empty => true
    case Leaf(_) => false
    case Split(_, _, a, b) => if LeafCount(a) <= LeafCount(b) then LandsOnEmpty(a) else LandsOnEmpty(b)
  }

  function Size(t: LayoutNode): nat {
    match t
    case Empty => 1
    case Leaf(_) => 1
    case Split(_, _, a, b) => 1 + Size(a) + Size(b)
  }

  /** Removing a freshly inserted leaf gives the old tree back exactly when the
      insertion did not fill an empty child of some split. */
  lemma {:induction false} RemoveUndoesInsert(t: LayoutNode, id: string, depth: nat)
    requires id !in Leaves(t)
    ensures RemoveLeaf(InsertGrid(t, id, depth), id) == (t, true) <==> t.Empty? || !LandsOnEmpty(t)
    ensures RemoveLeaf(InsertGrid(t, id, depth), id).1
  {
    if t.Split? {
      RemoveDropsFirst(t.a, id);
      RemoveDropsFirst(t.b, id);
      if LeafCount(t.a) <= LeafCount(t.b) {
        RemoveUndoesInsert(t.a, id, depth + 1);
      } else {
        RemoveUndoesInsert(t.b, id, depth + 1);
      }
      assert Size(t) > Size(t.a) && Size(t) > Size(t.b);
      LeafCountIsLength(t.a);
      LeafCountIsLength(t.b);
    }
  }

  /** An insertion that fills an empty child is not undone: the child collapses. */
  lemma EmptyChildCollapses()
    ensures var t := Split(H, 0.5, Empty, Leaf("a"));
            && "x" !in Leaves(t) && LandsOnEmpty(t)
            && RemoveLeaf(InsertGrid(t, "x", 0), "x") == (Leaf("a"), true)
  {
    var t := Split(H, 0.5, Empty, Leaf("a"));
    assert LeafCount(t.a) == 0 && Leaves(t) == ["a"];
    assert InsertGrid(t, "x", 0) == Split(H, 0.5, Leaf("x"), Leaf("a"));
  }

  lemma {:induction false} CanonicalLandsOnLeaf(t: LayoutNode)
    requires NoEmpty(t)
    ensures !LandsOnEmpty(t)
  {
    if t.Split? {
      CanonicalLandsOnLeaf(t.a);
      CanonicalLandsOnLeaf(t.b);
    }
  }

  /** On the trees the application builds, spawn followed by kill is the identity. */
  lemma RemoveUndoesInsertCanonical(t: LayoutNode, id: string, depth: nat)
    requires Canonical(t) && id !in Leaves(t)
    ensures RemoveLeaf(InsertGrid(t, id, depth), id) == (t, true)
  {
    RemoveUndoesInsert(t, id, depth);
    if !t.Empty? { CanonicalLandsOnLeaf(t); }
  }
}
