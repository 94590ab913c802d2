/** The frontend's layout operations of `tree.ts`, on the same tree: splitting,
    closing and renaming leaves, and how they relate to the backend's
    insertion and removal. Its `insertGrid` is branch for branch the backend's
    `insert_grid`, so one function models both. */
module Tree {
  import opened Layout

  // ---------- operations ----------

  function SplitLeaf(t: LayoutNode, target: string, direction: SplitDir, id: string): LayoutNode {
    match t
    case Empty => Leaf(id)
    case Leaf(x) => if x == target then Split(direction, 0.5, t, Leaf(id)) else t
    case Split(d, ratio, a, b) =>
      Split(d, ratio, SplitLeaf(a, target, direction, id), SplitLeaf(b, target, direction, id))
  }

  function CloseLeaf(t: LayoutNode, id: string): LayoutNode {
    match t
    case Empty => Empty
    case Leaf(x) => if x == id then Empty else t
    case Split(direction, ratio, a, b) =>
      var a2 := CloseLeaf(a, id);
      var b2 := CloseLeaf(b, id);
      if a2.Empty? then b2
      else if b2.Empty? then a2
      else Split(direction, ratio, a2, b2)
  }

  function ReplaceLeafId(t: LayoutNode, oldId: string, newId: string): LayoutNode {
    match t
    case Empty => Empty
    case Leaf(x) => if x == oldId then Leaf(newId) else t
    case Split(direction, ratio, a, b) =>
      Split(direction, ratio, ReplaceLeafId(a, oldId, newId), ReplaceLeafId(b, oldId, newId))
  }

  // ---------- vocabulary ----------

  /** `s` without any `x`. */
  function Without(s: seq<string>, x: string): seq<string> {
    if s == [] then []
    else if s[0] == x then Without(s[1..], x)
    else [s[0]] + Without(s[1..], x)
  }

  /** `s` with every `x` renamed to `y`. */
  function Renamed(s: seq<string>, x: string, y: string): (r: seq<string>) {
    seq(|s|, i requires 0 <= i < |s| => if s[i] == x then y else s[i])
  }

  /** The effect of removing `id` again and again until nothing is removed. */
  function RemoveUntilGone(t: LayoutNode, id: string): LayoutNode
    decreases |Leaves(t)|
  {
    RemoveDropsFirst(t, id);
    RemoveFirstShrinks(Leaves(t), id);
    if RemoveLeaf(t, id).1 then RemoveUntilGone(RemoveLeaf(t, id).0, id) else RemoveLeaf(t, id).0
  }

  // ---------- closing ----------

  lemma {:induction false} RemoveFirstShrinks(s: seq<string>, x: string)
    ensures |RemoveFirst(s, x)| == if x in s then |s| - 1 else |s|
    ensures Without(RemoveFirst(s, x), x) == Without(s, x)
    ensures x !in s ==> Without(s, x) == s
  {
    if s != [] && s[0] != x { RemoveFirstShrinks(s[1..], x); }
    else if s != [] { assert RemoveFirst(s, x) == s[1..]; }
  }

  lemma {:induction false} WithoutOfConcat(s: seq<string>, t: seq<string>, x: string)
    ensures Without(s + t, x) == Without(s, x) + Without(t, x)
  {
    if s == [] {
      assert s + t == t;
    } else {
      assert (s + t)[1..] == s[1..] + t;
      WithoutOfConcat(s[1..], t, x);
    }
  }

  /** `closeLeaf` drops every occurrence, and collapses every empty node. */
  lemma {:induction false} CloseDropsAll(t: LayoutNode, id: string)
    ensures Leaves(CloseLeaf(t, id)) == Without(Leaves(t), id)
    ensures Canonical(CloseLeaf(t, id))
  {
    if t.Split? {
      CloseDropsAll(t.a, id);
      CloseDropsAll(t.b, id);
      WithoutOfConcat(Leaves(t.a), Leaves(t.b), id);
    }
  }

  /** Closing an absent leaf changes nothing exactly on canonical trees. */
  lemma {:induction false} CloseAbsent(t: LayoutNode, id: string)
    requires id !in Leaves(t)
    ensures CloseLeaf(t, id) == t <==> Canonical(t)
    ensures NoEmpty(t) ==> !CloseLeaf(t, id).Empty?
  {
    CloseDropsAll(t, id);
    if t.Split? {
      CloseAbsent(t.a, id);
      CloseAbsent(t.b, id);
    }
  }

  lemma {:induction false} CloseAfterInsert(t: LayoutNode, id: string, depth: nat)
    requires id !in Leaves(t)
    ensures CloseLeaf(InsertGrid(t, id, depth), id) == CloseLeaf(t, id)
  {
    if t.Split? {
      CloseAfterInsert(t.a, id, depth + 1);
      CloseAfterInsert(t.b, id, depth + 1);
    }
  }

  lemma {:induction false} CloseAfterSplit(t: LayoutNode, target: string, direction: SplitDir, id: string)
    requires id !in Leaves(t)
    ensures CloseLeaf(SplitLeaf(t, target, direction, id), id) == CloseLeaf(t, id)
  {
    if t.Split? {
      CloseAfterSplit(t.a, target, direction, id);
      CloseAfterSplit(t.b, target, direction, id);
    }
  }

  /** Closing undoes a grid insertion of a fresh id exactly on canonical trees. */
  lemma CloseUndoesInsert(t: LayoutNode, id: string, depth: nat)
    requires id !in Leaves(t)
    ensures CloseLeaf(InsertGrid(t, id, depth), id) == t <==> Canonical(t)
  {
    CloseAfterInsert(t, id, depth);
    CloseAbsent(t, id);
  }

  /** Closing undoes a split of any leaf by a fresh id exactly on canonical trees. */
  lemma CloseUndoesSplit(t: LayoutNode, target: string, direction: SplitDir, id: string)
    requires id !in Leaves(t)
    ensures CloseLeaf(SplitLeaf(t, target, direction, id), id) == t <==> Canonical(t)
  {
    CloseAfterSplit(t, target, direction, id);
    CloseAbsent(t, id);
  }

  /** A tree with an empty child that neither pair restores. */
  lemma EmptyChildIsLost(direction: SplitDir)
    ensures var t := Split(H, 0.5, Empty, Leaf("a"));
            && "x" !in Leaves(t) && !Canonical(t)
            && CloseLeaf(InsertGrid(t, "x", 0), "x") == Leaf("a")
            && CloseLeaf(SplitLeaf(t, "a", direction, "x"), "x") == Leaf("a")
  {
    var t := Split(H, 0.5, Empty, Leaf("a"));
    assert Leaves(t) == ["a"];
    CloseAfterInsert(t, "x", 0);
    CloseAfterSplit(t, "a", direction, "x");
  }

  /** Each occurrence of the target is followed by the new leaf. */
  function Doubled(s: seq<string>, target: string, id: string): seq<string> {
    if s == [] then []
    else (if s[0] == target then [s[0], id] else [s[0]]) + Doubled(s[1..], target, id)
  }

  lemma {:induction false} DoubledOfConcat(s: seq<string>, t: seq<string>, target: string, id: string)
    ensures Doubled(s + t, target, id) == Doubled(s, target, id) + Doubled(t, target, id)
  {
    if s == [] {
      assert s + t == t;
    } else {
      assert (s + t)[1..] == s[1..] + t;
      DoubledOfConcat(s[1..], t, target, id);
    }
  }

  /** On a canonical, non-empty tree the new pane appears right after its target
      and nowhere else. */
  lemma {:induction false} SplitAddsAfterTarget(t: LayoutNode, target: string, direction: SplitDir, id: string)
    requires NoEmpty(t)
    ensures Leaves(SplitLeaf(t, target, direction, id)) == Doubled(Leaves(t), target, id)
    ensures NoEmpty(SplitLeaf(t, target, direction, id))
  {
    if t.Split? {
      SplitAddsAfterTarget(t.a, target, direction, id);
      SplitAddsAfterTarget(t.b, target, direction, id);
      DoubledOfConcat(Leaves(t.a), Leaves(t.b), target, id);
    }
  }

  /** `u` occurs in `t`. */
  predicate Within(u: LayoutNode, t: LayoutNode) {
    u == t || (t.Split? && (Within(u, t.a) || Within(u, t.b)))
  }

  /** `new_` is `old_` with every target leaf replaced by the pane pair and every empty
      node filled with its second pane, and every split of `old_` kept as it was. */
  predicate SplitsAt(old_: LayoutNode, new_: LayoutNode, target: string, pair: LayoutNode) {
    match old_
    case Empty => pair.Split? && new_ == pair.b
    case Leaf(x) => new_ == if x == target then pair else old_
    case Split(direction, ratio, a, b) =>
      && new_.Split? && new_.direction == direction && new_.ratio == ratio
      && SplitsAt(a, new_.a, target, pair) && SplitsAt(b, new_.b, target, pair)
  }

  /** The target and the new pane share a split of the wanted direction, target
      first; nothing else moves. */
  lemma {:induction false} SplitPairsWithTarget(t: LayoutNode, target: string, direction: SplitDir, id: string)
    ensures SplitsAt(t, SplitLeaf(t, target, direction, id), target, Split(direction, 0.5, Leaf(target), Leaf(id)))
    ensures target in Leaves(t) ==>
              Within(Split(direction, 0.5, Leaf(target), Leaf(id)), SplitLeaf(t, target, direction, id))
    ensures target !in Leaves(t) && NoEmpty(t) ==> SplitLeaf(t, target, direction, id) == t
  {
    if t.Split? {
      SplitPairsWithTarget(t.a, target, direction, id);
      SplitPairsWithTarget(t.b, target, direction, id);
    }
  }

  // ---------- the two removals ----------

  lemma {:induction false} CloseAfterRemove(t: LayoutNode, id: string)
    ensures CloseLeaf(RemoveLeaf(t, id).0, id) == CloseLeaf(t, id)
  {
    if t.Split? {
      RemoveDropsFirst(t.a, id);
      RemoveDropsFirst(t.b, id);
      CloseAfterRemove(t.a, id);
      CloseAfterRemove(t.b, id);
    }
  }

  lemma {:induction false} RemoveFirstIsWithout(s: seq<string>, x: string)
    ensures RemoveFirst(s, x) == Without(s, x) <==> x !in RemoveFirst(s, x)
    ensures x !in Without(s, x)
  {
    RemoveFirstShrinks(s, x);
    if s != [] {
      RemoveFirstIsWithout(s[1..], x);
      RemoveFirstShrinks(s[1..], x);
      if s[0] != x {
        assert RemoveFirst(s, x)[1..] == RemoveFirst(s[1..], x);
        assert Without(s, x)[1..] == Without(s[1..], x);
      }
    }
  }

  lemma {:induction false} RemoveFirstCounts(s: seq<string>, x: string)
    ensures multiset(RemoveFirst(s, x)) == multiset(s) - multiset{x}
  {
    if s != [] {
      assert s == [s[0]] + s[1..];
      assert multiset(s) == multiset{s[0]} + multiset(s[1..]);
      if s[0] != x {
        RemoveFirstCounts(s[1..], x);
        assert multiset(RemoveFirst(s, x)) == multiset{s[0]} + multiset(RemoveFirst(s[1..], x));
      }
    }
  }

  /** On a canonical tree the backend's and the frontend's removal build the same
      tree exactly when the id occurs at most once. */
  lemma {:induction false} RemovalsAgree(t: LayoutNode, id: string)
    requires Canonical(t)
    ensures RemoveLeaf(t, id).0 == CloseLeaf(t, id) <==> multiset(Leaves(t))[id] <= 1
  {
    var u := RemoveLeaf(t, id).0;
    RemoveDropsFirst(t, id);
    CloseDropsAll(t, id);
    RemoveFirstIsWithout(Leaves(t), id);
    RemoveFirstCounts(Leaves(t), id);
    CloseAfterRemove(t, id);
    if multiset(Leaves(t))[id] <= 1 {
      assert multiset(Leaves(u))[id] == 0;
      assert id !in Leaves(u);
      CloseAbsent(u, id);
    } else {
      assert multiset(Leaves(u))[id] > 0;
      assert id in Leaves(u);
    }
  }

  /** Repeating the backend's removal until it reports false leaves the same
      leaves as one `closeLeaf`, on any tree; on canonical trees, the same tree. */
  lemma {:induction false} RepeatedRemovalIsClose(t: LayoutNode, id: string)
    ensures Leaves(RemoveUntilGone(t, id)) == Leaves(CloseLeaf(t, id))
    ensures Canonical(t) ==> RemoveUntilGone(t, id) == CloseLeaf(t, id)
    decreases |Leaves(t)|
  {
    RemoveDropsFirst(t, id);
    RemoveFirstShrinks(Leaves(t), id);
    CloseAfterRemove(t, id);
    CloseDropsAll(t, id);
    if RemoveLeaf(t, id).1 {
      RepeatedRemovalIsClose(RemoveLeaf(t, id).0, id);
    } else {
      CloseAbsent(t, id);
    }
  }

  // ---------- renaming ----------

  lemma {:induction false} ReplaceRenames(t: LayoutNode, oldId: string, newId: string)
    ensures Leaves(ReplaceLeafId(t, oldId, newId)) == Renamed(Leaves(t), oldId, newId)
    ensures NoEmpty(ReplaceLeafId(t, oldId, newId)) <==> NoEmpty(t)
  {
    if t.Split? {
      ReplaceRenames(t.a, oldId, newId);
      ReplaceRenames(t.b, oldId, newId);
    }
  }

  /** Renaming there and back is the identity exactly when the new id was not in
      use, or is the old one. */
  lemma {:induction false} ReplaceRoundTrip(t: LayoutNode, oldId: string, newId: string)
    ensures ReplaceLeafId(ReplaceLeafId(t, oldId, newId), newId, oldId) == t
            <==> newId !in Leaves(t) || newId == oldId
  {
    if t.Split? {
      ReplaceRoundTrip(t.a, oldId, newId);
      ReplaceRoundTrip(t.b, oldId, newId);
    }
  }
}
