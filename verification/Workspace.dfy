/** The workspace rows and the agent mirror: `prune_stale_layout` of
    `workspace.rs` and the reconciliation transaction of `restore_session` in
    `agent.rs`, both working on the same two tables. */
module Workspace {
  import opened Prelude
  import opened Layout

  datatype AgentStatus = Running | Exited

  datatype AgentRow = AgentRow(
    workspaceId: string, agentType: string, cwd: Option<string>, status: AgentStatus, createdAt: string)

  /** What the broker reports about one live agent. */
  datatype AgentInfo = AgentInfo(
    id: string, workspaceId: string, agentType: string, cwd: Option<string>, createdAt: string)

  datatype Error = NotFound | ForeignKey

  // ---------- pruning, as a function ----------

  /** The agents of workspace `ws` whose mirror row says running. */
  function LiveIn(agents: map<string, AgentRow>, ws: string): set<string> {
    set id | id in agents && agents[id].workspaceId == ws && agents[id].status == Running
  }

  /** `s` without the ids that are not live. */
  function Alive(s: seq<string>, live: set<string>): seq<string> {
    if s == [] then []
    else if s[0] in live then [s[0]] + Alive(s[1..], live)
    else Alive(s[1..], live)
  }

  /** The tree after removing, one first occurrence at a time, every id of
      `ids` that is not live. */
  function PruneStep(t: LayoutNode, ids: seq<string>, live: set<string>): LayoutNode
    decreases ids
  {
    if ids == [] then t
    else if ids[0] in live then PruneStep(t, ids[1..], live)
    else PruneStep(RemoveLeaf(t, ids[0]).0, ids[1..], live)
  }

  function Prune(t: LayoutNode, live: set<string>): LayoutNode {
    PruneStep(t, Leaves(t), live)
  }

  /** Independent reference: keep the live leaves in one structural pass. */
  function Restrict(t: LayoutNode, live: set<string>): LayoutNode {
    match t
    case Empty => Empty
    case Leaf(id) => if id in live then t else Empty
    case Split(direction, ratio, a, b) =>
      var a2 := Restrict(a, live);
      var b2 := Restrict(b, live);
      if a2.Empty? then b2
      else if b2.Empty? then a2
      else Split(direction, ratio, a2, b2)
  }

  /** The dead ids of `s`, in order. */
  function Dead(s: seq<string>, live: set<string>): seq<string> {
    if s == [] then []
    else if s[0] in live then Dead(s[1..], live)
    else [s[0]] + Dead(s[1..], live)
  }

  lemma {:induction false} RemoveFirstOfDead(s: seq<string>, x: string, live: set<string>)
    requires x !in live
    ensures Alive(RemoveFirst(s, x), live) == Alive(s, live)
    ensures Dead(RemoveFirst(s, x), live) == RemoveFirst(Dead(s, live), x)
  {
    if s != [] && s[0] != x {
      RemoveFirstOfDead(s[1..], x, live);
      var r := RemoveFirst(s, x);
      assert r[0] == s[0] && r[1..] == RemoveFirst(s[1..], x);
      if s[0] !in live {
        assert Dead(s, live)[1..] == Dead(s[1..], live);
      }
    } else if s != [] {
      assert Dead(s, live)[1..] == Dead(s[1..], live);
    }
  }

  lemma {:induction false} AllAlive(s: seq<string>, live: set<string>)
    ensures Dead(s, live) == [] ==> Alive(s, live) == s
    ensures Dead(s, live) == [] <==> forall x <- s :: x in live
  {
    if s != [] {
      AllAlive(s[1..], live);
      assert s == [s[0]] + s[1..];
    }
  }

  /** Working through a list whose dead entries are the tree's dead leaves, in
      the same order, removes every one of them. */
  lemma {:induction false} PruneStepFilters(t: LayoutNode, ids: seq<string>, live: set<string>)
    requires Dead(ids, live) == Dead(Leaves(t), live)
    ensures Leaves(PruneStep(t, ids, live)) == Alive(Leaves(t), live)
    decreases ids
  {
    if ids == [] {
      AllAlive(Leaves(t), live);
    } else if ids[0] in live {
      PruneStepFilters(t, ids[1..], live);
    } else {
      var u := RemoveLeaf(t, ids[0]).0;
      RemoveDropsFirst(t, ids[0]);
      RemoveFirstOfDead(Leaves(t), ids[0], live);
      assert Dead(ids, live)[1..] == Dead(ids[1..], live);
      PruneStepFilters(u, ids[1..], live);
    }
  }

  lemma {:induction false} RestrictAfterRemove(t: LayoutNode, id: string, live: set<string>)
    requires id !in live
    ensures Restrict(RemoveLeaf(t, id).0, live) == Restrict(t, live)
  {
    if t.Split? {
      RemoveDropsFirst(t.a, id);
      RemoveDropsFirst(t.b, id);
      RestrictAfterRemove(t.a, id, live);
      RestrictAfterRemove(t.b, id, live);
    }
  }

  lemma {:induction false} PruneStepKeeps(t: LayoutNode, ids: seq<string>, live: set<string>)
    ensures Restrict(PruneStep(t, ids, live), live) == Restrict(t, live)
    ensures Canonical(t) ==> Canonical(PruneStep(t, ids, live))
    ensures (forall x <- ids :: x in live) ==> PruneStep(t, ids, live) == t
    decreases ids
  {
    if ids != [] {
      if ids[0] in live {
        PruneStepKeeps(t, ids[1..], live);
      } else {
        RestrictAfterRemove(t, ids[0], live);
        RemoveDropsFirst(t, ids[0]);
        PruneStepKeeps(RemoveLeaf(t, ids[0]).0, ids[1..], live);
      }
    }
  }

  lemma {:induction false} RestrictAllLive(t: LayoutNode, live: set<string>)
    requires forall x <- Leaves(t) :: x in live
    ensures NoEmpty(t) ==> Restrict(t, live) == t && !t.Empty?
  {
    if t.Leaf? {
      assert t.agentId in Leaves(t);
    } else if t.Split? {
      assert forall x <- Leaves(t.a) :: x in Leaves(t);
      assert forall x <- Leaves(t.b) :: x in Leaves(t);
      RestrictAllLive(t.a, live);
      RestrictAllLive(t.b, live);
    }
  }

  lemma {:induction false} AliveIsFilter(s: seq<string>, live: set<string>)
    ensures forall x :: x in Alive(s, live) <==> x in s && x in live
    ensures Alive(Alive(s, live), live) == Alive(s, live)
    ensures Alive(s, live) == s <==> forall x <- s :: x in live
  {
    if s != [] {
      AliveIsFilter(s[1..], live);
      AllAlive(s, live);
      assert s == [s[0]] + s[1..];
      if s[0] in live {
        assert Alive(s, live)[1..] == Alive(s[1..], live);
      }
    }
  }

  /** Pruning is an exact filter on every tree, duplicates and empty children
      included, and a second prune does nothing. */
  lemma PruneIsExactFilter(t: LayoutNode, live: set<string>)
    ensures Leaves(Prune(t, live)) == Alive(Leaves(t), live)
    ensures Prune(Prune(t, live), live) == Prune(t, live)
    ensures Canonical(t) ==> Canonical(Prune(t, live))
  {
    PruneStepFilters(t, Leaves(t), live);
    PruneStepKeeps(t, Leaves(t), live);
    AliveIsFilter(Leaves(t), live);
    PruneStepKeeps(Prune(t, live), Leaves(Prune(t, live)), live);
  }

  /** On canonical trees the loop of single removals builds the tree of the
      one-pass filter, not just its leaves. */
  lemma PruneIsRestrict(t: LayoutNode, live: set<string>)
    requires Canonical(t)
    ensures Prune(t, live) == Restrict(t, live)
  {
    PruneIsExactFilter(t, live);
    PruneStepKeeps(t, Leaves(t), live);
    AliveIsFilter(Leaves(t), live);
    RestrictAllLive(Prune(t, live), live);
  }

  // ---------- the broker's view, as a function ----------

  /** The broker's last word on each agent it lists. */
  function Known(live: seq<AgentInfo>): map<string, AgentInfo> {
    if live == [] then map[]
    else Known(live[..|live| - 1])[live[|live| - 1].id := live[|live| - 1]]
  }

  /** The broker's first word on each agent it lists. */
  function FirstListed(live: seq<AgentInfo>): (m: map<string, AgentInfo>)
    ensures m.Keys == Known(live).Keys
  {
    if live == [] then map[]
    else
      var rest := FirstListed(live[..|live| - 1]);
      var last := live[|live| - 1];
      if last.id in rest then rest else rest[last.id := last]
  }

  function MarkedExited(row: AgentRow): AgentRow {
    row.(status := Exited)
  }

  /** The mirror row of a listed agent: the broker's fields, except that a row
      keeps the time it was created with. */
  function Mirrored(before: map<string, AgentRow>, live: seq<AgentInfo>, id: string): AgentRow
    requires id in Known(live)
  {
    var info := Known(live)[id];
    AgentRow(info.workspaceId, info.agentType, info.cwd, Running,
             if id in before then before[id].createdAt else FirstListed(live)[id].createdAt)
  }

  /** The whole mirror once the transaction has committed. */
  ghost predicate Reconciled(before: map<string, AgentRow>, live: seq<AgentInfo>, after: map<string, AgentRow>) {
    && after.Keys == before.Keys + Known(live).Keys
    && (forall id <- after :: after[id] ==
          if id in Known(live) then Mirrored(before, live, id) else MarkedExited(before[id]))
  }

  function Upsert(rows: map<string, AgentRow>, a: AgentInfo): map<string, AgentRow> {
    rows[a.id := AgentRow(a.workspaceId, a.agentType, a.cwd, Running,
                          if a.id in rows then rows[a.id].createdAt else a.createdAt)]
  }

  function UpsertAll(rows: map<string, AgentRow>, live: seq<AgentInfo>): map<string, AgentRow> {
    if live == [] then rows else Upsert(UpsertAll(rows, live[..|live| - 1]), live[|live| - 1])
  }

  lemma {:induction false} UpsertAllAt(rows: map<string, AgentRow>, live: seq<AgentInfo>, id: string)
    ensures id in UpsertAll(rows, live) <==> id in rows || id in Known(live)
    ensures id in UpsertAll(rows, live) ==>
              UpsertAll(rows, live)[id] == if id in Known(live) then Mirrored(rows, live, id) else rows[id]
  {
    if live != [] {
      UpsertAllAt(rows, live[..|live| - 1], id);
      UpsertAllAt(rows, live[..|live| - 1], live[|live| - 1].id);
    }
  }

  lemma {:induction false} KnownIds(live: seq<AgentInfo>)
    ensures Known(live).Keys == set a | a in live :: a.id
  {
    if live != [] {
      var init, last := live[..|live| - 1], live[|live| - 1];
      assert live == init + [last];
      KnownIds(init);
    }
  }

  /** The two statements of the transaction amount to the reconciliation. */
  lemma SweepThenUpsertReconciles(before: map<string, AgentRow>, live: seq<AgentInfo>, swept: map<string, AgentRow>)
    requires swept.Keys == before.Keys
    requires forall id <- swept :: swept[id] ==
               if id in Known(live) then before[id] else MarkedExited(before[id])
    ensures Reconciled(before, live, UpsertAll(swept, live))
  {
    forall id ensures id in UpsertAll(swept, live) <==> id in before || id in Known(live) {
      UpsertAllAt(swept, live, id);
    }
    forall id | id in UpsertAll(swept, live)
      ensures UpsertAll(swept, live)[id] ==
              if id in Known(live) then Mirrored(before, live, id) else MarkedExited(before[id])
    {
      UpsertAllAt(swept, live, id);
    }
  }

  // ---------- the tables ----------

  class Store {
    var layouts: map<string, LayoutNode>
    var agents: map<string, AgentRow>

    constructor ()
      ensures layouts == map[] && agents == map[]
    {
      layouts, agents := map[], map[];
    }

    method UpdateLayout(id: string, layout: LayoutNode) returns (r: Result<(), Error>)
      modifies this`layouts
      ensures id in old(layouts) ==> r == Ok(()) && layouts == old(layouts)[id := layout]
      ensures id !in old(layouts) ==> r == Err(NotFound) && layouts == old(layouts)
    {
      if id !in layouts { return Err(NotFound); }
      layouts := layouts[id := layout];
      r := Ok(());
    }

    /** Drops the leaves without a running agent of this workspace; the row is
        written back only when something was removed. */
    method PruneStaleLayout(id: string) returns (r: Result<LayoutNode, Error>)
      modifies this`layouts
      ensures id !in old(layouts) ==> r == Err(NotFound) && layouts == old(layouts)
      ensures id in old(layouts) ==>
                && r == Ok(Prune(old(layouts[id]), LiveIn(agents, id)))
                && layouts == old(layouts)[id := r.value]
    {
      if id !in layouts { return Err(NotFound); }
      var tree := layouts[id];
      var live := LiveIn(agents, id);
      var out := new Vec();
      CollectLeaves(tree, out);
      var leaves := out.items;
      var changed := false;
      for i := 0 to |leaves|
        invariant PruneStep(tree, leaves[i..], live) == Prune(old(layouts[id]), live)
        invariant !changed ==> tree == old(layouts[id])
        invariant layouts == old(layouts)
      {
        assert leaves[i..][1..] == leaves[i + 1..];
        if leaves[i] !in live {
          RemoveDropsFirst(tree, leaves[i]);
          var (next, removed) := RemoveLeaf(tree, leaves[i]);
          tree := next;
          if removed { changed := true; }
        }
      }
      if changed {
        var _ := UpdateLayout(id, tree);
      }
      r := Ok(tree);
    }

    /** The transaction's first statement: rows the broker does not list are no
        longer running. */
    method Sweep(live: seq<AgentInfo>) returns (swept: map<string, AgentRow>)
      ensures swept.Keys == agents.Keys
      ensures forall id <- swept :: swept[id] == if id in Known(live) then agents[id] else MarkedExited(agents[id])
    {
      KnownIds(live);
      if live == [] {
        swept := map id | id in agents ::
          if agents[id].status == Running then MarkedExited(agents[id]) else agents[id];
      } else {
        var liveIds := set a | a in live :: a.id;
        swept := map id | id in agents ::
          if agents[id].status == Running && id !in liveIds then MarkedExited(agents[id]) else agents[id];
      }
    }

    /** Marks the rows the broker does not list as exited and upserts those it
        does, in one transaction; a listed agent whose workspace row is missing
        breaks a foreign key and rolls everything back. */
    method RestoreSession(live: seq<AgentInfo>) returns (r: Result<nat, Error>)
      modifies this`agents
      ensures r.Ok? <==> forall a <- live :: a.workspaceId in layouts
      ensures r.Err? ==> agents == old(agents)
      ensures r.Ok? ==> r.value == |live| && Reconciled(old(agents), live, agents)
    {
      var tx := Sweep(live);
      SweepThenUpsertReconciles(agents, live, tx);
      ghost var swept := tx;
      for i := 0 to |live|
        invariant tx == UpsertAll(swept, live[..i])
        invariant forall k | 0 <= k < i :: live[k].workspaceId in layouts
        invariant agents == old(agents)
      {
        var a := live[i];
        if a.workspaceId !in layouts { return Err(ForeignKey); }
        assert live[..i + 1][..i] == live[..i];
        tx := Upsert(tx, a);
      }
      assert live[..|live|] == live;
      agents := tx;
      r := Ok(|live|);
    }
  }

  /** After a committed reconciliation the running rows of a workspace are the
      broker's agents of that workspace, so pruning keeps a leaf exactly when
      the broker still hosts its agent there. */
  lemma PruneAfterRestore(before: map<string, AgentRow>, after: map<string, AgentRow>,
                          live: seq<AgentInfo>, ws: string, t: LayoutNode)
    requires Reconciled(before, live, after)
    ensures forall id :: id in after && after[id].status == Running <==> id in Known(live)
    ensures LiveIn(after, ws) == set id | id in Known(live) && Known(live)[id].workspaceId == ws
    ensures forall x :: x in Leaves(Prune(t, LiveIn(after, ws)))
              <==> x in Leaves(t) && x in Known(live) && Known(live)[x].workspaceId == ws
  {
    PruneIsExactFilter(t, LiveIn(after, ws));
    AliveIsFilter(Leaves(t), LiveIn(after, ws));
  }
}
