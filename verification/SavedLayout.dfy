/** What an agent's exit does to the layout the backend has saved. The frontend closes
    the agent's tile on its canvas and sends the result off without waiting; here is
    when such a save keeps every other pane, and when panes are lost. */
module SavedLayout {
  import opened Prelude
  import opened Layout
  import opened WorkspaceSwitch
  import Tree
  import Workspace

  // ---------- copies of layouts ----------

  /** The copy is the layout of its number among those written for the workspace. */
  predicate CopySound(writes: map<string, seq<LayoutNode>>, workspace: string, c: Copy) {
    c.version < |Written(writes, workspace)| && Written(writes, workspace)[c.version] == c.tree
  }

  predicate AnswerSound(writes: map<string, seq<LayoutNode>>, r: Reload) {
    r.answer.Some? ==> CopySound(writes, r.target, r.answer.value)
  }

  predicate CanvasSound(writes: map<string, seq<LayoutNode>>, c: Canvas) {
    c.owner.Some? && c.shows.Some? ==> CopySound(writes, c.owner.value, Copy(c.tree, c.shows.value))
  }

  /** What was sent is what the canvas showed, without the agent's leaf. */
  predicate SaveSound(writes: map<string, seq<LayoutNode>>, save: Save) {
    && CopySound(writes, save.workspace, save.layout)
    && match save.base
       case None => save.layout.tree == Empty
       case Some(b) =>
         && b < save.layout.version
         && save.layout.tree == Tree.CloseLeaf(Written(writes, save.workspace)[b], save.agent)
  }

  ghost predicate CopiesSound(s: State) {
    && (forall w <- s.saved :: CopySound(s.writes, w, s.saved[w]))
    && (forall id <- s.reloads :: AnswerSound(s.writes, s.reloads[id]))
    && (forall m <- s.inbox :: CopySound(s.writes, m.workspace, m.layout))
    && (forall save <- s.outgoing :: SaveSound(s.writes, save))
    && CanvasSound(s.writes, s.canvas)
  }

  /** The canvas is cleared and the reload that entered the workspace has not loaded
      its layout: it still waits for it, or gave up. */
  predicate Waiting(s: State) {
    && s.canvas == NoCanvas
    && s.entered in s.reloads && s.currentId == Some(s.reloads[s.entered].target)
    && (s.reloads[s.entered].at.OnWorkspace? || s.reloads[s.entered].at.Stopped?)
  }

  predicate WaitingSound(s: State) {
    && (s.canvas.shows.None? ==> s.canvas == NoCanvas)
    && (s.currentId.Some? && s.canvas.shows.None? ==> Waiting(s))
  }

  ghost predicate SyncInv(s: State) {
    Inv(s) && CopiesSound(s) && WaitingSound(s)
  }

  /** Nothing written is ever taken back. */
  ghost predicate Grows(a: map<string, seq<LayoutNode>>, b: map<string, seq<LayoutNode>>) {
    forall w :: Written(a, w) <= Written(b, w)
  }

  lemma GrownCopies(s: State, n: State)
    requires CopiesSound(s) && Grows(s.writes, n.writes)
    requires n.saved == s.saved && n.reloads == s.reloads && n.inbox == s.inbox
    requires n.outgoing == s.outgoing && n.canvas == s.canvas
    ensures CopiesSound(n)
  {
    forall w, c | CopySound(s.writes, w, c) ensures CopySound(n.writes, w, c) {
      assert Written(s.writes, w) <= Written(n.writes, w);
    }
    forall id | id in n.reloads ensures AnswerSound(n.writes, n.reloads[id]) {
      assert AnswerSound(s.writes, s.reloads[id]);
    }
    forall save | save in n.outgoing ensures SaveSound(n.writes, save) {
      assert SaveSound(s.writes, save) && Written(s.writes, save.workspace) <= Written(n.writes, save.workspace);
    }
  }

  lemma RecordedKeepsCopies(s: State, workspace: string, tree: LayoutNode)
    requires CopiesSound(s)
    ensures var n := Recorded(s, workspace, tree);
            && CopiesSound(n) && Grows(s.writes, n.writes)
            && CopySound(n.writes, workspace, NewCopy(s, workspace, tree))
  {
    GrownCopies(s, Recorded(s, workspace, tree));
  }

  lemma StoredKeepsCopies(s: State, workspace: string, tree: LayoutNode)
    requires CopiesSound(s)
    ensures CopiesSound(Stored(s, workspace, tree))
  {
    RecordedKeepsCopies(s, workspace, tree);
  }

  lemma AnswerKeepsCopies(s: State, e: Event)
    requires CopiesSound(s) && e.AnswerWorkspace?
    ensures CopiesSound(Next(s, e))
  {
    if At(s, e.id, OnWorkspace) && s.reloads[e.id].target in s.saved {
      var target := s.reloads[e.id].target;
      StoredKeepsCopies(s, target, Workspace.Prune(s.saved[target].tree, e.live));
      var s' := Pruned(s, target, e.live);
      assert CopiesSound(s') && CopySound(s'.writes, target, s'.saved[target]);
    }
  }

  lemma BackendSaveKeepsCopies(s: State, e: Event)
    requires CopiesSound(s) && e.BackendSaves?
    ensures CopiesSound(Next(s, e))
  {
    if e.workspace in s.saved { StoredKeepsCopies(s, e.workspace, e.tree); }
  }

  lemma DeliveryKeepsCopies(s: State, e: Event)
    requires CopiesSound(s) && e.LayoutArrives?
    ensures CopiesSound(Next(s, e))
  {
    if s.inbox != [] {
      assert s.inbox[0] in s.inbox;
      assert forall m <- s.inbox[1..] :: m in s.inbox;
    }
  }

  lemma LandingKeepsCopies(s: State, e: Event)
    requires CopiesSound(s) && (e.SaveLands? || e.SaveFails?)
    ensures CopiesSound(Next(s, e))
  {
    if e.place < |s.outgoing| {
      assert s.outgoing[e.place] in s.outgoing;
      assert forall save <- SavesWithout(s.outgoing, e.place) :: save in s.outgoing;
    }
  }

  /** The save an exit sends. */
  function Sent(s: State, cur: string, agent: string): Save {
    Save(cur, NewCopy(s, cur, Tree.CloseLeaf(s.canvas.tree, agent)), agent, s.canvas.shows)
  }

  lemma SentSound(s: State, cur: string, agent: string)
    requires SyncInv(s) && s.currentId == Some(cur)
    ensures SaveSound(Recorded(s, cur, Tree.CloseLeaf(s.canvas.tree, agent)).writes, Sent(s, cur, agent))
  {
    var tree := Tree.CloseLeaf(s.canvas.tree, agent);
    RecordedKeepsCopies(s, cur, tree);
    if s.canvas.shows.Some? {
      assert s.canvas.owner == Some(cur) && CanvasSound(s.writes, s.canvas);
    }
  }

  lemma ExitKeepsCopies(s: State, e: Event)
    requires SyncInv(s) && e.AgentExited?
    ensures CopiesSound(Next(s, e))
  {
    if s.currentId.Some? {
      var cur, tree := s.currentId.value, Tree.CloseLeaf(s.canvas.tree, e.agent);
      RecordedKeepsCopies(s, cur, tree);
      SentSound(s, cur, e.agent);
      assert Next(s, e).outgoing == s.outgoing + [Sent(s, cur, e.agent)];
    }
  }

  /** A reload's own steps store nothing, and show only its answer. */
  lemma ReloadStep(s: State, e: Event)
    requires Reloading(e).Some?
    ensures var n := ReloadNext(s, e);
            && n.saved == s.saved && n.writes == s.writes && n.inbox == s.inbox && n.outgoing == s.outgoing
            && (n.canvas == s.canvas || n.canvas == NoCanvas
                || (e.GotWorkspace? && e.id in s.reloads && s.reloads[e.id].answer.Some?
                    && n.canvas == Shown(s.reloads[e.id].target, s.reloads[e.id].answer.value)))
  {
  }

  lemma ReloadMoves(s: State, e: Event)
    requires Reloading(e).Some?
    ensures var n, id := ReloadNext(s, e), Reloading(e).value;
            n.reloads == s.reloads
            || (id in s.reloads && id in n.reloads
                && n.reloads == s.reloads[id := s.reloads[id].(at := n.reloads[id].at)])
  {
  }

  lemma ReloadKeepsCopies(s: State, e: Event)
    requires CopiesSound(s) && Reloading(e).Some?
    ensures CopiesSound(Next(s, e))
  {
    var n := ReloadNext(s, e);
    ReloadStep(s, e);
    ReloadMoves(s, e);
    forall id | id in n.reloads ensures AnswerSound(s.writes, n.reloads[id]) {
      assert AnswerSound(s.writes, s.reloads[id]);
    }
    if e.GotWorkspace? && e.id in s.reloads { assert AnswerSound(s.writes, s.reloads[e.id]); }
    assert CanvasSound(s.writes, n.canvas);
  }

  lemma SwitchKeepsCopies(s: State, e: Event)
    requires CopiesSound(s) && e.SwitchTo?
    ensures CopiesSound(Next(s, e))
  {
    var n := Next(s, e);
    forall id | id in n.reloads ensures AnswerSound(s.writes, n.reloads[id]) {
      if id in s.reloads { assert AnswerSound(s.writes, s.reloads[id]); }
    }
  }

  lemma StepKeepsCopies(s: State, e: Event)
    requires SyncInv(s)
    ensures CopiesSound(Next(s, e))
  {
    if e.AnswerWorkspace? {
      AnswerKeepsCopies(s, e);
    } else if e.BackendSaves? {
      BackendSaveKeepsCopies(s, e);
    } else if e.LayoutArrives? {
      DeliveryKeepsCopies(s, e);
    } else if e.SaveLands? || e.SaveFails? {
      LandingKeepsCopies(s, e);
    } else if e.AgentExited? {
      ExitKeepsCopies(s, e);
    } else if e.SwitchTo? {
      SwitchKeepsCopies(s, e);
    } else if Reloading(e).Some? {
      ReloadKeepsCopies(s, e);
    }
  }

  lemma StepKeepsWaiting(s: State, e: Event)
    requires NewestInCharge(s) && WaitingSound(s)
    ensures WaitingSound(Next(s, e))
  {
    if OfBackend(e) {
      BackendStepStays(s, e);
    } else if e.AgentExited? {
      assert Tree.CloseLeaf(Empty, e.agent) == Empty;
    } else if e.SwitchTo? {
      assert s.entered in s.reloads ==> s.entered <= s.switchId;
    }
  }

  lemma {:induction false} RunKeepsSync(s: State, es: seq<Event>)
    requires SyncInv(s)
    ensures SyncInv(Run(s, es))
  {
    if es != [] {
      var t, e := Run(s, es[..|es| - 1]), es[|es| - 1];
      RunKeepsSync(s, es[..|es| - 1]);
      StepKeepsInv(t, e);
      StepKeepsCopies(t, e);
      StepKeepsWaiting(t, e);
    }
  }

  lemma StepGrows(s: State, e: Event)
    ensures Grows(s.writes, Next(s, e).writes)
  {
    if Reloading(e).Some? {
      ReloadStep(s, e);
    }
  }

  lemma {:induction false} RunGrows(s: State, es: seq<Event>)
    ensures Grows(s.writes, Run(s, es).writes)
  {
    if es != [] {
      var t := Run(s, es[..|es| - 1]);
      RunGrows(s, es[..|es| - 1]);
      StepGrows(t, es[|es| - 1]);
      forall w ensures Written(s.writes, w) <= Written(Run(s, es).writes, w) {
        assert Written(s.writes, w) <= Written(t.writes, w) <= Written(Run(s, es).writes, w);
      }
    }
  }

  // ---------- what a landing save keeps ----------

  /** Landing leaves the saved layout of its workspace with its old leaves, minus the
      agent that exited, in order. */
  predicate Keeps(s: State, k: nat)
    requires k < |s.outgoing| && s.outgoing[k].workspace in s.saved
  {
    var save, t := s.outgoing[k], Next(s, SaveLands(k));
    && save.workspace in t.saved
    && Leaves(t.saved[save.workspace].tree) == Tree.Without(Leaves(s.saved[save.workspace].tree), save.agent)
  }

  lemma RunSound(saved: map<string, LayoutNode>, es: seq<Event>)
    ensures SyncInv(Run(Start(saved), es))
  {
    RunKeepsSync(Start(saved), es);
  }

  lemma {:induction false} NothingLeft(s: seq<string>, x: string)
    ensures Tree.Without(s, x) == [] <==> forall y <- s :: y == x
  {
    if s != [] {
      NothingLeft(s[1..], x);
      assert s[0] in s;
      assert forall y <- s[1..] :: y in s;
      assert forall y <- s :: y == s[0] || y in s[1..];
    }
  }

  lemma LandingKeepsIff(s: State, cur: string, agent: string, t: State, k: nat)
    requires k < |t.outgoing| && t.outgoing[k] == Sent(s, cur, agent) && cur in t.saved
    ensures var now := t.saved[cur].tree;
            Keeps(t, k) <==> Tree.Without(Leaves(s.canvas.tree), agent) == Tree.Without(Leaves(now), agent)
    ensures s.canvas.tree == Empty ==> (Keeps(t, k) <==> forall x <- Leaves(t.saved[cur].tree) :: x == agent)
  {
    Tree.CloseDropsAll(s.canvas.tree, agent);
    NothingLeft(Leaves(t.saved[cur].tree), agent);
  }

  lemma SameWriteSameTree(s: State, t: State, cur: string)
    requires SyncInv(s) && CopiesSound(t) && s.currentId == Some(cur) && cur in t.saved
    requires s.canvas.shows == Some(t.saved[cur].version)
    requires exists m :: Grows(s.writes, m) && Grows(m, t.writes)
    ensures s.canvas.tree == t.saved[cur].tree
  {
    var m :| Grows(s.writes, m) && Grows(m, t.writes);
    assert Written(s.writes, cur) <= Written(m, cur) <= Written(t.writes, cur);
    assert CanvasSound(s.writes, s.canvas) && CopySound(t.writes, cur, t.saved[cur]);
  }

  /** Exactly when an exit loses panes of the saved layout: for every run, every exit in
      it, whatever happens until its save lands. The save keeps the layout if and only
      if, apart from the agent, what the canvas showed at the exit is what is saved at
      the landing. It does when the write then saved is the one the canvas showed; with
      a canvas cleared by a switch, only if nothing but the agent is saved. */
  lemma {:induction false} ExitKeepsIff(
    saved: map<string, LayoutNode>, es: seq<Event>, cur: string, agent: string, more: seq<Event>, k: nat)
    requires var s := Run(Start(saved), es); var t := Run(Next(s, AgentExited(agent)), more);
             && s.currentId == Some(cur) && cur in t.saved
             && k < |t.outgoing| && t.outgoing[k] == Sent(s, cur, agent)
    ensures var s := Run(Start(saved), es); var t := Run(Next(s, AgentExited(agent)), more);
            var now := t.saved[cur];
            && (Keeps(t, k) <==>
                  Tree.Without(Leaves(s.canvas.tree), agent) == Tree.Without(Leaves(now.tree), agent))
            && (s.canvas.shows == Some(now.version) ==> s.canvas.tree == now.tree && Keeps(t, k))
            && (s.canvas.shows.None? ==>
                  Waiting(s) && (Keeps(t, k) <==> forall x <- Leaves(now.tree) :: x == agent))
  {
    var s, exit := Run(Start(saved), es), AgentExited(agent);
    var t := Run(Next(s, exit), more);
    RunSound(saved, es);
    StepKeepsInv(s, exit);
    StepKeepsCopies(s, exit);
    StepKeepsWaiting(s, exit);
    RunKeepsSync(Next(s, exit), more);
    LandingKeepsIff(s, cur, agent, t, k);
    if s.canvas.shows == Some(t.saved[cur].version) {
      StepGrows(s, exit);
      RunGrows(Next(s, exit), more);
      SameWriteSameTree(s, t, cur);
    }
  }

  /** An exit writes nothing itself, and its save no other workspace's layout. */
  lemma SaveTouchesOne(s: State, agent: string, k: nat, w: string)
    requires w in s.saved
    ensures Next(s, AgentExited(agent)).saved == s.saved
    ensures k < |s.outgoing| && s.outgoing[k].workspace != w ==>
              w in Next(s, SaveLands(k)).saved && Next(s, SaveLands(k)).saved[w] == s.saved[w]
  {
    assert Next(s, AgentExited(agent)) == ExitNext(s, agent);
    assert Next(s, SaveLands(k)) == BackendNext(s, SaveLands(k));
  }

  // ---------- a canvas in step with what is saved ----------

  /** The workspace's saves under way lead from one write to another, each sent from a
      canvas that showed the one before. */
  predicate Chain(saves: seq<Save>, w: string, from: nat, to: nat) {
    if saves == [] then from == to
    else if saves[0].workspace != w then Chain(saves[1..], w, from, to)
    else saves[0].base == Some(from) && Chain(saves[1..], w, saves[0].layout.version, to)
  }

  predicate KnownWorkspace(s: State) {
    s.currentId.Some? && s.currentId.value in s.saved
  }

  /** The canvas shows what will be saved once all saves under way have landed in the
      order they were sent. */
  predicate InStep(s: State) {
    && KnownWorkspace(s) && s.canvas.shows.Some?
    && Chain(s.outgoing, s.currentId.value, s.saved[s.currentId.value].version, s.canvas.shows.value)
  }

  /** Nothing is under way either: the canvas shows what is saved. */
  predicate InSync(s: State) {
    InStep(s) && forall save <- s.outgoing :: Some(save.workspace) != s.currentId
  }

  predicate Later(save: Save) {
    save.base.Some? ==> save.base.value < save.layout.version
  }

  lemma {:induction false} ChainEnds(saves: seq<Save>, w: string, from: nat, x: nat, y: nat)
    requires Chain(saves, w, from, x) && Chain(saves, w, from, y)
    ensures x == y
  {
    if saves != [] {
      ChainEnds(saves[1..], w, if saves[0].workspace == w then saves[0].layout.version else from, x, y);
    }
  }

  lemma {:induction false} ChainStarts(saves: seq<Save>, w: string, a: nat, b: nat, to: nat)
    requires Chain(saves, w, a, to) && Chain(saves, w, b, to)
    ensures a == b
  {
    if saves != [] && saves[0].workspace != w { ChainStarts(saves[1..], w, a, b, to); }
  }

  lemma {:induction false} ChainGoesUp(saves: seq<Save>, w: string, from: nat, to: nat, j: nat)
    requires Chain(saves, w, from, to) && forall save <- saves :: Later(save)
    requires j < |saves| && saves[j].workspace == w
    ensures from < saves[j].layout.version
  {
    assert saves[0] in saves && forall save <- saves[1..] :: save in saves;
    if j > 0 {
      ChainGoesUp(saves[1..], w, if saves[0].workspace == w then saves[0].layout.version else from, to, j - 1);
    }
  }

  lemma {:induction false} ChainAppend(saves: seq<Save>, w: string, from: nat, to: nat, save: Save)
    requires Chain(saves, w, from, to) && save.workspace == w && save.base == Some(to)
    ensures Chain(saves + [save], w, from, save.layout.version)
  {
    if saves != [] {
      assert (saves + [save])[1..] == saves[1..] + [save];
      ChainAppend(saves[1..], w, if saves[0].workspace == w then saves[0].layout.version else from, to, save);
    }
  }

  lemma {:induction false} ChainOfOthers(saves: seq<Save>, w: string, from: nat, to: nat)
    requires forall save <- saves :: save.workspace != w
    ensures Chain(saves, w, from, to) <==> from == to
  {
    if saves != [] {
      assert saves[0] in saves && forall save <- saves[1..] :: save in saves;
      ChainOfOthers(saves[1..], w, from, to);
    }
  }

  predicate FirstOf(saves: seq<Save>, w: string, k: nat)
    requires k < |saves|
  {
    saves[k].workspace == w && forall j | 0 <= j < k :: saves[j].workspace != w
  }

  lemma FirstFurther(saves: seq<Save>, w: string, k: nat)
    requires 0 < k < |saves| && saves[0].workspace != w && FirstOf(saves[1..], w, k - 1)
    ensures FirstOf(saves, w, k)
  {
    forall j | 0 < j < k ensures saves[j].workspace != w { assert saves[1..][j - 1] == saves[j]; }
  }

  lemma SavesWithoutHead(saves: seq<Save>, k: nat)
    requires 0 < k < |saves|
    ensures SavesWithout(saves, k) == [saves[0]] + SavesWithout(saves[1..], k - 1)
    ensures SavesWithout(saves, k)[1..] == SavesWithout(saves[1..], k - 1)
  {
  }

  /** Taking out the workspace's first save starts the chain there; taking out another
      workspace's does nothing. */
  lemma {:induction false} ChainWithoutFirst(saves: seq<Save>, w: string, from: nat, to: nat, k: nat)
    requires Chain(saves, w, from, to) && k < |saves|
    ensures FirstOf(saves, w, k) ==>
              saves[k].base == Some(from) && Chain(SavesWithout(saves, k), w, saves[k].layout.version, to)
    ensures saves[k].workspace != w ==> Chain(SavesWithout(saves, k), w, from, to)
  {
    if k == 0 {
      assert SavesWithout(saves, 0) == saves[1..];
    } else {
      SavesWithoutHead(saves, k);
      ChainWithoutFirst(saves[1..], w, if saves[0].workspace == w then saves[0].layout.version else from, to, k - 1);
    }
  }

  /** Taking one of the workspace's saves out breaks the chain. */
  lemma {:induction false} ChainBreaks(saves: seq<Save>, w: string, from: nat, to: nat, k: nat)
    requires Chain(saves, w, from, to) && forall save <- saves :: Later(save)
    requires k < |saves| && saves[k].workspace == w
    ensures !Chain(SavesWithout(saves, k), w, from, to)
    ensures !FirstOf(saves, w, k) ==> !Chain(SavesWithout(saves, k), w, saves[k].layout.version, to)
  {
    assert saves[0] in saves && forall save <- saves[1..] :: save in saves;
    ChainGoesUp(saves, w, from, to, k);
    if k == 0 {
      assert SavesWithout(saves, 0) == saves[1..];
      if Chain(saves[1..], w, from, to) { ChainStarts(saves[1..], w, from, saves[0].layout.version, to); }
    } else {
      SavesWithoutHead(saves, k);
      ChainBreaks(saves[1..], w, if saves[0].workspace == w then saves[0].layout.version else from, to, k - 1);
      if saves[0].workspace != w && FirstOf(saves[1..], w, k - 1) { FirstFurther(saves, w, k); }
    }
  }

  /** In step, the next save to land keeps every other pane; with nothing under way the
      canvas is the saved layout. */
  lemma InStepKeeps(saved: map<string, LayoutNode>, es: seq<Event>, k: nat)
    requires InStep(Run(Start(saved), es))
    ensures var s := Run(Start(saved), es);
            && (k < |s.outgoing| && FirstOf(s.outgoing, s.currentId.value, k) ==> Keeps(s, k))
            && (InSync(s) ==> s.canvas.tree == s.saved[s.currentId.value].tree)
  {
    var s := Run(Start(saved), es);
    var cur := s.currentId.value;
    RunSound(saved, es);
    assert CopySound(s.writes, cur, s.saved[cur]) && CanvasSound(s.writes, s.canvas);
    if k < |s.outgoing| && FirstOf(s.outgoing, cur, k) {
      var save := s.outgoing[k];
      ChainWithoutFirst(s.outgoing, cur, s.saved[cur].version, s.canvas.shows.value, k);
      assert save in s.outgoing && SaveSound(s.writes, save);
      Tree.CloseDropsAll(s.saved[cur].tree, save.agent);
    }
    if InSync(s) { ChainOfOthers(s.outgoing, cur, s.saved[cur].version, s.canvas.shows.value); }
  }

  /** The steps by which a canvas falls out of step: entering another workspace, a
      reload's answer or a layout event that is not the write shown, a save by the
      backend, a pruning on behalf of another reload, a save of this workspace that
      lands ahead of an earlier one, and one that fails. An exit is none of them. */
  predicate FallsOut(s: State, e: Event)
    requires InStep(s)
  {
    var cur, shows := s.currentId.value, s.canvas.shows.value;
    match e
    case GotList(id) => At(s, id, OnList) && id == s.switchId
    case GotWorkspace(id) =>
      && At(s, id, OnWorkspace) && id == s.switchId && s.reloads[id].answer.Some?
      && s.reloads[id].answer.value.version != shows
    case LayoutArrives => s.inbox != [] && s.inbox[0].workspace == cur && s.inbox[0].layout.version != shows
    case BackendSaves(w, _, _) => w == cur
    case AnswerWorkspace(id, live) =>
      && At(s, id, OnWorkspace) && s.reloads[id].answer.None? && s.reloads[id].target == cur
      && Workspace.Prune(s.saved[cur].tree, live) != s.saved[cur].tree
    case SaveLands(k) => k < |s.outgoing| && s.outgoing[k].workspace == cur && !FirstOf(s.outgoing, cur, k)
    case SaveFails(k) => k < |s.outgoing| && s.outgoing[k].workspace == cur
    case _ => false
  }

  lemma LandingFallsOut(s: State, e: Event)
    requires InStep(s) && SyncInv(s) && (e.SaveLands? || e.SaveFails?)
    ensures !InStep(Next(s, e)) <==> FallsOut(s, e)
  {
    var cur, from, to := s.currentId.value, s.saved[s.currentId.value].version, s.canvas.shows.value;
    forall save | save in s.outgoing ensures Later(save) { assert SaveSound(s.writes, save); }
    if e.place < |s.outgoing| {
      var n := BackendNext(s, e);
      assert n == s.(outgoing := SavesWithout(s.outgoing, e.place), saved := n.saved);
      ChainWithoutFirst(s.outgoing, cur, from, to, e.place);
      if s.outgoing[e.place].workspace == cur { ChainBreaks(s.outgoing, cur, from, to, e.place); }
    }
  }

  /** A write of the backend's own is none the canvas shows or a save leads from. */
  lemma StoringFallsOut(s: State, tree: LayoutNode)
    requires InStep(s) && SyncInv(s)
    ensures var n := Stored(s, s.currentId.value, tree);
            !Chain(n.outgoing, s.currentId.value, n.saved[s.currentId.value].version, s.canvas.shows.value)
  {
    var cur, from, to := s.currentId.value, s.saved[s.currentId.value].version, s.canvas.shows.value;
    var number := |Written(s.writes, cur)|;
    assert CopySound(s.writes, cur, s.saved[cur]);
    if Chain(s.outgoing, cur, number, to) { ChainStarts(s.outgoing, cur, from, number, to); }
  }

  lemma BackendSaveFallsOut(s: State, e: Event)
    requires InStep(s) && SyncInv(s) && e.BackendSaves?
    ensures !InStep(Next(s, e)) <==> FallsOut(s, e)
  {
    if e.workspace == s.currentId.value { StoringFallsOut(s, e.tree); }
  }

  lemma AnswerFallsOut(s: State, e: Event)
    requires InStep(s) && SyncInv(s) && e.AnswerWorkspace?
    ensures !InStep(Next(s, e)) <==> FallsOut(s, e)
  {
    StoringFallsOut(s, Workspace.Prune(s.saved[s.currentId.value].tree, e.live));
  }

  lemma ShowingFallsOut(s: State, n: State, shows: nat)
    requires InStep(s) && n.currentId == s.currentId && n.saved == s.saved && n.outgoing == s.outgoing
    requires n.canvas.shows == Some(shows)
    ensures InStep(n) <==> shows == s.canvas.shows.value
  {
    var cur := s.currentId.value;
    if InStep(n) { ChainEnds(s.outgoing, cur, s.saved[cur].version, s.canvas.shows.value, shows); }
  }

  lemma DeliveryFallsOut(s: State, e: Event)
    requires InStep(s) && e.LayoutArrives?
    ensures !InStep(Next(s, e)) <==> FallsOut(s, e)
  {
    if s.inbox != [] && s.inbox[0].workspace == s.currentId.value {
      ShowingFallsOut(s, Next(s, e), s.inbox[0].layout.version);
    }
  }

  lemma ExitStaysInStep(s: State, agent: string)
    requires InStep(s)
    ensures InStep(Next(s, AgentExited(agent)))
  {
    var cur := s.currentId.value;
    ChainAppend(s.outgoing, cur, s.saved[cur].version, s.canvas.shows.value, Sent(s, cur, agent));
  }

  lemma ReloadFallsOut(s: State, e: Event)
    requires InStep(s) && SyncInv(s) && Reloading(e).Some?
    ensures !InStep(Next(s, e)) <==> FallsOut(s, e)
  {
    ReloadStep(s, e);
    if Reloading(e).value != s.switchId {
      StaleReloadStops(s, e);
    } else if s.switchId in s.reloads {
      assert InCharge(s, s.reloads[s.switchId]);
      if e.GotWorkspace? && Continues(s, e) {
        ShowingFallsOut(s, Next(s, e), s.reloads[e.id].answer.value.version);
      }
    }
  }

  lemma FallsOutStep(s: State, e: Event)
    requires InStep(s) && SyncInv(s)
    ensures !InStep(Next(s, e)) <==> FallsOut(s, e)
  {
    if e.SaveLands? || e.SaveFails? {
      LandingFallsOut(s, e);
    } else if e.BackendSaves? {
      BackendSaveFallsOut(s, e);
    } else if e.AnswerWorkspace? {
      AnswerFallsOut(s, e);
    } else if e.LayoutArrives? {
      DeliveryFallsOut(s, e);
    } else if e.AgentExited? {
      ExitStaysInStep(s, e.agent);
    } else if Reloading(e).Some? {
      ReloadFallsOut(s, e);
    }
  }

  /** They are exactly those, in every run. */
  lemma FallsOutIff(saved: map<string, LayoutNode>, es: seq<Event>, e: Event)
    requires InStep(Run(Start(saved), es))
    ensures var s := Run(Start(saved), es);
            !InStep(Next(s, e)) <==> FallsOut(s, e)
  {
    RunSound(saved, es);
    FallsOutStep(Run(Start(saved), es), e);
  }

  /** No step of the run throws the canvas out of step. */
  ghost predicate Undisturbed(s: State, more: seq<Event>) {
    forall k | 0 <= k < |more| :: Harmless(Run(s, more[..k]), more[k])
  }

  predicate Harmless(s: State, e: Event) {
    InStep(s) ==> !FallsOut(s, e)
  }

  lemma UndisturbedPrefix(s: State, more: seq<Event>)
    requires more != [] && Undisturbed(s, more)
    ensures Undisturbed(s, more[..|more| - 1]) && Harmless(Run(s, more[..|more| - 1]), more[|more| - 1])
  {
    var init := more[..|more| - 1];
    forall k | 0 <= k < |init| ensures Harmless(Run(s, init[..k]), init[k]) {
      assert init[..k] == more[..k] && Harmless(Run(s, more[..k]), more[k]);
    }
    assert Harmless(Run(s, more[..|init|]), more[|init|]);
  }

  lemma HarmlessStep(s: State, e: Event)
    requires InStep(s) && SyncInv(s) && Harmless(s, e)
    ensures InStep(Next(s, e))
  {
    FallsOutStep(s, e);
  }

  /** So any number of exits, with their saves landing in order, lose nothing while no
      other writer comes between. */
  lemma {:induction false} StaysInStep(s: State, more: seq<Event>)
    requires InStep(s) && SyncInv(s) && Undisturbed(s, more)
    ensures InStep(Run(s, more))
  {
    if more != [] {
      var init, last := more[..|more| - 1], more[|more| - 1];
      UndisturbedPrefix(s, more);
      StaysInStep(s, init);
      RunKeepsSync(s, init);
      HarmlessStep(Run(s, init), last);
      assert Run(s, more) == Next(Run(s, init), last);
    }
  }

  // ---------- runs that lose panes ----------

  /** Even in sync: from any such state of any run, the backend stores a layout of its
      own between an exit and the landing of its save, which then stores the old tree
      without the agent over it. Nothing else is lost if and only if the two agree
      apart from the agent. */
  lemma {:induction false} InSyncExitLoses(
    saved: map<string, LayoutNode>, es: seq<Event>, agent: string, newer: LayoutNode, announced: bool)
    requires InSync(Run(Start(saved), es))
    ensures var s := Run(Start(saved), es);
            var cur, k := s.currentId.value, |s.outgoing|;
            var t := Next(Next(s, AgentExited(agent)), BackendSaves(cur, newer, announced));
            && k < |t.outgoing| && cur in t.saved && t.saved[cur].tree == newer
            && t.outgoing[k] == Sent(s, cur, agent)
            && var z := Next(t, SaveLands(k));
            && cur in z.saved && z.saved[cur].tree == Tree.CloseLeaf(s.saved[cur].tree, agent)
            && (Keeps(t, k) <==>
                  Tree.Without(Leaves(s.saved[cur].tree), agent) == Tree.Without(Leaves(newer), agent))
  {
    var s := Run(Start(saved), es);
    var cur := s.currentId.value;
    InStepKeeps(saved, es, 0);
    var t := Next(Next(s, AgentExited(agent)), BackendSaves(cur, newer, announced));
    assert t.outgoing == s.outgoing + [Sent(s, cur, agent)];
    LandingKeepsIff(s, cur, agent, t, |s.outgoing|);
  }

  lemma RunSnoc(s: State, es: seq<Event>, e: Event)
    ensures Run(s, es + [e]) == Next(Run(s, es), e)
  {
    assert (es + [e])[..|es|] == es;
  }

  /** Switching to a workspace, as far as its cleared canvas. */
  lemma Entering(saved: map<string, LayoutNode>, target: string)
    requires target in saved
    ensures var s := Run(Start(saved), [SwitchTo(target), GotList(1)]);
            && s == Start(saved).(switchId := 1, reloads := map[1 := Reload(target, OnWorkspace, None)], entered := 1,
                                  currentId := Some(target))
            && Waiting(s)
  {
    var s := Start(saved);
    RunSnoc(s, [], SwitchTo(target));
    assert [] + [SwitchTo(target)] == [SwitchTo(target)];
    var s1 := s.(switchId := 1, reloads := map[1 := Reload(target, OnList, None)]);
    assert Run(s, [SwitchTo(target)]) == s1;
    RunSnoc(s, [SwitchTo(target)], GotList(1));
    assert [SwitchTo(target)] + [GotList(1)] == [SwitchTo(target), GotList(1)];
    var s2 := s1.(entered := 1, currentId := Some(target), reloads := map[1 := Reload(target, OnWorkspace, None)]);
    assert Next(s1, GotList(1)) == s2;
  }

  /** An exit whose save, the only one under way, lands at once. */
  function ExitAndLand(s: State, agent: string): State {
    Next(Next(s, AgentExited(agent)), SaveLands(0))
  }

  lemma ExitLands(s: State, cur: string, agent: string)
    requires s.outgoing == [] && s.currentId == Some(cur) && cur in s.saved
    ensures var t := ExitAndLand(s, agent);
            && t.saved == s.saved[cur := NewCopy(s, cur, Tree.CloseLeaf(s.canvas.tree, agent))]
            && t.inbox == s.inbox && t.currentId == s.currentId && t.outgoing == []
  {
    var n := Next(s, AgentExited(agent));
    assert n == ExitNext(s, agent) && n.outgoing == [Sent(s, cur, agent)];
    assert SavesWithout(n.outgoing, 0) == [];
  }

  /** While the canvas is cleared for a switch, the exit of any agent overwrites any
      saved layout of the workspace being entered with the empty one. */
  lemma SavedLayoutLost(saved: map<string, LayoutNode>, target: string, agent: string)
    requires target in saved
    ensures var s := Run(Start(saved), [SwitchTo(target), GotList(1)]);
            ExitAndLand(s, agent).saved == Start(saved).saved[target := Copy(Empty, 1)]
  {
    Entering(saved, target);
    ExitLands(Run(Start(saved), [SwitchTo(target), GotList(1)]), target, agent);
  }

  /** Read in full: nothing is pruned. */
  function AnswerInFull(saved: map<string, LayoutNode>, target: string): Event
    requires target in saved
  {
    AnswerWorkspace(1, set x | x in Leaves(saved[target]))
  }

  /** The reload has its answer under way. */
  function AnsweredState(saved: map<string, LayoutNode>, target: string): State
    requires target in saved
  {
    Start(saved).(switchId := 1, entered := 1, currentId := Some(target),
                  reloads := map[1 := Reload(target, OnWorkspace, Some(Copy(saved[target], 0)))])
  }

  lemma Answered(saved: map<string, LayoutNode>, target: string)
    requires target in saved
    ensures Run(Start(saved), [SwitchTo(target), GotList(1), AnswerInFull(saved, target)])
            == AnsweredState(saved, target)
  {
    var answer := AnswerInFull(saved, target);
    Entering(saved, target);
    Workspace.PruneStepKeeps(saved[target], Leaves(saved[target]), answer.live);
    RunSnoc(Start(saved), [SwitchTo(target), GotList(1)], answer);
    assert [SwitchTo(target), GotList(1)] + [answer] == [SwitchTo(target), GotList(1), answer];
    var s := Run(Start(saved), [SwitchTo(target), GotList(1)]);
    assert Pruned(s, target, answer.live) == s;
    assert Next(s, answer).reloads == AnsweredState(saved, target).reloads;
  }

  /** The backend's first write to the workspace, announced. */
  function Announced(s: State, target: string, newer: LayoutNode): State {
    s.(writes := s.writes[target := Written(s.writes, target) + [newer]],
       saved := s.saved[target := Copy(newer, 1)], inbox := [Message(target, Copy(newer, 1))])
  }

  /** A layout event overtakes an older answer. */
  lemma Overtaken(saved: map<string, LayoutNode>, target: string, newer: LayoutNode)
    requires target in saved
    ensures var s0 := AnsweredState(saved, target);
            var s := Next(Next(Next(s0, BackendSaves(target, newer, true)), LayoutArrives), GotWorkspace(1));
            s == Announced(s0, target, newer).(
                   inbox := [], reloads := s.reloads, canvas := Shown(target, Copy(saved[target], 0)))
  {
    var s0 := AnsweredState(saved, target);
    var s1 := Next(s0, BackendSaves(target, newer, true));
    assert s1 == Announced(s0, target, newer);
    var s2 := Next(s1, LayoutArrives);
    assert s2 == s1.(inbox := [], canvas := Shown(target, Copy(newer, 1)));
  }

  /** The canvas is then out of step, showing the old tree, and an exit saves that. Panes
      the backend added meanwhile are lost. */
  lemma OvertakenAnswerLoses(saved: map<string, LayoutNode>, target: string, newer: LayoutNode, agent: string)
    requires target in saved
    ensures var s0 := Run(Start(saved), [SwitchTo(target), GotList(1), AnswerInFull(saved, target)]);
            var s := Next(Next(Next(s0, BackendSaves(target, newer, true)), LayoutArrives), GotWorkspace(1));
            && !InStep(s) && s.currentId == Some(target)
            && s.canvas.tree == saved[target] && target in s.saved && s.saved[target].tree == newer
            && var t := ExitAndLand(s, agent);
            && target in t.saved && t.saved[target].tree == Tree.CloseLeaf(saved[target], agent)
  {
    Answered(saved, target);
    Overtaken(saved, target, newer);
    var s0 := AnsweredState(saved, target);
    var s := Next(Next(Next(s0, BackendSaves(target, newer, true)), LayoutArrives), GotWorkspace(1));
    ExitLands(s, target, agent);
  }

  /** A layout event is still under way. */
  lemma UnderWay(saved: map<string, LayoutNode>, target: string, newer: LayoutNode)
    requires target in saved
    ensures var s0 := AnsweredState(saved, target);
            var s := Next(Next(s0, GotWorkspace(1)), BackendSaves(target, newer, true));
            s == Announced(s0, target, newer).(
                   reloads := s.reloads, canvas := Shown(target, Copy(saved[target], 0)))
  {
    var s0 := AnsweredState(saved, target);
    var s1 := Next(s0, GotWorkspace(1));
    assert s1 == s0.(reloads := s1.reloads, canvas := Shown(target, Copy(saved[target], 0)));
  }

  /** An exit then saves the old tree over the newer one, which the event puts on the
      canvas afterwards, shown but no longer saved. */
  lemma EventUnderWayLoses(saved: map<string, LayoutNode>, target: string, newer: LayoutNode, agent: string)
    requires target in saved
    ensures var s0 := Run(Start(saved), [SwitchTo(target), GotList(1), AnswerInFull(saved, target)]);
            var s := Next(Next(s0, GotWorkspace(1)), BackendSaves(target, newer, true));
            && !InStep(s) && s.currentId == Some(target) && target in s.saved && s.saved[target].tree == newer
            && var t := Next(ExitAndLand(s, agent), LayoutArrives);
            && target in t.saved && t.saved[target].tree == Tree.CloseLeaf(saved[target], agent)
            && t.canvas.tree == newer && !InStep(t)
  {
    Answered(saved, target);
    UnderWay(saved, target, newer);
    var s := Next(Next(AnsweredState(saved, target), GotWorkspace(1)), BackendSaves(target, newer, true));
    ExitLands(s, target, agent);
    var t := ExitAndLand(s, agent);
    assert t.inbox == [Message(target, Copy(newer, 1))] && t.saved[target].version == 2;
    ArrivesLate(t, target, newer);
  }

  lemma ArrivesLate(s: State, target: string, newer: LayoutNode)
    requires s.currentId == Some(target) && target in s.saved && s.saved[target].version == 2
    requires s.outgoing == [] && s.inbox == [Message(target, Copy(newer, 1))]
    ensures var t := Next(s, LayoutArrives); t.saved == s.saved && t.canvas.tree == newer && !InStep(t)
  {
    assert Next(s, LayoutArrives).canvas == Shown(target, Copy(newer, 1));
  }
}
