/** Workspace switching in `App.tsx`: overlapping runs of `reloadAfterSwitch`,
    cancelled by a generation counter between their awaits, interleaved with the
    backend's writes, with the events that also write the store, and with the saves
    those send back. */
module WorkspaceSwitch {
  import opened Prelude
  import opened Layout
  import Tree
  import Workspace

  /** A layout and its number among the layouts written for its workspace. */
  datatype Copy = Copy(tree: LayoutNode, version: nat)

  /** The canvas tree, the workspace it was loaded for and the write it shows;
      neither when cleared. */
  datatype Canvas = Canvas(tree: LayoutNode, owner: Option<string>, shows: Option<nat>)

  datatype Await = OnList | OnWorkspace | OnAgents | OnTasks | Completed | Stopped

  /** `answer` is the backend's reply to `getWorkspace` while it is under way. */
  datatype Reload = Reload(target: string, at: Await, answer: Option<Copy>)

  /** A layout event under way to the frontend. */
  datatype Message = Message(workspace: string, layout: Copy)

  /** A layout the frontend has sent to be saved, without waiting, when an agent
      exited, and the write the canvas showed before. */
  datatype Save = Save(workspace: string, layout: Copy, agent: string, base: Option<nat>)

  /** Agents and tasks are kept with the workspace they belong to. Reloads are named
      by their switch id; `entered` is the one that set the current workspace.
      `saved` is the backend's layout per workspace. `writes` is history: every layout
      written for a workspace, by either side, whether or not it has been saved yet. */
  datatype State = State(
    switchId: nat, reloads: map<nat, Reload>, entered: nat,
    currentId: Option<string>, canvas: Canvas, agents: map<string, string>, tasks: map<string, string>,
    saved: map<string, Copy>, writes: map<string, seq<LayoutNode>>, inbox: seq<Message>, outgoing: seq<Save>)

  datatype Event =
    | SwitchTo(target: string)
    | GotList(id: nat)
    | AnswerWorkspace(id: nat, live: set<string>)
    | GotWorkspace(id: nat)
    | GotAgents(id: nat, agents: set<string>)
    | GotTasks(id: nat, tasks: set<string>)
    | Failed(id: nat)
    | AgentSpawned(agent: string, workspace: string)
    | BackendSaves(workspace: string, tree: LayoutNode, announced: bool)
    | LayoutArrives
    | AgentExited(agent: string)
    | SaveLands(place: nat)
    | SaveFails(place: nat)

  const NoCanvas := Canvas(Empty, None, None)

  function Start(saved: map<string, LayoutNode>): State {
    State(0, map[], 0, None, NoCanvas, map[], map[],
          map w | w in saved :: Copy(saved[w], 0), map w | w in saved :: [saved[w]], [], [])
  }

  predicate At(s: State, id: nat, at: Await) {
    id in s.reloads && s.reloads[id].at == at
  }

  function Moved(s: State, id: nat, at: Await): State
    requires id in s.reloads
  {
    s.(reloads := s.reloads[id := s.reloads[id].(at := at)])
  }

  /** What the backend returns for a workspace belongs to it. */
  function AllOf(ids: set<string>, workspace: string): map<string, string> {
    map id | id in ids :: workspace
  }

  function Shown(workspace: string, c: Copy): Canvas {
    Canvas(c.tree, Some(workspace), Some(c.version))
  }

  function Written(writes: map<string, seq<LayoutNode>>, workspace: string): seq<LayoutNode> {
    if workspace in writes then writes[workspace] else []
  }

  /** A layout about to be written. */
  function NewCopy(s: State, workspace: string, tree: LayoutNode): Copy {
    Copy(tree, |Written(s.writes, workspace)|)
  }

  function Recorded(s: State, workspace: string, tree: LayoutNode): State {
    s.(writes := s.writes[workspace := Written(s.writes, workspace) + [tree]])
  }

  function Stored(s: State, workspace: string, tree: LayoutNode): State {
    Recorded(s, workspace, tree).(saved := s.saved[workspace := NewCopy(s, workspace, tree)])
  }

  /** The saves without the one at this place. */
  function SavesWithout(saves: seq<Save>, place: nat): seq<Save>
    requires place < |saves|
  {
    saves[..place] + saves[place + 1..]
  }

  /** Reading a workspace prunes its layout first, and writes it back if that
      removed something. */
  function Pruned(s: State, workspace: string, live: set<string>): State
    requires workspace in s.saved
  {
    var tree := Workspace.Prune(s.saved[workspace].tree, live);
    if tree == s.saved[workspace].tree then s else Stored(s, workspace, tree)
  }

  /** The reload whose continuation an event is. */
  function Reloading(e: Event): Option<nat> {
    match e
    case GotList(id) => Some(id)
    case GotWorkspace(id) => Some(id)
    case GotAgents(id, _) => Some(id)
    case GotTasks(id, _) => Some(id)
    case Failed(id) => Some(id)
    case _ => None
  }

  /** The steps taken by the backend. */
  predicate OfBackend(e: Event) {
    e.AnswerWorkspace? || e.BackendSaves? || e.SaveLands? || e.SaveFails?
  }

  /** The reload is waiting for just this. A failing task list counts as an empty one;
      the other awaits give up. */
  predicate Continues(s: State, e: Event)
    requires Reloading(e).Some?
  {
    match e
    case GotList(id) => At(s, id, OnList)
    case GotWorkspace(id) => At(s, id, OnWorkspace) && s.reloads[id].answer.Some?
    case GotAgents(id, _) => At(s, id, OnAgents)
    case GotTasks(id, _) => At(s, id, OnTasks)
    case Failed(id) => At(s, id, OnList) || At(s, id, OnWorkspace) || At(s, id, OnAgents)
  }

  function After(at: Await): Await {
    match at
    case OnList => OnWorkspace
    case OnWorkspace => OnAgents
    case OnAgents => OnTasks
    case OnTasks => Completed
    case _ => at
  }

  /** What a continuation of the newest reload writes to the store. */
  function Loads(s: State, e: Event, r: Reload): State {
    match e
    case GotList(id) =>
      s.(canvas := NoCanvas, agents := map[], tasks := map[], currentId := Some(r.target), entered := id)
    case GotWorkspace(_) => if r.answer.Some? then s.(canvas := Shown(r.target, r.answer.value)) else s
    case GotAgents(_, agents) => s.(agents := AllOf(agents, r.target))
    case GotTasks(_, tasks) => s.(tasks := AllOf(tasks, r.target))
    case _ => s
  }

  /** The continuations of `reloadAfterSwitch`. */
  function ReloadNext(s: State, e: Event): State
    requires Reloading(e).Some?
  {
    var id := Reloading(e).value;
    if !Continues(s, e) then s
    else if e.Failed? || s.switchId != id then Moved(s, id, Stopped)
    else Moved(Loads(s, e, s.reloads[id]), id, After(s.reloads[id].at))
  }

  function BackendNext(s: State, e: Event): State
    requires OfBackend(e)
  {
    match e
    case AnswerWorkspace(id, live) =>
      if !At(s, id, OnWorkspace) || s.reloads[id].answer.Some? || s.reloads[id].target !in s.saved then s
      else
        var r := s.reloads[id];
        var s' := Pruned(s, r.target, live);
        s'.(reloads := s.reloads[id := r.(answer := Some(s'.saved[r.target]))])
    case BackendSaves(workspace, tree, announced) =>
      if workspace !in s.saved then s
      else
        var s' := Stored(s, workspace, tree);
        if announced then s'.(inbox := s.inbox + [Message(workspace, s'.saved[workspace])]) else s'
    case SaveLands(k) =>
      if k >= |s.outgoing| then s
      else
        var save := s.outgoing[k];
        var s' := s.(outgoing := SavesWithout(s.outgoing, k));
        if save.workspace in s.saved then s'.(saved := s.saved[save.workspace := save.layout]) else s'
    case SaveFails(k) =>
      if k >= |s.outgoing| then s else s.(outgoing := SavesWithout(s.outgoing, k))
  }

  function ExitNext(s: State, agent: string): State {
    var tree := Tree.CloseLeaf(s.canvas.tree, agent);
    match s.currentId
    case None => s.(canvas := s.canvas.(tree := tree))
    case Some(cur) =>
      var layout := NewCopy(s, cur, tree);
      Recorded(s, cur, tree).(canvas := Shown(cur, layout),
                              outgoing := s.outgoing + [Save(cur, layout, agent, s.canvas.shows)])
  }

  function Next(s: State, e: Event): State {
    if OfBackend(e) then BackendNext(s, e)
    else if Reloading(e).Some? then ReloadNext(s, e)
    else
      match e
      case SwitchTo(target) =>
        s.(switchId := s.switchId + 1, reloads := s.reloads[s.switchId + 1 := Reload(target, OnList, None)])
      case AgentSpawned(agent, workspace) =>
        if s.currentId == Some(workspace) then s.(agents := s.agents[agent := workspace]) else s
      case LayoutArrives =>
        if s.inbox == [] then s
        else
          var m := s.inbox[0];
          var s' := s.(inbox := s.inbox[1..]);
          if s.currentId == Some(m.workspace) then s'.(canvas := Shown(m.workspace, m.layout)) else s'
      case AgentExited(agent) => ExitNext(s, agent)
  }

  function Run(s: State, es: seq<Event>): State {
    if es == [] then s else Next(Run(s, es[..|es| - 1]), es[|es| - 1])
  }

  /** The store, the switch counter and the layouts the backend keeps. `Begin` and
      the `After` methods are the stretches of `reloadAfterSwitch` between two
      awaits; `Serve`, `Announce` and `Land` are the backend's side. Saves are sent
      without waiting and may land in any order. */
  class App {
    var switchId: nat
    var reloads: map<nat, Reload>
    ghost var entered: nat
    var currentId: Option<string>
    var canvas: Canvas
    var agents: map<string, string>
    var tasks: map<string, string>
    var saved: map<string, Copy>
    var writes: map<string, seq<LayoutNode>>
    var inbox: seq<Message>
    var outgoing: seq<Save>

    constructor (saved: map<string, LayoutNode>)
      ensures Snapshot() == Start(saved)
    {
      switchId, reloads, currentId, canvas, agents, tasks := 0, map[], None, NoCanvas, map[], map[];
      this.saved := map w | w in saved :: Copy(saved[w], 0);
      entered, writes, inbox, outgoing := 0, map w | w in saved :: [saved[w]], [], [];
    }

    ghost function Snapshot(): State
      reads this
    {
      State(switchId, reloads, entered, currentId, canvas, agents, tasks, saved, writes, inbox, outgoing)
    }

    method Begin(target: string) returns (id: nat)
      modifies this
      ensures Snapshot() == Next(old(Snapshot()), SwitchTo(target)) && id == switchId
      ensures switchId == old(switchId) + 1 && reloads == old(reloads)[id := Reload(target, OnList, None)]
    {
      switchId := switchId + 1;
      id := switchId;
      reloads := reloads[id := Reload(target, OnList, None)];
    }

    method SetPhase(id: nat, at: Await)
      requires id in reloads
      modifies this`reloads
      ensures reloads == old(reloads)[id := old(reloads[id]).(at := at)]
    {
      reloads := reloads[id := reloads[id].(at := at)];
    }

    method AfterList(id: nat)
      requires At(Snapshot(), id, OnList)
      modifies this
      ensures Snapshot() == Next(old(Snapshot()), GotList(id))
      ensures switchId == id ==>
                && canvas == NoCanvas && agents == map[] && tasks == map[]
                && currentId == Some(reloads[id].target) && reloads[id].at == OnWorkspace
    {
      if switchId != id { SetPhase(id, Stopped); return; }
      canvas, agents, tasks := NoCanvas, map[], map[];
      currentId := Some(reloads[id].target);
      entered := id;
      SetPhase(id, OnWorkspace);
    }

    method AfterWorkspace(id: nat)
      requires At(Snapshot(), id, OnWorkspace) && reloads[id].answer.Some?
      modifies this
      ensures Snapshot() == Next(old(Snapshot()), GotWorkspace(id))
      ensures switchId == id ==>
                && canvas.tree == old(reloads[id]).answer.value.tree && canvas.owner == Some(reloads[id].target)
                && reloads[id].at == OnAgents
    {
      if switchId != id { SetPhase(id, Stopped); return; }
      canvas := Shown(reloads[id].target, reloads[id].answer.value);
      SetPhase(id, OnAgents);
    }

    method AfterAgents(id: nat, list: set<string>)
      requires At(Snapshot(), id, OnAgents)
      modifies this
      ensures Snapshot() == Next(old(Snapshot()), GotAgents(id, list))
      ensures switchId == id ==>
                && agents.Keys == list && (forall a <- list :: agents[a] == reloads[id].target)
                && reloads[id].at == OnTasks
    {
      if switchId != id { SetPhase(id, Stopped); return; }
      agents := AllOf(list, reloads[id].target);
      SetPhase(id, OnTasks);
    }

    method AfterTasks(id: nat, list: set<string>)
      requires At(Snapshot(), id, OnTasks)
      modifies this
      ensures Snapshot() == Next(old(Snapshot()), GotTasks(id, list))
      ensures switchId == id ==>
                && tasks.Keys == list && (forall k <- list :: tasks[k] == reloads[id].target)
                && reloads[id].at == Completed
    {
      if switchId != id { SetPhase(id, Stopped); return; }
      tasks := AllOf(list, reloads[id].target);
      SetPhase(id, Completed);
    }

    /** An await other than the last fails, and the reload gives up. */
    method GiveUp(id: nat)
      requires At(Snapshot(), id, OnList) || At(Snapshot(), id, OnWorkspace) || At(Snapshot(), id, OnAgents)
      modifies this
      ensures Snapshot() == Next(old(Snapshot()), Failed(id)) && reloads[id].at == Stopped
    {
      SetPhase(id, Stopped);
    }

    /** An agent is adopted only into its own workspace. */
    method OnAgentSpawned(agent: string, workspace: string)
      modifies this
      ensures Snapshot() == Next(old(Snapshot()), AgentSpawned(agent, workspace))
      ensures agents == if currentId == Some(workspace) then old(agents)[agent := workspace] else old(agents)
    {
      if currentId == Some(workspace) { agents := agents[agent := workspace]; }
    }

    /** Closes the agent's tile and sends the result off to be saved. */
    method OnAgentExit(agent: string)
      modifies this
      ensures Snapshot() == Next(old(Snapshot()), AgentExited(agent))
      ensures canvas.tree == Tree.CloseLeaf(old(canvas.tree), agent) && saved == old(saved)
      ensures |outgoing| == |old(outgoing)| + if currentId.Some? then 1 else 0
    {
      var base := canvas.shows;
      var next := Tree.CloseLeaf(canvas.tree, agent);
      canvas := canvas.(tree := next);
      if currentId.Some? {
        var layout := Record(currentId.value, next);
        canvas := Shown(currentId.value, layout);
        outgoing := outgoing + [Save(currentId.value, layout, agent, base)];
      }
    }

    method OnLayoutChanged()
      requires inbox != []
      modifies this
      ensures Snapshot() == Next(old(Snapshot()), LayoutArrives)
      ensures var m := old(inbox)[0];
              && inbox == old(inbox)[1..]
              && canvas == if currentId == Some(m.workspace) then Shown(m.workspace, m.layout) else old(canvas)
    {
      var m := inbox[0];
      inbox := inbox[1..];
      if currentId == Some(m.workspace) { canvas := Shown(m.workspace, m.layout); }
    }

    /** Numbers a layout about to be written. */
    method Record(workspace: string, tree: LayoutNode) returns (c: Copy)
      modifies this`writes
      ensures c == NewCopy(old(Snapshot()), workspace, tree)
      ensures Snapshot() == Recorded(old(Snapshot()), workspace, tree)
    {
      var before := if workspace in writes then writes[workspace] else [];
      c := Copy(tree, |before|);
      writes := writes[workspace := before + [tree]];
    }

    method Store(workspace: string, tree: LayoutNode)
      modifies this`writes, this`saved
      ensures Snapshot() == Stored(old(Snapshot()), workspace, tree)
    {
      var c := Record(workspace, tree);
      saved := saved[workspace := c];
    }

    /** The backend answers `getWorkspace`. */
    method Serve(id: nat, live: set<string>)
      requires At(Snapshot(), id, OnWorkspace) && reloads[id].answer.None? && reloads[id].target in saved
      modifies this
      ensures Snapshot() == Next(old(Snapshot()), AnswerWorkspace(id, live))
      ensures var target := old(reloads[id]).target;
              && target in saved && saved[target].tree == Workspace.Prune(old(saved)[target].tree, live)
              && reloads == old(reloads)[id := old(reloads[id]).(answer := Some(saved[target]))]
    {
      var target := reloads[id].target;
      var tree := Workspace.Prune(saved[target].tree, live);
      if tree != saved[target].tree { Store(target, tree); }
      reloads := reloads[id := reloads[id].(answer := Some(saved[target]))];
    }

    /** The backend changes a layout by itself and announces it. */
    method Announce(workspace: string, tree: LayoutNode)
      requires workspace in saved
      modifies this
      ensures Snapshot() == Next(old(Snapshot()), BackendSaves(workspace, tree, true))
      ensures workspace in saved && saved[workspace].tree == tree
      ensures inbox == old(inbox) + [Message(workspace, saved[workspace])]
    {
      Store(workspace, tree);
      inbox := inbox + [Message(workspace, saved[workspace])];
    }

    /** The backend carries out one of the saves under way, if the workspace exists. */
    method Land(k: nat) returns (ok: bool)
      requires k < |outgoing|
      modifies this
      ensures Snapshot() == Next(old(Snapshot()), SaveLands(k))
      ensures var save := old(outgoing)[k];
              && outgoing == SavesWithout(old(outgoing), k)
              && saved == if ok then old(saved)[save.workspace := save.layout] else old(saved)
      ensures ok <==> old(outgoing[k]).workspace in old(saved)
    {
      var save := outgoing[k];
      outgoing := outgoing[..k] + outgoing[k + 1..];
      ok := save.workspace in saved;
      if ok { saved := saved[save.workspace := save.layout]; }
    }
  }

  // ---------- one workspace at a time ----------

  /** Canvas, agents and tasks are each empty or of the current workspace. */
  ghost predicate OneWorkspace(s: State) {
    && (s.canvas == NoCanvas || (s.canvas.owner.Some? && s.canvas.owner == s.currentId))
    && (forall a <- s.agents :: Some(s.agents[a]) == s.currentId)
    && (forall t <- s.tasks :: Some(s.tasks[t]) == s.currentId)
  }

  predicate Entered(at: Await) { at.OnWorkspace? || at.OnAgents? || at.OnTasks? || at.Completed? }

  predicate Loaded(at: Await) { at.OnAgents? || at.OnTasks? || at.Completed? }

  /** The store is the reload's as far as it has come. */
  predicate InCharge(s: State, r: Reload) {
    && (Entered(r.at) ==> s.currentId == Some(r.target))
    && (Loaded(r.at) ==> s.canvas.owner == Some(r.target))
  }

  /** No reload is younger than the counter, and the newest has the store. */
  ghost predicate NewestInCharge(s: State) {
    && (forall id <- s.reloads :: id <= s.switchId)
    && (s.switchId in s.reloads ==> InCharge(s, s.reloads[s.switchId]))
  }

  ghost predicate Inv(s: State) {
    OneWorkspace(s) && NewestInCharge(s)
  }

  /** A reload that is no longer the newest writes nothing and never goes on:
      whatever it was waiting for, its next continuation stops it. */
  lemma StaleReloadStops(s: State, e: Event)
    requires Reloading(e).Some? && Reloading(e).value != s.switchId
    ensures Next(s, e).(reloads := s.reloads) == s && Next(s, e).reloads.Keys == s.reloads.Keys
    ensures s.switchId in s.reloads ==> Next(s, e).reloads[s.switchId] == s.reloads[s.switchId]
    ensures Next(s, e) != s ==> At(Next(s, e), Reloading(e).value, Stopped)
  {
  }

  /** The same store, seen from the frontend. */
  ghost predicate SameStore(s: State, n: State) {
    && n.switchId == s.switchId && n.entered == s.entered && n.currentId == s.currentId
    && n.canvas == s.canvas && n.agents == s.agents && n.tasks == s.tasks
    && n.reloads.Keys == s.reloads.Keys && n.saved.Keys == s.saved.Keys
    && forall id <- s.reloads ::
         n.reloads[id].target == s.reloads[id].target && n.reloads[id].at == s.reloads[id].at
  }

  lemma AnswerStays(s: State, e: Event)
    requires e.AnswerWorkspace?
    ensures SameStore(s, Next(s, e))
  {
  }

  lemma SaveStays(s: State, e: Event)
    requires e.BackendSaves?
    ensures SameStore(s, Next(s, e))
  {
  }

  lemma LandingStays(s: State, e: Event)
    requires e.SaveLands? || e.SaveFails?
    ensures SameStore(s, Next(s, e))
  {
    var n := BackendNext(s, e);
    assert n == s.(outgoing := n.outgoing, saved := n.saved);
  }

  /** The backend's steps leave the store alone. */
  lemma BackendStepStays(s: State, e: Event)
    requires OfBackend(e)
    ensures SameStore(s, Next(s, e))
  {
    if e.AnswerWorkspace? {
      AnswerStays(s, e);
    } else if e.BackendSaves? {
      SaveStays(s, e);
    } else {
      LandingStays(s, e);
    }
  }

  lemma SameStoreKeeps(s: State, n: State)
    requires Inv(s) && SameStore(s, n)
    ensures Inv(n)
  {
    if s.switchId in s.reloads { assert InCharge(s, s.reloads[s.switchId]); }
  }

  lemma BackendStepKeeps(s: State, e: Event)
    requires Inv(s) && OfBackend(e)
    ensures Inv(Next(s, e))
  {
    BackendStepStays(s, e);
    SameStoreKeeps(s, Next(s, e));
  }

  lemma SwitchStepKeeps(s: State, e: Event)
    requires Inv(s) && e.SwitchTo?
    ensures Inv(Next(s, e))
  {
  }

  /** The newest reload's own steps. */
  lemma OwnStepKeeps(s: State, e: Event)
    requires Inv(s) && Reloading(e) == Some(s.switchId)
    ensures Inv(Next(s, e))
  {
    if s.switchId in s.reloads { assert InCharge(s, s.reloads[s.switchId]); }
    assert Next(s, e) == ReloadNext(s, e);
  }

  /** Only the canvas may change, to one of the current workspace. */
  lemma CanvasStepKeeps(s: State, n: State)
    requires Inv(s)
    requires n.switchId == s.switchId && n.reloads == s.reloads && n.currentId == s.currentId
    requires n.agents == s.agents && n.tasks == s.tasks
    requires n.canvas == s.canvas || (n.canvas.owner.Some? && n.canvas.owner == n.currentId)
    ensures Inv(n)
  {
  }

  lemma ExitStepKeeps(s: State, e: Event)
    requires Inv(s) && e.AgentExited?
    ensures Inv(Next(s, e))
  {
    assert Tree.CloseLeaf(Empty, e.agent) == Empty;
    CanvasStepKeeps(s, Next(s, e));
  }

  lemma DeliveryStepKeeps(s: State, e: Event)
    requires Inv(s) && e.LayoutArrives?
    ensures Inv(Next(s, e))
  {
    if s.inbox != [] {
      var n := Next(s, e);
      assert n == s.(inbox := n.inbox, canvas := n.canvas);
      CanvasStepKeeps(s, n);
    }
  }

  lemma SpawnStepKeeps(s: State, e: Event)
    requires Inv(s) && e.AgentSpawned?
    ensures Inv(Next(s, e))
  {
  }

  lemma StaleStepKeeps(s: State, e: Event)
    requires Inv(s) && Reloading(e).Some? && Reloading(e).value != s.switchId
    ensures Inv(Next(s, e))
  {
    StaleReloadStops(s, e);
  }

  lemma {:induction false} StepKeepsInv(s: State, e: Event)
    requires Inv(s)
    ensures Inv(Next(s, e))
  {
    if e.SwitchTo? {
      SwitchStepKeeps(s, e);
    } else if OfBackend(e) {
      BackendStepKeeps(s, e);
    } else if e.LayoutArrives? {
      DeliveryStepKeeps(s, e);
    } else if e.AgentExited? {
      ExitStepKeeps(s, e);
    } else if e.AgentSpawned? {
      SpawnStepKeeps(s, e);
    } else if Reloading(e) == Some(s.switchId) {
      OwnStepKeeps(s, e);
    } else {
      StaleStepKeeps(s, e);
    }
  }

  /** However many switches overlap and however their awaits interleave with the
      backend's events, the store never mixes two workspaces; and once the newest
      switch completes, everything belongs to its target. */
  lemma {:induction false} NeverMixed(s: State, es: seq<Event>)
    requires Inv(s)
    ensures var t := Run(s, es);
            && OneWorkspace(t) && NewestInCharge(t)
            && (At(t, t.switchId, Completed) ==>
                  var target := t.reloads[t.switchId].target;
                  && t.currentId == Some(target) && t.canvas.owner == Some(target)
                  && (forall a <- t.agents :: t.agents[a] == target)
                  && (forall k <- t.tasks :: t.tasks[k] == target))
  {
    if es != [] {
      NeverMixed(s, es[..|es| - 1]);
      StepKeepsInv(Run(s, es[..|es| - 1]), es[|es| - 1]);
    }
  }

  /** The agents the store should hold: those of the last list loaded, and those spawned
      into the current workspace since. */
  function AgentsLoaded(s: State, es: seq<Event>): set<string> {
    if es == [] then s.agents.Keys
    else
      var init, e := es[..|es| - 1], es[|es| - 1];
      var before := Run(s, init);
      match e
      case GotList(id) => if At(before, id, OnList) && id == before.switchId then {} else AgentsLoaded(s, init)
      case GotAgents(id, list) =>
        if At(before, id, OnAgents) && id == before.switchId then list else AgentsLoaded(s, init)
      case AgentSpawned(agent, workspace) =>
        AgentsLoaded(s, init) + if before.currentId == Some(workspace) then {agent} else {}
      case _ => AgentsLoaded(s, init)
  }

  /** And the tasks: those of the last list loaded. */
  function TasksLoaded(s: State, es: seq<Event>): set<string> {
    if es == [] then s.tasks.Keys
    else
      var init, e := es[..|es| - 1], es[|es| - 1];
      var before := Run(s, init);
      match e
      case GotList(id) => if At(before, id, OnList) && id == before.switchId then {} else TasksLoaded(s, init)
      case GotTasks(id, list) =>
        if At(before, id, OnTasks) && id == before.switchId then list else TasksLoaded(s, init)
      case _ => TasksLoaded(s, init)
  }

  lemma OtherStepLoads(s: State, e: Event)
    requires !e.GotList? && !e.GotAgents? && !e.AgentSpawned?
    ensures Next(s, e).agents == s.agents
    ensures !e.GotTasks? ==> Next(s, e).tasks == s.tasks
  {
    if OfBackend(e) { BackendStepStays(s, e); }
  }

  lemma {:induction false} HoldsAgents(s: State, es: seq<Event>)
    ensures Run(s, es).agents.Keys == AgentsLoaded(s, es)
  {
    if es != [] {
      var before, e := Run(s, es[..|es| - 1]), es[|es| - 1];
      HoldsAgents(s, es[..|es| - 1]);
      if !e.GotList? && !e.GotAgents? && !e.AgentSpawned? { OtherStepLoads(before, e); }
    }
  }

  lemma {:induction false} HoldsTasks(s: State, es: seq<Event>)
    ensures Run(s, es).tasks.Keys == TasksLoaded(s, es)
  {
    if es != [] {
      var before, e := Run(s, es[..|es| - 1]), es[|es| - 1];
      HoldsTasks(s, es[..|es| - 1]);
      if !e.GotList? && !e.GotAgents? && !e.AgentSpawned? { OtherStepLoads(before, e); }
    }
  }

  /** In every run the store holds exactly the agents and tasks it was given. */
  lemma {:induction false} HoldsWhatWasLoaded(s: State, es: seq<Event>)
    ensures Run(s, es).agents.Keys == AgentsLoaded(s, es)
    ensures Run(s, es).tasks.Keys == TasksLoaded(s, es)
  {
    HoldsAgents(s, es);
    HoldsTasks(s, es);
  }

  /** A new reload gets its list and has the backend's answer under way. */
  lemma ReloadEnters(s: State, target: string, live: set<string>)
    requires target in s.saved
    ensures var id := s.switchId + 1;
            var t := Next(Next(Next(s, SwitchTo(target)), GotList(id)), AnswerWorkspace(id, live));
            && At(t, id, OnWorkspace) && t.switchId == id && t.currentId == Some(target)
            && t.reloads[id].target == target && t.reloads[id].answer.Some?
            && t.reloads[id].answer.value.tree == Workspace.Prune(s.saved[target].tree, live)
  {
    var id := s.switchId + 1;
    var s1 := Next(s, SwitchTo(target));
    assert s1 == s.(switchId := id, reloads := s.reloads[id := Reload(target, OnList, None)]);
    var s2 := Next(s1, GotList(id));
    assert s2.reloads == s.reloads[id := Reload(target, OnWorkspace, None)] && s2.saved == s.saved;
    BackendStepStays(s2, AnswerWorkspace(id, live));
  }

  lemma ReloadFinishes(s: State, id: nat, agents: set<string>, tasks: set<string>)
    requires At(s, id, OnWorkspace) && s.switchId == id && s.reloads[id].answer.Some?
    ensures var u := Next(Next(Next(s, GotWorkspace(id)), GotAgents(id, agents)), GotTasks(id, tasks));
            var target := s.reloads[id].target;
            && At(u, id, Completed) && u.switchId == id && u.currentId == s.currentId
            && u.canvas == Shown(target, s.reloads[id].answer.value)
            && u.agents == AllOf(agents, target) && u.tasks == AllOf(tasks, target)
  {
    var r := s.reloads[id];
    var s1 := Next(s, GotWorkspace(id));
    assert s1 == s.(reloads := s.reloads[id := r.(at := OnAgents)], canvas := Shown(r.target, r.answer.value));
    var s2 := Next(s1, GotAgents(id, agents));
    assert s2 == s1.(reloads := s1.reloads[id := r.(at := OnTasks)], agents := AllOf(agents, r.target));
  }

  /** A reload left alone, from any state, loads its workspace in full. */
  lemma ReloadLoads(s: State, target: string, live: set<string>, agents: set<string>, tasks: set<string>)
    requires target in s.saved
    ensures var id := s.switchId + 1;
            var t := Next(Next(Next(s, SwitchTo(target)), GotList(id)), AnswerWorkspace(id, live));
            var u := Next(Next(Next(t, GotWorkspace(id)), GotAgents(id, agents)), GotTasks(id, tasks));
            && At(u, id, Completed) && u.switchId == id && u.currentId == Some(target)
            && u.canvas.tree == Workspace.Prune(s.saved[target].tree, live) && u.canvas.owner == Some(target)
            && u.agents == AllOf(agents, target) && u.tasks == AllOf(tasks, target)
  {
    var id := s.switchId + 1;
    ReloadEnters(s, target, live);
    ReloadFinishes(Next(Next(Next(s, SwitchTo(target)), GotList(id)), AnswerWorkspace(id, live)), id, agents, tasks);
  }

  /** The store starts out empty, and the initial load leaves it with one
      workspace; both are places `NeverMixed` starts from. */
  lemma StartsInOne(saved: map<string, LayoutNode>, cur: string, agents: set<string>)
    requires cur in saved
    ensures Inv(Start(saved))
    ensures Inv(Start(saved).(currentId := Some(cur), agents := AllOf(agents, cur),
                              canvas := Shown(cur, Copy(saved[cur], 0))))
  {
  }
}
