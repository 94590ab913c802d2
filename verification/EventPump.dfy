/** The coalescing event pump of `agent.rs`: a pump task merges the stdout chunks
    of each agent into a pending buffer and handles exits, while a flush task
    drains the buffer and emits one merged event per agent. */
module EventPump {
  import opened Prelude
  import Engine

  type Bytes = Engine.Bytes
  type EngineEvent = Engine.EngineEvent

  datatype UiEvent = StdoutUi(agent: string, data: Bytes) | ExitUi(agent: string)

  /** The pump task: receiving, holding the tail of an exited agent, or about to
      emit its exit event. */
  datatype Pump = Idle | Tail(agent: string, data: Bytes) | Exiting(agent: string)

  /** `batch` is what the flush task has drained and not emitted yet. */
  datatype State = State(
    pending: map<string, Bytes>, batch: map<string, Bytes>, pump: Pump, ui: seq<UiEvent>, received: seq<EngineEvent>)

  const Initial: State := State(map[], map[], Idle, [], [])

  datatype Event =
    | Recv(event: EngineEvent)
    | EmitTail
    | EmitExit
    | Drain
    | EmitBatched(agent: string)

  function Get(m: map<string, Bytes>, agent: string): Bytes {
    if agent in m then m[agent] else []
  }

  function Emit(ui: seq<UiEvent>, agent: string, data: Bytes): seq<UiEvent> {
    if data == [] then ui else ui + [StdoutUi(agent, data)]
  }

  function Next(s: State, e: Event): State {
    match e
    case Recv(event) =>
      if s.pump != Idle then s
      else
        (match event
         case Stdout(agent, data) =>
           s.(pending := s.pending[agent := Get(s.pending, agent) + data], received := s.received + [event])
         case Exit(agent) =>
           s.(pump := Tail(agent, Get(s.pending, agent)), pending := s.pending - {agent},
              received := s.received + [event]))
    case EmitTail =>
      if !s.pump.Tail? then s
      else s.(ui := Emit(s.ui, s.pump.agent, s.pump.data), pump := Exiting(s.pump.agent))
    case EmitExit =>
      if !s.pump.Exiting? then s
      else s.(ui := s.ui + [ExitUi(s.pump.agent)], pump := Idle)
    case Drain =>
      if s.batch != map[] then s
      else s.(batch := s.pending, pending := map[])
    case EmitBatched(agent) =>
      if agent !in s.batch then s
      else s.(ui := Emit(s.ui, agent, s.batch[agent]), batch := s.batch - {agent})
  }

  function Run(s: State, es: seq<Event>): State {
    if es == [] then s else Next(Run(s, es[..|es| - 1]), es[|es| - 1])
  }

  /** The two tasks' shared buffers, one atomic step per method. */
  class Coalescer {
    var pending: map<string, Bytes>
    var batch: map<string, Bytes>
    var pump: Pump
    var ui: seq<UiEvent>
    ghost var received: seq<EngineEvent>

    constructor ()
      ensures Snapshot() == Initial
    {
      pending, batch, pump, ui, received := map[], map[], Idle, [], [];
    }

    ghost function Snapshot(): State
      reads this
    {
      State(pending, batch, pump, ui, received)
    }

    method OnStdout(agent: string, data: Bytes)
      requires pump == Idle
      modifies this
      ensures Snapshot() == Next(old(Snapshot()), Recv(Engine.Stdout(agent, data)))
      ensures pending == old(pending)[agent := (if agent in old(pending) then old(pending[agent]) else []) + data]
      ensures received == old(received) + [Engine.Stdout(agent, data)] && ui == old(ui) && batch == old(batch)
    {
      pending := pending[agent := Get(pending, agent) + data];
      received := received + [Engine.Stdout(agent, data)];
    }

    /** Takes the agent's tail out of the buffer, emits it, then the exit. */
    method OnExit(agent: string)
      requires pump == Idle
      modifies this
      ensures Snapshot() == Next(Next(Next(old(Snapshot()), Recv(Engine.Exit(agent))), EmitTail), EmitExit)
      ensures received == old(received) + [Engine.Exit(agent)] && batch == old(batch) && pump == Idle
      ensures pending == old(pending) - {agent}
      ensures ui == old(ui) + (if agent in old(pending) && old(pending[agent]) != []
                               then [StdoutUi(agent, old(pending[agent]))] else []) + [ExitUi(agent)]
    {
      var tail := Get(pending, agent);
      pending := pending - {agent};
      received := received + [Engine.Exit(agent)];
      if tail != [] { ui := ui + [StdoutUi(agent, tail)]; }
      ui := ui + [ExitUi(agent)];
    }

    method DrainPending()
      requires batch == map[]
      modifies this
      ensures Snapshot() == Next(old(Snapshot()), Drain)
      ensures batch == old(pending) && pending == map[] && ui == old(ui)
    {
      batch, pending := pending, map[];
    }

    method FlushOne(agent: string)
      requires agent in batch
      modifies this
      ensures Snapshot() == Next(old(Snapshot()), EmitBatched(agent))
      ensures batch == old(batch) - {agent} && pending == old(pending)
      ensures ui == old(ui) + if old(batch[agent]) == [] then [] else [StdoutUi(agent, old(batch[agent]))]
    {
      if batch[agent] != [] { ui := ui + [StdoutUi(agent, batch[agent])]; }
      batch := batch - {agent};
    }

    /** One whole turn of the flush task with nothing interleaved: every agent's
        bytes go out in one event, and nothing is held back. */
    method Flush()
      requires batch == map[]
      modifies this
      ensures batch == map[] && pending == map[] && pump == old(pump) && received == old(received)
      ensures forall a :: Emitted(ui, a) == old(Emitted(ui, a)) + Get(old(pending), a)
      ensures |ui| <= |old(ui)| + |old(pending)|
    {
      DrainPending();
      while batch != map[]
        invariant pending == map[] && pump == old(pump) && received == old(received)
        invariant forall a :: Emitted(ui, a) + Get(batch, a) == old(Emitted(ui, a)) + Get(old(pending), a)
        invariant |ui| + |batch| <= |old(ui)| + |old(pending)|
        decreases |batch|
      {
        var agent :| agent in batch;
        ghost var before := ui;
        assert forall a :: Emitted(Emit(ui, agent, batch[agent]), a)
                           == Emitted(ui, a) + if a == agent then batch[agent] else [] by {
          forall a { EmitGrows(ui, agent, batch[agent], a); }
        }
        Smaller(batch, agent);
        FlushOne(agent);
      }
    }
  }

  lemma Smaller(m: map<string, Bytes>, k: string)
    requires k in m
    ensures |m - {k}| == |m| - 1
  {
    assert (m - {k}).Keys == m.Keys - {k};
    assert |m.Keys| == |m| && |(m - {k}).Keys| == |m - {k}|;
  }

  // ---------- what the UI sees of one agent ----------

  function Emitted(ui: seq<UiEvent>, agent: string): Bytes {
    if ui == [] then []
    else
      var e := ui[|ui| - 1];
      var before := Emitted(ui[..|ui| - 1], agent);
      if e.StdoutUi? && e.agent == agent then before + e.data else before
  }

  function Held(p: Pump, agent: string): Bytes {
    if p.Tail? && p.agent == agent then p.data else []
  }

  lemma UiGrows(ui: seq<UiEvent>, e: UiEvent, agent: string)
    ensures Emitted(ui + [e], agent)
            == if e.StdoutUi? && e.agent == agent then Emitted(ui, agent) + e.data else Emitted(ui, agent)
  {
    assert (ui + [e])[..|ui|] == ui;
  }

  lemma EmitGrows(ui: seq<UiEvent>, agent: string, data: Bytes, a: string)
    ensures Emitted(Emit(ui, agent, data), a) == Emitted(ui, a) + if a == agent then data else []
  {
    if data != [] { UiGrows(ui, StdoutUi(agent, data), a); }
  }

  // ---------- what arrives, and the exits ----------

  /** The pump takes an event whenever it is not handling an exit. */
  function Arrivals(es: seq<Event>): seq<EngineEvent> {
    if es == [] then []
    else
      var init, e := es[..|es| - 1], es[|es| - 1];
      Arrivals(init) + if e.Recv? && Run(Initial, init).pump.Idle? then [e.event] else []
  }

  /** Nothing the pump takes is forgotten. */
  lemma {:induction false} AllIsReceived(es: seq<Event>)
    ensures Run(Initial, es).received == Arrivals(es)
  {
    if es != [] { AllIsReceived(es[..|es| - 1]); }
  }

  function UiExits(ui: seq<UiEvent>, agent: string): nat {
    if ui == [] then 0
    else UiExits(ui[..|ui| - 1], agent) + if ui[|ui| - 1] == ExitUi(agent) then 1 else 0
  }

  /** An exit of the agent is being handled. */
  function Handling(p: Pump, agent: string): nat {
    if !p.Idle? && p.agent == agent then 1 else 0
  }

  lemma UiExitsGrow(ui: seq<UiEvent>, e: UiEvent, agent: string)
    ensures UiExits(ui + [e], agent) == UiExits(ui, agent) + if e == ExitUi(agent) then 1 else 0
  {
    assert (ui + [e])[..|ui|] == ui;
  }

  lemma ExitsGrow(received: seq<EngineEvent>, e: EngineEvent, agent: string)
    ensures Engine.Exits(received + [e], agent)
            == Engine.Exits(received, agent) + if e == Engine.Exit(agent) then 1 else 0
  {
    assert (received + [e])[..|received|] == received;
  }

  lemma ExitStep(s: State, e: Event, agent: string)
    requires UiExits(s.ui, agent) + Handling(s.pump, agent) == Engine.Exits(s.received, agent)
    ensures var n := Next(s, e);
            UiExits(n.ui, agent) + Handling(n.pump, agent) == Engine.Exits(n.received, agent)
  {
    match e
    case Recv(event) => if s.pump.Idle? { ExitsGrow(s.received, event, agent); }
    case EmitTail => if s.pump.Tail? { UiExitsGrow(s.ui, StdoutUi(s.pump.agent, s.pump.data), agent); }
    case EmitExit => if s.pump.Exiting? { UiExitsGrow(s.ui, ExitUi(s.pump.agent), agent); }
    case Drain =>
    case EmitBatched(a) => if a in s.batch { UiExitsGrow(s.ui, StdoutUi(a, s.batch[a]), agent); }
  }

  /** In every interleaving the UI is told of each exit received, once, but for the one
      being handled. */
  lemma {:induction false} ExitsReachUi(es: seq<Event>, agent: string)
    ensures var s := Run(Initial, es);
            UiExits(s.ui, agent) + Handling(s.pump, agent) == Engine.Exits(Arrivals(es), agent)
  {
    AllIsReceived(es);
    if es != [] {
      ExitsReachUi(es[..|es| - 1], agent);
      AllIsReceived(es[..|es| - 1]);
      ExitStep(Run(Initial, es[..|es| - 1]), es[|es| - 1], agent);
    }
  }

  // ---------- one agent's share of a step ----------

  /** Where the bytes of one agent are. */
  datatype View = View(emitted: Bytes, batch: Bytes, held: Bytes, pending: Bytes, received: Bytes)

  function ViewOf(s: State, agent: string): View {
    View(Emitted(s.ui, agent), Get(s.batch, agent), Held(s.pump, agent), Get(s.pending, agent),
         Engine.Stream(s.received, agent))
  }

  /** What a step can do to one agent's bytes: nothing, a chunk arrives, the tail
      is taken for an exit or handed out, the buffer is drained or the batch emitted. */
  datatype Move = Stay | Arrive(data: Bytes) | TakeTail | HandOut | ToBatch | FromBatch

  function MoveOf(s: State, e: Event, agent: string): Move {
    match e
    case Recv(event) =>
      if s.pump != Idle || event.agent != agent then Stay
      else if event.Stdout? then Arrive(event.data)
      else TakeTail
    case EmitTail => HandOut
    case EmitExit => Stay
    case Drain => if s.batch == map[] then ToBatch else Stay
    case EmitBatched(a) => if a == agent then FromBatch else Stay
  }

  function Apply(v: View, m: Move): View {
    match m
    case Stay => v
    case Arrive(data) => v.(pending := v.pending + data, received := v.received + data)
    case TakeTail => v.(held := v.pending, pending := [])
    case HandOut => v.(emitted := v.emitted + v.held, held := [])
    case ToBatch => v.(batch := v.pending, pending := [])
    case FromBatch => v.(emitted := v.emitted + v.batch, batch := [])
  }

  lemma {:induction false} StepMoves(s: State, e: Event, agent: string)
    ensures ViewOf(Next(s, e), agent) == Apply(ViewOf(s, agent), MoveOf(s, e, agent))
    ensures MoveOf(s, e, agent).TakeTail? ==> Held(s.pump, agent) == []
    ensures MoveOf(s, e, agent).ToBatch? ==> Get(s.batch, agent) == []
  {
    match e
    case Recv(event) => if s.pump == Idle { Engine.BusGrows(s.received, event, agent); }
    case EmitTail => if s.pump.Tail? { EmitGrows(s.ui, s.pump.agent, s.pump.data, agent); }
    case EmitExit => if s.pump.Exiting? { UiGrows(s.ui, ExitUi(s.pump.agent), agent); }
    case Drain =>
    case EmitBatched(a) => if a in s.batch { EmitGrows(s.ui, a, s.batch[a], agent); }
  }

  // ---------- conservation, unconditionally ----------

  function Everything(v: View): Bytes {
    v.emitted + v.batch + v.held + v.pending
  }

  /** Every byte received is emitted or still held somewhere, exactly once. */
  ghost predicate Conserved(v: View) {
    multiset(v.received) == multiset(Everything(v))
  }

  lemma SwapMiddle(a: Bytes, b: Bytes, c: Bytes, d: Bytes)
    ensures multiset(a + c + b + d) == multiset(a + b + c + d)
  {
    assert multiset(a + b + c + d) == multiset(a) + multiset(b) + multiset(c) + multiset(d);
    assert multiset(a + c + b + d) == multiset(a) + multiset(c) + multiset(b) + multiset(d);
  }

  lemma HandOutConserves(v: View)
    ensures multiset(Everything(Apply(v, HandOut))) == multiset(Everything(v))
  {
    SwapMiddle(v.emitted, v.batch, v.held, v.pending);
    assert Everything(Apply(v, HandOut)) == v.emitted + v.held + v.batch + v.pending;
  }

  lemma ToBatchConserves(v: View)
    requires v.batch == []
    ensures multiset(Everything(Apply(v, ToBatch))) == multiset(Everything(v))
  {
    SwapMiddle(v.emitted, v.held, v.pending, []);
    assert Everything(Apply(v, ToBatch)) == v.emitted + v.pending + v.held + [];
    assert Everything(v) == v.emitted + v.held + v.pending + [];
  }

  lemma ArriveConserves(v: View, data: Bytes)
    requires Conserved(v)
    ensures Conserved(Apply(v, Arrive(data)))
  {
    var all := Everything(v);
    assert Everything(Apply(v, Arrive(data))) == all + data;
    assert multiset(v.received + data) == multiset(all + data);
  }

  lemma OthersConserve(v: View, m: Move)
    requires m.Stay? || (m.TakeTail? && v.held == []) || m.FromBatch?
    ensures Everything(Apply(v, m)) == Everything(v)
  {
  }

  lemma MoveConserves(v: View, m: Move)
    requires Conserved(v)
    requires (m.TakeTail? ==> v.held == []) && (m.ToBatch? ==> v.batch == [])
    ensures Conserved(Apply(v, m))
  {
    match m
    case HandOut => HandOutConserves(v);
    case ToBatch => ToBatchConserves(v);
    case Arrive(data) => ArriveConserves(v, data);
    case _ => OthersConserve(v, m);
  }

  /** Coalescing loses and duplicates nothing, whatever the interleaving and
      however often agents exit and come back. */
  lemma {:induction false} NothingLost(es: seq<Event>, agent: string)
    ensures Conserved(ViewOf(Run(Initial, es), agent))
  {
    if es != [] {
      NothingLost(es[..|es| - 1], agent);
      var s, e := Run(Initial, es[..|es| - 1]), es[|es| - 1];
      StepMoves(s, e, agent);
      MoveConserves(ViewOf(s, agent), MoveOf(s, e, agent));
    }
  }

  // ---------- order ----------

  /** Emitted, then the drained batch, then the held tail, then pending is what
      was received, in order. */
  predicate Ordered(v: View) {
    Everything(v) == v.received
  }

  /** When the tail of an exited agent is emitted, it makes no difference to the bytes
      that a drained batch of it is still to come: none is, or they commute. */
  predicate CleanTail(s: State, e: Event, agent: string) {
    e.EmitTail? && s.pump.Tail? && s.pump.agent == agent ==>
      Get(s.batch, agent) + s.pump.data == s.pump.data + Get(s.batch, agent)
  }

  ghost predicate CleanTails(s: State, es: seq<Event>, agent: string) {
    forall k | 0 <= k < |es| :: CleanTail(Run(s, es[..k]), es[k], agent)
  }

  lemma HandOutOrder(v: View)
    requires Ordered(v)
    ensures Ordered(Apply(v, HandOut)) <==> v.batch + v.held == v.held + v.batch
  {
    var w := Apply(v, HandOut);
    assert Everything(w) == v.emitted + (v.held + v.batch) + v.pending;
    assert Everything(v) == v.emitted + (v.batch + v.held) + v.pending;
    var n, k := |v.emitted|, |v.batch| + |v.held|;
    assert Everything(w)[n..n + k] == v.held + v.batch;
    assert Everything(v)[n..n + k] == v.batch + v.held;
  }

  lemma OtherMoveOrdered(v: View, m: Move)
    requires Ordered(v) && !m.HandOut?
    requires (m.TakeTail? ==> v.held == []) && (m.ToBatch? ==> v.batch == [] && (v.held == [] || v.pending == []))
    ensures Ordered(Apply(v, m))
  {
    var w := Apply(v, m);
    if m.Arrive? {
      assert Everything(w) == Everything(v) + m.data;
    } else {
      assert Everything(w) == Everything(v);
    }
  }

  /** While its exit is handled, nothing new is pending for the agent. */
  predicate QuietExit(s: State, agent: string) {
    !s.pump.Idle? && s.pump.agent == agent ==> Get(s.pending, agent) == []
  }

  lemma StepKeepsQuiet(s: State, e: Event, agent: string)
    requires QuietExit(s, agent)
    ensures QuietExit(Next(s, e), agent)
  {
  }

  /** Which steps keep an agent's bytes in order: all, but for the emission of an exit's
      tail, which does exactly when the batch of the agent then held commutes with it. */
  lemma StepInOrder(s: State, e: Event, agent: string)
    requires Ordered(ViewOf(s, agent)) && QuietExit(s, agent)
    ensures Ordered(ViewOf(Next(s, e), agent)) <==> CleanTail(s, e, agent)
  {
    var v, m := ViewOf(s, agent), MoveOf(s, e, agent);
    StepMoves(s, e, agent);
    if m.HandOut? {
      HandOutOrder(v);
      if !s.pump.Tail? || s.pump.agent != agent { assert v.held == [] && v.batch + [] == [] + v.batch; }
    } else {
      OtherMoveOrdered(v, m);
    }
  }

  lemma {:induction false} AlwaysQuiet(es: seq<Event>, agent: string)
    ensures QuietExit(Run(Initial, es), agent)
  {
    if es != [] {
      AlwaysQuiet(es[..|es| - 1], agent);
      StepKeepsQuiet(Run(Initial, es[..|es| - 1]), es[|es| - 1], agent);
    }
  }

  lemma CleanPrefix(es: seq<Event>, agent: string)
    requires es != [] && CleanTails(Initial, es, agent)
    ensures CleanTails(Initial, es[..|es| - 1], agent)
    ensures CleanTail(Run(Initial, es[..|es| - 1]), es[|es| - 1], agent)
  {
    var init := es[..|es| - 1];
    forall k | 0 <= k < |init| ensures CleanTail(Run(Initial, init[..k]), init[k], agent) {
      assert init[..k] == es[..k] && CleanTail(Run(Initial, es[..k]), es[k], agent);
    }
    assert CleanTail(Run(Initial, es[..|init|]), es[|init|], agent);
  }

  /** In every interleaving in which no tail is emitted ahead of a batch it does not
      commute with (in particular before the agent's first exit), its bytes stay in
      order. */
  lemma {:induction false} OrderKept(es: seq<Event>, agent: string)
    requires CleanTails(Initial, es, agent)
    ensures Ordered(ViewOf(Run(Initial, es), agent))
  {
    if es != [] {
      var s, e := Run(Initial, es[..|es| - 1]), es[|es| - 1];
      CleanPrefix(es, agent);
      OrderKept(es[..|es| - 1], agent);
      AlwaysQuiet(es[..|es| - 1], agent);
      StepInOrder(s, e, agent);
    }
  }

  /** And after such a run the next step keeps the order if and only if it is not such
      an emission. */
  lemma {:induction false} OrderBreaksIff(es: seq<Event>, e: Event, agent: string)
    requires CleanTails(Initial, es, agent)
    ensures Ordered(ViewOf(Next(Run(Initial, es), e), agent)) <==> CleanTail(Run(Initial, es), e, agent)
  {
    OrderKept(es, agent);
    AlwaysQuiet(es, agent);
    StepInOrder(Run(Initial, es), e, agent);
  }

  /** In every interleaving: when the exit event is about to go out, all bytes received
      of the agent are out if and only if the flush task holds none of them. */
  lemma ExitWhileFlushing(es: seq<Event>, agent: string)
    requires Run(Initial, es).pump == Exiting(agent)
    ensures var s := Run(Initial, es);
            && (|Emitted(s.ui, agent)| == |Engine.Stream(s.received, agent)| <==> Get(s.batch, agent) == [])
            && (Get(s.batch, agent) == [] ==>
                  multiset(Emitted(s.ui, agent)) == multiset(Engine.Stream(s.received, agent)))
            && (CleanTails(Initial, es, agent) && Get(s.batch, agent) == [] ==>
                  Emitted(s.ui, agent) == Engine.Stream(s.received, agent))
  {
    var s := Run(Initial, es);
    NothingLost(es, agent);
    AlwaysQuiet(es, agent);
    var v := ViewOf(s, agent);
    assert v.held == [] && v.pending == [];
    assert Everything(v) == v.emitted + v.batch;
    assert |multiset(v.received)| == |multiset(v.emitted + v.batch)|;
    if v.batch == [] { assert Everything(v) == v.emitted; }
    if CleanTails(Initial, es, agent) { OrderKept(es, agent); }
  }

  /** An exit of the agent is being handled and the flush task holds none of it. */
  predicate Exclusive(s: State, agent: string) {
    !s.pump.Idle? && s.pump.agent == agent && Get(s.batch, agent) == [] && Get(s.pending, agent) == []
  }

  lemma StaysExclusive(s: State, e: Event, agent: string)
    requires Exclusive(s, agent) && !e.EmitExit?
    ensures Exclusive(Next(s, e), agent) && CleanTail(s, e, agent)
  {
    if s.pump.Tail? { ConcatNothing(s.pump.data); }
  }

  /** An exit that finds no batch of its agent: while it is handled none appears, and
      the bytes stay in order. */
  lemma {:induction false} NoBatchAppears(s: State, more: seq<Event>, agent: string)
    requires Exclusive(s, agent) && Ordered(ViewOf(s, agent)) && forall e <- more :: !e.EmitExit?
    ensures Exclusive(Run(s, more), agent) && Ordered(ViewOf(Run(s, more), agent))
  {
    if more != [] {
      var init, e := more[..|more| - 1], more[|more| - 1];
      assert e in more;
      NoBatchAppears(s, init, agent);
      StaysExclusive(Run(s, init), e, agent);
      StepInOrder(Run(s, init), e, agent);
    }
  }

  /** If the flush task holds no batch of the agent when its exit arrives, then all
      bytes received are emitted, in order, before the exit event goes out, whatever
      happens in between. */
  lemma ExitWithoutBatch(es: seq<Event>, more: seq<Event>, agent: string)
    requires CleanTails(Initial, es, agent) && forall e <- more :: !e.EmitExit?
    requires Run(Initial, es).pump.Idle? && Get(Run(Initial, es).batch, agent) == []
    ensures var t := Run(Next(Run(Initial, es), Recv(Engine.Exit(agent))), more);
            t.pump == Exiting(agent) ==> Emitted(t.ui, agent) == Engine.Stream(t.received, agent)
  {
    var s, exit := Run(Initial, es), Recv(Engine.Exit(agent));
    OrderKept(es, agent);
    assert CleanTail(s, exit, agent);
    NoBatchAppears(Next(s, exit), more, agent);
    var v := ViewOf(Run(Next(s, exit), more), agent);
    assert v.batch == [] && v.pending == [];
    assert v.held == [] ==> Everything(v) == v.emitted;
  }

  /** Before an agent's first exit every interleaving is in order. */
  lemma {:induction false} OrderKeptBeforeExit(es: seq<Event>, agent: string)
    requires forall k | 0 <= k < |es| :: es[k] != Recv(Engine.Exit(agent))
    ensures var s := Run(Initial, es);
            Emitted(s.ui, agent) + Get(s.batch, agent) + Get(s.pending, agent) == Engine.Stream(s.received, agent)
  {
    forall k | 0 <= k < |es| ensures CleanTail(Run(Initial, es[..k]), es[k], agent) {
      NeverExitingAt(es, k, agent);
    }
    OrderKept(es, agent);
    NeverExiting(es, agent);
    var v := ViewOf(Run(Initial, es), agent);
    assert v.held == [] && Everything(v) == v.emitted + v.batch + v.pending;
  }

  lemma NeverExitingAt(es: seq<Event>, k: nat, agent: string)
    requires k <= |es| && forall i | 0 <= i < |es| :: es[i] != Recv(Engine.Exit(agent))
    ensures Run(Initial, es[..k]).pump.Idle? || Run(Initial, es[..k]).pump.agent != agent
  {
    NeverExiting(es[..k], agent);
  }

  lemma {:induction false} NeverExiting(es: seq<Event>, agent: string)
    requires forall k | 0 <= k < |es| :: es[k] != Recv(Engine.Exit(agent))
    ensures Run(Initial, es).pump.Idle? || Run(Initial, es).pump.agent != agent
  {
    if es != [] {
      NeverExiting(es[..|es| - 1], agent);
    }
  }

  /** The state after an exit has been handled at once. */
  function AfterExit(s: State, agent: string): State {
    Next(Next(Next(s, Recv(Engine.Exit(agent))), EmitTail), EmitExit)
  }

  lemma HandledAtOnce(s: State, agent: string)
    requires s.pump.Idle?
    ensures var v := ViewOf(s, agent);
            ViewOf(AfterExit(s, agent), agent) == View(v.emitted + v.pending, v.batch, [], [], v.received)
  {
    var v := ViewOf(s, agent);
    var s1 := Next(s, Recv(Engine.Exit(agent)));
    StepMoves(s, Recv(Engine.Exit(agent)), agent);
    assert ViewOf(s1, agent) == v.(held := v.pending, pending := []) && s1.pump.Tail?;
    var s2 := Next(s1, EmitTail);
    StepMoves(s1, EmitTail, agent);
    assert ViewOf(s2, agent) == View(v.emitted + v.pending, v.batch, [], [], v.received) && s2.pump.Exiting?;
    StepMoves(s2, EmitExit, agent);
  }

  /** One byte drained, another pending. */
  function HalfFlushed(): State {
    Next(Next(Next(Initial, Recv(Engine.Stdout("a", [1]))), Drain), Recv(Engine.Stdout("a", [2])))
  }

  lemma HalfFlushedView()
    ensures ViewOf(HalfFlushed(), "a") == View([], [1], [], [2], [1, 2])
    ensures HalfFlushed().pump.Idle?
  {
    var x, y := Recv(Engine.Stdout("a", [1])), Recv(Engine.Stdout("a", [2]));
    var s1 := Next(Initial, x);
    StepMoves(Initial, x, "a");
    assert ViewOf(s1, "a") == View([], [], [], [1], [1]);
    StepMoves(s1, Drain, "a");
    var s2 := Next(s1, Drain);
    assert ViewOf(s2, "a") == View([], [1], [], [], [1]);
    StepMoves(s2, y, "a");
  }

  /** Two bytes swap places when an exit meets a half-flushed batch. */
  lemma ExitReorders()
    ensures var s := AfterExit(HalfFlushed(), "a");
            && Emitted(Next(s, EmitBatched("a")).ui, "a") == [2, 1]
            && Engine.Stream(s.received, "a") == [1, 2]
  {
    HalfFlushedView();
    HandledAtOnce(HalfFlushed(), "a");
    var s := AfterExit(HalfFlushed(), "a");
    assert ViewOf(s, "a") == View([2], [1], [], [], [1, 2]);
    StepMoves(s, EmitBatched("a"), "a");
    assert ViewOf(Next(s, EmitBatched("a")), "a") == View([2, 1], [], [], [], [1, 2]);
  }

  // ---------- from the child's output to the UI ----------

  lemma {:induction false} StreamOfPrefix(bus: seq<EngineEvent>, n: nat, agent: string)
    requires n <= |bus|
    ensures Engine.Stream(bus[..n], agent) <= Engine.Stream(bus, agent)
  {
    if n < |bus| {
      assert bus[..|bus| - 1][..n] == bus[..n];
      StreamOfPrefix(bus[..|bus| - 1], n, agent);
    } else {
      assert bus[..n] == bus;
    }
  }

  /** Engine and pump together: if the pump has received the first `n` events of
      the engine's channel, then what the UI shows of an agent whose children follow
      one another is a prefix of its log; and once everything is received and flushed,
      and no chunk is in flight, it is the log. */
  lemma UiShowsPrefixOfLog(engine: seq<Engine.Event>, agent: string, n: nat, es: seq<Event>)
    requires Engine.InTurn(engine, agent) && n <= |Engine.Run(engine).bus|
    requires Run(Initial, es).received == Engine.Run(engine).bus[..n]
    requires CleanTails(Initial, es, agent)
    ensures var s, e := Run(Initial, es), Engine.Run(engine);
            && Emitted(s.ui, agent) <= Engine.Log(e, agent)
            && (n == |e.bus| && s.pending == map[] && s.batch == map[] && s.pump.Idle?
                && (forall t <- e.threads :: e.threads[t].agent == agent ==> !e.threads[t].phase.Logged?) ==>
                  Emitted(s.ui, agent) == Engine.Log(e, agent))
  {
    var s, e := Run(Initial, es), Engine.Run(engine);
    OrderKept(es, agent);
    Engine.StreamAcrossSpawns(engine, agent);
    StreamOfPrefix(e.bus, n, agent);
    assert Emitted(s.ui, agent) <= Engine.Stream(s.received, agent);
    assert n == |e.bus| ==> e.bus[..n] == e.bus;
  }
}
