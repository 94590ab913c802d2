/** The PTY supervisor of `agentd/engine.rs`: one reader thread per spawned child
    appends what it reads to the agent's log and publishes it on the shared
    event channel, interleaved with all other threads, spawns and kills. */
module Engine {
  import opened Prelude
  import RustStr

  type Byte = b: int | 0 <= b < 256
  type Bytes = seq<Byte>

  const READ_BUF_SIZE: nat := 8 * 1024

  datatype EngineEvent = Stdout(agent: string, data: Bytes) | Exit(agent: string)

  /** A reader thread: waiting for bytes, between writing the log and publishing,
      past end of file, past the removal of its runtime, or finished. */
  datatype Phase = Reading | Logged(chunk: Bytes) | AtEof | Removed | Finished

  datatype Thread = Thread(agent: string, phase: Phase)

  /** The fields after `runtimes` are history. `inserting` are the threads whose
      spawner has not yet inserted the runtime; `early` those that took it out before
      it was put in. A thread's entry can also go by `kill`, be `evicted` when another
      thread of the same id removes by that id, or be `replaced` by another insert. */
  datatype State = State(
    runtimes: map<string, nat>,
    inserting: set<nat>, early: set<nat>, killed: set<nat>, evicted: set<nat>, replaced: set<nat>,
    threads: map<nat, Thread>, logs: map<string, Bytes>, bus: seq<EngineEvent>, shuttingDown: bool)

  const Initial: State := State(map[], {}, {}, {}, {}, {}, map[], map[], [], false)

  datatype Event =
    | Spawn(thread: nat, agent: string)
    | InsertRuntime(thread: nat)
    | Read(thread: nat, chunk: Bytes)
    | Publish(thread: nat)
    | Eof(thread: nat)
    | RemoveRuntime(thread: nat)
    | SendExit(thread: nat)
    | Kill(agent: string)
    | ShutDown

  predicate In(s: State, t: nat, phase: Phase) {
    t in s.threads && s.threads[t].phase == phase
  }

  function Log(s: State, agent: string): Bytes {
    if agent in s.logs then s.logs[agent] else []
  }

  function Moved(s: State, t: nat, phase: Phase): map<nat, Thread>
    requires t in s.threads
  {
    s.threads[t := s.threads[t].(phase := phase)]
  }

  /** The entry of an agent, unless it is that of thread `t`. */
  function OthersEntry(s: State, agent: string, t: nat): set<nat> {
    if agent in s.runtimes && s.runtimes[agent] != t then {s.runtimes[agent]} else {}
  }

  function Next(s: State, e: Event): State {
    match e
    case Spawn(t, agent) =>
      if t in s.threads || agent in s.runtimes then s
      else s.(threads := s.threads[t := Thread(agent, Reading)], inserting := s.inserting + {t})
    case InsertRuntime(t) =>
      if t !in s.inserting || t !in s.threads then s
      else
        var agent := s.threads[t].agent;
        s.(runtimes := s.runtimes[agent := t], inserting := s.inserting - {t},
           replaced := s.replaced + OthersEntry(s, agent, t))
    case Read(t, chunk) =>
      if !In(s, t, Reading) || chunk == [] || |chunk| > READ_BUF_SIZE then s
      else
        var agent := s.threads[t].agent;
        s.(logs := s.logs[agent := Log(s, agent) + chunk], threads := Moved(s, t, Logged(chunk)))
    case Publish(t) =>
      if t !in s.threads || !s.threads[t].phase.Logged? then s
      else
        s.(bus := s.bus + [Stdout(s.threads[t].agent, s.threads[t].phase.chunk)], threads := Moved(s, t, Reading))
    case Eof(t) => if In(s, t, Reading) then s.(threads := Moved(s, t, AtEof)) else s
    case RemoveRuntime(t) =>
      if !In(s, t, AtEof) then s
      else
        var agent := s.threads[t].agent;
        s.(runtimes := s.runtimes - {agent}, threads := Moved(s, t, Removed),
           early := if t in s.inserting then s.early + {t} else s.early,
           evicted := s.evicted + OthersEntry(s, agent, t))
    case SendExit(t) =>
      if !In(s, t, Removed) then s
      else
        s.(bus := if s.shuttingDown then s.bus else s.bus + [Exit(s.threads[t].agent)],
           threads := Moved(s, t, Finished))
    case Kill(agent) =>
      if agent !in s.runtimes then s
      else s.(runtimes := s.runtimes - {agent}, killed := s.killed + {s.runtimes[agent]})
    case ShutDown => s.(shuttingDown := true)
  }

  function Run(es: seq<Event>): State {
    if es == [] then Initial else Next(Run(es[..|es| - 1]), es[|es| - 1])
  }

  // ---------- the engine object ----------

  datatype SpawnError = BinPathEmpty | UnsafeReuseId

  predicate HasDotDot(id: string) {
    exists i | 0 <= i < |id| - 1 :: id[i] == '.' && id[i + 1] == '.'
  }

  /** Usable as one file name component: the log path is made from it. */
  predicate IsSafeAgentId(id: string) {
    && id != [] && RustStr.ByteLen(id) <= 128 && !HasDotDot(id)
    && forall c <- id :: 'a' <= c <= 'z' || 'A' <= c <= 'Z' || '0' <= c <= '9' || c == '-' || c == '_' || c == '.'
  }

  /** The engine's shared state, one atomic step of a thread per method. */
  class Supervisor {
    var runtimes: map<string, nat>
    ghost var inserting: set<nat>
    ghost var early: set<nat>
    ghost var killed: set<nat>
    ghost var evicted: set<nat>
    ghost var replaced: set<nat>
    var threads: map<nat, Thread>
    var logs: map<string, Bytes>
    var bus: seq<EngineEvent>
    var shuttingDown: bool

    constructor ()
      ensures Snapshot() == Initial
    {
      runtimes, threads, logs, bus, shuttingDown := map[], map[], map[], [], false;
      inserting, early, killed, evicted, replaced := {}, {}, {}, {}, {};
    }

    ghost function Snapshot(): State
      reads this
    {
      State(runtimes, inserting, early, killed, evicted, replaced, threads, logs, bus, shuttingDown)
    }

    /** Refuses a blank program or an unsafe id to reuse; otherwise returns the
        agent's id, having started a reader thread unless the id is hosted already. */
    method Spawn(t: nat, binPath: string, reuseId: Option<string>, freshId: string)
      returns (r: Result<string, SpawnError>)
      requires t !in threads
      modifies this
      ensures r == Err(BinPathEmpty) <==> forall c <- binPath :: RustStr.IsWhitespace(c)
      ensures r == Err(UnsafeReuseId) <==>
                !(forall c <- binPath :: RustStr.IsWhitespace(c)) && reuseId.Some? && !IsSafeAgentId(reuseId.value)
      ensures r.Err? ==> Snapshot() == old(Snapshot())
      ensures r.Ok? ==> r.value == (if reuseId.Some? then reuseId.value else freshId)
                        && Snapshot() == Next(old(Snapshot()), Event.Spawn(t, r.value))
      ensures r.Ok? && r.value in old(runtimes) ==> Snapshot() == old(Snapshot())
      ensures r.Ok? && r.value !in old(runtimes) ==>
                threads == old(threads)[t := Thread(r.value, Reading)] && runtimes == old(runtimes)
    {
      RustStr.TrimIsBlank(binPath);
      if RustStr.Trim(binPath) == [] { return Err(BinPathEmpty); }
      if reuseId.Some? && !IsSafeAgentId(reuseId.value) { return Err(UnsafeReuseId); }
      var agent := if reuseId.Some? then reuseId.value else freshId;
      if agent !in runtimes {
        threads := threads[t := Thread(agent, Reading)];
        inserting := inserting + {t};
      }
      r := Ok(agent);
    }

    /** The spawner's last step; the reader thread is running by then. */
    method Insert(t: nat)
      requires t in threads && t in inserting
      modifies this
      ensures Snapshot() == Next(old(Snapshot()), InsertRuntime(t))
      ensures runtimes == old(runtimes)[threads[t].agent := t] && threads == old(threads)
    {
      var agent := threads[t].agent;
      replaced := replaced + OthersEntry(Snapshot(), agent, t);
      runtimes := runtimes[agent := t];
      inserting := inserting - {t};
    }

    method Kill(agent: string) returns (ok: bool)
      modifies this
      ensures Snapshot() == Next(old(Snapshot()), Event.Kill(agent))
      ensures ok <==> agent in old(runtimes)
      ensures runtimes == old(runtimes) - {agent} && threads == old(threads) && bus == old(bus) && logs == old(logs)
    {
      ok := agent in runtimes;
      if ok {
        killed := killed + {runtimes[agent]};
        runtimes := runtimes - {agent};
      }
    }

    /** Reads one chunk: the log first, the broadcast in a later step. */
    method ReadChunk(t: nat, chunk: Bytes)
      requires In(Snapshot(), t, Reading) && 0 < |chunk| <= 8192
      modifies this
      ensures Snapshot() == Next(old(Snapshot()), Read(t, chunk))
      ensures var agent := threads[t].agent;
              && logs == old(logs)[agent := (if agent in old(logs) then old(logs[agent]) else []) + chunk]
              && threads == old(threads)[t := Thread(agent, Logged(chunk))] && bus == old(bus)
    {
      var agent := threads[t].agent;
      var log := if agent in logs then logs[agent] else [];
      logs := logs[agent := log + chunk];
      threads := threads[t := threads[t].(phase := Logged(chunk))];
    }

    method Broadcast(t: nat)
      requires t in threads && threads[t].phase.Logged?
      modifies this
      ensures Snapshot() == Next(old(Snapshot()), Publish(t))
      ensures bus == old(bus) + [Stdout(threads[t].agent, old(threads[t]).phase.chunk)]
      ensures threads == old(threads)[t := old(threads[t]).(phase := Reading)] && logs == old(logs)
    {
      bus := bus + [Stdout(threads[t].agent, threads[t].phase.chunk)];
      threads := threads[t := threads[t].(phase := Reading)];
    }

    /** A read of nothing, or a failing one. */
    method NoticeEof(t: nat)
      requires In(Snapshot(), t, Reading)
      modifies this
      ensures Snapshot() == Next(old(Snapshot()), Eof(t))
      ensures threads == old(threads)[t := old(threads[t]).(phase := AtEof)]
    {
      threads := threads[t := threads[t].(phase := AtEof)];
    }

    method BeginShutdown()
      modifies this
      ensures Snapshot() == Next(old(Snapshot()), ShutDown) && shuttingDown
    {
      shuttingDown := true;
    }

    /** After the end of file, in two steps: drop the runtime, announce. */
    method Cleanup(t: nat)
      requires In(Snapshot(), t, AtEof)
      modifies this
      ensures Snapshot() == Next(Next(old(Snapshot()), RemoveRuntime(t)), SendExit(t))
      ensures bus == if shuttingDown then old(bus) else old(bus) + [Exit(threads[t].agent)]
      ensures runtimes == old(runtimes) - {threads[t].agent} && logs == old(logs)
      ensures threads == old(threads)[t := old(threads[t]).(phase := Finished)]
    {
      var agent := threads[t].agent;
      evicted := evicted + OthersEntry(Snapshot(), agent, t);
      runtimes := runtimes - {agent};
      if t in inserting { early := early + {t}; }
      threads := threads[t := threads[t].(phase := Removed)];
      assert Snapshot() == Next(old(Snapshot()), RemoveRuntime(t));
      if !shuttingDown { bus := bus + [Exit(agent)]; }
      threads := threads[t := threads[t].(phase := Finished)];
    }

    /** The end of the log, found by seeking. */
    method LogTail(agent: string, maxBytes: nat) returns (buf: Bytes)
      ensures agent !in logs ==> buf == []
      ensures agent in logs ==> |buf| == if maxBytes < |logs[agent]| then maxBytes else |logs[agent]|
      ensures agent in logs ==> buf == logs[agent][|logs[agent]| - |buf|..]
    {
      if agent !in logs { return []; }
      var size := |logs[agent]|;
      var start := if size < maxBytes then 0 else size - maxBytes;
      buf := logs[agent][start..];
    }
  }

  // ---------- what was read ----------

  /** A thread reads this chunk: it is reading, and its buffer is filled in part at least. */
  predicate Reads(s: State, e: Event) {
    e.Read? && In(s, e.thread, Reading) && 0 < |e.chunk| <= 8192
  }

  /** All that the threads of an agent have read, in order. */
  function ReadBy(es: seq<Event>, agent: string): Bytes {
    if es == [] then []
    else
      var init, e := es[..|es| - 1], es[|es| - 1];
      var s := Run(init);
      ReadBy(init, agent) + if Reads(s, e) && s.threads[e.thread].agent == agent then e.chunk else []
  }

  lemma ReadLogs(s: State, e: Event, agent: string)
    ensures Log(Next(s, e), agent)
            == Log(s, agent) + if Reads(s, e) && s.threads[e.thread].agent == agent then e.chunk else []
  {
  }

  /** In every interleaving, an agent's log is what its threads have read, nothing left
      out and nothing added. */
  lemma {:induction false} LogIsWhatWasRead(es: seq<Event>, agent: string)
    ensures Log(Run(es), agent) == ReadBy(es, agent)
  {
    if es != [] {
      LogIsWhatWasRead(es[..|es| - 1], agent);
      ReadLogs(Run(es[..|es| - 1]), es[|es| - 1], agent);
    }
  }

  // ---------- what each agent's subscribers see ----------

  /** The events of one agent. */
  function Of(bus: seq<EngineEvent>, agent: string): seq<EngineEvent> {
    if bus == [] then []
    else if bus[|bus| - 1].agent == agent then Of(bus[..|bus| - 1], agent) + [bus[|bus| - 1]]
    else Of(bus[..|bus| - 1], agent)
  }

  /** The bytes an agent's events carry. */
  function Stream(bus: seq<EngineEvent>, agent: string): Bytes {
    if bus == [] then []
    else
      var e := bus[|bus| - 1];
      var before := Stream(bus[..|bus| - 1], agent);
      if e.Stdout? && e.agent == agent then before + e.data else before
  }

  /** `t` is the only thread ever started for its agent. */
  ghost predicate Sole(s: State, t: nat) {
    t in s.threads && forall u <- s.threads :: s.threads[u].agent == s.threads[t].agent ==> u == t
  }

  ghost predicate Unused(s: State, agent: string) {
    forall u <- s.threads :: s.threads[u].agent != agent
  }

  predicate NoExit(events: seq<EngineEvent>) {
    forall e <- events :: e.Stdout?
  }

  /** Before the exit is sent there is none; afterwards it is the last event. */
  predicate ExitLast(events: seq<EngineEvent>, phase: Phase) {
    if phase.Finished? then
      NoExit(events) || (events != [] && events[|events| - 1].Exit? && NoExit(events[..|events| - 1]))
    else
      NoExit(events)
  }

  function InFlight(phase: Phase): Bytes {
    if phase.Logged? then phase.chunk else []
  }

  ghost predicate Agrees(s: State, t: nat) {
    t in s.threads &&
    var agent := s.threads[t].agent;
    && Stream(s.bus, agent) + InFlight(s.threads[t].phase) == Log(s, agent)
    && ExitLast(Of(s.bus, agent), s.threads[t].phase)
  }

  ghost predicate Inv(s: State) {
    && (forall t <- s.threads :: Sole(s, t) ==> Agrees(s, t))
    && (forall agent :: Unused(s, agent) ==> Silent(s, agent))
  }

  lemma BusGrows(bus: seq<EngineEvent>, e: EngineEvent, agent: string)
    ensures Stream(bus + [e], agent) == Stream(bus, agent) + if e.Stdout? && e.agent == agent then e.data else []
    ensures Of(bus + [e], agent) == Of(bus, agent) + if e.agent == agent then [e] else []
  {
    assert (bus + [e])[..|bus|] == bus;
  }

  /** Threads are never forgotten, so a sole thread was sole before. */
  lemma SoleBefore(s: State, e: Event, t: nat)
    requires Sole(Next(s, e), t)
    ensures t in s.threads ==> Sole(s, t) && s.threads[t].agent == Next(s, e).threads[t].agent
    ensures t !in s.threads ==> e.Spawn? && e.thread == t && Unused(s, e.agent)
                                && Next(s, e).threads == s.threads[t := Thread(e.agent, Reading)]
  {
    var n := Next(s, e);
    assert forall u <- s.threads :: u in n.threads && n.threads[u].agent == s.threads[u].agent;
  }

  lemma PublishAgrees(s: State, u: nat, t: nat)
    requires Agrees(s, t) && Sole(s, t)
    ensures Agrees(Next(s, Publish(u)), t)
  {
    if u in s.threads && s.threads[u].phase.Logged? {
      var e := Stdout(s.threads[u].agent, s.threads[u].phase.chunk);
      var agent := s.threads[t].agent;
      BusGrows(s.bus, e, agent);
      assert e.agent == agent <==> u == t;
      var n := Next(s, Publish(u));
      assert InFlight(n.threads[t].phase) == if u == t then [] else InFlight(s.threads[t].phase);
      assert Of(n.bus, agent) == if u == t then Of(s.bus, agent) + [e] else Of(s.bus, agent);
      assert NoExit(Of(n.bus, agent)) <==> NoExit(Of(s.bus, agent));
    }
  }

  lemma ExitEnds(events: seq<EngineEvent>, e: EngineEvent)
    requires NoExit(events) && e.Exit?
    ensures ExitLast(events + [e], Finished)
  {
    assert (events + [e])[..|events|] == events;
  }

  lemma ExitStep(s: State, u: nat, agent: string)
    requires In(s, u, Removed)
    ensures var n, e := Next(s, SendExit(u)), Exit(s.threads[u].agent);
            && Stream(n.bus, agent) == Stream(s.bus, agent) && n.logs == s.logs
            && n.threads == s.threads[u := s.threads[u].(phase := Finished)]
            && (Of(n.bus, agent) == Of(s.bus, agent)
                || (e.agent == agent && Of(n.bus, agent) == Of(s.bus, agent) + [e]))
  {
    BusGrows(s.bus, Exit(s.threads[u].agent), agent);
  }

  lemma ExitAgrees(s: State, u: nat, t: nat)
    requires Agrees(s, t) && Sole(s, t)
    ensures Agrees(Next(s, SendExit(u)), t)
  {
    if In(s, u, Removed) {
      var agent := s.threads[t].agent;
      ExitStep(s, u, agent);
      assert s.threads[u].agent == agent <==> u == t;
      if u == t { ExitEnds(Of(s.bus, agent), Exit(agent)); }
    }
  }

  lemma ReadAgrees(s: State, u: nat, chunk: Bytes, t: nat)
    requires Agrees(s, t) && Sole(s, t)
    ensures Agrees(Next(s, Read(u, chunk)), t)
  {
    if In(s, u, Reading) { assert s.threads[u].agent == s.threads[t].agent <==> u == t; }
  }

  lemma OtherStepAgrees(s: State, e: Event, t: nat)
    requires Agrees(s, t) && !e.Publish? && !e.SendExit? && !e.Read?
    ensures Agrees(Next(s, e), t)
  {
    var n := Next(s, e);
    assert n.bus == s.bus && n.logs == s.logs && t in n.threads && n.threads[t].agent == s.threads[t].agent;
    assert InFlight(n.threads[t].phase) == InFlight(s.threads[t].phase);
    assert n.threads[t].phase.Finished? <==> s.threads[t].phase.Finished?;
  }

  /** Other threads' steps do not touch a sole thread's agent. */
  lemma {:induction false} StepAgrees(s: State, e: Event, t: nat)
    requires Agrees(s, t) && Sole(s, t)
    ensures Agrees(Next(s, e), t)
  {
    match e
    case Publish(u) => PublishAgrees(s, u, t);
    case SendExit(u) => ExitAgrees(s, u, t);
    case Read(u, chunk) => ReadAgrees(s, u, chunk, t);
    case _ => OtherStepAgrees(s, e, t);
  }

  lemma BusOfOthers(bus: seq<EngineEvent>, e: EngineEvent, agent: string)
    requires e.agent != agent
    ensures Stream(bus + [e], agent) == Stream(bus, agent) && Of(bus + [e], agent) == Of(bus, agent)
  {
    BusGrows(bus, e, agent);
  }

  lemma UnusedBefore(s: State, e: Event, agent: string)
    requires Unused(Next(s, e), agent)
    ensures Unused(s, agent)
  {
    var n := Next(s, e);
    assert forall u <- s.threads :: u in n.threads && n.threads[u].agent == s.threads[u].agent;
  }

  ghost predicate Silent(s: State, agent: string) {
    Log(s, agent) == [] && Stream(s.bus, agent) == [] && Of(s.bus, agent) == []
  }

  lemma StepKeepsSilent(s: State, e: Event, agent: string)
    requires Unused(s, agent) && Silent(s, agent)
    ensures Silent(Next(s, e), agent)
  {
    match e
    case Publish(u) =>
      if u in s.threads && s.threads[u].phase.Logged? {
        BusOfOthers(s.bus, Stdout(s.threads[u].agent, s.threads[u].phase.chunk), agent);
      }
    case SendExit(u) =>
      if In(s, u, Removed) { BusOfOthers(s.bus, Exit(s.threads[u].agent), agent); }
    case _ =>
  }

  lemma {:induction false} RunKeepsInv(es: seq<Event>)
    ensures Inv(Run(es))
  {
    if es != [] {
      var s, e := Run(es[..|es| - 1]), es[|es| - 1];
      RunKeepsInv(es[..|es| - 1]);
      forall t | t in Next(s, e).threads && Sole(Next(s, e), t) ensures Agrees(Next(s, e), t) {
        SoleBefore(s, e, t);
        if t in s.threads { StepAgrees(s, e, t); }
      }
      forall agent | Unused(Next(s, e), agent) ensures Silent(Next(s, e), agent) {
        UnusedBefore(s, e, agent);
        StepKeepsSilent(s, e, agent);
      }
    }
  }

  /** In every interleaving, for an agent id spawned once: its Stdout events
      concatenate to its log but for the chunk in flight, and an Exit is sent at
      most once, after the last Stdout. */
  lemma StreamAndLogAgree(es: seq<Event>, t: nat)
    requires Sole(Run(es), t)
    ensures var s := Run(es);
            var agent, phase := s.threads[t].agent, s.threads[t].phase;
            && Stream(s.bus, agent) + InFlight(phase) == Log(s, agent)
            && ExitLast(Of(s.bus, agent), phase)
            && |InFlight(phase)| <= |Log(s, agent)|
  {
    RunKeepsInv(es);
    assert Agrees(Run(es), t);
  }

  // ---------- ids used again ----------

  predicate Busy(s: State, t: nat, agent: string) {
    t in s.threads && s.threads[t].agent == agent && (s.threads[t].phase.Reading? || s.threads[t].phase.Logged?)
  }

  /** At most one thread of the agent still reads. */
  ghost predicate OneReader(s: State, agent: string) {
    forall t, u :: Busy(s, t, agent) && Busy(s, u, agent) ==> t == u
  }

  /** The agent's children follow one another: none is started under its id before
      the last one's output is read to the end. */
  ghost predicate InTurn(es: seq<Event>, agent: string) {
    forall k | 0 <= k <= |es| :: OneReader(Run(es[..k]), agent)
  }

  ghost predicate StreamSound(s: State, agent: string) {
    && (forall t <- s.threads :: s.threads[t].agent == agent && s.threads[t].phase.Logged? ==>
          Stream(s.bus, agent) + s.threads[t].phase.chunk == Log(s, agent))
    && ((forall t <- s.threads :: s.threads[t].agent == agent ==> !s.threads[t].phase.Logged?) ==>
          Stream(s.bus, agent) == Log(s, agent))
  }

  lemma PublishKeepsStream(s: State, u: nat, agent: string)
    requires StreamSound(s, agent) && OneReader(s, agent)
    ensures StreamSound(Next(s, Publish(u)), agent)
  {
    if u in s.threads && s.threads[u].phase.Logged? {
      var n := Next(s, Publish(u));
      BusGrows(s.bus, Stdout(s.threads[u].agent, s.threads[u].phase.chunk), agent);
      if s.threads[u].agent == agent {
        assert Busy(s, u, agent);
        forall t | t in n.threads && n.threads[t].agent == agent ensures !n.threads[t].phase.Logged? {
          assert n.threads[t].phase.Logged? ==> Busy(s, t, agent);
        }
      } else {
        assert Stream(n.bus, agent) == Stream(s.bus, agent) && n.threads.Keys == s.threads.Keys;
        assert forall t <- s.threads :: s.threads[t].agent == agent ==> n.threads[t] == s.threads[t];
      }
    }
  }

  lemma ReadKeepsStream(s: State, u: nat, chunk: Bytes, agent: string)
    requires StreamSound(s, agent) && OneReader(s, agent)
    ensures StreamSound(Next(s, Read(u, chunk)), agent)
  {
    var n := Next(s, Read(u, chunk));
    if n != s {
      if s.threads[u].agent == agent {
        assert Busy(s, u, agent);
        forall t | t in s.threads && s.threads[t].agent == agent ensures !s.threads[t].phase.Logged? {
          assert s.threads[t].phase.Logged? ==> Busy(s, t, agent);
        }
      } else {
        assert Log(n, agent) == Log(s, agent) && n.threads.Keys == s.threads.Keys;
        assert forall t <- s.threads :: s.threads[t].agent == agent ==> n.threads[t] == s.threads[t];
      }
    }
  }

  lemma OtherStepThreads(s: State, e: Event)
    requires !e.Publish? && !e.Read?
    ensures var n := Next(s, e);
            && n.logs == s.logs && s.threads.Keys <= n.threads.Keys
            && (forall t <- n.threads :: n.threads[t].phase.Logged? ==> t in s.threads && n.threads[t] == s.threads[t])
            && (forall t <- s.threads :: s.threads[t].phase.Logged? ==> n.threads[t] == s.threads[t])
  {
  }

  lemma OtherStepStream(s: State, e: Event, agent: string)
    requires !e.Publish? && !e.Read?
    ensures Stream(Next(s, e).bus, agent) == Stream(s.bus, agent)
  {
    if e.SendExit? && In(s, e.thread, Removed) { BusGrows(s.bus, Exit(s.threads[e.thread].agent), agent); }
  }

  lemma OtherStepKeepsStream(s: State, e: Event, agent: string)
    requires StreamSound(s, agent) && !e.Publish? && !e.Read?
    ensures StreamSound(Next(s, e), agent)
  {
    OtherStepThreads(s, e);
    OtherStepStream(s, e, agent);
    assert Log(Next(s, e), agent) == Log(s, agent);
  }

  /** In every interleaving in which the children of an id follow one another, the
      id's Stdout events, over all of them, concatenate to its log but for the chunk
      in flight. */
  lemma {:induction false} StreamAcrossSpawns(es: seq<Event>, agent: string)
    requires InTurn(es, agent)
    ensures StreamSound(Run(es), agent) && Stream(Run(es).bus, agent) <= Log(Run(es), agent)
  {
    if es != [] {
      var init, e := es[..|es| - 1], es[|es| - 1];
      forall k | 0 <= k <= |init| ensures OneReader(Run(init[..k]), agent) {
        assert init[..k] == es[..k];
      }
      StreamAcrossSpawns(init, agent);
      assert init[..|init|] == init;
      match e
      case Publish(u) => PublishKeepsStream(Run(init), u, agent);
      case Read(u, chunk) => ReadKeepsStream(Run(init), u, chunk, agent);
      case _ => OtherStepKeepsStream(Run(init), e, agent);
    }
  }

  // ---------- overlapping readers ----------

  /** What a thread of the agent has logged and not published yet. */
  function Flight(th: Thread, agent: string): multiset<Byte> {
    if th.agent == agent then multiset(InFlight(th.phase)) else multiset{}
  }

  /** The chunks of all threads of the agent that are in flight. */
  ghost function Flying(threads: map<nat, Thread>, agent: string): multiset<Byte>
    decreases |threads|
  {
    if threads == map[] then multiset{}
    else
      var t :| t in threads;
      FewerThreads(threads, t);
      Flight(threads[t], agent) + Flying(threads - {t}, agent)
  }

  lemma FewerThreads(threads: map<nat, Thread>, t: nat)
    requires t in threads
    ensures |threads - {t}| < |threads|
  {
    assert (threads - {t}).Keys == threads.Keys - {t};
    assert |(threads - {t}).Keys| == |threads - {t}| && |threads.Keys| == |threads|;
  }

  lemma SwapCounts(a: multiset<Byte>, b: multiset<Byte>, c: multiset<Byte>)
    ensures a + (b + c) == b + (a + c)
  {
  }

  lemma SwapRemovals(threads: map<nat, Thread>, t: nat, u: nat)
    ensures threads - {u} - {t} == threads - {t} - {u}
  {
  }

  lemma FlyingPick(threads: map<nat, Thread>, agent: string) returns (u: nat)
    requires threads != map[]
    ensures u in threads && Flying(threads, agent) == Flight(threads[u], agent) + Flying(threads - {u}, agent)
  {
    u :| u in threads && Flying(threads, agent) == Flight(threads[u], agent) + Flying(threads - {u}, agent);
  }

  /** It does not matter which thread is counted first. */
  lemma {:induction false} FlyingApart(threads: map<nat, Thread>, agent: string, t: nat)
    requires t in threads
    ensures Flying(threads, agent) == Flight(threads[t], agent) + Flying(threads - {t}, agent)
    decreases |threads|
  {
    var u := FlyingPick(threads, agent);
    if u != t {
      FewerThreads(threads, t);
      FewerThreads(threads, u);
      FlyingApart(threads - {u}, agent, t);
      FlyingApart(threads - {t}, agent, u);
      SwapRemovals(threads, t, u);
      SwapCounts(Flight(threads[u], agent), Flight(threads[t], agent), Flying(threads - {t} - {u}, agent));
    }
  }

  lemma FlyingUpdate(threads: map<nat, Thread>, agent: string, t: nat, th: Thread)
    ensures Flying(threads[t := th], agent)
            == Flight(th, agent) + Flying(threads - {t}, agent)
    ensures t in threads ==> Flying(threads, agent) == Flight(threads[t], agent) + Flying(threads - {t}, agent)
    ensures t !in threads ==> threads - {t} == threads
  {
    FlyingApart(threads[t := th], agent, t);
    assert threads[t := th] - {t} == threads - {t};
    if t in threads { FlyingApart(threads, agent, t); }
  }

  ghost predicate BytesSound(s: State, agent: string) {
    multiset(Stream(s.bus, agent)) + Flying(s.threads, agent) == multiset(Log(s, agent))
  }

  lemma LogGrows(stream: Bytes, rest: multiset<Byte>, log: Bytes, chunk: Bytes)
    requires multiset(stream) + (multiset{} + rest) == multiset(log)
    ensures multiset(stream) + (multiset(chunk) + rest) == multiset(log + chunk)
  {
    assert multiset(log + chunk) == multiset(log) + multiset(chunk);
  }

  lemma ReadStep(s: State, e: Event, agent: string)
    requires e.Read? && Next(s, e) != s
    ensures var n, t := Next(s, e), e.thread;
            && t in s.threads && n.threads == s.threads[t := s.threads[t].(phase := Logged(e.chunk))]
            && n.bus == s.bus && Flight(s.threads[t], agent) == multiset{}
            && Log(n, agent) == if s.threads[t].agent == agent then Log(s, agent) + e.chunk else Log(s, agent)
  {
  }

  lemma ReadKeepsBytes(s: State, e: Event, agent: string)
    requires BytesSound(s, agent) && e.Read?
    ensures BytesSound(Next(s, e), agent)
  {
    var n, t := Next(s, e), e.thread;
    if n != s {
      ReadStep(s, e, agent);
      FlyingUpdate(s.threads, agent, t, n.threads[t]);
      LogGrows(Stream(s.bus, agent), Flying(s.threads - {t}, agent), Log(s, agent), e.chunk);
    }
  }

  lemma PublishKeepsBytes(s: State, e: Event, agent: string)
    requires BytesSound(s, agent) && e.Publish?
    ensures BytesSound(Next(s, e), agent)
  {
    var n, t := Next(s, e), e.thread;
    if n != s {
      FlyingUpdate(s.threads, agent, t, n.threads[t]);
      assert n.threads == s.threads[t := n.threads[t]];
      BusGrows(s.bus, Stdout(s.threads[t].agent, s.threads[t].phase.chunk), agent);
    }
  }

  /** The thread an event moves. */
  function Mover(e: Event): Option<nat> {
    match e
    case Spawn(t, _) => Some(t)
    case InsertRuntime(_) => None
    case Read(t, _) => Some(t)
    case Publish(t) => Some(t)
    case Eof(t) => Some(t)
    case RemoveRuntime(t) => Some(t)
    case SendExit(t) => Some(t)
    case Kill(_) => None
    case ShutDown => None
  }

  lemma OtherStepMoves(s: State, e: Event)
    requires !e.Publish? && !e.Read?
    ensures var n := Next(s, e);
            && n.logs == s.logs
            && (n.threads == s.threads
                || (Mover(e).Some? && Mover(e).value in n.threads
                    && var t := Mover(e).value;
                    && n.threads == s.threads[t := n.threads[t]] && InFlight(n.threads[t].phase) == []
                    && (t in s.threads ==> InFlight(s.threads[t].phase) == [])))
  {
  }

  lemma OtherStepKeepsBytes(s: State, e: Event, agent: string)
    requires BytesSound(s, agent) && !e.Publish? && !e.Read?
    ensures BytesSound(Next(s, e), agent)
  {
    var n := Next(s, e);
    OtherStepMoves(s, e);
    OtherStepStream(s, e, agent);
    if n.threads != s.threads {
      var t := Mover(e).value;
      FlyingUpdate(s.threads, agent, t, n.threads[t]);
    }
  }

  /** In every interleaving, readers of one id overlapping or not: the bytes of its
      Stdout events and of all chunks in flight are the bytes of its log. */
  lemma {:induction false} OverlapLosesNothing(es: seq<Event>, agent: string)
    ensures BytesSound(Run(es), agent)
  {
    if es != [] {
      var s, e := Run(es[..|es| - 1]), es[|es| - 1];
      OverlapLosesNothing(es[..|es| - 1], agent);
      if e.Read? {
        ReadKeepsBytes(s, e, agent);
      } else if e.Publish? {
        PublishKeepsBytes(s, e, agent);
      } else {
        OtherStepKeepsBytes(s, e, agent);
      }
    }
  }

  // ---------- exits ----------

  function Exits(bus: seq<EngineEvent>, agent: string): nat {
    if bus == [] then 0
    else Exits(bus[..|bus| - 1], agent) + if bus[|bus| - 1] == Exit(agent) then 1 else 0
  }

  ghost function FinishedOf(s: State, agent: string): set<nat> {
    set t | t in s.threads && s.threads[t].agent == agent && s.threads[t].phase.Finished?
  }

  /** One Exit per finished child, but for those that finished while shutting down. */
  ghost predicate ExitsCounted(s: State, agent: string) {
    && Exits(s.bus, agent) <= |FinishedOf(s, agent)|
    && (!s.shuttingDown ==> Exits(s.bus, agent) == |FinishedOf(s, agent)|)
  }

  lemma SendExitExits(s: State, u: nat, agent: string)
    requires In(s, u, Removed)
    ensures Exits(Next(s, SendExit(u)).bus, agent)
            == Exits(s.bus, agent) + if !s.shuttingDown && s.threads[u].agent == agent then 1 else 0
  {
    var e := Exit(s.threads[u].agent);
    assert (s.bus + [e])[..|s.bus|] == s.bus;
  }

  lemma SendExitFinished(s: State, u: nat, agent: string)
    requires In(s, u, Removed)
    ensures var n := Next(s, SendExit(u));
            && u !in FinishedOf(s, agent)
            && FinishedOf(n, agent) == FinishedOf(s, agent) + if s.threads[u].agent == agent then {u} else {}
  {
    var n := Next(s, SendExit(u));
    assert n.threads == s.threads[u := s.threads[u].(phase := Finished)];
  }

  lemma SendExitCounts(s: State, u: nat, agent: string)
    requires ExitsCounted(s, agent)
    ensures ExitsCounted(Next(s, SendExit(u)), agent)
  {
    if In(s, u, Removed) {
      SendExitExits(s, u, agent);
      SendExitFinished(s, u, agent);
    }
  }

  lemma OtherStepExits(s: State, e: Event, agent: string)
    requires !e.SendExit?
    ensures Exits(Next(s, e).bus, agent) == Exits(s.bus, agent)
  {
    if e.Publish? && e.thread in s.threads && s.threads[e.thread].phase.Logged? {
      var event := Stdout(s.threads[e.thread].agent, s.threads[e.thread].phase.chunk);
      assert (s.bus + [event])[..|s.bus|] == s.bus;
    }
  }

  lemma OtherStepFinished(s: State, e: Event, t: nat)
    requires !e.SendExit?
    ensures t in Next(s, e).threads && Next(s, e).threads[t].phase.Finished?
            <==> t in s.threads && s.threads[t].phase.Finished?
    ensures t in s.threads ==> t in Next(s, e).threads && Next(s, e).threads[t].agent == s.threads[t].agent
  {
  }

  lemma OtherStepCounts(s: State, e: Event, agent: string)
    requires ExitsCounted(s, agent) && !e.SendExit?
    ensures ExitsCounted(Next(s, e), agent)
  {
    OtherStepExits(s, e, agent);
    forall t ensures t in FinishedOf(Next(s, e), agent) <==> t in FinishedOf(s, agent) {
      OtherStepFinished(s, e, t);
    }
    assert FinishedOf(Next(s, e), agent) == FinishedOf(s, agent);
  }

  /** However often an id is used again: the Exits sent for it are exactly as many as its
      children have finished, as long as the engine is not shutting down, and never
      more. */
  lemma {:induction false} OneExitPerSpawn(es: seq<Event>, agent: string)
    ensures !Run(es).shuttingDown ==> Exits(Run(es).bus, agent) == |FinishedOf(Run(es), agent)|
    ensures Exits(Run(es).bus, agent) <= |FinishedOf(Run(es), agent)|
    ensures ExitsCounted(Run(es), agent)
  {
    if es != [] {
      var s, e := Run(es[..|es| - 1]), es[|es| - 1];
      OneExitPerSpawn(es[..|es| - 1], agent);
      match e
      case SendExit(u) => SendExitCounts(s, u, agent);
      case _ => OtherStepCounts(s, e, agent);
    }
  }

  // ---------- the runtime map ----------

  predicate Listed(s: State, t: nat)
    requires t in s.threads
  {
    s.threads[t].agent in s.runtimes && s.runtimes[s.threads[t].agent] == t
  }

  predicate Gone(s: State, t: nat)
    requires t in s.threads
  {
    s.threads[t].phase.Removed? || s.threads[t].phase.Finished?
  }

  predicate Displaced(s: State, t: nat) {
    t in s.killed || t in s.evicted || t in s.replaced
  }

  /** When a thread's entry is in the map. */
  predicate EntryInv(s: State, t: nat) {
    t in s.threads ==>
      && (t in s.inserting ==> !Listed(s, t) && !Displaced(s, t) && (Gone(s, t) <==> t in s.early))
      && (t !in s.inserting ==> (Listed(s, t) <==> !Displaced(s, t) && (Gone(s, t) ==> t in s.early)))
      && (t in s.early ==> Gone(s, t))
  }

  /** History and map speak of threads that were started. */
  ghost predicate KnownThreads(s: State) {
    KnownHistory(s) && KnownRuntimes(s)
  }

  ghost predicate KnownHistory(s: State) {
    s.inserting + s.early + s.killed + s.evicted + s.replaced <= s.threads.Keys
  }

  ghost predicate KnownRuntimes(s: State) {
    forall a <- s.runtimes :: s.runtimes[a] in s.threads && s.threads[s.runtimes[a]].agent == a
  }

  lemma ThreadsPersist(s: State, e: Event)
    ensures forall t <- s.threads :: t in Next(s, e).threads && Next(s, e).threads[t].agent == s.threads[t].agent
  {
  }

  lemma HistoryStep(s: State, e: Event)
    requires KnownThreads(s)
    ensures KnownHistory(Next(s, e))
  {
    ThreadsPersist(s, e);
  }

  lemma RuntimesStep(s: State, e: Event)
    requires KnownThreads(s)
    ensures KnownRuntimes(Next(s, e))
  {
    ThreadsPersist(s, e);
  }

  lemma EntryStep(s: State, e: Event, t: nat)
    requires KnownThreads(s) && EntryInv(s, t)
    ensures EntryInv(Next(s, e), t)
  {
    match e
    case RemoveRuntime(u) =>
    case InsertRuntime(u) =>
    case _ =>
  }

  lemma {:induction false} EntryAlways(es: seq<Event>, t: nat)
    ensures KnownThreads(Run(es)) && EntryInv(Run(es), t)
  {
    if es != [] {
      EntryAlways(es[..|es| - 1], t);
      HistoryStep(Run(es[..|es| - 1]), es[|es| - 1]);
      RuntimesStep(Run(es[..|es| - 1]), es[|es| - 1]);
      EntryStep(Run(es[..|es| - 1]), es[|es| - 1], t);
    }
  }

  /** In every interleaving, however often ids are used again: a finished child stays
      listed as live if and only if its reader thread removed the runtime before the
      spawner had inserted it, and nothing displaced the entry since. */
  lemma ListedAfterExit(es: seq<Event>, t: nat)
    requires t in Run(es).threads && t !in Run(es).inserting && Run(es).threads[t].phase.Finished?
    ensures var s := Run(es); Listed(s, t) <==> t in s.early && !Displaced(s, t)
  {
    EntryAlways(es, t);
  }

  /** And a child whose output is still read is unlisted, once inserted, if and only
      if it was killed, another thread of its id removed its runtime by that id, or
      another spawn of the id replaced it. */
  lemma UnlistedWhileAlive(es: seq<Event>, t: nat)
    requires t in Run(es).threads && t !in Run(es).inserting && Busy(Run(es), t, Run(es).threads[t].agent)
    ensures var s := Run(es); !Listed(s, t) <==> t in s.killed || t in s.evicted || t in s.replaced
  {
    EntryAlways(es, t);
  }

  /** The child is not finished, or its runtime not inserted yet. */
  predicate Unsettled(s: State, t: nat, agent: string) {
    t in s.threads && s.threads[t].agent == agent && (t in s.inserting || !s.threads[t].phase.Finished?)
  }

  /** The caller spawns the id again only when its last child has finished and has been
      inserted. */
  ghost predicate OneAfterAnother(es: seq<Event>, agent: string) {
    forall k | 0 <= k < |es| :: Waits(Run(es[..k]), es[k], agent)
  }

  ghost predicate Waits(s: State, e: Event, agent: string) {
    e.Spawn? && e.agent == agent ==> forall t :: !Unsettled(s, t, agent)
  }

  ghost predicate Undisplaced(s: State, agent: string) {
    && (forall t <- s.evicted + s.replaced :: t in s.threads && s.threads[t].agent != agent)
    && (forall t, u :: Unsettled(s, t, agent) && Unsettled(s, u, agent) ==> t == u)
    && (forall t :: Unsettled(s, t, agent) && agent in s.runtimes ==> s.runtimes[agent] == t)
  }

  lemma UnsettledBefore(s: State, e: Event, t: nat, agent: string)
    requires Unsettled(Next(s, e), t, agent)
    ensures Unsettled(s, t, agent) || (e == Event.Spawn(t, agent) && t !in s.threads && agent !in s.runtimes)
  {
  }

  lemma EntriesOfOthers(s: State, e: Event, agent: string, t: nat)
    requires KnownThreads(s) && Undisplaced(s, agent)
    requires t in Next(s, e).evicted + Next(s, e).replaced
    ensures t in s.threads && s.threads[t].agent != agent
  {
    if t !in s.evicted + s.replaced {
      assert e.RemoveRuntime? || e.InsertRuntime?;
      assert Unsettled(s, e.thread, s.threads[e.thread].agent);
    }
  }

  lemma RuntimeStays(s: State, e: Event, agent: string, t: nat)
    requires KnownThreads(s) && Undisplaced(s, agent) && Unsettled(s, t, agent)
    requires agent in Next(s, e).runtimes
    ensures Next(s, e).runtimes[agent] == t
  {
    if e.InsertRuntime? && e.thread in s.inserting && e.thread in s.threads && s.threads[e.thread].agent == agent {
      assert Unsettled(s, e.thread, agent);
    }
  }

  lemma StepUndisplaced(s: State, e: Event, agent: string)
    requires KnownThreads(s) && Undisplaced(s, agent) && Waits(s, e, agent)
    ensures Undisplaced(Next(s, e), agent)
  {
    var n := Next(s, e);
    ThreadsPersist(s, e);
    forall t | t in n.evicted + n.replaced ensures t in n.threads && n.threads[t].agent != agent {
      EntriesOfOthers(s, e, agent, t);
    }
    forall t, u | Unsettled(n, t, agent) && Unsettled(n, u, agent) ensures t == u {
      UnsettledBefore(s, e, t, agent);
      UnsettledBefore(s, e, u, agent);
    }
    forall t | Unsettled(n, t, agent) && agent in n.runtimes ensures n.runtimes[agent] == t {
      UnsettledBefore(s, e, t, agent);
      if Unsettled(s, t, agent) { RuntimeStays(s, e, agent, t); }
    }
  }

  lemma {:induction false} RunUndisplaced(es: seq<Event>, agent: string)
    requires OneAfterAnother(es, agent)
    ensures Undisplaced(Run(es), agent)
  {
    if es != [] {
      var init := es[..|es| - 1];
      forall k | 0 <= k < |init| ensures Waits(Run(init[..k]), init[k], agent) {
        assert init[..k] == es[..k] && Waits(Run(es[..k]), es[k], agent);
      }
      RunUndisplaced(init, agent);
      EntryAlways(init, 0);
      assert Waits(Run(es[..|init|]), es[|init|], agent);
      StepUndisplaced(Run(init), es[|init|], agent);
    }
  }

  /** What a caller can do about it: if an id is spawned again only when its last child
      has finished and been inserted, a child whose output is still read is unlisted,
      once inserted, if and only if it was killed. */
  lemma {:induction false} CarefulSpawns(es: seq<Event>, agent: string, t: nat)
    requires OneAfterAnother(es, agent) && t !in Run(es).inserting && Busy(Run(es), t, agent)
    ensures !Listed(Run(es), t) <==> t in Run(es).killed
    ensures t !in Run(es).evicted && t !in Run(es).replaced
  {
    RunUndisplaced(es, agent);
    EntryAlways(es, t);
  }

  lemma RunSnoc(es: seq<Event>, e: Event)
    ensures Run(es + [e]) == Next(Run(es), e)
  {
    assert (es + [e])[..|es|] == es;
  }

  /** The child ends before its runtime is inserted. */
  lemma EndedEarly()
    ensures Run([Spawn(1, "a"), Eof(1)] + [RemoveRuntime(1)])
            == Initial.(threads := map[1 := Thread("a", Removed)], inserting := {1}, early := {1})
  {
    RunSnoc([], Spawn(1, "a"));
    RunSnoc([Spawn(1, "a")], Eof(1));
    assert [] + [Spawn(1, "a")] == [Spawn(1, "a")] && [Spawn(1, "a")] + [Eof(1)] == [Spawn(1, "a"), Eof(1)];
    assert Run([Spawn(1, "a"), Eof(1)]) == Initial.(threads := map[1 := Thread("a", AtEof)], inserting := {1});
    RunSnoc([Spawn(1, "a"), Eof(1)], RemoveRuntime(1));
  }

  lemma ListedAfterExitHappens()
    ensures var s := Run([Spawn(1, "a"), Eof(1)] + [RemoveRuntime(1)] + [SendExit(1)] + [InsertRuntime(1)]);
            1 in s.threads && s.threads[1].phase.Finished? && Listed(s, 1)
  {
    var es := [Spawn(1, "a"), Eof(1)] + [RemoveRuntime(1)];
    EndedEarly();
    RunSnoc(es, SendExit(1));
    RunSnoc(es + [SendExit(1)], InsertRuntime(1));
  }

  /** A child is killed and its id used again while its thread still reads. */
  lemma KilledAndReused()
    ensures Run([Spawn(1, "a"), InsertRuntime(1), Kill("a")] + [Spawn(2, "a")] + [InsertRuntime(2)])
            == Initial.(runtimes := map["a" := 2], killed := {1},
                        threads := map[1 := Thread("a", Reading), 2 := Thread("a", Reading)])
  {
    var es := [Spawn(1, "a"), InsertRuntime(1), Kill("a")];
    RunSnoc([], Spawn(1, "a"));
    RunSnoc([Spawn(1, "a")], InsertRuntime(1));
    RunSnoc([Spawn(1, "a"), InsertRuntime(1)], Kill("a"));
    assert [] + [Spawn(1, "a")] == [Spawn(1, "a")];
    assert [Spawn(1, "a")] + [InsertRuntime(1)] == [Spawn(1, "a"), InsertRuntime(1)];
    assert [Spawn(1, "a"), InsertRuntime(1)] + [Kill("a")] == es;
    assert Run(es) == Initial.(killed := {1}, threads := map[1 := Thread("a", Reading)]);
    RunSnoc(es, Spawn(2, "a"));
    RunSnoc(es + [Spawn(2, "a")], InsertRuntime(2));
  }

  /** Its thread then reaches the end of file and takes the new child's runtime out. */
  lemma UnlistedWhileAliveHappens()
    ensures var es := [Spawn(1, "a"), InsertRuntime(1), Kill("a")] + [Spawn(2, "a")] + [InsertRuntime(2)];
            var s := Run(es + [Eof(1)] + [RemoveRuntime(1)]);
            2 in s.threads && s.threads[2] == Thread("a", Reading) && 2 in s.evicted && "a" !in s.runtimes
  {
    var es := [Spawn(1, "a"), InsertRuntime(1), Kill("a")] + [Spawn(2, "a")] + [InsertRuntime(2)];
    KilledAndReused();
    RunSnoc(es, Eof(1));
    RunSnoc(es + [Eof(1)], RemoveRuntime(1));
  }
}
