/** The RPC multiplexer of `agentd/client.rs` as a state machine: any number of
    callers share one connection, the read loop hands each response to the
    caller that is waiting for its id, and drops all waiting callers at the end. */
module AgentClient {

  /** The response shapes, one per operation. */
  datatype Shape =
    | Hello | Subscribe | Ping | Spawn | Write | Resize | Kill | List | ListAll
    | LogTail | LastStdoutAge | Detach

  datatype Op = Op(shape: Shape, args: string)

  datatype Body = Answer(shape: Shape, payload: string) | BrokerError(code: string, message: string)

  datatype Response = Response(id: nat, body: Body)

  datatype Outcome =
    | Answered(payload: string) | Broker(code: string, message: string) | Disconnected | UnexpectedShape

  /** What every public method makes of the response to its operation. */
  function Classify(op: Op, body: Body): Outcome {
    match body
    case Answer(shape, payload) => if shape == op.shape then Answered(payload) else UnexpectedShape
    case BrokerError(code, message) => Broker(code, message)
  }

  /** The one-shot channel of a call, seen from its receiving end. */
  datatype Slot = Empty | Filled(response: Response) | SenderDropped

  /** Where a call is: it has its id, it is registered and about to be sent, it
      awaits its channel, it returned, or its future was dropped. */
  datatype Phase = Allocated | Sending | Awaiting | Done(outcome: Outcome) | Abandoned

  datatype Call = Call(id: nat, op: Op, phase: Phase, slot: Slot)

  /** Callers are told apart by a name of their own; ids come from the counter. */
  datatype State = State(
    nextId: nat, pending: map<nat, nat>, calls: map<nat, Call>, writerGone: bool, readerGone: bool)

  datatype Event =
    | Begin(caller: nat, op: Op)
    | Register(caller: nat)
    | SendLine(caller: nat)
    | Await(caller: nat)
    | Abandon(caller: nat)
    | Receive(response: Response)
    | WriterEnds
    | ReaderEnds

  const Initial: State := State(1, map[], map[], false, false)

  predicate At(s: State, c: nat, phase: Phase) {
    c in s.calls && s.calls[c].phase == phase
  }

  function Next(s: State, e: Event): State {
    match e
    case Begin(c, op) =>
      if c in s.calls then s
      else s.(nextId := s.nextId + 1, calls := s.calls[c := Call(s.nextId, op, Allocated, Empty)])
    case Register(c) =>
      if !At(s, c, Allocated) then s
      else s.(pending := s.pending[s.calls[c].id := c], calls := s.calls[c := s.calls[c].(phase := Sending)])
    case SendLine(c) =>
      if !At(s, c, Sending) then s
      else if s.writerGone then
        s.(pending := s.pending - {s.calls[c].id}, calls := s.calls[c := s.calls[c].(phase := Done(Disconnected))])
      else s.(calls := s.calls[c := s.calls[c].(phase := Awaiting)])
    case Await(c) =>
      if !At(s, c, Awaiting) then s
      else
        (match s.calls[c].slot
         case Empty => s
         case Filled(r) => s.(calls := s.calls[c := s.calls[c].(phase := Done(Classify(s.calls[c].op, r.body)))])
         case SenderDropped => s.(calls := s.calls[c := s.calls[c].(phase := Done(Disconnected))]))
    case Abandon(c) =>
      if c in s.calls && !s.calls[c].phase.Done? then s.(calls := s.calls[c := s.calls[c].(phase := Abandoned)]) else s
    case Receive(r) =>
      if s.readerGone || r.id !in s.pending then s
      else
        var c := s.pending[r.id];
        s.(pending := s.pending - {r.id},
           calls := if c in s.calls then s.calls[c := s.calls[c].(slot := Filled(r))] else s.calls)
    case WriterEnds => s.(writerGone := true)
    case ReaderEnds =>
      if s.readerGone then s
      else
        s.(pending := map[], readerGone := true,
           calls := map c | c in s.calls ::
             if c in s.pending.Values then s.calls[c].(slot := SenderDropped) else s.calls[c])
  }

  /** The client object and the channels its callers hold. */
  class Client {
    var nextId: nat
    var pending: map<nat, nat>
    var calls: map<nat, Call>
    var writerGone: bool
    var readerGone: bool

    constructor ()
      ensures Snapshot() == Initial
    {
      nextId, pending, calls, writerGone, readerGone := 1, map[], map[], false, false;
    }

    function Snapshot(): State
      reads this
    {
      State(nextId, pending, calls, writerGone, readerGone)
    }

    /** `fetch_add` on the id counter. */
    method Allocate(c: nat, op: Op) returns (id: nat)
      requires c !in calls
      modifies this
      ensures id == old(nextId) && Snapshot() == Next(old(Snapshot()), Begin(c, op))
      ensures nextId == id + 1 && calls == old(calls)[c := Call(id, op, Allocated, Empty)] && pending == old(pending)
    {
      id := nextId;
      nextId := nextId + 1;
      calls := calls[c := Call(id, op, Allocated, Empty)];
    }

    method Install(c: nat)
      requires At(Snapshot(), c, Allocated)
      modifies this
      ensures Snapshot() == Next(old(Snapshot()), Register(c))
      ensures pending == old(pending)[calls[c].id := c] && calls == old(calls)[c := old(calls[c]).(phase := Sending)]
    {
      pending := pending[calls[c].id := c];
      calls := calls[c := calls[c].(phase := Sending)];
    }

    /** Hands the line to the write loop; if that is gone the entry is taken back. */
    method Transmit(c: nat)
      requires At(Snapshot(), c, Sending)
      modifies this
      ensures Snapshot() == Next(old(Snapshot()), SendLine(c))
      ensures calls == old(calls)[c := old(calls[c]).(phase := if writerGone then Done(Disconnected) else Awaiting)]
      ensures pending == if writerGone then old(pending) - {calls[c].id} else old(pending)
    {
      if writerGone {
        pending := pending - {calls[c].id};
        calls := calls[c := calls[c].(phase := Done(Disconnected))];
      } else {
        calls := calls[c := calls[c].(phase := Awaiting)];
      }
    }

    /** The caller takes what its channel holds. */
    method Return(c: nat) returns (outcome: Outcome)
      requires At(Snapshot(), c, Awaiting) && calls[c].slot != Empty
      modifies this
      ensures Snapshot() == Next(old(Snapshot()), Await(c)) && At(Snapshot(), c, Done(outcome))
      ensures outcome == Disconnected <==> old(calls[c]).slot == SenderDropped
      ensures outcome == UnexpectedShape <==>
                old(calls[c]).slot.Filled? && !Matches(old(calls[c]).op, old(calls[c]).slot.response.body)
      ensures forall payload :: outcome == Answered(payload) <==>
                old(calls[c]).slot.Filled?
                && old(calls[c]).slot.response.body == Answer(old(calls[c]).op.shape, payload)
      ensures forall code, message :: outcome == Broker(code, message) <==>
                old(calls[c]).slot.Filled? && old(calls[c]).slot.response.body == BrokerError(code, message)
    {
      var call := calls[c];
      outcome := match call.slot
        case Filled(r) => Classify(call.op, r.body)
        case _ => Disconnected;
      calls := calls[c := call.(phase := Done(outcome))];
    }

    /** The caller's future is dropped; its entry stays until a response or the end. */
    method Drop(c: nat)
      requires c in calls && !calls[c].phase.Done?
      modifies this
      ensures Snapshot() == Next(old(Snapshot()), Abandon(c))
      ensures calls == old(calls)[c := old(calls[c]).(phase := Abandoned)] && pending == old(pending)
    {
      calls := calls[c := calls[c].(phase := Abandoned)];
    }

    /** The write loop ends, on a failed write for instance. */
    method EndWriter()
      modifies this
      ensures Snapshot() == Next(old(Snapshot()), WriterEnds) && writerGone && pending == old(pending)
    {
      writerGone := true;
    }

    /** One response of the read loop. */
    method Dispatch(r: Response)
      requires !readerGone
      modifies this
      ensures Snapshot() == Next(old(Snapshot()), Receive(r))
      ensures pending == old(pending) - {r.id} && calls.Keys == old(calls.Keys)
      ensures forall c <- calls :: calls[c] ==
                if r.id in old(pending) && old(pending[r.id]) == c then old(calls[c]).(slot := Filled(r))
                else old(calls[c])
    {
      if r.id in pending {
        var c := pending[r.id];
        pending := pending - {r.id};
        if c in calls { calls := calls[c := calls[c].(slot := Filled(r))]; }
      }
    }

    /** The end of the read loop: every registered sender is dropped. */
    method Clear()
      requires !readerGone
      modifies this
      ensures Snapshot() == Next(old(Snapshot()), ReaderEnds)
      ensures pending == map[] && readerGone && calls.Keys == old(calls.Keys)
      ensures forall c <- calls :: calls[c] ==
                if c in old(pending).Values then old(calls[c]).(slot := SenderDropped) else old(calls[c])
    {
      var waiting := pending.Values;
      calls := map c | c in calls :: if c in waiting then calls[c].(slot := SenderDropped) else calls[c];
      pending := map[];
      readerGone := true;
    }
  }

  // ---------- runs against a broker that keeps to its protocol ----------

  function Run(s: State, es: seq<Event>): State {
    if es == [] then s else Next(Run(s, es[..|es| - 1]), es[|es| - 1])
  }

  /** A response matches the operation that was given its id, or is an error. */
  predicate Matches(op: Op, body: Body) {
    body.Answer? ==> body.shape == op.shape
  }

  /** The broker answers each id it was given with the shape of that operation.
      It may answer in any order, late, twice, or for ids nobody knows. */
  ghost predicate Honest(s: State, e: Event) {
    e.Receive? ==> forall c <- s.calls :: s.calls[c].id == e.response.id ==> Matches(s.calls[c].op, e.response.body)
  }

  ghost predicate HonestRun(s: State, es: seq<Event>) {
    forall k | 0 <= k < |es| :: Honest(Run(s, es[..k]), es[k])
  }

  lemma {:induction false} HonestPrefix(s: State, es: seq<Event>)
    requires HonestRun(s, es) && es != []
    ensures HonestRun(s, es[..|es| - 1]) && Honest(Run(s, es[..|es| - 1]), es[|es| - 1])
  {
    var init := es[..|es| - 1];
    forall k | 0 <= k < |init| ensures Honest(Run(s, init[..k]), init[k]) {
      assert init[..k] == es[..k] && init[k] == es[k];
    }
  }

  // ---------- invariant ----------

  /** Ids are below the counter and no two calls ever share one. */
  ghost predicate DistinctIds(s: State) {
    && (forall c <- s.calls :: s.calls[c].id < s.nextId)
    && (forall c <- s.calls, d <- s.calls :: s.calls[c].id == s.calls[d].id ==> c == d)
  }

  /** An entry leads to the call with that id, whose channel is still empty. */
  predicate EntrySound(s: State, id: nat) {
    id in s.pending ==>
      && s.pending[id] in s.calls
      && var call := s.calls[s.pending[id]]; call.id == id && call.slot == Empty && call.phase != Allocated
  }

  ghost predicate PendingSound(s: State) {
    forall id <- s.pending :: EntrySound(s, id)
  }

  /** What one call has received and returned so far: its channel carries its own
      id, and it returns what its channel holds, or a disconnect. */
  predicate CallSound(call: Call) {
    && (call.slot.Filled? ==> call.slot.response.id == call.id)
    && (call.phase.Allocated? ==> call.slot.Empty?)
    && (call.phase.Done? ==>
          || call.phase.outcome == Disconnected
          || (call.slot.Filled? && call.phase.outcome == Classify(call.op, call.slot.response.body)))
  }

  /** What arrived fits the operation. */
  predicate CallMatches(call: Call) {
    call.slot.Filled? ==> Matches(call.op, call.slot.response.body)
  }

  predicate HasEntry(s: State, c: nat) {
    c in s.calls && s.calls[c].id in s.pending && s.pending[s.calls[c].id] == c
  }

  predicate Waits(call: Call) {
    (call.phase.Sending? || call.phase.Awaiting?) && call.slot == Empty
  }

  /** A call still waiting on an empty channel is registered. */
  ghost predicate NoOrphans(s: State) {
    forall c <- s.calls :: Waits(s.calls[c]) ==> HasEntry(s, c)
  }

  ghost predicate Inv(s: State) {
    DistinctIds(s) && PendingSound(s) && NoOrphans(s) && forall c <- s.calls :: CallSound(s.calls[c])
  }

  /** Only `Begin` adds a call; no step changes the id or operation of one. */
  lemma CallsPersist(s: State, e: Event)
    ensures s.nextId <= Next(s, e).nextId && s.calls.Keys <= Next(s, e).calls.Keys
    ensures forall c <- s.calls ::
              Next(s, e).calls[c].id == s.calls[c].id && Next(s, e).calls[c].op == s.calls[c].op
    ensures !e.Begin? ==> Next(s, e).calls.Keys == s.calls.Keys
  {
  }

  lemma StepKeepsIds(s: State, e: Event)
    requires DistinctIds(s)
    ensures DistinctIds(Next(s, e))
  {
    CallsPersist(s, e);
    var t := Next(s, e);
    forall c, d | c in t.calls && d in t.calls
      ensures t.calls[c].id < t.nextId && (t.calls[c].id == t.calls[d].id ==> c == d)
    {
      assert c in s.calls ==> t.calls[c].id == s.calls[c].id;
      assert d in s.calls ==> t.calls[d].id == s.calls[d].id;
    }
  }

  lemma EntryStep(s: State, e: Event, id: nat)
    requires EntrySound(s, id)
    requires e.Register? && At(s, e.caller, Allocated) ==> s.calls[e.caller].slot == Empty
    requires e.Receive? && e.response.id in s.pending && s.pending[e.response.id] in s.calls ==>
               s.calls[s.pending[e.response.id]].id == e.response.id
    ensures EntrySound(Next(s, e), id)
  {
  }

  lemma StepKeepsPending(s: State, e: Event)
    requires PendingSound(s)
    requires forall c <- s.calls :: CallSound(s.calls[c])
    ensures PendingSound(Next(s, e))
  {
    if e.Register? && At(s, e.caller, Allocated) { assert CallSound(s.calls[e.caller]); }
    if e.Receive? && e.response.id in s.pending { assert EntrySound(s, e.response.id); }
    forall id | id in Next(s, e).pending ensures EntrySound(Next(s, e), id) {
      EntryStep(s, e, id);
    }
  }

  lemma EndDropsAll(s: State)
    requires PendingSound(s)
    ensures forall c <- s.calls :: c in s.pending.Values <==> HasEntry(s, c)
    ensures forall c <- s.calls :: c in s.pending.Values ==> s.calls[c].slot == Empty && s.calls[c].phase != Allocated
  {
    forall c | c in s.calls && c in s.pending.Values
      ensures HasEntry(s, c) && s.calls[c].slot == Empty && s.calls[c].phase != Allocated
    {
      var id :| id in s.pending && s.pending[id] == c;
      assert EntrySound(s, id);
    }
  }

  /** One step takes the entry of a call away only with its wait. */
  lemma WaitStep(s: State, e: Event, c: nat)
    requires c in Next(s, e).calls && Waits(Next(s, e).calls[c])
    requires c in s.calls && Waits(s.calls[c]) ==> HasEntry(s, c)
    requires c in s.calls && (e.SendLine? || e.Register?) && e.caller in s.calls && e.caller != c ==>
               s.calls[e.caller].id != s.calls[c].id
    ensures HasEntry(Next(s, e), c)
  {
    if e.ReaderEnds? && HasEntry(s, c) { assert c in s.pending.Values; }
  }

  lemma StepKeepsOrphans(s: State, e: Event)
    requires DistinctIds(s) && NoOrphans(s)
    ensures NoOrphans(Next(s, e))
  {
    forall c | c in Next(s, e).calls && Waits(Next(s, e).calls[c]) ensures HasEntry(Next(s, e), c) {
      WaitStep(s, e, c);
    }
  }

  lemma StepKeepsCalls(s: State, e: Event)
    requires PendingSound(s) && NoOrphans(s)
    requires forall c <- s.calls :: CallSound(s.calls[c])
    ensures forall c <- Next(s, e).calls :: CallSound(Next(s, e).calls[c])
  {
    if e.ReaderEnds? { EndDropsAll(s); }
    if e.Receive? && e.response.id in s.pending { assert EntrySound(s, e.response.id); }
    var t := Next(s, e);
    forall c | c in t.calls ensures CallSound(t.calls[c]) {
      if c in s.calls { assert CallSound(s.calls[c]); }
    }
  }

  lemma StepKeepsMatches(s: State, e: Event)
    requires PendingSound(s) && Honest(s, e)
    requires forall c <- s.calls :: CallMatches(s.calls[c])
    ensures forall c <- Next(s, e).calls :: CallMatches(Next(s, e).calls[c])
  {
    if e.Receive? && e.response.id in s.pending { assert EntrySound(s, e.response.id); }
    var t := Next(s, e);
    forall c | c in t.calls ensures CallMatches(t.calls[c]) {
      if c in s.calls { assert CallMatches(s.calls[c]); }
    }
  }

  lemma {:induction false} StepKeepsInv(s: State, e: Event)
    requires Inv(s)
    ensures Inv(Next(s, e))
  {
    StepKeepsIds(s, e);
    StepKeepsPending(s, e);
    StepKeepsOrphans(s, e);
    StepKeepsCalls(s, e);
    assert forall c <- Next(s, e).calls :: CallSound(Next(s, e).calls[c]);
  }

  lemma {:induction false} RunKeepsInv(s: State, es: seq<Event>)
    requires Inv(s)
    ensures Inv(Run(s, es))
  {
    if es != [] {
      RunKeepsInv(s, es[..|es| - 1]);
      StepKeepsInv(Run(s, es[..|es| - 1]), es[|es| - 1]);
    }
  }

  lemma {:induction false} RunKeepsMatches(es: seq<Event>)
    requires HonestRun(Initial, es)
    ensures forall c <- Run(Initial, es).calls :: CallMatches(Run(Initial, es).calls[c])
  {
    if es != [] {
      HonestPrefix(Initial, es);
      RunKeepsMatches(es[..|es| - 1]);
      RunKeepsInv(Initial, es[..|es| - 1]);
      StepKeepsMatches(Run(Initial, es[..|es| - 1]), es[|es| - 1]);
    }
  }

  // ---------- the theorems ----------

  /** An outcome is the received answer to the call's own id and operation, the
      broker's error for that id, or a disconnect. */
  predicate FitsSlot(call: Call, outcome: Outcome) {
    match outcome
    case Answered(payload) => call.slot == Filled(Response(call.id, Answer(call.op.shape, payload)))
    case Broker(code, message) => call.slot == Filled(Response(call.id, BrokerError(code, message)))
    case Disconnected => true
    case UnexpectedShape => false
  }

  /** With any number of callers and answers in any order: no two calls share an
      id, whatever a caller received carries its own id and fits its operation, an
      answer returned is the one received, and no call ends in `UnexpectedShape`. */
  lemma {:induction false} Correlation(es: seq<Event>)
    requires HonestRun(Initial, es)
    ensures var s := Run(Initial, es);
            && (forall c <- s.calls, d <- s.calls :: s.calls[c].id == s.calls[d].id ==> c == d)
            && forall c <- s.calls ::
                 var call := s.calls[c];
                 && (call.slot.Filled? ==>
                       call.slot.response.id == call.id && Matches(call.op, call.slot.response.body))
                 && (call.phase.Done? ==> FitsSlot(call, call.phase.outcome))
  {
    RunKeepsInv(Initial, es);
    RunKeepsMatches(es);
    var s := Run(Initial, es);
    forall c | c in s.calls ensures CallSound(s.calls[c]) && CallMatches(s.calls[c]) {}
  }

  lemma {:induction false} OpsPersist(s: State, es: seq<Event>, c: nat)
    requires c in s.calls
    ensures c in Run(s, es).calls && Run(s, es).calls[c].op == s.calls[c].op && Run(s, es).calls[c].id == s.calls[c].id
  {
    if es != [] {
      OpsPersist(s, es[..|es| - 1], c);
      CallsPersist(Run(s, es[..|es| - 1]), es[|es| - 1]);
    }
  }

  /** An answer arrives: in any run, once the response to a registered call's id has been
      received, and whatever happens after that, the call's await ends in the payload
      answered or the broker's error, and in `UnexpectedShape` only if the shape is not
      that of its operation. */
  lemma {:induction false} AnswerArrives(es: seq<Event>, c: nat, r: Response, more: seq<Event>)
    requires var s := Run(Initial, es); !s.readerGone && HasEntry(s, c) && s.calls[c].id == r.id
    requires At(Run(Next(Run(Initial, es), Receive(r)), more), c, Awaiting)
    ensures var op := Run(Initial, es).calls[c].op;
            var t := Next(Run(Next(Run(Initial, es), Receive(r)), more), Await(c));
            match r.body
            case Answer(shape, payload) =>
              At(t, c, Done(if shape == op.shape then Answered(payload) else UnexpectedShape))
            case BrokerError(code, message) => At(t, c, Done(Broker(code, message)))
  {
    var s := Run(Initial, es);
    var t := Next(s, Receive(r));
    RunKeepsInv(Initial, es);
    StepKeepsInv(s, Receive(r));
    assert t.calls[c] == s.calls[c].(slot := Filled(r));
    OutcomeIsFinal(t, more, c);
    OpsPersist(t, more, c);
  }

  /** When the read loop ends, exactly the registered senders are dropped. */
  lemma EndDropsExactly(es: seq<Event>, c: nat)
    requires !Run(Initial, es).readerGone && c in Run(Initial, es).calls
    ensures var s := Run(Initial, es);
            && c in Next(s, ReaderEnds).calls
            && Next(s, ReaderEnds).calls[c]
               == if HasEntry(s, c) then s.calls[c].(slot := SenderDropped) else s.calls[c]
  {
    RunKeepsInv(Initial, es);
    EndDropsAll(Run(Initial, es));
  }

  lemma {:induction false} DroppedOnlyAtEnd(es: seq<Event>, c: nat)
    requires c in Run(Initial, es).calls && Run(Initial, es).calls[c].slot == SenderDropped
    ensures Run(Initial, es).readerGone
  {
    if es != [] {
      var s := Run(Initial, es[..|es| - 1]);
      if c in s.calls && s.calls[c].slot == SenderDropped { DroppedOnlyAtEnd(es[..|es| - 1], c); }
    }
  }

  /** In any run, an await ends in a disconnect if and only if its sender was dropped,
      and that happens only when the read loop ends. */
  lemma AwaitDisconnectsIff(es: seq<Event>, c: nat)
    requires At(Run(Initial, es), c, Awaiting)
    ensures var s := Run(Initial, es);
            && (At(Next(s, Await(c)), c, Done(Disconnected)) <==> s.calls[c].slot == SenderDropped)
            && (At(Next(s, Await(c)), c, Awaiting) <==> s.calls[c].slot == Empty)
            && (s.calls[c].slot == SenderDropped ==> s.readerGone)
  {
    if Run(Initial, es).calls[c].slot == SenderDropped { DroppedOnlyAtEnd(es, c); }
  }

  /** The response in a call's channel was received at some step, with the call
      already known under its id and operation. */
  ghost predicate CameIn(es: seq<Event>, k: nat, c: nat, call: Call, r: Response)
    requires k < |es|
  {
    var s := Run(Initial, es[..k]);
    es[k] == Receive(r) && c in s.calls && s.calls[c].id == call.id && s.calls[c].op == call.op
  }

  lemma {:induction false} FilledByReceive(es: seq<Event>, c: nat)
    requires c in Run(Initial, es).calls && Run(Initial, es).calls[c].slot.Filled?
    ensures var call := Run(Initial, es).calls[c];
            exists k | 0 <= k < |es| :: CameIn(es, k, c, call, call.slot.response)
  {
    var n := |es| - 1;
    var s := Run(Initial, es[..n]);
    var call := Run(Initial, es).calls[c];
    CallsPersist(s, es[n]);
    if c in s.calls && s.calls[c].slot == call.slot {
      FilledByReceive(es[..n], c);
      var k :| 0 <= k < n && CameIn(es[..n], k, c, s.calls[c], call.slot.response);
      assert es[..n][..k] == es[..k];
      assert CameIn(es, k, c, call, call.slot.response);
    } else {
      assert CameIn(es, n, c, call, call.slot.response);
    }
  }

  /** The step at which the broker broke its protocol with this response. */
  ghost predicate Broke(es: seq<Event>, k: nat, r: Response)
    requires k < |es|
  {
    es[k] == Receive(r) && !Honest(Run(Initial, es[..k]), es[k])
  }

  lemma {:induction false} CallsOfPrefix(es: seq<Event>, k: nat)
    requires k <= |es|
    ensures Run(Initial, es[..k]).calls.Keys <= Run(Initial, es).calls.Keys
    ensures forall c <- Run(Initial, es[..k]).calls ::
              && Run(Initial, es).calls[c].id == Run(Initial, es[..k]).calls[c].id
              && Run(Initial, es).calls[c].op == Run(Initial, es[..k]).calls[c].op
  {
    if k < |es| {
      assert es[..|es| - 1][..k] == es[..k];
      CallsOfPrefix(es[..|es| - 1], k);
      CallsPersist(Run(Initial, es[..|es| - 1]), es[|es| - 1]);
    } else {
      assert es[..k] == es;
    }
  }

  /** A broken protocol is noticed, and nothing else is taken for one: in any run,
      a caller about to take a response ends in `UnexpectedShape` if and only if
      receiving that response broke the protocol. */
  lemma {:induction false} UnexpectedIffBroken(es: seq<Event>, c: nat)
    requires c in Run(Initial, es).calls
    requires Run(Initial, es).calls[c].phase.Awaiting? && Run(Initial, es).calls[c].slot.Filled?
    ensures var s := Run(Initial, es);
            At(Next(s, Await(c)), c, Done(UnexpectedShape))
            <==> exists k | 0 <= k < |es| :: Broke(es, k, s.calls[c].slot.response)
  {
    var s := Run(Initial, es);
    var call := s.calls[c];
    var r := call.slot.response;
    RunKeepsInv(Initial, es);
    assert CallSound(call);
    if !Matches(call.op, r.body) {
      FilledByReceive(es, c);
      var k :| 0 <= k < |es| && CameIn(es, k, c, call, r);
      assert Broke(es, k, r);
    }
    forall k | 0 <= k < |es| && Broke(es, k, r) ensures !Matches(call.op, r.body) {
      var p := Run(Initial, es[..k]);
      var d :| d in p.calls && p.calls[d].id == r.id && !Matches(p.calls[d].op, r.body);
      CallsOfPrefix(es, k);
      assert s.calls[d].id == call.id;
    }
  }

  lemma FinalStep(s: State, e: Event, c: nat)
    requires PendingSound(s) && c in s.calls
    ensures c in Next(s, e).calls
    ensures s.calls[c].phase.Done? ==> Next(s, e).calls[c].phase == s.calls[c].phase
    ensures s.calls[c].slot != Empty ==> Next(s, e).calls[c].slot == s.calls[c].slot
  {
    if e.ReaderEnds? && c in s.pending.Values {
      var id :| id in s.pending && s.pending[id] == c;
      assert EntrySound(s, id);
    }
    if e.Receive? && e.response.id in s.pending { assert EntrySound(s, e.response.id); }
  }

  /** A caller has at most one outcome, and its channel is written at most once. */
  lemma {:induction false} OutcomeIsFinal(s: State, es: seq<Event>, c: nat)
    requires Inv(s) && c in s.calls
    ensures c in Run(s, es).calls
    ensures s.calls[c].phase.Done? ==> Run(s, es).calls[c].phase == s.calls[c].phase
    ensures s.calls[c].slot != Empty ==> Run(s, es).calls[c].slot == s.calls[c].slot
  {
    if es != [] {
      RunKeepsInv(s, es[..|es| - 1]);
      OutcomeIsFinal(s, es[..|es| - 1], c);
      FinalStep(Run(s, es[..|es| - 1]), es[|es| - 1], c);
    }
  }

  /** A response reaches at most the one call it is for; for an id nobody waits
      for, or whose caller gave up, it changes nothing for anyone else. */
  lemma ResponseDisturbsNobody(s: State, r: Response)
    requires Inv(s)
    ensures Next(s, Receive(r)).calls.Keys == s.calls.Keys
    ensures forall c <- s.calls :: s.calls[c].id != r.id ==> Next(s, Receive(r)).calls[c] == s.calls[c]
    ensures forall id <- s.pending :: id != r.id ==> id in Next(s, Receive(r)).pending
    ensures r.id !in s.pending ==> Next(s, Receive(r)) == s
  {
  }

  ghost predicate Registered(call: Call) {
    !call.phase.Allocated?
  }

  /** Registered before the end of the read loop: no entry any more, and nothing
      left to wait for. */
  ghost predicate Settled(s: State, c: nat) {
    && s.readerGone && c in s.calls && Registered(s.calls[c]) && c !in s.pending.Values
    && !Waits(s.calls[c])
  }

  lemma EndSettles(s: State, c: nat)
    requires Inv(s) && !s.readerGone && c in s.calls && Registered(s.calls[c])
    ensures Settled(Next(s, ReaderEnds), c)
  {
    EndDropsAll(s);
  }

  lemma {:induction false} StaysSettled(s: State, es: seq<Event>, c: nat)
    requires Settled(s, c)
    ensures Settled(Run(s, es), c)
  {
    if es != [] { StaysSettled(s, es[..|es| - 1], c); }
  }

  /** From the end of the read loop on, whatever happens, every call registered by
      then that has not returned yet has its channel resolved, by its answer or by
      the sender being dropped, and the map holds entries of later calls only. */
  lemma {:induction false} DisconnectDrains(es: seq<Event>, more: seq<Event>, c: nat)
    requires !Run(Initial, es).readerGone
    requires c in Run(Initial, es).calls && Registered(Run(Initial, es).calls[c])
    ensures Next(Run(Initial, es), ReaderEnds).pending == map[]
    ensures var t := Run(Next(Run(Initial, es), ReaderEnds), more);
            && c in t.calls && c !in t.pending.Values
            && (t.calls[c].phase.Done? || t.calls[c].phase.Abandoned? || t.calls[c].slot != Empty)
  {
    RunKeepsInv(Initial, es);
    EndSettles(Run(Initial, es), c);
    StaysSettled(Next(Run(Initial, es), ReaderEnds), more, c);
  }

  /** After the read loop has ended nothing fills an empty channel any more. */
  lemma {:induction false} NothingFills(s: State, es: seq<Event>, c: nat)
    requires s.readerGone && c in s.calls && s.calls[c].phase.Awaiting? && s.calls[c].slot == Empty
    ensures var t := Run(s, es);
            && t.readerGone && c in t.calls && t.calls[c].slot == Empty
            && (t.calls[c].phase.Awaiting? || t.calls[c].phase.Abandoned?)
  {
    if es != [] { NothingFills(s, es[..|es| - 1], c); }
  }

  predicate HasReturned(s: State, c: nat) {
    c in s.calls && s.calls[c].phase.Done?
  }

  /** After the read loop has ended, a call that still awaits its response returns
      if its channel is resolved, and waits forever if not. */
  lemma ReturnsIffResolved(s: State, c: nat)
    requires s.readerGone && c in s.calls && s.calls[c].phase.Awaiting?
    ensures (exists es :: HasReturned(Run(s, es), c)) <==> s.calls[c].slot != Empty
  {
    if s.calls[c].slot == Empty {
      forall es ensures !HasReturned(Run(s, es), c) {
        NothingFills(s, es, c);
      }
    } else {
      var es := [Await(c)];
      assert es[..0] == [];
      assert Run(s, es) == Next(s, Await(c));
      assert HasReturned(Run(s, es), c);
    }
  }

  /** A channel empty when the read loop has ended, or opened later, stays empty. */
  lemma {:induction false} StaysEmpty(s: State, es: seq<Event>, c: nat)
    requires s.readerGone && (c in s.calls ==> s.calls[c].slot == Empty)
    ensures Run(s, es).readerGone && (c in Run(s, es).calls ==> Run(s, es).calls[c].slot == Empty)
  {
    if es != [] { StaysEmpty(s, es[..|es| - 1], c); }
  }

  lemma {:induction false} ReaderStaysGone(s: State, es: seq<Event>)
    requires s.readerGone
    ensures Run(s, es).readerGone
  {
    if es != [] { ReaderStaysGone(s, es[..|es| - 1]); }
  }

  lemma EndLeavesUnregistered(s: State, c: nat)
    requires Inv(s) && !s.readerGone && (c in s.calls ==> !Registered(s.calls[c]))
    ensures c in Next(s, ReaderEnds).calls ==> Next(s, ReaderEnds).calls[c].slot == Empty
  {
    EndDropsAll(s);
  }

  /** Who returns after a disconnect: in every run, a call awaiting its response at
      any time after the final clear can still return if and only if it was
      registered before the clear. All others wait forever. */
  lemma {:induction false} ReturnsIffRegistered(es: seq<Event>, more: seq<Event>, c: nat)
    requires !Run(Initial, es).readerGone
    requires At(Run(Next(Run(Initial, es), ReaderEnds), more), c, Awaiting)
    ensures var s, t := Run(Initial, es), Run(Next(Run(Initial, es), ReaderEnds), more);
            (exists f :: HasReturned(Run(t, f), c)) <==> c in s.calls && Registered(s.calls[c])
  {
    var s := Run(Initial, es);
    RunKeepsInv(Initial, es);
    if c in s.calls && Registered(s.calls[c]) {
      DisconnectDrains(es, more, c);
    } else {
      EndLeavesUnregistered(s, c);
    }
    var z := Next(s, ReaderEnds);
    assert z.readerGone;
    ReaderStaysGone(z, more);
    if !(c in s.calls && Registered(s.calls[c])) { StaysEmpty(z, more, c); }
    ReturnsIffResolved(Run(z, more), c);
  }

  /** Every call begun after the final clear: it fails at once if the write loop
      has ended, and otherwise never returns. */
  lemma {:induction false} LateCallHangs(s: State, c: nat, op: Op, f: seq<Event>)
    requires s.readerGone && c !in s.calls
    ensures var u := Next(Next(Next(s, Begin(c, op)), Register(c)), SendLine(c));
            if s.writerGone then At(u, c, Done(Disconnected)) else At(u, c, Awaiting) && !HasReturned(Run(u, f), c)
  {
    var u := Next(Next(Next(s, Begin(c, op)), Register(c)), SendLine(c));
    if !s.writerGone { NothingFills(u, f, c); }
  }
}
