/** The single worker of `chat_queue_worker.rs` that drains the chat queue, as a
    state machine over its atomic steps, interleaved with senders, cancels,
    session switches, policy changes and crashes. */
module ChatQueueWorker {
  import opened Prelude
  import opened ChatQueue
  import RustStr

  /** Where the worker task is: not started, about to claim, inside a turn, past
      the end of a drain but not parked yet, waiting on the notification, or
      notified but not scheduled yet. */
  datatype Phase = Down | Claiming | Turn(item: Row) | Leaving | Parked | Notified

  datatype State = State(rows: seq<Row>, session: string, continueOnError: bool, permit: bool, phase: Phase)

  datatype Event =
    | Send(to: string, text: string, attachments: seq<string>, id: string, now: string)
    | Poke(sender: string)
    | CancelItem(target: string)
    | SwitchSession(next: string)
    | SetPolicy(on: bool)
    | Claim
    | ClaimErr
    | TurnOk
    | TurnErr
    | Park
    | Resume
    | Crash
    | Start

  function NextState(s: State, e: Event): State {
    match e
    case Send(to, text, attachments, id, now) =>
      (match Accept(s.rows, to, text, attachments, id, now)
       case Ok(item) => s.(rows := s.rows + [item])
       case Err(_) => s)
    case Poke(_) => if s.phase.Parked? then s.(phase := Notified) else s.(permit := true)
    case CancelItem(id) => s.(rows := Delete(s.rows, id, false))
    case SwitchSession(next) => s.(session := next)
    case SetPolicy(on) => s.(continueOnError := on)
    case Claim =>
      if !s.phase.Claiming? then s
      else (match Head(s.rows, s.session)
            case None => s.(phase := Leaving)
            case Some(h) => s.(rows := Claimed(s.rows, s.session), phase := Turn(h.(status := Processing))))
    case ClaimErr => if s.phase.Claiming? then s.(phase := Leaving) else s
    case TurnOk =>
      if !s.phase.Turn? then s
      else s.(rows := Delete(s.rows, s.phase.item.id, true), phase := Claiming)
    case TurnErr =>
      if !s.phase.Turn? then s
      else s.(rows := Delete(s.rows, s.phase.item.id, true), phase := if s.continueOnError then Claiming else Leaving)
    case Park =>
      if !s.phase.Leaving? then s
      else if s.permit then s.(permit := false, phase := Claiming)
      else s.(phase := Parked)
    case Resume => if s.phase.Notified? then s.(phase := Claiming) else s
    case Crash => s.(permit := false, phase := Down)
    case Start => if s.phase.Down? then s.(rows := Recovered(s.rows), phase := Claiming) else s
  }

  /** The worker object: the queue it drains, the stored permit and its place in
      the loop. The session is the one its next claim resolves to. */
  class Worker {
    const queue: Queue
    var session: string
    var continueOnError: bool
    var permit: bool
    var phase: Phase

    constructor (queue: Queue, session: string, continueOnError: bool)
      ensures this.queue == queue
      ensures Snapshot() == State(queue.rows, session, continueOnError, false, Down)
    {
      this.queue, this.session, this.continueOnError := queue, session, continueOnError;
      permit, phase := false, Down;
    }

    function Snapshot(): State
      reads this, queue
    {
      State(queue.rows, session, continueOnError, permit, phase)
    }

    /** One waiter is woken directly; without one the permit is stored, once. */
    method WakeUp(sender: string)
      modifies this
      ensures Snapshot() == NextState(old(Snapshot()), Poke(sender))
      ensures old(phase).Parked? ==> phase == Notified && permit == old(permit)
      ensures !old(phase).Parked? ==> phase == old(phase) && permit
    {
      if phase.Parked? { phase := Notified; } else { permit := true; }
    }

    /** Start-up: roll back what the previous run left in flight. */
    method Spawn()
      requires phase.Down?
      modifies this, queue
      ensures Snapshot() == NextState(old(Snapshot()), Start)
      ensures phase == Claiming && SameButStatus(old(queue.rows), queue.rows)
      ensures forall r <- queue.rows :: r.status == Queued
    {
      var _ := queue.RecoverInflight();
      phase := Claiming;
    }

    /** One claim of the drain loop. */
    method ClaimStep()
      requires phase.Claiming?
      modifies this, queue
      ensures Snapshot() == NextState(old(Snapshot()), Claim)
      ensures match Head(old(queue.rows), session)
              case None => phase == Leaving && queue.rows == old(queue.rows)
              case Some(h) => phase == Turn(h.(status := Processing))
    {
      var claimed := queue.ClaimNext(session);
      match claimed
      case Some(item) => phase := Turn(item);
      case None => phase := Leaving;
    }

    /** A claim that fails, because no session resolves for instance, ends the
        drain under either error policy. */
    method ClaimFails()
      requires phase.Claiming?
      modifies this
      ensures Snapshot() == NextState(old(Snapshot()), ClaimErr)
      ensures phase == Leaving && permit == old(permit) && session == old(session)
    {
      phase := Leaving;
    }

    /** The end of a turn, with or without an error. */
    method FinishTurn(ok: bool)
      requires phase.Turn?
      modifies this, queue
      ensures Snapshot() == NextState(old(Snapshot()), if ok then TurnOk else TurnErr)
      ensures phase == (if ok || continueOnError then Claiming else Leaving) && permit == old(permit)
      ensures TakesOut(old(queue.rows), queue.rows, old(phase).item.id, true)
    {
      if ok {
        queue.MarkDone(phase.item.id);
        phase := Claiming;
      } else {
        queue.MarkFailed(phase.item.id);
        phase := if continueOnError then Claiming else Leaving;
      }
    }

    /** Waiting for the notification consumes a stored permit, else parks. */
    method ParkStep()
      requires phase.Leaving?
      modifies this
      ensures Snapshot() == NextState(old(Snapshot()), Park)
      ensures phase == (if old(permit) then Claiming else Parked) && !permit
    {
      if permit {
        permit := false;
        phase := Claiming;
      } else {
        phase := Parked;
      }
    }

    /** The error policy, read at the end of each failed turn, is to continue unless the
        setting is `false` in any case. */
    method SetErrorPolicy(setting: Option<string>)
      modifies this`continueOnError
      ensures Snapshot() == NextState(old(Snapshot()), SetPolicy(continueOnError))
      ensures !continueOnError <==>
                && setting.Some? && |setting.value| == 5
                && forall i | 0 <= i < 5 :: setting.value[i] == "false"[i] || setting.value[i] == "FALSE"[i]
    {
      continueOnError := setting.None? || |setting.value| != 5 || exists i | 0 <= i < 5 ::
        setting.value[i] != "false"[i] && setting.value[i] != "FALSE"[i];
    }

    /** The notified worker is scheduled. */
    method Wake()
      requires phase.Notified?
      modifies this
      ensures Snapshot() == NextState(old(Snapshot()), Resume)
      ensures phase == Claiming && permit == old(permit)
    {
      phase := Claiming;
    }

    /** One round of the drain loop: claim, run the turn, finish. */
    method DrainRound(succeeds: string -> bool)
      requires phase.Claiming? && Quiet(queue.rows)
      modifies this, queue
      ensures Snapshot() == Round(old(Snapshot()), succeeds)
      ensures phase.Claiming? || phase.Leaving?
      ensures session == old(session) && continueOnError == old(continueOnError) && permit == old(permit)
      ensures Quiet(queue.rows) && SameElsewhere(old(queue.rows), queue.rows, session)
      ensures var q := old(Of(queue.rows, session));
              && Of(queue.rows, session) == (if q == [] then [] else q[1..])
              && (phase.Claiming? <==> q != [] && (succeeds(q[0].id) || continueOnError))
    {
      RoundServes(Snapshot(), succeeds);
      ClaimStep();
      if phase.Leaving? { return; }
      FinishTurn(succeeds(phase.item.id));
    }

    /** The whole drain loop with nothing interleaved: it works through the
        session from the head, and leaves early only after a failed turn under
        the stop-on-error policy. `succeeds` is the outcome of each message's turn. */
    method DrainOnce(succeeds: string -> bool)
      requires phase.Claiming? && Quiet(queue.rows)
      modifies this, queue
      ensures Snapshot() == DrainFrom(old(Snapshot()), succeeds)
      ensures phase.Leaving? && Quiet(queue.rows)
      ensures Of(queue.rows, session) == Drained(old(Of(queue.rows, session)), succeeds, continueOnError)
      ensures SameElsewhere(old(queue.rows), queue.rows, session)
      ensures session == old(session) && continueOnError == old(continueOnError) && permit == old(permit)
    {
      DrainServes(Snapshot(), succeeds);
      while true
        invariant phase.Claiming? && Quiet(queue.rows)
        invariant DrainFrom(Snapshot(), succeeds) == DrainFrom(old(Snapshot()), succeeds)
        decreases |Of(queue.rows, session)|
      {
        DrainRound(succeeds);
        if phase.Leaving? { break; }
      }
    }
  }

  /** A sound table with no turn in flight. */
  ghost predicate Quiet(rows: seq<Row>) {
    Valid(rows) && AllQueued(rows)
  }

  ghost predicate SameElsewhere(before: seq<Row>, after: seq<Row>, session: string) {
    forall s | s != session :: Of(after, s) == Of(before, s)
  }

  /** What a drain leaves of a session's messages. */
  function Drained(q: seq<Row>, succeeds: string -> bool, continueOnError: bool): seq<Row> {
    if q == [] then []
    else if succeeds(q[0].id) || continueOnError then Drained(q[1..], succeeds, continueOnError)
    else q[1..]
  }

  /** Claiming and finishing takes the head of the session and nothing else. */
  lemma OneTurn(rows: seq<Row>, session: string)
    requires Quiet(rows)
    ensures Head(rows, session).None? <==> Of(rows, session) == []
    ensures Head(rows, session).Some? ==>
              var h := Head(rows, session).value;
              var b := Delete(Claimed(rows, session), h.id, true);
              && Quiet(b) && SameElsewhere(rows, b, session)
              && Of(rows, session)[0] == h && Of(b, session) == Of(rows, session)[1..]
  {
    HeadIsFirstQueued(rows, session);
    if Head(rows, session).None? {
      OfNone(rows, session);
    } else {
      var h := Head(rows, session).value;
      OfMember(rows, session, h);
      var k := ClaimMarksHead(rows, session);
      var c := Claimed(rows, session);
      ClaimValid(rows, session);
      assert c == rows[k := c[k]];
      DeleteAt(c, k, true);
      GapValid(c, k);
      assert Gap(c, k) == Gap(rows, k);
      forall r | r in Gap(rows, k) ensures r in rows {}
      forall i | 0 <= i < k ensures rows[i].session != session { assert rows[i] in rows; }
      OutOfSession(rows, k, session);
      forall s | s != session ensures Of(Gap(rows, k), s) == Of(rows, s) {
        OutOfSession(rows, k, s);
      }
    }
  }

  /** A claim and, if it found a message, the end of its turn. */
  function Round(s: State, succeeds: string -> bool): State {
    var c := NextState(s, Claim);
    if c.phase.Turn? then NextState(c, if succeeds(c.phase.item.id) then TurnOk else TurnErr) else c
  }

  /** A round removes the oldest message of the session and nothing else, and the
      next round follows unless there was none or its failure stops the drain. */
  lemma RoundServes(s: State, succeeds: string -> bool)
    requires s.phase.Claiming? && Quiet(s.rows)
    ensures var q, f := Of(s.rows, s.session), Round(s, succeeds);
            && f.session == s.session && f.continueOnError == s.continueOnError && f.permit == s.permit
            && Quiet(f.rows) && SameElsewhere(s.rows, f.rows, s.session)
            && Of(f.rows, s.session) == (if q == [] then [] else q[1..])
            && (f.phase.Claiming? || f.phase.Leaving?)
            && (f.phase.Claiming? <==> q != [] && (succeeds(q[0].id) || s.continueOnError))
  {
    OneTurn(s.rows, s.session);
  }

  /** Rounds until the drain ends, with nothing interleaved. */
  ghost function DrainFrom(s: State, succeeds: string -> bool): State
    requires s.phase.Claiming? && Quiet(s.rows)
    decreases |Of(s.rows, s.session)|
  {
    RoundServes(s, succeeds);
    var f := Round(s, succeeds);
    if f.phase.Claiming? then DrainFrom(f, succeeds) else f
  }

  lemma {:induction false} DrainServes(s: State, succeeds: string -> bool)
    requires s.phase.Claiming? && Quiet(s.rows)
    ensures var d := DrainFrom(s, succeeds);
            && d.phase.Leaving? && Quiet(d.rows) && SameElsewhere(s.rows, d.rows, s.session)
            && d.session == s.session && d.continueOnError == s.continueOnError && d.permit == s.permit
            && Of(d.rows, s.session) == Drained(Of(s.rows, s.session), succeeds, s.continueOnError)
    decreases |Of(s.rows, s.session)|
  {
    RoundServes(s, succeeds);
    if Round(s, succeeds).phase.Claiming? { DrainServes(Round(s, succeeds), succeeds); }
  }

  lemma {:induction false} DrainedSuffix(q: seq<Row>, succeeds: string -> bool, continueOnError: bool)
    ensures continueOnError || (forall r <- q :: succeeds(r.id)) ==> Drained(q, succeeds, continueOnError) == []
  {
    if q != [] {
      DrainedSuffix(q[1..], succeeds, continueOnError);
      assert q[0] in q && forall r <- q[1..] :: r in q;
    }
  }

  // ---------- whole runs ----------

  /** How the last drain ended. */
  datatype Drain = NotYet | Emptied(session: string) | StoppedOnError | ClaimFailed

  /** What has happened so far: the messages accepted and finished, in order and
      as they were sent, the ids cancelled, and the senders between their enqueue
      and their poke. Turns are counted by id as they start and as a crash cuts
      them off. */
  datatype Log = Log(
    accepted: seq<Row>, finished: seq<Row>, cancelled: set<string>, unpoked: set<string>, drain: Drain,
    started: multiset<string>, interrupted: multiset<string>)

  datatype World = World(state: State, log: Log)

  /** The message of the turn in progress. */
  function InTurn(p: Phase): multiset<string> {
    if p.Turn? then multiset{p.item.id} else multiset{}
  }

  function NextLog(s: State, g: Log, e: Event): Log {
    match e
    case Send(to, text, attachments, id, now) =>
      (match Accept(s.rows, to, text, attachments, id, now)
       case Ok(item) => g.(accepted := g.accepted + [item], unpoked := g.unpoked + {id})
       case Err(_) => g)
    case Poke(sender) => g.(unpoked := g.unpoked - {sender})
    case CancelItem(id) =>
      if exists r <- s.rows :: r.id == id && r.status == Queued then g.(cancelled := g.cancelled + {id}) else g
    case Claim =>
      if !s.phase.Claiming? then g
      else (match Head(s.rows, s.session)
            case None => g.(drain := Emptied(s.session))
            case Some(h) => g.(started := g.started + multiset{h.id}))
    case ClaimErr => if s.phase.Claiming? then g.(drain := ClaimFailed) else g
    case TurnOk =>
      if s.phase.Turn? then g.(finished := g.finished + [s.phase.item.(status := Queued)]) else g
    case TurnErr =>
      if !s.phase.Turn? then g
      else g.(finished := g.finished + [s.phase.item.(status := Queued)],
              drain := if s.continueOnError then g.drain else StoppedOnError)
    case Crash => g.(unpoked := {}, interrupted := g.interrupted + InTurn(s.phase))
    case _ => g
  }

  /** Ids are fresh, and only a sender that has enqueued and not poked pokes. */
  predicate Possible(g: Log, e: Event) {
    match e
    case Send(_, _, _, id, _) => forall r <- g.accepted :: r.id != id
    case Poke(sender) => sender in g.unpoked
    case _ => true
  }

  function Step(w: World, e: Event): World {
    if Possible(w.log, e) then World(NextState(w.state, e), NextLog(w.state, w.log, e)) else w
  }

  function Run(w: World, es: seq<Event>): World {
    if es == [] then w else Step(Run(w, es[..|es| - 1]), es[|es| - 1])
  }

  function Boot(session: string, continueOnError: bool): World {
    World(State([], session, continueOnError, false, Down), Log([], [], {}, {}, NotYet, multiset{}, multiset{}))
  }

  // ---------- the table over whole runs ----------

  ghost predicate OneProcessing(rows: seq<Row>) {
    forall i, j | 0 <= i < j < |rows| :: rows[i].status == Queued || rows[j].status == Queued
  }

  ghost predicate AllQueued(rows: seq<Row>) {
    forall r <- rows :: r.status == Queued
  }

  ghost predicate TableInv(s: State) {
    && Valid(s.rows) && OneProcessing(s.rows)
    && (s.phase.Turn? ==> s.phase.item in s.rows && s.phase.item.status == Processing)
    && (!s.phase.Turn? && !s.phase.Down? ==> AllQueued(s.rows))
  }

  lemma {:induction false} DeleteShrinks(rows: seq<Row>, id: string, any: bool)
    ensures forall r <- Delete(rows, id, any) :: r in rows
    ensures forall r <- rows :: r.id != id || (!any && r.status != Queued) ==> r in Delete(rows, id, any)
  {
    if rows != [] {
      DeleteShrinks(rows[1..], id, any);
      assert rows == [rows[0]] + rows[1..];
    }
  }

  lemma {:induction false} DeleteKeepsOneProcessing(rows: seq<Row>, id: string, any: bool)
    requires OneProcessing(rows)
    ensures OneProcessing(Delete(rows, id, any))
  {
    if rows != [] {
      DeleteKeepsOneProcessing(rows[1..], id, any);
      DeleteShrinks(rows[1..], id, any);
    }
  }

  lemma CancelKeepsTable(s: State, id: string)
    requires TableInv(s)
    ensures TableInv(NextState(s, CancelItem(id)))
  {
    DeleteValid(s.rows, id, false);
    DeleteShrinks(s.rows, id, false);
    DeleteKeepsOneProcessing(s.rows, id, false);
  }

  lemma FinishKeepsTable(s: State) returns (k: nat)
    requires TableInv(s) && s.phase.Turn?
    ensures k < |s.rows| && s.rows[k] == s.phase.item
    ensures Delete(s.rows, s.phase.item.id, true) == Gap(s.rows, k)
    ensures Valid(Gap(s.rows, k)) && AllQueued(Gap(s.rows, k))
  {
    k :| 0 <= k < |s.rows| && s.rows[k] == s.phase.item;
    DeleteAt(s.rows, k, true);
    GapValid(s.rows, k);
    var b := Gap(s.rows, k);
    assert forall i | 0 <= i < |b| :: b[i] == s.rows[if i < k then i else i + 1];
  }

  lemma ClaimKeepsTable(s: State)
    requires TableInv(s) && s.phase.Claiming?
    ensures TableInv(NextState(s, Claim))
  {
    ClaimValid(s.rows, s.session);
    if Head(s.rows, s.session).Some? {
      var k := ClaimMarksHead(s.rows, s.session);
      var b := Claimed(s.rows, s.session);
      assert b[k] == s.rows[k].(status := Processing);
      assert b[k] in b;
    }
  }

  lemma StepKeepsTable(w: World, e: Event)
    requires TableInv(w.state)
    requires forall r <- w.state.rows :: r in w.log.accepted || r.(status := Queued) in w.log.accepted
    ensures TableInv(Step(w, e).state)
  {
    var s := w.state;
    if Possible(w.log, e) {
      match e
      case Send(to, text, attachments, id, now) =>
        if Accept(s.rows, to, text, attachments, id, now).Ok? {
          forall r | r in s.rows ensures r.id != id {
            assert r in w.log.accepted || r.(status := Queued) in w.log.accepted;
          }
          AppendValid(s.rows, to, text, attachments, id, now);
        }
      case CancelItem(id) => CancelKeepsTable(s, id);
      case Claim => if s.phase.Claiming? { ClaimKeepsTable(s); }
      case TurnOk => if s.phase.Turn? { var _ := FinishKeepsTable(s); }
      case TurnErr => if s.phase.Turn? { var _ := FinishKeepsTable(s); }
      case Start => RecoverValid(s.rows);
      case _ =>
    }
  }

  // ---------- order and conservation ----------

  /** The messages that were not cancelled. */
  function Remaining(rows: seq<Row>, cancelled: set<string>): seq<Row> {
    if rows == [] then []
    else if rows[0].id in cancelled then Remaining(rows[1..], cancelled)
    else [rows[0]] + Remaining(rows[1..], cancelled)
  }

  /** Finished, then unfinished in send order, is accepted minus cancelled. */
  predicate Conserved(finished: seq<Row>, rows: seq<Row>, accepted: seq<Row>, cancelled: set<string>, session: string) {
    Of(finished, session) + Recovered(Of(rows, session)) == Remaining(Of(accepted, session), cancelled)
  }

  predicate InSendOrder(w: World, session: string) {
    Conserved(w.log.finished, w.state.rows, w.log.accepted, w.log.cancelled, session)
  }

  ghost predicate FifoInv(w: World) {
    && (forall s :: InSendOrder(w, s))
    && DistinctIds(w.log.accepted)
    && (forall r <- w.state.rows :: r.(status := Queued) in w.log.accepted)
    && (forall r <- w.log.finished :: r in w.log.accepted)
    && (forall r <- w.state.rows, f <- w.log.finished :: r.id != f.id)
    && (forall id <- w.log.cancelled :: exists r <- w.log.accepted :: r.id == id)
  }

  lemma {:induction false} RemainingOfConcat(a: seq<Row>, b: seq<Row>, cancelled: set<string>)
    ensures Remaining(a + b, cancelled) == Remaining(a, cancelled) + Remaining(b, cancelled)
  {
    if a == [] {
      assert a + b == b;
    } else {
      assert (a + b)[1..] == a[1..] + b;
      RemainingOfConcat(a[1..], b, cancelled);
    }
  }

  /** Cancelling one more id takes its row out of what remains. */
  lemma {:induction false} RemainingMore(rows: seq<Row>, cancelled: set<string>, id: string)
    ensures Remaining(rows, cancelled + {id}) == Remaining(Remaining(rows, cancelled), {id})
  {
    if rows != [] {
      RemainingMore(rows[1..], cancelled, id);
      var r := Remaining(rows, cancelled);
      if rows[0].id !in cancelled { assert r[1..] == Remaining(rows[1..], cancelled); }
    }
  }

  lemma {:induction false} RemainingAll(rows: seq<Row>, cancelled: set<string>)
    requires forall r <- rows :: r.id !in cancelled
    ensures Remaining(rows, cancelled) == rows
  {
    if rows != [] {
      assert rows == [rows[0]] + rows[1..];
      RemainingAll(rows[1..], cancelled);
    }
  }

  lemma {:induction false} OfNone(rows: seq<Row>, session: string)
    requires forall r <- rows :: r.session != session
    ensures Of(rows, session) == []
  {
    if rows != [] {
      assert rows == [rows[0]] + rows[1..];
      OfNone(rows[1..], session);
    }
  }

  lemma RecoveredOfConcat(a: seq<Row>, b: seq<Row>)
    ensures Recovered(a + b) == Recovered(a) + Recovered(b)
  {
  }

  lemma SameButStatusRecovered(a: seq<Row>, b: seq<Row>)
    requires SameButStatus(a, b)
    ensures Recovered(a) == Recovered(b)
  {
    forall i | 0 <= i < |a| ensures Recovered(a)[i] == Recovered(b)[i] {
      assert a[i].(status := Queued) == b[i].(status := Queued);
    }
  }

  /** Steps that only change statuses keep order and conservation. */
  lemma StatusStepKeepsFifo(w: World, w': World)
    requires FifoInv(w) && SameButStatus(w.state.rows, w'.state.rows)
    requires w'.log.accepted == w.log.accepted && w'.log.finished == w.log.finished
    requires w'.log.cancelled == w.log.cancelled
    ensures FifoInv(w')
  {
    var a, b := w.state.rows, w'.state.rows;
    forall s ensures InSendOrder(w', s) {
      assert InSendOrder(w, s);
      SameButStatusOf(a, b, s);
      SameButStatusRecovered(Of(a, s), Of(b, s));
    }
    forall r | r in b ensures r.(status := Queued) in w.log.accepted && forall f <- w.log.finished :: r.id != f.id {
      var i :| 0 <= i < |b| && b[i] == r;
      assert a[i].(status := Queued) == b[i].(status := Queued);
      assert a[i] in a;
    }
  }

  lemma ConservedBySend(
    finished: seq<Row>, rows: seq<Row>, accepted: seq<Row>, cancelled: set<string>, session: string, item: Row)
    requires Conserved(finished, rows, accepted, cancelled, session)
    requires item.status == Queued && item.id !in cancelled
    ensures Conserved(finished, rows + [item], accepted + [item], cancelled, session)
  {
    OfConcat(rows, [item], session);
    OfConcat(accepted, [item], session);
    if item.session == session {
      assert Of([item], session) == [item];
      assert Recovered(Of(rows, session) + [item]) == Recovered(Of(rows, session)) + [item];
      RemainingOfConcat(Of(accepted, session), [item], cancelled);
      assert Remaining([item], cancelled) == [item];
    } else {
      assert Of(rows, session) + Of([item], session) == Of(rows, session);
      assert Of(accepted, session) + Of([item], session) == Of(accepted, session);
    }
  }

  lemma {:induction false} SendKeepsFifo(w: World, e: Event)
    requires FifoInv(w) && e.Send? && Possible(w.log, e)
    ensures FifoInv(Step(w, e))
  {
    var s, g := w.state, w.log;
    var r := Accept(s.rows, e.to, e.text, e.attachments, e.id, e.now);
    if r.Ok? {
      var w' := Step(w, e);
      assert e.id !in g.cancelled;
      forall t ensures InSendOrder(w', t) {
        assert InSendOrder(w, t);
        ConservedBySend(g.finished, s.rows, g.accepted, g.cancelled, t, r.value);
      }
      assert r.value.(status := Queued) == r.value;
      assert r.value in w'.log.accepted;
      forall f | f in g.finished ensures f.id != e.id { assert f in g.accepted; }
    }
  }

  /** Taking an id out of the table is taking it out of what remains. */
  lemma {:induction false} RemainingIsDelete(rows: seq<Row>, id: string, session: string)
    ensures Remaining(Recovered(Of(rows, session)), {id}) == Recovered(Of(Delete(rows, id, true), session))
  {
    if rows != [] {
      RemainingIsDelete(rows[1..], id, session);
      RecoveredOfConcat([rows[0]], Of(rows[1..], session));
      RecoveredOfConcat([rows[0]], Of(Delete(rows[1..], id, true), session));
      RemainingOfConcat(Recovered([rows[0]]), Recovered(Of(rows[1..], session)), {id});
      OfConcat([rows[0]], Delete(rows[1..], id, true), session);
      assert Recovered([rows[0]]) == [rows[0].(status := Queued)];
      assert Remaining([rows[0].(status := Queued)], {id})
             == if rows[0].id == id then [] else [rows[0].(status := Queued)];
    }
  }

  lemma ConservedByCancel(
    finished: seq<Row>, rows: seq<Row>, accepted: seq<Row>, cancelled: set<string>, session: string, id: string)
    requires Conserved(finished, rows, accepted, cancelled, session)
    requires forall f <- finished :: f.id != id
    ensures Conserved(finished, Delete(rows, id, true), accepted, cancelled + {id}, session)
  {
    RemainingMore(Of(accepted, session), cancelled, id);
    RemainingOfConcat(Of(finished, session), Recovered(Of(rows, session)), {id});
    forall f | f in Of(finished, session) ensures f.id != id { OfMember(finished, session, f); }
    RemainingAll(Of(finished, session), {id});
    RemainingIsDelete(rows, id, session);
  }

  lemma CancelledAt(w: World, k: nat)
    requires DistinctIds(w.state.rows) && FifoInv(w)
    requires k < |w.state.rows| && w.state.rows[k].status == Queued
    ensures FifoInv(Step(w, CancelItem(w.state.rows[k].id)))
  {
    var rows, id := w.state.rows, w.state.rows[k].id;
    var w' := Step(w, CancelItem(id));
    assert rows[k] in rows;
    assert w'.state.rows == Delete(rows, id, true) by {
      DeleteAt(rows, k, false);
      DeleteAt(rows, k, true);
    }
    forall t ensures InSendOrder(w', t) {
      assert InSendOrder(w, t);
      ConservedByCancel(w.log.finished, rows, w.log.accepted, w.log.cancelled, t, id);
    }
    DeleteShrinks(rows, id, true);
    assert rows[k].(status := Queued) in w.log.accepted;
  }

  lemma CancelKeepsFifo(w: World, id: string)
    requires DistinctIds(w.state.rows) && FifoInv(w)
    ensures FifoInv(Step(w, CancelItem(id)))
  {
    var rows := w.state.rows;
    if k :| 0 <= k < |rows| && rows[k].id == id && rows[k].status == Queued {
      CancelledAt(w, k);
    } else {
      DeleteAbsent(rows, id, false);
      assert Step(w, CancelItem(id)) == w;
    }
  }

  lemma OutOfSession(rows: seq<Row>, k: nat, session: string)
    requires k < |rows| && (rows[k].session == session ==> forall i | 0 <= i < k :: rows[i].session != session)
    ensures var rest := Of(Gap(rows, k), session);
            Of(rows, session) == if rows[k].session == session then [rows[k]] + rest else rest
  {
    GapOf(rows, k, session);
    if rows[k].session == session { OfNone(rows[..k], session); }
  }

  /** The row that heads its session moves to the finished ones. */
  lemma ConservedByFinish(
    finished: seq<Row>, rows: seq<Row>, k: nat, accepted: seq<Row>, cancelled: set<string>, session: string)
    requires Conserved(finished, rows, accepted, cancelled, session)
    requires k < |rows| && forall i | 0 <= i < k :: rows[i].session != rows[k].session
    ensures Conserved(finished + [rows[k].(status := Queued)], Gap(rows, k), accepted, cancelled, session)
  {
    var item := rows[k].(status := Queued);
    var rest := Of(Gap(rows, k), session);
    OutOfSession(rows, k, session);
    OfConcat(finished, [item], session);
    if rows[k].session == session {
      assert Of([item], session) == [item];
      RecoveredOfConcat([rows[k]], rest);
      assert Recovered([rows[k]]) == [item];
      assert Of(finished, session) + ([item] + Recovered(rest)) == Of(finished, session) + [item] + Recovered(rest);
    } else {
      assert Of([item], session) == [];
      assert Of(finished, session) + [] == Of(finished, session);
    }
  }

  lemma FinishedRows(w: World, e: Event) returns (k: nat)
    requires TableInv(w.state) && w.state.phase.Turn? && (e.TurnOk? || e.TurnErr?)
    ensures var rows, w' := w.state.rows, Step(w, e);
            && k < |rows| && w'.state.rows == Gap(rows, k)
            && w'.log.finished == w.log.finished + [rows[k].(status := Queued)]
            && w'.log.accepted == w.log.accepted && w'.log.cancelled == w.log.cancelled
            && DistinctIds(rows) && forall i | 0 <= i < k :: rows[i].session != rows[k].session
  {
    k := FinishKeepsTable(w.state);
    var rows := w.state.rows;
    forall i | 0 <= i < k ensures rows[i].session != rows[k].session {
      assert InOrder(rows[i], rows[k]);
    }
  }

  lemma TakenOutFifo(w: World, w': World, k: nat)
    requires FifoInv(w) && DistinctIds(w.state.rows) && k < |w.state.rows| && w'.state.rows == Gap(w.state.rows, k)
    requires w'.log.finished == w.log.finished + [w.state.rows[k].(status := Queued)]
    requires w'.log.accepted == w.log.accepted && w'.log.cancelled == w.log.cancelled
    requires forall t :: InSendOrder(w', t)
    ensures FifoInv(w')
  {
    var rows, b := w.state.rows, w'.state.rows;
    assert rows[k] in rows;
    forall r | r in b ensures r in rows && r.id != rows[k].id {
      var i :| 0 <= i < |b| && b[i] == r;
      assert b[i] == rows[if i < k then i else i + 1];
    }
  }

  lemma FinishKeepsFifo(w: World, e: Event)
    requires TableInv(w.state) && FifoInv(w) && w.state.phase.Turn? && (e.TurnOk? || e.TurnErr?)
    ensures FifoInv(Step(w, e))
  {
    var w' := Step(w, e);
    var k := FinishedRows(w, e);
    forall t ensures InSendOrder(w', t) {
      assert InSendOrder(w, t);
      ConservedByFinish(w.log.finished, w.state.rows, k, w.log.accepted, w.log.cancelled, t);
    }
    TakenOutFifo(w, w', k);
  }

  lemma StepKeepsFifo(w: World, e: Event)
    requires TableInv(w.state) && FifoInv(w)
    ensures FifoInv(Step(w, e))
  {
    var s := w.state;
    if Possible(w.log, e) {
      match e
      case Send(_, _, _, _, _) => SendKeepsFifo(w, e);
      case CancelItem(id) => CancelKeepsFifo(w, id);
      case Claim =>
        ClaimValid(s.rows, s.session);
        StatusStepKeepsFifo(w, Step(w, e));
      case TurnOk =>
        if s.phase.Turn? { FinishKeepsFifo(w, e); }
      case TurnErr =>
        if s.phase.Turn? { FinishKeepsFifo(w, e); }
      case _ => StatusStepKeepsFifo(w, Step(w, e));
    }
  }

  // ---------- turns ----------

  function Ids(rows: seq<Row>): multiset<string> {
    if rows == [] then multiset{} else Ids(rows[..|rows| - 1]) + multiset{rows[|rows| - 1].id}
  }

  lemma {:induction false} IdsOnce(rows: seq<Row>, id: string)
    requires DistinctIds(rows)
    ensures Ids(rows)[id] <= 1
    ensures Ids(rows)[id] == 0 <==> forall r <- rows :: r.id != id
  {
    if rows != [] {
      var init, last := rows[..|rows| - 1], rows[|rows| - 1];
      IdsOnce(init, id);
      assert rows == init + [last];
    }
  }

  predicate Balanced(
    started: multiset<string>, interrupted: multiset<string>, finished: multiset<string>, current: multiset<string>)
  {
    started == interrupted + finished + current
  }

  /** Every turn started was finished, cut off by a crash, or is in progress. */
  ghost predicate TurnInv(w: World) {
    && Balanced(w.log.started, w.log.interrupted, Ids(w.log.finished), InTurn(w.state.phase))
    && DistinctIds(w.log.finished)
  }

  lemma TurnMoves(a: multiset<string>, b: multiset<string>, f: multiset<string>, c: multiset<string>)
    requires Balanced(a, b, f, c)
    ensures Balanced(a, b + c, f, multiset{}) && Balanced(a, b, f + c, multiset{})
    ensures forall d :: c == multiset{} ==> Balanced(a + d, b, f, d)
  {
  }

  lemma IdsGrow(rows: seq<Row>, r: Row)
    ensures Ids(rows + [r]) == Ids(rows) + multiset{r.id}
  {
    assert (rows + [r])[..|rows|] == rows;
  }

  lemma DistinctGrow(rows: seq<Row>, r: Row)
    requires DistinctIds(rows) && forall f <- rows :: f.id != r.id
    ensures DistinctIds(rows + [r])
  {
  }

  lemma FinishKeepsTurns(w: World, e: Event)
    requires TurnInv(w) && w.state.phase.Turn? && (e.TurnOk? || e.TurnErr?)
    requires forall f <- w.log.finished :: f.id != w.state.phase.item.id
    ensures TurnInv(Step(w, e))
  {
    var g, item := w.log, w.state.phase.item.(status := Queued);
    DistinctGrow(g.finished, item);
    IdsGrow(g.finished, item);
    TurnMoves(g.started, g.interrupted, Ids(g.finished), InTurn(w.state.phase));
    assert InTurn(Step(w, e).state.phase) == multiset{};
    assert Step(w, e).log.finished == g.finished + [item];
  }

  lemma CrashKeepsTurns(w: World)
    requires TurnInv(w)
    ensures TurnInv(Step(w, Crash))
  {
    TurnMoves(w.log.started, w.log.interrupted, Ids(w.log.finished), InTurn(w.state.phase));
    assert Step(w, Crash).log == w.log.(unpoked := {}, interrupted := w.log.interrupted + InTurn(w.state.phase));
  }

  lemma ClaimBegins(w: World)
    requires w.state.phase.Claiming?
    ensures var w' := Step(w, Claim);
            && w'.log.started == w.log.started + InTurn(w'.state.phase)
            && w'.log.finished == w.log.finished && w'.log.interrupted == w.log.interrupted
  {
  }

  lemma ClaimKeepsTurns(w: World)
    requires TurnInv(w)
    ensures TurnInv(Step(w, Claim))
  {
    if w.state.phase.Claiming? {
      TurnMoves(w.log.started, w.log.interrupted, Ids(w.log.finished), multiset{});
      ClaimBegins(w);
    }
  }

  predicate LeavesTurnsAlone(p: Phase, e: Event) {
    !e.Claim? && !e.Crash? && (p.Turn? ==> !e.TurnOk? && !e.TurnErr?)
  }

  lemma LogStays(s: State, g: Log, e: Event)
    requires LeavesTurnsAlone(s.phase, e)
    ensures var h := NextLog(s, g, e);
            h.finished == g.finished && h.started == g.started && h.interrupted == g.interrupted
  {
  }

  lemma TurnStays(s: State, e: Event)
    requires LeavesTurnsAlone(s.phase, e)
    ensures s.phase.Turn? ==> NextState(s, e).phase == s.phase
    ensures !s.phase.Turn? ==> !NextState(s, e).phase.Turn?
  {
  }

  lemma OtherKeepsTurns(w: World, e: Event)
    requires TurnInv(w) && LeavesTurnsAlone(w.state.phase, e)
    ensures TurnInv(Step(w, e))
  {
    LogStays(w.state, w.log, e);
    TurnStays(w.state, e);
    assert InTurn(Step(w, e).state.phase) == InTurn(w.state.phase);
  }

  lemma StepKeepsTurns(w: World, e: Event)
    requires TableInv(w.state) && FifoInv(w) && TurnInv(w)
    ensures TurnInv(Step(w, e))
  {
    if w.state.phase.Turn? && (e.TurnOk? || e.TurnErr?) {
      assert forall f <- w.log.finished :: f.id != w.state.phase.item.id;
      FinishKeepsTurns(w, e);
    } else if e.Claim? {
      ClaimKeepsTurns(w);
    } else if e.Crash? {
      CrashKeepsTurns(w);
    } else {
      OtherKeepsTurns(w, e);
    }
  }

  // ---------- wake-ups ----------

  /** After a drain that emptied a session, each of its queued rows belongs to a
      sender that has not poked yet, or a permit is stored. */
  ghost predicate WakeInv(w: World) {
    var s, g := w.state, w.log;
    && (s.phase.Parked? ==> !s.permit)
    && ((s.phase.Parked? || s.phase.Leaving?) ==> !g.drain.NotYet?)
    && ((s.phase.Parked? || s.phase.Leaving?) && g.drain.Emptied? && !s.permit ==>
          forall r <- s.rows :: r.session == g.drain.session && r.status == Queued ==> r.id in g.unpoked)
  }

  lemma StepKeepsWake(w: World, e: Event)
    requires WakeInv(w)
    ensures WakeInv(Step(w, e))
  {
    var s := w.state;
    match e
    case CancelItem(id) => DeleteShrinks(s.rows, id, false);
    case Claim => HeadIsFirstQueued(s.rows, s.session);
    case _ =>
  }

  // ---------- the theorems ----------

  ghost predicate Inv(w: World) {
    TableInv(w.state) && FifoInv(w) && TurnInv(w) && WakeInv(w)
  }

  lemma {:induction false} RunKeepsInv(w: World, es: seq<Event>)
    requires Inv(w)
    ensures Inv(Run(w, es))
  {
    if es != [] {
      var init, e := es[..|es| - 1], es[|es| - 1];
      RunKeepsInv(w, init);
      StepKeepsTable(Run(w, init), e);
      StepKeepsFifo(Run(w, init), e);
      StepKeepsTurns(Run(w, init), e);
      StepKeepsWake(Run(w, init), e);
    }
  }

  lemma BootInv(session: string, continueOnError: bool)
    ensures Inv(Boot(session, continueOnError))
  {
    forall s ensures InSendOrder(Boot(session, continueOnError), s) {}
  }

  /** In every run, crashes, cancels and session switches included, the finished
      messages of a session followed by the unfinished ones by position are the
      accepted ones in order minus the cancelled: nothing is lost, duplicated or
      overtaken. */
  lemma WholeRunFifo(es: seq<Event>, start: string, policy: bool, session: string)
    ensures var w := Run(Boot(start, policy), es);
            Of(w.log.finished, session) + Recovered(ByPosition(Of(w.state.rows, session)))
            == Remaining(Of(w.log.accepted, session), w.log.cancelled)
  {
    BootInv(start, policy);
    RunKeepsInv(Boot(start, policy), es);
    var w := Run(Boot(start, policy), es);
    assert InSendOrder(w, session);
    ListInSendOrder(w.state.rows, session);
  }

  lemma RestartRecovers(s: State)
    requires Valid(s.rows)
    ensures var t := NextState(NextState(s, Crash), Start);
            && t == State(Recovered(s.rows), s.session, s.continueOnError, false, Claiming)
            && Quiet(t.rows) && SameButStatus(s.rows, t.rows)
  {
    RecoverValid(s.rows);
  }

  /** After a crash at any point of a run, the next start finds every row queued, none lost
      or reordered, and begins to claim. */
  lemma CrashRecovers(es: seq<Event>, start: string, policy: bool)
    ensures var s := Run(Boot(start, policy), es).state;
            var t := NextState(NextState(s, Crash), Start);
            && t.phase == Claiming && !t.permit && t.session == s.session && t.continueOnError == s.continueOnError
            && Quiet(t.rows) && SameButStatus(s.rows, t.rows)
  {
    BootInv(start, policy);
    RunKeepsInv(Boot(start, policy), es);
    RestartRecovers(Run(Boot(start, policy), es).state);
  }

  /** In every run, a message's turns start at most once, and once more for every
      crash that cut one off: exactly, they are the crashed ones, the finished one
      and the one in progress. */
  lemma TurnsPerMessage(es: seq<Event>, start: string, policy: bool, id: string)
    ensures var w := Run(Boot(start, policy), es);
            && w.log.started[id] <= 1 + w.log.interrupted[id]
            && w.log.started[id] == w.log.interrupted[id]
                 + (if exists r <- w.log.finished :: r.id == id then 1 else 0)
                 + (if w.state.phase.Turn? && w.state.phase.item.id == id then 1 else 0)
  {
    BootInv(start, policy);
    RunKeepsInv(Boot(start, policy), es);
    var w := Run(Boot(start, policy), es);
    IdsOnce(w.log.finished, id);
  }

  /** In every run: positions of a session are distinct and in send order, its
      processing row comes first, it never holds more than 100 rows, and at most
      one row of the whole table is processing. */
  lemma WholeRunTable(es: seq<Event>, start: string, policy: bool)
    ensures var rows := Run(Boot(start, policy), es).state.rows;
            Ordered(rows) && DistinctIds(rows) && OneProcessing(rows)
            && forall s :: |Of(rows, s)| <= MAX_PENDING_PER_SESSION
  {
    BootInv(start, policy);
    RunKeepsInv(Boot(start, policy), es);
  }

  /** In every run, if the worker is parked (then no permit is stored) and its
      last drain was not cut short by a failed turn or claim, every queued row of the
      session it drained belongs to a sender that has not poked yet. */
  lemma NoLostWakeUp(es: seq<Event>, start: string, policy: bool)
    ensures var w := Run(Boot(start, policy), es);
            w.state.phase.Parked? && !w.log.drain.StoppedOnError? && !w.log.drain.ClaimFailed? ==>
              && !w.state.permit && w.log.drain.Emptied?
              && forall r <- w.state.rows :: r.session == w.log.drain.session ==> r.id in w.log.unpoked
  {
    BootInv(start, policy);
    RunKeepsInv(Boot(start, policy), es);
  }

  predicate StaysIn(es: seq<Event>, session: string) {
    forall e <- es :: !e.SwitchSession? && (e.Send? ==> e.to == session)
  }

  lemma {:induction false} FixedSession(es: seq<Event>, session: string, policy: bool)
    requires StaysIn(es, session)
    ensures var w := Run(Boot(session, policy), es);
            && w.state.session == session
            && (forall r <- w.state.rows :: r.session == session)
            && (w.log.drain.Emptied? ==> w.log.drain.session == session)
  {
    if es != [] {
      var init, e := es[..|es| - 1], es[|es| - 1];
      FixedSession(init, session, policy);
      var w := Run(Boot(session, policy), init);
      assert e in es;
      match e
      case CancelItem(id) => DeleteShrinks(w.state.rows, id, false);
      case TurnOk => if w.state.phase.Turn? { DeleteShrinks(w.state.rows, w.state.phase.item.id, true); }
      case TurnErr => if w.state.phase.Turn? { DeleteShrinks(w.state.rows, w.state.phase.item.id, true); }
      case _ =>
    }
  }

  /** With one session, once all senders have poked, a worker that parks without
      having been stopped leaves an empty queue. */
  lemma ParkedMeansDone(es: seq<Event>, session: string, policy: bool)
    requires StaysIn(es, session)
    ensures var w := Run(Boot(session, policy), es);
            w.state.phase.Parked? && !w.log.drain.StoppedOnError? && !w.log.drain.ClaimFailed? ==>
              && (forall r <- w.state.rows :: r.id in w.log.unpoked)
              && (w.log.unpoked == {} ==> w.state.rows == [])
  {
    NoLostWakeUp(es, session, policy);
    FixedSession(es, session, policy);
    var w := Run(Boot(session, policy), es);
    assert w.state.rows != [] ==> w.state.rows[0] in w.state.rows;
  }

  // ---------- every poke is served ----------

  /** Is the last poke of the run still without a claim, successful or not, after it? */
  function Unserved(w: World, es: seq<Event>): bool {
    if es == [] then false
    else
      var init, e := es[..|es| - 1], es[|es| - 1];
      var before := Run(w, init);
      if e.Poke? && Possible(before.log, e) then true
      else if (e.Claim? || e.ClaimErr?) && before.state.phase.Claiming? then false
      else Unserved(w, init)
  }

  /** Where a poke waits to be served: stored, or in a worker about to claim. */
  predicate Holds(s: State) {
    s.permit || s.phase.Claiming? || s.phase.Notified? || s.phase.Down?
  }

  lemma HoldStep(s: State, e: Event)
    requires Holds(s) && !(s.phase.Claiming? && (e.Claim? || e.ClaimErr?))
    ensures Holds(NextState(s, e))
  {
  }

  lemma PokeHolds(s: State, sender: string)
    ensures Holds(NextState(s, Poke(sender)))
  {
  }

  lemma ParkedStep(s: State, e: Event)
    requires s.phase.Parked? ==> !s.permit
    ensures NextState(s, e).phase.Parked? ==> !NextState(s, e).permit
  {
  }

  lemma {:induction false} PokesAreHeld(w: World, es: seq<Event>)
    requires w.state.phase.Parked? ==> !w.state.permit
    ensures Run(w, es).state.phase.Parked? ==> !Run(w, es).state.permit
    ensures Unserved(w, es) ==> Holds(Run(w, es).state)
  {
    if es != [] {
      var init, e := es[..|es| - 1], es[|es| - 1];
      var before := Run(w, init);
      PokesAreHeld(w, init);
      if Possible(before.log, e) {
        ParkedStep(before.state, e);
        if e.Poke? {
          PokeHolds(before.state, e.sender);
        } else if Unserved(w, es) {
          HoldStep(before.state, e);
        }
      }
    }
  }

  /** In every run, under either error policy and with failed turns and claims: a
      worker that has parked has claimed, or tried to, after the last poke, whatever
      it was doing when that poke came. */
  lemma EveryPokeIsServed(es: seq<Event>, start: string, policy: bool)
    ensures Run(Boot(start, policy), es).state.phase.Parked? ==> !Unserved(Boot(start, policy), es)
  {
    PokesAreHeld(Boot(start, policy), es);
  }

  function Pokes(w: World, es: seq<Event>): nat {
    if es == [] then 0
    else
      var init, e := es[..|es| - 1], es[|es| - 1];
      Pokes(w, init) + if e.Poke? && Possible(Run(w, init).log, e) then 1 else 0
  }

  predicate BeginsDrain(before: Phase, after: Phase) {
    (before.Leaving? || before.Parked? || before.Notified?) && after.Claiming?
  }

  /** The drains begun after the first one of each start: those the worker was woken for. */
  function Drains(w: World, es: seq<Event>): nat {
    if es == [] then 0
    else
      var init := es[..|es| - 1];
      var before, after := Run(w, init).state.phase, Run(w, es).state.phase;
      Drains(w, init) + if BeginsDrain(before, after) then 1 else 0
  }

  function Wakeups(s: State): nat {
    (if s.permit then 1 else 0) + if s.phase.Notified? then 1 else 0
  }

  lemma WakeupStep(s: State, e: Event)
    ensures Wakeups(NextState(s, e)) + (if BeginsDrain(s.phase, NextState(s, e).phase) then 1 else 0)
            <= Wakeups(s) + if e.Poke? then 1 else 0
  {
  }

  /** In every run a poke is used up by the drain it starts: there are never more drains
      than pokes, a stored permit and a wake-up under way included. */
  lemma {:induction false} OnePokeOneDrain(es: seq<Event>, start: string, policy: bool)
    ensures Drains(Boot(start, policy), es) + Wakeups(Run(Boot(start, policy), es).state)
            <= Pokes(Boot(start, policy), es)
  {
    if es != [] {
      var init, e := es[..|es| - 1], es[|es| - 1];
      OnePokeOneDrain(init, start, policy);
      WakeupStep(Run(Boot(start, policy), init).state, e);
    }
  }

  // ---------- what a turn works on ----------

  datatype Sending = Sending(session: string, text: string, attachments: seq<string>, now: string)

  /** The last message sent under an id. */
  function SentAs(w: World, es: seq<Event>, id: string): Option<Sending> {
    if es == [] then None
    else
      var init, e := es[..|es| - 1], es[|es| - 1];
      if e.Send? && e.id == id && Possible(Run(w, init).log, e) then Some(Sending(e.to, e.text, e.attachments, e.now))
      else SentAs(w, init, id)
  }

  /** The row is the message sent under its id. */
  ghost predicate AsSent(r: Row, sent: Option<Sending>) {
    && sent.Some?
    && IsMessage(r.(status := Queued), sent.value.session, sent.value.text, sent.value.attachments, r.id,
                 sent.value.now)
  }

  lemma AcceptedAsSent(w: World, e: Event)
    requires e.Send?
    ensures Accept(w.state.rows, e.to, e.text, e.attachments, e.id, e.now).Ok? ==>
              IsMessage(Accept(w.state.rows, e.to, e.text, e.attachments, e.id, e.now).value,
                        e.to, e.text, e.attachments, e.id, e.now)
  {
    RustStr.TrimCuts(e.text);
  }

  lemma AcceptedGrows(w: World, e: Event, r: Row)
    requires r in Step(w, e).log.accepted && r !in w.log.accepted
    ensures e.Send? && Possible(w.log, e)
            && Accept(w.state.rows, e.to, e.text, e.attachments, e.id, e.now) == Ok(r)
  {
  }

  lemma {:induction false} AcceptedWereSent(es: seq<Event>, start: string, policy: bool, r: Row)
    requires r in Run(Boot(start, policy), es).log.accepted
    ensures AsSent(r, SentAs(Boot(start, policy), es, r.id))
  {
    if es != [] {
      var init, e := es[..|es| - 1], es[|es| - 1];
      var w := Run(Boot(start, policy), init);
      if r in w.log.accepted {
        AcceptedWereSent(init, start, policy, r);
      } else {
        AcceptedGrows(w, e, r);
        AcceptedAsSent(w, e);
      }
    }
  }

  /** In every run, what the worker runs a turn on is the message as it was sent under
      its id: its session, its trimmed text, its attachments. */
  lemma TurnsAreAsSent(es: seq<Event>, start: string, policy: bool)
    requires Run(Boot(start, policy), es).state.phase.Turn?
    ensures var item := Run(Boot(start, policy), es).state.phase.item;
            AsSent(item, SentAs(Boot(start, policy), es, item.id))
  {
    BootInv(start, policy);
    RunKeepsInv(Boot(start, policy), es);
    var item := Run(Boot(start, policy), es).state.phase.item;
    AcceptedWereSent(es, start, policy, item.(status := Queued));
  }

  // ---------- where the guarantee ends ----------

  /** The worker is parked, no wake-up is stored or coming, and the current session
      has a queued message. */
  predicate Stranded(w: World) {
    && w.state.phase.Parked? && !w.state.permit && w.log.unpoked == {}
    && Head(w.state.rows, w.state.session).Some?
  }

  lemma BacklogHasHead(s: State, session: string)
    requires TableInv(s) && !s.phase.Turn? && !s.phase.Down?
    ensures Head(s.rows, session).Some? <==> Of(s.rows, session) != []
  {
    OneTurn(s.rows, session);
  }

  /** Exactly when switching strands a message: in every run that ends parked after
      a drain that emptied some session, with every sender past its poke, switching
      to a session does so if and only if that session has a backlog. The session
      drained last never has one. */
  lemma SwitchStrands(es: seq<Event>, start: string, policy: bool, next: string)
    requires var w := Run(Boot(start, policy), es);
             w.state.phase.Parked? && w.log.drain.Emptied? && w.log.unpoked == {}
    ensures var w := Run(Boot(start, policy), es);
            && Of(w.state.rows, w.log.drain.session) == []
            && (Stranded(Step(w, SwitchSession(next))) <==> Of(w.state.rows, next) != [])
            && (Stranded(w) <==> Of(w.state.rows, w.state.session) != [])
            && (Stranded(w) ==> w.state.session != w.log.drain.session)
  {
    NoLostWakeUp(es, start, policy);
    BootInv(start, policy);
    RunKeepsInv(Boot(start, policy), es);
    var w := Run(Boot(start, policy), es);
    BacklogHasHead(w.state, next);
    BacklogHasHead(w.state, w.state.session);
    OfNone(w.state.rows, w.log.drain.session);
  }

  /** A parked worker stays parked, and leaves every message alone, until the next
      poke or restart. */
  lemma {:induction false} OnlyAPokeWakes(w: World, es: seq<Event>)
    requires w.state.phase.Parked? && forall e <- es :: !e.Poke? && !e.Crash?
    ensures Run(w, es).state.phase.Parked? && Run(w, es).log.started == w.log.started
  {
    if es != [] {
      assert es[|es| - 1] in es;
      OnlyAPokeWakes(w, es[..|es| - 1]);
    }
  }

  /** An undisturbed drain takes messages of its session only, and all of them
      unless a failed turn stops it. */
  lemma DrainTakes(s: State, succeeds: string -> bool)
    requires s.phase.Claiming? && Quiet(s.rows)
    ensures var d := DrainFrom(s, succeeds).rows;
            && (forall r <- s.rows :: r !in d ==> r.session == s.session)
            && (s.continueOnError || (forall r <- Of(s.rows, s.session) :: succeeds(r.id)) ==>
                  forall r <- s.rows :: r !in d <==> r.session == s.session)
  {
    DrainServes(s, succeeds);
    DrainedSuffix(Of(s.rows, s.session), succeeds, s.continueOnError);
    var d := DrainFrom(s, succeeds).rows;
    forall r | r in s.rows
      ensures r in d <==> r in Of(d, r.session)
      ensures r in Of(s.rows, r.session)
    {
      OfMember(s.rows, r.session, r);
      OfMember(d, r.session, r);
    }
  }

  /** A poke, a switch before it is served, and the worker's wake-up. */
  function Woken(s: State, sender: string, next: string): State {
    NextState(NextState(NextState(s, Poke(sender)), SwitchSession(next)), Resume)
  }

  lemma ParkedIsQuiet(es: seq<Event>, start: string, policy: bool, sender: string, next: string)
    requires Run(Boot(start, policy), es).state.phase.Parked?
    ensures var s := Run(Boot(start, policy), es).state;
            Quiet(s.rows) && Woken(s, sender, next) == s.(phase := Claiming, session := next)
  {
    BootInv(start, policy);
    RunKeepsInv(Boot(start, policy), es);
  }

  /** What the next poke serves: from any parked state of any run, a poke, the
      session then current and an undisturbed drain. Only messages of that session
      leave the table, and all of them do unless a failed turn stops the drain. */
  lemma PokeServes(es: seq<Event>, start: string, policy: bool, sender: string, next: string, succeeds: string -> bool)
    requires Run(Boot(start, policy), es).state.phase.Parked?
    ensures var s := Run(Boot(start, policy), es).state;
            var a := Woken(s, sender, next);
            && a.phase.Claiming? && Quiet(a.rows)
            && var d := DrainFrom(a, succeeds).rows;
            && Of(d, next) == Drained(Of(s.rows, next), succeeds, s.continueOnError)
            && (forall r <- s.rows :: r !in d ==> r.session == next)
            && (s.continueOnError || (forall r <- Of(s.rows, next) :: succeeds(r.id)) ==>
                  forall r <- s.rows :: r !in d <==> r.session == next)
  {
    ParkedIsQuiet(es, start, policy, sender, next);
    var a := Woken(Run(Boot(start, policy), es).state, sender, next);
    DrainServes(a, succeeds);
    DrainTakes(a, succeeds);
  }

  lemma {:induction false} RunConcat(w: World, es: seq<Event>, more: seq<Event>)
    ensures Run(w, es + more) == Run(Run(w, es), more)
  {
    if more == [] {
      assert es + more == es;
    } else {
      var init := more[..|more| - 1];
      assert (es + more)[..|es + more| - 1] == es + init;
      RunConcat(w, es, init);
    }
  }

  lemma RunOne(w: World, e: Event)
    ensures Run(w, [e]) == Step(w, e)
  {
    assert [e][..0] == [];
  }

  lemma RunTwo(w: World, e: Event, f: Event)
    ensures Run(w, [e, f]) == Step(Step(w, e), f)
  {
    RunOne(w, e);
    RunOne(Step(w, e), f);
    RunConcat(w, [e], [f]);
    assert [e] + [f] == [e, f];
  }

  /** An empty queue is drained and the worker parks. */
  lemma Idle(w: World, s: string)
    requires w.state.phase == Claiming && !w.state.permit && Head(w.state.rows, s).None? && w.state.session == s
    ensures Run(w, [Claim, Park]) == World(w.state.(phase := Parked), w.log.(drain := Emptied(s)))
  {
    RunTwo(w, Claim, Park);
  }

  lemma AcceptFirst(item: Row)
    requires item == Row("1", "A", "x", Queued, 1, "now", [])
    ensures Accept([], "A", "x", [], "1", "now") == Ok(item)
  {
    assert RustStr.TrimStart("x") == "x" && RustStr.TrimEnd("x") == "x";
  }

  /** The first half of the run below: the message is sent while the worker is
      parked, and the session is switched before the poke. */
  lemma SwitchedBeforePoke(item: Row)
    requires item == Row("1", "A", "x", Queued, 1, "now", [])
    ensures Run(Boot("A", true), [Start, Claim, Park, Send("A", "x", [], "1", "now"), SwitchSession("B")])
            == World(State([item], "B", true, false, Parked),
                     Log([item], [], {}, {"1"}, Emptied("A"), multiset{}, multiset{}))
  {
    var boot, send := Boot("A", true), Send("A", "x", [], "1", "now");
    AcceptFirst(item);
    RunOne(boot, Start);
    var w1 := World(State([], "A", true, false, Claiming), boot.log);
    assert Run(boot, [Start]) == w1;
    Idle(w1, "A");
    var w2 := World(State([], "A", true, false, Parked), boot.log.(drain := Emptied("A")));
    RunConcat(boot, [Start], [Claim, Park]);
    assert [Start] + [Claim, Park] == [Start, Claim, Park];
    RunTwo(w2, send, SwitchSession("B"));
    RunConcat(boot, [Start, Claim, Park], [send, SwitchSession("B")]);
    assert [Start, Claim, Park] + [send, SwitchSession("B")] == [Start, Claim, Park, send, SwitchSession("B")];
  }

  /** Such a run exists: a poke spent on another session strands a message. After
      switching away before the poke is served and back afterwards, the worker is
      parked without a permit, nobody is left to poke, and the current session has
      a queued row. */
  lemma StrandedBySwitch() returns (es: seq<Event>, item: Row)
    ensures var w := Run(Boot("A", true), es);
            && Stranded(w) && w.state == State([item], "A", true, false, Parked)
            && item.session == "A" && item.status == Queued && w.log.drain == Emptied("B")
  {
    item := Row("1", "A", "x", Queued, 1, "now", []);
    var boot := Boot("A", true);
    es := [Start, Claim, Park, Send("A", "x", [], "1", "now"), SwitchSession("B")];
    SwitchedBeforePoke(item);
    var w3 := Run(boot, es);
    RunTwo(w3, Poke("1"), Resume);
    var w4 := Run(w3, [Poke("1"), Resume]);
    Idle(w4, "B");
    RunOne(w4.(state := w4.state.(phase := Parked), log := w4.log.(drain := Emptied("B"))), SwitchSession("A"));
    RunConcat(w3, [Poke("1"), Resume], [Claim, Park]);
    RunConcat(w3, [Poke("1"), Resume] + [Claim, Park], [SwitchSession("A")]);
    var more := [Poke("1"), Resume] + [Claim, Park] + [SwitchSession("A")];
    RunConcat(boot, es, more);
    es := es + more;
  }
}
