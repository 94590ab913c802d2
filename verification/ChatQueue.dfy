/** The persistent chat queue of `chat_queue.rs`: one table of rows shared by
    all sessions, with enqueue, claim, cancel, finish and crash recovery. */
module ChatQueue {
  import opened Prelude
  import RustStr

  const MAX_PENDING_PER_SESSION: nat := 100

  datatype Status = Queued | Processing

  datatype Row = Row(
    id: string, session: string, text: string, status: Status, position: int,
    createdAt: string, attachments: seq<string>)

  datatype Error = EmptyMessage | Duplicate | QueueFull

  // ---------- queries ----------

  /** `WHERE session_id=?1`. The table stores no row that is neither queued nor
      processing, so this is also the unfinished backlog. */
  function Of(rows: seq<Row>, session: string): seq<Row> {
    if rows == [] then []
    else if rows[0].session == session then [rows[0]] + Of(rows[1..], session)
    else Of(rows[1..], session)
  }

  /** `MAX(position)` of a session, or 0. */
  function MaxPosition(rows: seq<Row>, session: string): int {
    if rows == [] then 0
    else
      var m := MaxPosition(rows[1..], session);
      if rows[0].session != session then m
      else if Of(rows[1..], session) == [] || m < rows[0].position then rows[0].position
      else m
  }

  /** The row of the session with the highest position. */
  function Latest(rows: seq<Row>, session: string): Option<Row> {
    if rows == [] then None
    else
      var r := Latest(rows[1..], session);
      if rows[0].session == session && (r.None? || r.value.position < rows[0].position) then Some(rows[0]) else r
  }

  /** The queued row of the session with the lowest position. */
  function Head(rows: seq<Row>, session: string): Option<Row> {
    if rows == [] then None
    else
      var r := Head(rows[1..], session);
      if rows[0].session == session && rows[0].status == Queued
         && (r.None? || rows[0].position <= r.value.position)
      then Some(rows[0])
      else r
  }

  function Insert(r: Row, sorted: seq<Row>): seq<Row> {
    if sorted == [] || r.position <= sorted[0].position then [r] + sorted
    else [sorted[0]] + Insert(r, sorted[1..])
  }

  /** `ORDER BY position ASC`. */
  function ByPosition(rows: seq<Row>): seq<Row> {
    if rows == [] then [] else Insert(rows[0], ByPosition(rows[1..]))
  }

  // ---------- statements ----------

  /** What an accepted message looks like, or why it is refused. */
  function Accept(rows: seq<Row>, session: string, text: string, attachments: seq<string>,
                  id: string, now: string): Result<Row, Error> {
    var trimmed := RustStr.Trim(text);
    var last := Latest(rows, session);
    if trimmed == [] then Err(EmptyMessage)
    else if last.Some? && last.value.text == trimmed then Err(Duplicate)
    else if |Of(rows, session)| >= MAX_PENDING_PER_SESSION then Err(QueueFull)
    else Ok(Row(id, session, trimmed, Queued, MaxPosition(rows, session) + 1, now, attachments))
  }

  /** The row carries the message as it was sent, trimmed, and waits its turn. */
  ghost predicate IsMessage(r: Row, session: string, text: string, attachments: seq<string>, id: string, now: string) {
    && r.id == id && r.session == session && r.attachments == attachments && r.createdAt == now
    && r.status == Queued && RustStr.IsTrimmed(text, r.text)
  }

  /** Every row with this id and status gets another status. */
  function WithStatus(rows: seq<Row>, id: string, from: Status, to: Status): seq<Row> {
    seq(|rows|, i requires 0 <= i < |rows| =>
      if rows[i].id == id && rows[i].status == from then rows[i].(status := to) else rows[i])
  }

  /** `DELETE ... WHERE id=?1`, restricted to a status unless `any`. */
  function Delete(rows: seq<Row>, id: string, any: bool): seq<Row> {
    if rows == [] then []
    else if rows[0].id == id && (any || rows[0].status == Queued) then Delete(rows[1..], id, any)
    else [rows[0]] + Delete(rows[1..], id, any)
  }

  function Recovered(rows: seq<Row>): seq<Row> {
    seq(|rows|, i requires 0 <= i < |rows| => rows[i].(status := Queued))
  }

  /** `SELECT COUNT(*) ... WHERE status='processing'`. */
  function InFlight(rows: seq<Row>): nat {
    if rows == [] then 0 else (if rows[0].status == Processing then 1 else 0) + InFlight(rows[1..])
  }

  function Claimed(rows: seq<Row>, session: string): seq<Row> {
    match Head(rows, session)
    case None => rows
    case Some(r) => WithStatus(rows, r.id, Queued, Processing)
  }

  // ---------- the table ----------

  class Queue {
    var rows: seq<Row>

    constructor ()
      ensures rows == []
    {
      rows := [];
    }

    /** Afterwards nothing is in flight; the rows keep everything but their status,
        and the result is the number of rows that changed. */
    method RecoverInflight() returns (n: nat)
      modifies this
      ensures rows == Recovered(old(rows))
      ensures forall r <- rows :: r.status == Queued
      ensures SameButStatus(old(rows), rows) && (Valid(old(rows)) ==> Valid(rows))
      ensures n == |ChangedRows(old(rows), rows)|
    {
      InFlightChange(rows);
      n := InFlight(rows);
      if Valid(rows) { RecoverValid(rows); }
      rows := Recovered(rows);
    }

    /** Appends a message to the tail of its session, unless it is empty, repeats
        the message before it, or the session is full. */
    method Enqueue(session: string, text: string, attachments: seq<string>, id: string, now: string)
      returns (r: Result<Row, Error>)
      modifies this
      ensures r == Accept(old(rows), session, text, attachments, id, now)
      ensures rows == if r.Ok? then old(rows) + [r.value] else old(rows)
      ensures r.Ok? ==> IsMessage(r.value, session, text, attachments, id, now)
    {
      RustStr.TrimCuts(text);
      var trimmed := RustStr.Trim(text);
      if trimmed == [] { return Err(EmptyMessage); }
      var last := Latest(rows, session);
      if last.Some? {
        if last.value.text == trimmed { return Err(Duplicate); }
      }
      var pending := |Of(rows, session)|;
      if pending >= MAX_PENDING_PER_SESSION { return Err(QueueFull); }
      var nextPos := MaxPosition(rows, session) + 1;
      var item := Row(id, session, trimmed, Queued, nextPos, now, attachments);
      rows := rows + [item];
      r := Ok(item);
    }

    method ClaimNext(session: string) returns (r: Option<Row>)
      modifies this
      ensures rows == Claimed(old(rows), session)
      ensures r == match Head(old(rows), session)
                   case None => None
                   case Some(h) => Some(h.(status := Processing))
    {
      var row := Head(rows, session);
      if row.None? { return None; }
      rows := WithStatus(rows, row.value.id, Queued, Processing);
      r := Some(row.value.(status := Processing));
    }

    /** Takes out the row with this id if it is still queued; a row in a turn, and
        every other row, stays where it is. */
    method Cancel(id: string) returns (removed: bool)
      modifies this
      ensures rows == Delete(old(rows), id, false)
      ensures removed <==> exists r <- old(rows) :: r.id == id && r.status == Queued
      ensures forall r <- rows :: r.id == id ==> r.status == Processing
      ensures TakesOut(old(rows), rows, id, false)
    {
      var before := |rows|;
      DeleteTakesOut(rows, id, false);
      rows := Delete(rows, id, false);
      removed := |rows| < before;
    }

    /** No row with this id is left, and every other row stays where it is. */
    method MarkDone(id: string)
      modifies this
      ensures rows == Delete(old(rows), id, true)
      ensures forall r <- rows :: r.id != id
      ensures TakesOut(old(rows), rows, id, true)
    {
      DeleteTakesOut(rows, id, true);
      rows := Delete(rows, id, true);
    }

    /** No row with this id is left, and every other row stays where it is. */
    method MarkFailed(id: string)
      modifies this
      ensures rows == Delete(old(rows), id, true)
      ensures forall r <- rows :: r.id != id
      ensures TakesOut(old(rows), rows, id, true)
    {
      DeleteTakesOut(rows, id, true);
      rows := Delete(rows, id, true);
    }

    /** Exactly the session's rows, by position; in a sound table that is the order
        they were accepted in. */
    method List(session: string) returns (r: seq<Row>)
      ensures Ascending(r)
      ensures multiset(r) == multiset(Of(rows, session))
      ensures forall x :: x in r <==> x in rows && x.session == session
      ensures Valid(rows) ==> r == Of(rows, session)
    {
      var mine := Of(rows, session);
      r := ByPosition(mine);
      SortingSorts(mine);
      if Valid(rows) { ListInSendOrder(rows, session); }
      forall x ensures x in r <==> x in rows && x.session == session {
        OfMember(rows, session, x);
        assert x in r <==> x in multiset(r);
        assert x in mine <==> x in multiset(mine);
      }
    }
  }

  // ---------- what every statement keeps ----------

  /** Two rows of one session, one inserted before the other, are in position
      order, and a queued row never precedes a processing one. */
  predicate InOrder(a: Row, b: Row) {
    a.session == b.session ==> a.position < b.position && !(a.status == Queued && b.status == Processing)
  }

  ghost predicate Ordered(rows: seq<Row>) {
    forall i, j | 0 <= i < j < |rows| :: InOrder(rows[i], rows[j])
  }

  ghost predicate DistinctIds(rows: seq<Row>) {
    forall i, j | 0 <= i < j < |rows| :: rows[i].id != rows[j].id
  }

  ghost predicate Bounded(rows: seq<Row>) {
    forall s :: |Of(rows, s)| <= MAX_PENDING_PER_SESSION
  }

  ghost predicate Valid(rows: seq<Row>) {
    Ordered(rows) && DistinctIds(rows) && Bounded(rows)
  }

  lemma {:induction false} OfConcat(s: seq<Row>, t: seq<Row>, session: string)
    ensures Of(s + t, session) == Of(s, session) + Of(t, session)
  {
    if s == [] {
      assert s + t == t;
    } else {
      assert (s + t)[1..] == s[1..] + t;
      OfConcat(s[1..], t, session);
    }
  }

  lemma {:induction false} OfMember(rows: seq<Row>, session: string, r: Row)
    ensures r in Of(rows, session) <==> r in rows && r.session == session
  {
    if rows != [] {
      OfMember(rows[1..], session, r);
      assert rows == [rows[0]] + rows[1..];
    }
  }

  /** The reused numbers still lie above every row of the session. */
  lemma {:induction false} MaxIsAbove(rows: seq<Row>, session: string)
    ensures forall r <- rows :: r.session == session ==> r.position <= MaxPosition(rows, session)
  {
    if rows != [] {
      MaxIsAbove(rows[1..], session);
      assert rows == [rows[0]] + rows[1..];
      forall r | r in rows && r.session == session ensures r.position <= MaxPosition(rows, session) {
        if r in rows[1..] { OfMember(rows[1..], session, r); }
      }
    }
  }

  lemma AppendValid(rows: seq<Row>, session: string, text: string, attachments: seq<string>, id: string, now: string)
    requires Valid(rows) && forall r <- rows :: r.id != id
    requires Accept(rows, session, text, attachments, id, now).Ok?
    ensures Valid(rows + [Accept(rows, session, text, attachments, id, now).value])
  {
    var item := Accept(rows, session, text, attachments, id, now).value;
    MaxIsAbove(rows, session);
    forall s ensures |Of(rows + [item], s)| <= MAX_PENDING_PER_SESSION {
      OfConcat(rows, [item], s);
    }
  }

  /** Changing statuses only. */
  ghost predicate SameButStatus(a: seq<Row>, b: seq<Row>) {
    |a| == |b| && forall i | 0 <= i < |a| :: a[i].(status := Queued) == b[i].(status := Queued)
  }

  lemma {:induction false} SameButStatusOf(a: seq<Row>, b: seq<Row>, session: string)
    requires SameButStatus(a, b)
    ensures SameButStatus(Of(a, session), Of(b, session))
  {
    if a != [] {
      assert a[0].(status := Queued).session == b[0].(status := Queued).session;
      forall i | 0 <= i < |a| - 1
        ensures a[1..][i].(status := Queued) == b[1..][i].(status := Queued) {
        assert a[i + 1].(status := Queued) == b[i + 1].(status := Queued);
      }
      SameButStatusOf(a[1..], b[1..], session);
    }
  }

  lemma StatusChangeValid(a: seq<Row>, b: seq<Row>)
    requires Valid(a) && SameButStatus(a, b)
    requires forall i, j | 0 <= i < j < |b| ::
               b[i].session == b[j].session ==> !(b[i].status == Queued && b[j].status == Processing)
    ensures Valid(b)
  {
    forall i, j | 0 <= i < j < |b| ensures InOrder(b[i], b[j]) && b[i].id != b[j].id {
      assert InOrder(a[i], a[j]);
      assert a[i].(status := Queued) == b[i].(status := Queued);
      assert a[j].(status := Queued) == b[j].(status := Queued);
    }
    forall s ensures |Of(b, s)| <= MAX_PENDING_PER_SESSION {
      SameButStatusOf(a, b, s);
    }
  }

  lemma RecoverValid(rows: seq<Row>)
    requires Valid(rows)
    ensures Valid(Recovered(rows)) && SameButStatus(rows, Recovered(rows))
  {
    StatusChangeValid(rows, Recovered(rows));
  }

  /** The places where two tables of the same length differ. */
  ghost function ChangedRows(a: seq<Row>, b: seq<Row>): set<nat> {
    set i: nat | i < |a| && i < |b| && a[i] != b[i]
  }

  lemma ChangedGrow(rows: seq<Row>)
    requires rows != []
    ensures var last := |rows| - 1;
            var c := ChangedRows(rows[..last], Recovered(rows[..last]));
            && last !in c
            && ChangedRows(rows, Recovered(rows)) == if rows[last].status == Processing then c + {last} else c
  {
  }

  lemma {:induction false} InFlightChange(rows: seq<Row>)
    ensures |ChangedRows(rows, Recovered(rows))| == InFlight(rows)
  {
    if rows == [] {
      assert ChangedRows(rows, Recovered(rows)) == {};
    } else {
      InFlightChange(rows[..|rows| - 1]);
      InFlightOfLast(rows);
      ChangedGrow(rows);
    }
  }

  lemma {:induction false} InFlightOfLast(rows: seq<Row>)
    requires rows != []
    ensures InFlight(rows) == InFlight(rows[..|rows| - 1]) + if rows[|rows| - 1].status == Processing then 1 else 0
  {
    if |rows| > 1 {
      InFlightOfLast(rows[1..]);
      assert rows[1..][..|rows| - 2] == rows[..|rows| - 1][1..];
    }
  }

  lemma {:induction false} HeadIsFirstQueued(rows: seq<Row>, session: string)
    ensures Head(rows, session).Some? ==>
              var h := Head(rows, session).value;
              h in rows && h.session == session && h.status == Queued
              && forall r <- rows :: r.session == session && r.status == Queued ==> h.position <= r.position
    ensures Head(rows, session).None? ==>
              forall r <- rows :: r.session == session ==> r.status != Queued
  {
    if rows != [] {
      HeadIsFirstQueued(rows[1..], session);
      assert rows == [rows[0]] + rows[1..];
    }
  }

  /** Claiming marks one queued row, and only rows already processing precede it
      in its session. */
  lemma ClaimMarksHead(rows: seq<Row>, session: string) returns (k: nat)
    requires Valid(rows) && Head(rows, session).Some?
    ensures k < |rows| && rows[k] == Head(rows, session).value
    ensures Claimed(rows, session) == rows[k := rows[k].(status := Processing)]
    ensures forall i | 0 <= i < k && rows[i].session == session :: rows[i].status == Processing
  {
    var h := Head(rows, session).value;
    HeadIsFirstQueued(rows, session);
    k :| 0 <= k < |rows| && rows[k] == h;
    forall i | 0 <= i < k && rows[i].session == session ensures rows[i].status == Processing {
      assert InOrder(rows[i], rows[k]);
    }
  }

  lemma ClaimValid(rows: seq<Row>, session: string)
    requires Valid(rows)
    ensures Valid(Claimed(rows, session)) && SameButStatus(rows, Claimed(rows, session))
  {
    if Head(rows, session).Some? {
      var k := ClaimMarksHead(rows, session);
      var b := Claimed(rows, session);
      HeadIsFirstQueued(rows, session);
      forall i, j | 0 <= i < j < |b| && b[i].session == b[j].session
        ensures !(b[i].status == Queued && b[j].status == Processing) {
        assert InOrder(rows[i], rows[j]);
      }
      StatusChangeValid(rows, b);
    }
  }

  lemma {:induction false} DeleteAbsent(rows: seq<Row>, id: string, any: bool)
    requires forall r <- rows :: r.id != id || (!any && r.status != Queued)
    ensures Delete(rows, id, any) == rows
  {
    if rows != [] {
      assert rows == [rows[0]] + rows[1..];
      DeleteAbsent(rows[1..], id, any);
    }
  }

  function Gap(rows: seq<Row>, k: nat): seq<Row>
    requires k < |rows|
  {
    rows[..k] + rows[k + 1..]
  }

  /** A deletion by id takes out one row and closes the gap. */
  lemma {:induction false} DeleteAt(rows: seq<Row>, k: nat, any: bool)
    requires DistinctIds(rows) && k < |rows| && (any || rows[k].status == Queued)
    ensures Delete(rows, rows[k].id, any) == Gap(rows, k)
  {
    var id := rows[k].id;
    if k == 0 {
      DeleteAbsent(rows[1..], id, any);
    } else {
      assert rows[0].id != id;
      DeleteAt(rows[1..], k - 1, any);
      assert rows[..k] + rows[k + 1..] == [rows[0]] + (rows[1..][..k - 1] + rows[1..][k..]);
    }
  }

  lemma GapOf(rows: seq<Row>, k: nat, session: string)
    requires k < |rows|
    ensures Of(Gap(rows, k), session) == Of(rows[..k], session) + Of(rows[k + 1..], session)
    ensures Of(rows, session) ==
            Of(rows[..k], session) + (if rows[k].session == session then [rows[k]] else []) + Of(rows[k + 1..], session)
  {
    OfConcat(rows[..k], rows[k + 1..], session);
    assert rows == rows[..k] + [rows[k]] + rows[k + 1..];
    OfConcat(rows[..k] + [rows[k]], rows[k + 1..], session);
    OfConcat(rows[..k], [rows[k]], session);
  }

  lemma GapValid(rows: seq<Row>, k: nat)
    requires Valid(rows) && k < |rows|
    ensures Valid(Gap(rows, k))
  {
    var b := Gap(rows, k);
    assert forall i | 0 <= i < |b| :: b[i] == rows[if i < k then i else i + 1];
    forall s ensures |Of(b, s)| <= MAX_PENDING_PER_SESSION {
      GapOf(rows, k, s);
    }
  }

  lemma DeleteValid(rows: seq<Row>, id: string, any: bool)
    requires Valid(rows)
    ensures Valid(Delete(rows, id, any))
  {
    if k :| 0 <= k < |rows| && rows[k].id == id && (any || rows[k].status == Queued) {
      DeleteAt(rows, k, any);
      GapValid(rows, k);
    } else {
      DeleteAbsent(rows, id, any);
    }
  }

  /** Without the row the id and status ask for, and otherwise unchanged. */
  ghost predicate TakesOut(before: seq<Row>, after: seq<Row>, id: string, any: bool) {
    && (DistinctIds(before) ==>
          forall k | 0 <= k < |before| && before[k].id == id && (any || before[k].status == Queued) ::
            after == Gap(before, k))
    && ((forall r <- before :: r.id != id || (!any && r.status != Queued)) ==> after == before)
    && (Valid(before) ==> Valid(after))
  }

  lemma {:induction false} DeleteShortens(rows: seq<Row>, id: string, any: bool)
    ensures |Delete(rows, id, any)| <= |rows|
    ensures |Delete(rows, id, any)| < |rows| <==> exists r <- rows :: r.id == id && (any || r.status == Queued)
    ensures forall r <- Delete(rows, id, any) :: r in rows && (r.id != id || (!any && r.status != Queued))
  {
    if rows != [] {
      DeleteShortens(rows[1..], id, any);
      assert rows == [rows[0]] + rows[1..];
    }
  }

  lemma DeleteTakesOut(rows: seq<Row>, id: string, any: bool)
    ensures TakesOut(rows, Delete(rows, id, any), id, any)
    ensures |Delete(rows, id, any)| < |rows| <==> exists r <- rows :: r.id == id && (any || r.status == Queued)
    ensures forall r <- Delete(rows, id, any) :: r.id != id || (!any && r.status != Queued)
  {
    DeleteShortens(rows, id, any);
    if DistinctIds(rows) {
      forall k | 0 <= k < |rows| && rows[k].id == id && (any || rows[k].status == Queued)
        ensures Delete(rows, id, any) == Gap(rows, k)
      {
        DeleteAt(rows, k, any);
      }
    }
    if forall r <- rows :: r.id != id || (!any && r.status != Queued) { DeleteAbsent(rows, id, any); }
    if Valid(rows) { DeleteValid(rows, id, any); }
  }

  // ---------- accepting, against the backlog ----------

  lemma {:induction false} OfLast(rows: seq<Row>, session: string)
    requires Ordered(rows)
    ensures Latest(rows, session) == if Of(rows, session) == [] then None
                                     else Some(Of(rows, session)[|Of(rows, session)| - 1])
    ensures Latest(rows, session).Some? ==> Latest(rows, session).value.position == MaxPosition(rows, session)
    ensures Latest(rows, session).Some? ==>
              Latest(rows, session).value in rows && Latest(rows, session).value.session == session
  {
    if rows != [] {
      OfLast(rows[1..], session);
      assert forall r <- rows[1..] :: InOrder(rows[0], r);
    }
  }

  /** A message is accepted exactly when it is not blank, differs from the last
      unfinished message of its session and finds room; it then goes behind that
      message, as it was sent, numbered from 1 again when the session is empty. */
  lemma AcceptedIff(rows: seq<Row>, session: string, text: string, attachments: seq<string>, id: string, now: string)
    requires Valid(rows)
    ensures var backlog := Of(rows, session);
            var trimmed := RustStr.Trim(text);
            var r := Accept(rows, session, text, attachments, id, now);
            && (r.Ok? <==> trimmed != [] && |backlog| < 100
                           && (backlog == [] || backlog[|backlog| - 1].text != trimmed))
            && (r.Ok? ==> Of(rows + [r.value], session) == backlog + [r.value])
            && (r.Ok? ==> r.value.position == if backlog == [] then 1 else backlog[|backlog| - 1].position + 1)
            && (r.Ok? ==> IsMessage(r.value, session, text, attachments, id, now))
  {
    RustStr.TrimCuts(text);
    OfLast(rows, session);
    var r := Accept(rows, session, text, attachments, id, now);
    if Of(rows, session) == [] { NoPosition(rows, session); }
    if r.Ok? {
      OfConcat(rows, [r.value], session);
      assert Of([r.value], session) == [r.value];
    }
  }

  lemma {:induction false} NoPosition(rows: seq<Row>, session: string)
    requires Of(rows, session) == []
    ensures MaxPosition(rows, session) == 0
  {
    if rows != [] { NoPosition(rows[1..], session); }
  }

  // ---------- listing ----------

  lemma {:induction false} OfOrdered(rows: seq<Row>, session: string)
    requires Ordered(rows)
    ensures Ordered(Of(rows, session))
    ensures forall r <- Of(rows, session) :: r.session == session
  {
    if rows != [] {
      OfOrdered(rows[1..], session);
      var rest := Of(rows[1..], session);
      if rows[0].session == session {
        forall j | 0 <= j < |rest| ensures InOrder(rows[0], rest[j]) {
          OfMember(rows[1..], session, rest[j]);
        }
      }
    }
  }

  lemma {:induction false} SortedAlready(rows: seq<Row>)
    requires forall i, j | 0 <= i < j < |rows| :: rows[i].position < rows[j].position
    ensures ByPosition(rows) == rows
  {
    if rows != [] {
      SortedAlready(rows[1..]);
    }
  }

  predicate Ascending(rows: seq<Row>) {
    forall i, j | 0 <= i < j < |rows| :: rows[i].position <= rows[j].position
  }

  lemma AscendingFrom(r: Row, rows: seq<Row>)
    requires Ascending(rows) && forall x <- rows :: r.position <= x.position
    ensures Ascending([r] + rows)
  {
  }

  lemma {:induction false} InsertAdds(r: Row, sorted: seq<Row>)
    ensures multiset(Insert(r, sorted)) == multiset{r} + multiset(sorted)
  {
    if sorted != [] && r.position > sorted[0].position {
      InsertAdds(r, sorted[1..]);
      assert sorted == [sorted[0]] + sorted[1..];
    }
  }

  lemma {:induction false} InsertSorts(r: Row, sorted: seq<Row>)
    requires Ascending(sorted)
    ensures Ascending(Insert(r, sorted))
    ensures forall x <- Insert(r, sorted) :: x == r || x in sorted
  {
    if sorted == [] || r.position <= sorted[0].position {
      AscendingFrom(r, sorted);
    } else {
      var rest := Insert(r, sorted[1..]);
      InsertSorts(r, sorted[1..]);
      assert forall x <- sorted[1..] :: x in sorted && sorted[0].position <= x.position;
      AscendingFrom(sorted[0], rest);
    }
  }

  lemma {:induction false} SortingSorts(rows: seq<Row>)
    ensures Ascending(ByPosition(rows)) && multiset(ByPosition(rows)) == multiset(rows)
  {
    if rows != [] {
      SortingSorts(rows[1..]);
      InsertSorts(rows[0], ByPosition(rows[1..]));
      InsertAdds(rows[0], ByPosition(rows[1..]));
      assert rows == [rows[0]] + rows[1..];
    }
  }

  /** Sorting a session's rows by position gives them in the order they were
      accepted, processing rows first. */
  lemma ListInSendOrder(rows: seq<Row>, session: string)
    requires Valid(rows)
    ensures ByPosition(Of(rows, session)) == Of(rows, session)
    ensures forall i, j | 0 <= i < j < |Of(rows, session)| ::
              !(Of(rows, session)[i].status == Queued && Of(rows, session)[j].status == Processing)
  {
    OfOrdered(rows, session);
    var s := Of(rows, session);
    forall i, j | 0 <= i < j < |s|
      ensures s[i].position < s[j].position && !(s[i].status == Queued && s[j].status == Processing)
    {
      assert InOrder(s[i], s[j]);
    }
    SortedAlready(s);
  }
}
