/**
 The renames and deletes in the event log (apps/desktop/src/fileEvents.ts). Rows
 are what the query gives; a row's JSON payload is kept as what the code can see of it.
 */
module FileEvents {
  import opened Basics

  /** `Null` is the JSON value null: reading a field of it throws. */
  datatype Payload = Unreadable | Null | Body(from: Option<string>, to: Option<string>, path: Option<string>)

  datatype Kind = FileRenamed | FileDeleted | OtherKind

  datatype Row = Row(seqNo: nat, stream: int, kind: Kind, payload: Payload)

  datatype FileEvent = Renamed(from: string, to: string) | Deleted(path: string)

  // ---- The log and what the query takes from it

  /** Rows are only added, each with a number over the last. */
  ghost predicate IsLog(log: seq<Row>) {
    && (forall i | 0 <= i < |log| :: log[i].seqNo > 0)
    && (forall i, j | 0 <= i < j < |log| :: log[i].seqNo < log[j].seqNo)
  }

  /** The newest row's number, 0 for none. */
  function Newest(log: seq<Row>): nat { if log == [] then 0 else log[|log| - 1].seqNo }

  predicate Wanted(r: Row, stream: int, after: nat, upTo: nat) {
    after < r.seqNo <= upTo && r.stream == stream && !r.kind.OtherKind?
  }

  /** The stream's renames and deletes past `after`, up to `upTo`, in order. */
  function Between(log: seq<Row>, stream: int, after: nat, upTo: nat): seq<Row> {
    if log == [] then []
    else
      var n := |log| - 1;
      Between(log[..n], stream, after, upTo) + if Wanted(log[n], stream, after, upTo) then [log[n]] else []
  }

  /** What is in the log past `after`. */
  function Past(log: seq<Row>, stream: int, after: nat): seq<Row> { Between(log, stream, after, Newest(log)) }

  const PAGE := 200

  function Page(rows: seq<Row>): seq<Row> { rows[..Min(PAGE, |rows|)] }

  // ---- What a page of rows says

  function EventOf(r: Row): seq<FileEvent> {
    match (r.kind, r.payload)
    case (FileRenamed, Body(Some(from), Some(to), _)) => [Renamed(from, to)]
    case (FileDeleted, Body(_, _, Some(path))) => [Deleted(path)]
    case _ => []
  }

  function EventsOf(rows: seq<Row>): seq<FileEvent> {
    if rows == [] then [] else EventsOf(rows[..|rows| - 1]) + EventOf(rows[|rows| - 1])
  }

  predicate Throws(rows: seq<Row>) { exists i | 0 <= i < |rows| :: rows[i].payload.Null? }

  function MaxSeq(rows: seq<Row>, after: nat): nat {
    if rows == [] then after else Max(MaxSeq(rows[..|rows| - 1], after), rows[|rows| - 1].seqNo)
  }

  /** The events and the last number read; nothing when reading a row throws. */
  method FileEventsFromRows(rows: seq<Row>, after: nat) returns (next: Option<(seq<FileEvent>, nat)>)
    requires forall i | 0 <= i < |rows| :: !rows[i].kind.OtherKind?
    ensures next == if Throws(rows) then None else Some((EventsOf(rows), MaxSeq(rows, after)))
  {
    var events, cursor := [], after;
    for i := 0 to |rows|
      invariant !Throws(rows[..i])
      invariant events == EventsOf(rows[..i]) && cursor == MaxSeq(rows[..i], after)
    {
      var row := rows[i];
      assert rows[..i + 1][..i] == rows[..i];
      cursor := Max(cursor, row.seqNo);
      match row.payload {
        case Unreadable => continue;
        case Null => return None;
        case Body(from, to, path) =>
          if row.kind.FileRenamed? && from.Some? && to.Some? {
            events := events + [Renamed(from.value, to.value)];
          } else if row.kind.FileDeleted? && path.Some? {
            events := events + [Deleted(path.value)];
          }
      }
    }
    assert rows[..|rows|] == rows;
    next := Some((events, cursor));
  }

  // ---- The query, cut at any number, is the query

  lemma LogStart(log: seq<Row>, k: nat)
    requires IsLog(log) && k <= |log|
    ensures IsLog(log[..k]) && Newest(log[..k]) <= Newest(log)
    ensures forall i | k <= i < |log| :: Newest(log[..k]) < log[i].seqNo
  {}

  lemma {:induction false} BetweenNone(log: seq<Row>, stream: int, after: nat, upTo: nat)
    requires forall i | 0 <= i < |log| :: !Wanted(log[i], stream, after, upTo)
    ensures Between(log, stream, after, upTo) == []
  {
    if log != [] { BetweenNone(log[..|log| - 1], stream, after, upTo); }
  }

  lemma {:induction false} BetweenJoin(log: seq<Row>, stream: int, after: nat, mid: nat, upTo: nat)
    requires IsLog(log) && after <= mid <= upTo
    ensures Between(log, stream, after, upTo) == Between(log, stream, after, mid) + Between(log, stream, mid, upTo)
  {
    if log != [] {
      var n := |log| - 1;
      BetweenJoin(log[..n], stream, after, mid, upTo);
      if log[n].seqNo <= mid { BetweenNone(log[..n], stream, mid, upTo); }
      hide IsLog;
    }
  }

  /** Rows added later are past every number there was. */
  lemma {:induction false} BetweenOfStart(log: seq<Row>, stream: int, after: nat, upTo: nat, k: nat)
    requires IsLog(log) && k <= |log| && (k == |log| || upTo < log[k].seqNo)
    ensures Between(log, stream, after, upTo) == Between(log[..k], stream, after, upTo)
    decreases |log|
  {
    if k < |log| {
      BetweenOfStart(log[..|log| - 1], stream, after, upTo, k);
      assert log[..|log| - 1][..k] == log[..k];
    } else {
      assert log[..k] == log;
    }
  }

  /** A row added later is past every number there was. */
  lemma BetweenOfMore(log: seq<Row>, row: Row, stream: int, after: nat, upTo: nat)
    requires upTo < row.seqNo
    ensures Between(log + [row], stream, after, upTo) == Between(log, stream, after, upTo)
  {
    assert (log + [row])[..|log|] == log;
  }

  lemma LogSnoc(log: seq<Row>)
    requires IsLog(log) && log != []
    ensures log[|log| - 1].seqNo > 0 && forall r | r in log[..|log| - 1] :: r.seqNo < log[|log| - 1].seqNo
    ensures log == log[..|log| - 1] + [log[|log| - 1]]
  {}

  lemma SnocIsLog(rows: seq<Row>, row: Row)
    requires IsLog(rows) && row.seqNo > 0 && forall r | r in rows :: r.seqNo < row.seqNo
    ensures IsLog(rows + [row])
  {
    assert forall i | 0 <= i < |rows| :: rows[i] in rows;
  }

  lemma {:induction false} BetweenIsWanted(log: seq<Row>, stream: int, after: nat, upTo: nat)
    requires IsLog(log)
    ensures forall r | r in Between(log, stream, after, upTo) :: Wanted(r, stream, after, upTo) && r in log
    ensures IsLog(Between(log, stream, after, upTo))
  {
    if log != [] {
      var n := |log| - 1;
      BetweenIsWanted(log[..n], stream, after, upTo);
      LogSnoc(log);
      var rows := Between(log[..n], stream, after, upTo);
      hide IsLog, Between;
      if Wanted(log[n], stream, after, upTo) { SnocIsLog(rows, log[n]); }
    }
  }

  lemma {:induction false} BetweenOnly(log: seq<Row>, stream: int, after: nat, a: nat, b: nat)
    requires forall i | 0 <= i < |log| :: log[i].seqNo <= a && log[i].seqNo <= b
    ensures Between(log, stream, after, a) == Between(log, stream, after, b)
  {
    if log != [] { BetweenOnly(log[..|log| - 1], stream, after, a, b); }
  }

  /** The first rows of a query are the query up to the last of them. */
  lemma {:induction false} BetweenFirst(log: seq<Row>, stream: int, after: nat, upTo: nat, n: nat)
    requires IsLog(log) && 0 < n <= |Between(log, stream, after, upTo)|
    ensures var rows := Between(log, stream, after, upTo);
            after < rows[n - 1].seqNo <= upTo && Between(log, stream, after, rows[n - 1].seqNo) == rows[..n]
    decreases |log|
  {
    var m := |log| - 1;
    var rows, fewer := Between(log, stream, after, upTo), Between(log[..m], stream, after, upTo);
    BetweenIsWanted(log, stream, after, upTo);
    assert rows[n - 1] in rows;
    if n <= |fewer| {
      BetweenFirst(log[..m], stream, after, upTo, n);
      assert rows[n - 1] == fewer[n - 1] && rows[..n] == fewer[..n];
      BetweenIsWanted(log[..m], stream, after, upTo);
      assert fewer[n - 1] in fewer;
      BetweenOfStart(log, stream, after, rows[n - 1].seqNo, m);
    } else {
      assert rows[n - 1] == log[m] && rows[..n] == rows;
      BetweenOnly(log, stream, after, upTo, log[m].seqNo);
    }
  }

  lemma EventsOn(rows: seq<Row>, r: Row)
    ensures EventsOf(rows + [r]) == EventsOf(rows) + EventOf(r)
  {
    assert (rows + [r])[..|rows|] == rows;
  }

  lemma NoEvents()
    ensures EventsOf([]) == []
  {}

  lemma Appended(a: seq<FileEvent>, b: seq<FileEvent>, c: seq<FileEvent>)
    ensures a + b + c == a + (b + c)
  {}

  lemma {:induction false} EventsJoin(a: seq<Row>, b: seq<Row>)
    ensures EventsOf(a + b) == EventsOf(a) + EventsOf(b)
    decreases |b|
  {
    hide EventOf, EventsOf;
    if b == [] {
      NoEvents();
      assert a + b == a;
    } else {
      var c, r := b[..|b| - 1], b[|b| - 1];
      assert b == c + [r] && a + b == a + c + [r];
      EventsJoin(a, c);
      EventsOn(a + c, r);
      EventsOn(c, r);
      Appended(EventsOf(a), EventsOf(c), EventOf(r));
    }
  }

  lemma {:induction false} MaxOfSorted(rows: seq<Row>, after: nat)
    requires IsLog(rows) && forall i | 0 <= i < |rows| :: after < rows[i].seqNo
    ensures MaxSeq(rows, after) == if rows == [] then after else rows[|rows| - 1].seqNo
  {
    if rows != [] { MaxOfSorted(rows[..|rows| - 1], after); }
  }

  lemma BetweenNothing(log: seq<Row>, stream: int, after: nat)
    ensures Between(log, stream, after, after) == []
  {
    BetweenNone(log, stream, after, after);
  }

  lemma PageOfLog(rows: seq<Row>, after: nat)
    requires IsLog(rows) && forall r | r in rows :: after < r.seqNo
    ensures IsLog(Page(rows)) && (Page(rows) == [] <==> rows == [])
    ensures MaxSeq(Page(rows), after) == if rows == [] then after else Page(rows)[|Page(rows)| - 1].seqNo
  {
    MaxOfSorted(Page(rows), after);
  }

  /** What a page read past `after` makes of it: the events in between, and from
      there what was past the page. */
  lemma PageIsBetween(log: seq<Row>, k: nat, stream: int, after: nat)
    requires IsLog(log) && k <= |log| && after <= Newest(log[..k])
    ensures var rows := Past(log[..k], stream, after);
            var upTo := MaxSeq(Page(rows), after);
            && after <= upTo <= Newest(log[..k])
            && Between(log, stream, after, upTo) == Page(rows)
            && Past(log[..k], stream, upTo) == rows[|Page(rows)|..]
  {
    var at := log[..k];
    var top := Newest(at);
    LogStart(log, k);
    var rows := Past(at, stream, after);
    var page := Page(rows);
    var upTo := MaxSeq(page, after);
    BetweenIsWanted(at, stream, after, top);
    PageOfLog(rows, after);
    if page == [] {
      BetweenNothing(log, stream, after);
    } else {
      assert page[|page| - 1] == rows[|page| - 1];
      BetweenFirst(at, stream, after, top, |page|);
      BetweenOfStart(log, stream, after, upTo, k);
      BetweenJoin(at, stream, after, upTo, top);
      assert rows == page + Between(at, stream, upTo, top);
    }
  }

  // ---- What the rows of a query say

  /** A row tells of an event when its payload has what that kind of event needs. */
  ghost predicate Tells(r: Row, e: FileEvent) {
    match e
    case Renamed(from, to) =>
      r.kind == FileRenamed && r.payload.Body? && r.payload.from == Some(from) && r.payload.to == Some(to)
    case Deleted(path) => r.kind == FileDeleted && r.payload.Body? && r.payload.path == Some(path)
  }

  ghost predicate TellsOf(r: Row, stream: int, after: nat, upTo: nat) {
    after < r.seqNo <= upTo && r.stream == stream && exists e :: Tells(r, e)
  }

  lemma EventTold(r: Row, e: FileEvent)
    ensures Tells(r, e) <==> EventOf(r) == [e]
    ensures EventOf(r) == [] || exists x :: EventOf(r) == [x]
  {}

  lemma ToldIffWanted(r: Row, stream: int, after: nat, upTo: nat)
    ensures TellsOf(r, stream, after, upTo) <==> Wanted(r, stream, after, upTo) && EventOf(r) != []
    ensures EventOf(r) != [] ==> |EventOf(r)| == 1 && Tells(r, EventOf(r)[0])
  {
    if EventOf(r) != [] { EventTold(r, EventOf(r)[0]); }
    if e :| Tells(r, e) { EventTold(r, e); }
  }

  lemma EventsOfLast(log: seq<Row>, stream: int, after: nat, upTo: nat)
    requires log != []
    ensures var before, r := log[..|log| - 1], log[|log| - 1];
            EventsOf(Between(log, stream, after, upTo))
            == EventsOf(Between(before, stream, after, upTo))
               + if Wanted(r, stream, after, upTo) then EventOf(r) else []
  {
    var before, r := log[..|log| - 1], log[|log| - 1];
    var rows := Between(before, stream, after, upTo);
    if Wanted(r, stream, after, upTo) { EventsOn(rows, r); }
    assert rows + [] == rows;
    hide EventsOf;
  }

  /** `rows` are the log's rows that tell of an event. */
  ghost predicate AreTold(rows: seq<Row>, log: seq<Row>, stream: int, after: nat, upTo: nat) {
    forall r :: r in rows <==> r in log && TellsOf(r, stream, after, upTo)
  }

  ghost predicate EachTells(rows: seq<Row>, events: seq<FileEvent>) {
    |events| == |rows| && forall i | 0 <= i < |rows| :: Tells(rows[i], events[i])
  }

  lemma ToldThen(rows: seq<Row>, log: seq<Row>, r: Row, stream: int, after: nat, upTo: nat)
    requires AreTold(rows, log, stream, after, upTo)
    ensures AreTold(if TellsOf(r, stream, after, upTo) then rows + [r] else rows, log + [r], stream, after, upTo)
  {
    hide TellsOf;
  }

  lemma TellsThen(rows: seq<Row>, events: seq<FileEvent>, r: Row, e: FileEvent)
    requires EachTells(rows, events) && Tells(r, e)
    ensures EachTells(rows + [r], events + [e])
  {
    hide Tells;
  }

  lemma TellsOne(r: Row, e: FileEvent, f: FileEvent)
    requires Tells(r, e) && Tells(r, f)
    ensures e == f
  {}

  lemma ToldOn(
    before: seq<Row>, r: Row, stream: int, after: nat, upTo: nat, rows: seq<Row>, events: seq<FileEvent>)
    returns (more: seq<Row>)
    requires IsLog(rows) && AreTold(rows, before, stream, after, upTo) && EachTells(rows, events)
    requires r.seqNo > 0 && forall x | x in before :: x.seqNo < r.seqNo
    ensures IsLog(more) && AreTold(more, before + [r], stream, after, upTo)
    ensures EachTells(more, events + if Wanted(r, stream, after, upTo) then EventOf(r) else [])
  {
    ToldIffWanted(r, stream, after, upTo);
    ToldThen(rows, before, r, stream, after, upTo);
    assert forall x | x in rows :: x in before;
    hide EventOf, Tells, TellsOf, AreTold, EachTells, Wanted, IsLog;
    if TellsOf(r, stream, after, upTo) {
      assert EventOf(r) == [EventOf(r)[0]];
      TellsThen(rows, events, r, EventOf(r)[0]);
      SnocIsLog(rows, r);
      more := rows + [r];
    } else {
      assert events + [] == events;
      more := rows;
    }
  }

  /** The events of a query are what its rows tell, each row that tells of one once, in
      the rows' order. */
  lemma {:induction false} EventsAreTold(log: seq<Row>, stream: int, after: nat, upTo: nat) returns (rows: seq<Row>)
    requires IsLog(log)
    ensures IsLog(rows) && AreTold(rows, log, stream, after, upTo)
    ensures EachTells(rows, EventsOf(Between(log, stream, after, upTo)))
  {
    if log == [] {
      rows := [];
    } else {
      LogSnoc(log);
      EventsOfLast(log, stream, after, upTo);
      rows := EventsAreTold(log[..|log| - 1], stream, after, upTo);
      hide IsLog, Between, EventsOf, AreTold, EachTells, EventOf, Wanted;
      rows := ToldOn(log[..|log| - 1], log[|log| - 1], stream, after, upTo, rows,
                     EventsOf(Between(log[..|log| - 1], stream, after, upTo)));
    }
  }

  // ---- A log whose payloads were checked as they were written

  /** A rename's or delete's payload is an object, as its schema has it. */
  ghost predicate AllChecked(log: seq<Row>) {
    forall i | 0 <= i < |log| :: log[i].kind.OtherKind? || !log[i].payload.Null?
  }

  /** No page of such a log throws. */
  lemma CheckedReads(log: seq<Row>, stream: int, after: nat)
    requires IsLog(log) && AllChecked(log)
    ensures !Throws(Past(log, stream, after)) && !Throws(Page(Past(log, stream, after)))
  {
    var rows := Past(log, stream, after);
    BetweenIsWanted(log, stream, after, Newest(log));
    hide Between, Newest;
    forall i | 0 <= i < |rows| ensures !rows[i].payload.Null? {
      assert rows[i] in rows;
      var k :| 0 <= k < |log| && log[k] == rows[i];
    }
  }
}
