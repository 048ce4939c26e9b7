/**
 Following a stream's renames and deletes (apps/desktop/src/watchFileEvents.ts):
 the watch, and every run of it against a log that grows, answers that come late or
 not at all, and notices that come while a read is out.
 */
module FileEventWatch {
  import opened Basics
  import opened FileEvents

  /** What is asked of the log: the newest number, or the rows past one. */
  datatype Query = First | After(seqNo: nat)

  /** The watch's variables. */
  datatype Watch = Watch(live: bool, cursor: Option<nat>, reading: bool) {
    /** A read starts unless one is out. */
    function Read(): (Watch, Option<Query>) {
      if reading then (this, None)
      else (this.(reading := true), Some(if cursor.None? then First else After(cursor.value)))
    }

    function FirstAnswered(newest: nat): Watch { this.(cursor := Some(newest), reading := false) }

    function Failed(): Watch { this.(reading := false) }

    function Stopped(): Watch { this.(live := false) }
  }

  /** The rows past the cursor came; what is delivered of them. */
  function AfterRows(w: Watch, rows: seq<Row>): (Watch, seq<FileEvent>)
    requires w.cursor.Some?
  {
    if Throws(rows) then (w.(reading := false), [])
    else (w.(cursor := Some(MaxSeq(rows, w.cursor.value)), reading := false), if w.live then EventsOf(rows) else [])
  }

  class FileEventWatch {
    var live: bool
    var cursor: Option<nat>
    var reading: bool

    ghost function View(): Watch
      reads this
    {
      Watch(live, cursor, reading)
    }

    constructor ()
      ensures View() == Watch(true, None, false)
    {
      live, cursor, reading := true, None, false;
    }

    method Read() returns (query: Option<Query>)
      modifies this
      ensures (View(), query) == old(View()).Read()
    {
      if reading { return None; }
      reading := true;
      query := Some(if cursor.None? then First else After(cursor.value));
    }

    method FirstAnswered(newest: nat)
      modifies this
      ensures View() == old(View()).FirstAnswered(newest)
    {
      cursor := Some(newest);
      reading := false;
    }

    method RowsAnswered(rows: seq<Row>) returns (events: seq<FileEvent>)
      requires cursor.Some? && forall i | 0 <= i < |rows| :: !rows[i].kind.OtherKind?
      modifies this
      ensures (View(), events) == AfterRows(old(View()), rows)
    {
      events := [];
      var next := FileEventsFromRows(rows, cursor.value);
      if next.Some? {
        cursor := Some(next.value.1);
        if live { events := next.value.0; }
      }
      reading := false;
    }

    method Failed()
      modifies this
      ensures View() == old(View()).Failed()
    {
      reading := false;
    }

    method Stop()
      modifies this
      ensures View() == old(View()).Stopped()
    {
      live := false;
    }
  }

  // ---- The watch in its surroundings

  /** A query out, and how long the log was when it was sent. */
  datatype Flight = Flight(query: Query, sent: nat)

  /** `start` is the first cursor, `stop` the cursor when the watch was stopped. */
  datatype World = World(log: seq<Row>, watch: Watch, flight: Option<Flight>, delivered: seq<FileEvent>,
                         start: nat, stop: Option<nat>)

  datatype Action =
    | Added(row: Row)
    | Noticed
    | Answered(seen: nat)
    | Dropped
    | Unwatched

  predicate Can(w: World, a: Action) {
    match a
    case Added(row) => row.seqNo > Newest(w.log)
    case Noticed => w.watch.live
    case Answered(seen) => w.flight.Some? && w.flight.value.sent <= seen <= |w.log|
    case Dropped => w.flight.Some?
    case Unwatched => w.watch.live
  }

  /** The world after a step. An answer is what the log said at some moment between
      the question and now. */
  function Step(stream: int, w: World, a: Action): World
    requires Can(w, a) && (w.flight.Some? && w.flight.value.query.After? ==> w.watch.cursor.Some?)
  {
    match a
    case Added(row) => w.(log := w.log + [row])
    case Noticed =>
      var (watch, query) := w.watch.Read();
      w.(watch := watch, flight := if query.None? then w.flight else Some(Flight(query.value, |w.log|)))
    case Answered(seen) =>
      var log := w.log[..seen];
      (match w.flight.value.query
       case First => w.(watch := w.watch.FirstAnswered(Newest(log)), flight := None, start := Newest(log))
       case After(seqNo) =>
         var (watch, events) := AfterRows(w.watch, Page(Past(log, stream, seqNo)));
         w.(watch := watch, flight := None, delivered := w.delivered + events))
    case Dropped => w.(watch := w.watch.Failed(), flight := None)
    case Unwatched => w.(watch := w.watch.Stopped(), stop := w.watch.cursor)
  }

  /** The watch begins with a read. */
  function Begun(log: seq<Row>): World {
    World(log, Watch(true, None, true), Some(Flight(First, |log|)), [], 0, None)
  }

  /** How far delivery has come: the cursor, or where it was when the watch stopped. */
  function Reached(w: World): nat {
    if w.watch.live then (if w.watch.cursor.Some? then w.watch.cursor.value else w.start)
    else if w.stop.Some? then w.stop.value else w.start
  }

  /** What should have been delivered: everything past the start, up to where delivery is. */
  function Delivered(stream: int, w: World): seq<FileEvent> {
    EventsOf(Between(w.log, stream, w.start, Reached(w)))
  }

  ghost predicate Inv(stream: int, w: World) {
    && IsLog(w.log)
    && w.watch.reading == w.flight.Some?
    && (w.flight.Some? ==> w.flight.value.sent <= |w.log|)
    && (w.flight.Some? ==> w.flight.value.query == if w.watch.cursor.None? then First else After(w.watch.cursor.value))
    && (w.flight.Some? && w.watch.cursor.Some? ==> w.watch.cursor.value <= Newest(w.log[..w.flight.value.sent]))
    && (w.watch.cursor.None? ==> w.stop.None? && w.delivered == [])
    && w.start <= Reached(w) <= Newest(w.log)
    && (w.watch.cursor.Some? ==> Reached(w) <= w.watch.cursor.value <= Newest(w.log))
    && (w.stop.Some? ==> !w.watch.live)
    && w.delivered == Delivered(stream, w)
  }

  ghost predicate Moves(stream: int, w: World, a: Action, w': World) {
    && Can(w, a)
    && (w.flight.Some? && w.flight.value.query.After? ==> w.watch.cursor.Some?)
    && w' == Step(stream, w, a)
  }

  ghost predicate IsRun(stream: int, run: seq<World>, actions: seq<Action>) {
    && |run| == |actions| + 1 && run[0] == Begun(run[0].log) && IsLog(run[0].log)
    && forall i | 0 <= i < |actions| :: Moves(stream, run[i], actions[i], run[i + 1])
  }

  lemma LogGrows(log: seq<Row>, row: Row)
    requires IsLog(log) && row.seqNo > Newest(log)
    ensures IsLog(log + [row]) && Newest(log + [row]) == row.seqNo
  {
    assert forall i | 0 <= i < |log| :: log[i].seqNo <= Newest(log);
  }

  lemma StartOfMore(log: seq<Row>, row: Row, k: nat)
    requires k <= |log|
    ensures (log + [row])[..k] == log[..k]
  {}

  lemma AddedKeeps(stream: int, w: World, row: Row)
    requires Inv(stream, w) && Can(w, Added(row))
    ensures Inv(stream, Step(stream, w, Added(row)))
  {
    hide IsLog, Newest, Between, EventsOf;
    LogGrows(w.log, row);
    BetweenOfMore(w.log, row, stream, w.start, Reached(w));
    if w.flight.Some? { StartOfMore(w.log, row, w.flight.value.sent); }
    var w' := w.(log := w.log + [row]);
    assert Step(stream, w, Added(row)) == w' && Reached(w') == Reached(w);
  }

  lemma FirstAnsweredKeeps(stream: int, w: World, seen: nat)
    requires Inv(stream, w) && Can(w, Answered(seen)) && w.watch.cursor.None?
    ensures Inv(stream, Step(stream, w, Answered(seen)))
  {
    LogStart(w.log, seen);
    hide IsLog, Newest, Between;
    BetweenNothing(w.log, stream, Newest(w.log[..seen]));
  }

  /** The cursor is no further than what an answer has seen. */
  lemma AnswerBounds(stream: int, w: World, seen: nat)
    requires Inv(stream, w) && Can(w, Answered(seen)) && w.watch.cursor.Some?
    ensures w.watch.cursor.value <= Newest(w.log[..seen])
  {
    LogStart(w.log, seen);
    assert w.log[..seen][..w.flight.value.sent] == w.log[..w.flight.value.sent];
    LogStart(w.log[..seen], w.flight.value.sent);
  }

  lemma RowsAnsweredKeeps(stream: int, w: World, seen: nat)
    requires Inv(stream, w) && Can(w, Answered(seen)) && w.watch.cursor.Some?
    ensures Inv(stream, Step(stream, w, Answered(seen)))
  {
    var cursor := w.watch.cursor.value;
    var rows := Past(w.log[..seen], stream, cursor);
    LogStart(w.log, seen);
    hide IsLog, Past, Page, Between, Newest, MaxSeq, EventsOf, Throws;
    if !Throws(Page(rows)) {
      AnswerBounds(stream, w, seen);
      var upTo := MaxSeq(Page(rows), cursor);
      PageIsBetween(w.log, seen, stream, cursor);
      if w.watch.live {
        BetweenJoin(w.log, stream, w.start, cursor, upTo);
        EventsJoin(Between(w.log, stream, w.start, cursor), Page(rows));
      }
    }
  }

  lemma AsideKeeps(stream: int, w: World, a: Action)
    requires Inv(stream, w) && Can(w, a) && (a.Noticed? || a.Dropped? || a.Unwatched?)
    ensures Inv(stream, Step(stream, w, a)) && Step(stream, w, a).delivered == w.delivered
  {
    assert w.log[..|w.log|] == w.log;
    hide IsLog, Newest, Between, EventsOf;
  }

  lemma AnswerDelivers(stream: int, w: World, seen: nat)
    requires Inv(stream, w) && Can(w, Answered(seen))
    ensures w.delivered <= Step(stream, w, Answered(seen)).delivered
    ensures !w.watch.live ==> Step(stream, w, Answered(seen)).delivered == w.delivered
  {
    hide IsLog, Newest, Between, EventsOf, Past, Page, MaxSeq, Throws, Delivered;
  }

  /** One step keeps the invariant; what was delivered stays, and nothing more comes
      after the stop. */
  lemma StepKeeps(stream: int, w: World, a: Action)
    requires Inv(stream, w) && Can(w, a)
    ensures Inv(stream, Step(stream, w, a))
    ensures w.delivered <= Step(stream, w, a).delivered
    ensures !w.watch.live ==> Step(stream, w, a).delivered == w.delivered
  {
    match a
    case Added(row) =>
      AddedKeeps(stream, w, row);
      hide Inv;
    case Answered(seen) =>
      if w.watch.cursor.Some? { RowsAnsweredKeeps(stream, w, seen); } else { FirstAnsweredKeeps(stream, w, seen); }
      AnswerDelivers(stream, w, seen);
      hide Inv, Step;
    case _ =>
      AsideKeeps(stream, w, a);
      hide Inv, Step;
  }

  lemma MoveOf(stream: int, run: seq<World>, actions: seq<Action>, i: nat)
    requires IsRun(stream, run, actions) && i < |actions|
    ensures Moves(stream, run[i], actions[i], run[i + 1])
  {}

  lemma MoveKeeps(stream: int, w: World, a: Action, w': World)
    requires Inv(stream, w) && Moves(stream, w, a, w')
    ensures Inv(stream, w')
  {
    hide Inv, Can;
    StepKeeps(stream, w, a);
  }

  lemma {:induction false} RunKeeps(stream: int, run: seq<World>, actions: seq<Action>, i: nat)
    requires IsRun(stream, run, actions) && i <= |actions|
    ensures Inv(stream, run[i])
  {
    if i == 0 {
      BetweenNothing(run[0].log, stream, 0);
    } else {
      hide IsRun, Inv, Moves;
      RunKeeps(stream, run, actions, i - 1);
      MoveOf(stream, run, actions, i - 1);
      MoveKeeps(stream, run[i - 1], actions[i - 1], run[i]);
    }
  }

  /** In every run: what was delivered is the stream's renames and deletes numbered
      over the start and up to the cursor, each once and in order; after the stop, up
      to the cursor the watch stopped at. */
  lemma DeliversExactly(stream: int, run: seq<World>, actions: seq<Action>, i: nat)
    requires IsRun(stream, run, actions) && i <= |actions|
    ensures var w := run[i];
            && (w.watch.cursor.None? ==> w.delivered == [])
            && (w.watch.live && w.watch.cursor.Some? ==>
                  w.delivered == EventsOf(Between(w.log, stream, w.start, w.watch.cursor.value)))
            && (w.stop.Some? ==> w.delivered == EventsOf(Between(w.log, stream, w.start, w.stop.value)))
  {
    RunKeeps(stream, run, actions, i);
  }

  /** How far delivery is to have come: to the cursor, or where it was at the stop. */
  ghost predicate UpTo(w: World, upTo: nat) {
    if w.watch.live then w.watch.cursor == Some(upTo) else w.stop == Some(upTo)
  }

  /** In every run: there are rows of the log, numbered upwards, that the deliveries are
      told by one by one: just the stream's rows over the start and up to the cursor, or
      where it was at the stop, that tell of a rename or a delete. */
  lemma DeliversWhatRowsTell(stream: int, run: seq<World>, actions: seq<Action>, i: nat, upTo: nat)
    returns (rows: seq<Row>)
    requires IsRun(stream, run, actions) && i <= |actions| && UpTo(run[i], upTo)
    ensures forall j, k | 0 <= j < k < |rows| :: rows[j].seqNo < rows[k].seqNo
    ensures forall r :: r in rows <==> r in run[i].log && TellsOf(r, stream, run[i].start, upTo)
    ensures |rows| == |run[i].delivered| && forall j | 0 <= j < |rows| :: Tells(rows[j], run[i].delivered[j])
  {
    RunKeeps(stream, run, actions, i);
    DeliversExactly(stream, run, actions, i);
    rows := EventsAreTold(run[i].log, stream, run[i].start, upTo);
  }

  /** So an event is delivered just when some such row tells of it. */
  lemma DeliveredIffTold(stream: int, run: seq<World>, actions: seq<Action>, i: nat, upTo: nat, e: FileEvent)
    requires IsRun(stream, run, actions) && i <= |actions| && UpTo(run[i], upTo)
    ensures e in run[i].delivered
            <==> exists r :: r in run[i].log && r.stream == stream && run[i].start < r.seqNo <= upTo && Tells(r, e)
  {
    var w := run[i];
    var rows := DeliversWhatRowsTell(stream, run, actions, i, upTo);
    hide IsRun, Tells;
    if e in w.delivered {
      var j :| 0 <= j < |w.delivered| && w.delivered[j] == e;
      assert rows[j] in rows;
    }
    if r :| r in w.log && r.stream == stream && w.start < r.seqNo <= upTo && Tells(r, e) {
      assert TellsOf(r, stream, w.start, upTo);
      var j :| 0 <= j < |rows| && rows[j] == r;
      TellsOne(r, e, w.delivered[j]);
    }
  }

  // ---- When a read catches up

  /** What a read that is answered leaves past the cursor. */
  lemma AnswerLeaves(stream: int, w: World, seen: nat)
    requires Inv(stream, w) && Can(w, Answered(seen)) && w.watch.cursor.Some?
    requires !Throws(Page(Past(w.log[..seen], stream, w.watch.cursor.value)))
    ensures var rows := Past(w.log[..seen], stream, w.watch.cursor.value);
            var w' := Step(stream, w, Answered(seen));
            && w'.watch.cursor.Some?
            && Past(w.log, stream, w.watch.cursor.value)
                == rows + Between(w.log, stream, Newest(w.log[..seen]), Newest(w.log))
            && Past(w'.log, stream, w'.watch.cursor.value)
            == rows[|Page(rows)|..] + Between(w.log, stream, Newest(w.log[..seen]), Newest(w.log))
  {
    var cursor, mid, top := w.watch.cursor.value, Newest(w.log[..seen]), Newest(w.log);
    var rows := Past(w.log[..seen], stream, cursor);
    LogStart(w.log, seen);
    AnswerBounds(stream, w, seen);
    PageIsBetween(w.log, seen, stream, cursor);
    var upTo := MaxSeq(Page(rows), cursor);
    assert seen < |w.log| ==> mid < w.log[seen].seqNo;
    hide IsLog, Page, Between, Newest, MaxSeq, EventsOf, Throws;
    BetweenJoin(w.log, stream, cursor, mid, top);
    BetweenOfStart(w.log, stream, cursor, mid, seen);
    BetweenJoin(w.log, stream, upTo, mid, top);
    BetweenOfStart(w.log, stream, upTo, mid, seen);
  }

  /** A read leaves nothing undelivered just when it saw all there is and it fits a page. */
  lemma AnswerCatchesUpIff(stream: int, w: World, seen: nat)
    requires Inv(stream, w) && Can(w, Answered(seen)) && w.watch.cursor.Some?
    requires !Throws(Page(Past(w.log[..seen], stream, w.watch.cursor.value)))
    ensures var cursor := w.watch.cursor.value;
            var w' := Step(stream, w, Answered(seen));
            && w'.watch.cursor.Some?
            && (Past(w'.log, stream, w'.watch.cursor.value) == []
                <==> |Past(w.log, stream, cursor)| <= 200
                     && Past(w.log[..seen], stream, cursor) == Past(w.log, stream, cursor))
  {
    hide Past, Between, Newest, Throws, Step, Inv;
    AnswerLeaves(stream, w, seen);
    var rows := Past(w.log[..seen], stream, w.watch.cursor.value);
    var later := Between(w.log, stream, Newest(w.log[..seen]), Newest(w.log));
    assert rows + later == rows <==> later == [];
  }

  predicate Idle(w: World) { w.watch.live && w.watch.cursor.Some? && !w.watch.reading }

  /** A read with nothing coming between: a notice, and the answer at once. */
  function Round(stream: int, w: World): (w': World)
    requires Idle(w)
    ensures Idle(w')
  {
    Step(stream, Step(stream, w, Noticed), Answered(|w.log|))
  }

  function Rounds(stream: int, w: World, n: nat): (w': World)
    requires Idle(w)
    ensures Idle(w')
    decreases n
  {
    if n == 0 then w else Rounds(stream, Round(stream, w), n - 1)
  }

  lemma RoundDelivers(stream: int, w: World)
    requires Inv(stream, w) && Idle(w)
    requires !Throws(Page(Past(w.log, stream, w.watch.cursor.value)))
    ensures var rows := Past(w.log, stream, w.watch.cursor.value);
            var w' := Round(stream, w);
            && Inv(stream, w') && w'.log == w.log
            && w'.delivered == w.delivered + EventsOf(Page(rows))
            && Past(w.log, stream, w'.watch.cursor.value) == rows[|Page(rows)|..]
  {
    var asked := Step(stream, w, Noticed);
    assert w.log[..|w.log|] == w.log;
    StepKeeps(stream, w, Noticed);
    StepKeeps(stream, asked, Answered(|w.log|));
    AnswerLeaves(stream, asked, |w.log|);
    BetweenNothing(w.log, stream, Newest(w.log));
  }

  /** From `w` on, `w'` has delivered all there is. */
  ghost predicate CaughtUp(stream: int, w: World, w': World)
    requires Idle(w) && Idle(w')
  {
    && w'.log == w.log && Past(w.log, stream, w'.watch.cursor.value) == []
    && w'.delivered == w.delivered + EventsOf(Past(w.log, stream, w.watch.cursor.value))
  }

  /** No more than `n` pages past the cursor, and none of it throws. */
  ghost predicate Readable(stream: int, w: World, n: nat)
    requires Idle(w)
  {
    var rows := Past(w.log, stream, w.watch.cursor.value);
    !Throws(rows) && |rows| <= n * PAGE
  }

  lemma PageOf(rows: seq<Row>, n: nat)
    requires |rows| <= n * PAGE
    ensures |Page(rows)| <= |rows| && rows[..|Page(rows)|] == Page(rows)
    ensures n > 0 ==> |rows| - |Page(rows)| <= (n - 1) * PAGE
  {}

  lemma ThrowsOfPart(rows: seq<Row>, k: nat)
    requires k <= |rows|
    ensures Throws(rows) <==> Throws(rows[..k]) || Throws(rows[k..])
  {
    if Throws(rows) {
      var i :| 0 <= i < |rows| && rows[i].payload.Null?;
      if i < k { assert rows[..k][i].payload.Null?; } else { assert rows[k..][i - k].payload.Null?; }
    }
  }

  lemma RoundReads(stream: int, w: World, n: nat)
    requires Inv(stream, w) && Idle(w) && Readable(stream, w, n) && n > 0
    ensures Inv(stream, Round(stream, w)) && Readable(stream, Round(stream, w), n - 1)
  {
    var rows := Past(w.log, stream, w.watch.cursor.value);
    PageOf(rows, n);
    ThrowsOfPart(rows, |Page(rows)|);
    hide Round, Inv, Past, Throws, Page;
    RoundDelivers(stream, w);
  }

  lemma PageEvents(rows: seq<Row>)
    ensures |Page(rows)| <= |rows| && (Throws(Page(rows)) ==> Throws(rows))
    ensures EventsOf(rows) == EventsOf(Page(rows)) + EventsOf(rows[|Page(rows)|..])
  {
    var page, rest := Page(rows), rows[|Page(rows)|..];
    assert page == rows[..|page|] && rows == page + rest;
    ThrowsOfPart(rows, |page|);
    hide EventsOf, Throws, Page;
    EventsJoin(page, rest);
  }

  lemma RoundCatchesUp(stream: int, w: World, n: nat, w': World)
    requires Inv(stream, w) && Idle(w) && Idle(w') && Readable(stream, w, n)
    requires CaughtUp(stream, Round(stream, w), w')
    ensures CaughtUp(stream, w, w')
  {
    hide Round, Inv, Past, EventsOf, Throws, Page;
    var rows := Past(w.log, stream, w.watch.cursor.value);
    PageEvents(rows);
    RoundDelivers(stream, w);
    Appended(w.delivered, EventsOf(Page(rows)), EventsOf(rows[|Page(rows)|..]));
  }

  lemma NothingLeft(stream: int, w: World)
    requires Idle(w) && Readable(stream, w, 0)
    ensures CaughtUp(stream, w, w)
  {
    hide Past;
    NoEvents();
  }

  /** Undisturbed, a read for each page delivers all there is. */
  lemma {:induction false} RoundsCatchUp(stream: int, w: World, n: nat)
    requires Inv(stream, w) && Idle(w) && Readable(stream, w, n)
    ensures CaughtUp(stream, w, Rounds(stream, w, n))
    decreases n
  {
    hide Round, Inv, CaughtUp, Readable;
    if n == 0 {
      NothingLeft(stream, w);
    } else {
      RoundReads(stream, w, n);
      RoundsCatchUp(stream, Round(stream, w), n - 1);
      RoundCatchesUp(stream, w, n, Rounds(stream, w, n));
    }
  }

  // ---- A row whose payload is the JSON null

  /** The watch has yet to pass `row`, and reading it throws. */
  ghost predicate Stands(stream: int, w: World, row: Row) {
    && row in w.log && row.stream == stream && !row.kind.OtherKind? && row.payload.Null?
    && w.watch.cursor.Some? && w.watch.cursor.value < row.seqNo
  }

  lemma {:induction false} WantedIsBetween(log: seq<Row>, stream: int, after: nat, upTo: nat, row: Row)
    requires row in log && Wanted(row, stream, after, upTo)
    ensures row in Between(log, stream, after, upTo)
  {
    var n := |log| - 1;
    if row != log[n] { WantedIsBetween(log[..n], stream, after, upTo, row); }
  }

  lemma InStart(log: seq<Row>, k: nat, row: Row)
    requires IsLog(log) && k <= |log| && row in log
    ensures row in log[..k] ==> row.seqNo <= Newest(log[..k])
    ensures row !in log[..k] ==> Newest(log[..k]) < row.seqNo
  {
    var i :| 0 <= i < |log| && log[i] == row;
    LogStart(log, k);
    if i < k { assert log[..k][i] == row; }
  }

  /** A page that is read without throwing ends before the row. */
  lemma PageEndsBefore(log: seq<Row>, k: nat, stream: int, after: nat, row: Row)
    requires IsLog(log) && k <= |log| && row in log && after <= Newest(log[..k])
    requires row.stream == stream && !row.kind.OtherKind? && row.payload.Null? && after < row.seqNo
    requires !Throws(Page(Past(log[..k], stream, after)))
    ensures MaxSeq(Page(Past(log[..k], stream, after)), after) < row.seqNo
  {
    var rows := Past(log[..k], stream, after);
    var upTo := MaxSeq(Page(rows), after);
    PageIsBetween(log, k, stream, after);
    InStart(log, k, row);
    if row.seqNo <= upTo {
      WantedIsBetween(log, stream, after, upTo, row);
    }
  }

  lemma StandsOn(stream: int, w: World, a: Action, w': World, row: Row)
    requires Inv(stream, w) && Moves(stream, w, a, w') && Stands(stream, w, row)
    ensures Stands(stream, w', row)
  {
    if a.Answered? {
      var cursor := w.watch.cursor.value;
      AnswerBounds(stream, w, a.seen);
      if !Throws(Page(Past(w.log[..a.seen], stream, cursor))) {
        PageEndsBefore(w.log, a.seen, stream, cursor, row);
      }
      hide IsLog, Past, Page, MaxSeq, Newest, Throws, EventsOf;
    }
  }

  lemma StandsNext(stream: int, run: seq<World>, actions: seq<Action>, j: nat, row: Row)
    requires IsRun(stream, run, actions) && j < |actions| && Stands(stream, run[j], row)
    ensures Stands(stream, run[j + 1], row)
  {
    RunKeeps(stream, run, actions, j);
    MoveOf(stream, run, actions, j);
    hide IsRun, Inv, Stands, Moves;
    StandsOn(stream, run[j], actions[j], run[j + 1], row);
  }

  /** Were such a row logged, no run would get past it: it and what comes after it
      would never be delivered. */
  lemma {:induction false} NullIsNeverPassed(
    stream: int, run: seq<World>, actions: seq<Action>, i: nat, j: nat, row: Row)
    requires IsRun(stream, run, actions) && i <= j <= |actions| && Stands(stream, run[i], row)
    ensures Stands(stream, run[j], row)
    decreases j
  {
    hide Stands, Moves, Begun, IsLog;
    if i < j {
      NullIsNeverPassed(stream, run, actions, i, j - 1, row);
      StandsNext(stream, run, actions, j - 1, row);
    }
  }

  // ---- A log whose payloads were checked as they were written

  lemma MoveGrows(stream: int, w: World, a: Action, w': World)
    requires Moves(stream, w, a, w')
    ensures w.log <= w'.log
  {}

  lemma {:induction false} LogsGrow(stream: int, run: seq<World>, actions: seq<Action>, i: nat, j: nat)
    requires IsRun(stream, run, actions) && i <= j <= |actions|
    ensures run[i].log <= run[j].log
    decreases j
  {
    if i < j {
      LogsGrow(stream, run, actions, i, j - 1);
      MoveOf(stream, run, actions, j - 1);
      hide IsRun, Can;
      MoveGrows(stream, run[j - 1], actions[j - 1], run[j]);
    }
  }

  lemma CheckedStart(log: seq<Row>, start: seq<Row>)
    requires AllChecked(log) && start <= log
    ensures AllChecked(start)
  {
    assert forall i | 0 <= i < |start| :: start[i] == log[i];
  }

  /** With every payload checked, no answer throws, in any run: the cursor moves past
      all the answer has. */
  lemma NoAnswerThrows(stream: int, run: seq<World>, actions: seq<Action>, i: nat)
    requires IsRun(stream, run, actions) && AllChecked(run[|actions|].log)
    requires i < |actions| && actions[i].Answered? && run[i].watch.cursor.Some?
    ensures var w, cursor := run[i], run[i].watch.cursor.value;
            && actions[i].seen <= |w.log| && run[i + 1].watch.cursor.Some? && !run[i + 1].watch.reading
            && var rows := Page(Past(w.log[..actions[i].seen], stream, cursor));
               !Throws(rows) && run[i + 1].watch.cursor.value == if rows == [] then cursor else rows[|rows| - 1].seqNo
  {
    var w, seen, cursor := run[i], actions[i].seen, run[i].watch.cursor.value;
    RunKeeps(stream, run, actions, i);
    LogsGrow(stream, run, actions, i, |actions|);
    MoveOf(stream, run, actions, i);
    LogStart(w.log, seen);
    CheckedStart(run[|actions|].log, w.log[..seen]);
    CheckedReads(w.log[..seen], stream, cursor);
    BetweenIsWanted(w.log[..seen], stream, cursor, Newest(w.log[..seen]));
    PageOfLog(Past(w.log[..seen], stream, cursor), cursor);
    hide IsRun, IsLog, Past, Page, MaxSeq, Newest, Throws, EventsOf, Between, AllChecked;
  }

  /** With every payload checked, an undisturbed read for each page delivers all there is. */
  lemma CheckedRoundsCatchUp(stream: int, w: World, n: nat)
    requires Inv(stream, w) && Idle(w) && AllChecked(w.log)
    requires |Past(w.log, stream, w.watch.cursor.value)| <= n * 200
    ensures CaughtUp(stream, w, Rounds(stream, w, n))
  {
    CheckedReads(w.log, stream, w.watch.cursor.value);
    hide Inv, Past, Throws, Page, CaughtUp;
    ThrowsOfPart(Past(w.log, stream, w.watch.cursor.value), 0);
    RoundsCatchUp(stream, w, n);
  }

  // ---- A notice that is lost

  const FIRST := Row(1, 1, FileDeleted, Body(None, None, Some("a")))
  const SECOND := Row(2, 1, FileDeleted, Body(None, None, Some("b")))

  /** The two deletes are logged, each noticed, the second while the read for the
      first is out. */
  function LostActions(): seq<Action> { [Answered(0), Added(FIRST), Noticed, Added(SECOND), Noticed, Answered(1)] }

  function LostWorlds(): seq<World> {
    var asked := Some(Flight(After(0), 1));
    [Begun([]),
     World([], Watch(true, Some(0), false), None, [], 0, None),
     World([FIRST], Watch(true, Some(0), false), None, [], 0, None),
     World([FIRST], Watch(true, Some(0), true), asked, [], 0, None),
     World([FIRST, SECOND], Watch(true, Some(0), true), asked, [], 0, None),
     World([FIRST, SECOND], Watch(true, Some(0), true), asked, [], 0, None),
     World([FIRST, SECOND], Watch(true, Some(1), false), None, [Deleted("a")], 0, None)]
  }

  lemma LostFirst()
    ensures var run, actions := LostWorlds(), LostActions();
            Moves(1, run[0], actions[0], run[1]) && Moves(1, run[1], actions[1], run[2])
  {
    hide Between;
    assert [] + [FIRST] == [FIRST];
  }

  lemma LostSecond()
    ensures var run, actions := LostWorlds(), LostActions();
            && Moves(1, run[2], actions[2], run[3]) && Moves(1, run[3], actions[3], run[4])
            && Moves(1, run[4], actions[4], run[5])
  {
    hide Between;
    assert [FIRST] + [SECOND] == [FIRST, SECOND];
  }

  lemma OneRowPage(a: Row)
    requires a == Row(1, 1, FileDeleted, Body(None, None, Some("a")))
    ensures Page(Past([a], 1, 0)) == [a] && !Throws([a]) && EventsOf([a]) == [Deleted("a")] && MaxSeq([a], 0) == 1
  {
    assert [a][..0] == [];
    assert Between([], 1, 0, 1) == [];
    assert Past([a], 1, 0) == [a];
    assert EventsOf([]) == [];
  }

  lemma LostAnswer()
    ensures Moves(1, LostWorlds()[5], LostActions()[5], LostWorlds()[6])
  {
    OneRowPage(FIRST);
    hide Between, Past, Page, Throws, EventsOf, MaxSeq;
    assert [FIRST, SECOND][..1] == [FIRST];
  }

  /** Two deletes, a notice for each, every read answered: the second delete is not
      delivered until something else is logged. */
  lemma NoticeCanBeLost() returns (run: seq<World>, actions: seq<Action>)
    ensures IsRun(1, run, actions) && |actions| == 6 && run[0].log == []
    ensures forall i | 0 <= i < 6 :: !actions[i].Dropped? && !actions[i].Unwatched?
    ensures actions[1].Added? && actions[2].Noticed? && actions[3].Added? && actions[4].Noticed?
    ensures !run[6].watch.reading && |run[6].log| == 2 && run[6].delivered == [Deleted("a")]
  {
    run, actions := LostWorlds(), LostActions();
    LostFirst();
    LostSecond();
    LostAnswer();
    hide Moves;
    forall i | 0 <= i < 6 ensures Moves(1, run[i], actions[i], run[i + 1]) {
      assert i in [0, 1, 2, 3, 4, 5];
    }
  }
}
