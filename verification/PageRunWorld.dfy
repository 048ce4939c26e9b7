/**
 The page-run store among what it talks to: the daemon with a version per run,
 the requests in flight, the handles its hosts hold. Every continuation of the
 store, every daemon event and every timer is one action, and actions come in
 any order their guards allow, so requests overtake one another freely.

 What is taken of the daemon: a run id is never used twice; an answer carries a
 version the run had at some moment between the request and the answer; a
 change is announced only once it happened.
 */
module PageRunWorld {
  import opened Basics
  import opened PageRunStore

  /** The promise a `start` leaves in `entry.runId`: sent; the daemon made run
      `run`, at version `low` then; its handler ran; its `finally` ran too. */
  datatype Promise =
    | Requested
    | Created(run: RunId, low: nat)
    | Replied(answer: Option<RunId>)
    | Settled(answer: Option<RunId>)
  {
    /** What the promise was or will be resolved with, once its handler ran. */
    predicate Holds(r: RunId) {
      (Replied? || Settled?) && answer == Some(r)
    }

    predicate Waiting() { Requested? || Created? }
  }

  /** A fetch in flight: what it asked for, the fences read and the versions the
      daemon had as it left, and the runs that no later fetch has asked for. */
  datatype Fetch = Fetch(
    wanted: seq<RunId>,
    captured: map<RunId, Option<nat>>,
    low: map<RunId, nat>,
    newest: set<RunId>)

  /** The fetches in flight once a later one asks for `asked`. */
  function Overtaken(fetches: map<nat, Fetch>, asked: set<RunId>): map<nat, Fetch> {
    map g | g in fetches :: fetches[g].(newest := fetches[g].newest - asked)
  }

  datatype Phase = Awaiting(promise: nat) | Sent(run: RunId, low: nat)

  datatype Rerun = Rerun(fences: Fences, phase: Phase)

  datatype Handle<E> = Handle(mine: E, closed: bool, shown: bool)

  datatype Action<E(==)> =
    | OpenPage(h: nat, k: Key, made: E)
    | SetVisible(h: nat, visible: bool)
    | CloseHandle(h: nat)
    | CloseTimer(e: E)
    | CloseRun(e: E, p: nat)
    | DaemonOpens(e: E, p: nat, r: RunId, version: nat)
    | DaemonChanges(r: RunId)
    | OpenAnswered(e: E, p: nat, version: nat)
    | OpenFailed(e: E, p: nat, why: string)
    | OpenSettled(e: E, p: nat)
    | Announced(r: RunId, seqNo: nat)
    | FlushStarted(f: nat, wanted: seq<RunId>)
    | FlushAnswered(f: nat, versions: map<RunId, nat>)
    | FlushFailed(f: nat)
    | RerunStarted(e: E)
    | RerunReady(e: E, n: nat)
    | RerunAnswered(e: E, n: nat, version: nat)
    | RerunFailed(e: E, n: nat, why: string)
    | ShownAgain(r: RunId)
    | Reconnected
    | Reopen(runIds: seq<RunId>)

  /** The opens a reconnect sends, one for each live entry. */
  ghost function Requests<E>(fields: map<E, Fields>, entries: map<Key, E>): map<(E, nat), Promise> {
    map e | e in fields && IsLive(fields, entries, e) :: (e, fields[e].opening + 1) := Requested
  }

  function Snapshots(versions: map<RunId, nat>): map<RunId, Snapshot> {
    map r | r in versions :: Snapshot(PageRun(r, versions[r]), versions[r])
  }

  /** `closers` are close timers' callbacks waiting on a promise; `maker` says
      which open made each run; `returned` are the runs whose open's answer was
      handled; `missed` are the runs whose newest fetch failed or left them out;
      `dropped` are the runs let go of by reconnect or reopen. */
  datatype World<E(==)> = World(
    s: Store<E>,
    opens: map<(E, nat), Promise>,
    fetches: map<nat, Fetch>,
    reruns: map<(E, nat), Rerun>,
    closers: set<(E, nat)>,
    handles: map<nat, Handle<E>>,
    daemon: map<RunId, nat>,
    maker: map<RunId, (E, nat)>,
    announced: map<RunId, nat>,
    returned: set<RunId>,
    missed: set<RunId>,
    dropped: set<RunId>,
    closed: map<RunId, nat>)
  {
    function Closes(r: RunId): nat { Get(closed, r, 0) }

    function Announcement(r: RunId): nat { Get(announced, r, 0) }

    /** Whether an answer about `r` may carry `version`, asked for at `low`. */
    predicate Between(r: RunId, low: nat, version: nat) {
      r in daemon && low <= version <= daemon[r]
    }

    ghost predicate CanOpenPage(h: nat, k: Key, made: E) {
      && s.Closed()
      && h !in handles && made !in s.fields
    }

    ghost predicate CanSetVisible(h: nat, visible: bool) {
      && s.Closed()
      && h in handles && handles[h].mine in s.fields
    }

    ghost predicate CanCloseHandle(h: nat) {
      && s.Closed()
      && h in handles && handles[h].mine in s.fields
    }

    ghost predicate CanCloseTimer(e: E) {
      && s.Closed()
      && s.Live(e) && s.fields[e].closeTimer
    }

    ghost predicate CanCloseRun(e: E, p: nat) {
      && s.Closed()
      && (e, p) in closers && (e, p) in opens && opens[(e, p)].Settled?
    }

    ghost predicate CanDaemonOpens(e: E, p: nat, r: RunId, version: nat) {
      && s.Closed()
      && (e, p) in opens && opens[(e, p)].Requested? && r !in daemon
    }

    ghost predicate CanDaemonChanges(r: RunId) {
      && s.Closed()
      && r in daemon
    }

    ghost predicate CanOpenAnswered(e: E, p: nat, version: nat) {
      && s.Closed()
      && e in s.fields && (e, p) in opens && opens[(e, p)].Created?
      && Between(opens[(e, p)].run, opens[(e, p)].low, version)
    }

    ghost predicate CanOpenFailed(e: E, p: nat, why: string) {
      && s.Closed()
      && e in s.fields && (e, p) in opens && opens[(e, p)].Waiting()
    }

    ghost predicate CanOpenSettled(e: E, p: nat) {
      && s.Closed()
      && (e, p) in opens && opens[(e, p)].Replied?
    }

    ghost predicate CanAnnounced(r: RunId, n: nat) {
      && s.Closed()
      && r in daemon && n <= daemon[r]
    }

    ghost predicate CanFlushStarted(f: nat, wanted: seq<RunId>) {
      && s.Closed()
      && s.flushTimer && f !in fetches && Enumerates(wanted, s.pending.Keys)
    }

    ghost predicate CanFlushAnswered(f: nat, versions: map<RunId, nat>) {
      && s.Closed()
      && f in fetches
      && (forall r | r in fetches[f].wanted :: r in fetches[f].captured)
      && (forall r | r in versions :: r in fetches[f].low && Between(r, fetches[f].low[r], versions[r]))
    }

    ghost predicate CanFlushFailed(f: nat) {
      && s.Closed()
      && f in fetches
    }

    ghost predicate CanRerunStarted(e: E) {
      && s.Closed()
      && e in s.fields
    }

    ghost predicate CanRerunReady(e: E, n: nat) {
      && s.Closed()
      && e in s.fields && (e, n) in reruns && reruns[(e, n)].phase.Awaiting?
      && var q := (e, reruns[(e, n)].phase.promise);
         q in opens && opens[q].Settled? && (opens[q].answer.Some? ==> opens[q].answer.value in daemon)
    }

    ghost predicate CanRerunAnswered(e: E, n: nat, version: nat) {
      && s.Closed()
      && e in s.fields && (e, n) in reruns && reruns[(e, n)].phase.Sent?
      && Between(reruns[(e, n)].phase.run, reruns[(e, n)].phase.low, version)
    }

    ghost predicate CanRerunFailed(e: E, n: nat, why: string) {
      && s.Closed()
      && e in s.fields && (e, n) in reruns && reruns[(e, n)].phase.Sent?
    }

    ghost predicate CanShownAgain(r: RunId) {
      && s.Closed()
      && r in daemon
    }

    /** One entry's run forgotten by the daemon: let go of and opened again. */
    ghost function Forgot(r: RunId): World<E>
      requires s.Closed()
    {
      if r !in s.byRunId then this
      else
        var e := s.byRunId[r];
        this.(s := s.Forgot(r), dropped := dropped + {r},
              opens := opens[(e, s.fields[e].opening + 1) := Requested])
    }

    ghost function ForgotAll(runIds: seq<RunId>): (w: World<E>)
      requires s.Closed()
      ensures w.s == s.ForgotAll(runIds)
      decreases |runIds|
    {
      if runIds == [] then this else Forgot(runIds[0]).ForgotAll(runIds[1..])
    }

    ghost function AfterOpenPage(h: nat, k: Key, made: E): World<E>
      requires CanOpenPage(h, k, made)
    {
      var t := s.Opened(k, made);
      this.(s := t, handles := handles[h := Handle(t.entries[k], false, true)],
            opens := if k in s.entries then opens else opens[(made, 1) := Requested])
    }

    ghost function AfterSetVisible(h: nat, visible: bool): World<E>
      requires CanSetVisible(h, visible)
    {
      var x := handles[h];
      if x.closed || x.shown == visible then this
      else this.(s := s.Shown(x.mine, visible), handles := handles[h := x.(shown := visible)])
    }

    ghost function AfterCloseHandle(h: nat): World<E>
      requires CanCloseHandle(h)
    {
      var x := handles[h];
      if x.closed then this
      else this.(s := s.HandleClosed(x.mine, x.shown), handles := handles[h := x.(closed := true)])
    }

    ghost function AfterCloseTimer(e: E): World<E>
      requires CanCloseTimer(e)
    {
      this.(s := s.CloseTimerRan(e),
            closers := if s.fields[e].refs > 0 then closers else closers + {(e, s.fields[e].promise)})
    }

    ghost function AfterCloseRun(e: E, p: nat): World<E>
      requires CanCloseRun(e, p)
    {
      this.(closers := closers - {(e, p)},
            closed := match opens[(e, p)].answer case None => closed case Some(r) => closed[r := Closes(r) + 1])
    }

    ghost function AfterDaemonOpens(e: E, p: nat, r: RunId, version: nat): World<E>
      requires CanDaemonOpens(e, p, r, version)
    {
      this.(daemon := daemon[r := version], maker := maker[r := (e, p)],
            opens := opens[(e, p) := Created(r, version)])
    }

    ghost function AfterDaemonChanges(r: RunId): World<E>
      requires CanDaemonChanges(r)
    {
      this.(daemon := daemon[r := daemon[r] + 1])
    }

    ghost function AfterOpenAnswered(e: E, p: nat, version: nat): (w: World<E>)
      requires CanOpenAnswered(e, p, version)
      ensures w == this.(s := w.s, opens := w.opens, returned := returned + {opens[(e, p)].run}, closed := w.closed)
    {
      var r := opens[(e, p)].run;
      var refused := s.RefusesOpen(e, p);
      this.(s := s.OpenAnswered(e, p, r, PageRun(r, version)),
            opens := opens[(e, p) := Replied(if refused then None else Some(r))],
            returned := returned + {r},
            closed := if refused then closed[r := Closes(r) + 1] else closed)
    }

    ghost function AfterOpenFailed(e: E, p: nat, why: string): World<E>
      requires CanOpenFailed(e, p, why)
    {
      this.(s := s.OpenFailed(e, p, why), opens := opens[(e, p) := Replied(None)])
    }

    ghost function AfterOpenSettled(e: E, p: nat): World<E>
      requires CanOpenSettled(e, p)
    {
      this.(s := s.OpenSettled(), opens := opens[(e, p) := Settled(opens[(e, p)].answer)])
    }

    ghost function AfterAnnounced(r: RunId, n: nat): World<E>
      requires CanAnnounced(r, n)
    {
      this.(s := s.Changed(r, n), announced := announced[r := Max(n, Announcement(r))])
    }

    ghost function AfterFlushStarted(f: nat, wanted: seq<RunId>): World<E>
      requires CanFlushStarted(f, wanted)
    {
      var asked := s.pending.Keys;
      var x := Fetch(wanted,
                     map r | r in asked :: s.Operation(r),
                     map r | r in asked && r in daemon :: daemon[r],
                     asked);
      this.(s := s.FlushStarted(), missed := missed - asked,
            fetches := if wanted == [] then fetches else Overtaken(fetches, asked)[f := x])
    }

    ghost function AfterFlushAnswered(f: nat, versions: map<RunId, nat>): World<E>
      requires CanFlushAnswered(f, versions)
    {
      var x := fetches[f];
      this.(s := s.FetchedAll(x.wanted, x.captured, Snapshots(versions)),
            fetches := fetches - {f},
            missed := missed + set r | r in x.wanted && r in x.newest && r !in versions)
    }

    ghost function AfterFlushFailed(f: nat): World<E>
      requires CanFlushFailed(f)
    {
      var x := fetches[f];
      this.(fetches := fetches - {f}, missed := missed + set r | r in x.wanted && r in x.newest)
    }

    ghost function AfterRerunStarted(e: E): World<E>
      requires CanRerunStarted(e)
    {
      var t := s.RerunStarted(e);
      this.(s := t, reruns := reruns[(e, t.fields[e].operation) := Rerun(t.FencesOf(e), Awaiting(t.fields[e].promise))])
    }

    ghost function AfterRerunReady(e: E, n: nat): World<E>
      requires CanRerunReady(e, n)
    {
      var x := reruns[(e, n)];
      var q := (e, x.phase.promise);
      if !s.Current(e, x.fences) then this.(reruns := reruns - {(e, n)})
      else (match opens[q].answer
            case None => this.(s := s.RerunWithoutRun(e, x.fences), reruns := reruns - {(e, n)})
            case Some(r) => this.(reruns := reruns[(e, n) := x.(phase := Sent(r, daemon[r]))]))
    }

    ghost function AfterRerunAnswered(e: E, n: nat, version: nat): World<E>
      requires CanRerunAnswered(e, n, version)
    {
      var x := reruns[(e, n)];
      this.(s := s.RerunAnswered(e, x.fences, x.phase.run, Ok(PageRun(x.phase.run, version))),
            reruns := reruns - {(e, n)})
    }

    ghost function AfterRerunFailed(e: E, n: nat, why: string): World<E>
      requires CanRerunFailed(e, n, why)
    {
      var x := reruns[(e, n)];
      this.(s := s.RerunAnswered(e, x.fences, x.phase.run, Err(why)), reruns := reruns - {(e, n)})
    }

    ghost function AfterShownAgain(r: RunId): World<E>
      requires CanShownAgain(r)
    {
      this.(s := s.ScheduleFetch(r, 0))
    }

    ghost function AfterReconnected(): World<E>
      requires s.Closed()
    {
      this.(s := s.Reconnected(), dropped := dropped + s.byRunId.Keys,
            opens := opens + Requests(s.fields, s.entries))
    }

    /** Action `a` is allowed now, and leads to `w`. */
    ghost predicate Steps(a: Action<E>, w: World<E>) {
      match a
      case OpenPage(h, k, made) => CanOpenPage(h, k, made) && w == AfterOpenPage(h, k, made)
      case SetVisible(h, visible) => CanSetVisible(h, visible) && w == AfterSetVisible(h, visible)
      case CloseHandle(h) => CanCloseHandle(h) && w == AfterCloseHandle(h)
      case CloseTimer(e) => CanCloseTimer(e) && w == AfterCloseTimer(e)
      case CloseRun(e, p) => CanCloseRun(e, p) && w == AfterCloseRun(e, p)
      case DaemonOpens(e, p, r, version) => CanDaemonOpens(e, p, r, version) && w == AfterDaemonOpens(e, p, r, version)
      case DaemonChanges(r) => CanDaemonChanges(r) && w == AfterDaemonChanges(r)
      case OpenAnswered(e, p, version) => CanOpenAnswered(e, p, version) && w == AfterOpenAnswered(e, p, version)
      case OpenFailed(e, p, why) => CanOpenFailed(e, p, why) && w == AfterOpenFailed(e, p, why)
      case OpenSettled(e, p) => CanOpenSettled(e, p) && w == AfterOpenSettled(e, p)
      case Announced(r, n) => CanAnnounced(r, n) && w == AfterAnnounced(r, n)
      case FlushStarted(f, wanted) => CanFlushStarted(f, wanted) && w == AfterFlushStarted(f, wanted)
      case FlushAnswered(f, versions) => CanFlushAnswered(f, versions) && w == AfterFlushAnswered(f, versions)
      case FlushFailed(f) => CanFlushFailed(f) && w == AfterFlushFailed(f)
      case RerunStarted(e) => CanRerunStarted(e) && w == AfterRerunStarted(e)
      case RerunReady(e, n) => CanRerunReady(e, n) && w == AfterRerunReady(e, n)
      case RerunAnswered(e, n, version) => CanRerunAnswered(e, n, version) && w == AfterRerunAnswered(e, n, version)
      case RerunFailed(e, n, why) => CanRerunFailed(e, n, why) && w == AfterRerunFailed(e, n, why)
      case ShownAgain(r) => CanShownAgain(r) && w == AfterShownAgain(r)
      case Reconnected => s.Closed() && w == AfterReconnected()
      case Reopen(runIds) => s.Closed() && w == ForgotAll(runIds)
    }
  }

  /** A window that has opened nothing yet. */
  function Start<E(==)>(): World<E> {
    World(Store(map[], map[], map[], [], map[], false, 0, map[], false),
          map[], map[], map[], {}, map[], map[], map[], map[], {}, {}, {}, map[])
  }
}
