/**
 What holds of the page-run store and its world after any actions. Each
 predicate speaks only of the parts it constrains, so an action that leaves
 those parts alone keeps it.
 */
module PageRunInvariants {
  import opened Basics
  import opened PageRunStore
  import opened PageRunWorld

  /** `byRunId` leads exactly to the live entries holding a run. */
  ghost predicate Roster<E>(fields: map<E, Fields>, entries: map<Key, E>, byRunId: map<RunId, E>) {
    && (forall k | k in entries :: entries[k] in fields && fields[entries[k]].key == k)
    && (forall r | r in byRunId :: IsLive(fields, entries, byRunId[r]) && fields[byRunId[r]].state.runId == Some(r))
    && (forall e | e in fields && IsLive(fields, entries, e) && fields[e].state.runId.Some? ::
          fields[e].state.runId.value in byRunId && byRunId[fields[e].state.runId.value] == e)
  }

  ghost predicate Distinct(kept: seq<(Key, PageRun)>) {
    forall i, j | 0 <= i < j < |kept| :: kept[i].0 != kept[j].0
  }

  /** The buffers stay within bounds, and a flush is armed exactly when one is wanted. */
  ghost predicate Buffers(
    pending: map<RunId, nat>, flushTimer: bool, kept: seq<(Key, PageRun)>, earlyChanges: map<RunId, nat>) {
    && (pending != map[] <==> flushTimer)
    && |kept| <= KEPT_RUNS && Distinct(kept)
    && |earlyChanges| <= EARLY_CHANGES
  }

  ghost function Unsettled<E>(opens: map<(E, nat), Promise>): set<(E, nat)> {
    set q | q in opens && !opens[q].Settled?
  }

  /** Early notices are kept only while an open is pending. */
  ghost predicate Opens<E>(
    opens: map<(E, nat), Promise>, inFlightOpens: int, earlyChanges: map<RunId, nat>, earlyOverflow: bool) {
    && inFlightOpens == |Unsettled(opens)|
    && (inFlightOpens == 0 ==> earlyChanges == map[] && !earlyOverflow)
  }

  /** An entry not let go of: its promise is that of its present opening. */
  predicate Held(f: Fields) { f.promise == f.opening }

  /** An entry shows the answer of its present opening, once there is one. */
  ghost predicate ShowsAnswer(f: Fields, promise: Promise) {
    if promise.Waiting() then f.state.runId == None && f.seqNo == 0
    else f.state.runId == promise.answer
  }

  /** A live entry's promise is that of its present opening, a let-go entry's is not. */
  ghost predicate Promises<E>(fields: map<E, Fields>, entries: map<Key, E>, opens: map<(E, nat), Promise>) {
    && (forall q | q in opens :: q.0 in fields && q.1 <= fields[q.0].promise)
    && (forall e | e in fields ::
          && (e, fields[e].promise) in opens
          && fields[e].promise <= fields[e].opening
          && (IsLive(fields, entries, e) <==> Held(fields[e]))
          && (Held(fields[e]) ==> ShowsAnswer(fields[e], opens[(e, fields[e].promise)])))
  }

  ghost predicate MadeBy<E>(
    daemon: map<RunId, nat>, maker: map<RunId, (E, nat)>, returned: set<RunId>, q: (E, nat), promise: Promise) {
    match promise
    case Requested => true
    case Created(r, low) => r in maker && maker[r] == q && r in daemon && low <= daemon[r] && r !in returned
    case Replied(a) => a.Some? ==> a.value in returned && a.value in maker && maker[a.value] == q
    case Settled(a) => a.Some? ==> a.value in returned && a.value in maker && maker[a.value] == q
  }

  /** Every run has one maker, the open that made it. */
  ghost predicate Makers<E>(
    daemon: map<RunId, nat>, maker: map<RunId, (E, nat)>, returned: set<RunId>, opens: map<(E, nat), Promise>) {
    && daemon.Keys == maker.Keys
    && returned <= maker.Keys
    && (forall r | r in maker :: maker[r] in opens)
    && (forall q | q in opens :: MadeBy(daemon, maker, returned, q, opens[q]))
  }

  /** Where run `r`, returned to the window by `maker`, is now. */
  ghost predicate Accounted<E>(
    r: RunId, maker: (E, nat), f: Fields, promise: Promise, due: bool, dropped: bool, closes: nat)
  {
    if !promise.Holds(r) then closes == 1 && !dropped
    else if maker.1 != f.promise then closes == 0 && dropped && !due
    else if Held(f) then closes == 0 && !dropped && !due
    else !dropped && closes == if due then 0 else 1
  }

  /** Every run returned is held, dropped, or closed once. */
  ghost predicate Ledger<E>(
    fields: map<E, Fields>, opens: map<(E, nat), Promise>, maker: map<RunId, (E, nat)>, closers: set<(E, nat)>,
    returned: set<RunId>, dropped: set<RunId>, closed: map<RunId, nat>)
  {
    && (forall r | r in returned ::
          && r in maker && maker[r] in opens && maker[r].0 in fields
          && Accounted(r, maker[r], fields[maker[r].0], opens[maker[r]], maker[r] in closers, r in dropped,
                       Get(closed, r, 0)))
    && closed.Keys <= returned
    && dropped <= returned
    && (forall q | q in closers :: q.0 in fields && !Held(fields[q.0]) && q.1 == fields[q.0].promise)
  }

  /** `f` shows run `r`, between the last fetch applied and the daemon's `version`. */
  ghost predicate ShowsBetween(f: Fields, r: RunId, version: nat) {
    f.state.run.Some? && f.state.run.value.of == r && f.seqNo <= f.state.run.value.version <= version
  }

  /** What a held run shows is between the last fetch applied and the daemon. */
  ghost predicate Versions<E>(
    fields: map<E, Fields>, byRunId: map<RunId, E>, daemon: map<RunId, nat>, returned: set<RunId>) {
    forall r | r in byRunId ::
      r in returned && r in daemon && byRunId[r] in fields && ShowsBetween(fields[byRunId[r]], r, daemon[r])
  }

  /** The version an entry shows. */
  ghost function Screen(f: Fields): nat {
    if f.state.run.Some? then f.state.run.value.version else 0
  }

  /** A fetch whose fence for `r` still stands cannot bring an older version
      past the sequence check. */
  ghost predicate Fenced<E>(
    fields: map<E, Fields>, byRunId: map<RunId, E>, daemon: map<RunId, nat>, returned: set<RunId>, x: Fetch, r: RunId)
  {
    && r in x.captured
    && r in x.low && r in daemon && x.low[r] <= daemon[r]
    && (x.captured[r].Some? ==> r in returned)
    && (r in byRunId && byRunId[r] in fields && x.captured[r].Some? ==>
          var f := fields[byRunId[r]];
          && x.captured[r].value <= f.operation
          && (x.captured[r].value == f.operation ==> x.low[r] >= Screen(f) || f.seqNo == Screen(f)))
  }

  ghost predicate Fetches<E>(
    fields: map<E, Fields>, byRunId: map<RunId, E>, daemon: map<RunId, nat>, returned: set<RunId>,
    pending: map<RunId, nat>, fetches: map<nat, Fetch>)
  {
    && (forall r | r in pending :: r in daemon)
    && (forall g | g in fetches :: forall r | r in fetches[g].wanted ::
          Fenced(fields, byRunId, daemon, returned, fetches[g], r))
  }

  /** A rerun in flight on `q.0`, started as its operation number `q.1`. */
  ghost predicate RerunFenced<E>(
    fields: map<E, Fields>, daemon: map<RunId, nat>, opens: map<(E, nat), Promise>, q: (E, nat), x: Rerun)
  {
    && q.0 in fields
    && var f := fields[q.0];
    && x.fences.operation == q.1 <= f.operation
    && x.fences.opening <= f.opening
    && (x.phase.Awaiting? ==> (q.0, x.phase.promise) in opens)
    && (x.phase.Sent? ==> x.phase.run in daemon && x.phase.low <= daemon[x.phase.run])
    && (Held(f) && x.fences.opening == f.opening && x.fences.operation == f.operation ==>
          && x.fences.initialSeq <= f.seqNo
          && match x.phase
             case Awaiting(p) => p == f.promise
             case Sent(r, low) => f.state.runId == Some(r) && (f.seqNo == x.fences.initialSeq ==> Screen(f) <= low))
  }

  ghost predicate Reruns<E>(
    fields: map<E, Fields>, daemon: map<RunId, nat>, opens: map<(E, nat), Promise>, reruns: map<(E, nat), Rerun>)
  {
    forall q | q in reruns :: RerunFenced(fields, daemon, opens, q, reruns[q])
  }

  /** Whether an answer that will unmark an entry is on its way. */
  ghost predicate Unmarking<E>(e: E, f: Fields, opens: map<(E, nat), Promise>, reruns: map<(E, nat), Rerun>) {
    || ((e, f.promise) in opens && opens[(e, f.promise)].Waiting())
    || ((e, f.operation) in reruns && reruns[(e, f.operation)].fences.opening == f.opening)
  }

  ghost predicate Marks<E>(fields: map<E, Fields>, opens: map<(E, nat), Promise>, reruns: map<(E, nat), Rerun>) {
    forall e | e in fields && Held(fields[e]) && fields[e].state.stale :: Unmarking(e, fields[e], opens, reruns)
  }

  /** The newest fetch of `r`, sent when what is announced had happened. */
  ghost predicate Carries(x: Fetch, r: RunId, announcement: nat) {
    r in x.wanted && r in x.newest && r in x.low && announcement <= x.low[r]
  }

  /** Of what was announced of a held run, all is applied, or asked for, or to
      be asked for, or was asked for in vain. */
  ghost predicate Debts<E>(
    fields: map<E, Fields>, byRunId: map<RunId, E>, pending: map<RunId, nat>, missed: set<RunId>,
    fetches: map<nat, Fetch>, announced: map<RunId, nat>)
  {
    forall r | r in byRunId ::
      || (byRunId[r] in fields && Get(announced, r, 0) <= fields[byRunId[r]].seqNo)
      || r in pending
      || r in missed
      || exists g | g in fetches :: Carries(fetches[g], r, Get(announced, r, 0))
  }

  /** What is announced happened, and what is announced of a run before its
      open's answer is remembered. */
  ghost predicate Early<E>(
    opens: map<(E, nat), Promise>, daemon: map<RunId, nat>, announced: map<RunId, nat>,
    earlyChanges: map<RunId, nat>, earlyOverflow: bool)
  {
    && (forall r | r in announced :: r in daemon && announced[r] <= daemon[r])
    && (forall q | q in opens && opens[q].Created? && opens[q].run in announced ::
          opens[q].run in earlyChanges || earlyOverflow)
  }

  /** The handles on `e` not yet closed. */
  ghost function Hosts<E>(handles: map<nat, Handle<E>>, e: E): set<nat> {
    set h | h in handles && handles[h].mine == e && !handles[h].closed
  }

  ghost function ShownHosts<E>(handles: map<nat, Handle<E>>, e: E): set<nat> {
    set h | h in handles && handles[h].mine == e && !handles[h].closed && handles[h].shown
  }

  ghost predicate Counted<E>(e: E, f: Fields, handles: map<nat, Handle<E>>) {
    && f.refs == |Hosts(handles, e)|
    && f.shown == |ShownHosts(handles, e)|
    && (if Held(f) then f.closeTimer <==> f.refs == 0 else f.refs == 0)
  }

  ghost predicate Counts<E>(fields: map<E, Fields>, handles: map<nat, Handle<E>>) {
    && (forall h | h in handles :: handles[h].mine in fields)
    && (forall e | e in fields :: Counted(e, fields[e], handles))
  }

  ghost predicate Inv<E>(w: World<E>) {
    && Roster(w.s.fields, w.s.entries, w.s.byRunId)
    && Buffers(w.s.pending, w.s.flushTimer, w.s.kept, w.s.earlyChanges)
    && Opens(w.opens, w.s.inFlightOpens, w.s.earlyChanges, w.s.earlyOverflow)
    && Promises(w.s.fields, w.s.entries, w.opens)
    && Makers(w.daemon, w.maker, w.returned, w.opens)
    && Ledger(w.s.fields, w.opens, w.maker, w.closers, w.returned, w.dropped, w.closed)
    && Versions(w.s.fields, w.s.byRunId, w.daemon, w.returned)
    && Fetches(w.s.fields, w.s.byRunId, w.daemon, w.returned, w.s.pending, w.fetches)
    && Reruns(w.s.fields, w.daemon, w.opens, w.reruns)
    && Marks(w.s.fields, w.opens, w.reruns)
    && Debts(w.s.fields, w.s.byRunId, w.s.pending, w.missed, w.fetches, w.announced)
    && Early(w.opens, w.daemon, w.announced, w.s.earlyChanges, w.s.earlyOverflow)
    && Counts(w.s.fields, w.handles)
  }

  lemma StartsWell<E>()
    ensures Inv(Start<E>())
  {}
}
