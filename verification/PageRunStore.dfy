/**
 The window's page-run store as values: what each continuation of
 `createPageRuns` does to it, one function per continuation. An entry is an
 object in the source, shared by `entries`, `byRunId`, the handles and every
 callback in flight; here `E` is the entry's identity and `fields` holds the
 fields of every entry ever made.
 */
module PageRunStore {
  import opened Basics

  type RunId = string
  type Key = string

  /** How many closed runs' last rows the window keeps. */
  const KEPT_RUNS := 32
  /** How many unknown runs' notices are held while an open is pending. */
  const EARLY_CHANGES := 1024

  /** A page's rows: which run they are of and the daemon's version of it. */
  datatype PageRun = PageRun(of: RunId, version: nat)

  datatype Snapshot = Snapshot(run: PageRun, seqNo: nat)

  datatype RunState = RunState(runId: Option<RunId>, run: Option<PageRun>, error: Option<string>, stale: bool)

  /** An entry's fields. `promise` is the opening whose promise `runId` holds. */
  datatype Fields = Fields(
    key: Key,
    opening: nat,
    operation: nat,
    promise: nat,
    state: RunState,
    refs: int,
    shown: int,
    seqNo: nat,
    closeTimer: bool)

  /** What `rerunWith` closes over: the fences read when it started. */
  datatype Fences = Fences(opening: nat, operation: nat, initialSeq: nat)

  /** Whether entry `e` is what its key leads to: it was not let go of. */
  predicate IsLive<E(==)>(fields: map<E, Fields>, entries: map<Key, E>, e: E) {
    e in fields && fields[e].key in entries && entries[fields[e].key] == e
  }

  /** `reopenEntry` with the `start` it ends in: what is shown stays, marked stale. */
  function Reopening(f: Fields): Fields {
    f.(seqNo := 0, state := f.state.(runId := None, stale := true),
       opening := f.opening + 1, promise := f.opening + 1)
  }

  /** Every live entry opened again. */
  function AllReopened<E(==)>(fields: map<E, Fields>, entries: map<Key, E>): map<E, Fields> {
    map e | e in fields :: if IsLive(fields, entries, e) then Reopening(fields[e]) else fields[e]
  }

  function Get<K, V>(m: map<K, V>, k: K, default: V): V {
    if k in m then m[k] else default
  }

  function Find(kept: seq<(Key, PageRun)>, k: Key): Option<PageRun> {
    if kept == [] then None
    else if kept[0].0 == k then Some(kept[0].1)
    else Find(kept[1..], k)
  }

  function Without(kept: seq<(Key, PageRun)>, k: Key): seq<(Key, PageRun)> {
    if kept == [] then []
    else if kept[0].0 == k then Without(kept[1..], k)
    else [kept[0]] + Without(kept[1..], k)
  }

  /** `kept` with `run` as `k`'s rows, newest last, the oldest dropped past the limit. */
  function Keep(kept: seq<(Key, PageRun)>, k: Key, run: PageRun): seq<(Key, PageRun)> {
    var next := Without(kept, k) + [(k, run)];
    if |next| > KEPT_RUNS then next[1..] else next
  }

  datatype Store<E(==)> = Store(
    fields: map<E, Fields>,
    entries: map<Key, E>,
    byRunId: map<RunId, E>,
    kept: seq<(Key, PageRun)>,
    pending: map<RunId, nat>,
    flushTimer: bool,
    inFlightOpens: int,
    earlyChanges: map<RunId, nat>,
    earlyOverflow: bool)
  {
    /** Everything the maps lead to is an entry. */
    ghost predicate Closed() {
      && (forall k :: k in entries ==> entries[k] in fields)
      && (forall r :: r in byRunId ==> byRunId[r] in fields)
    }

    predicate Live(e: E) { IsLive(fields, entries, e) }

    function With(e: E, f: Fields): Store<E> {
      this.(fields := fields[e := f])
    }

    function ScheduleFetch(r: RunId, seqNo: nat): Store<E> {
      this.(pending := pending[r := Max(seqNo, Get(pending, r, 0))], flushTimer := true)
    }

    /** `start`, up to sending the open. */
    function Start(e: E): Store<E>
      requires e in fields
    {
      var opening := fields[e].opening + 1;
      With(e, fields[e].(opening := opening, promise := opening)).(inFlightOpens := inFlightOpens + 1)
    }

    /** `start`'s open answered with run `r`. */
    function OpenAnswered(e: E, opening: nat, r: RunId, run: PageRun): (s: Store<E>)
      requires e in fields
      ensures s.entries == entries && s.kept == kept && s.inFlightOpens == inFlightOpens
          && s.earlyOverflow == earlyOverflow
      ensures s.earlyChanges == earlyChanges - {r}
      ensures RefusesOpen(e, opening) ==> s == this.(earlyChanges := earlyChanges - {r})
      ensures !RefusesOpen(e, opening) ==> s.byRunId == byRunId[r := e]
      ensures !RefusesOpen(e, opening) ==>
                s.fields == fields[e := fields[e].(state := RunState(Some(r), Some(run), None, false))]
    {
      var s := this.(earlyChanges := earlyChanges - {r});
      if opening != fields[e].opening then s
      else
        var t := s.With(e, fields[e].(state := RunState(Some(r), Some(run), None, false)))
                 .(byRunId := byRunId[r := e]);
        if r in earlyChanges then t.ScheduleFetch(r, earlyChanges[r])
        else if earlyOverflow then t.ScheduleFetch(r, 0)
        else t
    }

    /** Whether that answer is refused, its run closed at once. */
    predicate RefusesOpen(e: E, opening: nat)
      requires e in fields
    {
      opening != fields[e].opening
    }

    function OpenFailed(e: E, opening: nat, why: string): (s: Store<E>)
      requires e in fields
      ensures s == this.(fields := s.fields) && s.fields.Keys == fields.Keys
    {
      if opening != fields[e].opening then this
      else With(e, fields[e].(state := fields[e].state.(error := Some(why), stale := false)))
    }

    /** `start`'s `finally`. */
    function OpenSettled(): Store<E> {
      var s := this.(inFlightOpens := inFlightOpens - 1);
      if s.inFlightOpens == 0 then s.(earlyChanges := map[], earlyOverflow := false) else s
    }

    function Changed(r: RunId, seqNo: nat): (s: Store<E>)
      requires Closed()
      ensures s.fields == fields && s.entries == entries && s.byRunId == byRunId && s.kept == kept
      ensures s.inFlightOpens == inFlightOpens
    {
      if r !in byRunId then
        if inFlightOpens <= 0 then this
        else if r in earlyChanges || |earlyChanges| < EARLY_CHANGES then
          this.(earlyChanges := earlyChanges[r := Max(seqNo, Get(earlyChanges, r, 0))])
        else this.(earlyOverflow := true)
      else if seqNo <= fields[byRunId[r]].seqNo then this
      else ScheduleFetch(r, seqNo)
    }

    /** The operation fence a flush reads for `r` as it starts. */
    function Operation(r: RunId): Option<nat>
      requires Closed()
    {
      if r in byRunId then Some(fields[byRunId[r]].operation) else None
    }

    function FlushStarted(): Store<E> {
      this.(flushTimer := false, pending := map[])
    }

    /** One turn of the loop over a fetch's answer. */
    function Fetched(r: RunId, captured: Option<nat>, answer: Option<Snapshot>): (s: Store<E>)
      requires Closed()
      ensures s.Closed() && s.fields.Keys == fields.Keys
      ensures s == this.(fields := s.fields, pending := s.pending, flushTimer := s.flushTimer)
    {
      if r !in byRunId || answer.None? || answer.value.seqNo < fields[byRunId[r]].seqNo then this
      else
        var e := byRunId[r];
        var f := fields[e];
        if captured != Some(f.operation) then ScheduleFetch(r, 0)
        else With(e, f.(seqNo := answer.value.seqNo,
                        state := RunState(Some(r), Some(answer.value.run), None, false)))
    }

    /** The loop over a fetch's answer. */
    function FetchedAll(
      wanted: seq<RunId>, captured: map<RunId, Option<nat>>, runs: map<RunId, Snapshot>): (s: Store<E>)
      requires Closed()
      requires forall r :: r in wanted ==> r in captured
      ensures s.Closed() && s.fields.Keys == fields.Keys
      ensures s == this.(fields := s.fields, pending := s.pending, flushTimer := s.flushTimer)
      decreases |wanted|
    {
      if wanted == [] then this
      else
        var r := wanted[0];
        var answer := if r in runs then Some(runs[r]) else None;
        Fetched(r, captured[r], answer).FetchedAll(wanted[1..], captured, runs)
    }

    /** `rerunWith`, up to waiting for the run's id. */
    function RerunStarted(e: E): Store<E>
      requires e in fields
    {
      var f := fields[e];
      With(e, f.(operation := f.operation + 1, state := f.state.(stale := true)))
    }

    function FencesOf(e: E): Fences
      requires e in fields
    {
      Fences(fields[e].opening, fields[e].operation, fields[e].seqNo)
    }

    /** `current()` inside `rerunWith`. */
    predicate Current(e: E, fences: Fences)
      requires e in fields
    {
      fences.opening == fields[e].opening && fences.operation == fields[e].operation
    }

    /** The awaited run id came as null: there is nothing to run again. */
    function RerunWithoutRun(e: E, fences: Fences): (s: Store<E>)
      requires e in fields
      ensures s == this.(fields := s.fields) && s.fields.Keys == fields.Keys
    {
      var f := fields[e];
      if !Current(e, fences) then this
      else With(e, f.(state := f.state.(stale := false), operation := f.operation + 1))
    }

    /** The operation on run `r` answered, with rows or an error. */
    function RerunAnswered(e: E, fences: Fences, r: RunId, answer: Result<PageRun, string>): (s: Store<E>)
      requires e in fields
      ensures s == this.(fields := s.fields, pending := s.pending, flushTimer := s.flushTimer)
          && s.fields.Keys == fields.Keys
    {
      var f := fields[e];
      if !Current(e, fences) || f.state.runId != Some(r) then this
      else
        var done := f.(operation := f.operation + 1);
        if f.seqNo != fences.initialSeq then
          With(e, done.(state := f.state.(stale := false))).ScheduleFetch(r, 0)
        else
          match answer
          case Ok(run) => With(e, done.(state := RunState(Some(r), Some(run), None, false)))
          case Err(why) => With(e, done.(state := f.state.(error := Some(why), stale := false)))
    }

    function ReopenEntry(e: E): Store<E>
      requires e in fields
    {
      With(e, Reopening(fields[e])).(inFlightOpens := inFlightOpens + 1)
    }

    /** The daemon came back: every entry is opened again. */
    function Reconnected(): Store<E>
      requires Closed()
    {
      this.(byRunId := map[],
            fields := AllReopened(fields, entries),
            inFlightOpens := inFlightOpens + |entries|)
    }

    /** One turn of `reopen`'s loop. */
    function Forgot(r: RunId): (s: Store<E>)
      requires Closed()
      ensures s.Closed() && s.fields.Keys == fields.Keys
    {
      if r !in byRunId then this
      else this.(byRunId := byRunId - {r}).ReopenEntry(byRunId[r])
    }

    function ForgotAll(runIds: seq<RunId>): (s: Store<E>)
      requires Closed()
      ensures s.Closed() && s.fields.Keys == fields.Keys
      decreases |runIds|
    {
      if runIds == [] then this else Forgot(runIds[0]).ForgotAll(runIds[1..])
    }

    /** `open`: the entry of `k`, shared if there is one, else `made`. */
    function Opened(k: Key, made: E): (s: Store<E>)
      requires Closed()
      ensures s == this.(fields := s.fields, entries := s.entries, inFlightOpens := s.inFlightOpens)
    {
      if k in entries then
        var e := entries[k];
        var f := fields[e];
        With(e, f.(closeTimer := false, refs := f.refs + 1, shown := f.shown + 1))
      else
        var rows := Find(kept, k);
        var state := RunState(None, rows, None, rows.Some?);
        var f := Fields(k, 0, 0, 0, state, 1, 1, 0, false);
        With(made, f).(entries := entries[k := made]).Start(made)
    }

    function Shown(e: E, visible: bool): Store<E>
      requires e in fields
    {
      With(e, fields[e].(shown := fields[e].shown + if visible then 1 else -1))
    }

    /** A handle on `e` closed, having been `shown`. */
    function HandleClosed(e: E, shown: bool): Store<E>
      requires e in fields
    {
      var f := fields[e];
      With(e, f.(refs := f.refs - 1,
                 shown := if shown then f.shown - 1 else f.shown,
                 closeTimer := if f.refs - 1 > 0 then f.closeTimer else true))
    }

    /** The close timer of `e` ran. */
    function CloseTimerRan(e: E): Store<E>
      requires e in fields
    {
      var f := fields[e];
      if f.refs > 0 then this
      else
        With(e, f.(opening := f.opening + 1)).(
        entries := entries - {f.key},
        kept := if f.state.run.Some? then Keep(kept, f.key, f.state.run.value) else kept,
        byRunId := if f.state.runId.Some? then byRunId - {f.state.runId.value} else byRunId)
    }
  }
}
