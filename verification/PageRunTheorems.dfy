/** What the page-run store guarantees over whole runs, whatever the order things happen in. */
module PageRunTheorems {
  import opened Basics
  import opened PageRunStore
  import opened PageRunWorld
  import opened PageRunInvariants
  import opened PageRunEffects
  import opened PageRunSteps

  /** `ws` are the worlds a window goes through, from opening nothing, under `acts`. */
  ghost predicate IsRun<E>(ws: seq<World<E>>, acts: seq<Action<E>>) {
    && |ws| == |acts| + 1
    && ws[0] == Start<E>()
    && forall i | 0 <= i < |acts| :: ws[i].Steps(acts[i], ws[i + 1])
  }

  lemma {:induction false} RunKeeps<E>(ws: seq<World<E>>, acts: seq<Action<E>>, j: nat)
    requires IsRun(ws, acts) && j < |ws|
    ensures Inv(ws[j])
    decreases j
  {
    hide Inv, World.Steps;
    if j == 0 {
      StartsWell<E>();
    } else {
      RunKeeps(ws, acts, j - 1);
      assert ws[j - 1].Steps(acts[j - 1], ws[j]);
      StepKeeps(ws[j - 1], acts[j - 1], ws[j]);
    }
  }

  // ---- What is shown never goes back

  /** From `f` to `g`, later: an entry let go of stays so, openings count up, and
      within one opening the run held stays and the version shown only grows. */
  ghost predicate Onward(f: Fields, g: Fields) {
    && f.opening <= g.opening
    && (!Held(f) ==> !Held(g))
    && (Held(g) && f.opening == g.opening && f.state.runId.Some? ==>
          Held(f) && g.state.runId == f.state.runId && Screen(f) <= Screen(g))
  }

  ghost predicate AllOnward<E>(from: map<E, Fields>, to: map<E, Fields>) {
    forall e | e in from :: e in to && Onward(from[e], to[e])
  }

  lemma OneOnward<E>(fields: map<E, Fields>, e: E, f: Fields)
    requires e in fields ==> Onward(fields[e], f)
    ensures AllOnward(fields, fields[e := f])
  {}

  lemma OnwardThen<E>(a: map<E, Fields>, b: map<E, Fields>, c: map<E, Fields>)
    requires AllOnward(a, b) && AllOnward(b, c)
    ensures AllOnward(a, c)
  {
    forall e | e in a ensures e in c && Onward(a[e], c[e]) {
      assert Onward(a[e], b[e]) && Onward(b[e], c[e]);
    }
  }

  lemma OpenPageOnward<E>(w: World<E>, h: nat, k: Key, made: E)
    requires Inv(w) && w.CanOpenPage(h, k, made)
    ensures AllOnward(w.s.fields, w.AfterOpenPage(h, k, made).s.fields)
  {
    hide Inv;
    var w' := w.AfterOpenPage(h, k, made);
    var e := if k in w.s.entries then w.s.entries[k] else made;
    assert w'.s.fields == w.s.fields[e := w'.s.fields[e]];
    OneOnward(w.s.fields, e, w'.s.fields[e]);
  }

  lemma HandleOnward<E>(w: World<E>, e: E, visible: bool)
    requires e in w.s.fields
    ensures AllOnward(w.s.fields, w.s.Shown(e, visible).fields)
    ensures AllOnward(w.s.fields, w.s.HandleClosed(e, visible).fields)
    ensures AllOnward(w.s.fields, w.s.RerunStarted(e).fields)
  {}

  lemma CloseTimerOnward<E>(w: World<E>, e: E)
    requires Inv(w) && w.CanCloseTimer(e)
    ensures AllOnward(w.s.fields, w.AfterCloseTimer(e).s.fields)
  {
    hide Roster, Buffers, Opens, Promises, Makers, Ledger, Versions, Fetches, Reruns, Marks, Debts, Early, Counts;
    PromisesAt(w.s.fields, w.s.entries, w.opens, e);
    var f := w.AfterCloseTimer(e).s.fields[e];
    assert w.AfterCloseTimer(e).s.fields == w.s.fields[e := f];
    OneOnward(w.s.fields, e, f);
  }

  lemma OpenAnsweredOnward<E>(w: World<E>, e: E, p: nat, version: nat)
    requires Inv(w) && w.CanOpenAnswered(e, p, version)
    ensures AllOnward(w.s.fields, w.AfterOpenAnswered(e, p, version).s.fields)
  {
    hide Roster, Buffers, Opens, Promises, Makers, Ledger, Versions, Fetches, Reruns, Marks, Debts, Early, Counts;
    PromisesOf(w.s.fields, w.s.entries, w.opens, (e, p));
    PromisesAt(w.s.fields, w.s.entries, w.opens, e);
    var f := w.AfterOpenAnswered(e, p, version).s.fields[e];
    assert w.AfterOpenAnswered(e, p, version).s.fields == w.s.fields[e := f];
    OneOnward(w.s.fields, e, f);
  }

  lemma OpenFailedOnward<E>(w: World<E>, e: E, p: nat, why: string)
    requires w.CanOpenFailed(e, p, why)
    ensures AllOnward(w.s.fields, w.AfterOpenFailed(e, p, why).s.fields)
  {}

  lemma RerunReadyOnward<E>(w: World<E>, e: E, n: nat)
    requires w.CanRerunReady(e, n)
    ensures AllOnward(w.s.fields, w.AfterRerunReady(e, n).s.fields)
  {
    var s' := w.s.RerunWithoutRun(e, w.reruns[(e, n)].fences);
    assert s'.fields == w.s.fields[e := s'.fields[e]];
    OneOnward(w.s.fields, e, s'.fields[e]);
  }

  /** An operation's answer is dropped unless it is no older than what is shown. */
  lemma RerunAnsweredOnward<E>(w: World<E>, e: E, n: nat, version: nat)
    requires Inv(w) && w.CanRerunAnswered(e, n, version)
    ensures AllOnward(w.s.fields, w.AfterRerunAnswered(e, n, version).s.fields)
  {
    hide Roster, Buffers, Opens, Promises, Makers, Ledger, Versions, Fetches, Reruns, Marks, Debts, Early, Counts;
    var x := w.reruns[(e, n)];
    var s' := w.s.RerunAnswered(e, x.fences, x.phase.run, Ok(PageRun(x.phase.run, version)));
    var f := s'.fields[e];
    assert s'.fields == w.s.fields[e := f];
    PromisesAt(w.s.fields, w.s.entries, w.opens, e);
    RosterAt(w.s.fields, w.s.entries, w.s.byRunId, e);
    if w.s.Current(e, x.fences) && Held(f) && f.state.runId == Some(x.phase.run)
        && w.s.fields[e].seqNo == x.fences.initialSeq {
      RerunMayShow(w, (e, n), version, x.phase.run);
    }
    OneOnward(w.s.fields, e, f);
  }

  lemma RerunFailedOnward<E>(w: World<E>, e: E, n: nat, why: string)
    requires w.CanRerunFailed(e, n, why)
    ensures AllOnward(w.s.fields, w.AfterRerunFailed(e, n, why).s.fields)
  {
    var x := w.reruns[(e, n)];
    var s' := w.s.RerunAnswered(e, x.fences, x.phase.run, Err(why));
    assert s'.fields == w.s.fields[e := s'.fields[e]];
    OneOnward(w.s.fields, e, s'.fields[e]);
  }

  /** A fetch's answer is dropped, or deferred, unless it is no older than what is shown. */
  lemma FetchedOnward<E>(w: World<E>, x: Fetch, r: RunId, answer: Option<Snapshot>)
    requires Inv(w) && w.s.Closed() && Fenced(w.s.fields, w.s.byRunId, w.daemon, w.returned, x, r)
    requires answer.Some? ==> answer.value.run == PageRun(r, answer.value.seqNo) && x.low[r] <= answer.value.seqNo
    ensures AllOnward(w.s.fields, w.s.Fetched(r, x.captured[r], answer).fields)
  {
    hide Roster, Buffers, Opens, Promises, Makers, Ledger, Versions, Fetches, Reruns, Marks, Debts, Early, Counts;
    if r in w.s.byRunId {
      var e := w.s.byRunId[r];
      var f := w.s.Fetched(r, x.captured[r], answer).fields[e];
      assert w.s.Fetched(r, x.captured[r], answer).fields == w.s.fields[e := f];
      RosterOf(w.s.fields, w.s.entries, w.s.byRunId, r);
      if answer.Some? && w.s.fields[e].seqNo <= answer.value.seqNo && x.captured[r] == Some(w.s.fields[e].operation) {
        FetchMayShow(w, x, r, answer.value.seqNo);
      }
      OneOnward(w.s.fields, e, f);
    }
  }

  lemma WantedIsFenced<E>(w: World<E>, g: nat)
    requires Inv(w) && g in w.fetches && w.fetches[g].wanted != []
    ensures var x, r := w.fetches[g], w.fetches[g].wanted[0];
            r in x.captured && Fenced(w.s.fields, w.s.byRunId, w.daemon, w.returned, x, r)
  {
    hide Roster, Buffers, Opens, Promises, Makers, Ledger, Versions, Fetches, Reruns, Marks, Debts, Early, Counts;
    FetchesAt(w.s.fields, w.s.byRunId, w.daemon, w.returned, w.s.pending, w.fetches, g, w.fetches[g].wanted[0]);
  }

  lemma NoneOnward<E>(fields: map<E, Fields>)
    ensures AllOnward(fields, fields)
  {}

  lemma {:induction false} TakenAllOnward<E>(w: World<E>, g: nat, runs: map<RunId, Snapshot>)
    requires Inv(w) && w.s.Closed() && g in w.fetches
    requires forall r | r in w.fetches[g].wanted :: r in w.fetches[g].captured
    requires Timely(w.daemon, w.fetches[g].low, runs)
    ensures AllOnward(w.s.fields, w.s.FetchedAll(w.fetches[g].wanted, w.fetches[g].captured, runs).fields)
    decreases |w.fetches[g].wanted|
  {
    hide Inv, AllOnward, Timely, Fenced;
    var x := w.fetches[g];
    if x.wanted == [] {
      NoneOnward(w.s.fields);
    } else {
      var r := x.wanted[0];
      var answer := if r in runs then Some(runs[r]) else None;
      WantedIsFenced(w, g);
      if r in runs { TimelyAt(w.daemon, x.low, runs, r); }
      FetchedOnward(w, x, r, answer);
      TakenKeeps(w, g, answer);
      var w' := Taken(w, g, answer);
      TakenAllOnward(w', g, runs);
      OnwardThen(w.s.fields, w'.s.fields, w.s.FetchedAll(x.wanted, x.captured, runs).fields);
    }
  }

  lemma ForgotOnward<E>(w: World<E>, r: RunId)
    requires w.s.Closed()
    ensures AllOnward(w.s.fields, w.Forgot(r).s.fields)
    requires r in w.s.byRunId ==> Held(w.s.fields[w.s.byRunId[r]])
  {
    if r in w.s.byRunId {
      var e := w.s.byRunId[r];
      assert w.Forgot(r).s.fields == w.s.fields[e := Reopening(w.s.fields[e])];
      OneOnward(w.s.fields, e, Reopening(w.s.fields[e]));
    }
  }

  lemma {:induction false} ForgotAllOnward<E>(w: World<E>, runIds: seq<RunId>)
    requires Inv(w) && w.s.Closed()
    ensures AllOnward(w.s.fields, w.ForgotAll(runIds).s.fields)
    decreases |runIds|
  {
    hide Roster, Buffers, Opens, Promises, Makers, Ledger, Versions, Fetches, Reruns, Marks, Debts, Early, Counts,
        AllOnward;
    if runIds == [] {
      NoneOnward(w.s.fields);
    } else {
      var r := runIds[0];
      if r in w.s.byRunId {
        RosterOf(w.s.fields, w.s.entries, w.s.byRunId, r);
        PromisesAt(w.s.fields, w.s.entries, w.opens, w.s.byRunId[r]);
      }
      ForgotOnward(w, r);
      ForgotKeeps(w, r);
      hide Inv;
      ForgotAllOnward(w.Forgot(r), runIds[1..]);
      OnwardThen(w.s.fields, w.Forgot(r).s.fields, w.ForgotAll(runIds).s.fields);
    }
  }

  lemma ReconnectedOnward<E>(w: World<E>)
    requires Inv(w) && w.s.Closed()
    ensures AllOnward(w.s.fields, w.AfterReconnected().s.fields)
  {
    hide Roster, Buffers, Opens, Promises, Makers, Ledger, Versions, Fetches, Reruns, Marks, Debts, Early, Counts;
    var fields' := AllReopened(w.s.fields, w.s.entries);
    forall e | e in w.s.fields ensures e in fields' && Onward(w.s.fields[e], fields'[e]) {
      PromisesAt(w.s.fields, w.s.entries, w.opens, e);
    }
  }

  lemma SetVisibleOnward<E>(w: World<E>, h: nat, visible: bool)
    requires w.CanSetVisible(h, visible)
    ensures AllOnward(w.s.fields, w.AfterSetVisible(h, visible).s.fields)
  {
    hide AllOnward;
    NoneOnward(w.s.fields);
    HandleOnward(w, w.handles[h].mine, visible);
  }

  lemma CloseHandleOnward<E>(w: World<E>, h: nat)
    requires w.CanCloseHandle(h)
    ensures AllOnward(w.s.fields, w.AfterCloseHandle(h).s.fields)
  {
    hide AllOnward;
    NoneOnward(w.s.fields);
    HandleOnward(w, w.handles[h].mine, w.handles[h].shown);
  }

  lemma FlushAnsweredOnward<E>(w: World<E>, f: nat, versions: map<RunId, nat>)
    requires Inv(w) && w.CanFlushAnswered(f, versions)
    ensures AllOnward(w.s.fields, w.AfterFlushAnswered(f, versions).s.fields)
  {
    hide Inv, AllOnward;
    TakenAllOnward(w, f, Snapshots(versions));
  }

  lemma RerunStartedOnward<E>(w: World<E>, e: E)
    requires w.CanRerunStarted(e)
    ensures AllOnward(w.s.fields, w.AfterRerunStarted(e).s.fields)
  {
    hide AllOnward;
    HandleOnward(w, e, true);
  }

  /** What neither answers nor asks changes no entry. */
  lemma AsideOnward<E>(w: World<E>, a: Action<E>, w': World<E>)
    requires w.Steps(a, w')
    requires a.CloseRun? || a.DaemonOpens? || a.DaemonChanges? || a.OpenSettled? || a.Announced? || a.FlushStarted?
        || a.FlushFailed? || a.ShownAgain?
    ensures AllOnward(w.s.fields, w'.s.fields)
  {
    hide AllOnward;
    NoneOnward(w.s.fields);
  }

  lemma StepOnward<E>(w: World<E>, a: Action<E>, w': World<E>)
    requires Inv(w) && w.Steps(a, w')
    ensures AllOnward(w.s.fields, w'.s.fields)
  {
    hide Inv, AllOnward;
    hide World.CanOpenPage, World.CanSetVisible, World.CanCloseHandle, World.CanCloseTimer, World.CanCloseRun,
         World.CanDaemonOpens, World.CanDaemonChanges, World.CanOpenAnswered, World.CanOpenFailed,
         World.CanOpenSettled, World.CanAnnounced, World.CanFlushStarted, World.CanFlushAnswered,
         World.CanFlushFailed, World.CanRerunStarted, World.CanRerunReady, World.CanRerunAnswered,
         World.CanRerunFailed, World.CanShownAgain, World.AfterOpenPage, World.AfterSetVisible,
         World.AfterCloseHandle, World.AfterCloseTimer, World.AfterCloseRun, World.AfterDaemonOpens,
         World.AfterDaemonChanges, World.AfterOpenAnswered, World.AfterOpenFailed, World.AfterOpenSettled,
         World.AfterAnnounced, World.AfterFlushStarted, World.AfterFlushAnswered, World.AfterFlushFailed,
         World.AfterRerunStarted, World.AfterRerunReady, World.AfterRerunAnswered, World.AfterRerunFailed,
         World.AfterShownAgain, World.AfterReconnected, World.ForgotAll;
    match a
    case OpenPage(h, k, made) => OpenPageOnward(w, h, k, made);
    case SetVisible(h, visible) => SetVisibleOnward(w, h, visible);
    case CloseHandle(h) => CloseHandleOnward(w, h);
    case CloseTimer(e) => CloseTimerOnward(w, e);
    case OpenAnswered(e, p, version) => OpenAnsweredOnward(w, e, p, version);
    case OpenFailed(e, p, why) => OpenFailedOnward(w, e, p, why);
    case FlushAnswered(f, versions) => FlushAnsweredOnward(w, f, versions);
    case RerunStarted(e) => RerunStartedOnward(w, e);
    case RerunReady(e, n) => RerunReadyOnward(w, e, n);
    case RerunAnswered(e, n, version) => RerunAnsweredOnward(w, e, n, version);
    case RerunFailed(e, n, why) => RerunFailedOnward(w, e, n, why);
    case Reconnected => ReconnectedOnward(w);
    case Reopen(runIds) => ForgotAllOnward(w, runIds);
    case _ => AsideOnward(w, a, w');
  }

  lemma {:induction false} RunOnward<E>(ws: seq<World<E>>, acts: seq<Action<E>>, i: nat, j: nat)
    requires IsRun(ws, acts) && i <= j < |ws|
    ensures AllOnward(ws[i].s.fields, ws[j].s.fields)
    decreases j - i
  {
    hide Inv, AllOnward, World.Steps;
    if i == j {
      NoneOnward(ws[i].s.fields);
    } else {
      RunOnward(ws, acts, i, j - 1);
      RunKeeps(ws, acts, j - 1);
      assert ws[j - 1].Steps(acts[j - 1], ws[j]);
      StepOnward(ws[j - 1], acts[j - 1], ws[j]);
      OnwardThen(ws[i].s.fields, ws[j - 1].s.fields, ws[j].s.fields);
    }
  }

  /** A live entry with a run shows rows of that run, no older than the last
      fetch applied and no newer than the daemon's. */
  lemma LiveShows<E>(w: World<E>, e: E)
    requires Inv(w) && e in w.s.fields
    ensures w.s.Live(e) <==> Held(w.s.fields[e])
    ensures w.s.Live(e) && w.s.fields[e].state.runId.Some? ==>
              var r := w.s.fields[e].state.runId.value;
              r in w.daemon && ShowsBetween(w.s.fields[e], r, w.daemon[r])
  {
    hide Roster, Buffers, Opens, Promises, Makers, Ledger, Versions, Fetches, Reruns, Marks, Debts, Early, Counts;
    PromisesAt(w.s.fields, w.s.entries, w.opens, e);
    RosterAt(w.s.fields, w.s.entries, w.s.byRunId, e);
    if w.s.Live(e) && w.s.fields[e].state.runId.Some? {
      VersionsAt(w.s.fields, w.s.byRunId, w.daemon, w.returned, w.s.fields[e].state.runId.value);
    }
  }

  /** While an entry is live and its opening stays, the run it holds stays and the
      version of it on screen never goes backwards. */
  lemma ScreenNeverGoesBack<E>(ws: seq<World<E>>, acts: seq<Action<E>>, i: nat, j: nat, e: E)
    requires IsRun(ws, acts) && i <= j < |ws|
    requires e in ws[i].s.fields && ws[i].s.fields[e].state.runId.Some?
    requires ws[j].s.Live(e) && ws[j].s.fields[e].opening == ws[i].s.fields[e].opening
    ensures ws[i].s.Live(e)
    ensures ws[j].s.fields[e].state.runId == ws[i].s.fields[e].state.runId
    ensures ws[i].s.fields[e].state.run.Some? && ws[j].s.fields[e].state.run.Some?
    ensures ws[i].s.fields[e].state.run.value.of == ws[j].s.fields[e].state.run.value.of
        == ws[i].s.fields[e].state.runId.value
    ensures ws[i].s.fields[e].state.run.value.version <= ws[j].s.fields[e].state.run.value.version
  {
    RunOnward(ws, acts, i, j);
    RunKeeps(ws, acts, i);
    RunKeeps(ws, acts, j);
    LiveShows(ws[j], e);
    LiveShows(ws[i], e);
  }

  // ---- Nothing announced is lost

  /** Every fetch of the run succeeds and leaves nothing out. */
  ghost predicate FetchesSucceed<E>(ws: seq<World<E>>, acts: seq<Action<E>>)
    requires IsRun(ws, acts)
  {
    forall i | 0 <= i < |acts| ::
      && !acts[i].FlushFailed?
      && (acts[i].FlushAnswered? && acts[i].f in ws[i].fetches ==>
            forall r | r in ws[i].fetches[acts[i].f].wanted :: r in acts[i].versions)
  }

  predicate OfHandle<E>(a: Action<E>) {
    a.OpenPage? || a.SetVisible? || a.CloseHandle? || a.CloseTimer? || a.CloseRun? || a.ShownAgain? || a.Reconnected?
  }

  predicate OfOpen<E>(a: Action<E>) {
    a.DaemonOpens? || a.DaemonChanges? || a.OpenAnswered? || a.OpenFailed? || a.OpenSettled? || a.Announced?
  }

  predicate OfFetch<E>(a: Action<E>) { a.FlushStarted? || a.FlushAnswered? || a.FlushFailed? || a.Reopen? }

  lemma HandleMisses<E>(w: World<E>, a: Action<E>, w': World<E>)
    requires w.Steps(a, w') && OfHandle(a)
    ensures w'.missed == w.missed
  {}

  lemma OpenMisses<E>(w: World<E>, a: Action<E>, w': World<E>)
    requires w.Steps(a, w') && OfOpen(a)
    ensures w'.missed == w.missed
  {}

  lemma RerunStartedMisses<E>(w: World<E>, e: E)
    requires w.CanRerunStarted(e)
    ensures w.AfterRerunStarted(e).missed == w.missed
  {}

  lemma RerunReadyMisses<E>(w: World<E>, e: E, n: nat)
    requires w.CanRerunReady(e, n)
    ensures w.AfterRerunReady(e, n).missed == w.missed
  {
    hide Store.RerunWithoutRun, Store.Current, Store.Closed;
    var x := w.reruns[(e, n)];
    if w.s.Current(e, x.fences) {
      match w.opens[(e, x.phase.promise)].answer
      case None =>
      case Some(_) =>
    }
  }

  lemma RerunSentMisses<E>(w: World<E>, a: Action<E>, w': World<E>)
    requires w.Steps(a, w') && (a.RerunStarted? || a.RerunReady?)
    ensures w'.missed == w.missed
  {
    hide World.AfterRerunStarted, World.AfterRerunReady, World.CanRerunStarted, World.CanRerunReady;
    if a.RerunReady? { RerunReadyMisses(w, a.e, a.n); } else { RerunStartedMisses(w, a.e); }
  }

  lemma RerunOverMisses<E>(w: World<E>, a: Action<E>, w': World<E>)
    requires w.Steps(a, w') && (a.RerunAnswered? || a.RerunFailed?)
    ensures w'.missed == w.missed
  {}

  lemma RerunMisses<E>(w: World<E>, a: Action<E>, w': World<E>)
    requires w.Steps(a, w') && !OfHandle(a) && !OfOpen(a) && !OfFetch(a)
    ensures w'.missed == w.missed
  {
    hide World.Steps;
    if a.RerunStarted? || a.RerunReady? {
      RerunSentMisses(w, a, w');
    } else {
      RerunOverMisses(w, a, w');
    }
  }

  lemma {:induction false} ForgotAllMisses<E>(w: World<E>, runIds: seq<RunId>)
    requires w.s.Closed()
    ensures w.ForgotAll(runIds).missed == w.missed
    decreases |runIds|
  {
    if runIds != [] { ForgotAllMisses(w.Forgot(runIds[0]), runIds[1..]); }
  }

  lemma FetchMisses<E>(w: World<E>, a: Action<E>, w': World<E>)
    requires w.Steps(a, w') && w.missed == {} && OfFetch(a) && !a.FlushFailed?
    requires a.FlushAnswered? && a.f in w.fetches ==> forall r | r in w.fetches[a.f].wanted :: r in a.versions
    ensures w'.missed == {}
  {
    if a.Reopen? { ForgotAllMisses(w, a.runIds); }
  }

  lemma StepMisses<E>(w: World<E>, a: Action<E>, w': World<E>)
    requires w.Steps(a, w') && w.missed == {}
    requires !a.FlushFailed?
    requires a.FlushAnswered? && a.f in w.fetches ==> forall r | r in w.fetches[a.f].wanted :: r in a.versions
    ensures w'.missed == {}
  {
    hide World.Steps;
    if OfHandle(a) {
      HandleMisses(w, a, w');
    } else if OfOpen(a) {
      OpenMisses(w, a, w');
    } else if OfFetch(a) {
      FetchMisses(w, a, w');
    } else {
      RerunMisses(w, a, w');
    }
  }

  lemma {:induction false} RunMisses<E>(ws: seq<World<E>>, acts: seq<Action<E>>, j: nat)
    requires IsRun(ws, acts) && FetchesSucceed(ws, acts) && j < |ws|
    ensures ws[j].missed == {}
    decreases j
  {
    if j > 0 {
      RunMisses(ws, acts, j - 1);
      assert ws[j - 1].Steps(acts[j - 1], ws[j]);
      StepMisses(ws[j - 1], acts[j - 1], ws[j]);
    }
  }

  /** No flush is armed and no fetch is in flight. */
  ghost predicate FetchedOut<E>(w: World<E>) { !w.s.flushTimer && w.fetches == map[] }

  /** Once fetching is done, every run held whose last fetch succeeded shows all
      that was announced of it, before its open's answer or after. */
  lemma AnnouncementsApplied<E>(ws: seq<World<E>>, acts: seq<Action<E>>, j: nat, r: RunId)
    requires IsRun(ws, acts) && j < |ws| && FetchedOut(ws[j])
    requires r in ws[j].s.byRunId && r !in ws[j].missed
    ensures var e := ws[j].s.byRunId[r];
      && e in ws[j].s.fields && ws[j].s.fields[e].state.run.Some?
      && ws[j].Announcement(r) <= ws[j].s.fields[e].seqNo <= ws[j].s.fields[e].state.run.value.version
  {
    RunKeeps(ws, acts, j);
    VersionsAt(ws[j].s.fields, ws[j].s.byRunId, ws[j].daemon, ws[j].returned, r);
  }

  /** With fetches that succeed, nothing announced is lost: whenever fetching is
      done every run held shows all that was announced of it. */
  lemma NothingAnnouncedIsLost<E>(ws: seq<World<E>>, acts: seq<Action<E>>, j: nat, r: RunId)
    requires IsRun(ws, acts) && FetchesSucceed(ws, acts) && j < |ws| && FetchedOut(ws[j])
    requires r in ws[j].s.byRunId
    ensures var e := ws[j].s.byRunId[r];
      && e in ws[j].s.fields && ws[j].s.fields[e].state.run.Some?
      && ws[j].Announcement(r) <= ws[j].s.fields[e].seqNo <= ws[j].s.fields[e].state.run.value.version
  {
    RunMisses(ws, acts, j);
    AnnouncementsApplied(ws, acts, j, r);
  }

  /** Once no open and no rerun is in flight, no live entry is marked stale. */
  lemma NoneLeftStale<E>(ws: seq<World<E>>, acts: seq<Action<E>>, j: nat, e: E)
    requires IsRun(ws, acts) && j < |ws|
    requires ws[j].reruns == map[] && forall q | q in ws[j].opens :: ws[j].opens[q].Settled?
    requires ws[j].s.Live(e)
    ensures !ws[j].s.fields[e].state.stale
  {
    RunKeeps(ws, acts, j);
    hide Roster, Buffers, Opens, Promises, Makers, Ledger, Versions, Fetches, Reruns, Marks, Debts, Early, Counts;
    PromisesAt(ws[j].s.fields, ws[j].s.entries, ws[j].opens, e);
    MarksAt(ws[j].s.fields, ws[j].opens, ws[j].reruns, e);
  }

  // ---- Runs are owned exactly once

  /** A let-go entry's close of run `r` is still to be issued. */
  ghost predicate Due<E>(w: World<E>, r: RunId) {
    r in w.maker && w.maker[r] in w.opens && w.maker[r] in w.closers && w.opens[w.maker[r]].Holds(r)
  }

  lemma OwnedOnce<E>(w: World<E>, r: RunId)
    requires Inv(w) && r in w.returned
    ensures One(r in w.s.byRunId) + One(r in w.dropped) + w.Closes(r) + One(Due(w, r)) == 1
  {
    hide Roster, Buffers, Opens, Promises, Makers, Ledger, Versions, Fetches, Reruns, Marks, Debts, Early, Counts;
    LedgerOf(w.s.fields, w.opens, w.maker, w.closers, w.returned, w.dropped, w.closed, r);
    var q := w.maker[r];
    PromisesOf(w.s.fields, w.s.entries, w.opens, q);
    PromisesAt(w.s.fields, w.s.entries, w.opens, q.0);
    RosterAt(w.s.fields, w.s.entries, w.s.byRunId, q.0);
    MakersAt(w.daemon, w.maker, w.returned, w.opens, q);
    if r in w.s.byRunId {
      var e := w.s.byRunId[r];
      RosterOf(w.s.fields, w.s.entries, w.s.byRunId, r);
      PromisesAt(w.s.fields, w.s.entries, w.opens, e);
      MakersAt(w.daemon, w.maker, w.returned, w.opens, (e, w.s.fields[e].promise));
    }
  }

  /** Every run returned is held once, or was dropped, or closed once, or is about
      to be closed: exactly one of these. */
  lemma OwnedExactlyOnce<E>(ws: seq<World<E>>, acts: seq<Action<E>>, j: nat, r: RunId)
    requires IsRun(ws, acts) && j < |ws| && r in ws[j].returned
    ensures One(r in ws[j].s.byRunId) + One(r in ws[j].dropped) + ws[j].Closes(r) + One(Due(ws[j], r)) == 1
  {
    RunKeeps(ws, acts, j);
    OwnedOnce(ws[j], r);
  }

  /** The roster is one-to-one with the live entries that hold a run. */
  lemma RosterIsOneToOne<E>(ws: seq<World<E>>, acts: seq<Action<E>>, j: nat)
    requires IsRun(ws, acts) && j < |ws|
    ensures var s := ws[j].s;
      && (forall r | r in s.byRunId :: s.Live(s.byRunId[r]) && s.fields[s.byRunId[r]].state.runId == Some(r))
      && (forall r, r' | r in s.byRunId && r' in s.byRunId && s.byRunId[r] == s.byRunId[r'] :: r == r')
      && (forall e | e in s.fields && s.Live(e) && s.fields[e].state.runId.Some? ::
            s.fields[e].state.runId.value in s.byRunId && s.byRunId[s.fields[e].state.runId.value] == e)
  {
    RunKeeps(ws, acts, j);
    hide Buffers, Opens, Promises, Makers, Ledger, Versions, Fetches, Reruns, Marks, Debts, Early, Counts;
  }

  /** `refs` and `shown` count an entry's unclosed and visible handles; an entry no
      host holds has its close timer armed, or was let go of. */
  lemma HandlesAreCounted<E>(ws: seq<World<E>>, acts: seq<Action<E>>, j: nat, e: E)
    requires IsRun(ws, acts) && j < |ws| && e in ws[j].s.fields
    ensures var f := ws[j].s.fields[e];
      && f.refs == |Hosts(ws[j].handles, e)| && f.shown == |ShownHosts(ws[j].handles, e)|
      && (f.refs > 0 ==> ws[j].s.Live(e))
      && (ws[j].s.Live(e) ==> (f.closeTimer <==> f.refs == 0))
  {
    RunKeeps(ws, acts, j);
    PromisesAt(ws[j].s.fields, ws[j].s.entries, ws[j].opens, e);
    hide Roster, Buffers, Opens, Promises, Makers, Ledger, Versions, Fetches, Reruns, Marks, Debts, Early;
    assert Counted(e, ws[j].s.fields[e], ws[j].handles);
  }

  /** What is held back is bounded, and what is pending has a flush armed for it. */
  lemma BuffersAreBounded<E>(ws: seq<World<E>>, acts: seq<Action<E>>, j: nat)
    requires IsRun(ws, acts) && j < |ws|
    ensures |ws[j].s.kept| <= 32 && |ws[j].s.earlyChanges| <= 1024
    ensures ws[j].s.pending != map[] <==> ws[j].s.flushTimer
    ensures (forall q | q in ws[j].opens :: ws[j].opens[q].Settled?) ==>
              ws[j].s.earlyChanges == map[] && !ws[j].s.earlyOverflow
  {
    RunKeeps(ws, acts, j);
    hide Roster, Promises, Makers, Ledger, Versions, Fetches, Reruns, Marks, Debts, Early, Counts;
    if forall q | q in ws[j].opens :: ws[j].opens[q].Settled? {
      assert Unsettled(ws[j].opens) == {};
    }
  }
}
