/** Every answer taken reaches the screen, whatever comes between. */
module PageRunAnswers {
  import opened Basics
  import opened PageRunStore
  import opened PageRunWorld
  import opened PageRunInvariants
  import opened PageRunEffects
  import opened PageRunSteps
  import opened PageRunTheorems

  /** Under `a` version `v` of run `r` comes in for entry `e`, which waits for it: its
      open is answered in the opening it is in; or the operation that is its latest is,
      in that opening, on the run it holds; or a fetch that asked for the run it holds. */
  ghost predicate Comes<E>(w: World<E>, a: Action<E>, e: E, r: RunId, v: nat) {
    match a
    case OpenAnswered(x, p, version) =>
      && x == e && version == v && e in w.s.fields && w.s.fields[e].opening == p
      && (e, p) in w.opens && w.opens[(e, p)].Created? && w.opens[(e, p)].run == r
    case RerunAnswered(x, n, version) =>
      && x == e && version == v && e in w.s.fields && r in w.s.byRunId && w.s.byRunId[r] == e
      && (e, n) in w.reruns && w.reruns[(e, n)].phase.Sent? && w.reruns[(e, n)].phase.run == r
      && w.reruns[(e, n)].fences.opening == w.s.fields[e].opening
      && w.reruns[(e, n)].fences.operation == w.s.fields[e].operation
    case FlushAnswered(f, versions) =>
      && r in w.s.byRunId && w.s.byRunId[r] == e
      && f in w.fetches && r in w.fetches[f].wanted && r in versions && versions[r] == v
    case _ => false
  }

  /** Version `v` of run `r`, if it is held, is on screen, or a newer one; or it is asked
      for, or to be asked for, or was asked for in vain. */
  ghost predicate Paid<E>(w: World<E>, r: RunId, v: nat) {
    r in w.s.byRunId ==>
      || (w.s.byRunId[r] in w.s.fields && v <= Screen(w.s.fields[w.s.byRunId[r]]))
      || r in w.s.pending
      || r in w.missed
      || exists g | g in w.fetches :: Carries(w.fetches[g], r, v)
  }

  // ---- What a step adds to, and what it leaves

  ghost predicate Grows<E>(w: World<E>, w': World<E>) {
    && (forall r | r in w.maker :: r in w'.maker && w'.maker[r] == w.maker[r])
    && w.returned <= w'.returned
    && (forall r | r in w.daemon :: r in w'.daemon && w.daemon[r] <= w'.daemon[r])
    && (forall r | r in w.returned && r in w'.s.byRunId :: r in w.s.byRunId && w'.s.byRunId[r] == w.s.byRunId[r])
  }

  ghost predicate Asks<E>(w: World<E>, w': World<E>) {
    w.s.pending.Keys <= w'.s.pending.Keys && w'.fetches == w.fetches && w'.missed == w.missed
  }

  lemma CloseTimerAsks<E>(w: World<E>, e: E)
    requires w.CanCloseTimer(e)
    ensures Grows(w, w.AfterCloseTimer(e)) && Asks(w, w.AfterCloseTimer(e))
  {
    hide Keep;
  }

  lemma OpenPageAsks<E>(w: World<E>, h: nat, k: Key, made: E)
    requires w.CanOpenPage(h, k, made)
    ensures Grows(w, w.AfterOpenPage(h, k, made)) && Asks(w, w.AfterOpenPage(h, k, made))
  {
    hide Find;
  }

  lemma CloseTimerIs<E>(w: World<E>, a: Action<E>, w': World<E>)
    requires w.Steps(a, w') && a.CloseTimer?
    ensures w.CanCloseTimer(a.e) && w' == w.AfterCloseTimer(a.e)
  {}

  lemma OpenPageIs<E>(w: World<E>, a: Action<E>, w': World<E>)
    requires w.Steps(a, w') && a.OpenPage?
    ensures w.CanOpenPage(a.h, a.k, a.made) && w' == w.AfterOpenPage(a.h, a.k, a.made)
  {}

  lemma SetVisibleAsks<E>(w: World<E>, a: Action<E>, w': World<E>)
    requires w.Steps(a, w') && a.SetVisible?
    ensures Grows(w, w') && Asks(w, w')
  {}

  lemma CloseHandleAsks<E>(w: World<E>, a: Action<E>, w': World<E>)
    requires w.Steps(a, w') && a.CloseHandle?
    ensures Grows(w, w') && Asks(w, w')
  {}

  lemma CloseRunAsks<E>(w: World<E>, a: Action<E>, w': World<E>)
    requires w.Steps(a, w') && a.CloseRun?
    ensures Grows(w, w') && Asks(w, w')
  {}

  lemma AllAsks<E>(w: World<E>, a: Action<E>, w': World<E>)
    requires w.Steps(a, w') && (a.ShownAgain? || a.Reconnected?)
    ensures Grows(w, w') && Asks(w, w')
  {}

  lemma HandleAsks<E>(w: World<E>, a: Action<E>, w': World<E>)
    requires w.Steps(a, w') && OfHandle(a)
    ensures Grows(w, w') && Asks(w, w')
  {
    hide Grows, Asks, World.Steps, World.AfterOpenPage, World.CanOpenPage, World.AfterCloseTimer, World.CanCloseTimer;
    if a.CloseTimer? {
      CloseTimerIs(w, a, w');
      CloseTimerAsks(w, a.e);
    } else if a.OpenPage? {
      OpenPageIs(w, a, w');
      OpenPageAsks(w, a.h, a.k, a.made);
    } else if a.ShownAgain? || a.Reconnected? {
      AllAsks(w, a, w');
    } else if a.CloseRun? {
      CloseRunAsks(w, a, w');
    } else if a.SetVisible? {
      SetVisibleAsks(w, a, w');
    } else {
      CloseHandleAsks(w, a, w');
    }
  }

  lemma OpenAnsweredAsks<E>(w: World<E>, e: E, p: nat, version: nat)
    requires Inv(w) && w.CanOpenAnswered(e, p, version)
    ensures Grows(w, w.AfterOpenAnswered(e, p, version)) && Asks(w, w.AfterOpenAnswered(e, p, version))
  {
    hide Roster, Buffers, Opens, Promises, Makers, Ledger, Versions, Fetches, Reruns, Marks, Debts, Early, Counts;
    MakersAt(w.daemon, w.maker, w.returned, w.opens, (e, p));
  }

  lemma DaemonOpensAsks<E>(w: World<E>, e: E, p: nat, r: RunId, version: nat)
    requires Inv(w) && w.CanDaemonOpens(e, p, r, version)
    ensures Grows(w, w.AfterDaemonOpens(e, p, r, version)) && Asks(w, w.AfterDaemonOpens(e, p, r, version))
  {
    hide Roster, Buffers, Opens, Promises, Makers, Ledger, Versions, Fetches, Reruns, Marks, Debts, Early, Counts;
    MakersOf(w.daemon, w.maker, w.returned, w.opens, r);
  }

  lemma AnnouncedAsks<E>(w: World<E>, r: RunId, n: nat)
    requires w.CanAnnounced(r, n)
    ensures Grows(w, w.AfterAnnounced(r, n)) && Asks(w, w.AfterAnnounced(r, n))
  {}

  lemma OpenAsks<E>(w: World<E>, a: Action<E>, w': World<E>)
    requires Inv(w) && w.Steps(a, w') && OfOpen(a)
    ensures Grows(w, w') && Asks(w, w')
  {
    hide Inv;
    if a.OpenAnswered? {
      hide Grows, Asks, World.AfterOpenAnswered, World.CanOpenAnswered;
      OpenAnsweredAsks(w, a.e, a.p, a.version);
    } else if a.DaemonOpens? {
      hide Grows, Asks, World.AfterDaemonOpens, World.CanDaemonOpens;
      DaemonOpensAsks(w, a.e, a.p, a.r, a.version);
    } else if a.Announced? {
      hide Grows, Asks, World.AfterAnnounced, World.CanAnnounced;
      AnnouncedAsks(w, a.r, a.seqNo);
    }
  }

  lemma RerunReadyAsks<E>(w: World<E>, e: E, n: nat)
    requires w.CanRerunReady(e, n)
    ensures Grows(w, w.AfterRerunReady(e, n)) && Asks(w, w.AfterRerunReady(e, n))
  {
    hide Store.Current, Store.Closed;
    var x := w.reruns[(e, n)];
    if w.s.Current(e, x.fences) {
      match w.opens[(e, x.phase.promise)].answer
      case None =>
      case Some(_) =>
    }
  }

  lemma RerunStartedAsks<E>(w: World<E>, e: E)
    requires w.CanRerunStarted(e)
    ensures Grows(w, w.AfterRerunStarted(e)) && Asks(w, w.AfterRerunStarted(e))
  {}

  lemma AnsweredAsks<E>(s: Store<E>, e: E, fences: Fences, r: RunId, answer: Result<PageRun, string>)
    requires e in s.fields
    ensures s.pending.Keys <= s.RerunAnswered(e, fences, r, answer).pending.Keys
  {}

  lemma RerunOverAsks<E>(w: World<E>, a: Action<E>, w': World<E>)
    requires w.Steps(a, w') && (a.RerunAnswered? || a.RerunFailed?)
    ensures Grows(w, w') && Asks(w, w')
  {
    hide Store.RerunAnswered;
    var x := w.reruns[(a.e, a.n)];
    var answer := if a.RerunFailed? then Err(a.why) else Ok(PageRun(x.phase.run, a.version));
    AnsweredAsks(w.s, a.e, x.fences, x.phase.run, answer);
  }

  lemma RerunAsks<E>(w: World<E>, a: Action<E>, w': World<E>)
    requires w.Steps(a, w') && !OfHandle(a) && !OfOpen(a) && !OfFetch(a)
    ensures Grows(w, w') && Asks(w, w')
  {
    hide Grows, Asks, World.AfterRerunReady, World.AfterRerunStarted;
    if a.RerunReady? {
      RerunReadyAsks(w, a.e, a.n);
    } else if a.RerunStarted? {
      RerunStartedAsks(w, a.e);
    } else {
      RerunOverAsks(w, a, w');
    }
  }

  lemma FlushGrows<E>(w: World<E>, a: Action<E>, w': World<E>)
    requires w.Steps(a, w') && (a.FlushStarted? || a.FlushAnswered? || a.FlushFailed?)
    ensures Grows(w, w')
  {}

  lemma ForgotAsks<E>(w: World<E>, r: RunId)
    requires w.s.Closed()
    ensures Grows(w, w.Forgot(r)) && Asks(w, w.Forgot(r))
  {
    var w' := w.Forgot(r);
    assert w'.s.byRunId == if r in w.s.byRunId then w.s.byRunId - {r} else w.s.byRunId;
    assert w'.s.pending == w.s.pending;
    assert w' == w.(s := w'.s, dropped := w'.dropped, opens := w'.opens);
    hide World.Forgot, Store.Forgot, Store.Closed;
  }

  lemma GrowsThen<E>(a: World<E>, b: World<E>, c: World<E>)
    requires Grows(a, b) && Grows(b, c) && Asks(a, b) && Asks(b, c)
    ensures Grows(a, c) && Asks(a, c)
  {}

  lemma GrowsNot<E>(w: World<E>)
    ensures Grows(w, w) && Asks(w, w)
  {}

  lemma {:induction false} ForgotAllAsks<E>(w: World<E>, runIds: seq<RunId>)
    requires w.s.Closed()
    ensures Grows(w, w.ForgotAll(runIds)) && Asks(w, w.ForgotAll(runIds))
    decreases |runIds|
  {
    hide Grows, Asks;
    if runIds == [] {
      GrowsNot(w);
    } else {
      var w' := w.Forgot(runIds[0]);
      ForgotAsks(w, runIds[0]);
      ForgotAllAsks(w', runIds[1..]);
      GrowsThen(w, w', w.ForgotAll(runIds));
    }
  }

  lemma StepGrows<E>(w: World<E>, a: Action<E>, w': World<E>)
    requires Inv(w) && w.Steps(a, w')
    ensures Grows(w, w')
    ensures !a.FlushStarted? && !a.FlushAnswered? && !a.FlushFailed? ==> Asks(w, w')
  {
    hide Inv, Grows, Asks;
    if a.Reopen? {
      ForgotAllAsks(w, a.runIds);
    } else {
      hide World.Steps;
      if OfHandle(a) {
        HandleAsks(w, a, w');
      } else if OfOpen(a) {
        OpenAsks(w, a, w');
      } else if OfFetch(a) {
        FlushGrows(w, a, w');
      } else {
        RerunAsks(w, a, w');
      }
    }
  }

  // ---- What is held stays on screen

  /** A run is held in the opening that made it. */
  lemma HeldByMaker<E>(w: World<E>, r: RunId)
    requires Inv(w) && r in w.s.byRunId
    ensures w.s.byRunId[r] in w.s.fields && Held(w.s.fields[w.s.byRunId[r]])
    ensures w.s.fields[w.s.byRunId[r]].state.runId == Some(r)
    ensures r in w.maker && w.maker[r] == (w.s.byRunId[r], w.s.fields[w.s.byRunId[r]].opening)
  {
    hide Roster, Buffers, Opens, Promises, Makers, Ledger, Versions, Fetches, Reruns, Marks, Debts, Early, Counts;
    var e := w.s.byRunId[r];
    RosterOf(w.s.fields, w.s.entries, w.s.byRunId, r);
    PromisesAt(w.s.fields, w.s.entries, w.opens, e);
    MakersAt(w.daemon, w.maker, w.returned, w.opens, (e, w.s.fields[e].promise));
  }

  lemma ScreenGrows<E>(w: World<E>, a: Action<E>, w': World<E>, r: RunId)
    requires Inv(w) && w.Steps(a, w') && r in w.returned && r in w'.s.byRunId
    ensures r in w.s.byRunId && w.s.byRunId[r] == w'.s.byRunId[r]
    ensures var e := w.s.byRunId[r];
            e in w.s.fields && e in w'.s.fields && Screen(w.s.fields[e]) <= Screen(w'.s.fields[e])
  {
    hide Inv, World.Steps;
    StepKeeps(w, a, w');
    StepGrows(w, a, w');
    StepOnward(w, a, w');
    HeldByMaker(w', r);
    HeldByMaker(w, r);
    assert Onward(w.s.fields[w.s.byRunId[r]], w'.s.fields[w.s.byRunId[r]]);
  }

  // ---- What is owed of a held run is paid, or asked for

  lemma AsksPays<E>(w: World<E>, a: Action<E>, w': World<E>, r: RunId, v: nat)
    requires Inv(w) && w.Steps(a, w') && r in w.returned && Paid(w, r, v)
    requires !a.FlushStarted? && !a.FlushAnswered? && !a.FlushFailed?
    ensures Paid(w', r, v)
  {
    hide Inv, World.Steps;
    StepGrows(w, a, w');
    hide Grows;
    if r in w'.s.byRunId { ScreenGrows(w, a, w', r); }
  }

  lemma FlushStartedPays<E>(w: World<E>, f: nat, wanted: seq<RunId>, r: RunId, v: nat)
    requires Inv(w) && w.CanFlushStarted(f, wanted) && Paid(w, r, v) && r in w.daemon && v <= w.daemon[r]
    ensures Paid(w.AfterFlushStarted(f, wanted), r, v)
  {
    hide Inv;
    var w' := w.AfterFlushStarted(f, wanted);
    if r in w.s.byRunId {
      if r in w.s.pending {
        assert r in wanted;
        assert Carries(w'.fetches[f], r, v);
      } else if g :| g in w.fetches && Carries(w.fetches[g], r, v) {
        assert g in w'.fetches && Carries(w'.fetches[g], r, v);
      }
    }
  }

  lemma FlushFailedPays<E>(w: World<E>, f: nat, r: RunId, v: nat)
    requires w.CanFlushFailed(f) && Paid(w, r, v)
    ensures Paid(w.AfterFlushFailed(f), r, v)
  {
    var w' := w.AfterFlushFailed(f);
    if g :| g in w.fetches && Carries(w.fetches[g], r, v) {
      assert g == f || (g in w'.fetches && Carries(w'.fetches[g], r, v));
    }
  }

  /** In a store: `r` is held, and shows `v` or newer unless it is to be asked for. */
  ghost predicate Shows<E>(s: Store<E>, r: RunId, v: nat) {
    && r in s.byRunId && s.byRunId[r] in s.fields
    && (v <= Screen(s.fields[s.byRunId[r]]) || r in s.pending)
  }

  /** Each entry holds one run, and no entry shows less than what it has applied. */
  ghost predicate OneRunEach<E>(s: Store<E>) {
    && (forall r | r in s.byRunId :: s.byRunId[r] in s.fields)
    && (forall r, x | r in s.byRunId && x in s.byRunId && s.byRunId[r] == s.byRunId[x] :: r == x)
    && (forall r | r in s.byRunId :: s.fields[s.byRunId[r]].seqNo <= Screen(s.fields[s.byRunId[r]]))
  }

  lemma FetchedKeepsOne<E>(s: Store<E>, x: RunId, captured: Option<nat>, answer: Option<Snapshot>)
    requires s.Closed() && OneRunEach(s)
    requires answer.Some? ==> answer.value.run == PageRun(x, answer.value.seqNo)
    ensures OneRunEach(s.Fetched(x, captured, answer)) && s.Fetched(x, captured, answer).byRunId == s.byRunId
  {
    assert s.Fetched(x, captured, answer).byRunId == s.byRunId;
  }

  /** In a store: `e` shows version `v` of its run `r`, unmarked; or the run is to be asked
      for; or a later fetch, numbered `q`, was applied before. */
  ghost predicate TakenIn<E>(s: Store<E>, r: RunId, e: E, v: nat, q: nat) {
    && r in s.byRunId && s.byRunId[r] == e && e in s.fields
    && (s.fields[e].seqNo == q || s.fields[e].seqNo == v)
    && (s.fields[e].state == RunState(Some(r), Some(PageRun(r, v)), None, false) || r in s.pending || v < q)
  }

  lemma FetchedTakes<E>(s: Store<E>, x: RunId, captured: Option<nat>, answer: Option<Snapshot>, r: RunId, e: E, v: nat)
    requires s.Closed() && r in s.byRunId && s.byRunId[r] == e
    requires forall y | y in s.byRunId && s.byRunId[y] == e :: y == r
    requires x == r && answer.Some? ==> answer.value == Snapshot(PageRun(r, v), v)
    ensures var q, s' := s.fields[e].seqNo, s.Fetched(x, captured, answer);
            && (x == r && answer.Some? ==> TakenIn(s', r, e, v, q))
            && (x != r || answer.None? ==> s'.fields[e] == s.fields[e] && s.pending.Keys <= s'.pending.Keys)
  {}

  lemma FetchedShows<E>(s: Store<E>, x: RunId, captured: Option<nat>, answer: Option<Snapshot>, r: RunId, v: nat)
    requires s.Closed() && OneRunEach(s) && r in s.byRunId
    requires answer.Some? ==> answer.value.run == PageRun(x, answer.value.seqNo)
    requires answer.Some? && x == r ==> v <= answer.value.seqNo
    requires Shows(s, r, v) || (x == r && answer.Some?)
    ensures Shows(s.Fetched(x, captured, answer), r, v)
  {
    var s' := s.Fetched(x, captured, answer);
    assert s'.byRunId == s.byRunId;
    var e := s.byRunId[r];
    assert forall y | y in s.byRunId && s.byRunId[y] == e :: y == r;
    if x == r && answer.Some? {
      FetchedTakes(s, x, captured, answer, r, e, answer.value.seqNo);
    } else {
      FetchedTakes(s, x, captured, answer, r, e, v);
    }
    hide Store.Fetched, OneRunEach;
  }

  lemma {:induction false} FetchedAllShows<E>(
    s: Store<E>, wanted: seq<RunId>, captured: map<RunId, Option<nat>>, runs: map<RunId, Snapshot>, r: RunId, v: nat)
    requires s.Closed() && OneRunEach(s) && r in s.byRunId && forall x :: x in wanted ==> x in captured
    requires forall x | x in runs :: runs[x].run == PageRun(x, runs[x].seqNo)
    requires r in runs ==> v <= runs[r].seqNo
    requires Shows(s, r, v) || (r in wanted && r in runs)
    ensures Shows(s.FetchedAll(wanted, captured, runs), r, v)
    decreases |wanted|
  {
    hide OneRunEach, Shows, Store.Fetched;
    if wanted != [] {
      var x := wanted[0];
      var answer := if x in runs then Some(runs[x]) else None;
      var s' := s.Fetched(x, captured[x], answer);
      FetchedKeepsOne(s, x, captured[x], answer);
      if Shows(s, r, v) || x == r { FetchedShows(s, x, captured[x], answer, r, v); }
      FetchedAllShows(s', wanted[1..], captured, runs, r, v);
    }
  }

  lemma HeldReturned<E>(w: World<E>, r: RunId)
    requires Inv(w) && r in w.s.byRunId
    ensures r in w.returned && r in w.daemon
  {
    hide Roster, Buffers, Opens, Promises, Makers, Ledger, Fetches, Reruns, Marks, Debts, Early, Counts;
    VersionsAt(w.s.fields, w.s.byRunId, w.daemon, w.returned, r);
  }

  lemma HoldsOneEach<E>(w: World<E>)
    requires Inv(w)
    ensures w.s.Closed() && OneRunEach(w.s)
  {
    hide Buffers, Opens, Promises, Makers, Ledger, Fetches, Reruns, Marks, Debts, Early, Counts;
    RosterClosed(w.s);
    forall r | r in w.s.byRunId ensures w.s.fields[w.s.byRunId[r]].seqNo <= Screen(w.s.fields[w.s.byRunId[r]]) {
      VersionsAt(w.s.fields, w.s.byRunId, w.daemon, w.returned, r);
    }
  }

  lemma FlushAnsweredShows<E>(w: World<E>, f: nat, versions: map<RunId, nat>, r: RunId, v: nat)
    requires Inv(w) && w.CanFlushAnswered(f, versions) && r in w.s.byRunId && (r in versions ==> v <= versions[r])
    requires Shows(w.s, r, v) || (r in w.fetches[f].wanted && r in versions)
    ensures Shows(w.AfterFlushAnswered(f, versions).s, r, v)
  {
    HoldsOneEach(w);
    hide Inv, OneRunEach, Shows;
    var x := w.fetches[f];
    FetchedAllShows(w.s, x.wanted, x.captured, Snapshots(versions), r, v);
  }

  lemma {:induction false} FetchedAllAsks<E>(
    s: Store<E>, wanted: seq<RunId>, captured: map<RunId, Option<nat>>, runs: map<RunId, Snapshot>)
    requires s.Closed() && forall x :: x in wanted ==> x in captured
    ensures s.pending.Keys <= s.FetchedAll(wanted, captured, runs).pending.Keys
    decreases |wanted|
  {
    if wanted != [] {
      var x := wanted[0];
      var answer := if x in runs then Some(runs[x]) else None;
      FetchedAllAsks(s.Fetched(x, captured[x], answer), wanted[1..], captured, runs);
    }
  }

  lemma ShownIsPaid<E>(w: World<E>, r: RunId, v: nat)
    requires Shows(w.s, r, v)
    ensures Paid(w, r, v)
  {}

  lemma FlushAnsweredIs<E>(w: World<E>, a: Action<E>, w': World<E>)
    requires w.Steps(a, w') && a.FlushAnswered?
    ensures w.CanFlushAnswered(a.f, a.versions) && w' == w.AfterFlushAnswered(a.f, a.versions)
  {}

  lemma FlushAnsweredAsks<E>(w: World<E>, f: nat, versions: map<RunId, nat>)
    requires w.CanFlushAnswered(f, versions)
    ensures var w' := w.AfterFlushAnswered(f, versions);
            && w.s.pending.Keys <= w'.s.pending.Keys && w.missed <= w'.missed && w'.fetches == w.fetches - {f}
            && forall r | r in w.fetches[f].wanted && r in w.fetches[f].newest && r !in versions :: r in w'.missed
  {
    var x := w.fetches[f];
    hide Store.FetchedAll;
    FetchedAllAsks(w.s, x.wanted, x.captured, Snapshots(versions));
  }

  lemma FlushAnsweredPays<E>(w: World<E>, a: Action<E>, w': World<E>, r: RunId, v: nat)
    requires Inv(w) && w.Steps(a, w') && a.FlushAnswered? && Paid(w, r, v) && r in w.returned
    ensures Paid(w', r, v)
  {
    hide Inv, World.Steps, Shows;
    FlushAnsweredIs(w, a, w');
    FlushAnsweredAsks(w, a.f, a.versions);
    if r in w'.s.byRunId {
      ScreenGrows(w, a, w', r);
      hide World.AfterFlushAnswered;
      if r !in w.s.pending && r !in w.missed && Screen(w.s.fields[w.s.byRunId[r]]) < v {
        var g :| g in w.fetches && Carries(w.fetches[g], r, v);
        if g != a.f {
          assert g in w'.fetches && Carries(w'.fetches[g], r, v);
        } else if r in a.versions {
          FlushAnsweredShows(w, a.f, a.versions, r, v);
          ShownIsPaid(w', r, v);
        }
      }
    }
  }

  lemma FlushStartedIs<E>(w: World<E>, a: Action<E>, w': World<E>)
    requires w.Steps(a, w') && a.FlushStarted?
    ensures w.CanFlushStarted(a.f, a.wanted) && w' == w.AfterFlushStarted(a.f, a.wanted)
  {}

  lemma FlushFailedIs<E>(w: World<E>, a: Action<E>, w': World<E>)
    requires w.Steps(a, w') && a.FlushFailed?
    ensures w.CanFlushFailed(a.f) && w' == w.AfterFlushFailed(a.f)
  {}

  lemma StepPays<E>(w: World<E>, a: Action<E>, w': World<E>, r: RunId, v: nat)
    requires Inv(w) && w.Steps(a, w') && r in w.returned && r in w.daemon && v <= w.daemon[r] && Paid(w, r, v)
    ensures Paid(w', r, v) && r in w'.returned && r in w'.daemon && v <= w'.daemon[r]
  {
    hide Inv, Paid, World.Steps, World.AfterFlushStarted, World.AfterFlushFailed;
    StepGrows(w, a, w');
    if a.FlushStarted? {
      FlushStartedIs(w, a, w');
      FlushStartedPays(w, a.f, a.wanted, r, v);
    } else if a.FlushFailed? {
      FlushFailedIs(w, a, w');
      FlushFailedPays(w, a.f, r, v);
    } else if a.FlushAnswered? {
      FlushAnsweredPays(w, a, w', r, v);
    } else {
      AsksPays(w, a, w', r, v);
    }
  }

  // ---- Answers

  lemma OpenComes<E>(w: World<E>, e: E, p: nat, version: nat, r: RunId)
    requires w.CanOpenAnswered(e, p, version) && w.s.fields[e].opening == p && w.opens[(e, p)].run == r
    ensures var w' := w.AfterOpenAnswered(e, p, version);
            && r in w'.s.byRunId && w'.s.byRunId[r] == e && e in w'.s.fields
            && w'.s.fields[e].state == RunState(Some(r), Some(PageRun(r, version)), None, false)
            && r in w'.returned && r in w'.daemon && version <= w'.daemon[r]
  {}

  /** An operation's answer is on screen at once, or the run is asked for anew. */
  lemma RerunComes<E>(w: World<E>, e: E, n: nat, version: nat, r: RunId)
    requires Inv(w) && w.CanRerunAnswered(e, n, version) && Comes(w, RerunAnswered(e, n, version), e, r, version)
    ensures var w' := w.AfterRerunAnswered(e, n, version);
            && r in w'.s.byRunId && w'.s.byRunId[r] == e && e in w'.s.fields && !w'.s.fields[e].state.stale
            && (w'.s.fields[e].state == RunState(Some(r), Some(PageRun(r, version)), None, false) || r in w'.s.pending)
            && r in w'.returned && r in w'.daemon && version <= w'.daemon[r]
  {
    hide Roster, Buffers, Opens, Promises, Makers, Ledger, Versions, Fetches, Reruns, Marks, Debts, Early, Counts;
    RosterOf(w.s.fields, w.s.entries, w.s.byRunId, r);
    VersionsAt(w.s.fields, w.s.byRunId, w.daemon, w.returned, r);
  }

  lemma {:induction false} FetchedAllTakes<E>(
    s: Store<E>, wanted: seq<RunId>, captured: map<RunId, Option<nat>>, runs: map<RunId, Snapshot>, r: RunId, e: E,
    v: nat, q: nat)
    requires s.Closed() && r in s.byRunId && s.byRunId[r] == e && forall x :: x in wanted ==> x in captured
    requires forall y | y in s.byRunId && s.byRunId[y] == e :: y == r
    requires r in runs && runs[r] == Snapshot(PageRun(r, v), v)
    requires TakenIn(s, r, e, v, q) || (r in wanted && s.fields[e].seqNo == q)
    ensures TakenIn(s.FetchedAll(wanted, captured, runs), r, e, v, q)
    decreases |wanted|
  {
    if wanted != [] {
      var x := wanted[0];
      var answer := if x in runs then Some(runs[x]) else None;
      var s' := s.Fetched(x, captured[x], answer);
      FetchedTakes(s, x, captured[x], answer, r, e, v);
      assert s'.byRunId == s.byRunId;
      hide Store.Fetched;
      assert TakenIn(s, r, e, v, q) || x == r ==> TakenIn(s', r, e, v, q);
      FetchedAllTakes(s', wanted[1..], captured, runs, r, e, v, q);
    }
  }

  /** A fetch's answer for a run held is on screen at once, unmarked, or the run is asked
      for anew, unless a later fetch was applied before it. */
  lemma FetchComes<E>(w: World<E>, f: nat, versions: map<RunId, nat>, e: E, r: RunId, v: nat)
    requires Inv(w) && w.CanFlushAnswered(f, versions) && Comes(w, FlushAnswered(f, versions), e, r, v)
    ensures e in w.s.fields && e in w.AfterFlushAnswered(f, versions).s.fields
    ensures var s := w.AfterFlushAnswered(f, versions).s;
            || s.fields[e].state == RunState(Some(r), Some(PageRun(r, v)), None, false)
            || r in s.pending
            || v < w.s.fields[e].seqNo
  {
    HoldsOneEach(w);
    hide Inv;
    var x := w.fetches[f];
    FetchedAllTakes(w.s, x.wanted, x.captured, Snapshots(versions), r, e, v, w.s.fields[e].seqNo);
  }

  /** An announcement of nothing newer than what is applied changes nothing, nor does one
      of a run not known while no open is out. */
  lemma OldNewsIsDropped<E>(w: World<E>, r: RunId, n: nat)
    requires Inv(w) && w.CanAnnounced(r, n)
    requires if r in w.s.byRunId then n <= w.s.fields[w.s.byRunId[r]].seqNo
             else forall q | q in w.opens :: w.opens[q].Settled?
    ensures w.AfterAnnounced(r, n).s == w.s
  {
    hide Roster, Buffers, Promises, Makers, Ledger, Versions, Fetches, Reruns, Marks, Debts, Early, Counts;
    if r !in w.s.byRunId { assert Unsettled(w.opens) == {}; }
  }

  lemma AnswerPays<E>(w: World<E>, a: Action<E>, w': World<E>, e: E, r: RunId, v: nat)
    requires Inv(w) && w.Steps(a, w') && Comes(w, a, e, r, v)
    ensures Paid(w', r, v) && r in w'.returned && r in w'.daemon && v <= w'.daemon[r]
    ensures r in w'.s.byRunId && w'.s.byRunId[r] == e
  {
    hide Inv;
    match a
    case OpenAnswered(_, p, version) => OpenComes(w, e, p, version, r);
    case RerunAnswered(_, n, version) => RerunComes(w, e, n, version, r);
    case FlushAnswered(f, versions) =>
      FlushAnsweredShows(w, f, versions, r, v);
      HeldReturned(w, r);
  }

  lemma {:induction false} RunPays<E>(ws: seq<World<E>>, acts: seq<Action<E>>, i: nat, j: nat, e: E, r: RunId, v: nat)
    requires IsRun(ws, acts) && i < j < |ws| && Comes(ws[i], acts[i], e, r, v)
    ensures Paid(ws[j], r, v) && r in ws[j].returned && r in ws[j].daemon && v <= ws[j].daemon[r]
    ensures r in ws[j].maker && ws[j].maker[r].0 == e
    decreases j
  {
    hide Inv, World.Steps, Comes, Paid;
    RunKeeps(ws, acts, j - 1);
    assert ws[j - 1].Steps(acts[j - 1], ws[j]);
    if j == i + 1 {
      AnswerPays(ws[i], acts[i], ws[j], e, r, v);
      RunKeeps(ws, acts, j);
      HeldByMaker(ws[j], r);
    } else {
      RunPays(ws, acts, i, j - 1, e, r, v);
      StepPays(ws[j - 1], acts[j - 1], ws[j], r, v);
      StepGrows(ws[j - 1], acts[j - 1], ws[j]);
    }
  }

  /** Whatever answer comes in for an entry, once fetching is done the entry shows that
      version or a newer one, if it still holds the run and the run's newest fetch, if
      there was one, brought it. */
  lemma AnswersReachTheScreen<E>(
    ws: seq<World<E>>, acts: seq<Action<E>>, i: nat, j: nat, e: E, r: RunId, v: nat)
    requires IsRun(ws, acts) && i < j < |ws| && Comes(ws[i], acts[i], e, r, v)
    requires FetchedOut(ws[j]) && r in ws[j].s.byRunId && r !in ws[j].missed
    ensures ws[j].s.byRunId[r] == e && e in ws[j].s.fields
    ensures ws[j].s.fields[e].state.run.Some?
    ensures ws[j].s.fields[e].state.run.value.of == r && v <= ws[j].s.fields[e].state.run.value.version
  {
    RunPays(ws, acts, i, j, e, r, v);
    RunKeeps(ws, acts, j);
    HeldByMaker(ws[j], r);
    hide Roster, Opens, Promises, Makers, Ledger, Versions, Fetches, Reruns, Marks, Debts, Early, Counts;
    VersionsAt(ws[j].s.fields, ws[j].s.byRunId, ws[j].daemon, ws[j].returned, r);
  }

  /** With fetches that succeed, no answer is lost. */
  lemma NoAnswerIsLost<E>(ws: seq<World<E>>, acts: seq<Action<E>>, i: nat, j: nat, e: E, r: RunId, v: nat)
    requires IsRun(ws, acts) && FetchesSucceed(ws, acts) && i < j < |ws| && Comes(ws[i], acts[i], e, r, v)
    requires FetchedOut(ws[j]) && r in ws[j].s.byRunId
    ensures ws[j].s.byRunId[r] == e && e in ws[j].s.fields
    ensures ws[j].s.fields[e].state.run.Some?
    ensures ws[j].s.fields[e].state.run.value.of == r && v <= ws[j].s.fields[e].state.run.value.version
  {
    RunMisses(ws, acts, j);
    AnswersReachTheScreen(ws, acts, i, j, e, r, v);
  }
}
