/** Every action keeps the invariant. */
module PageRunSteps {
  import opened Basics
  import opened PageRunStore
  import opened PageRunWorld
  import opened PageRunInvariants
  import opened PageRunEffects

  /** An entry's counts change, and nothing else of it. */
  lemma TouchKeeps<E>(w: World<E>, e: E, f: Fields)
    requires Inv(w) && e in w.s.fields
    requires f == w.s.fields[e].(refs := f.refs, shown := f.shown, closeTimer := f.closeTimer)
    ensures var fields := w.s.fields[e := f];
      && Roster(fields, w.s.entries, w.s.byRunId)
      && Promises(fields, w.s.entries, w.opens)
      && Ledger(fields, w.opens, w.maker, w.closers, w.returned, w.dropped, w.closed)
      && Versions(fields, w.s.byRunId, w.daemon, w.returned)
      && Fetches(fields, w.s.byRunId, w.daemon, w.returned, w.s.pending, w.fetches)
      && Reruns(fields, w.daemon, w.opens, w.reruns)
      && Marks(fields, w.opens, w.reruns)
      && Debts(fields, w.s.byRunId, w.s.pending, w.missed, w.fetches, w.announced)
  {
    hide Roster, Buffers, Opens, Promises, Makers, Ledger, Versions, Fetches, Reruns, Marks, Debts, Early, Counts;
    PromisesAt(w.s.fields, w.s.entries, w.opens, e);
    RosterTouch(w.s.fields, w.s.entries, w.s.byRunId, e, f);
    PromisesTouch(w.s.fields, w.s.entries, w.opens, e, f);
    LedgerTouch(w.s.fields, w.opens, w.maker, w.closers, w.returned, w.dropped, w.closed, e, f);
    forall r | r in w.s.byRunId && w.s.byRunId[r] == e ensures r in w.daemon ==> ShowsBetween(f, r, w.daemon[r]) {
      VersionsAt(w.s.fields, w.s.byRunId, w.daemon, w.returned, r);
    }
    VersionsTouch(w.s.fields, w.s.byRunId, w.daemon, w.returned, e, f);
    FetchesTouch(w.s.fields, w.s.byRunId, w.daemon, w.returned, w.s.pending, w.fetches, e, f);
    RerunsTouch(w.s.fields, w.daemon, w.opens, w.reruns, e, f);
    MarksAt(w.s.fields, w.opens, w.reruns, e);
    MarksTouch(w.s.fields, w.opens, w.opens, w.reruns, w.reruns, e, f);
    DebtsTouch(w.s.fields, w.s.byRunId, w.s.pending, w.s.pending, w.missed, w.fetches, w.announced, e, f);
  }

  lemma SetVisibleKeeps<E>(w: World<E>, h: nat, visible: bool)
    requires Inv(w) && w.CanSetVisible(h, visible)
    ensures Inv(w.AfterSetVisible(h, visible))
  {
    hide Roster, Buffers, Opens, Promises, Makers, Ledger, Versions, Fetches, Reruns, Marks, Debts, Early, Counts;
    var x := w.handles[h];
    if !x.closed && x.shown != visible {
      var e := x.mine;
      var f := w.s.fields[e].(shown := w.s.fields[e].shown + if visible then 1 else -1);
      var w' := w.AfterSetVisible(h, visible);
      assert w'.s == w.s.(fields := w.s.fields[e := f]);
      PromisesAt(w.s.fields, w.s.entries, w.opens, e);
      CountsAt(w.s.fields, w.handles, e);
      TouchKeeps(w, e, f);
      CountsHandle(w.s.fields, w.handles, h, x.(shown := visible), f);
    }
  }

  lemma CloseHandleKeeps<E>(w: World<E>, h: nat)
    requires Inv(w) && w.CanCloseHandle(h)
    ensures Inv(w.AfterCloseHandle(h))
  {
    hide Roster, Buffers, Opens, Promises, Makers, Ledger, Versions, Fetches, Reruns, Marks, Debts, Early, Counts;
    var x := w.handles[h];
    if !x.closed {
      var e := x.mine;
      var w' := w.AfterCloseHandle(h);
      var f := w'.s.fields[e];
      assert w'.s.fields == w.s.fields[e := f];
      CountsAt(w.s.fields, w.handles, e);
      CountsOf(w.s.fields, w.handles, h);
      TouchKeeps(w, e, f);
      CountsHandle(w.s.fields, w.handles, h, x.(closed := true), f);
    }
  }

  lemma OpenSharedKeeps<E>(w: World<E>, h: nat, k: Key, made: E)
    requires Inv(w) && w.CanOpenPage(h, k, made) && k in w.s.entries
    ensures Inv(w.AfterOpenPage(h, k, made))
  {
    hide Roster, Buffers, Opens, Promises, Makers, Ledger, Versions, Fetches, Reruns, Marks, Debts, Early, Counts;
    var e := w.s.entries[k];
    var g := w.s.fields[e];
    var f := g.(closeTimer := false, refs := g.refs + 1, shown := g.shown + 1);
    var w' := w.AfterOpenPage(h, k, made);
    assert w'.s == w.s.(fields := w.s.fields[e := f]);
    RosterKey(w.s.fields, w.s.entries, w.s.byRunId, k);
    PromisesAt(w.s.fields, w.s.entries, w.opens, e);
    CountsAt(w.s.fields, w.handles, e);
    TouchKeeps(w, e, f);
    CountsHandle(w.s.fields, w.handles, h, Handle(e, false, true), f);
  }

  lemma OpensRequested<E>(w: World<E>, q: (E, nat), inFlightOpens: int)
    requires Opens(w.opens, w.s.inFlightOpens, w.s.earlyChanges, w.s.earlyOverflow) && q !in w.opens
    requires inFlightOpens == w.s.inFlightOpens + 1
    ensures Opens(w.opens[q := Requested], inFlightOpens, w.s.earlyChanges, w.s.earlyOverflow)
  {
    OpensAdd(w.opens, q);
  }

  lemma OpenNewKeeps<E>(w: World<E>, h: nat, k: Key, made: E)
    requires Inv(w) && w.CanOpenPage(h, k, made) && k !in w.s.entries
    ensures Inv(w.AfterOpenPage(h, k, made))
  {
    hide Roster, Buffers, Opens, Promises, Makers, Ledger, Versions, Fetches, Reruns, Marks, Debts, Early, Counts;
    var e := made;
    var rows := Find(w.s.kept, k);
    var f := Fields(k, 1, 0, 1, RunState(None, rows, None, rows.Some?), 1, 1, 0, false);
    var w' := w.AfterOpenPage(h, k, made);
    var opens := w.opens[(e, 1) := Requested];
    assert w'.s.fields == w.s.fields[e := f];
    assert w'.s == w.s.(fields := w.s.fields[e := f], entries := w.s.entries[k := e],
                        inFlightOpens := w.s.inFlightOpens + 1);
    if (e, 1) in w.opens { PromisesOf(w.s.fields, w.s.entries, w.opens, (e, 1)); }
    RosterClosed(w.s);
    RosterNew(w.s.fields, w.s.entries, w.s.byRunId, e, f);
    OpensAdd(w.opens, (e, 1));
    OpensRequested(w, (e, 1), w'.s.inFlightOpens);
    PromisesNew(w.s.fields, w.s.entries, w.opens, e, f);
    MakersRequested(w.daemon, w.maker, w.returned, w.opens, (e, 1));
    LedgerNew(w.s.fields, w.opens, w.maker, w.closers, w.returned, w.dropped, w.closed, e, f);
    LedgerPromise(w.s.fields[e := f], w.opens, w.maker, w.closers, w.returned, w.dropped, w.closed, (e, 1), Requested);
    VersionsNew(w.s.fields, w.s.byRunId, w.daemon, w.returned, e, f);
    FetchesAside(w.s.fields, w.s.byRunId, w.daemon, w.returned, w.s.pending, w.fetches, e, f);
    RerunsNew(w.s.fields, w.daemon, w.opens, w.reruns, e, f);
    RerunsGrow(w.s.fields[e := f], w.daemon, w.daemon, w.opens, opens, w.reruns);
    MarksTouch(w.s.fields, w.opens, opens, w.reruns, w.reruns, e, f);
    DebtsTouch(w.s.fields, w.s.byRunId, w.s.pending, w.s.pending, w.missed, w.fetches, w.announced, e, f);
    EarlyOpens(w.opens, w.daemon, w.announced, w.s.earlyChanges, w.s.earlyOverflow, (e, 1), Requested);
    CountsNew(w.s.fields, w.handles, h, e, f);
  }

  lemma {:induction false} WithoutKey(kept: seq<(Key, PageRun)>, k: Key)
    requires Distinct(kept)
    ensures Distinct(Without(kept, k)) && |Without(kept, k)| <= |kept|
    ensures forall x | x in Without(kept, k) :: x in kept && x.0 != k
  {
    if kept != [] {
      assert forall x | x in kept[1..] :: x in kept && x.0 != kept[0].0;
      WithoutKey(kept[1..], k);
    }
  }

  lemma BuffersKeep(
    pending: map<RunId, nat>, flushTimer: bool, kept: seq<(Key, PageRun)>, earlyChanges: map<RunId, nat>, k: Key,
    run: PageRun)
    requires Buffers(pending, flushTimer, kept, earlyChanges)
    ensures Buffers(pending, flushTimer, Keep(kept, k, run), earlyChanges)
  {
    WithoutKey(kept, k);
  }

  lemma CloseTimerKeeps<E>(w: World<E>, e: E)
    requires Inv(w) && w.CanCloseTimer(e)
    ensures Inv(w.AfterCloseTimer(e))
  {
    hide Roster, Buffers, Opens, Promises, Makers, Ledger, Versions, Fetches, Reruns, Marks, Debts, Early, Counts;
    PromisesAt(w.s.fields, w.s.entries, w.opens, e);
    CountsAt(w.s.fields, w.handles, e);
    RosterAt(w.s.fields, w.s.entries, w.s.byRunId, e);
    var g := w.s.fields[e];
    var w' := w.AfterCloseTimer(e);
    var f := w'.s.fields[e];
    var byRunId := w'.s.byRunId;
    assert w'.s.fields == w.s.fields[e := f] && w'.s.entries == w.s.entries - {f.key};
    RosterLetGo(w.s.fields, w.s.entries, w.s.byRunId, e, f);
    if g.state.run.Some? {
      BuffersKeep(w.s.pending, w.s.flushTimer, w.s.kept, w.s.earlyChanges, g.key, g.state.run.value);
    }
    PromisesLetGo(w.s.fields, w.s.entries, w.opens, e);
    LedgerLetGo(w.s.fields, w.opens, w.maker, w.closers, w.returned, w.dropped, w.closed, e, f);
    VersionsRoster(w.s.fields, w.s.byRunId, byRunId, w.daemon, w.returned, e, f);
    FetchesTouch(w.s.fields, w.s.byRunId, w.daemon, w.returned, w.s.pending, w.fetches, e, f);
    FetchesRoster(w.s.fields[e := f], w.s.byRunId, byRunId, w.daemon, w.returned, w.s.pending, w.fetches);
    RerunsReopen(w.s.fields, w.daemon, w.opens, w.reruns, e, f);
    MarksTouch(w.s.fields, w.opens, w.opens, w.reruns, w.reruns, e, f);
    DebtsForget(w.s.fields, w.s.byRunId, w.s.pending, w.missed, w.fetches, w.announced, e, f, byRunId);
    CountsLetGo(w.s.fields, w.handles, e, f);
  }

  lemma CloseRunKeeps<E>(w: World<E>, e: E, p: nat)
    requires Inv(w) && w.CanCloseRun(e, p)
    ensures Inv(w.AfterCloseRun(e, p))
  {
    hide Roster, Buffers, Opens, Promises, Makers, Ledger, Versions, Fetches, Reruns, Marks, Debts, Early, Counts;
    MakersAt(w.daemon, w.maker, w.returned, w.opens, (e, p));
    LedgerClose(w.s.fields, w.opens, w.maker, w.closers, w.returned, w.dropped, w.closed, (e, p));
  }

  lemma DaemonOpensLedger<E>(w: World<E>, q: (E, nat), r: RunId, x: Promise)
    requires Ledger(w.s.fields, w.opens, w.maker, w.closers, w.returned, w.dropped, w.closed)
    requires q in w.opens && w.opens[q].Requested? && x.Created? && r !in w.returned
    ensures Ledger(w.s.fields, w.opens[q := x], w.maker[r := q], w.closers, w.returned, w.dropped, w.closed)
  {
    hide Ledger;
    LedgerPromise(w.s.fields, w.opens, w.maker, w.closers, w.returned, w.dropped, w.closed, q, x);
    LedgerMade(w.s.fields, w.opens[q := x], w.maker, w.closers, w.returned, w.dropped, w.closed, q, r);
  }

  /** A promise moves on without settling. */
  lemma OpensWait<E>(w: World<E>, q: (E, nat), x: Promise)
    requires Opens(w.opens, w.s.inFlightOpens, w.s.earlyChanges, w.s.earlyOverflow)
    requires q in w.opens && !w.opens[q].Settled? && !x.Settled?
    ensures Opens(w.opens[q := x], w.s.inFlightOpens, w.s.earlyChanges, w.s.earlyOverflow)
  {
    OpensMove(w.opens, q, x);
  }

  lemma DaemonOpensKeeps<E>(w: World<E>, e: E, p: nat, r: RunId, version: nat)
    requires Inv(w) && w.CanDaemonOpens(e, p, r, version)
    ensures Inv(w.AfterDaemonOpens(e, p, r, version))
  {
    hide Roster, Buffers, Opens, Promises, Makers, Ledger, Versions, Fetches, Reruns, Marks, Debts, Early, Counts;
    var x := Created(r, version);
    var w' := w.AfterDaemonOpens(e, p, r, version);
    var opens, daemon := w'.opens, w'.daemon;
    assert opens == w.opens[(e, p) := x] && daemon == w.daemon[r := version] && w'.maker == w.maker[r := (e, p)];
    hide World.AfterDaemonOpens;
    PromisesOf(w.s.fields, w.s.entries, w.opens, (e, p));
    PromisesAt(w.s.fields, w.s.entries, w.opens, e);
    PromisesMove(w.s.fields, w.s.entries, w.opens, (e, p), x);
    OpensWait(w, (e, p), x);
    MakersOf(w.daemon, w.maker, w.returned, w.opens, r);
    MakersMade(w.daemon, w.maker, w.returned, w.opens, (e, p), r, version);
    DaemonOpensLedger(w, (e, p), r, x);
    VersionsGrow(w.s.fields, w.s.byRunId, w.daemon, w.returned, r, version);
    FetchesGrow(w.s.fields, w.s.byRunId, w.daemon, w.returned, w.s.pending, w.fetches, r, version);
    RerunsGrow(w.s.fields, w.daemon, daemon, w.opens, opens, w.reruns);
    MarksMove(w.s.fields, w.opens, w.reruns, (e, p), x);
    EarlyGrow(w.opens, w.daemon, w.announced, w.s.earlyChanges, w.s.earlyOverflow, r, version);
    EarlyOpens(w.opens, daemon, w.announced, w.s.earlyChanges, w.s.earlyOverflow, (e, p), x);
  }

  lemma DaemonChangesKeeps<E>(w: World<E>, r: RunId)
    requires Inv(w) && w.CanDaemonChanges(r)
    ensures Inv(w.AfterDaemonChanges(r))
  {
    hide Roster, Buffers, Opens, Promises, Makers, Ledger, Versions, Fetches, Reruns, Marks, Debts, Early, Counts;
    var v := w.daemon[r] + 1;
    MakersGrow(w.daemon, w.maker, w.returned, w.opens, r, v);
    VersionsGrow(w.s.fields, w.s.byRunId, w.daemon, w.returned, r, v);
    FetchesGrow(w.s.fields, w.s.byRunId, w.daemon, w.returned, w.s.pending, w.fetches, r, v);
    RerunsGrow(w.s.fields, w.daemon, w.daemon[r := v], w.opens, w.opens, w.reruns);
    EarlyGrow(w.opens, w.daemon, w.announced, w.s.earlyChanges, w.s.earlyOverflow, r, v);
  }

  lemma OpenTakenFetches<E>(w: World<E>, e: E, p: nat, version: nat)
    requires Inv(w) && w.CanOpenAnswered(e, p, version) && !w.s.RefusesOpen(e, p)
    ensures var w' := w.AfterOpenAnswered(e, p, version);
      && Versions(w'.s.fields, w'.s.byRunId, w'.daemon, w'.returned)
      && Fetches(w'.s.fields, w'.s.byRunId, w'.daemon, w'.returned, w'.s.pending, w'.fetches)
  {
    hide Roster, Buffers, Opens, Promises, Makers, Ledger, Versions, Fetches, Reruns, Marks, Debts, Early, Counts;
    var r := w.opens[(e, p)].run;
    var w' := w.AfterOpenAnswered(e, p, version);
    var f := w'.s.fields[e];
    assert w'.s.fields == w.s.fields[e := f];
    PromisesOf(w.s.fields, w.s.entries, w.opens, (e, p));
    PromisesAt(w.s.fields, w.s.entries, w.opens, e);
    RosterAt(w.s.fields, w.s.entries, w.s.byRunId, e);
    MakersAt(w.daemon, w.maker, w.returned, w.opens, (e, p));
    VersionsAdopt(w.s.fields, w.s.byRunId, w.daemon, w.returned, e, f, r);
    FetchesAside(w.s.fields, w.s.byRunId, w.daemon, w.returned, w.s.pending, w.fetches, e, f);
    FetchesReturn(w.s.fields[e := f], w.s.byRunId, w.daemon, w.returned, w.s.pending, w.fetches, r, e);
    forall x | x in w'.s.pending ensures x in w.daemon {
      FetchesAt(w.s.fields, w.s.byRunId, w.daemon, w.returned, w.s.pending, w.fetches, 0, x);
    }
    FetchesPending(w'.s.fields, w'.s.byRunId, w.daemon, w'.returned, w.s.pending, w'.s.pending, w.fetches);
  }

  lemma FewerKeys<V>(m: map<RunId, V>, r: RunId)
    ensures |m - {r}| <= |m|
  {
    assert (m - {r}).Keys == m.Keys - {r};
    OneMoreOrLess(m.Keys, r);
  }

  lemma BuffersFewer(
    pending: map<RunId, nat>, flushTimer: bool, kept: seq<(Key, PageRun)>, earlyChanges: map<RunId, nat>, r: RunId)
    requires Buffers(pending, flushTimer, kept, earlyChanges)
    ensures Buffers(pending, flushTimer, kept, earlyChanges - {r})
  {
    FewerKeys(earlyChanges, r);
  }

  lemma BuffersScheduled(
    pending: map<RunId, nat>, flushTimer: bool, kept: seq<(Key, PageRun)>, earlyChanges: map<RunId, nat>,
    pending': map<RunId, nat>, r: RunId)
    requires Buffers(pending, flushTimer, kept, earlyChanges) && r in pending'
    ensures Buffers(pending', true, kept, earlyChanges)
  {}

  lemma OpenTakenBuffers<E>(w: World<E>, e: E, p: nat, version: nat)
    requires Buffers(w.s.pending, w.s.flushTimer, w.s.kept, w.s.earlyChanges)
    requires w.CanOpenAnswered(e, p, version)
    ensures var s := w.AfterOpenAnswered(e, p, version).s; Buffers(s.pending, s.flushTimer, s.kept, s.earlyChanges)
  {
    hide Buffers;
    var r := w.opens[(e, p)].run;
    var s' := w.AfterOpenAnswered(e, p, version).s;
    BuffersFewer(w.s.pending, w.s.flushTimer, w.s.kept, w.s.earlyChanges, r);
    if r in s'.pending {
      BuffersScheduled(w.s.pending, w.s.flushTimer, w.s.kept, w.s.earlyChanges - {r}, s'.pending, r);
    }
  }

  lemma OpensForget<E>(
    opens: map<(E, nat), Promise>, inFlightOpens: int, earlyChanges: map<RunId, nat>, earlyOverflow: bool, r: RunId)
    requires Opens(opens, inFlightOpens, earlyChanges, earlyOverflow)
    ensures Opens(opens, inFlightOpens, earlyChanges - {r}, earlyOverflow)
  {}

  lemma EarlyReturned<E>(w: World<E>, q: (E, nat), x: Promise)
    requires Early(w.opens, w.daemon, w.announced, w.s.earlyChanges, w.s.earlyOverflow)
    requires Makers(w.daemon, w.maker, w.returned, w.opens)
    requires q in w.opens && w.opens[q].Created? && x.Replied?
    ensures Early(w.opens[q := x], w.daemon, w.announced, w.s.earlyChanges - {w.opens[q].run}, w.s.earlyOverflow)
  {
    hide Early;
    var r := w.opens[q].run;
    MakersAt(w.daemon, w.maker, w.returned, w.opens, q);
    forall y | y in w.opens && y != q && w.opens[y].Created? ensures w.opens[y].run != r {
      MakersAt(w.daemon, w.maker, w.returned, w.opens, y);
    }
    EarlyReturn(w.opens, w.daemon, w.announced, w.s.earlyChanges, w.s.earlyOverflow, q, x, r);
  }

  lemma OpenTakenKeeps<E>(w: World<E>, e: E, p: nat, version: nat)
    requires Inv(w) && w.CanOpenAnswered(e, p, version) && !w.s.RefusesOpen(e, p)
    ensures Inv(w.AfterOpenAnswered(e, p, version))
  {
    hide Roster, Buffers, Opens, Promises, Makers, Ledger, Versions, Fetches, Reruns, Marks, Debts, Early, Counts;
    var r := w.opens[(e, p)].run;
    var x := Replied(Some(r));
    var w' := w.AfterOpenAnswered(e, p, version);
    var f := w'.s.fields[e];
    PromisesOf(w.s.fields, w.s.entries, w.opens, (e, p));
    PromisesAt(w.s.fields, w.s.entries, w.opens, e);
    RosterAt(w.s.fields, w.s.entries, w.s.byRunId, e);
    MakersAt(w.daemon, w.maker, w.returned, w.opens, (e, p));
    if r in w.s.byRunId { VersionsAt(w.s.fields, w.s.byRunId, w.daemon, w.returned, r); }
    assert w'.s.fields == w.s.fields[e := f];
    assert f == w.s.fields[e].(state := RunState(Some(r), Some(PageRun(r, version)), None, false));
    assert w'.opens == w.opens[(e, p) := x] && w'.closed == w.closed;
    RosterAdopt(w.s.fields, w.s.entries, w.s.byRunId, e, f, r);
    OpenTakenBuffers(w, e, p, version);
    OpensWait(w, (e, p), x);
    OpensForget(w'.opens, w.s.inFlightOpens, w.s.earlyChanges, w.s.earlyOverflow, r);
    PromisesAnswer(w.s.fields, w.s.entries, w.opens, e, f, p, x);
    MakersReturn(w.daemon, w.maker, w.returned, w.opens, (e, p), Some(r));
    LedgerReturn(w.s.fields, w.opens, w.maker, w.closers, w.returned, w.dropped, w.closed, (e, p), r, true);
    LedgerTouch(w.s.fields, w'.opens, w.maker, w.closers, w'.returned, w.dropped, w.closed, e, f);
    OpenTakenFetches(w, e, p, version);
    RerunsGrow(w.s.fields, w.daemon, w.daemon, w.opens, w'.opens, w.reruns);
    RerunsAdopt(w.s.fields, w.daemon, w'.opens, w.reruns, e, f);
    MarksTouch(w.s.fields, w.opens, w'.opens, w.reruns, w.reruns, e, f);
    EarlyAt(w.opens, w.daemon, w.announced, w.s.earlyChanges, w.s.earlyOverflow, (e, p));
    DebtsAdopt(w.s.fields, w.s.byRunId, w.s.pending, w'.s.pending, w.missed, w.fetches, w.announced, e, f, r);
    EarlyReturned(w, (e, p), x);
    CountsTouch(w.s.fields, w.handles, e, f);
  }

  lemma BuffersEarly(
    pending: map<RunId, nat>, flushTimer: bool, kept: seq<(Key, PageRun)>, earlyChanges: map<RunId, nat>, r: RunId,
    n: nat)
    requires Buffers(pending, flushTimer, kept, earlyChanges)
    requires r in earlyChanges || |earlyChanges| < EARLY_CHANGES
    ensures Buffers(pending, flushTimer, kept, earlyChanges[r := n])
  {
    assert earlyChanges[r := n].Keys == earlyChanges.Keys + {r};
    OneMoreOrLess(earlyChanges.Keys, r);
  }

  lemma OpenRefusedKeeps<E>(w: World<E>, e: E, p: nat, version: nat)
    requires Inv(w) && w.CanOpenAnswered(e, p, version) && w.s.RefusesOpen(e, p)
    ensures Inv(w.AfterOpenAnswered(e, p, version))
  {
    hide Roster, Buffers, Opens, Promises, Makers, Ledger, Versions, Fetches, Reruns, Marks, Debts, Early, Counts;
    var r := w.opens[(e, p)].run;
    var x := Replied(None);
    var w' := w.AfterOpenAnswered(e, p, version);
    assert w'.opens == w.opens[(e, p) := x] && w'.closed == w.closed[r := Get(w.closed, r, 0) + 1];
    PromisesOf(w.s.fields, w.s.entries, w.opens, (e, p));
    PromisesAt(w.s.fields, w.s.entries, w.opens, e);
    MakersAt(w.daemon, w.maker, w.returned, w.opens, (e, p));
    OpenTakenBuffers(w, e, p, version);
    OpensWait(w, (e, p), x);
    OpensForget(w'.opens, w.s.inFlightOpens, w.s.earlyChanges, w.s.earlyOverflow, r);
    PromisesMove(w.s.fields, w.s.entries, w.opens, (e, p), x);
    MakersReturn(w.daemon, w.maker, w.returned, w.opens, (e, p), None);
    LedgerReturn(w.s.fields, w.opens, w.maker, w.closers, w.returned, w.dropped, w.closed, (e, p), r, false);
    VersionsReturned(w.s.fields, w.s.byRunId, w.daemon, w.returned, r);
    FetchesReturn(w.s.fields, w.s.byRunId, w.daemon, w.returned, w.s.pending, w.fetches, r, e);
    RerunsGrow(w.s.fields, w.daemon, w.daemon, w.opens, w'.opens, w.reruns);
    MarksMove(w.s.fields, w.opens, w.reruns, (e, p), x);
    EarlyReturned(w, (e, p), x);
  }

  lemma OpenFailedKeeps<E>(w: World<E>, e: E, p: nat, why: string)
    requires Inv(w) && w.CanOpenFailed(e, p, why)
    ensures Inv(w.AfterOpenFailed(e, p, why))
  {
    hide Roster, Buffers, Opens, Promises, Makers, Ledger, Versions, Fetches, Reruns, Marks, Debts, Early, Counts;
    var x := Replied(None);
    var w' := w.AfterOpenFailed(e, p, why);
    PromisesOf(w.s.fields, w.s.entries, w.opens, (e, p));
    PromisesAt(w.s.fields, w.s.entries, w.opens, e);
    OpensWait(w, (e, p), x);
    MakersAt(w.daemon, w.maker, w.returned, w.opens, (e, p));
    MakersMove(w.daemon, w.maker, w.returned, w.opens, (e, p), x);
    LedgerPromise(w.s.fields, w.opens, w.maker, w.closers, w.returned, w.dropped, w.closed, (e, p), x);
    RerunsGrow(w.s.fields, w.daemon, w.daemon, w.opens, w'.opens, w.reruns);
    EarlyOpens(w.opens, w.daemon, w.announced, w.s.earlyChanges, w.s.earlyOverflow, (e, p), x);
    if p != w.s.fields[e].opening {
      PromisesMove(w.s.fields, w.s.entries, w.opens, (e, p), x);
      MarksMove(w.s.fields, w.opens, w.reruns, (e, p), x);
    } else {
      var f := w'.s.fields[e];
      assert w'.s.fields == w.s.fields[e := f];
      PromisesAnswer(w.s.fields, w.s.entries, w.opens, e, f, p, x);
      MarksTouch(w.s.fields, w.opens, w'.opens, w.reruns, w.reruns, e, f);
      RosterTouch(w.s.fields, w.s.entries, w.s.byRunId, e, f);
      LedgerTouch(w.s.fields, w'.opens, w.maker, w.closers, w.returned, w.dropped, w.closed, e, f);
      RosterAt(w.s.fields, w.s.entries, w.s.byRunId, e);
      VersionsTouch(w.s.fields, w.s.byRunId, w.daemon, w.returned, e, f);
      FetchesAside(w.s.fields, w.s.byRunId, w.daemon, w.returned, w.s.pending, w.fetches, e, f);
      RerunsTouch(w.s.fields, w.daemon, w'.opens, w.reruns, e, f);
      DebtsTouch(w.s.fields, w.s.byRunId, w.s.pending, w.s.pending, w.missed, w.fetches, w.announced, e, f);
      CountsTouch(w.s.fields, w.handles, e, f);
    }
  }

  lemma SettledBuffers<E>(w: World<E>, q: (E, nat), x: Promise)
    requires Buffers(w.s.pending, w.s.flushTimer, w.s.kept, w.s.earlyChanges)
    requires Opens(w.opens, w.s.inFlightOpens, w.s.earlyChanges, w.s.earlyOverflow)
    requires q in w.opens && w.opens[q].Replied? && x.Settled?
    requires Early(w.opens[q := x], w.daemon, w.announced, w.s.earlyChanges, w.s.earlyOverflow)
    ensures var s := w.s.OpenSettled();
      && Buffers(s.pending, s.flushTimer, s.kept, s.earlyChanges)
      && Opens(w.opens[q := x], s.inFlightOpens, s.earlyChanges, s.earlyOverflow)
      && Early(w.opens[q := x], w.daemon, w.announced, s.earlyChanges, s.earlyOverflow)
  {
    OpensMove(w.opens, q, x);
    var opens := w.opens[q := x];
    if |Unsettled(opens)| == 0 {
      forall y | y in opens ensures opens[y].Settled? { OpensNone(opens, y); }
      EarlySettled(opens, w.daemon, w.announced, w.s.earlyChanges, w.s.earlyOverflow);
    }
  }

  lemma OpenSettledKeeps<E>(w: World<E>, e: E, p: nat)
    requires Inv(w) && w.CanOpenSettled(e, p)
    ensures Inv(w.AfterOpenSettled(e, p))
  {
    hide Roster, Buffers, Opens, Promises, Makers, Ledger, Versions, Fetches, Reruns, Marks, Debts, Early, Counts;
    var x := Settled(w.opens[(e, p)].answer);
    var w' := w.AfterOpenSettled(e, p);
    PromisesOf(w.s.fields, w.s.entries, w.opens, (e, p));
    PromisesAt(w.s.fields, w.s.entries, w.opens, e);
    PromisesMove(w.s.fields, w.s.entries, w.opens, (e, p), x);
    MakersMove(w.daemon, w.maker, w.returned, w.opens, (e, p), x);
    LedgerPromise(w.s.fields, w.opens, w.maker, w.closers, w.returned, w.dropped, w.closed, (e, p), x);
    RerunsGrow(w.s.fields, w.daemon, w.daemon, w.opens, w'.opens, w.reruns);
    MarksMove(w.s.fields, w.opens, w.reruns, (e, p), x);
    EarlyOpens(w.opens, w.daemon, w.announced, w.s.earlyChanges, w.s.earlyOverflow, (e, p), x);
    SettledBuffers(w, (e, p), x);
  }

  lemma OpensEarly<E>(
    opens: map<(E, nat), Promise>, inFlightOpens: int, earlyChanges: map<RunId, nat>, earlyOverflow: bool,
    earlyChanges': map<RunId, nat>, earlyOverflow': bool)
    requires Opens(opens, inFlightOpens, earlyChanges, earlyOverflow) && inFlightOpens > 0
    ensures Opens(opens, inFlightOpens, earlyChanges', earlyOverflow')
  {}

  lemma AnnouncedBuffers<E>(w: World<E>, r: RunId, n: nat)
    requires w.CanAnnounced(r, n)
    requires Buffers(w.s.pending, w.s.flushTimer, w.s.kept, w.s.earlyChanges)
    requires Opens(w.opens, w.s.inFlightOpens, w.s.earlyChanges, w.s.earlyOverflow)
    ensures var s := w.s.Changed(r, n);
      && Buffers(s.pending, s.flushTimer, s.kept, s.earlyChanges)
      && Opens(w.opens, s.inFlightOpens, s.earlyChanges, s.earlyOverflow)
  {
    hide Buffers, Opens;
    var s' := w.s.Changed(r, n);
    if r in w.s.byRunId {
      if r in s'.pending {
        BuffersScheduled(w.s.pending, w.s.flushTimer, w.s.kept, w.s.earlyChanges, s'.pending, r);
      }
    } else if w.s.inFlightOpens > 0 {
      OpensEarly(w.opens, w.s.inFlightOpens, w.s.earlyChanges, w.s.earlyOverflow, s'.earlyChanges, s'.earlyOverflow);
      if r in w.s.earlyChanges || |w.s.earlyChanges| < EARLY_CHANGES {
        BuffersEarly(w.s.pending, w.s.flushTimer, w.s.kept, w.s.earlyChanges, r, s'.earlyChanges[r]);
      }
    }
  }

  /** A change of a run not held is remembered while an open is in flight. */
  lemma ChangedRemembers<E>(s: Store<E>, r: RunId, n: nat)
    requires s.Closed()
    ensures var s' := s.Changed(r, n);
      && s.earlyChanges.Keys <= s'.earlyChanges.Keys && (s.earlyOverflow ==> s'.earlyOverflow)
      && (r !in s.byRunId && s.inFlightOpens > 0 ==> r in s'.earlyChanges || s'.earlyOverflow)
  {}

  /** While an open waits, opens are counted in flight. */
  lemma OpensWaiting<E>(
    opens: map<(E, nat), Promise>, inFlightOpens: int, earlyChanges: map<RunId, nat>, earlyOverflow: bool, q: (E, nat))
    requires Opens(opens, inFlightOpens, earlyChanges, earlyOverflow) && q in opens && !opens[q].Settled?
    ensures inFlightOpens > 0
  {
    if |Unsettled(opens)| == 0 { OpensNone(opens, q); }
  }

  lemma AnnouncedEarly<E>(w: World<E>, r: RunId, n: nat)
    requires w.CanAnnounced(r, n)
    requires Opens(w.opens, w.s.inFlightOpens, w.s.earlyChanges, w.s.earlyOverflow)
    requires Makers(w.daemon, w.maker, w.returned, w.opens)
    requires Versions(w.s.fields, w.s.byRunId, w.daemon, w.returned)
    requires Early(w.opens, w.daemon, w.announced, w.s.earlyChanges, w.s.earlyOverflow)
    ensures var s := w.s.Changed(r, n);
      Early(w.opens, w.daemon, w.announced[r := Max(n, Get(w.announced, r, 0))], s.earlyChanges, s.earlyOverflow)
  {
    hide Opens, Makers, Versions, Early, Store.Changed;
    var s := w.s.Changed(r, n);
    ChangedRemembers(w.s, r, n);
    EarlyAnnounced(w.opens, w.daemon, w.announced, w.s.earlyChanges, w.s.earlyOverflow, r);
    forall q | q in w.opens && w.opens[q].Created? && w.opens[q].run == r
        ensures r in s.earlyChanges || s.earlyOverflow {
      MakersAt(w.daemon, w.maker, w.returned, w.opens, q);
      OpensWaiting(w.opens, w.s.inFlightOpens, w.s.earlyChanges, w.s.earlyOverflow, q);
      if r in w.s.byRunId { VersionsAt(w.s.fields, w.s.byRunId, w.daemon, w.returned, r); }
    }
    EarlyRaise(w.opens, w.daemon, w.announced, w.s.earlyChanges, w.s.earlyOverflow,
               r, Max(n, Get(w.announced, r, 0)), s.earlyChanges, s.earlyOverflow);
  }

  lemma AnnouncedKeeps<E>(w: World<E>, r: RunId, n: nat)
    requires Inv(w) && w.CanAnnounced(r, n)
    ensures Inv(w.AfterAnnounced(r, n))
  {
    hide Roster, Buffers, Opens, Promises, Makers, Ledger, Versions, Fetches, Reruns, Marks, Debts, Early, Counts;
    var w' := w.AfterAnnounced(r, n);
    AnnouncedBuffers(w, r, n);
    FetchesAt(w.s.fields, w.s.byRunId, w.daemon, w.returned, w.s.pending, w.fetches, 0, r);
    forall x | x in w'.s.pending ensures x in w.daemon {
      FetchesAt(w.s.fields, w.s.byRunId, w.daemon, w.returned, w.s.pending, w.fetches, 0, x);
    }
    FetchesPending(w.s.fields, w.s.byRunId, w.daemon, w.returned, w.s.pending, w'.s.pending, w.fetches);
    DebtsAnnounced(w.s.fields, w.s.byRunId, w.s.pending, w'.s.pending, w.missed, w.fetches, w.announced, r, n);
    AnnouncedEarly(w, r, n);
  }

  lemma ScheduledKeeps<E>(w: World<E>, r: RunId, n: nat)
    requires Inv(w) && r in w.daemon
    ensures Inv(w.(s := w.s.ScheduleFetch(r, n)))
  {
    hide Roster, Buffers, Opens, Promises, Makers, Ledger, Versions, Fetches, Reruns, Marks, Debts, Early, Counts;
    var pending := w.s.ScheduleFetch(r, n).pending;
    BuffersScheduled(w.s.pending, w.s.flushTimer, w.s.kept, w.s.earlyChanges, pending, r);
    forall x | x in pending ensures x in w.daemon {
      FetchesAt(w.s.fields, w.s.byRunId, w.daemon, w.returned, w.s.pending, w.fetches, 0, x);
    }
    FetchesPending(w.s.fields, w.s.byRunId, w.daemon, w.returned, w.s.pending, pending, w.fetches);
    DebtsPending(w.s.fields, w.s.byRunId, w.s.pending, pending, w.missed, w.fetches, w.announced);
  }

  lemma FlushArmed(pending: map<RunId, nat>, flushTimer: bool, kept: seq<(Key, PageRun)>, earlyChanges: map<RunId, nat>)
    requires Buffers(pending, flushTimer, kept, earlyChanges)
    ensures flushTimer ==> exists r :: r in pending
    ensures Buffers(map[], false, kept, earlyChanges)
  {
    if flushTimer { assert pending.Keys != {}; }
  }

  /** The fences and versions a flush reads are those of the moment. */
  lemma FlushFenced<E>(w: World<E>, f: nat, wanted: seq<RunId>, r: RunId)
    requires Inv(w) && w.CanFlushStarted(f, wanted) && r in wanted
    ensures Fenced(w.s.fields, w.s.byRunId, w.daemon, w.returned,
                   Fetch(wanted, map x | x in w.s.pending.Keys :: w.s.Operation(x),
                         map x | x in w.s.pending.Keys && x in w.daemon :: w.daemon[x],
                         w.s.pending.Keys), r)
  {
    hide Roster, Buffers, Opens, Promises, Makers, Ledger, Versions, Fetches, Reruns, Marks, Debts, Early, Counts;
    FetchesAt(w.s.fields, w.s.byRunId, w.daemon, w.returned, w.s.pending, w.fetches, 0, r);
    if r in w.s.byRunId { VersionsAt(w.s.fields, w.s.byRunId, w.daemon, w.returned, r); }
  }

  lemma FlushStartedKeeps<E>(w: World<E>, f: nat, wanted: seq<RunId>)
    requires Inv(w) && w.CanFlushStarted(f, wanted)
    ensures Inv(w.AfterFlushStarted(f, wanted))
  {
    hide Roster, Buffers, Opens, Promises, Makers, Ledger, Versions, Fetches, Reruns, Marks, Debts, Early, Counts;
    var w' := w.AfterFlushStarted(f, wanted);
    FlushArmed(w.s.pending, w.s.flushTimer, w.s.kept, w.s.earlyChanges);
    assert wanted != [];
    var x := w'.fetches[f];
    forall r | r in x.wanted ensures Fenced(w.s.fields, w.s.byRunId, w.daemon, w.returned, x, r) {
      FlushFenced(w, f, wanted, r);
    }
    var older := Overtaken(w.fetches, w.s.pending.Keys);
    FetchesFewer(w.s.fields, w.s.byRunId, w.daemon, w.returned, w.s.pending, w.fetches, older);
    FetchesAdd(w.s.fields, w.s.byRunId, w.daemon, w.returned, w.s.pending, older, f, x);
    FetchesPending(w.s.fields, w.s.byRunId, w.daemon, w.returned, w.s.pending, map[], w'.fetches);
    forall r | r in w.s.pending ensures r in x.wanted && r in x.newest && r in x.low
        && Get(w.announced, r, 0) <= x.low[r] {
      FetchesAt(w.s.fields, w.s.byRunId, w.daemon, w.returned, w.s.pending, w.fetches, 0, r);
      EarlyAnnounced(w.opens, w.daemon, w.announced, w.s.earlyChanges, w.s.earlyOverflow, r);
    }
    DebtsFlush(w.s.fields, w.s.byRunId, w.s.pending, w.missed, w.fetches, w.announced, f, x);
  }

  lemma FlushFailedKeeps<E>(w: World<E>, f: nat)
    requires Inv(w) && w.CanFlushFailed(f)
    ensures Inv(w.AfterFlushFailed(f))
  {
    hide Roster, Buffers, Opens, Promises, Makers, Ledger, Versions, Fetches, Reruns, Marks, Debts, Early, Counts;
    FetchesFewer(w.s.fields, w.s.byRunId, w.daemon, w.returned, w.s.pending, w.fetches, w.fetches - {f});
    DebtsFailed(w.s.fields, w.s.byRunId, w.s.pending, w.missed, w.fetches, w.announced, f);
  }

  /** A new operation of an entry that shows the same rows, or rows it may show. */
  lemma RerunTouchKeeps<E>(w: World<E>, e: E, f: Fields)
    requires Inv(w) && e in w.s.fields
    requires f == w.s.fields[e].(operation := w.s.fields[e].operation + 1, state := f.state)
    requires f.state.runId == w.s.fields[e].state.runId
    requires f.state.run == w.s.fields[e].state.run
             || forall r | r in w.s.byRunId && w.s.byRunId[r] == e :: r in w.daemon ==> ShowsBetween(f, r, w.daemon[r])
    ensures var fields := w.s.fields[e := f];
      && Roster(fields, w.s.entries, w.s.byRunId)
      && Promises(fields, w.s.entries, w.opens)
      && Ledger(fields, w.opens, w.maker, w.closers, w.returned, w.dropped, w.closed)
      && Versions(fields, w.s.byRunId, w.daemon, w.returned)
      && Fetches(fields, w.s.byRunId, w.daemon, w.returned, w.s.pending, w.fetches)
      && Reruns(fields, w.daemon, w.opens, w.reruns)
      && Debts(fields, w.s.byRunId, w.s.pending, w.missed, w.fetches, w.announced)
      && Counts(fields, w.handles)
  {
    hide Roster, Buffers, Opens, Promises, Makers, Ledger, Versions, Fetches, Reruns, Marks, Debts, Early, Counts;
    PromisesAt(w.s.fields, w.s.entries, w.opens, e);
    RosterTouch(w.s.fields, w.s.entries, w.s.byRunId, e, f);
    PromisesTouch(w.s.fields, w.s.entries, w.opens, e, f);
    LedgerTouch(w.s.fields, w.opens, w.maker, w.closers, w.returned, w.dropped, w.closed, e, f);
    forall r | r in w.s.byRunId && w.s.byRunId[r] == e ensures r in w.daemon ==> ShowsBetween(f, r, w.daemon[r]) {
      VersionsAt(w.s.fields, w.s.byRunId, w.daemon, w.returned, r);
    }
    VersionsTouch(w.s.fields, w.s.byRunId, w.daemon, w.returned, e, f);
    FetchesTouch(w.s.fields, w.s.byRunId, w.daemon, w.returned, w.s.pending, w.fetches, e, f);
    RerunsTouch(w.s.fields, w.daemon, w.opens, w.reruns, e, f);
    DebtsTouch(w.s.fields, w.s.byRunId, w.s.pending, w.s.pending, w.missed, w.fetches, w.announced, e, f);
    CountsTouch(w.s.fields, w.handles, e, f);
  }

  lemma RerunStartedKeeps<E>(w: World<E>, e: E)
    requires Inv(w) && w.CanRerunStarted(e)
    ensures Inv(w.AfterRerunStarted(e))
  {
    hide Roster, Buffers, Opens, Promises, Makers, Ledger, Versions, Fetches, Reruns, Marks, Debts, Early, Counts;
    var w' := w.AfterRerunStarted(e);
    var f := w'.s.fields[e];
    assert w'.s.fields == w.s.fields[e := f];
    assert f == w.s.fields[e].(operation := w.s.fields[e].operation + 1, state := f.state)
           && f.state == w.s.fields[e].state.(stale := true);
    var q := (e, f.operation);
    var x := w'.reruns[q];
    PromisesAt(w.s.fields, w.s.entries, w.opens, e);
    RerunTouchKeeps(w, e, f);
    RerunsAdd(w'.s.fields, w.daemon, w.opens, w.reruns, q, x);
    MarksTouch(w.s.fields, w.opens, w.opens, w.reruns, w'.reruns, e, f);
  }

  /** A rerun overtaken by another, or by a new opening, or let go of, ends with no effect. */
  lemma RerunOvertakenKeeps<E>(w: World<E>, q: (E, nat))
    requires Inv(w) && q in w.reruns && q.0 in w.s.fields
    requires !w.s.Current(q.0, w.reruns[q].fences) || !Held(w.s.fields[q.0])
    ensures Inv(w.(reruns := w.reruns - {q}))
  {
    hide Roster, Buffers, Opens, Promises, Makers, Ledger, Versions, Fetches, Reruns, Marks, Debts, Early, Counts;
    var e := q.0;
    RerunsAt(w.s.fields, w.daemon, w.opens, w.reruns, q);
    RerunsRemove(w.s.fields, w.daemon, w.opens, w.reruns, q);
    MarksAt(w.s.fields, w.opens, w.reruns, e);
    MarksEnd(w.s.fields, w.opens, w.reruns, q);
  }

  /** The present rerun ends, its entry as `f` and perhaps to be fetched. */
  lemma RerunEndsKeeps<E>(w: World<E>, q: (E, nat), f: Fields)
    requires Inv(w) && q in w.reruns && q.0 in w.s.fields
    requires f == w.s.fields[q.0].(operation := w.s.fields[q.0].operation + 1, state := f.state)
    requires f.state.runId == w.s.fields[q.0].state.runId && !f.state.stale
    requires f.state.run == w.s.fields[q.0].state.run
             || forall r | r in w.s.byRunId && w.s.byRunId[r] == q.0 :: r in w.daemon
                 ==> ShowsBetween(f, r, w.daemon[r])
    ensures Inv(w.(s := w.s.(fields := w.s.fields[q.0 := f]), reruns := w.reruns - {q}))
  {
    hide Roster, Buffers, Opens, Promises, Makers, Ledger, Versions, Fetches, Reruns, Marks, Debts, Early, Counts;
    var fields := w.s.fields[q.0 := f];
    RerunTouchKeeps(w, q.0, f);
    RerunsRemove(fields, w.daemon, w.opens, w.reruns, q);
    MarksTouch(w.s.fields, w.opens, w.opens, w.reruns, w.reruns - {q}, q.0, f);
  }

  /** The run's id is known: the operation is sent. */
  lemma RerunSentKeeps<E>(w: World<E>, q: (E, nat), r: RunId)
    requires Inv(w) && q in w.reruns && q.0 in w.s.fields && r in w.daemon && w.reruns[q].phase.Awaiting?
    requires w.s.Current(q.0, w.reruns[q].fences)
    requires var y := (q.0, w.reruns[q].phase.promise); y in w.opens && w.opens[y] == Settled(Some(r))
    ensures Inv(w.(reruns := w.reruns[q := w.reruns[q].(phase := Sent(r, w.daemon[r]))]))
  {
    hide Roster, Buffers, Opens, Promises, Makers, Ledger, Versions, Fetches, Reruns, Marks, Debts, Early, Counts;
    var e := q.0;
    var x := w.reruns[q].(phase := Sent(r, w.daemon[r]));
    RerunsAt(w.s.fields, w.daemon, w.opens, w.reruns, q);
    PromisesAt(w.s.fields, w.s.entries, w.opens, e);
    RosterAt(w.s.fields, w.s.entries, w.s.byRunId, e);
    if r in w.s.byRunId { VersionsAt(w.s.fields, w.s.byRunId, w.daemon, w.returned, r); }
    RerunsAdd(w.s.fields, w.daemon, w.opens, w.reruns, q, x);
    MarksSent(w.s.fields, w.opens, w.reruns, q, x);
  }

  lemma RerunReadyKeeps<E>(w: World<E>, e: E, n: nat)
    requires Inv(w) && w.CanRerunReady(e, n)
    ensures Inv(w.AfterRerunReady(e, n))
  {
    hide Inv;
    var q := (e, n);
    var x := w.reruns[q];
    var answer := w.opens[(e, x.phase.promise)].answer;
    if !w.s.Current(e, x.fences) {
      RerunOvertakenKeeps(w, q);
    } else if answer.None? {
      var f := w.s.RerunWithoutRun(e, x.fences).fields[e];
      assert w.AfterRerunReady(e, n).s.fields == w.s.fields[e := f];
      RerunEndsKeeps(w, q, f);
    } else {
      RerunSentKeeps(w, q, answer.value);
    }
  }

  /** What a rerun's answer may show: it was asked for after what is shown, and
      no fetch was applied since. */
  lemma RerunMayShow<E>(w: World<E>, q: (E, nat), version: nat, r: RunId)
    requires Inv(w) && q in w.reruns && q.0 in w.s.fields && w.reruns[q].phase.Sent?
    requires w.s.Current(q.0, w.reruns[q].fences) && w.s.fields[q.0].seqNo == w.reruns[q].fences.initialSeq
    requires w.Between(w.reruns[q].phase.run, w.reruns[q].phase.low, version)
    requires r in w.s.byRunId && w.s.byRunId[r] == q.0
    ensures r == w.reruns[q].phase.run && w.s.fields[q.0].seqNo <= Screen(w.s.fields[q.0]) <= version <= w.daemon[r]
  {
    hide Roster, Buffers, Opens, Promises, Makers, Ledger, Versions, Fetches, Reruns, Marks, Debts, Early, Counts;
    RerunsAt(w.s.fields, w.daemon, w.opens, w.reruns, q);
    PromisesAt(w.s.fields, w.s.entries, w.opens, q.0);
    RosterAt(w.s.fields, w.s.entries, w.s.byRunId, q.0);
    VersionsAt(w.s.fields, w.s.byRunId, w.daemon, w.returned, r);
  }

  /** A present rerun of a held entry is on the run the entry holds. */
  lemma RerunOnItsRun<E>(w: World<E>, q: (E, nat))
    requires Inv(w) && q in w.reruns && q.0 in w.s.fields && w.reruns[q].phase.Sent?
    requires w.s.Current(q.0, w.reruns[q].fences) && Held(w.s.fields[q.0])
    ensures w.s.fields[q.0].state.runId == Some(w.reruns[q].phase.run)
    ensures w.reruns[q].phase.run in w.daemon
  {
    hide Roster, Buffers, Opens, Promises, Makers, Ledger, Versions, Fetches, Reruns, Marks, Debts, Early, Counts;
    RerunsAt(w.s.fields, w.daemon, w.opens, w.reruns, q);
  }

  lemma RerunRunKnown<E>(w: World<E>, q: (E, nat))
    requires Inv(w) && q in w.reruns && w.reruns[q].phase.Sent?
    ensures w.reruns[q].phase.run in w.daemon
  {
    hide Roster, Buffers, Opens, Promises, Makers, Ledger, Versions, Fetches, Reruns, Marks, Debts, Early, Counts;
    RerunsAt(w.s.fields, w.daemon, w.opens, w.reruns, q);
  }

  /** `e` may show `run`: it is of the run `e` holds, if any, and neither too old nor too new. */
  ghost predicate MayShow<E>(w: World<E>, e: E, run: PageRun)
    requires e in w.s.fields
  {
    forall r | r in w.s.byRunId && w.s.byRunId[r] == e ::
      r in w.daemon && r == run.of && w.s.fields[e].seqNo <= run.version <= w.daemon[r]
  }

  lemma RerunInTimeKeeps<E>(w: World<E>, q: (E, nat), answer: Result<PageRun, string>)
    requires Inv(w) && q in w.reruns && q.0 in w.s.fields && w.reruns[q].phase.Sent?
    requires w.s.Current(q.0, w.reruns[q].fences) && w.s.fields[q.0].state.runId == Some(w.reruns[q].phase.run)
    requires w.s.fields[q.0].seqNo == w.reruns[q].fences.initialSeq
    requires answer.Ok? ==> MayShow(w, q.0, answer.value)
    ensures Inv(w.(s := w.s.RerunAnswered(q.0, w.reruns[q].fences, w.reruns[q].phase.run, answer),
                   reruns := w.reruns - {q}))
  {
    hide Inv;
    var s' := w.s.RerunAnswered(q.0, w.reruns[q].fences, w.reruns[q].phase.run, answer);
    assert s' == w.s.(fields := w.s.fields[q.0 := s'.fields[q.0]]);
    RerunEndsKeeps(w, q, s'.fields[q.0]);
  }

  lemma RerunPresentKeeps<E>(w: World<E>, q: (E, nat), answer: Result<PageRun, string>)
    requires Inv(w) && q in w.reruns && q.0 in w.s.fields && w.reruns[q].phase.Sent?
    requires w.s.Current(q.0, w.reruns[q].fences) && w.s.fields[q.0].state.runId == Some(w.reruns[q].phase.run)
    requires answer.Ok? && w.s.fields[q.0].seqNo == w.reruns[q].fences.initialSeq ==> MayShow(w, q.0, answer.value)
    ensures Inv(w.(s := w.s.RerunAnswered(q.0, w.reruns[q].fences, w.reruns[q].phase.run, answer),
                   reruns := w.reruns - {q}))
  {
    hide Inv;
    var r := w.reruns[q].phase.run;
    if w.s.fields[q.0].seqNo != w.reruns[q].fences.initialSeq {
      var f := w.s.fields[q.0].(operation := w.s.fields[q.0].operation + 1,
                                state := w.s.fields[q.0].state.(stale := false));
      RerunEndsKeeps(w, q, f);
      RerunRunKnown(w, q);
      ScheduledKeeps(w.(s := w.s.(fields := w.s.fields[q.0 := f]), reruns := w.reruns - {q}), r, 0);
    } else {
      RerunInTimeKeeps(w, q, answer);
    }
  }

  lemma RerunAnyAnswerKeeps<E>(w: World<E>, q: (E, nat), answer: Result<PageRun, string>)
    requires Inv(w) && q in w.reruns && q.0 in w.s.fields && w.reruns[q].phase.Sent?
    requires answer.Ok? && w.s.Current(q.0, w.reruns[q].fences) &&
             w.s.fields[q.0].seqNo == w.reruns[q].fences.initialSeq ==>
               MayShow(w, q.0, answer.value)
    ensures Inv(w.(s := w.s.RerunAnswered(q.0, w.reruns[q].fences, w.reruns[q].phase.run, answer),
                   reruns := w.reruns - {q}))
  {
    hide Inv, MayShow;
    if !w.s.Current(q.0, w.reruns[q].fences) {
      RerunOvertakenKeeps(w, q);
    } else if w.s.fields[q.0].state.runId != Some(w.reruns[q].phase.run) {
      if Held(w.s.fields[q.0]) { RerunOnItsRun(w, q); }
      RerunOvertakenKeeps(w, q);
    } else {
      RerunPresentKeeps(w, q, answer);
    }
  }

  lemma RerunAnsweredKeeps<E>(w: World<E>, e: E, n: nat, version: nat)
    requires Inv(w) && w.CanRerunAnswered(e, n, version)
    ensures Inv(w.AfterRerunAnswered(e, n, version))
  {
    hide Inv;
    var x := w.reruns[(e, n)];
    if w.s.Current(e, x.fences) && w.s.fields[e].seqNo == x.fences.initialSeq {
      forall r | r in w.s.byRunId && w.s.byRunId[r] == e
        ensures r == x.phase.run && w.s.fields[e].seqNo <= version <= w.daemon[r]
      {
        RerunMayShow(w, (e, n), version, r);
      }
    }
    RerunAnyAnswerKeeps(w, (e, n), Ok(PageRun(x.phase.run, version)));
  }

  lemma RerunFailedKeeps<E>(w: World<E>, e: E, n: nat, why: string)
    requires Inv(w) && w.CanRerunFailed(e, n, why)
    ensures Inv(w.AfterRerunFailed(e, n, why))
  {
    hide Inv;
    RerunAnyAnswerKeeps(w, (e, n), Err(why));
  }

  // ---- A fetch's answer

  /** A snapshot that passes both checks is no older than what is shown. */
  lemma FetchMayShow<E>(w: World<E>, x: Fetch, r: RunId, version: nat)
    requires Inv(w) && Fenced(w.s.fields, w.s.byRunId, w.daemon, w.returned, x, r)
    requires r in w.s.byRunId && w.s.byRunId[r] in w.s.fields
    requires x.captured[r] == Some(w.s.fields[w.s.byRunId[r]].operation)
    requires x.low[r] <= version && w.s.fields[w.s.byRunId[r]].seqNo <= version
    ensures Screen(w.s.fields[w.s.byRunId[r]]) <= version
  {
    hide Roster, Buffers, Opens, Promises, Makers, Ledger, Versions, Fetches, Reruns, Marks, Debts, Early, Counts;
    VersionsAt(w.s.fields, w.s.byRunId, w.daemon, w.returned, r);
  }

  lemma FetchAppliedKeeps<E>(w: World<E>, r: RunId, version: nat, f: Fields)
    requires Inv(w) && r in w.s.byRunId && w.s.byRunId[r] in w.s.fields
    requires var g := w.s.fields[w.s.byRunId[r]];
      && f == g.(seqNo := version, state := RunState(Some(r), Some(PageRun(r, version)), None, false))
      && g.seqNo <= version
    requires r in w.daemon && version <= w.daemon[r]
    ensures Inv(w.(s := w.s.(fields := w.s.fields[w.s.byRunId[r] := f])))
  {
    hide Roster, Buffers, Opens, Promises, Makers, Ledger, Versions, Fetches, Reruns, Marks, Debts, Early, Counts;
    var e := w.s.byRunId[r];
    RosterOf(w.s.fields, w.s.entries, w.s.byRunId, r);
    RosterAt(w.s.fields, w.s.entries, w.s.byRunId, e);
    PromisesAt(w.s.fields, w.s.entries, w.opens, e);
    VersionsAt(w.s.fields, w.s.byRunId, w.daemon, w.returned, r);
    RosterTouch(w.s.fields, w.s.entries, w.s.byRunId, e, f);
    PromisesTouch(w.s.fields, w.s.entries, w.opens, e, f);
    LedgerTouch(w.s.fields, w.opens, w.maker, w.closers, w.returned, w.dropped, w.closed, e, f);
    VersionsTouch(w.s.fields, w.s.byRunId, w.daemon, w.returned, e, f);
    FetchesTouch(w.s.fields, w.s.byRunId, w.daemon, w.returned, w.s.pending, w.fetches, e, f);
    RerunsTouch(w.s.fields, w.daemon, w.opens, w.reruns, e, f);
    MarksTouch(w.s.fields, w.opens, w.opens, w.reruns, w.reruns, e, f);
    DebtsTouch(w.s.fields, w.s.byRunId, w.s.pending, w.s.pending, w.missed, w.fetches, w.announced, e, f);
    CountsTouch(w.s.fields, w.handles, e, f);
  }

  lemma FetchedKeeps<E>(w: World<E>, x: Fetch, r: RunId, answer: Option<Snapshot>)
    requires Inv(w) && w.s.Closed() && Fenced(w.s.fields, w.s.byRunId, w.daemon, w.returned, x, r)
    requires answer.Some? ==>
               answer.value.run == PageRun(r, answer.value.seqNo) && x.low[r] <= answer.value.seqNo <= w.daemon[r]
    ensures Inv(w.(s := w.s.Fetched(r, x.captured[r], answer)))
  {
    hide Inv;
    var s' := w.s.Fetched(r, x.captured[r], answer);
    if r in w.s.byRunId && answer.Some? && w.s.fields[w.s.byRunId[r]].seqNo <= answer.value.seqNo {
      if x.captured[r] != Some(w.s.fields[w.s.byRunId[r]].operation) {
        ScheduledKeeps(w, r, 0);
      } else {
        var e := w.s.byRunId[r];
        var f := s'.fields[e];
        assert s'.fields == w.s.fields[e := f];
        FetchAppliedKeeps(w, r, answer.value.seqNo, f);
      }
    }
  }

  /** One run of a fetch's answer dealt with. */
  ghost function Taken<E>(w: World<E>, g: nat, answer: Option<Snapshot>): (w': World<E>)
    requires w.s.Closed() && g in w.fetches && w.fetches[g].wanted != []
    requires w.fetches[g].wanted[0] in w.fetches[g].captured
    ensures w'.s.Closed() && w'.daemon == w.daemon
    ensures g in w'.fetches && w'.fetches[g] == w.fetches[g].(wanted := w.fetches[g].wanted[1..])
  {
    var x := w.fetches[g];
    var r := x.wanted[0];
    w.(s := w.s.Fetched(r, x.captured[r], answer),
       fetches := w.fetches[g := x.(wanted := x.wanted[1..])],
       missed := if answer.Some? || r !in x.newest then w.missed else w.missed + {r})
  }

  lemma TakenKeeps<E>(w: World<E>, g: nat, answer: Option<Snapshot>)
    requires Inv(w) && w.s.Closed() && g in w.fetches && w.fetches[g].wanted != []
    requires w.fetches[g].wanted[0] in w.fetches[g].captured
    requires var x, r := w.fetches[g], w.fetches[g].wanted[0];
      answer.Some? ==>
        && answer.value.run == PageRun(r, answer.value.seqNo)
        && r in x.low && r in w.daemon && x.low[r] <= answer.value.seqNo <= w.daemon[r]
    ensures Inv(Taken(w, g, answer))
  {
    hide Roster, Buffers, Opens, Promises, Makers, Ledger, Versions, Fetches, Reruns, Marks, Debts, Early, Counts;
    var x := w.fetches[g];
    var r := x.wanted[0];
    FetchesAt(w.s.fields, w.s.byRunId, w.daemon, w.returned, w.s.pending, w.fetches, g, r);
    FetchedKeeps(w, x, r, answer);
    var s' := w.s.Fetched(r, x.captured[r], answer);
    var w' := Taken(w, g, answer);
    FetchesFewer(s'.fields, s'.byRunId, w.daemon, w.returned, s'.pending, w.fetches, w'.fetches);
    DebtsMissed(s'.fields, s'.byRunId, s'.pending, w.missed, w'.missed, w.fetches, w.announced);
    DebtsTaken(s'.fields, s'.byRunId, s'.pending, w'.missed, w.fetches, w.announced, g, r);
  }

  /** The world once fetch `g` has dealt with all it still wants. */
  ghost function TakenAll<E>(w: World<E>, g: nat, runs: map<RunId, Snapshot>): World<E>
    requires w.s.Closed() && g in w.fetches
    requires forall r | r in w.fetches[g].wanted :: r in w.fetches[g].captured
  {
    var x := w.fetches[g];
    w.(s := w.s.FetchedAll(x.wanted, x.captured, runs), fetches := w.fetches - {g},
       missed := w.missed + set r | r in x.wanted && r in x.newest && r !in runs)
  }

  ghost predicate TimelyOne(daemon: map<RunId, nat>, low: map<RunId, nat>, r: RunId, x: Snapshot) {
    x.run == PageRun(r, x.seqNo) && r in low && r in daemon && low[r] <= x.seqNo <= daemon[r]
  }

  /** Each snapshot is of a version its run had between the request and now. */
  ghost predicate Timely(daemon: map<RunId, nat>, low: map<RunId, nat>, runs: map<RunId, Snapshot>) {
    forall r | r in runs :: TimelyOne(daemon, low, r, runs[r])
  }

  lemma TimelyAt(daemon: map<RunId, nat>, low: map<RunId, nat>, runs: map<RunId, Snapshot>, r: RunId)
    requires Timely(daemon, low, runs) && r in runs
    ensures TimelyOne(daemon, low, r, runs[r])
  {}

  lemma MissedThenAll(missed: set<RunId>, wanted: seq<RunId>, newest: set<RunId>, runs: map<RunId, Snapshot>)
    requires wanted != []
    ensures missed + (set r | r in wanted && r in newest && r !in runs)
         == (if wanted[0] in runs || wanted[0] !in newest then missed else missed + {wanted[0]})
            + (set r | r in wanted[1..] && r in newest && r !in runs)
  {
    assert wanted == [wanted[0]] + wanted[1..];
  }

  /** Dealing with one run and then the rest is dealing with all. */
  lemma TakenThenAll<E>(w: World<E>, g: nat, runs: map<RunId, Snapshot>, answer: Option<Snapshot>)
    requires w.s.Closed() && g in w.fetches && w.fetches[g].wanted != []
    requires forall r | r in w.fetches[g].wanted :: r in w.fetches[g].captured
    requires answer == if w.fetches[g].wanted[0] in runs then Some(runs[w.fetches[g].wanted[0]]) else None
    ensures TakenAll(Taken(w, g, answer), g, runs) == TakenAll(w, g, runs)
  {
    var wanted := w.fetches[g].wanted;
    assert (w.fetches[g := w.fetches[g].(wanted := wanted[1..])]) - {g} == w.fetches - {g};
    MissedThenAll(w.missed, wanted, w.fetches[g].newest, runs);
  }

  lemma AskedNothingKeeps<E>(w: World<E>, g: nat, runs: map<RunId, Snapshot>)
    requires Inv(w) && w.s.Closed() && g in w.fetches && w.fetches[g].wanted == []
    ensures Inv(TakenAll(w, g, runs))
  {
    hide Roster, Buffers, Opens, Promises, Makers, Ledger, Versions, Fetches, Reruns, Marks, Debts, Early, Counts;
    FetchesFewer(w.s.fields, w.s.byRunId, w.daemon, w.returned, w.s.pending, w.fetches, w.fetches - {g});
    DebtsFailed(w.s.fields, w.s.byRunId, w.s.pending, w.missed, w.fetches, w.announced, g);
    var x := w.fetches[g];
    assert w.missed + (set r | r in x.wanted && r in x.newest) == w.missed;
    assert w.missed + (set r | r in x.wanted && r in x.newest && r !in runs) == w.missed;
    assert TakenAll(w, g, runs) == w.(fetches := w.fetches - {g});
  }

  lemma {:induction false} TakenAllKeeps<E>(w: World<E>, g: nat, runs: map<RunId, Snapshot>)
    requires Inv(w) && w.s.Closed() && g in w.fetches
    requires forall r | r in w.fetches[g].wanted :: r in w.fetches[g].captured
    requires Timely(w.daemon, w.fetches[g].low, runs)
    ensures Inv(TakenAll(w, g, runs))
    decreases |w.fetches[g].wanted|
  {
    hide Inv, Timely, Taken, TakenAll;
    var x := w.fetches[g];
    if x.wanted == [] {
      AskedNothingKeeps(w, g, runs);
    } else {
      var r := x.wanted[0];
      var answer := if r in runs then Some(runs[r]) else None;
      if r in runs { TimelyAt(w.daemon, x.low, runs, r); }
      TakenKeeps(w, g, answer);
      var w' := Taken(w, g, answer);
      TakenAllKeeps(w', g, runs);
      TakenThenAll(w, g, runs, answer);
    }
  }

  lemma FlushAnsweredKeeps<E>(w: World<E>, f: nat, versions: map<RunId, nat>)
    requires Inv(w) && w.CanFlushAnswered(f, versions)
    ensures Inv(w.AfterFlushAnswered(f, versions))
  {
    hide Inv;
    var runs := Snapshots(versions);
    TakenAllKeeps(w, f, runs);
    var x := w.fetches[f];
    assert (set r | r in x.wanted && r in x.newest && r !in runs)
        == (set r | r in x.wanted && r in x.newest && r !in versions);
  }

  // ---- Opened again

  lemma ForgotScreens<E>(w: World<E>, r: RunId)
    requires Inv(w) && w.s.Closed() && r in w.s.byRunId
    ensures var w' := w.Forgot(r);
      && Versions(w'.s.fields, w'.s.byRunId, w'.daemon, w'.returned)
      && Fetches(w'.s.fields, w'.s.byRunId, w'.daemon, w'.returned, w'.s.pending, w'.fetches)
      && Reruns(w'.s.fields, w'.daemon, w'.opens, w'.reruns)
  {
    hide Roster, Buffers, Opens, Promises, Makers, Ledger, Versions, Fetches, Reruns, Marks, Debts, Early, Counts;
    var e := w.s.byRunId[r];
    var w' := w.Forgot(r);
    var f := Reopening(w.s.fields[e]);
    var byRunId := w.s.byRunId - {r};
    assert w'.s.fields == w.s.fields[e := f];
    RosterOf(w.s.fields, w.s.entries, w.s.byRunId, r);
    RosterAt(w.s.fields, w.s.entries, w.s.byRunId, e);
    VersionsRoster(w.s.fields, w.s.byRunId, byRunId, w.daemon, w.returned, e, f);
    FetchesRoster(w.s.fields, w.s.byRunId, byRunId, w.daemon, w.returned, w.s.pending, w.fetches);
    FetchesAside(w.s.fields, byRunId, w.daemon, w.returned, w.s.pending, w.fetches, e, f);
    RerunsReopen(w.s.fields, w.daemon, w.opens, w.reruns, e, f);
    RerunsGrow(w'.s.fields, w.daemon, w.daemon, w.opens, w'.opens, w.reruns);
  }

  lemma ForgotKeeps<E>(w: World<E>, r: RunId)
    requires Inv(w) && w.s.Closed()
    ensures Inv(w.Forgot(r))
  {
    hide Roster, Buffers, Opens, Promises, Makers, Ledger, Versions, Fetches, Reruns, Marks, Debts, Early, Counts;
    if r in w.s.byRunId {
      var e := w.s.byRunId[r];
      var w' := w.Forgot(r);
      var f := Reopening(w.s.fields[e]);
      var q := (e, f.promise);
      var byRunId := w.s.byRunId - {r};
      assert w'.s.fields == w.s.fields[e := f];
      RosterOf(w.s.fields, w.s.entries, w.s.byRunId, r);
      RosterAt(w.s.fields, w.s.entries, w.s.byRunId, e);
      PromisesAt(w.s.fields, w.s.entries, w.opens, e);
      VersionsAt(w.s.fields, w.s.byRunId, w.daemon, w.returned, r);
      MakersAt(w.daemon, w.maker, w.returned, w.opens, (e, w.s.fields[e].promise));
      if q in w.opens { PromisesOf(w.s.fields, w.s.entries, w.opens, q); }
      RosterForget(w.s.fields, w.s.entries, w.s.byRunId, r, f);
      OpensRequested(w, q, w'.s.inFlightOpens);
      PromisesReopen(w.s.fields, w.s.entries, w.opens, e);
      MakersRequested(w.daemon, w.maker, w.returned, w.opens, q);
      forall y | y in w.opens ensures y.0 == e ==> y.1 <= w.s.fields[e].promise {
        PromisesOf(w.s.fields, w.s.entries, w.opens, y);
      }
      LedgerDrop(w.s.fields, w.opens, w.maker, w.closers, w.returned, w.dropped, w.closed, e, f, r);
      ForgotScreens(w, r);
      MarksTouch(w.s.fields, w.opens, w'.opens, w.reruns, w.reruns, e, f);
      DebtsForget(w.s.fields, w.s.byRunId, w.s.pending, w.missed, w.fetches, w.announced, e, f, byRunId);
      EarlyOpens(w.opens, w.daemon, w.announced, w.s.earlyChanges, w.s.earlyOverflow, q, Requested);
      CountsTouch(w.s.fields, w.handles, e, f);
    }
  }

  lemma {:induction false} ForgotAllKeeps<E>(w: World<E>, runIds: seq<RunId>)
    requires Inv(w) && w.s.Closed()
    ensures Inv(w.ForgotAll(runIds))
    decreases |runIds|
  {
    hide Inv;
    if runIds != [] {
      ForgotKeeps(w, runIds[0]);
      ForgotAllKeeps(w.Forgot(runIds[0]), runIds[1..]);
    }
  }

  lemma ReconnectedLedger<E>(w: World<E>)
    requires Inv(w)
    ensures Ledger(AllReopened(w.s.fields, w.s.entries), w.opens + Requests(w.s.fields, w.s.entries), w.maker,
                   w.closers,
                   w.returned, w.dropped + w.s.byRunId.Keys, w.closed)
  {
    hide Roster, Buffers, Opens, Promises, Makers, Ledger, Versions, Fetches, Reruns, Marks, Debts, Early, Counts;
    hide AllReopened, Requests;
    forall r | r in w.s.byRunId ensures r in w.returned {
      VersionsAt(w.s.fields, w.s.byRunId, w.daemon, w.returned, r);
    }
    LedgerReconnect(w.s.fields, w.s.entries, w.s.byRunId, w.daemon, w.opens, w.maker, w.closers, w.returned, w.dropped,
                    w.closed);
  }

  /** With no run held there is nothing to say of what runs show. */
  lemma NoRunsHeld<E>(
    fields': map<E, Fields>, daemon: map<RunId, nat>, returned: set<RunId>, pending: map<RunId, nat>,
    missed: set<RunId>,
    fetches: map<nat, Fetch>, announced: map<RunId, nat>, fields: map<E, Fields>, byRunId: map<RunId, E>)
    requires Fetches(fields, byRunId, daemon, returned, pending, fetches)
    ensures Versions(fields', map[], daemon, returned)
    ensures Fetches(fields', map[], daemon, returned, pending, fetches)
    ensures Debts(fields', map[], pending, missed, fetches, announced)
  {
    forall g, r | g in fetches && r in fetches[g].wanted
        ensures Fenced(fields', map[], daemon, returned, fetches[g], r) {
      assert Fenced(fields, byRunId, daemon, returned, fetches[g], r);
    }
  }

  lemma ReconnectedKeeps<E>(w: World<E>)
    requires Inv(w) && w.s.Closed()
    ensures Inv(w.AfterReconnected())
  {
    hide Roster, Buffers, Opens, Promises, Makers, Ledger, Versions, Fetches, Reruns, Marks, Debts, Early, Counts;
    hide AllReopened, Requests;
    var fields' := AllReopened(w.s.fields, w.s.entries);
    RosterReconnect(w.s.fields, w.s.entries, w.s.byRunId);
    OpensReconnect(w.s.fields, w.s.entries, w.s.byRunId, w.opens, w.s.inFlightOpens, w.s.earlyChanges,
                   w.s.earlyOverflow, w.AfterReconnected().s.inFlightOpens);
    PromisesReconnect(w.s.fields, w.s.entries, w.opens);
    MakersReconnect(w.s.fields, w.s.entries, w.daemon, w.maker, w.returned, w.opens);
    ReconnectedLedger(w);
    NoRunsHeld(fields', w.daemon, w.returned, w.s.pending, w.missed, w.fetches, w.announced, w.s.fields, w.s.byRunId);
    RerunsReconnect(w.s.fields, w.s.entries, w.daemon, w.opens, w.reruns);
    MarksReconnect(w.s.fields, w.s.entries, w.opens, w.reruns);
    EarlyReconnect(w.s.fields, w.s.entries, w.opens, w.daemon, w.announced, w.s.earlyChanges, w.s.earlyOverflow);
    CountsReconnect(w.s.fields, w.s.entries, w.handles, w.opens);
  }

  lemma OpenAnsweredKeeps<E>(w: World<E>, e: E, p: nat, version: nat)
    requires Inv(w) && w.CanOpenAnswered(e, p, version)
    ensures Inv(w.AfterOpenAnswered(e, p, version))
  {
    hide Inv;
    if w.s.RefusesOpen(e, p) { OpenRefusedKeeps(w, e, p, version); } else { OpenTakenKeeps(w, e, p, version); }
  }

  lemma ShownAgainKeeps<E>(w: World<E>, r: RunId)
    requires Inv(w) && w.CanShownAgain(r)
    ensures Inv(w.AfterShownAgain(r))
  {
    hide Inv;
    ScheduledKeeps(w, r, 0);
  }

  lemma StepKeeps<E>(w: World<E>, a: Action<E>, w': World<E>)
    requires Inv(w) && w.Steps(a, w')
    ensures Inv(w')
  {
    hide Inv;
    hide World.CanOpenPage, World.CanSetVisible, World.CanCloseHandle, World.CanCloseTimer, World.CanCloseRun,
         World.CanDaemonOpens, World.CanDaemonChanges, World.CanOpenAnswered, World.CanOpenFailed,
         World.CanOpenSettled, World.CanAnnounced, World.CanFlushStarted, World.CanFlushAnswered,
         World.CanFlushFailed, World.CanRerunStarted, World.CanRerunReady, World.CanRerunAnswered,
         World.CanRerunFailed, World.CanShownAgain, World.AfterOpenPage, World.AfterSetVisible,
         World.AfterCloseHandle, World.AfterCloseTimer, World.AfterCloseRun, World.AfterDaemonOpens,
         World.AfterDaemonChanges, World.AfterOpenAnswered, World.AfterOpenFailed, World.AfterOpenSettled,
         World.AfterAnnounced, World.AfterFlushStarted, World.AfterFlushAnswered, World.AfterFlushFailed,
         World.AfterRerunStarted, World.AfterRerunReady, World.AfterRerunAnswered, World.AfterRerunFailed,
         World.AfterShownAgain, World.AfterReconnected, World.ForgotAll;
    match a
    case OpenPage(h, k, made) =>
      if k in w.s.entries { OpenSharedKeeps(w, h, k, made); } else { OpenNewKeeps(w, h, k, made); }
    case SetVisible(h, visible) => SetVisibleKeeps(w, h, visible);
    case CloseHandle(h) => CloseHandleKeeps(w, h);
    case CloseTimer(e) => CloseTimerKeeps(w, e);
    case CloseRun(e, p) => CloseRunKeeps(w, e, p);
    case DaemonOpens(e, p, r, version) => DaemonOpensKeeps(w, e, p, r, version);
    case DaemonChanges(r) => DaemonChangesKeeps(w, r);
    case OpenAnswered(e, p, version) => OpenAnsweredKeeps(w, e, p, version);
    case OpenFailed(e, p, why) => OpenFailedKeeps(w, e, p, why);
    case OpenSettled(e, p) => OpenSettledKeeps(w, e, p);
    case Announced(r, n) => AnnouncedKeeps(w, r, n);
    case FlushStarted(f, wanted) => FlushStartedKeeps(w, f, wanted);
    case FlushAnswered(f, versions) => FlushAnsweredKeeps(w, f, versions);
    case FlushFailed(f) => FlushFailedKeeps(w, f);
    case RerunStarted(e) => RerunStartedKeeps(w, e);
    case RerunReady(e, n) => RerunReadyKeeps(w, e, n);
    case RerunAnswered(e, n, version) => RerunAnsweredKeeps(w, e, n, version);
    case RerunFailed(e, n, why) => RerunFailedKeeps(w, e, n, why);
    case ShownAgain(r) => ShownAgainKeeps(w, r);
    case Reconnected => ReconnectedKeeps(w);
    case Reopen(runIds) => ForgotAllKeeps(w, runIds);
  }
}
