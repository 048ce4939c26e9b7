/** Where the rows an entry shows come from, its error, and what marks it stale. */
module PageRunRows {
  import opened Basics
  import opened PageRunStore
  import opened PageRunWorld
  import opened PageRunInvariants
  import opened PageRunEffects
  import opened PageRunSteps
  import opened PageRunTheorems
  import opened PageRunAnswers

  /** Under `a` a failure comes in for entry `e`: of its open, in the opening it is in; or
      of the operation that is its latest, with no fetch applied since it started. */
  ghost predicate Fails<E>(w: World<E>, a: Action<E>, e: E, why: string) {
    match a
    case OpenFailed(x, p, y) => x == e && y == why && e in w.s.fields && w.s.fields[e].opening == p
    case RerunFailed(x, n, y) =>
      && x == e && y == why && e in w.s.fields && (e, n) in w.reruns && w.reruns[(e, n)].phase.Sent?
      && w.s.fields[e].state.runId == Some(w.reruns[(e, n)].phase.run)
      && w.reruns[(e, n)].fences == w.s.FencesOf(e)
    case _ => false
  }

  /** The entry's rows and error are as they were; or they are an answer's; or a failure
      left the rows and is the error. */
  ghost predicate Explained<E>(w: World<E>, a: Action<E>, e: E, g: Fields)
    requires e in w.s.fields
  {
    var f := w.s.fields[e];
    || (g.state.run == f.state.run && g.state.error == f.state.error)
    || (exists r, v :: Comes(w, a, e, r, v) && g.state.run == Some(PageRun(r, v)) && g.state.error == None)
    || (exists why :: Fails(w, a, e, why) && g.state.run == f.state.run && g.state.error == Some(why))
  }

  ghost predicate SameRows(f: Fields, g: Fields) { g.state.run == f.state.run && g.state.error == f.state.error }

  ghost predicate AllSame<E>(w: World<E>, w': World<E>) {
    forall e | e in w.s.fields :: e in w'.s.fields && SameRows(w.s.fields[e], w'.s.fields[e])
  }

  /** An entry's mark stays, and opening it again marks it. */
  ghost predicate StaysMarked(f: Fields, g: Fields) {
    && (f.state.stale ==> g.state.stale)
    && (Held(f) && Held(g) && g.opening != f.opening ==> g.state.stale)
  }

  ghost predicate AllMarked<E>(w: World<E>, w': World<E>) {
    forall e | e in w.s.fields :: e in w'.s.fields && StaysMarked(w.s.fields[e], w'.s.fields[e])
  }

  lemma ReconnectedLeavesRows<E>(w: World<E>)
    requires w.s.Closed()
    ensures AllSame(w, w.AfterReconnected()) && AllMarked(w, w.AfterReconnected())
  {}

  lemma OpenPageLeavesRows<E>(w: World<E>, h: nat, k: Key, made: E)
    requires w.CanOpenPage(h, k, made)
    ensures AllSame(w, w.AfterOpenPage(h, k, made)) && AllMarked(w, w.AfterOpenPage(h, k, made))
  {}

  lemma ShowingLeavesRows<E>(w: World<E>, a: Action<E>, w': World<E>)
    requires w.Steps(a, w') && OfHandle(a) && !a.OpenPage? && !a.Reconnected? && !a.CloseTimer?
    ensures AllSame(w, w') && AllMarked(w, w')
  {}

  lemma CloseTimerLeavesRows<E>(w: World<E>, e: E)
    requires w.CanCloseTimer(e)
    ensures AllSame(w, w.AfterCloseTimer(e)) && AllMarked(w, w.AfterCloseTimer(e))
  {
    hide Keep;
  }

  lemma ReconnectedIs<E>(w: World<E>, a: Action<E>, w': World<E>)
    requires w.Steps(a, w') && a.Reconnected?
    ensures w.s.Closed() && w' == w.AfterReconnected()
  {}

  lemma HandleLeavesRows<E>(w: World<E>, a: Action<E>, w': World<E>)
    requires w.Steps(a, w') && OfHandle(a)
    ensures AllSame(w, w') && AllMarked(w, w')
  {
    hide AllSame, AllMarked, World.Steps, World.AfterOpenPage, World.CanOpenPage, World.AfterReconnected,
         World.AfterCloseTimer, World.CanCloseTimer;
    if a.OpenPage? {
      OpenPageIs(w, a, w');
      OpenPageLeavesRows(w, a.h, a.k, a.made);
    } else if a.Reconnected? {
      ReconnectedIs(w, a, w');
      ReconnectedLeavesRows(w);
    } else if a.CloseTimer? {
      CloseTimerIs(w, a, w');
      CloseTimerLeavesRows(w, a.e);
    } else {
      ShowingLeavesRows(w, a, w');
    }
  }

  lemma OpenLeavesRows<E>(w: World<E>, a: Action<E>, w': World<E>)
    requires w.Steps(a, w') && OfOpen(a) && !a.OpenAnswered? && !a.OpenFailed?
    ensures AllSame(w, w') && AllMarked(w, w')
  {}

  lemma Itself(f: Fields)
    ensures StaysMarked(f, f) && SameRows(f, f)
  {}

  lemma OneLeavesRows<E>(w: World<E>, w': World<E>, e: E, f: Fields)
    requires e in w.s.fields && w'.s.fields == w.s.fields[e := f]
    requires SameRows(w.s.fields[e], f) && StaysMarked(w.s.fields[e], f)
    ensures AllSame(w, w') && AllMarked(w, w')
  {
    hide StaysMarked;
    forall x | x in w.s.fields ensures StaysMarked(w.s.fields[x], w'.s.fields[x]) { Itself(w.s.fields[x]); }
  }

  lemma RerunStartedLeavesRows<E>(w: World<E>, e: E)
    requires w.CanRerunStarted(e)
    ensures AllSame(w, w.AfterRerunStarted(e)) && AllMarked(w, w.AfterRerunStarted(e))
    ensures e in w.AfterRerunStarted(e).s.fields && w.AfterRerunStarted(e).s.fields[e].state.stale
  {
    hide AllSame, AllMarked;
    OneLeavesRows(w, w.AfterRerunStarted(e), e, w.AfterRerunStarted(e).s.fields[e]);
  }

  lemma FlushLeavesRows<E>(w: World<E>, a: Action<E>, w': World<E>)
    requires w.Steps(a, w') && (a.FlushStarted? || a.FlushFailed?)
    ensures AllSame(w, w') && AllMarked(w, w')
  {
    hide StaysMarked, SameRows;
    forall x | x in w.s.fields
      ensures StaysMarked(w.s.fields[x], w.s.fields[x]) && SameRows(w.s.fields[x], w.s.fields[x])
    {
      Itself(w.s.fields[x]);
    }
  }

  lemma RerunReadyLeavesRows<E>(w: World<E>, e: E, n: nat)
    requires w.CanRerunReady(e, n)
    ensures AllSame(w, w.AfterRerunReady(e, n))
  {
    hide Store.Closed;
    var x := w.reruns[(e, n)];
    if w.s.Current(e, x.fences) {
      match w.opens[(e, x.phase.promise)].answer
      case None =>
      case Some(_) =>
    }
  }

  lemma ForgotLeavesRows<E>(w: World<E>, r: RunId)
    requires w.s.Closed()
    ensures w.Forgot(r).s.Closed() && AllSame(w, w.Forgot(r)) && AllMarked(w, w.Forgot(r))
    ensures forall e | e in w.s.fields && e in w.Forgot(r).s.fields ::
              Held(w.s.fields[e]) ==> Held(w.Forgot(r).s.fields[e])
  {
    if r in w.s.byRunId {
      var e := w.s.byRunId[r];
      var f := Reopening(w.s.fields[e]);
      assert w.Forgot(r).s.fields == w.s.fields[e := f];
      hide AllSame, AllMarked, World.Forgot;
      OneLeavesRows(w, w.Forgot(r), e, f);
    }
  }

  lemma SameThen<E>(a: World<E>, b: World<E>, c: World<E>)
    requires AllSame(a, b) && AllSame(b, c)
    ensures AllSame(a, c)
  {}

  lemma MarkedThen<E>(a: World<E>, b: World<E>, c: World<E>)
    requires AllMarked(a, b) && AllMarked(b, c)
    requires forall e | e in a.s.fields && e in b.s.fields :: Held(a.s.fields[e]) ==> Held(b.s.fields[e])
    ensures AllMarked(a, c)
  {
    forall e | e in a.s.fields ensures e in c.s.fields && StaysMarked(a.s.fields[e], c.s.fields[e]) {
      assert StaysMarked(a.s.fields[e], b.s.fields[e]) && StaysMarked(b.s.fields[e], c.s.fields[e]);
    }
  }

  lemma WorldItself<E>(w: World<E>)
    ensures AllSame(w, w) && AllMarked(w, w)
  {}

  lemma {:induction false} ForgotAllLeavesRows<E>(w: World<E>, runIds: seq<RunId>)
    requires w.s.Closed()
    ensures AllSame(w, w.ForgotAll(runIds)) && AllMarked(w, w.ForgotAll(runIds))
    decreases |runIds|
  {
    hide AllSame, AllMarked, World.Forgot;
    if runIds == [] {
      WorldItself(w);
    } else {
      var w' := w.Forgot(runIds[0]);
      ForgotLeavesRows(w, runIds[0]);
      ForgotAllLeavesRows(w', runIds[1..]);
      SameThen(w, w', w.ForgotAll(runIds));
      MarkedThen(w, w', w.ForgotAll(runIds));
    }
  }

  /** What an entry shows after a fetch's answer: as before, or a snapshot of its run. */
  lemma {:induction false} FetchedAllRows<E>(
    s: Store<E>, wanted: seq<RunId>, captured: map<RunId, Option<nat>>, runs: map<RunId, Snapshot>, e: E)
    requires s.Closed() && e in s.fields && forall x :: x in wanted ==> x in captured
    ensures var f, g := s.fields[e], s.FetchedAll(wanted, captured, runs).fields[e];
            || SameRows(f, g)
            || exists r :: r in s.byRunId && s.byRunId[r] == e && r in wanted && r in runs
                           && g.state.run == Some(runs[r].run) && g.state.error == None
    decreases |wanted|
  {
    if wanted != [] {
      var x := wanted[0];
      var answer := if x in runs then Some(runs[x]) else None;
      var s' := s.Fetched(x, captured[x], answer);
      assert s'.byRunId == s.byRunId;
      assert SameRows(s.fields[e], s'.fields[e])
          || (x in s.byRunId && s.byRunId[x] == e && x in runs && s'.fields[e].state.run == Some(runs[x].run)
              && s'.fields[e].state.error == None);
      FetchedAllRows(s', wanted[1..], captured, runs, e);
      hide Store.Fetched, Store.FetchedAll;
    }
  }

  lemma SameExplains<E>(w: World<E>, a: Action<E>, e: E, g: Fields)
    requires e in w.s.fields && SameRows(w.s.fields[e], g)
    ensures Explained(w, a, e, g)
  {}

  lemma AnswerExplains<E>(w: World<E>, a: Action<E>, e: E, g: Fields, r: RunId, v: nat)
    requires e in w.s.fields && Comes(w, a, e, r, v) && g.state.run == Some(PageRun(r, v)) && g.state.error == None
    ensures Explained(w, a, e, g)
  {
    hide Comes;
  }

  lemma FailureExplains<E>(w: World<E>, a: Action<E>, e: E, g: Fields, why: string)
    requires e in w.s.fields && Fails(w, a, e, why)
    requires g.state.run == w.s.fields[e].state.run && g.state.error == Some(why)
    ensures Explained(w, a, e, g)
  {
    hide Fails;
  }

  lemma OpenAnsweredExplains<E>(w: World<E>, x: E, p: nat, version: nat, e: E)
    requires w.CanOpenAnswered(x, p, version) && e in w.s.fields
    ensures e in w.AfterOpenAnswered(x, p, version).s.fields
    ensures Explained(w, OpenAnswered(x, p, version), e, w.AfterOpenAnswered(x, p, version).s.fields[e])
  {
    hide Explained;
    var g := w.AfterOpenAnswered(x, p, version).s.fields[e];
    var r := w.opens[(x, p)].run;
    if e == x && w.s.fields[e].opening == p {
      assert Comes(w, OpenAnswered(x, p, version), e, r, version);
      hide Comes;
      AnswerExplains(w, OpenAnswered(x, p, version), e, g, r, version);
    } else {
      SameExplains(w, OpenAnswered(x, p, version), e, g);
    }
  }

  lemma OpenFailedExplains<E>(w: World<E>, x: E, p: nat, why: string, e: E)
    requires w.CanOpenFailed(x, p, why) && e in w.s.fields
    ensures e in w.AfterOpenFailed(x, p, why).s.fields
    ensures Explained(w, OpenFailed(x, p, why), e, w.AfterOpenFailed(x, p, why).s.fields[e])
  {
    hide Explained;
    var g := w.AfterOpenFailed(x, p, why).s.fields[e];
    if e == x && w.s.fields[e].opening == p {
      FailureExplains(w, OpenFailed(x, p, why), e, g, why);
    } else {
      SameExplains(w, OpenFailed(x, p, why), e, g);
    }
  }

  /** What an operation's answer does to an entry. */
  lemma RerunAnsweredRows<E>(
    s: Store<E>, x: E, fences: Fences, r: RunId, answer: Result<PageRun, string>, e: E)
    requires x in s.fields && e in s.fields
    ensures var f, g := s.fields[e], s.RerunAnswered(x, fences, r, answer).fields[e];
            if e == x && fences == s.FencesOf(e) && f.state.runId == Some(r)
            then if answer.Ok? then g.state.run == Some(answer.value) && g.state.error == None
                 else g.state.run == f.state.run && g.state.error == Some(answer.error)
            else SameRows(f, g)
  {}

  lemma RerunAnsweredExplains<E>(w: World<E>, x: E, n: nat, version: nat, e: E)
    requires Inv(w) && w.CanRerunAnswered(x, n, version) && e in w.s.fields && Held(w.s.fields[e])
    ensures e in w.AfterRerunAnswered(x, n, version).s.fields
    ensures Explained(w, RerunAnswered(x, n, version), e, w.AfterRerunAnswered(x, n, version).s.fields[e])
  {
    hide Roster, Buffers, Opens, Promises, Makers, Ledger, Versions, Fetches, Reruns, Marks, Debts, Early, Counts,
        Explained, Store.RerunAnswered;
    PromisesAt(w.s.fields, w.s.entries, w.opens, e);
    RosterAt(w.s.fields, w.s.entries, w.s.byRunId, e);
    hide Inv;
    var rerun := w.reruns[(x, n)];
    var r, a := rerun.phase.run, RerunAnswered(x, n, version);
    RerunAnsweredRows(w.s, x, rerun.fences, r, Ok(PageRun(r, version)), e);
    var g := w.AfterRerunAnswered(x, n, version).s.fields[e];
    if e == x && rerun.fences == w.s.FencesOf(e) && w.s.fields[e].state.runId == Some(r) {
      assert Comes(w, a, e, r, version);
      AnswerExplains(w, a, e, g, r, version);
    } else {
      SameExplains(w, a, e, g);
    }
  }

  lemma RerunFailedExplains<E>(w: World<E>, x: E, n: nat, why: string, e: E)
    requires w.CanRerunFailed(x, n, why) && e in w.s.fields
    ensures e in w.AfterRerunFailed(x, n, why).s.fields
    ensures Explained(w, RerunFailed(x, n, why), e, w.AfterRerunFailed(x, n, why).s.fields[e])
  {
    hide Explained, Store.RerunAnswered;
    var rerun := w.reruns[(x, n)];
    var r, a := rerun.phase.run, RerunFailed(x, n, why);
    RerunAnsweredRows(w.s, x, rerun.fences, r, Err(why), e);
    var g := w.AfterRerunFailed(x, n, why).s.fields[e];
    if e == x && rerun.fences == w.s.FencesOf(e) && w.s.fields[e].state.runId == Some(r) {
      assert Fails(w, a, e, why);
      FailureExplains(w, a, e, g, why);
    } else {
      SameExplains(w, a, e, g);
    }
  }

  lemma FlushAnsweredExplains<E>(w: World<E>, f: nat, versions: map<RunId, nat>, e: E)
    requires w.CanFlushAnswered(f, versions) && e in w.s.fields
    ensures e in w.AfterFlushAnswered(f, versions).s.fields
    ensures Explained(w, FlushAnswered(f, versions), e, w.AfterFlushAnswered(f, versions).s.fields[e])
  {
    var x, runs := w.fetches[f], Snapshots(versions);
    FetchedAllRows(w.s, x.wanted, x.captured, runs, e);
    var g := w.AfterFlushAnswered(f, versions).s.fields[e];
    hide Store.FetchedAll;
    if !SameRows(w.s.fields[e], g) {
      var r :| r in w.s.byRunId && w.s.byRunId[r] == e && r in x.wanted && r in runs
               && g.state.run == Some(runs[r].run) && g.state.error == None;
      assert Comes(w, FlushAnswered(f, versions), e, r, versions[r]);
    }
  }

  lemma AnsweredIs<E>(w: World<E>, a: Action<E>, w': World<E>)
    requires w.Steps(a, w')
    ensures a.OpenAnswered? ==> w.CanOpenAnswered(a.e, a.p, a.version) && w' == w.AfterOpenAnswered(a.e, a.p, a.version)
    ensures a.OpenFailed? ==> w.CanOpenFailed(a.e, a.p, a.why) && w' == w.AfterOpenFailed(a.e, a.p, a.why)
    ensures a.RerunAnswered? ==>
              w.CanRerunAnswered(a.e, a.n, a.version) && w' == w.AfterRerunAnswered(a.e, a.n, a.version)
    ensures a.RerunFailed? ==> w.CanRerunFailed(a.e, a.n, a.why) && w' == w.AfterRerunFailed(a.e, a.n, a.why)
  {}

  predicate Answering<E>(a: Action<E>) {
    a.OpenAnswered? || a.OpenFailed? || a.RerunAnswered? || a.RerunFailed? || a.FlushAnswered?
  }

  lemma OthersLeaveRows<E>(w: World<E>, a: Action<E>, w': World<E>)
    requires w.Steps(a, w') && !Answering(a)
    ensures AllSame(w, w')
  {
    hide AllSame;
    if a.RerunReady? {
      RerunReadyLeavesRows(w, a.e, a.n);
    } else if a.RerunStarted? {
      RerunStartedLeavesRows(w, a.e);
    } else if a.Reopen? {
      ForgotAllLeavesRows(w, a.runIds);
    } else {
      hide World.Steps;
      if OfHandle(a) {
        HandleLeavesRows(w, a, w');
      } else if OfOpen(a) {
        OpenLeavesRows(w, a, w');
      } else {
        FlushLeavesRows(w, a, w');
      }
    }
  }

  /** Only an answer, a failure or a rerun without a run unmarks an entry; a rerun, and
      opening it again, marks it. */
  lemma OthersMark<E>(w: World<E>, a: Action<E>, w': World<E>)
    requires w.Steps(a, w') && !Answering(a) && !a.RerunReady?
    ensures AllMarked(w, w')
    ensures a.RerunStarted? ==> a.e in w'.s.fields && w'.s.fields[a.e].state.stale
  {
    hide AllMarked, AllSame;
    if a.Reopen? {
      ForgotAllLeavesRows(w, a.runIds);
    } else if a.RerunStarted? {
      RerunStartedLeavesRows(w, a.e);
    } else {
      hide World.Steps;
      if OfHandle(a) {
        HandleLeavesRows(w, a, w');
      } else if OfOpen(a) {
        OpenLeavesRows(w, a, w');
      } else {
        FlushLeavesRows(w, a, w');
      }
    }
  }

  /** One step: a live entry's rows change only to an answer's that comes in for it, its
      error only to a failure's, or to none with an answer's rows. */
  lemma StepExplains<E>(w: World<E>, a: Action<E>, w': World<E>, e: E)
    requires Inv(w) && w.Steps(a, w') && e in w.s.fields && Held(w.s.fields[e])
    ensures e in w'.s.fields && Explained(w, a, e, w'.s.fields[e])
  {
    hide Inv, World.Steps, Explained;
    if !Answering(a) {
      OthersLeaveRows(w, a, w');
      SameExplains(w, a, e, w'.s.fields[e]);
    } else if a.FlushAnswered? {
      FlushAnsweredIs(w, a, w');
      FlushAnsweredExplains(w, a.f, a.versions, e);
    } else {
      AnsweredIs(w, a, w');
      hide World.AfterOpenAnswered, World.AfterOpenFailed, World.AfterRerunAnswered, World.AfterRerunFailed;
      match a
      case OpenAnswered(x, p, version) => OpenAnsweredExplains(w, x, p, version, e);
      case OpenFailed(x, p, why) => OpenFailedExplains(w, x, p, why, e);
      case RerunAnswered(x, n, version) => RerunAnsweredExplains(w, x, n, version, e);
      case RerunFailed(x, n, why) => RerunFailedExplains(w, x, n, why, e);
    }
  }

  /** A failure is shown: its words, over the rows there were, which are no longer marked. */
  lemma FailureIsShown<E>(w: World<E>, a: Action<E>, w': World<E>, e: E, why: string)
    requires w.Steps(a, w') && Fails(w, a, e, why)
    ensures e in w'.s.fields
    ensures var f, g := w.s.fields[e], w'.s.fields[e];
            g.state == RunState(f.state.runId, f.state.run, Some(why), false)
  {
    hide World.Steps;
    AnsweredIs(w, a, w');
  }

  /** Rows come from an answer for the entry, or were kept for its page as it was made. */
  ghost predicate CameAt<E>(ws: seq<World<E>>, acts: seq<Action<E>>, i: nat, e: E, run: PageRun) {
    && i < |acts| && i + 1 < |ws|
    && if e in ws[i].s.fields then Comes(ws[i], acts[i], e, run.of, run.version)
       else acts[i].OpenPage? && acts[i].made == e && Find(ws[i].s.kept, acts[i].k) == Some(run)
  }

  lemma OpenedFields<E>(s: Store<E>, k: Key, made: E)
    requires s.Closed() && made !in s.fields
    ensures k in s.entries ==> s.Opened(k, made).fields.Keys == s.fields.Keys
    ensures k !in s.entries ==>
              && s.Opened(k, made).fields.Keys == s.fields.Keys + {made}
              && s.Opened(k, made).fields[made].state.run == Find(s.kept, k)
              && s.Opened(k, made).fields[made].state.error == None
  {
    hide Find;
  }

  lemma OpenPageIsNew<E>(w: World<E>, h: nat, k: Key, made: E, e: E)
    requires w.CanOpenPage(h, k, made) && e !in w.s.fields && e in w.AfterOpenPage(h, k, made).s.fields
    ensures made == e
    ensures w.AfterOpenPage(h, k, made).s.fields[e].state.error == None
    ensures w.AfterOpenPage(h, k, made).s.fields[e].state.run == Find(w.s.kept, k)
  {
    OpenedFields(w.s, k, made);
    hide Store.Opened, Find;
  }

  lemma {:induction false} SameKeys<E>(w: World<E>, runIds: seq<RunId>)
    requires w.s.Closed()
    ensures w.ForgotAll(runIds).s.fields.Keys == w.s.fields.Keys
  {}

  lemma ReconnectedMakesNone<E>(w: World<E>)
    requires w.s.Closed()
    ensures w.AfterReconnected().s.fields.Keys == w.s.fields.Keys
  {
    assert AllReopened(w.s.fields, w.s.entries).Keys == w.s.fields.Keys;
  }

  lemma CloseTimerMakesNone<E>(w: World<E>, e: E)
    requires w.CanCloseTimer(e)
    ensures w.AfterCloseTimer(e).s.fields.Keys == w.s.fields.Keys
  {
    hide Keep;
  }

  lemma HandleMakesNone<E>(w: World<E>, a: Action<E>, w': World<E>)
    requires w.Steps(a, w') && OfHandle(a) && !a.OpenPage?
    ensures w'.s.fields.Keys == w.s.fields.Keys
  {
    hide World.AfterOpenPage, World.CanOpenPage;
    if a.Reconnected? {
      hide World.AfterReconnected;
      ReconnectedMakesNone(w);
    } else if a.CloseTimer? {
      hide World.AfterCloseTimer, World.CanCloseTimer;
      CloseTimerMakesNone(w, a.e);
    }
  }

  lemma OpenMakesNone<E>(w: World<E>, a: Action<E>, w': World<E>)
    requires w.Steps(a, w') && OfOpen(a)
    ensures w'.s.fields.Keys == w.s.fields.Keys
  {}

  lemma RerunReadyMakesNone<E>(w: World<E>, e: E, n: nat)
    requires w.CanRerunReady(e, n)
    ensures w.AfterRerunReady(e, n).s.fields.Keys == w.s.fields.Keys
  {
    hide Store.RerunWithoutRun, Store.Current, Store.Closed;
    var x := w.reruns[(e, n)];
    if w.s.Current(e, x.fences) {
      match w.opens[(e, x.phase.promise)].answer
      case None =>
      case Some(_) =>
    }
  }

  lemma RestMakesNone<E>(w: World<E>, a: Action<E>, w': World<E>)
    requires w.Steps(a, w') && !OfHandle(a) && !OfOpen(a)
    ensures w'.s.fields.Keys == w.s.fields.Keys
  {
    if a.Reopen? {
      SameKeys(w, a.runIds);
    } else if a.RerunReady? {
      hide World.AfterRerunReady;
      RerunReadyMakesNone(w, a.e, a.n);
    }
  }

  lemma OthersMakeNone<E>(w: World<E>, a: Action<E>, w': World<E>)
    requires w.Steps(a, w') && !a.OpenPage?
    ensures w'.s.fields.Keys == w.s.fields.Keys
  {
    hide World.Steps;
    if OfHandle(a) {
      HandleMakesNone(w, a, w');
    } else if OfOpen(a) {
      OpenMakesNone(w, a, w');
    } else {
      RestMakesNone(w, a, w');
    }
  }

  lemma NewIsOpened<E>(w: World<E>, a: Action<E>, w': World<E>, e: E)
    requires w.Steps(a, w') && e !in w.s.fields && e in w'.s.fields
    ensures a.OpenPage? && a.made == e && w'.s.fields[e].state.error == None
    ensures w'.s.fields[e].state.run == Find(w.s.kept, a.k)
  {
    if a.OpenPage? {
      hide World.Steps, World.CanOpenPage, World.AfterOpenPage;
      OpenPageIs(w, a, w');
      OpenPageIsNew(w, a.h, a.k, a.made, e);
    } else {
      OthersMakeNone(w, a, w');
    }
  }

  lemma HeldBefore<E>(w: World<E>, a: Action<E>, w': World<E>, e: E)
    requires Inv(w) && w.Steps(a, w') && e in w.s.fields && e in w'.s.fields && Held(w'.s.fields[e])
    ensures Held(w.s.fields[e])
  {
    hide Inv, World.Steps;
    StepOnward(w, a, w');
  }

  /** In every run: the rows of a live entry came from an answer for it, in its fences, or
      were kept for its page. */
  lemma {:induction false} RowsCameFrom<E>(ws: seq<World<E>>, acts: seq<Action<E>>, j: nat, e: E) returns (i: nat)
    requires IsRun(ws, acts) && j < |ws| && e in ws[j].s.fields && Held(ws[j].s.fields[e])
    requires ws[j].s.fields[e].state.run.Some?
    ensures i < j && CameAt(ws, acts, i, e, ws[j].s.fields[e].state.run.value)
    decreases j
  {
    hide Inv, World.Steps, Comes, Fails;
    var w, a, w' := ws[j - 1], acts[j - 1], ws[j];
    RunKeeps(ws, acts, j - 1);
    assert w.Steps(a, w');
    if e !in w.s.fields {
      NewIsOpened(w, a, w', e);
      i := j - 1;
    } else {
      HeldBefore(w, a, w', e);
      StepExplains(w, a, w', e);
      if w'.s.fields[e].state.run == w.s.fields[e].state.run {
        i := RowsCameFrom(ws, acts, j - 1, e);
      } else {
        i := j - 1;
      }
    }
  }

  /** In every run: the error of a live entry is a failure's that came in for it, and its
      rows are those it had then. */
  lemma {:induction false} ErrorCameFrom<E>(ws: seq<World<E>>, acts: seq<Action<E>>, j: nat, e: E) returns (i: nat)
    requires IsRun(ws, acts) && j < |ws| && e in ws[j].s.fields && Held(ws[j].s.fields[e])
    requires ws[j].s.fields[e].state.error.Some?
    ensures i < j && Fails(ws[i], acts[i], e, ws[j].s.fields[e].state.error.value)
    ensures forall k | i <= k <= j :: e in ws[k].s.fields && ws[k].s.fields[e].state.run == ws[j].s.fields[e].state.run
    decreases j
  {
    hide Inv, World.Steps, Comes, Fails;
    var w, a, w' := ws[j - 1], acts[j - 1], ws[j];
    RunKeeps(ws, acts, j - 1);
    assert w.Steps(a, w');
    if e !in w.s.fields {
      NewIsOpened(w, a, w', e);
    } else {
      HeldBefore(w, a, w', e);
      StepExplains(w, a, w', e);
      if SameRows(w.s.fields[e], w'.s.fields[e]) {
        i := ErrorCameFrom(ws, acts, j - 1, e);
      } else {
        i := j - 1;
      }
    }
  }
}
