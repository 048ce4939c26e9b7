/** A page that comes back shows the rows it closed with, if it is among the last 32 closed. */
module PageRunKept {
  import opened Basics
  import opened PageRunStore
  import opened PageRunWorld
  import opened PageRunTheorems
  import opened PageRunAnswers
  import Memo = ScanMemo

  type Closing = (Key, PageRun)

  // ---- What is kept after any closings

  ghost function KeptAfter(history: seq<Closing>): seq<Closing> {
    if history == [] then []
    else
      var n := |history| - 1;
      Keep(KeptAfter(history[..n]), history[n].0, history[n].1)
  }

  /** The rows a page last closed with. */
  function LastRows(history: seq<Closing>, k: Key): Option<PageRun> {
    if history == [] then None
    else
      var n := |history| - 1;
      if history[n].0 == k then Some(history[n].1) else LastRows(history[..n], k)
  }

  lemma {:induction false} WithoutKeys(kept: seq<Closing>, k: Key)
    ensures Memo.KeysOf(Without(kept, k)) == Memo.Without(Memo.KeysOf(kept), k)
  {
    if kept != [] {
      WithoutKeys(kept[1..], k);
      assert Memo.KeysOf(kept)[1..] == Memo.KeysOf(kept[1..]);
    }
  }

  lemma KeepKeys(kept: seq<Closing>, k: Key, run: PageRun)
    ensures Memo.KeysOf(Keep(kept, k, run)) == Memo.Touched(Memo.KeysOf(kept), k, 32)
  {
    var next := Without(kept, k) + [(k, run)];
    WithoutKeys(kept, k);
    assert Memo.KeysOf(next) == Memo.Without(Memo.KeysOf(kept), k) + [k];
    assert Memo.KeysOf(next)[1..] == Memo.KeysOf(next[1..]);
  }

  lemma {:induction false} KeptKeys(history: seq<Closing>)
    ensures Memo.KeysOf(KeptAfter(history)) == Memo.AfterAll(Memo.KeysOf(history), 32)
  {
    if history != [] {
      var n := |history| - 1;
      KeptKeys(history[..n]);
      KeepKeys(KeptAfter(history[..n]), history[n].0, history[n].1);
      assert Memo.KeysOf(history)[..n] == Memo.KeysOf(history[..n]);
    }
  }

  lemma {:induction false} WithoutRows(kept: seq<Closing>, k: Key)
    ensures forall x | x in Without(kept, k) :: x in kept && x.0 != k
  {
    if kept != [] { WithoutRows(kept[1..], k); }
  }

  lemma {:induction false} KeptRows(history: seq<Closing>)
    ensures forall x | x in KeptAfter(history) :: LastRows(history, x.0) == Some(x.1)
  {
    if history != [] {
      var n := |history| - 1;
      KeptRows(history[..n]);
      WithoutRows(KeptAfter(history[..n]), history[n].0);
    }
  }

  lemma {:induction false} FoundIsKept(kept: seq<Closing>, k: Key)
    ensures Find(kept, k).Some? <==> k in Memo.KeysOf(kept)
    ensures Find(kept, k).Some? ==> (k, Find(kept, k).value) in kept
  {
    if kept != [] {
      FoundIsKept(kept[1..], k);
      var keys := Memo.KeysOf(kept);
      assert keys == [kept[0].0] + Memo.KeysOf(kept[1..]);
    }
  }

  // ---- In a run

  /** The rows `a` closes a page with. */
  ghost function Closes<E>(w: World<E>, a: Action<E>): seq<Closing> {
    match a
    case CloseTimer(e) =>
      if e in w.s.fields && w.s.fields[e].refs <= 0 && w.s.fields[e].state.run.Some?
      then [(w.s.fields[e].key, w.s.fields[e].state.run.value)] else []
    case _ => []
  }

  /** The pages that closed, each with the rows it showed. */
  ghost function Closings<E>(ws: seq<World<E>>, acts: seq<Action<E>>, j: nat): seq<Closing>
    requires j <= |acts| && j <= |ws|
  {
    if j == 0 then [] else Closings(ws, acts, j - 1) + Closes(ws[j - 1], acts[j - 1])
  }

  lemma {:induction false} ForgotAllKeeps<E>(w: World<E>, runIds: seq<RunId>)
    requires w.s.Closed()
    ensures w.ForgotAll(runIds).s.kept == w.s.kept
    decreases |runIds|
  {
    if runIds != [] { ForgotAllKeeps(w.Forgot(runIds[0]), runIds[1..]); }
  }

  lemma CloseTimerCloses<E>(w: World<E>, e: E)
    requires w.CanCloseTimer(e)
    ensures var c := Closes(w, CloseTimer(e));
            w.AfterCloseTimer(e).s.kept == if c == [] then w.s.kept else Keep(w.s.kept, c[0].0, c[0].1)
  {}

  lemma OpenKeeps<E>(w: World<E>, a: Action<E>, w': World<E>)
    requires w.Steps(a, w') && OfOpen(a)
    ensures w'.s.kept == w.s.kept
  {}

  lemma FetchKeeps<E>(w: World<E>, a: Action<E>, w': World<E>)
    requires w.Steps(a, w') && OfFetch(a)
    ensures w'.s.kept == w.s.kept
  {
    if a.Reopen? { ForgotAllKeeps(w, a.runIds); }
  }

  lemma OpenPageKeeps<E>(w: World<E>, h: nat, k: Key, made: E)
    requires w.CanOpenPage(h, k, made)
    ensures w.AfterOpenPage(h, k, made).s.kept == w.s.kept
  {
    hide Store.Opened;
  }

  lemma ShowingKeeps<E>(w: World<E>, a: Action<E>, w': World<E>)
    requires w.Steps(a, w') && OfHandle(a) && !a.CloseTimer? && !a.OpenPage?
    ensures w'.s.kept == w.s.kept
  {}

  lemma HandleKeeps<E>(w: World<E>, a: Action<E>, w': World<E>)
    requires w.Steps(a, w') && OfHandle(a) && !a.CloseTimer?
    ensures w'.s.kept == w.s.kept
  {
    hide World.Steps, World.AfterOpenPage, World.CanOpenPage;
    if a.OpenPage? {
      OpenPageIs(w, a, w');
      OpenPageKeeps(w, a.h, a.k, a.made);
    } else {
      ShowingKeeps(w, a, w');
    }
  }

  lemma RerunReadyKeeps<E>(w: World<E>, e: E, n: nat)
    requires w.CanRerunReady(e, n)
    ensures w.AfterRerunReady(e, n).s.kept == w.s.kept
  {
    hide Store.RerunWithoutRun, Store.Current, Store.Closed;
    var x := w.reruns[(e, n)];
    if w.s.Current(e, x.fences) {
      match w.opens[(e, x.phase.promise)].answer
      case None =>
      case Some(_) =>
    }
  }

  lemma RerunKeeps<E>(w: World<E>, a: Action<E>, w': World<E>)
    requires w.Steps(a, w') && !OfOpen(a) && !OfFetch(a) && !OfHandle(a)
    ensures w'.s.kept == w.s.kept
  {
    if a.RerunReady? {
      hide World.AfterRerunReady, World.CanRerunReady;
      RerunReadyKeeps(w, a.e, a.n);
    }
  }

  lemma StepCloses<E>(w: World<E>, a: Action<E>, w': World<E>)
    requires w.Steps(a, w')
    ensures var c := Closes(w, a); w'.s.kept == if c == [] then w.s.kept else Keep(w.s.kept, c[0].0, c[0].1)
  {
    hide World.Steps;
    if a.CloseTimer? {
      CloseTimerIs(w, a, w');
      CloseTimerCloses(w, a.e);
    } else if OfOpen(a) {
      OpenKeeps(w, a, w');
    } else if OfFetch(a) {
      FetchKeeps(w, a, w');
    } else if OfHandle(a) {
      HandleKeeps(w, a, w');
    } else {
      RerunKeeps(w, a, w');
    }
  }

  lemma KeptOn(history: seq<Closing>, c: Closing)
    ensures KeptAfter(history + [c]) == Keep(KeptAfter(history), c.0, c.1)
  {
    assert (history + [c])[..|history|] == history;
  }

  lemma OneCloses<E>(w: World<E>, a: Action<E>)
    ensures |Closes(w, a)| <= 1
  {}

  lemma NoneKept()
    ensures KeptAfter([]) == []
  {}

  lemma KeptStep(history: seq<Closing>, c: seq<Closing>, kept: seq<Closing>)
    requires |c| <= 1 && kept == if c == [] then KeptAfter(history) else Keep(KeptAfter(history), c[0].0, c[0].1)
    ensures kept == KeptAfter(history + c)
  {
    if c == [] {
      assert history + c == history;
    } else {
      assert c == [c[0]];
      KeptOn(history, c[0]);
    }
  }

  lemma {:induction false} RunKept<E>(ws: seq<World<E>>, acts: seq<Action<E>>, j: nat)
    requires IsRun(ws, acts) && j < |ws|
    ensures ws[j].s.kept == KeptAfter(Closings(ws, acts, j))
    decreases j
  {
    hide World.Steps, Closes, KeptAfter, Keep;
    if j == 0 {
      NoneKept();
    } else {
      RunKept(ws, acts, j - 1);
      assert ws[j - 1].Steps(acts[j - 1], ws[j]);
      StepCloses(ws[j - 1], acts[j - 1], ws[j]);
      OneCloses(ws[j - 1], acts[j - 1]);
      KeptStep(Closings(ws, acts, j - 1), Closes(ws[j - 1], acts[j - 1]), ws[j].s.kept);
    }
  }

  /** In every run: what is kept for a page is what it last closed with, for just the last
      32 pages to close. */
  lemma KeepsTheLastClosed<E>(ws: seq<World<E>>, acts: seq<Action<E>>, j: nat, k: Key)
    requires IsRun(ws, acts) && j < |ws|
    ensures var history := Closings(ws, acts, j);
            Find(ws[j].s.kept, k)
            == if k in Memo.Newest(Memo.ByLatest(Memo.KeysOf(history)), 32) then LastRows(history, k) else None
  {
    var history := Closings(ws, acts, j);
    RunKept(ws, acts, j);
    KeptKeys(history);
    Memo.HoldsTheLatest(Memo.KeysOf(history), 32);
    KeptRows(history);
    FoundIsKept(ws[j].s.kept, k);
    hide Find, KeptAfter, LastRows, Memo.Newest, Memo.ByLatest, Closings, IsRun;
  }

  lemma OpenPageShows<E>(w: World<E>, h: nat, k: Key, made: E)
    requires w.CanOpenPage(h, k, made) && k !in w.s.entries
    ensures var w' := w.AfterOpenPage(h, k, made);
            && k in w'.s.entries && w'.s.entries[k] == made && made in w'.s.fields
            && var rows := Find(w.s.kept, k);
               w'.s.fields[made].state == RunState(None, rows, None, rows.Some?)
  {}

  /** So a page that is opened anew shows, marked stale, the rows it last closed with, when
      fewer than 32 others closed since. */
  lemma ComesBackWithItsRows<E>(ws: seq<World<E>>, acts: seq<Action<E>>, j: nat, h: nat, k: Key, made: E)
    requires IsRun(ws, acts) && j < |acts| && acts[j] == OpenPage(h, k, made) && k !in ws[j].s.entries
    ensures k in ws[j + 1].s.entries && ws[j + 1].s.entries[k] == made && made in ws[j + 1].s.fields
    ensures var history, state := Closings(ws, acts, j), ws[j + 1].s.fields[made].state;
            && state.run == (if k in Memo.Newest(Memo.ByLatest(Memo.KeysOf(history)), 32) then LastRows(history, k)
                             else None)
            && state.stale == state.run.Some? && state.runId == None && state.error == None
  {
    KeepsTheLastClosed(ws, acts, j, k);
    OpenPageIs(ws[j], acts[j], ws[j + 1]);
    OpenPageShows(ws[j], h, k, made);
    hide Find, World.AfterOpenPage, Memo.Newest, Memo.ByLatest, Closings, LastRows;
  }
}
